/** Accepting new clients. */
module Accepting {
  import opened Connections
  import opened HeapModel
  import opened Kernels
  import opened History
  import opened ConnectionQueue
  import opened Serving
  import opened Evictions

  lemma RoomForClients(clients: set<nat>, limit: nat)
    requires forall fd | fd in clients :: fd < limit
    ensures |clients| <= limit
  {
    SubsetSize(clients, Below(limit));
  }

  lemma SettledGrows(m: map<nat, Connection>, now: int, clients: set<nat>, fd: nat)
    requires SettledMap(m, now, clients)
    ensures SettledMap(m, now, clients + {fd})
  {
  }

  /** An answer of accept leaves queue, promises and order alone. */
  lemma AcceptIsSound(q: Queue, log: seq<Call>, call: Call, clients: set<nat>, now: int, repaired: bool)
    requires Coherent(q) && Tracked(q, log, repaired) && Promises(log, |q.index|, repaired)
    requires SettledMap(Contents(q), now, clients)
    requires call.Refused? || (call.Accepted? && call.fd !in clients)
    ensures Tracked(q, log + [call], repaired) && Promises(log + [call], |q.index|, repaired)
    ensures Always(log + [call], MeetsGuard(|q.index|, repaired)) ==> Always(log, MeetsGuard(|q.index|, repaired))
    ensures NoWait(log, log + [call])
  {
    hide Promises, Coherent, Replay, Report, Tracked, Contents, LastRearm, Always, LastWait, NoWait;
    TrackedOther(q, log, repaired, call);
    PromisesOther(log, call, |q.index|, repaired);
    NoWaitSnoc(log, call);
  }

  method AcceptOne(q: QueueConnections, k: Kernel) returns (accepted: bool, ghost fd: nat)
    requires Sound(q, k)
    modifies k`step, k`sockets, k`armed, k`incoming, k`wire, k`log
    ensures Sound(q, k) && k.step >= old(k.step)
    ensures accepted == old(k.Admits(k.arrivals(|k.log|)))
    ensures accepted ==> && k.sockets == old(k.sockets) + {fd} && fd !in old(k.sockets)
                         && k.arrivals(old(|k.log|)) == Client(fd, k.incoming[fd])
                         && k.incoming == old(k.incoming)[fd := k.incoming[fd]]
                         && k.log == old(k.log) + [Accepted(fd)]
    ensures !accepted ==> && k.sockets == old(k.sockets) && k.incoming == old(k.incoming)
                          && k.log == old(k.log) + [Refused]
    ensures NoWait(old(k.log), k.log)
  {
    hide Logged, Coherent, Contents, SettledMap, Promises, Tracked, Report, Always, MeetsGuard, Smooth;
    hide LastWait, HeapOrdered;
    ghost var clients, log := k.sockets, k.log;
    var ok, clientFd := k.Accept();
    accepted, fd := ok, clientFd;
    AcceptIsSound(q.Model(), log, if accepted then Accepted(fd) else Refused, clients, k.now, q.repaired);
    if accepted {
      SettledGrows(Contents(q.Model()), k.now, clients, clientFd);
      k.EpollAdd(clientFd);
    }
  }

  function Accepts(fds: seq<nat>): seq<Call> {
    seq(|fds|, i requires 0 <= i < |fds| => Accepted(fds[i]))
  }

  /** The clients `fds` arrived, one after the other. */
  ghost predicate Arrived(k: Kernel, fds: seq<nat>, clients: set<nat>, log: seq<Call>,
                          clients': set<nat>, incoming: map<nat, string>, incoming': map<nat, string>)
  {
    && clients' == clients + Members(fds)
    && (forall i | 0 <= i < |fds| ::
          fds[i] !in clients && fds[i] in incoming'
          && k.arrivals(|log| + i) == Client(fds[i], incoming'[fds[i]]))
    && (forall i, j | 0 <= i < j < |fds| :: fds[i] != fds[j])
    && (forall fd | fd in incoming && fd !in fds :: fd in incoming' && incoming'[fd] == incoming[fd])
  }

  lemma OneMoreArrived(k: Kernel, fds: seq<nat>, fd: nat, clients: set<nat>, log: seq<Call>, clients1: set<nat>,
                       incoming: map<nat, string>, incoming1: map<nat, string>, incoming2: map<nat, string>)
    requires Arrived(k, fds, clients, log, clients1, incoming, incoming1) && fd !in clients1
    requires fd in incoming2 && incoming2 == incoming1[fd := incoming2[fd]]
    requires k.arrivals(|log| + |fds|) == Client(fd, incoming2[fd])
    ensures Arrived(k, fds + [fd], clients, log, clients1 + {fd}, incoming, incoming2)
    ensures log + Accepts(fds) + [Accepted(fd)] == log + Accepts(fds + [fd])
  {
    assert Accepts(fds) + [Accepted(fd)] == Accepts(fds + [fd]);
    assert Members(fds + [fd]) == Members(fds) + {fd};
    forall i | 0 <= i < |fds| ensures fds[i] in Members(fds) {
    }
  }

  /** Accepting until the kernel has no more, as edge triggering demands. Every new client is
      registered, armed, and in no queue entry, so a reused number starts from a fresh record. */
  method AcceptEpollConnection(q: QueueConnections, k: Kernel) returns (ghost fds: seq<nat>)
    requires Sound(q, k)
    modifies k`step, k`sockets, k`armed, k`incoming, k`wire, k`log
    ensures Sound(q, k) && k.step >= old(k.step)
    ensures Arrived(k, fds, old(k.sockets), old(k.log), k.sockets, old(k.incoming), k.incoming)
    ensures k.log == old(k.log) + Accepts(fds) + [Refused] && !k.Admits(k.arrivals(|k.log| - 1))
    ensures NoWait(old(k.log), k.log)
    ensures forall fd | fd in fds :: fd in k.armed && fd !in Contents(q.Model())
  {
    hide Logged, Coherent, Contents, SettledMap, Promises, Tracked, Report, Always, MeetsGuard, Smooth;
    hide LastWait, HeapOrdered, Arrived;
    hide NoWait, Accepts;
    EntriesAreClients(q, k);
    fds := [];
    NobodyArrived(k, k.sockets, k.log, k.incoming);
    NoWaitYet(k.log);
    var accepted := true;
    while accepted
      invariant Sound(q, k) && k.step >= old(k.step)
      invariant Arrived(k, fds, old(k.sockets), old(k.log), k.sockets, old(k.incoming), k.incoming)
      invariant accepted ==> k.log == old(k.log) + Accepts(fds)
      invariant !accepted ==> k.log == old(k.log) + Accepts(fds) + [Refused] && !k.Admits(k.arrivals(|k.log| - 1))
      invariant NoWait(old(k.log), k.log)
      decreases accepted, k.limit - |k.sockets|
    {
      accepted, fds := AcceptNext(q, k, fds, old(k.sockets), old(k.log), old(k.incoming));
    }
    NewClients(k, fds, old(k.sockets), old(k.log), k.sockets, old(k.incoming), k.incoming);
  }

  lemma EntriesAreClients(q: QueueConnections, k: Kernel)
    requires Settled(q, k)
    ensures Contents(q.Model()).Keys <= k.sockets
  {
  }

  /** One turn of the accept loop. */
  method AcceptNext(q: QueueConnections, k: Kernel, ghost fds0: seq<nat>, ghost clients: set<nat>,
                    ghost log: seq<Call>, ghost incoming: map<nat, string>)
    returns (accepted: bool, ghost fds: seq<nat>)
    requires Sound(q, k) && k.log == log + Accepts(fds0)
    requires Arrived(k, fds0, clients, log, k.sockets, incoming, k.incoming)
    requires NoWait(log, k.log)
    modifies k`step, k`sockets, k`armed, k`incoming, k`wire, k`log
    ensures Sound(q, k) && k.step >= old(k.step)
    ensures |k.sockets| <= k.limit && (accepted ==> |k.sockets| > |old(k.sockets)|)
    ensures Arrived(k, fds, clients, log, k.sockets, incoming, k.incoming)
    ensures accepted ==> k.log == log + Accepts(fds)
    ensures !accepted ==> k.log == log + Accepts(fds) + [Refused] && !k.Admits(k.arrivals(|k.log| - 1))
    ensures NoWait(log, k.log)
  {
    hide Logged, Coherent, Contents, SettledMap, Promises, Tracked, Report, Always, MeetsGuard, Smooth;
    hide LastWait, HeapOrdered;
    hide Arrived, NoWait, Accepts;
    ghost var fd, clients1, incoming1, log1 := 0, k.sockets, k.incoming, k.log;
    AcceptsLength(log, fds0);
    accepted, fd := AcceptOne(q, k);
    NoWaitTwice(log, log1, k.log);
    fds := fds0;
    if accepted {
      OneMoreArrived(k, fds0, fd, clients, log, clients1, incoming, incoming1, k.incoming);
      fds := fds + [fd];
    }
    RoomForClients(k.sockets, k.limit);
  }

  lemma AcceptsLength(log: seq<Call>, fds: seq<nat>)
    ensures |log + Accepts(fds)| == |log| + |fds|
  {
  }

  lemma NobodyArrived(k: Kernel, clients: set<nat>, log: seq<Call>, incoming: map<nat, string>)
    ensures Arrived(k, [], clients, log, clients, incoming, incoming) && log + Accepts([]) == log
  {
  }

  lemma NewClients(k: Kernel, fds: seq<nat>, clients: set<nat>, log: seq<Call>, clients': set<nat>,
                   incoming: map<nat, string>, incoming': map<nat, string>)
    requires Arrived(k, fds, clients, log, clients', incoming, incoming')
    ensures forall fd | fd in fds :: fd in clients' && fd !in clients
  {
  }
}
