/** What every call of the event loop keeps, and the eviction of expired connections. */
module Evictions {
  import opened Connections
  import opened HeapModel
  import opened Kernels
  import opened Lateness
  import opened History
  import opened ConnectionQueue
  import opened Serving

  // ---------- What every call of the loop keeps ----------

  /** Settled between events, with a log that keeps its promises, and a heap that is in order if the
      log says that every close met the guard. */
  ghost predicate Sound(q: QueueConnections, k: Kernel)
    reads q, q.connections, q.indexQueue, k
  {
    && Settled(q, k)
    && Promises(k.log, q.capacity, q.repaired)
    && (Always(k.log, MeetsGuard(q.capacity, q.repaired)) ==> HeapOrdered(q.Model().heap))
  }

  /** If all went smoothly, the ages at a prompt check at `now` meet the lateness bound. */
  ghost predicate Timely(log: seq<Call>, m: map<nat, Connection>, now: int) {
    Smooth(log) && PromptSince(log, now) ==> OnTime(m, now)
  }

  /** Nothing was taken back: the log has grown by calls that are not waits. */
  ghost predicate NoWait(log: seq<Call>, log': seq<Call>) {
    log <= log' && LastWait(log') == LastWait(log)
  }

  lemma NoWaitSnoc(log: seq<Call>, call: Call)
    requires !call.Waited?
    ensures NoWait(log, log + [call])
  {
    LogSnoc(log, call);
  }

  lemma NoWaitYet(log: seq<Call>)
    ensures NoWait(log, log)
  {
  }

  lemma NoWaitTwice(log: seq<Call>, mid: seq<Call>, log': seq<Call>)
    requires NoWait(log, mid) && NoWait(mid, log')
    ensures NoWait(log, log')
  {
  }

  /** Nobody is waiting to be served. */
  ghost predicate AllServed(clients: set<nat>, log: seq<Call>) {
    forall fd | fd in clients :: Report(log, fd) != Some(true)
  }

  // ---------- The queue after the evictions ----------

  ghost function Members(s: seq<nat>): set<nat> {
    set fd | fd in s
  }

  ghost predicate Distinct(fds: seq<nat>) {
    forall i, j | 0 <= i < j < |fds| :: fds[i] != fds[j]
  }

  predicate Expired(m: map<nat, Connection>, now: int, fd: nat) {
    fd in m && Age(m[fd], now) >= KEEP_ALIVE_TIMEOUT
  }

  predicate RootExpired(q: Queue, now: int) {
    |q.heap| > 0 && Age(q.heap[0], now) >= KEEP_ALIVE_TIMEOUT
  }

  ghost function WithoutRoot(q: Queue, repaired: bool): (r: Queue)
    requires Coherent(q) && |q.heap| > 0
    ensures Coherent(r) && |r.index| == |q.index| && |r.heap| == |q.heap| - 1
    ensures Contents(r) == Contents(q) - {q.heap[0].clientFd}
  {
    DeleteByFdRefines(q, q.heap[0].clientFd, repaired);
    DeleteByFd(q, q.heap[0].clientFd, repaired)
  }

  /** Whom a check at `now` evicts, in this order: the root, as long as it has expired. */
  ghost function Evicted(q: Queue, now: int, repaired: bool): seq<nat>
    requires Coherent(q)
    decreases |q.heap|
  {
    if RootExpired(q, now) then [q.heap[0].clientFd] + Evicted(WithoutRoot(q, repaired), now, repaired) else []
  }

  ghost function Remaining(q: Queue, now: int, repaired: bool): Queue
    requires Coherent(q)
    decreases |q.heap|
  {
    if RootExpired(q, now) then Remaining(WithoutRoot(q, repaired), now, repaired) else q
  }

  lemma RootIsIn(q: Queue)
    requires Coherent(q) && |q.heap| > 0
    ensures var fd := q.heap[0].clientFd;
            fd < |q.index| && q.index[fd] == 0 && fd in Contents(q) && Contents(q)[fd] == q.heap[0]
  {
  }

  lemma FirstMember(fd: nat, rest: seq<nat>)
    ensures Members([fd] + rest) == {fd} + Members(rest)
    ensures Distinct(rest) && fd !in rest ==> Distinct([fd] + rest)
  {
  }

  /** Only expired connections go, each once, and those that remain are as before. */
  lemma {:induction false} EvictedAreExpired(q: Queue, now: int, repaired: bool)
    requires Coherent(q)
    ensures var evicted, left := Evicted(q, now, repaired), Remaining(q, now, repaired);
            && Coherent(left) && |left.index| == |q.index| && !RootExpired(left, now)
            && Contents(left) == Contents(q) - Members(evicted) && Distinct(evicted)
            && forall fd | fd in evicted :: Expired(Contents(q), now, fd)
    decreases |q.heap|
  {
    hide Coherent, Contents, Distinct, Members;
    if RootExpired(q, now) {
      var fd, rest := q.heap[0].clientFd, WithoutRoot(q, repaired);
      RootIsIn(q);
      EvictedAreExpired(rest, now, repaired);
      FirstMember(fd, Evicted(rest, now, repaired));
    } else {
      NothingEvicted();
    }
  }

  lemma NothingEvicted()
    ensures Members([]) == {} && Distinct([])
  {
  }

  ghost predicate Sorted(evicted: seq<nat>, m: map<nat, Connection>) {
    && (forall i | 0 <= i < |evicted| :: evicted[i] in m)
    && (forall i, j | 0 <= i < j < |evicted| :: m[evicted[i]].priorityTime <= m[evicted[j]].priorityTime)
  }

  lemma RootIsOldest(q: Queue)
    requires Coherent(q) && |q.heap| > 0 && HeapOrdered(q.heap)
    ensures forall fd | fd in Contents(q) :: q.heap[0].priorityTime <= Contents(q)[fd].priorityTime
  {
    forall fd | fd in Contents(q) ensures q.heap[0].priorityTime <= Contents(q)[fd].priorityTime {
      RootIsMinimal(q.heap, q.index[fd]);
    }
  }

  /** From an ordered heap exactly the expired connections go, oldest first. */
  lemma {:induction false} EvictedInOrder(q: Queue, now: int, repaired: bool)
    requires Coherent(q) && HeapOrdered(q.heap)
    ensures var left := Remaining(q, now, repaired);
            && Coherent(left) && HeapOrdered(left.heap)
            && Contents(left) == Survivors(Contents(q), now) && Sorted(Evicted(q, now, repaired), Contents(q))
    decreases |q.heap|
  {
    hide Coherent, Contents, HeapOrdered, DeleteByFd;
    if RootExpired(q, now) {
      var rest := WithoutRoot(q, repaired);
      RootIsIn(q);
      RootIsOldest(q);
      DeleteByFdOrder(q, q.heap[0].clientFd, repaired);
      EvictedInOrder(rest, now, repaired);
      assert Survivors(Contents(rest), now) == Survivors(Contents(q), now);
    } else if |q.heap| > 0 {
      RootIsOldest(q);
      assert Survivors(Contents(q), now) == Contents(q);
    } else {
      EmptyContents(q);
    }
  }

  lemma EmptyContents(q: Queue)
    requires Coherent(q) && |q.heap| == 0
    ensures Contents(q) == map[]
  {
  }

  /** Nothing expired is left exactly if nothing expired is hidden below a live record. */
  lemma LeftIsSwept(q: Queue, now: int)
    requires Coherent(q) && !RootExpired(q, now)
    ensures (forall fd | fd in Contents(q) :: !Expired(Contents(q), now, fd)) <==> Surfaced(q.heap, now)
  {
    if Surfaced(q.heap, now) {
      forall fd | fd in Contents(q) ensures !Expired(Contents(q), now, fd) {
        NothingBelowRoot(q.heap, now, q.index[fd]);
      }
    } else {
      var i :| 0 < i < |q.heap| && Age(q.heap[i], now) >= KEEP_ALIVE_TIMEOUT
               && Age(q.heap[Parent(i)], now) < KEEP_ALIVE_TIMEOUT;
      assert q.heap[i].clientFd in Contents(q) && Contents(q)[q.heap[i].clientFd] == q.heap[i];
    }
  }

  // ---------- The loop over expired connections ----------

  /** The closes of evictions, all in the same second. */
  function Closes(fds: seq<nat>, at: int): seq<Call> {
    seq(|fds|, i requires 0 <= i < |fds| => Closed(fds[i], at))
  }

  /** If the log says that the heap was in order before every eviction, it was so at the start. */
  ghost predicate InOrderBefore(was: Queue, q: Queue, log: seq<Call>, size: nat, repaired: bool) {
    Always(log, OrderedCheck(size, repaired)) && HeapOrdered(q.heap) ==> HeapOrdered(was.heap)
  }

  /** The loop over expired connections. It ends, because the guard on existence never skips; it
      evicts the root as long as it has expired, and so only expired connections; and from an ordered
      heap exactly those, oldest first. */
  method EvictExpired(q: QueueConnections, k: Kernel, now: int) returns (evicted: seq<nat>)
    requires Sound(q, k) && k.now == now && AllServed(k.sockets, k.log)
    requires Timely(k.log, Contents(q.Model()), now)
    modifies q`currentSize, q.connections, q.indexQueue, k`armed, k`sockets, k`files, k`log
    ensures Sound(q, k) && AllServed(k.sockets, k.log)
    ensures evicted == Evicted(old(q.Model()), now, q.repaired)
    ensures q.Model() == Remaining(old(q.Model()), now, q.repaired)
    ensures k.sockets == old(k.sockets) - Members(evicted)
    ensures k.armed == old(k.armed) - Members(evicted)
    ensures k.log == old(k.log) + Closes(evicted, now) && NoWait(old(k.log), k.log)
    ensures InOrderBefore(old(q.Model()), q.Model(), k.log, q.capacity, q.repaired)
  {
    hide Logged, Coherent, HeapOrdered, Report, Tracked, SettledMap, Contents, Promises, Always, MeetsGuard;
    hide Smooth, Timely, NoWait, Members, Closes, WithoutRoot, AllServed, InOrderBefore;
    hide SoFar;
    ghost var model := q.Model();
    ghost var before := Snapshot(model, k.log, k.sockets, k.armed);
    evicted := [];
    NothingClosed(before, now, q.capacity, q.repaired);
    var first := q.Peek();
    while first.Some? && q.connections[first.value].clientFd != 0
          && now - q.connections[first.value].priorityTime >= KEEP_ALIVE_TIMEOUT
      invariant Sound(q, k) && AllServed(k.sockets, k.log) && Timely(k.log, Contents(q.Model()), now)
      invariant first == if q.currentSize == 0 then None else Some(0)
      invariant SoFar(before, evicted, Snapshot(q.Model(), k.log, k.sockets, k.armed), now, q.capacity, q.repaired)
      decreases q.currentSize
    {
      var fd := q.connections[first.value].clientFd;
      ghost var mid := Snapshot(q.Model(), k.log, k.sockets, k.armed);
      ModelIsReplay(q, k);
      EvictFirst(q, k, now);
      OneMoreClosed(before, evicted, mid, Snapshot(q.Model(), k.log, k.sockets, k.armed), now, q.capacity,
                    q.repaired);
      evicted := evicted + [fd];
      first := q.Peek();
    }
    RootIsAClient(q, k);
    AllClosed(before, evicted, Snapshot(q.Model(), k.log, k.sockets, k.armed), now, q.capacity, q.repaired);
  }

  /** What the loop changes. */
  datatype Snapshot = Snapshot(q: Queue, log: seq<Call>, clients: set<nat>, armed: map<nat, bool>)

  /** What the loop has done so far, and that the rest of it is still to do. */
  ghost predicate SoFar(b: Snapshot, evicted: seq<nat>, a: Snapshot, now: int, size: nat, repaired: bool) {
    && Coherent(b.q) && Coherent(a.q)
    && evicted + Evicted(a.q, now, repaired) == Evicted(b.q, now, repaired)
    && Remaining(a.q, now, repaired) == Remaining(b.q, now, repaired)
    && a.clients == b.clients - Members(evicted) && a.armed == b.armed - Members(evicted)
    && a.log == b.log + Closes(evicted, now) && NoWait(b.log, a.log)
    && InOrderBefore(b.q, a.q, a.log, size, repaired)
  }

  lemma NothingClosed(b: Snapshot, now: int, size: nat, repaired: bool)
    requires Coherent(b.q)
    ensures SoFar(b, [], b, now, size, repaired)
  {
    hide Coherent;
    NothingEvicted();
    assert b.log + Closes([], now) == b.log;
  }

  lemma AllClosed(b: Snapshot, evicted: seq<nat>, a: Snapshot, now: int, size: nat, repaired: bool)
    requires SoFar(b, evicted, a, now, size, repaired) && !RootExpired(a.q, now)
    ensures evicted == Evicted(b.q, now, repaired) && a.q == Remaining(b.q, now, repaired)
    ensures a.clients == b.clients - Members(evicted) && a.armed == b.armed - Members(evicted)
    ensures a.log == b.log + Closes(evicted, now) && NoWait(b.log, a.log)
    ensures InOrderBefore(b.q, a.q, a.log, size, repaired)
  {
    hide Coherent, InOrderBefore, NoWait, Members, Closes;
  }

  lemma OneMoreClosed(b: Snapshot, evicted: seq<nat>, mid: Snapshot, a: Snapshot, now: int, size: nat, repaired: bool)
    requires SoFar(b, evicted, mid, now, size, repaired) && RootExpired(mid.q, now)
    requires a.q == WithoutRoot(mid.q, repaired) && mid.q == Replay(mid.log, size, repaired)
    requires var fd := mid.q.heap[0].clientFd;
             && Report(mid.log, fd) != Some(true) && a.log == mid.log + [Closed(fd, now)]
             && a.clients == mid.clients - {fd} && a.armed == mid.armed - {fd}
    ensures SoFar(b, evicted + [mid.q.heap[0].clientFd], a, now, size, repaired)
  {
    hide Coherent, WithoutRoot, InOrderBefore, Report, Replay;
    var fd := mid.q.heap[0].clientFd;
    assert Closes(evicted, now) + [Closed(fd, now)] == Closes(evicted + [fd], now);
    assert Members(evicted + [fd]) == Members(evicted) + {fd};
    assert evicted + ([fd] + Evicted(a.q, now, repaired)) == (evicted + [fd]) + Evicted(a.q, now, repaired);
    NoWaitSnoc(mid.log, Closed(fd, now));
    StillInOrderBefore(b.q, mid.q, mid.log, a.q, fd, now, size, repaired);
  }

  lemma StillInOrderBefore(was: Queue, mid: Queue, log: seq<Call>, q: Queue, fd: nat, now: int,
                           size: nat, repaired: bool)
    requires InOrderBefore(was, mid, log, size, repaired)
    requires mid == Replay(log, size, repaired) && Report(log, fd) != Some(true)
    ensures InOrderBefore(was, q, log + [Closed(fd, now)], size, repaired)
  {
    hide Always, HeapOrdered, Report, Replay;
    AlwaysSnoc(log, Closed(fd, now), OrderedCheck(size, repaired));
  }

  lemma ModelIsReplay(q: QueueConnections, k: Kernel)
    requires Settled(q, k)
    ensures q.Model() == Replay(k.log, q.capacity, q.repaired)
  {
    hide Logged, Replay;
  }

  /** No client has descriptor 0, so the loop never stops early on it. */
  lemma RootIsAClient(q: QueueConnections, k: Kernel)
    requires Settled(q, k)
    ensures q.currentSize > 0 ==> q.connections[0].clientFd != 0 && q.connections[0].clientFd in k.sockets
  {
    hide Logged;
    if q.currentSize > 0 {
      assert q.Model().heap[0].clientFd in Contents(q.Model());
    }
  }

  lemma EvictedSettles(q: Queue, fd: nat, log: seq<Call>, now: int, clients: set<nat>, repaired: bool)
    requires Coherent(q) && SettledMap(Contents(q), now, clients) && fd in Contents(q)
    requires Tracked(q, log, repaired)
    ensures var r := DeleteByFd(q, fd, repaired);
            && Coherent(r) && Contents(r) == Contents(q) - {fd}
            && SettledMap(Contents(r), now, clients - {fd}) && BodyOf(q, fd) == -1
            && Tracked(r, log + [Closed(fd, now)], repaired)
  {
    hide DeleteByFd, Tracked;
    SettledHoldsNoBody(q, now, clients);
    TrackedClose(q, log, repaired, fd, now);
  }

  /** An eviction of an expired connection keeps the promises of the log. */
  lemma EvictionKeepsPromises(q: Queue, fd: nat, log: seq<Call>, now: int, repaired: bool)
    requires Coherent(q) && Tracked(q, log, repaired) && Promises(log, |q.index|, repaired)
    requires fd in Contents(q) && Age(Contents(q)[fd], now) >= KEEP_ALIVE_TIMEOUT
    requires Timely(log, Contents(q), now)
    requires Always(log, MeetsGuard(|q.index|, repaired)) ==> HeapOrdered(q.heap)
    ensures Promises(log + [Closed(fd, now)], |q.index|, repaired)
    ensures Timely(log + [Closed(fd, now)], Contents(q) - {fd}, now)
    ensures Always(log + [Closed(fd, now)], MeetsGuard(|q.index|, repaired)) ==>
              Always(log, MeetsGuard(|q.index|, repaired))
  {
    hide Promises, Coherent, Replay, Report, Contents, Always, HeapOrdered;
    assert LastRearm(log, fd) == Some(Contents(q)[fd].priorityTime);
    NotAWait(log, Closed(fd, now), |q.index|, repaired);
    PromisesSnoc(log, Closed(fd, now), |q.index|, repaired);
    LogSnoc(log, Closed(fd, now));
    AlwaysSnoc(log, Closed(fd, now), Swept);
    AlwaysSnoc(log, Closed(fd, now), Punctual);
    AlwaysSnoc(log, Closed(fd, now), MeetsGuard(|q.index|, repaired));
  }

  lemma ServedAfterClose(clients: set<nat>, log: seq<Call>, fd: nat, now: int)
    requires AllServed(clients, log)
    ensures AllServed(clients - {fd}, log + [Closed(fd, now)])
  {
    hide Report;
    LogSnoc(log, Closed(fd, now));
  }

  /** One turn of the loop over expired connections. */
  method EvictFirst(q: QueueConnections, k: Kernel, now: int)
    requires Sound(q, k) && RootExpired(q.Model(), now) && k.now == now && AllServed(k.sockets, k.log)
    requires Timely(k.log, Contents(q.Model()), now)
    modifies q`currentSize, q.connections, q.indexQueue, k`armed, k`sockets, k`files, k`log
    ensures Sound(q, k) && AllServed(k.sockets, k.log) && Timely(k.log, Contents(q.Model()), now)
    ensures q.Model() == WithoutRoot(old(q.Model()), q.repaired)
    ensures var fd := old(q.connections[0].clientFd);
            && fd in old(k.sockets) && Report(old(k.log), fd) != Some(true)
            && k.sockets == old(k.sockets) - {fd} && k.armed == old(k.armed) - {fd}
            && k.log == old(k.log) + [Closed(fd, now)]
  {
    hide Logged, HeapOrdered, Coherent, SettledMap, Contents, DeleteByFd, Tracked, Report, Promises, Timely;
    hide Smooth;
    hide LastWait, Always, MeetsGuard;
    ghost var model := q.Model();
    RootIsAClient(q, k);
    RootIsIn(model);
    var fd := q.connections[0].clientFd;
    assert WithoutRoot(model, q.repaired) == DeleteByFd(model, fd, q.repaired);
    if HeapOrdered(model.heap) {
      DeleteByFdOrder(model, fd, q.repaired);
    }
    EvictedSettles(model, fd, k.log, now, k.sockets, q.repaired);
    EvictionKeepsPromises(model, fd, k.log, now, q.repaired);
    ServedAfterClose(k.sockets, k.log, fd, now);
    var present := q.ExistsConnection(fd);
    if present {
      q.DequeueConnectionByFd(fd, k);
      CloseEpollClient(k, fd);
    }
  }
}
