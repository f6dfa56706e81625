/** The events of one epoll_wait, one after the other. */
module Batches {
  import opened Connections
  import opened HeapModel
  import opened Kernels
  import opened Lateness
  import opened History
  import opened ConnectionQueue
  import opened Receive
  import opened Request
  import opened RequestProofs
  import opened ResponseHead
  import opened Serving
  import opened Answering
  import opened Evictions
  import opened Accepting

  // ---------- What an event does ----------

  /** What the loop can see between two events. */
  datatype World = World(contents: map<nat, Connection>, clients: set<nat>, incoming: map<nat, string>,
                         log: seq<Call>, now: int)

  ghost function WorldOf(q: QueueConnections, k: Kernel): World
    requires Settled(q, k)
    reads q, q.connections, q.indexQueue, k
  {
    World(Contents(q.Model()), k.sockets, k.incoming, k.log, k.now)
  }

  /** However much of it has been received, the stream asks for a file and to be kept alive. */
  ghost predicate AsksToBeKept(stream: string) {
    && IsRequestComplete(stream) && EndOf(stream) <= BUFFER_REQUEST_SIZE
    && forall buffer, stale | buffer <= stream && IsRequestComplete(buffer) ::
         var p := ParseRequest(buffer, stale);
         Acceptable(p) && WantsKeepAlive(p.headers)
  }

  ghost predicate AlwaysHelpful(k: Kernel) {
    forall i: nat :: Helpful(k.script(i))
  }

  ghost predicate Quiet(k: Kernel, now: int) {
    forall i: nat :: k.script(i).time <= now
  }

  /** A client was served: renewed and armed again, or closed. */
  ghost predicate Served(k: Kernel, w: World, fd: nat, w': World) {
    && fd in w.clients && fd in w.incoming && w.now <= w'.now && (Quiet(k, w.now) ==> w'.now == w.now)
    && fd in w'.incoming && w'.incoming == w.incoming[fd := w'.incoming[fd]]
    && (|| Kept(w, fd, w')
        || (w' == w.(contents := w.contents - {fd}, clients := w.clients - {fd}, incoming := w'.incoming,
                     log := w.log + [Closed(fd, w'.now)], now := w'.now)))
    && (AlwaysHelpful(k) && AsksToBeKept(w.incoming[fd]) ==> Kept(w, fd, w'))
    && (w.incoming[fd] == "" ==> !Kept(w, fd, w'))
    && (forall n: nat | k.Steady(n) && IsRequestComplete(FirstPart(w.incoming[fd], n)) ::
          w'.incoming[fd] == w.incoming[fd][|FirstPart(w.incoming[fd], n)|..])
  }

  ghost predicate Kept(w: World, fd: nat, w': World) {
    w' == w.(contents := w.contents[fd := FreshConnection(fd, w'.now)], incoming := w'.incoming,
             log := w.log + [Rearmed(fd, w'.now)], now := w'.now)
  }

  /** Everybody who had arrived was accepted. */
  ghost predicate AllAccepted(k: Kernel, w: World, w': World) {
    exists fds: seq<nat> :: Greeted(k, w, fds, w')
  }

  ghost predicate Greeted(k: Kernel, w: World, fds: seq<nat>, w': World) {
    && w' == w.(clients := w'.clients, incoming := w'.incoming, log := w.log + Accepts(fds) + [Refused])
    && Arrived(k, fds, w.clients, w.log, w'.clients, w.incoming, w'.incoming)
    && var next := k.arrivals(|w'.log| - 1);
       next.Client? && 0 < next.fd < k.limit ==> next.fd in w'.clients
  }

  /** An event without EPOLLIN does nothing. */
  ghost predicate Effect(k: Kernel, w: World, event: Event, w': World) {
    match event
    case Incoming => AllAccepted(k, w, w')
    case Ready(fd, readable) => if readable then Served(k, w, fd, w') else w' == w
  }

  /** The events were handled in their order. */
  ghost predicate Handled(k: Kernel, w: World, events: seq<Event>, w': World)
    decreases |events|
  {
    if events == [] then w' == w
    else
      var front, last := events[..|events| - 1], events[|events| - 1];
      exists mid :: Handled(k, w, front, mid) && Effect(k, mid, last, w')
  }

  lemma HandledSnoc(k: Kernel, w: World, events: seq<Event>, mid: World, event: Event, w': World)
    requires Handled(k, w, events, mid) && Effect(k, mid, event, w')
    ensures Handled(k, w, events + [event], w')
  {
    hide Effect;
    assert (events + [event])[..|events|] == events;
  }

  lemma KeptIsServed(k: Kernel, e: Ending, s: Start, wire: string)
    requires Answerable(s) && AsksToBeKept(s.stream) && Finished(e, s, wire)
    ensures e.kept
  {
    hide ParseRequest, IsRequestComplete, Announces, WantsKeepAlive, AsksForKeepAlive, HasHead, RealPath;
    WantingIsAsking(e.last.requestHeaders);
  }

  lemma AskingIsAnswerable(s: Start)
    requires AsksToBeKept(s.stream)
    ensures Answerable(s)
  {
    hide ParseRequest;
    var e := EndOf(s.stream);
    CompleteAtEnd(Rx(s.stream[..e], s.stream[e..], DoneForClose), s.stream);
  }

  /** A printed request for a file whose last connection line asks for it asks to be kept. */
  lemma PrintedAsksToBeKept(line: RequestLine, hs: seq<Header>, body: string)
    requires Sendable(line, hs, body) && AskedToBeKept(hs)
    ensures AsksToBeKept(PrintRequest(line, hs, body))
  {
    hide IsRequestComplete, ParseRequest, PrintRequest, Listed, WantsKeepAlive, Printable, PrintableLine, Supported;
    hide AskedToBeKept;
    var stream := PrintRequest(line, hs, body);
    SendableIsPrintable(line, hs, body);
    SendableFits(line, hs, body);
    VersionIsWord(line.version);
    KeepingIsAsked(hs);
    forall buffer, stale | buffer <= stream && IsRequestComplete(buffer)
      ensures var p := ParseRequest(buffer, stale); Acceptable(p) && WantsKeepAlive(p.headers)
    {
      var n := |buffer|;
      assert buffer == stream[..n];
      CompleteAtEnd(Rx(buffer, stream[n..], DoneForClose), stream);
      PrintedPrefix(line, hs, body, n, stale);
    }
  }

  // ---------- One event ----------

  method HandleOne(q: QueueConnections, k: Kernel, event: Event, stale: RequestLine)
    requires Sound(q, k)
    requires event.Ready? ==> event.fd in k.sockets && Report(k.log, event.fd) == Some(event.readable)
    modifies q`currentSize, q.connections, q.indexQueue, k
    ensures Sound(q, k) && Effect(k, old(WorldOf(q, k)), event, WorldOf(q, k))
    ensures NoWait(old(k.log), k.log)
  {
    match event {
      case Incoming =>
        Welcome(q, k);
      case Ready(fd, readable) =>
        if readable {
          ServeClient(q, k, fd, stale);
        } else {
          NoWaitYet(k.log);
        }
    }
  }

  method Welcome(q: QueueConnections, k: Kernel)
    requires Sound(q, k)
    modifies k`step, k`sockets, k`armed, k`incoming, k`wire, k`log
    ensures Sound(q, k) && AllAccepted(k, old(WorldOf(q, k)), WorldOf(q, k))
    ensures NoWait(old(k.log), k.log)
  {
    hide Logged, Coherent, Contents, SettledMap, Promises, Tracked, Report, Always, MeetsGuard, HeapOrdered;
    hide Arrived, NoWait, Accepts;
    ghost var w := WorldOf(q, k);
    ghost var fds := AcceptEpollConnection(q, k);
    assert Greeted(k, w, fds, WorldOf(q, k));
  }

  method ServeClient(q: QueueConnections, k: Kernel, fd: nat, stale: RequestLine)
    requires Sound(q, k) && fd in k.sockets && Report(k.log, fd) == Some(true)
    modifies q`currentSize, q.connections, q.indexQueue, k
    ensures Sound(q, k) && Served(k, old(WorldOf(q, k)), fd, WorldOf(q, k))
    ensures NoWait(old(k.log), k.log)
  {
    hide Logged, Coherent, Contents, SettledMap, Promises, Tracked, Report, Always, MeetsGuard, HeapOrdered;
    hide Outcome, NoWait;
    hide Answerable, AsksToBeKept, Ended, Finished, Helpful, Drawn, Kernel.Steady;
    ghost var model, log, clients, armed, from := q.Model(), k.log, k.sockets, k.armed, k.step;
    ghost var s := Start(k.incoming[fd], k.wire[fd], stale);
    ghost var e := HandleEvent(q, k, fd, stale);
    EventIsSound(e.kept, fd, model, q.Model(), log, k.log, k.now, q.repaired);
    if s.stream == "" {
      NothingToKeep(e, s, k.wire[fd]);
    }
    DrawnLeaves(k, e.last, k.incoming[fd], s);
    if AlwaysHelpful(k) && AsksToBeKept(s.stream) {
      AskingIsAnswerable(s);
      KeptIsServed(k, e, s, k.wire[fd]);
    }
  }

  /** A client that has nothing more to say is not kept. */
  lemma NothingToKeep(e: Ending, s: Start, wire: string)
    requires Ended(e, s, wire) && s.stream == ""
    ensures !e.kept
  {
    hide ParseRequest, Announces, WantsKeepAlive, HasHead;
  }

  lemma DrawnLeaves(k: Kernel, c: Connection, pending: string, s: Start)
    requires Drawn(k, c, pending, s) && c.state != Recv
    ensures forall n: nat | k.Steady(n) && IsRequestComplete(FirstPart(s.stream, n)) ::
              pending == s.stream[|FirstPart(s.stream, n)|..]
  {
    assert c.requestBuffer + pending == s.stream;
    assert pending == s.stream[|c.requestBuffer|..];
  }

  /** Re-arming and closing a reported client keep promises and order. */
  lemma EventIsSound(kept: bool, fd: nat, q: Queue, q': Queue, log: seq<Call>, log': seq<Call>,
                     now: int, repaired: bool)
    requires Outcome(kept, fd, q, q', log, log', now, repaired) && Report(log, fd) == Some(true)
    requires Tracked(q, log, repaired) && Promises(log, |q.index|, repaired)
    requires Always(log, MeetsGuard(|q.index|, repaired)) ==> HeapOrdered(q.heap)
    ensures log' == log + [if kept then Rearmed(fd, now) else Closed(fd, now)]
    ensures Promises(log', |q.index|, repaired) && NoWait(log, log')
    ensures Always(log', MeetsGuard(|q.index|, repaired)) ==> HeapOrdered(q'.heap)
  {
    hide HeapOrdered, Renewed, DeleteByFd, Coherent, Promises, NoWait, Always, Replay, Report;
    var call := if kept then Rearmed(fd, now) else Closed(fd, now);
    PromisesOther(log, call, |q.index|, repaired);
    NoWaitSnoc(log, call);
    if HeapOrdered(q.heap) {
      OutcomeOrder(kept, fd, q, q', log, log', now, repaired);
    }
  }

  // ---------- The batch ----------

  /** The clients that are waiting to be served are those in the rest of the batch. */
  ghost predicate Pending(rest: seq<Event>, clients: set<nat>, log: seq<Call>) {
    && GoodBatch(rest, clients)
    && (forall i | 0 <= i < |rest| && rest[i].Ready? :: Report(log, rest[i].fd) == Some(rest[i].readable))
    && (forall fd | fd in clients && Report(log, fd) == Some(true) :: Ready(fd, true) in rest)
  }

  /** The clients that were reported without EPOLLIN and will not be reported again. */
  ghost function Stuck(clients: set<nat>, log: seq<Call>): set<nat> {
    set fd | fd in clients && Report(log, fd) == Some(false)
  }

  lemma ReportsAfterAccepts(log: seq<Call>, fds: seq<nat>, fd: nat)
    ensures Report(log + Accepts(fds) + [Refused], fd) == if fd in fds then None else Report(log, fd)
  {
    LogSnoc(log + Accepts(fds), Refused);
    AcceptsReported(log, fds, fd);
  }

  lemma {:induction false} AcceptsReported(log: seq<Call>, fds: seq<nat>, fd: nat)
    ensures Report(log + Accepts(fds), fd) == if fd in fds then None else Report(log, fd)
  {
    hide Report, LastRearm, LastWait;
    if fds == [] {
      assert log + Accepts(fds) == log;
    } else {
      var front, last := fds[..|fds| - 1], fds[|fds| - 1];
      AcceptsReported(log, front, fd);
      assert log + Accepts(fds) == (log + Accepts(front)) + [Accepted(last)];
      LogSnoc(log + Accepts(front), Accepted(last));
      assert fds == front + [last];
    }
  }

  /** An event settles its own client and leaves the reports of all others alone. */
  lemma EffectOnReports(k: Kernel, w: World, event: Event, w': World, fd: nat)
    requires Effect(k, w, event, w')
    ensures event == Ready(fd, true) ==> Report(w'.log, fd) == None
    ensures event != Ready(fd, true) && fd in w.clients ==>
              fd in w'.clients && Report(w'.log, fd) == Report(w.log, fd)
    ensures event != Ready(fd, true) && fd !in w.clients && fd in w'.clients ==> Report(w'.log, fd) == None
  {
    hide Report, Arrived;
    match event
    case Incoming =>
      var fds :| Greeted(k, w, fds, w');
      ReportsAfterAccepts(w.log, fds, fd);
      ArrivedAreNew(k, fds, w, w');
    case Ready(g, readable) =>
      if readable {
        LogSnoc(w.log, Rearmed(g, w'.now));
        LogSnoc(w.log, Closed(g, w'.now));
      }
  }

  lemma ArrivedAreNew(k: Kernel, fds: seq<nat>, w: World, w': World)
    requires Arrived(k, fds, w.clients, w.log, w'.clients, w.incoming, w'.incoming)
    ensures forall fd :: fd in w'.clients <==> fd in w.clients || fd in fds
    ensures forall fd | fd in fds :: fd !in w.clients
  {
  }

  /** One event further into the batch; nobody gets stuck, and nobody stuck is freed. */
  lemma OneFurther(k: Kernel, w: World, rest: seq<Event>, w': World)
    requires rest != [] && Pending(rest, w.clients, w.log) && Effect(k, w, rest[0], w')
    ensures Pending(rest[1..], w'.clients, w'.log)
    ensures Stuck(w'.clients, w'.log) == Stuck(w.clients, w.log)
  {
    hide Effect, Report;
    var later := rest[1..];
    forall i | 0 <= i < |later| && later[i].Ready?
      ensures later[i] == rest[i + 1]
      ensures later[i].fd in w'.clients && Report(w'.log, later[i].fd) == Some(later[i].readable)
    {
      EffectOnReports(k, w, rest[0], w', later[i].fd);
      assert rest[0].Ready? ==> rest[0].fd != rest[i + 1].fd;
    }
    forall fd | fd in w'.clients && Report(w'.log, fd) == Some(true) ensures Ready(fd, true) in later {
      EffectOnReports(k, w, rest[0], w', fd);
    }
    forall fd ensures fd in Stuck(w'.clients, w'.log) <==> fd in Stuck(w.clients, w.log) {
      EffectOnReports(k, w, rest[0], w', fd);
    }
  }

  lemma EffectTouches(k: Kernel, w: World, event: Event, w': World)
    requires Effect(k, w, event, w')
    ensures w.now <= w'.now && Touched(w.contents, w'.contents, w.now, w'.now)
  {
    hide Arrived;
  }

  lemma {:induction false} HandledTouches(k: Kernel, w: World, events: seq<Event>, w': World)
    requires Handled(k, w, events, w')
    ensures w.now <= w'.now && Touched(w.contents, w'.contents, w.now, w'.now)
    decreases |events|
  {
    hide Effect;
    if events != [] {
      var front, last := events[..|events| - 1], events[|events| - 1];
      var mid :| Handled(k, w, front, mid) && Effect(k, mid, last, w');
      HandledTouches(k, w, front, mid);
      EffectTouches(k, mid, last, w');
    }
  }

  /** The whole batch: every event takes effect in its turn, nobody who was reported with EPOLLIN is
      left waiting, and those reported without it stay as they are. */
  method HandleBatch(q: QueueConnections, k: Kernel, events: seq<Event>, stack: nat -> RequestLine)
    requires Sound(q, k) && Pending(events, k.sockets, k.log)
    modifies q`currentSize, q.connections, q.indexQueue, k
    ensures Sound(q, k) && Handled(k, old(WorldOf(q, k)), events, WorldOf(q, k))
    ensures Pending([], k.sockets, k.log) && Stuck(k.sockets, k.log) == old(Stuck(k.sockets, k.log))
    ensures NoWait(old(k.log), k.log)
  {
    hide Logged, Coherent, SettledMap, Contents, Promises, Tracked, Report, Always, MeetsGuard, HeapOrdered;
    hide NoWait, Effect, Handled;
    hide Pending, Stuck;
    ghost var w := WorldOf(q, k);
    NothingHandled(k, w);
    NoWaitYet(k.log);
    assert events[0..] == events && events[..0] == [];
    for i := 0 to |events|
      invariant Sound(q, k) && Handled(k, w, events[..i], WorldOf(q, k))
      invariant Pending(events[i..], k.sockets, k.log) && Stuck(k.sockets, k.log) == old(Stuck(k.sockets, k.log))
      invariant NoWait(old(k.log), k.log)
    {
      ghost var mid := WorldOf(q, k);
      FirstPending(events, i, k.sockets, k.log);
      HandleOne(q, k, events[i], stack(k.step));
      OneFurther(k, mid, events[i..], WorldOf(q, k));
      HandledSnoc(k, w, events[..i], mid, events[i], WorldOf(q, k));
      NoWaitTwice(old(k.log), mid.log, k.log);
    }
    assert events[..|events|] == events && events[|events|..] == [];
  }

  lemma NothingHandled(k: Kernel, w: World)
    ensures Handled(k, w, [], w)
  {
  }

  lemma FirstPending(events: seq<Event>, i: nat, clients: set<nat>, log: seq<Call>)
    requires i < |events| && Pending(events[i..], clients, log)
    ensures events[i..][0] == events[i] && events[i..][1..] == events[i + 1..]
    ensures events[..i + 1] == events[..i] + [events[i]]
    ensures events[i].Ready? ==> events[i].fd in clients && Report(log, events[i].fd) == Some(events[i].readable)
  {
    assert events[i..][0] == events[i];
  }
}
