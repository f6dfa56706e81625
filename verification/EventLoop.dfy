/** The event loop of one thread with its own epoll instance: checks, rounds, the loop and shutdown. */
module EventLoop {
  import opened Connections
  import opened HeapModel
  import opened Kernels
  import opened Lateness
  import opened History
  import opened ConnectionQueue
  import QueueRuns
  import opened Request
  import opened Serving
  import opened Evictions
  import opened Batches

  // ---------- The check ----------

  /** The age of the root, in milliseconds, or -1 to wait without end. */
  function RootAge(q: Queue, now: int): int {
    if |q.heap| > 0 then Age(q.heap[0], now) * 1000 else -1
  }

  /** The root is not younger than any other record. */
  ghost predicate OldestFirst(h: seq<Connection>) {
    forall i | 0 <= i < |h| :: h[0].priorityTime <= h[i].priorityTime
  }

  /** The wake-up timeout. It is the age of a connection, and of the oldest one exactly if the root is
      the oldest. */
  method WakeUpTimeout(q: QueueConnections, k: Kernel, now: int) returns (timeout: int)
    requires Settled(q, k) && k.now == now
    ensures timeout == RootAge(q.Model(), now)
    ensures WaitsForAge(Contents(q.Model()), now, timeout, OldestFirst(q.Model().heap))
    ensures OldestFirst(q.Model().heap) <==>
              forall fd | fd in Contents(q.Model()) :: Age(Contents(q.Model())[fd], now) * 1000 <= timeout
  {
    hide Logged, Tracked;
    timeout := -1;
    RootIsAClient(q, k);
    RootAgeIsAnAge(q.Model(), now);
    var first := q.Peek();
    if first.Some? && q.connections[first.value].clientFd != 0 {
      timeout := (now - q.connections[first.value].priorityTime) * 1000;
    }
  }

  lemma RootAgeIsAnAge(q: Queue, now: int)
    requires Coherent(q)
    ensures WaitsForAge(Contents(q), now, RootAge(q, now), OldestFirst(q.heap))
    ensures OldestFirst(q.heap) <==>
              forall fd | fd in Contents(q) :: Age(Contents(q)[fd], now) * 1000 <= RootAge(q, now)
  {
    QueueRuns.NonEmptyContents(q);
    if |q.heap| > 0 {
      RootIsIn(q);
      forall i | 0 <= i < |q.heap|
        ensures q.heap[i].clientFd in Contents(q) && Contents(q)[q.heap[i].clientFd] == q.heap[i]
      {
      }
    }
  }

  lemma OrderedIsOldestFirst(h: seq<Connection>)
    requires HeapOrdered(h)
    ensures OldestFirst(h)
  {
    forall i | 0 <= i < |h| ensures h[0].priorityTime <= h[i].priorityTime {
      RootIsMinimal(h, i);
    }
  }

  /** At every prompt check from now on, the ages will meet the lateness bound, if all goes smoothly. */
  ghost predicate OnTimeAhead(log: seq<Call>, m: map<nat, Connection>, now: int) {
    forall next | now <= next :: Timely(log, m, next)
  }

  /** The first half of a round: the clock, the wake-up timeout, the expired connections. */
  method Check(q: QueueConnections, k: Kernel) returns (now: int, timeout: int, evicted: seq<nat>)
    requires Sound(q, k) && AllServed(k.sockets, k.log)
    requires OnTimeAhead(k.log, Contents(q.Model()), k.now)
    modifies q`currentSize, q.connections, q.indexQueue, k`step, k`now, k`armed, k`sockets, k`files, k`log
    ensures Sound(q, k) && AllServed(k.sockets, k.log)
    ensures k.now == now >= old(k.now) && (old(Quiet(k, k.now)) ==> now == old(k.now))
    ensures k.armed == old(k.armed) - Members(evicted) && k.sockets == old(k.sockets) - Members(evicted)
    ensures k.log == old(k.log) + Closes(evicted, now) && NoWait(old(k.log), k.log)
    ensures timeout == RootAge(old(q.Model()), now)
    ensures evicted == Evicted(old(q.Model()), now, q.repaired)
    ensures q.Model() == Remaining(old(q.Model()), now, q.repaired)
    ensures InOrderBefore(old(q.Model()), q.Model(), k.log, q.capacity, q.repaired)
  {
    hide Logged, Coherent, HeapOrdered, SettledMap, WaitsForAge, Tracked, Promises, Contents, Report;
    hide Timely, NoWait, Always, MeetsGuard, Members, Closes, AllServed, Evicted, Remaining, OldestFirst;
    hide InOrderBefore;
    SettledLater(q, k);
    now := k.Time();
    timeout := WakeUpTimeout(q, k, now);
    evicted := EvictExpired(q, k, now);
  }

  /** Time passing does not unsettle a queue. */
  lemma SettledLater(q: QueueConnections, k: Kernel)
    requires Settled(q, k)
    ensures forall now | now >= k.now :: SettledMap(Contents(q.Model()), now, k.sockets)
  {
    hide Logged;
  }

  // ---------- One round ----------

  /** No event lacks EPOLLIN. */
  predicate AllReadable(events: seq<Event>) {
    forall i | 0 <= i < |events| && events[i].Ready? :: events[i].readable
  }

  /** The clients reported without EPOLLIN. */
  function Unreadable(events: seq<Event>): set<nat> {
    set event | event in events && event.Ready? && !event.readable :: event.fd
  }

  ghost predicate AllArmed(armed: map<nat, bool>) {
    forall fd | fd in armed :: armed[fd]
  }

  /** The state after the check and the wait of a round. */
  ghost function AfterWait(w: World, evicted: seq<nat>, wait: Call): World
    requires wait.Waited?
  {
    World(w.contents - Members(evicted), w.clients - Members(evicted), w.incoming,
          w.log + Closes(evicted, wait.from) + [wait], wait.woke)
  }

  /** A round: the clock is read, the root of the queue is evicted as long as it has expired, the wait
      lasts for the age of what was the root, and every event it reports is handled. */
  ghost predicate RoundOf(k: Kernel, w: World, evicted: seq<nat>, wait: Call, w': World, repaired: bool) {
    var q := Replay(w.log, k.limit, repaired);
    && Coherent(q) && Contents(q) == w.contents
    && wait.Waited? && w.now <= wait.from && (Quiet(k, w.now) ==> wait.from == w.now)
    && evicted == Evicted(q, wait.from, repaired)
    && wait.timeout == RootAge(q, wait.from)
    && wait.woke == Later(wait.from, k.wakeUps(|w.log| + |evicted|).time)
    && Handled(k, AfterWait(w, evicted, wait), wait.events, w')
  }

  /** What the evictions of a check leave for the wait. */
  ghost predicate ReadyToWait(q: Queue, log: seq<Call>, now: int, timeout: int, repaired: bool) {
    && Coherent(q) && !RootExpired(q, now)
    && (Always(log, OrderedCheck(|q.index|, repaired)) && HeapOrdered(q.heap) ==>
          forall fd | fd in Contents(q) ::
            Age(Contents(q)[fd], now) < KEEP_ALIVE_TIMEOUT && Age(Contents(q)[fd], now) * 1000 <= timeout)
  }

  lemma CheckedIsReady(was: Queue, q: Queue, log: seq<Call>, now: int, timeout: int, repaired: bool)
    requires Coherent(was) && q == Remaining(was, now, repaired) && timeout == RootAge(was, now)
    requires Coherent(q) && |q.index| == |was.index|
    requires InOrderBefore(was, q, log, |was.index|, repaired)
    ensures ReadyToWait(q, log, now, timeout, repaired)
  {
    hide HeapOrdered, Always, Remaining, Coherent, Contents, Evicted, OldestFirst;
    EvictedAreExpired(was, now, repaired);
    if Always(log, OrderedCheck(|q.index|, repaired)) && HeapOrdered(q.heap) {
      EvictedInOrder(was, now, repaired);
      OrderedIsOldestFirst(was.heap);
      RootAgeIsAnAge(was, now);
    }
  }

  lemma AfterTheWait(log: seq<Call>, wait: Call, q: Queue, repaired: bool)
    requires wait.Waited? && ReadyToWait(q, log, wait.from, wait.timeout, repaired)
    requires Tracked(q, log, repaired) && Promises(log, |q.index|, repaired)
    requires Always(log, MeetsGuard(|q.index|, repaired)) ==> HeapOrdered(q.heap)
    ensures Tracked(q, log + [wait], repaired) && Promises(log + [wait], |q.index|, repaired)
    ensures Always(log + [wait], MeetsGuard(|q.index|, repaired)) ==> Always(log, MeetsGuard(|q.index|, repaired))
    ensures Swept(log, wait) <==> forall fd | fd in Contents(q) :: !Expired(Contents(q), wait.from, fd)
  {
    hide Promises, Coherent, Report, Contents, Always, LastRearm, HeapOrdered, Surfaced, Replay, MeetsGuard;
    var size := |q.index|;
    TrackedOther(q, log, repaired, wait);
    LeftIsSwept(q, wait.from);
    SweptContents(q, log, wait, repaired);
    assert NoneHidden(size, repaired)(log, wait) <==> Surfaced(q.heap, wait.from);
    assert SweptExactly(size, repaired)(log, wait);
    assert OrderedCheck(size, repaired)(log, wait) <==> HeapOrdered(q.heap);
    PromisesSnoc(log, wait, size, repaired);
    AlwaysSnoc(log, wait, MeetsGuard(size, repaired));
  }

  lemma SweptContents(q: Queue, log: seq<Call>, wait: Call, repaired: bool)
    requires wait.Waited? && Tracked(q, log, repaired)
    ensures Swept(log, wait) <==> forall fd | fd in Contents(q) :: !Expired(Contents(q), wait.from, fd)
    ensures LongEnough(log, wait) <==>
              forall fd | fd in Contents(q) :: Age(Contents(q)[fd], wait.from) * 1000 <= wait.timeout
  {
    hide Replay, Coherent, Contents, LastRearm;
    forall fd ensures LastRearm(log, fd).Some? <==> fd in Contents(q) {
    }
    forall fd | fd in Contents(q) ensures LastRearm(log, fd) == Some(Contents(q)[fd].priorityTime) {
    }
  }

  lemma ReportsAfterWait(log: seq<Call>, wait: Call, clients: set<nat>)
    requires wait.Waited? && GoodBatch(wait.events, clients) && Pending([], clients, log)
    requires forall i | 0 <= i < |wait.events| && wait.events[i].Ready? :: Report(log, wait.events[i].fd) == None
    ensures Pending(wait.events, clients, log + [wait])
    ensures Stuck(clients, log + [wait]) == Stuck(clients, log) + Unreadable(wait.events)
    ensures Stuck(clients, log) == {} ==> (Stuck(clients, log + [wait]) == {} <==> AllReadable(wait.events))
  {
    hide Report;
    LogSnoc(log, wait);
    var events := wait.events;
    forall i | 0 <= i < |events| && events[i].Ready?
      ensures Report(log + [wait], events[i].fd) == Some(events[i].readable)
    {
      assert events[i] in events;
    }
    forall fd ensures fd in Stuck(clients, log + [wait]) <==> fd in Stuck(clients, log) + Unreadable(events) {
      if Ready(fd, true) in events || Ready(fd, false) in events {
        var i :| 0 <= i < |events| && events[i].Ready? && events[i].fd == fd;
        assert Report(log, fd) == None && Report(log + [wait], fd) == Some(events[i].readable);
      }
    }
    if !AllReadable(events) {
      var i :| 0 <= i < |events| && events[i].Ready? && !events[i].readable;
      assert events[i].fd in Stuck(clients, log + [wait]);
    }
  }

  /** The wait of a round. */
  method Await(q: QueueConnections, k: Kernel, timeout: int) returns (events: seq<Event>)
    requires Sound(q, k) && Pending([], k.sockets, k.log)
    requires ReadyToWait(q.Model(), k.log, k.now, timeout, q.repaired)
    modifies k`step, k`now, k`armed, k`log
    ensures Sound(q, k) && Pending(events, k.sockets, k.log)
    ensures k.log == old(k.log) + [Waited(old(k.now), timeout, k.now, events)]
    ensures Swept(old(k.log), k.log[|old(k.log)|]) <==>
              forall fd | fd in Contents(q.Model()) :: !Expired(Contents(q.Model()), old(k.now), fd)
    ensures k.now == Later(old(k.now), k.wakeUps(|old(k.log)|).time)
    ensures events == Reported(k.wakeUps(|old(k.log)|).events, old(k.armed))
    ensures Stuck(k.sockets, k.log) == old(Stuck(k.sockets, k.log)) + Unreadable(events)
    ensures old(AllArmed(k.armed)) ==> (Stuck(k.sockets, k.log) == {} <==> AllReadable(events))
  {
    hide Logged, Coherent, HeapOrdered, SettledMap, Tracked, Promises, Contents, Report, Always, MeetsGuard;
    hide Pending, Stuck, AllReadable, Reported, Unreadable, ReadyToWait, Swept;
    ghost var log, armed := k.log, k.armed;
    SettledLater(q, k);
    ArmedMeansNotStuck(k);
    ArmedWereNotReported(k);
    events := k.Wait(timeout);
    ghost var wait := k.log[|log|];
    AfterTheWait(log, wait, q.Model(), q.repaired);
    ReportsAfterWait(log, wait, k.sockets);
  }

  lemma ArmedWereNotReported(k: Kernel)
    requires k.Valid()
    ensures forall fd | fd in k.armed && k.armed[fd] :: Report(k.log, fd) == None
  {
  }

  /** When nobody is waiting to be served, the clients that are not armed are those reported without EPOLLIN. */
  lemma ArmedMeansNotStuck(k: Kernel)
    requires k.Valid() && k.armed.Keys == k.sockets && Pending([], k.sockets, k.log)
    ensures AllArmed(k.armed) <==> Stuck(k.sockets, k.log) == {}
    ensures forall fd | fd in k.armed :: k.armed[fd] <==> fd !in Stuck(k.sockets, k.log)
  {
    hide Report;
    forall fd | fd in k.armed ensures k.armed[fd] <==> fd !in Stuck(k.sockets, k.log) {
      assert fd in k.sockets && Report(k.log, fd) != Some(true);
      match Report(k.log, fd)
      case None =>
      case Some(readable) => assert !readable;
    }
    if !AllArmed(k.armed) {
      var fd :| fd in k.armed && !k.armed[fd];
      assert fd in Stuck(k.sockets, k.log);
    }
  }

  /** A part of a log keeps the promises of all of it. */
  lemma AlwaysBefore(log: seq<Call>, log': seq<Call>, holds: (seq<Call>, Call) -> bool)
    requires log <= log' && Always(log', holds)
    ensures Always(log, holds)
  {
    forall i | 0 <= i < |log| ensures holds(log[..i], log[i]) {
      assert log'[..i] == log[..i] && log'[i] == log[i];
    }
  }

  /** A smooth log was smooth up to its last wait, and the check before that came promptly. */
  lemma SmoothBefore(log: seq<Call>, log1: seq<Call>, wait: Call, log2: seq<Call>)
    requires wait.Waited? && NoWait(log, log1) && log1 + [wait] <= log2 && Smooth(log2)
    ensures Smooth(log) && PromptSince(log, wait.from) && Swept(log1, wait)
  {
    hide Always, LastWait, Prompt;
    AlwaysBefore(log1 + [wait], log2, Swept);
    AlwaysBefore(log1 + [wait], log2, Punctual);
    AlwaysSnoc(log1, wait, Swept);
    AlwaysSnoc(log1, wait, Punctual);
    AlwaysBefore(log, log1, Swept);
    AlwaysBefore(log, log1, Punctual);
  }

  lemma LeftAreSurvivors(m: map<nat, Connection>, evicted: seq<nat>, now: int)
    requires forall fd | fd in evicted :: Expired(m, now, fd)
    requires forall fd | fd in m - Members(evicted) :: !Expired(m - Members(evicted), now, fd)
    ensures m - Members(evicted) == Survivors(m, now)
  {
    var left := m - Members(evicted);
    forall fd | fd in m ensures fd in left <==> Age(m[fd], now) < KEEP_ALIVE_TIMEOUT {
      if fd in left {
        assert !Expired(left, now, fd);
      }
    }
  }

  /** The check of a prompt round is one that the last round promised to be on time for. */
  lemma TimelyRound(log: seq<Call>, log1: seq<Call>, wait: Call, log2: seq<Call>, m: map<nat, Connection>,
                    evicted: seq<nat>, m': map<nat, Connection>, end: int)
    requires wait.Waited? && wait.from <= wait.woke <= end
    requires Timely(log, m, wait.from) && NoWait(log, log1) && NoWait(log1 + [wait], log2)
    requires WaitsForAge(m, wait.from, wait.timeout, false)
    requires forall fd | fd in evicted :: Expired(m, wait.from, fd)
    requires Swept(log1, wait) ==>
               forall fd | fd in m - Members(evicted) :: !Expired(m - Members(evicted), wait.from, fd)
    requires Touched(m - Members(evicted), m', wait.woke, end)
    ensures OnTimeAhead(log2, m', end)
  {
    hide Smooth, OnTime, WaitsForAge, Touched, Prompt, LastWait, Expired, Members, Swept;
    LogSnoc(log1, wait);
    forall next | end <= next ensures Timely(log2, m', next) {
      if Smooth(log2) && PromptSince(log2, next) {
        SmoothBefore(log, log1, wait, log2);
        LeftAreSurvivors(m, evicted, wait.from);
        RoundKeepsOnTime(m, wait.from, wait.timeout, wait.woke, m', end, next);
      }
    }
  }

  lemma {:induction false} ClosesReported(log: seq<Call>, fds: seq<nat>, at: int, fd: nat)
    ensures Report(log + Closes(fds, at), fd) == if fd in fds then None else Report(log, fd)
  {
    hide Report, LastRearm, LastWait;
    if fds == [] {
      assert log + Closes(fds, at) == log;
    } else {
      var front, last := fds[..|fds| - 1], fds[|fds| - 1];
      ClosesReported(log, front, at, fd);
      assert log + Closes(fds, at) == (log + Closes(front, at)) + [Closed(last, at)];
      LogSnoc(log + Closes(front, at), Closed(last, at));
      assert fds == front + [last];
    }
  }

  /** Evictions leave nobody waiting and disarm nobody who stays. */
  lemma AfterEvictions(log: seq<Call>, evicted: seq<nat>, at: int, clients: set<nat>, armed: map<nat, bool>)
    requires Pending([], clients, log)
    ensures Pending([], clients - Members(evicted), log + Closes(evicted, at))
    ensures Stuck(clients - Members(evicted), log + Closes(evicted, at)) == Stuck(clients, log) - Members(evicted)
    ensures AllArmed(armed) ==> AllArmed(armed - Members(evicted))
    ensures |log + Closes(evicted, at)| == |log| + |evicted|
  {
    hide Report;
    forall fd | fd in clients - Members(evicted)
      ensures Report(log + Closes(evicted, at), fd) == Report(log, fd)
    {
      ClosesReported(log, evicted, at, fd);
    }
  }

  lemma PendingMeansServed(clients: set<nat>, log: seq<Call>)
    ensures Pending([], clients, log) <==> AllServed(clients, log)
  {
    hide Report;
  }

  lemma ModelIndex(q: QueueConnections, k: Kernel)
    requires Settled(q, k)
    ensures |q.Model().index| == q.capacity == k.limit && Tracked(q.Model(), k.log, q.repaired)
    ensures q.Model() == Replay(k.log, k.limit, q.repaired)
  {
    hide Logged, Replay, LastRearm;
  }

  /** The check and the wait of a round. */
  method CheckAndAwait(q: QueueConnections, k: Kernel)
    returns (ghost evicted: seq<nat>, ghost wait: Call, events: seq<Event>)
    requires Sound(q, k) && Pending([], k.sockets, k.log)
    requires OnTimeAhead(k.log, Contents(q.Model()), k.now)
    modifies q`currentSize, q.connections, q.indexQueue, k`step, k`now, k`armed, k`sockets, k`files, k`log
    ensures Sound(q, k) && wait.Waited? && wait.events == events && Pending(events, k.sockets, k.log)
    ensures old(k.now) <= wait.from && (old(Quiet(k, k.now)) ==> wait.from == old(k.now))
    ensures wait.timeout == RootAge(old(q.Model()), wait.from)
    ensures wait.woke == Later(wait.from, k.wakeUps(|old(k.log)| + |evicted|).time)
    ensures events == Reported(k.wakeUps(|old(k.log)| + |evicted|).events, old(k.armed) - Members(evicted))
    ensures WorldOf(q, k) == AfterWait(old(WorldOf(q, k)), evicted, wait)
    ensures var log1 := old(k.log) + Closes(evicted, wait.from);
            && NoWait(old(k.log), log1)
            && (Swept(log1, wait) <==>
                  forall fd | fd in Contents(q.Model()) :: !Expired(Contents(q.Model()), wait.from, fd))
    ensures evicted == Evicted(old(q.Model()), wait.from, q.repaired)
    ensures q.Model() == Remaining(old(q.Model()), wait.from, q.repaired)
    ensures Stuck(k.sockets, k.log) == old(Stuck(k.sockets, k.log)) - Members(evicted) + Unreadable(events)
    ensures old(AllArmed(k.armed)) ==> (Stuck(k.sockets, k.log) == {} <==> AllReadable(events))
  {
    hide Logged, Coherent, HeapOrdered, SettledMap, Tracked, Promises, Contents, Report, Always, MeetsGuard;
    hide Reported, Timely, Pending, Stuck, AllReadable, NoWait, OnTimeAhead, AllArmed, AllServed, Swept;
    hide Expired;
    hide Members, Closes, Unreadable, Evicted, Remaining, RootAge, ReadyToWait, InOrderBefore;
    ghost var was, log, clients, armed := q.Model(), k.log, k.sockets, k.armed;
    PendingMeansServed(clients, log);
    var now, timeout, out := Check(q, k);
    evicted := out;
    EvictedAreExpired(was, now, q.repaired);
    AfterEvictions(log, evicted, now, clients, armed);
    CheckedIsReady(was, q.Model(), k.log, now, timeout, q.repaired);
    events := Await(q, k, timeout);
    wait := Waited(now, timeout, k.now, events);
  }

  /** One round of the loop. It leaves nobody waiting who was reported with EPOLLIN. The root goes as
      long as it has expired; from an ordered heap all expired connections go. The clients that are
      stuck afterwards are those that were and stayed, and those reported without EPOLLIN: if all were
      armed, all are again if and only if every event had EPOLLIN. */
  method OneRound(q: QueueConnections, k: Kernel, stack: nat -> RequestLine)
    returns (ghost evicted: seq<nat>, ghost wait: Call)
    requires Sound(q, k) && Pending([], k.sockets, k.log)
    requires OnTimeAhead(k.log, Contents(q.Model()), k.now)
    modifies q`currentSize, q.connections, q.indexQueue, k
    ensures Sound(q, k) && Pending([], k.sockets, k.log)
    ensures OnTimeAhead(k.log, Contents(q.Model()), k.now)
    ensures RoundOf(k, old(WorldOf(q, k)), evicted, wait, WorldOf(q, k), q.repaired)
    ensures wait.events == Reported(k.wakeUps(|old(k.log)| + |evicted|).events, old(k.armed) - Members(evicted))
    ensures var m := old(Contents(q.Model()));
            && (forall fd | fd in evicted :: Expired(m, wait.from, fd)) && Distinct(evicted)
            && WaitsForAge(m, wait.from, wait.timeout, OldestFirst(old(q.Model()).heap))
            && (HeapOrdered(old(q.Model()).heap) ==> forall fd | Expired(m, wait.from, fd) :: fd in evicted)
    ensures Replay(old(k.log) + Closes(evicted, wait.from) + [wait], q.capacity, q.repaired)
         == Remaining(old(q.Model()), wait.from, q.repaired)
    ensures Stuck(k.sockets, k.log)
         == old(Stuck(k.sockets, k.log)) - Members(evicted) + Unreadable(wait.events)
    ensures forall fd | fd in k.armed :: k.armed[fd] <==> fd !in Stuck(k.sockets, k.log)
    ensures old(AllArmed(k.armed)) ==> (AllReadable(wait.events) <==> AllArmed(k.armed))
  {
    hide Logged, Coherent, HeapOrdered, SettledMap, Tracked, Promises, Contents, Report, Always, MeetsGuard;
    hide Reported, Timely, Distinct, Pending, Stuck, AllReadable, NoWait, Handled, WaitsForAge, OnTimeAhead;
    hide Touched;
    hide AllArmed, Members, Closes, Unreadable, Evicted, Remaining, RootAge, Swept, Expired, OldestFirst;
    hide Replay;
    ghost var was, w := q.Model(), WorldOf(q, k);
    ModelIndex(q, k);
    var events;
    evicted, wait, events := CheckAndAwait(q, k);
    ModelIndex(q, k);
    ghost var mid := WorldOf(q, k);
    EvictedAreExpired(was, wait.from, q.repaired);
    RootAgeIsAnAge(was, wait.from);
    AllExpiredGo(was, wait.from, q.repaired);
    HandleBatch(q, k, events, stack);
    ArmedMeansNotStuck(k);
    HandledTouches(k, mid, events, WorldOf(q, k));
    AheadFrom(w.log, w.contents, w.now, wait.from);
    ForSomeAge(w.contents, wait.from, wait.timeout, OldestFirst(was.heap));
    TimelyRound(w.log, w.log + Closes(evicted, wait.from), wait, k.log, w.contents, evicted,
                Contents(q.Model()), k.now);
  }

  lemma AllExpiredGo(q: Queue, now: int, repaired: bool)
    requires Coherent(q)
    ensures HeapOrdered(q.heap) ==>
              forall fd | Expired(Contents(q), now, fd) :: fd in Evicted(q, now, repaired)
  {
    hide HeapOrdered, Coherent, Contents, Evicted, Remaining;
    if HeapOrdered(q.heap) {
      EvictedAreExpired(q, now, repaired);
      EvictedInOrder(q, now, repaired);
      forall fd | Expired(Contents(q), now, fd) ensures fd in Evicted(q, now, repaired) {
        assert fd !in Survivors(Contents(q), now) && fd in Members(Evicted(q, now, repaired));
      }
    }
  }

  lemma AheadFrom(log: seq<Call>, m: map<nat, Connection>, now: int, next: int)
    requires OnTimeAhead(log, m, now) && now <= next
    ensures Timely(log, m, next)
  {
  }

  lemma ForSomeAge(m: map<nat, Connection>, now: int, timeout: int, ordered: bool)
    requires WaitsForAge(m, now, timeout, ordered)
    ensures WaitsForAge(m, now, timeout, false)
  {
  }

  // ---------- The loop ----------

  /** A number of rounds, one after the other. */
  ghost predicate Rounds(k: Kernel, w: World, n: nat, w': World, repaired: bool) {
    if n == 0 then w' == w
    else exists mid, evicted, wait ::
      Rounds(k, w, n - 1, mid, repaired) && RoundOf(k, mid, evicted, wait, w', repaired)
  }

  ghost function StartOf(k: Kernel): World
    reads k
  {
    World(map[], {}, k.incoming, [], k.now)
  }

  /** The whole loop of one thread, stopped by a signal after any number of rounds. No connection is
      evicted before its timeout. A wait starts with nothing expired exactly if no expired record is
      hidden in the heap; none is if the heap is in order at every check, which it is if every close
      that answers a report meets the guard, or the delete is repaired. If no wait starts with
      something expired, and the rounds are prompt, nobody is evicted later than 177 seconds. The
      clients that are not armed are exactly those reported without EPOLLIN; the open sockets are
      those accepted and not closed since; and every body file that was opened has been closed. */
  method HandleEpoll(k: Kernel, rounds: nat, repaired: bool, stack: nat -> RequestLine)
    requires k.Valid() && k.limit == MAX_EPOLL_EVENTS && k.sockets == {} && k.files == map[] && k.log == []
    modifies k
    ensures k.Valid() && k.files == map[]
    ensures exists m :: Rounds(k, old(StartOf(k)), rounds, World(m, k.sockets, k.incoming, k.log, k.now), repaired)
    ensures Always(k.log, NotEarly)
    ensures Always(k.log, SweptExactly(MAX_EPOLL_EVENTS, repaired))
    ensures repaired || Always(k.log, MeetsGuard(MAX_EPOLL_EVENTS, false)) ==>
              Always(k.log, OrderedCheck(MAX_EPOLL_EVENTS, repaired))
    ensures Always(k.log, OrderedCheck(MAX_EPOLL_EVENTS, repaired)) ==>
              Always(k.log, Swept) && Always(k.log, LongEnough)
    ensures Always(k.log, Swept) && Always(k.log, Punctual) ==> Always(k.log, NotLate)
    ensures k.armed.Keys == k.sockets && Accounted(k.sockets, k.log)
    ensures forall fd | fd in k.armed :: k.armed[fd] <==> Report(k.log, fd) != Some(false)
  {
    hide Logged, Coherent, HeapOrdered, SettledMap, Tracked, Promises, Contents, Report;
    hide Pending, Stuck, OnTimeAhead, Rounds, RoundOf, Always;
    var q := new QueueConnections(MAX_EPOLL_EVENTS, repaired);
    ghost var start := StartOf(k);
    NewQueue(q, k);
    for n := 0 to rounds
      invariant fresh(q) && fresh(q.connections) && fresh(q.indexQueue)
      invariant Sound(q, k) && Pending([], k.sockets, k.log)
      invariant OnTimeAhead(k.log, Contents(q.Model()), k.now)
      invariant Rounds(k, start, n, WorldOf(q, k), repaired)
    {
      ghost var mid := WorldOf(q, k);
      ghost var evicted, wait := OneRound(q, k, stack);
      RoundsSnoc(k, start, n, mid, evicted, wait, WorldOf(q, k), repaired);
    }
    PromisesKept(k.log, MAX_EPOLL_EVENTS, repaired);
    LogIsAccounted(k);
    ArmedMeansNotStuck(k);
    StuckIs(k.sockets, k.log);
    ghost var m := Contents(q.Model());
    Shutdown(q, k);
    assert Rounds(k, start, rounds, World(m, k.sockets, k.incoming, k.log, k.now), repaired);
  }

  lemma RoundsSnoc(k: Kernel, w: World, n: nat, mid: World, evicted: seq<nat>, wait: Call, w': World,
                   repaired: bool)
    requires Rounds(k, w, n, mid, repaired) && RoundOf(k, mid, evicted, wait, w', repaired)
    ensures Rounds(k, w, n + 1, w', repaired)
  {
    hide RoundOf;
  }

  lemma StuckIs(clients: set<nat>, log: seq<Call>)
    ensures forall fd | fd in clients :: fd in Stuck(clients, log) <==> Report(log, fd) == Some(false)
  {
  }

  lemma LogIsAccounted(k: Kernel)
    requires k.Valid()
    ensures Accounted(k.sockets, k.log)
  {
    hide Accounted;
  }

  /** The repaired delete meets every guard, and the other one what its log says. */
  lemma PromisesKept(log: seq<Call>, size: nat, repaired: bool)
    requires Promises(log, size, repaired)
    ensures Always(log, NotEarly) && Always(log, SweptExactly(size, repaired))
    ensures repaired || Always(log, MeetsGuard(size, false)) ==> Always(log, OrderedCheck(size, repaired))
    ensures Always(log, OrderedCheck(size, repaired)) ==> Always(log, Swept) && Always(log, LongEnough)
    ensures Always(log, Swept) && Always(log, Punctual) ==> Always(log, NotLate)
  {
    if repaired {
      forall i | 0 <= i < |log| ensures MeetsGuard(size, true)(log[..i], log[i]) {
      }
      assert Always(log, MeetsGuard(size, true));
    }
    hide Always;
  }

  lemma NewQueue(q: QueueConnections, k: Kernel)
    requires q.Valid() && q.Model() == QueueRuns.Empty(q.capacity) && k.limit == q.capacity
    requires k.Valid() && k.sockets == {} && k.files == map[] && k.log == []
    ensures Sound(q, k) && Pending([], k.sockets, k.log)
    ensures OnTimeAhead(k.log, Contents(q.Model()), k.now)
    ensures Rounds(k, StartOf(k), 0, WorldOf(q, k), q.repaired)
  {
    assert Contents(q.Model()) == map[];
  }

  /** Shutdown frees every queue entry; none of them holds a body file. */
  method Shutdown(q: QueueConnections, k: Kernel)
    requires Settled(q, k)
    modifies k`files
    ensures k.Valid() && k.files == map[]
  {
    hide Logged, Tracked, Report;
    SettledHoldsNoBody(q.Model(), k.now, k.sockets);
    for i := 0 to q.currentSize
      invariant k.files == map[] && k.Valid()
    {
      assert q.Model().heap[i].bodyFd == -1;
      q.FreeConnection(q.connections[i], k);
    }
  }
}
