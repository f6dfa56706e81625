/** Staged runs of the loop: clients that each send a number of identical requests and then no more,
    and a kernel that does all it is asked to at once. */
module Staging {
  import opened Connections
  import opened CStrings
  import opened HeapModel
  import opened Layouts
  import opened Kernels
  import opened Lateness
  import opened History
  import opened ConnectionQueue
  import QueueRuns
  import opened Receive
  import opened Request
  import opened RequestProofs
  import opened ResponseHead
  import opened Headers
  import opened Serving
  import opened Answering
  import opened Evictions
  import opened Accepting
  import opened Batches
  import opened EventLoop

  // ---------- The clients ----------

  function GreetingLine(): RequestLine {
    RequestLine("GET", "/", "HTTP/1.1")
  }

  function GreetingField(): Header {
    Header("connection", "keep-alive")
  }

  /** A request to be kept alive, n times. */
  function Greetings(n: nat): string {
    if n == 0 then "" else PrintRequest(GreetingLine(), [GreetingField()], Greetings(n - 1))
  }

  function GreetingSize(): nat {
    |Greetings(1)|
  }

  /** Transfers move up to one request, and the clock stands still between waits. */
  function Obliging(i: nat): Answer {
    Answer(Moved(GreetingSize()), 0, true, Found, 0, "x", "", "", "")
  }

  lemma GreetingIsSendable(n: nat)
    ensures Sendable(GreetingLine(), [GreetingField()], Greetings(n))
  {
    hide PrintRequest, Greetings;
    GreetingFieldIsPrintable();
    PrintedLength(GreetingLine(), GreetingField());
  }

  lemma GreetingFieldIsPrintable()
    ensures Printable([GreetingField()])
  {
    hide IsToken;
    ConnectionToken();
    TokenPrintable("connection", "keep-alive");
  }

  lemma GreetingAsksForIt()
    ensures AskedToBeKept([GreetingField()])
  {
    hide IsToken;
    ConnectionToken();
    TokenPrintable("connection", "keep-alive");
    assert "keep-alive"[0] == 'k';
    assert LastMatch([GreetingField()], "connection", "keep-alive") by {
      assert Names([GreetingField()][0], "connection");
    }
  }

  lemma PrintedBefore(line: RequestLine, hs: seq<Header>, body: string)
    ensures PrintRequest(line, hs, body) == PrintRequest(line, hs, "") + body
  {
    hide PrintLine, PrintFields;
    var a, b := PrintLine(line), PrintFields(hs, CRLF);
    assert a + (CRLF + (b + (CRLF + body))) == (a + (CRLF + (b + (CRLF + "")))) + body;
  }

  lemma PrintedLength(line: RequestLine, h: Header)
    ensures |PrintRequest(line, [h], "")|
         == |line.verb| + |line.path| + |line.version| + |h.name| + |h.value| + 10
  {
    assert PrintFields([h], CRLF) == PrintField(h, CRLF) + PrintFields([], CRLF);
  }

  lemma GreetingIsShort()
    ensures 0 < GreetingSize() <= BUFFER_REQUEST_SIZE
    ensures Greetings(1) == PrintRequest(GreetingLine(), [GreetingField()], "")
  {
    hide PrintRequest;
    PrintedLength(GreetingLine(), GreetingField());
  }

  /** The first transfer brings one whole request, and leaves the others. */
  lemma FirstGreeting(n: nat)
    requires n > 0
    ensures Greetings(n) == Greetings(1) + Greetings(n - 1)
    ensures FirstPart(Greetings(n), GreetingSize()) == Greetings(1) && IsRequestComplete(Greetings(1))
    ensures Greetings(n)[GreetingSize()..] == Greetings(n - 1)
  {
    hide PrintRequest, Find, GreetingLine, GreetingField;
    GreetingIsShort();
    PrintedBefore(GreetingLine(), [GreetingField()], Greetings(n - 1));
    GreetingIsSendable(n - 1);
    SendableIsPrintable(GreetingLine(), [GreetingField()], Greetings(n - 1));
    PrintedIsComplete(GreetingLine(), [GreetingField()], "");
  }

  lemma GreetingAsks(n: nat)
    requires n > 0
    ensures AsksToBeKept(Greetings(n))
  {
    hide GreetingLine, GreetingField, Sendable, PrintRequest, AsksToBeKept, AskedToBeKept;
    GreetingIsSendable(n - 1);
    GreetingAsksForIt();
    PrintedAsksToBeKept(GreetingLine(), [GreetingField()], Greetings(n - 1));
  }

  // ---------- What the server makes of a batch ----------

  function Readies(fds: seq<nat>): seq<Event> {
    seq(|fds|, i requires 0 <= i < |fds| => Ready(fds[i], true))
  }

  /** Whoever has more to say is armed again, and the others are closed. */
  function Reply(said: map<nat, nat>, fd: nat, now: int): Call {
    if fd in said && said[fd] > 0 then Rearmed(fd, now) else Closed(fd, now)
  }

  function Replies(fds: seq<nat>, said: map<nat, nat>, now: int): seq<Call> {
    seq(|fds|, i requires 0 <= i < |fds| => Reply(said, fds[i], now))
  }

  /** What the clients still have to say. */
  function Heard(said: map<nat, nat>, fds: seq<nat>): map<nat, nat> {
    map fd | fd in said && (fd in fds ==> said[fd] > 0) :: if fd in fds then said[fd] - 1 else said[fd]
  }

  ghost predicate Saying(w: World, said: map<nat, nat>) {
    w.clients == said.Keys && forall fd | fd in said :: fd in w.incoming && w.incoming[fd] == Greetings(said[fd])
  }

  lemma OneReply(k: Kernel, w: World, fd: nat, said: map<nat, nat>, w': World)
    requires Served(k, w, fd, w') && Saying(w, said) && fd in said
    requires k.script == Obliging && w.now >= 0
    ensures w'.now == w.now && w'.log == w.log + [Reply(said, fd, w.now)] && Saying(w', Heard(said, [fd]))
  {
    hide AsksToBeKept, Greetings, IsRequestComplete, FirstPart;
    GreetingSteady(k);
    if said[fd] > 0 {
      GreetingAsks(said[fd]);
      FirstGreeting(said[fd]);
      assert w'.incoming[fd] == w.incoming[fd][|FirstPart(w.incoming[fd], GreetingSize())|..];
    } else {
      NothingToSay();
    }
  }

  lemma NothingToSay()
    ensures Greetings(0) == ""
  {
  }

  lemma GreetingSteady(k: Kernel)
    requires k.script == Obliging
    ensures AlwaysHelpful(k) && k.Steady(GreetingSize()) && forall now: int | now >= 0 :: Quiet(k, now)
  {
    GreetingIsShort();
  }

  lemma HandledLast(k: Kernel, w: World, events: seq<Event>, event: Event, w': World) returns (mid: World)
    requires Handled(k, w, events + [event], w')
    ensures Handled(k, w, events, mid) && Effect(k, mid, event, w')
  {
    hide Effect;
    assert (events + [event])[..|events|] == events;
    mid :| Handled(k, w, events, mid) && Effect(k, mid, event, w');
  }

  lemma {:induction false} BatchReplies(k: Kernel, w: World, fds: seq<nat>, said: map<nat, nat>, w': World)
    requires Handled(k, w, Readies(fds), w') && Saying(w, said) && Distinct(fds)
    requires (forall fd | fd in fds :: fd in said) && k.script == Obliging && w.now >= 0
    ensures w'.now == w.now && w'.log == w.log + Replies(fds, said, w.now) && Saying(w', Heard(said, fds))
    decreases |fds|
  {
    hide Greetings, Effect, Saying, Reply;
    if fds == [] {
      assert Heard(said, []) == said;
    } else {
      var front, fd := fds[..|fds| - 1], fds[|fds| - 1];
      assert fds == front + [fd];
      assert Readies(fds) == Readies(front) + [Ready(fd, true)];
      var mid := HandledLast(k, w, Readies(front), Ready(fd, true), w');
      BatchReplies(k, w, front, said, mid);
      ReplyLast(k, mid, front, fd, said, w');
    }
  }

  lemma ReplyLast(k: Kernel, mid: World, front: seq<nat>, fd: nat, said: map<nat, nat>, w': World)
    requires Effect(k, mid, Ready(fd, true), w') && Saying(mid, Heard(said, front))
    requires fd in said && fd !in front && k.script == Obliging && mid.now >= 0
    ensures w'.now == mid.now && w'.log == mid.log + [Reply(said, fd, mid.now)]
    ensures Saying(w', Heard(said, front + [fd]))
    ensures Replies(front + [fd], said, mid.now) == Replies(front, said, mid.now) + [Reply(said, fd, mid.now)]
  {
    hide Greetings, Saying;
    OneReply(k, mid, fd, Heard(said, front), w');
    assert Heard(Heard(said, front), [fd]) == Heard(said, front + [fd]);
  }

  /** Whom the kernel gives to the accept loop: these clients, and then nobody. */
  predicate Queueing(arrivals: nat -> Arrival, at: nat, fds: seq<nat>, n: nat) {
    && (forall i | 0 <= i < |fds| :: arrivals(at + i) == Client(fds[i], Greetings(n)))
    && arrivals(at + |fds|) == Nobody
  }

  function Joined(said: map<nat, nat>, fds: seq<nat>, n: nat): map<nat, nat> {
    said + map fd | fd in fds :: n
  }

  lemma AllJoin(k: Kernel, w: World, fds: seq<nat>, n: nat, said: map<nat, nat>, w': World)
    requires Handled(k, w, [Incoming], w') && Saying(w, said) && Distinct(fds)
    requires Queueing(k.arrivals, |w.log|, fds, n)
    requires forall fd | fd in fds :: fd !in said && 0 < fd < k.limit
    ensures w'.now == w.now && w'.contents == w.contents && w'.log == w.log + Accepts(fds) + [Refused]
    ensures Saying(w', Joined(said, fds, n))
  {
    hide Greetings;
    assert [Incoming] == [] + [Incoming];
    var mid := HandledLast(k, w, [], Incoming, w');
    var came: seq<nat> :| Greeted(k, w, came, w');
    SameQueue(k, w, fds, n, came, w');
    WhoSaysWhat(w, fds, n, said, w', k);
  }

  lemma WhoSaysWhat(w: World, fds: seq<nat>, n: nat, said: map<nat, nat>, w': World, k: Kernel)
    requires Arrived(k, fds, w.clients, w.log, w'.clients, w.incoming, w'.incoming)
    requires Saying(w, said) && Queueing(k.arrivals, |w.log|, fds, n)
    ensures Saying(w', Joined(said, fds, n))
  {
    hide Greetings;
    forall fd | fd in fds ensures fd in w'.incoming && w'.incoming[fd] == Greetings(n) {
      var i :| 0 <= i < |fds| && fds[i] == fd;
      assert k.arrivals(|w.log| + i) == Client(fds[i], w'.incoming[fds[i]]);
    }
    forall fd ensures fd in Members(fds) <==> fd in fds {
    }
  }

  /** Everybody who queues is accepted, and nobody else. */
  lemma SameQueue(k: Kernel, w: World, fds: seq<nat>, n: nat, came: seq<nat>, w': World)
    requires Greeted(k, w, came, w') && Queueing(k.arrivals, |w.log|, fds, n) && Distinct(fds)
    requires forall fd | fd in fds :: fd !in w.clients && 0 < fd < k.limit
    ensures came == fds
  {
    hide Greetings;
    assert |w'.log| - 1 == |w.log| + |came|;
    SamePrefix(k, w, fds, n, came, w');
    if |came| < |fds| {
      assert k.arrivals(|w.log| + |came|) == Client(fds[|came|], Greetings(n));
      NotYet(fds, came);
    }
  }

  lemma NotYet(fds: seq<nat>, came: seq<nat>)
    requires Distinct(fds) && |came| < |fds| && came == fds[..|came|]
    ensures fds[|came|] !in Members(came)
  {
    forall i | 0 <= i < |came| ensures came[i] != fds[|came|] {
      assert came[i] == fds[i];
    }
  }

  lemma SamePrefix(k: Kernel, w: World, fds: seq<nat>, n: nat, came: seq<nat>, w': World)
    requires Arrived(k, came, w.clients, w.log, w'.clients, w.incoming, w'.incoming)
    requires Queueing(k.arrivals, |w.log|, fds, n)
    ensures |came| <= |fds| && came == fds[..|came|]
  {
    hide Greetings;
    forall i | 0 <= i < |came| && i < |fds| ensures came[i] == fds[i] {
      assert k.arrivals(|w.log| + i) == Client(came[i], w'.incoming[came[i]]);
    }
    if |came| > |fds| {
      ArrivedOne(k, came, |fds|, w, w');
    }
  }

  lemma ArrivedOne(k: Kernel, came: seq<nat>, i: nat, w: World, w': World)
    requires Arrived(k, came, w.clients, w.log, w'.clients, w.incoming, w'.incoming) && i < |came|
    ensures k.arrivals(|w.log| + i).Client?
  {
    assert came[i] !in w.clients;
  }

  // ---------- The queue, written out ----------

  /** The queue that the log gives. */
  ghost predicate LogLaid(log: seq<Call>, entries: seq<Entry>) {
    var q := Replay(log, MAX_EPOLL_EVENTS, false);
    LaidOut(q, entries) && |q.index| == MAX_EPOLL_EVENTS
  }

  predicate NoneAfter(entries: seq<Entry>, now: int) {
    forall i | 0 <= i < |entries| :: entries[i].time <= now
  }

  lemma LaidReady(q: Queue, entries: seq<Entry>, now: int)
    requires LaidOut(q, entries) && NoneAfter(entries, now)
    ensures QueueRuns.Ready(q, now)
  {
  }

  lemma LogSame(log: seq<Call>, entries: seq<Entry>, call: Call)
    requires LogLaid(log, entries) && !call.Rearmed? && !call.Closed?
    ensures LogLaid(log + [call], entries)
  {
    hide Replay, LaidOut;
    ReplaySnoc(log, call, MAX_EPOLL_EVENTS, false);
  }

  lemma LogArrived(log: seq<Call>, entries: seq<Entry>, fd: nat, now: int)
    requires LogLaid(log, entries) && NoneAfter(entries, now) && fd < MAX_EPOLL_EVENTS
    requires forall i | 0 <= i < |entries| :: entries[i].fd != fd
    ensures LogLaid(log + [Rearmed(fd, now)], entries + [Entry(fd, now)])
  {
    hide Replay, LaidOut, Coherent, Update, GetOrCreate, Sift;
    var q := Replay(log, MAX_EPOLL_EVENTS, false);
    ReplaySnoc(log, Rearmed(fd, now), MAX_EPOLL_EVENTS, false);
    LaidReady(q, entries, now);
    ArrivedIs(q, entries, fd, now);
    var more := entries + [Entry(fd, now)];
    assert more[|entries|] == Entry(fd, now);
    RenewedIs(GetOrCreate(q, fd, now), more, |entries|, now);
    assert more[|entries| := Entry(fd, now)] == more;
    LeafStays(more);
  }

  lemma LeafStays(entries: seq<Entry>)
    requires entries != []
    ensures Sift(entries, |entries| - 1) == entries
  {
  }

  lemma LogRenewed(log: seq<Call>, entries: seq<Entry>, i: nat, now: int)
    requires LogLaid(log, entries) && NoneAfter(entries, now) && i < |entries|
    ensures LogLaid(log + [Rearmed(entries[i].fd, now)], Sift(entries[i := Entry(entries[i].fd, now)], i))
  {
    hide Replay, LaidOut, Coherent, Update, Sift;
    var q, fd := Replay(log, MAX_EPOLL_EVENTS, false), entries[i].fd;
    ReplaySnoc(log, Rearmed(fd, now), MAX_EPOLL_EVENTS, false);
    LaidReady(q, entries, now);
    RenewedIs(q, entries, i, now);
    assert GetOrCreate(q, fd, now) == q;
  }

  lemma LogDeleted(log: seq<Call>, entries: seq<Entry>, i: nat, now: int)
    requires LogLaid(log, entries) && i < |entries|
    ensures LogLaid(log + [Closed(entries[i].fd, now)], Without(entries, i))
  {
    hide Replay, LaidOut, Coherent, DequeueByFd, Without;
    var q, fd := Replay(log, MAX_EPOLL_EVENTS, false), entries[i].fd;
    ReplaySnoc(log, Closed(fd, now), MAX_EPOLL_EVENTS, false);
    DeletedIs(q, entries, i);
    LaidOutParts(q, entries);
  }

  function Late(entries: seq<Entry>, now: int): bool {
    entries != [] && now - entries[0].time >= KEEP_ALIVE_TIMEOUT
  }

  /** Whom a check evicts, and what it leaves. */
  function Gone(entries: seq<Entry>, now: int): seq<nat>
    decreases |entries|
  {
    if Late(entries, now) then [entries[0].fd] + Gone(Without(entries, 0), now) else []
  }

  function Stay(entries: seq<Entry>, now: int): seq<Entry>
    decreases |entries|
  {
    if Late(entries, now) then Stay(Without(entries, 0), now) else entries
  }

  lemma {:induction false} GoneIs(q: Queue, entries: seq<Entry>, now: int)
    requires LaidOut(q, entries)
    ensures Coherent(q) && Evicted(q, now, false) == Gone(entries, now)
    ensures LaidOut(Remaining(q, now, false), Stay(entries, now))
    ensures |Remaining(q, now, false).index| == |q.index|
    decreases |entries|
  {
    hide LaidOut, Coherent, Without, DequeueByFd;
    LaidOutParts(q, entries);
    if entries != [] {
      RootOf(q, entries);
      DeletedIs(q, entries, 0);
      if Late(entries, now) {
        GoneIs(WithoutRoot(q, false), Without(entries, 0), now);
      }
    }
  }

  lemma RootOf(q: Queue, entries: seq<Entry>)
    requires LaidOut(q, entries) && entries != []
    ensures |q.heap| > 0 && q.heap[0] == FreshConnection(entries[0].fd, entries[0].time)
  {
  }

  /** The wake-up timeout. */
  function RootTime(entries: seq<Entry>, now: int): int {
    if entries == [] then -1 else (now - entries[0].time) * 1000
  }

  // ---------- The scene between two rounds ----------

  /** After `n` rounds. */
  ghost predicate Going(q: QueueConnections, k: Kernel, start: World, n: nat)
    reads q, q.connections, q.indexQueue, k
  {
    && Sound(q, k) && Pending([], k.sockets, k.log)
    && OnTimeAhead(k.log, Contents(q.Model()), k.now)
    && q.capacity == MAX_EPOLL_EVENTS && !q.repaired && k.script == Obliging
    && Rounds(k, start, n, WorldOf(q, k), false)
  }

  /** After `n` rounds, all punctual: everything but the queue. */
  ghost predicate Scene(q: QueueConnections, k: Kernel, start: World, n: nat, said: map<nat, nat>)
    reads q, q.connections, q.indexQueue, k
  {
    && Going(q, k, start, n) && AllArmed(k.armed) && k.now >= 0
    && Always(k.log, Punctual) && PromptSince(k.log, k.now)
    && Saying(WorldOf(q, k), said)
  }

  lemma SceneIsLaid(q: QueueConnections, k: Kernel, start: World, n: nat, said: map<nat, nat>, entries: seq<Entry>)
    requires Scene(q, k, start, n, said) && LogLaid(k.log, entries)
    ensures LaidOut(q.Model(), entries) && Replay(k.log, MAX_EPOLL_EVENTS, false) == q.Model()
    ensures |q.Model().index| == MAX_EPOLL_EVENTS
    ensures forall fd | fd in Contents(q.Model()) :: fd in said
  {
    hide Logged, Pending, AllArmed, OnTimeAhead, Always, PromptSince, Rounds, Saying, Promises, LaidOut;
    hide Replay;
    hide LastRearm;
    ModelIndex(q, k);
    assert WorldOf(q, k).clients == said.Keys by {
      SayingClients(WorldOf(q, k), said);
    }
  }

  lemma SayingClients(w: World, said: map<nat, nat>)
    requires Saying(w, said)
    ensures w.clients == said.Keys
  {
  }

  /** The last wait was prompt for what follows it. */
  lemma {:induction false} PunctualRest(log: seq<Call>, wait: Call, rest: seq<Call>)
    requires wait.Waited? && Always(log + [wait], Punctual)
    requires Prompt(wait.from, wait.timeout, wait.woke, wait.woke)
    requires forall i | 0 <= i < |rest| :: !rest[i].Waited? && (rest[i].Closed? ==> rest[i].at == wait.woke)
    ensures Always(log + [wait] + rest, Punctual) && LastWait(log + [wait] + rest) == Some(wait)
    decreases |rest|
  {
    hide Always, LastWait, Prompt;
    if rest == [] {
      assert log + [wait] + rest == log + [wait];
      LogSnoc(log, wait);
    } else {
      var front, last := rest[..|rest| - 1], rest[|rest| - 1];
      PunctualRest(log, wait, front);
      assert log + [wait] + rest == (log + [wait] + front) + [last];
      LogSnoc(log + [wait] + front, last);
      AlwaysSnoc(log + [wait] + front, last, Punctual);
    }
  }

  lemma {:induction false} PunctualEvictions(log: seq<Call>, fds: seq<nat>, at: int)
    requires Always(log, Punctual) && PromptSince(log, at)
    ensures Always(log + Closes(fds, at), Punctual) && LastWait(log + Closes(fds, at)) == LastWait(log)
  {
    hide Always, LastWait, Prompt;
    if fds == [] {
      assert log + Closes(fds, at) == log;
    } else {
      var front, last := fds[..|fds| - 1], fds[|fds| - 1];
      PunctualEvictions(log, front, at);
      assert log + Closes(fds, at) == (log + Closes(front, at)) + [Closed(last, at)];
      LogSnoc(log + Closes(front, at), Closed(last, at));
      AlwaysSnoc(log + Closes(front, at), Closed(last, at), Punctual);
    }
  }

  lemma PunctualWait(log: seq<Call>, fds: seq<nat>, wait: Call)
    requires wait.Waited? && Always(log, Punctual) && PromptSince(log, wait.from)
    ensures Always(log + Closes(fds, wait.from) + [wait], Punctual)
  {
    hide Always, LastWait, Prompt;
    PunctualEvictions(log, fds, wait.from);
    AlwaysSnoc(log + Closes(fds, wait.from), wait, Punctual);
  }

  /** The wait of a staged round: whom the check evicts, how long the wait is and what it reports. */
  ghost predicate Staged(log: seq<Call>, armed: map<nat, bool>, now: int, entries: seq<Entry>,
                         wakeUps: nat -> WakeUp, wait: Call)
  {
    var gone := Gone(entries, now);
    var alarm := wakeUps(|log| + |gone|);
    && wait == Waited(now, RootTime(entries, now), Later(now, alarm.time),
                      Reported(alarm.events, armed - Members(gone)))
    && Always(log + Closes(gone, now) + [wait], Punctual)
    && LogLaid(log + Closes(gone, now) + [wait], Stay(entries, now))
  }

  /** Up to the handling of what the wait reports, a round is determined. */
  method NextRound(q: QueueConnections, k: Kernel, stack: nat -> RequestLine, ghost start: World, ghost n: nat,
                   ghost said: map<nat, nat>, ghost entries: seq<Entry>)
    returns (ghost wait: Call)
    requires Scene(q, k, start, n, said) && LogLaid(k.log, entries)
    modifies q`currentSize, q.connections, q.indexQueue, k
    ensures Going(q, k, start, n + 1)
    ensures Staged(old(k.log), old(k.armed), old(k.now), entries, k.wakeUps, wait)
    ensures Handled(k, AfterWait(old(WorldOf(q, k)), Gone(entries, old(k.now)), wait), wait.events, WorldOf(q, k))
    ensures AllReadable(wait.events) <==> AllArmed(k.armed)
  {
    hide Logged, Coherent, HeapOrdered, SettledMap, Tracked, Promises, Contents, Report, Always, MeetsGuard;
    hide Reported, Timely, Pending, AllReadable, Handled, WaitsForAge, OnTimeAhead, AllArmed, Members;
    hide Closes, Rounds, Saying;
    hide Stuck, Unreadable, Expired, Distinct, OldestFirst, Evicted, Remaining, LaidOut, Gone, Stay, Replay;
    hide Greetings;
    ghost var w := WorldOf(q, k);
    SceneIsLaid(q, k, start, n, said, entries);
    GoneIs(q.Model(), entries, k.now);
    RootTimeIs(q.Model(), entries, k.now);
    GreetingSteady(k);
    ghost var evicted;
    evicted, wait := OneRound(q, k, stack);
    PunctualWait(w.log, evicted, wait);
    RoundsSnoc(k, start, n, w, evicted, wait, WorldOf(q, k), false);
  }

  lemma RootTimeIs(q: Queue, entries: seq<Entry>, now: int)
    requires LaidOut(q, entries)
    ensures RootAge(q, now) == RootTime(entries, now)
  {
  }

  /** No expired entry is right below one that has not expired. */
  predicate NothingHidden(entries: seq<Entry>, now: int) {
    forall i | 0 < i < |entries| && now - entries[i].time >= KEEP_ALIVE_TIMEOUT ::
      now - entries[Parent(i)].time >= KEEP_ALIVE_TIMEOUT
  }

  lemma {:induction false} SweptAfterOthers(log: seq<Call>, rest: seq<Call>)
    requires forall i | 0 <= i < |rest| :: !rest[i].Waited?
    ensures Always(log + rest, Swept) <==> Always(log, Swept)
    decreases |rest|
  {
    hide Always;
    if rest == [] {
      assert log + rest == log;
    } else {
      var front, last := rest[..|rest| - 1], rest[|rest| - 1];
      SweptAfterOthers(log, front);
      assert log + rest == (log + front) + [last];
      AlwaysSnoc(log + front, last, Swept);
    }
  }

  /** Whether the wait of a staged round was swept shows in the queue that the check left. */
  lemma SweptShows(log: seq<Call>, closes: seq<Call>, wait: Call, rest: seq<Call>, entries: seq<Entry>)
    requires (forall i | 0 <= i < |closes| :: !closes[i].Waited?) && wait.Waited?
    requires forall i | 0 <= i < |rest| :: !rest[i].Waited?
    requires LogLaid(log + closes + [wait], entries)
    requires Always(log + closes + [wait] + rest, SweptExactly(MAX_EPOLL_EVENTS, false))
    ensures Always(log + closes + [wait] + rest, Swept)
            <==> Always(log, Swept) && NothingHidden(entries, wait.from)
  {
    hide Always, Replay, LaidOut, Surfaced, Swept;
    var before := log + closes;
    SweptAfterOthers(before + [wait], rest);
    AlwaysSnoc(before, wait, Swept);
    SweptAfterOthers(log, closes);
    AlwaysBefore(before + [wait], before + [wait] + rest, SweptExactly(MAX_EPOLL_EVENTS, false));
    AlwaysSnoc(before, wait, SweptExactly(MAX_EPOLL_EVENTS, false));
    ReplaySnoc(before, wait, MAX_EPOLL_EVENTS, false);
    SurfacedIs(Replay(before, MAX_EPOLL_EVENTS, false), entries, wait.from);
    assert NoneHidden(MAX_EPOLL_EVENTS, false)(before, wait)
        <==> Surfaced(Replay(before, MAX_EPOLL_EVENTS, false).heap, wait.from);
  }

  lemma SurfacedIs(q: Queue, entries: seq<Entry>, now: int)
    requires LaidOut(q, entries)
    ensures Surfaced(q.heap, now) <==> NothingHidden(entries, now)
  {
    forall i | 0 <= i < |entries| ensures Age(q.heap[i], now) == now - entries[i].time {
    }
  }

  /** What follows from the form of the log after a staged round. */
  lemma AfterRound(log: seq<Call>, armed: map<nat, bool>, now: int, entries: seq<Entry>, wakeUps: nat -> WakeUp,
                   wait: Call, rest: seq<Call>)
    requires Staged(log, armed, now, entries, wakeUps, wait)
    requires forall i | 0 <= i < |rest| :: !rest[i].Waited? && (rest[i].Closed? ==> rest[i].at == wait.woke)
    requires Prompt(now, RootTime(entries, now), wait.woke, wait.woke)
    requires Always(log + Closes(Gone(entries, now), now) + [wait] + rest, SweptExactly(MAX_EPOLL_EVENTS, false))
    ensures var gone := Gone(entries, now);
            var log' := log + Closes(gone, now) + [wait] + rest;
            && Always(log', Punctual) && PromptSince(log', wait.woke)
            && |log'| == |log| + |gone| + 1 + |rest| && log + Closes(gone, now) <= log'
            && (Always(log', Swept) <==> Always(log, Swept) && NothingHidden(Stay(entries, now), now))
  {
    hide Always, Gone, Stay, RootTime, Prompt, LastWait, LogLaid, NothingHidden, Reported, Swept;
    var gone := Gone(entries, now);
    PunctualRest(log + Closes(gone, now), wait, rest);
    SweptShows(log, Closes(gone, now), wait, rest, Stay(entries, now));
  }

  lemma PromisesExactly(q: QueueConnections, k: Kernel, start: World, n: nat)
    requires Going(q, k, start, n)
    ensures Always(k.log, SweptExactly(MAX_EPOLL_EVENTS, false))
  {
    hide Settled, Always, Rounds;
  }

  function Unsaid(said: map<nat, nat>, gone: seq<nat>): map<nat, nat> {
    map fd | fd in said && fd !in gone :: said[fd]
  }

  lemma SilentRound(k: Kernel, w: World, gone: seq<nat>, armed: map<nat, bool>, wait: Call, w': World,
                    said: map<nat, nat>)
    requires wait.Waited? && wait.events == Reported([], armed - Members(gone)) && Saying(w, said)
    requires Handled(k, AfterWait(w, gone, wait), wait.events, w')
    ensures w' == AfterWait(w, gone, wait) && Saying(w', Unsaid(said, gone)) && AllReadable(wait.events)
    ensures w.log + Closes(gone, wait.from) + [wait] + [] == w.log + Closes(gone, wait.from) + [wait]
  {
    hide Greetings;
    forall fd ensures fd in Members(gone) <==> fd in gone {
    }
  }

  /** A round in which nothing is reported. */
  method Silence(q: QueueConnections, k: Kernel, stack: nat -> RequestLine, ghost start: World, ghost n: nat,
                 ghost said: map<nat, nat>, ghost entries: seq<Entry>)
    requires Scene(q, k, start, n, said) && LogLaid(k.log, entries)
    requires var alarm := k.wakeUps(|k.log| + |Gone(entries, k.now)|);
             && alarm.events == [] && k.now <= alarm.time
             && Prompt(k.now, RootTime(entries, k.now), alarm.time, alarm.time)
    modifies q`currentSize, q.connections, q.indexQueue, k
    ensures var gone := Gone(entries, old(k.now));
            && Scene(q, k, start, n + 1, Unsaid(said, gone)) && LogLaid(k.log, Stay(entries, old(k.now)))
            && k.now == k.wakeUps(|old(k.log)| + |gone|).time && |k.log| == |old(k.log)| + |gone| + 1
            && old(k.log) + Closes(gone, old(k.now)) <= k.log
    ensures Always(k.log, Swept) <==>
              old(Always(k.log, Swept)) && NothingHidden(Stay(entries, old(k.now)), old(k.now))
  {
    hide Logged, Pending, OnTimeAhead, Rounds, Promises, Coherent, Tracked, SettledMap, Contents;
    hide MeetsGuard, HeapOrdered;
    hide Gone, Stay, Always, PromptSince, LogLaid, AllArmed, Greetings, Saying, NothingHidden, Swept, Prompt;
    hide RootTime, Punctual, SweptExactly, Handled;
    ghost var w, armed := WorldOf(q, k), k.armed;
    ghost var gone := Gone(entries, k.now);
    ghost var wait := NextRound(q, k, stack, start, n, said, entries);
    SilentRound(k, w, gone, armed, wait, WorldOf(q, k), said);
    PromisesExactly(q, k, start, n + 1);
    AfterRound(w.log, armed, w.now, entries, k.wakeUps, wait, []);
  }

  /** Nobody has expired, so the check evicts nobody. */
  lemma NobodyGone(entries: seq<Entry>, now: int, w: World, wait: Call, armed: map<nat, bool>)
    requires wait.Waited? && !Late(entries, now)
    ensures Gone(entries, now) == [] && Stay(entries, now) == entries
    ensures w.log + Closes([], now) == w.log && armed - Members([]) == armed
    ensures AfterWait(w, [], wait) == World(w.contents, w.clients, w.incoming, w.log + [wait], wait.woke)
  {
    assert Members([]) == {} && w.contents - {} == w.contents;
  }

  lemma {:induction false} LogSameAll(log: seq<Call>, rest: seq<Call>, entries: seq<Entry>)
    requires LogLaid(log, entries) && forall i | 0 <= i < |rest| :: !rest[i].Rearmed? && !rest[i].Closed?
    ensures LogLaid(log + rest, entries)
    decreases |rest|
  {
    hide LogLaid;
    if rest == [] {
      assert log + rest == log;
    } else {
      var front, last := rest[..|rest| - 1], rest[|rest| - 1];
      LogSameAll(log, front, entries);
      assert log + rest == (log + front) + [last];
      LogSame(log + front, entries, last);
    }
  }

  lemma AdmitRound(k: Kernel, w: World, armed: map<nat, bool>, wait: Call, fds: seq<nat>, n: nat,
                     said: map<nat, nat>, entries: seq<Entry>, w': World)
    requires wait.Waited? && !Late(entries, wait.from) && wait.events == Reported([Incoming], armed - Members([]))
    requires Handled(k, AfterWait(w, [], wait), wait.events, w') && Saying(w, said) && Distinct(fds)
    requires Queueing(k.arrivals, |w.log| + 1, fds, n)
    requires forall fd | fd in fds :: fd !in said && 0 < fd < k.limit
    requires LogLaid(w.log + [wait], entries)
    ensures w'.now == wait.woke && Saying(w', Joined(said, fds, n)) && AllReadable(wait.events)
    ensures var rest := Accepts(fds) + [Refused];
            && w'.log == w.log + [wait] + rest && |rest| == |fds| + 1
            && LogLaid(w'.log, entries)
            && forall i | 0 <= i < |rest| :: !rest[i].Waited? && !rest[i].Closed?
  {
    hide Greetings, LogLaid, Queueing, Handled, Saying;
    NobodyGone(entries, wait.from, w, wait, armed);
    assert [Incoming][1..] == [];
    assert wait.events == [Incoming];
    assert AfterWait(w, [], wait).log == w.log + [wait];
    SayingStill(w, AfterWait(w, [], wait), said);
    AllJoin(k, AfterWait(w, [], wait), fds, n, said, w');
    var rest := Accepts(fds) + [Refused];
    assert w.log + [wait] + Accepts(fds) + [Refused] == w.log + [wait] + rest;
    LogSameAll(w.log + [wait], rest, entries);
  }

  lemma SayingStill(w: World, w': World, said: map<nat, nat>)
    requires Saying(w, said) && w'.clients == w.clients && w'.incoming == w.incoming
    ensures Saying(w', said)
  {
    hide Greetings;
  }

  /** A round in which clients arrive. */
  method Admit(q: QueueConnections, k: Kernel, stack: nat -> RequestLine, ghost start: World, ghost n: nat,
                 ghost said: map<nat, nat>, ghost entries: seq<Entry>, ghost fds: seq<nat>, ghost requests: nat)
    requires Scene(q, k, start, n, said) && LogLaid(k.log, entries) && !Late(entries, k.now)
    requires var alarm := k.wakeUps(|k.log|);
             && alarm.events == [Incoming] && k.now <= alarm.time
             && Prompt(k.now, RootTime(entries, k.now), alarm.time, alarm.time)
    requires Queueing(k.arrivals, |k.log| + 1, fds, requests) && Distinct(fds)
    requires forall fd | fd in fds :: fd !in said && 0 < fd < MAX_EPOLL_EVENTS
    modifies q`currentSize, q.connections, q.indexQueue, k
    ensures Scene(q, k, start, n + 1, Joined(said, fds, requests)) && LogLaid(k.log, entries)
    ensures k.now == k.wakeUps(|old(k.log)|).time && |k.log| == |old(k.log)| + |fds| + 2
    ensures Always(k.log, Swept) <==> old(Always(k.log, Swept)) && NothingHidden(entries, old(k.now))
  {
    hide Logged, Pending, OnTimeAhead, Rounds, Promises, Coherent, Tracked, SettledMap, Contents;
    hide MeetsGuard, HeapOrdered;
    hide Gone, Stay, Always, PromptSince, LogLaid, AllArmed, Greetings, Saying, NothingHidden, Swept, Prompt;
    hide RootTime, Punctual, SweptExactly, Handled, Queueing, Late, Distinct, Accepts, Reported, AfterWait;
    ghost var w, armed := WorldOf(q, k), k.armed;
    ghost var wait := NextRound(q, k, stack, start, n, said, entries);
    NobodyGone(entries, w.now, w, wait, armed);
    AdmitRound(k, w, armed, wait, fds, requests, said, entries, WorldOf(q, k));
    PromisesExactly(q, k, start, n + 1);
    AfterRound(w.log, armed, w.now, entries, k.wakeUps, wait, Accepts(fds) + [Refused]);
  }

  lemma ReportedAll(fds: seq<nat>, armed: map<nat, bool>)
    requires AllArmed(armed) && Distinct(fds) && forall fd | fd in fds :: fd in armed
    ensures Reported(Readies(fds), armed) == Readies(fds) && AllReadable(Readies(fds))
  {
    ReportedFrom(fds, armed);
  }

  lemma {:induction false} ReportedFrom(fds: seq<nat>, armed: map<nat, bool>)
    requires Distinct(fds) && forall fd | fd in fds :: fd in armed && armed[fd]
    ensures Reported(Readies(fds), armed) == Readies(fds)
    decreases |fds|
  {
    if fds != [] {
      var fd, rest := fds[0], fds[1..];
      assert fds == [fd] + rest;
      assert Readies(fds)[1..] == Readies(rest);
      assert Readies(fds) == [Ready(fd, true)] + Readies(rest);
      ReportedFrom(rest, armed[fd := false]);
    }
  }

  lemma ExchangeRound(k: Kernel, w: World, armed: map<nat, bool>, wait: Call, fds: seq<nat>,
                      said: map<nat, nat>, entries: seq<Entry>, w': World)
    requires wait.Waited? && !Late(entries, wait.from) && wait.events == Reported(Readies(fds), armed - Members([]))
    requires Handled(k, AfterWait(w, [], wait), wait.events, w') && Saying(w, said) && Distinct(fds)
    requires AllArmed(armed) && armed.Keys == said.Keys && forall fd | fd in fds :: fd in said
    requires k.script == Obliging && wait.woke >= 0
    ensures w'.now == wait.woke && Saying(w', Heard(said, fds)) && AllReadable(wait.events)
    ensures var rest := Replies(fds, said, wait.woke);
            && w'.log == w.log + [wait] + rest && |rest| == |fds|
            && forall i | 0 <= i < |rest| :: !rest[i].Waited? && (rest[i].Closed? ==> rest[i].at == wait.woke)
  {
    hide Greetings, Handled, Saying, Heard;
    NobodyGone(entries, wait.from, w, wait, armed);
    ReportedAll(fds, armed);
    SayingStill(w, AfterWait(w, [], wait), said);
    BatchReplies(k, AfterWait(w, [], wait), fds, said, w');
  }

  /** A round in which clients have become ready. What it makes of the queue is left to the caller. */
  method Exchange(q: QueueConnections, k: Kernel, stack: nat -> RequestLine, ghost start: World, ghost n: nat,
                  ghost said: map<nat, nat>, ghost entries: seq<Entry>, ghost fds: seq<nat>)
    returns (ghost log: seq<Call>)
    requires Scene(q, k, start, n, said) && LogLaid(k.log, entries) && !Late(entries, k.now)
    requires var alarm := k.wakeUps(|k.log|);
             && alarm.events == Readies(fds) && k.now <= alarm.time
             && Prompt(k.now, RootTime(entries, k.now), alarm.time, alarm.time)
    requires Distinct(fds) && forall fd | fd in fds :: fd in said
    modifies q`currentSize, q.connections, q.indexQueue, k
    ensures Scene(q, k, start, n + 1, Heard(said, fds))
    ensures LogLaid(log, entries) && k.log == log + Replies(fds, said, k.now)
    ensures k.now == k.wakeUps(|old(k.log)|).time && |k.log| == |old(k.log)| + |fds| + 1
    ensures Always(k.log, Swept) <==> old(Always(k.log, Swept)) && NothingHidden(entries, old(k.now))
  {
    hide Logged, Pending, OnTimeAhead, Rounds, Promises, Coherent, Tracked, SettledMap, Contents;
    hide MeetsGuard, HeapOrdered;
    hide Gone, Stay, Always, PromptSince, LogLaid, AllArmed, Greetings, Saying, NothingHidden, Swept;
    hide Prompt, Heard;
    hide RootTime, Punctual, SweptExactly, Handled, Late, Distinct, Reported, AfterWait, Readies, Replies;
    ghost var w, armed := WorldOf(q, k), k.armed;
    SayingClients(w, said);
    ghost var wait := NextRound(q, k, stack, start, n, said, entries);
    NobodyGone(entries, w.now, w, wait, armed);
    ExchangeRound(k, w, armed, wait, fds, said, entries, WorldOf(q, k));
    PromisesExactly(q, k, start, n + 1);
    AfterRound(w.log, armed, w.now, entries, k.wakeUps, wait, Replies(fds, said, k.now));
    log := w.log + [wait];
  }

  // ---------- Beginning and waiting ----------

  function Nothing(): World {
    World(map[], {}, map[], [], 0)
  }

  method Opening(wakeUps: nat -> WakeUp, arrivals: nat -> Arrival) returns (q: QueueConnections, k: Kernel)
    ensures fresh(q) && fresh(q.connections) && fresh(q.indexQueue) && fresh(k)
    ensures k.wakeUps == wakeUps && k.arrivals == arrivals && k.now == 0 && k.log == []
    ensures Scene(q, k, Nothing(), 0, map[]) && LogLaid(k.log, []) && Always(k.log, Swept)
  {
    GreetingIsShort();
    k := new Kernel(Obliging, wakeUps, arrivals, 0, MAX_EPOLL_EVENTS);
    q := new QueueConnections(MAX_EPOLL_EVENTS, false);
    hide Settled, Promises, OnTimeAhead, Rounds, Greetings;
    NewQueue(q, k);
    NoLog();
  }

  lemma NoLog()
    ensures Always([], Punctual) && Always([], Swept) && LogLaid([], [])
  {
  }

  /** The first minute: every wait is as long as the oldest client is old. */
  function Doubling(i: nat): int {
    if i == 0 then 0 else if i == 1 then 1 else 2 * Doubling(i - 1)
  }

  function Tock(i: nat): WakeUp {
    WakeUp(Doubling(i + 1), [])
  }

  /** One wait of the first minute. */
  method Tick(q: QueueConnections, k: Kernel, stack: nat -> RequestLine, ghost start: World, ghost n: nat,
              ghost said: map<nat, nat>, ghost entries: seq<Entry>, ghost i: nat)
    requires Scene(q, k, start, n, said) && LogLaid(k.log, entries)
    requires entries != [] && (forall j | 0 <= j < |entries| :: entries[j].time == 0)
    requires i <= 5 && k.now == Doubling(i) && k.wakeUps(|k.log|) == Tock(i)
    modifies q`currentSize, q.connections, q.indexQueue, k
    ensures Scene(q, k, start, n + 1, said) && LogLaid(k.log, entries)
    ensures |k.log| == |old(k.log)| + 1 && k.now == Doubling(i + 1)
    ensures Always(k.log, Swept) <==> old(Always(k.log, Swept))
  {
    hide Scene, LogLaid, Always, Greetings, Closes;
    DoublingSmall(i);
    assert !Late(entries, k.now) && Gone(entries, k.now) == [] && Stay(entries, k.now) == entries;
    assert Unsaid(said, []) == said;
    Silence(q, k, stack, start, n, said, entries);
  }

  lemma DoublingSmall(i: nat)
    requires i <= 5
    ensures Doubling(i) <= Doubling(i + 1) <= 32
    ensures Doubling(i + 1) <= if i == 0 then 1 else 2 * Doubling(i)
  {
    assert Doubling(1) == 1 && Doubling(2) == 2 && Doubling(3) == 4 && Doubling(4) == 8 && Doubling(5) == 16;
  }

  /** The first minute, all but its end. */
  method Ticks(q: QueueConnections, k: Kernel, stack: nat -> RequestLine, ghost start: World, n: nat,
               ghost said: map<nat, nat>, ghost entries: seq<Entry>)
    requires Scene(q, k, start, n, said) && LogLaid(k.log, entries) && k.now == 0
    requires entries != [] && (forall j | 0 <= j < |entries| :: entries[j].time == 0)
    requires forall i: nat | i <= 5 :: k.wakeUps(|k.log| + i) == Tock(i)
    modifies q`currentSize, q.connections, q.indexQueue, k
    ensures Scene(q, k, start, n + 6, said) && LogLaid(k.log, entries)
    ensures |k.log| == |old(k.log)| + 6 && k.now == 32
    ensures Always(k.log, Swept) <==> old(Always(k.log, Swept))
  {
    hide Scene, LogLaid, Always, Doubling, Tock;
    FirstDoublings();
    for i := 0 to 6
      invariant Scene(q, k, start, n + i, said) && LogLaid(k.log, entries)
      invariant |k.log| == |old(k.log)| + i && k.now == Doubling(i)
      invariant Always(k.log, Swept) <==> old(Always(k.log, Swept))
    {
      Tick(q, k, stack, start, n + i, said, entries, i);
    }
  }

  lemma FirstDoublings()
    ensures Doubling(0) == 0 && Doubling(6) == 32
  {
    assert Doubling(1) == 1 && Doubling(2) == 2 && Doubling(3) == 4 && Doubling(4) == 8 && Doubling(5) == 16;
  }

  // ---------- What a run shows ----------

  /** An eviction of a client that age after it was last re-armed. */
  predicate EvictsAt(before: seq<Call>, call: Call, age: int) {
    Evicts(before, call) && LastRearm(before, call.fd) == Some(call.at - age)
  }

  ghost predicate ReachesAge(log: seq<Call>, age: int) {
    exists i :: 0 <= i < |log| && EvictsAt(log[..i], log[i], age)
  }

  /** Evicting a client of the queue is evicting it at the age it has. */
  lemma EntryGoes(q: QueueConnections, k: Kernel, start: World, n: nat, said: map<nat, nat>, entries: seq<Entry>,
                  i: nat)
    requires Scene(q, k, start, n, said) && LogLaid(k.log, entries) && i < |entries|
    ensures EvictsAt(k.log, Closed(entries[i].fd, k.now), k.now - entries[i].time)
  {
    hide Logged, OnTimeAhead, Rounds, Promises, Replay, LastRearm, Report, Always, PromptSince;
    SceneIsLaid(q, k, start, n, said, entries);
    SlotOf(q.Model(), entries, i);
    assert entries[i].fd in k.sockets;
  }

  lemma EvictsAfterOther(log: seq<Call>, other: Call, call: Call, age: int)
    requires call.Closed? && EvictsAt(log, call, age) && other.Closed? && other.fd != call.fd
    ensures EvictsAt(log + [other], call, age)
  {
    hide Report, LastRearm;
    LogSnoc(log, other);
  }

  lemma AgeReached(log: seq<Call>, before: seq<Call>, fds: seq<nat>, at: int, age: int)
    requires before + Closes(fds, at) <= log && fds != [] && EvictsAt(before, Closed(fds[0], at), age)
    ensures ReachesAge(log, age)
  {
    hide EvictsAt;
    assert log[..|before|] == before && log[|before|] == (before + Closes(fds, at))[|before|];
  }

  lemma RunOfScene(q: QueueConnections, k: Kernel, n: nat, said: map<nat, nat>)
    requires Scene(q, k, Nothing(), n, said)
    ensures exists m :: Rounds(k, Nothing(), n, World(m, k.sockets, k.incoming, k.log, k.now), false)
    ensures Always(k.log, Punctual)
  {
    hide Rounds, Tracked, Promises, Always, Saying;
    assert Rounds(k, Nothing(), n, World(Contents(q.Model()), k.sockets, k.incoming, k.log, k.now), false);
  }
}
