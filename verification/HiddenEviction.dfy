/** Without the guard of delete by descriptor both promises fail: a punctual run of the loop in which a
    close hides an expired client below a live one, a wait starts although that client has expired,
    and it is evicted 236 seconds after it was last served. */
module HiddenEviction {
  import opened Connections
  import HeapModel
  import opened Layouts
  import opened Kernels
  import opened History
  import opened ConnectionQueue
  import opened Request
  import opened Evictions
  import opened Batches
  import opened EventLoop
  import opened Staging

  /** Six clients arrive and are served at once. A minute later 1, 2 and 4 have another request; then 1
      has hung up, and 5 has another request. All are silent from then on. */
  function Alarm(n: nat): WakeUp {
    if n == 0 then WakeUp(0, [Incoming])
    else if n == 8 then WakeUp(0, Readies([1, 2, 3, 4, 5, 6]))
    else if 15 <= n <= 20 then Tock(n - 15)
    else if n == 21 then WakeUp(59, Readies([1, 2, 4]))
    else if n == 25 then WakeUp(59, Readies([1, 5]))
    else if n == 28 then WakeUp(118, [])
    else WakeUp(236, [])
  }

  function Caller(n: nat): Arrival {
    if 1 <= n <= 6 then Client(n, Greetings(2)) else Nobody
  }

  const SIX: seq<nat> := [1, 2, 3, 4, 5, 6]

  /** The heap after the clients have been served, and after each step a minute later. */
  const E0: seq<Entry> := [Entry(1, 0), Entry(2, 0), Entry(3, 0), Entry(4, 0), Entry(5, 0), Entry(6, 0)]
  const E1: seq<Entry> := [Entry(2, 0), Entry(4, 0), Entry(3, 0), Entry(1, 59), Entry(5, 0), Entry(6, 0)]
  const E2: seq<Entry> := [Entry(4, 0), Entry(5, 0), Entry(3, 0), Entry(1, 59), Entry(2, 59), Entry(6, 0)]
  const E3: seq<Entry> := [Entry(5, 0), Entry(4, 59), Entry(3, 0), Entry(1, 59), Entry(2, 59), Entry(6, 0)]
  /** Client 1 goes: the last record, of client 6, moves under the later one of client 4. */
  const E4: seq<Entry> := [Entry(5, 0), Entry(4, 59), Entry(3, 0), Entry(6, 0), Entry(2, 59)]
  const E5: seq<Entry> := [Entry(3, 0), Entry(4, 59), Entry(5, 59), Entry(6, 0), Entry(2, 59)]
  /** After the check at 118: client 6 has expired, and the root has not. */
  const E6: seq<Entry> := [Entry(2, 59), Entry(4, 59), Entry(5, 59), Entry(6, 0)]
  const E7: seq<Entry> := [Entry(6, 0), Entry(4, 59), Entry(5, 59)]

  lemma SinkOnce(entries: seq<Entry>, e: Entry, s: nat, r: seq<Entry>)
    requires 0 < s < |entries| && Smallest(entries[0 := e], 0) == s
    requires r == entries[0 := entries[s]][s := e] && Smallest(r, s) == s
    ensures Sift(entries[0 := e], 0) == r
  {
    assert entries[0 := e][0 := entries[s]][s := e] == r;
  }

  lemma SinkTwice(entries: seq<Entry>, e: Entry, s: nat, t: nat, mid: seq<Entry>, r: seq<Entry>)
    requires 0 < s < t < |entries| && Smallest(entries[0 := e], 0) == s
    requires mid == entries[0 := entries[s]][s := e] && Smallest(mid, s) == t
    requires r == mid[s := mid[t]][t := e] && Smallest(r, t) == t
    ensures Sift(entries[0 := e], 0) == r
  {
    assert entries[0 := e][0 := entries[s]][s := e] == mid;
    assert Sift(r, t) == r && Sift(mid, s) == r;
  }

  lemma FirstBatch()
    ensures Sift(E0[0 := Entry(1, 59)], 0) == E1
    ensures Sift(E1[0 := Entry(2, 59)], 0) == E2
    ensures Sift(E2[0 := Entry(4, 59)], 0) == E3
  {
    SinkTwice(E0, Entry(1, 59), 1, 3,
              [Entry(2, 0), Entry(1, 59), Entry(3, 0), Entry(4, 0), Entry(5, 0), Entry(6, 0)], E1);
    SinkTwice(E1, Entry(2, 59), 1, 4,
              [Entry(4, 0), Entry(2, 59), Entry(3, 0), Entry(1, 59), Entry(5, 0), Entry(6, 0)], E2);
    SinkOnce(E2, Entry(4, 59), 1, E3);
  }

  lemma SecondBatch()
    ensures Without(E3, 3) == E4 && Sift(E4[0 := Entry(5, 59)], 0) == E5
  {
    assert E3[..5][3 := E3[5]] == E4;
    SinkOnce(E4, Entry(5, 59), 2, E5);
  }

  lemma FirstCheck()
    ensures Gone(E5, 118) == [3] && Stay(E5, 118) == E6 && !NothingHidden(E6, 118)
  {
    assert E5[..4][0 := E5[4]] == E6;
    assert Smallest(E6, 0) == 0;
    assert Without(E5, 0) == E6;
    assert HeapModel.Parent(3) == 1;
    assert 118 - E6[3].time >= KEEP_ALIVE_TIMEOUT && 118 - E6[1].time < KEEP_ALIVE_TIMEOUT;
  }

  lemma SecondCheck()
    ensures Without(E6, 0) == E7 && |Gone(E6, 236)| >= 2 && Gone(E6, 236)[..2] == [2, 6]
  {
    assert E6[..3][0 := E6[3]] == E7;
    assert Smallest(E7, 0) == 0;
    assert Gone(E6, 236) == [2] + ([6] + Gone(Without(E7, 0), 236));
  }

  // ---------- What the clients have to say ----------

  function Said0(): map<nat, nat> {
    Joined(map[], SIX, 2)
  }

  function Said1(): map<nat, nat> {
    Heard(Said0(), SIX)
  }

  function Said2(): map<nat, nat> {
    Heard(Said1(), [1, 2, 4])
  }

  lemma AllHaveSaid()
    ensures (forall fd | fd in SIX :: fd in Said0() && Said0()[fd] == 2)
    ensures (forall fd | fd in SIX :: fd in Said1() && Said1()[fd] == 1)
    ensures (forall fd | fd in [1, 2, 4] :: fd in Said2() && Said2()[fd] == 0) && 5 in Said2() && Said2()[5] == 1
  {
    assert SIX[0] == 1 && SIX[1] == 2 && SIX[2] == 3 && SIX[3] == 4 && SIX[4] == 5 && SIX[5] == 6;
    assert [1, 2, 4][0] == 1 && [1, 2, 4][1] == 2 && [1, 2, 4][2] == 4;
  }

  function Served(n: nat): seq<Call> {
    seq(n, (i: nat) => Rearmed(i + 1, 0))
  }

  function Firsts(n: nat): seq<Entry> {
    seq(n, (i: nat) => Entry(i + 1, 0))
  }

  lemma FirstReplies()
    ensures Replies(SIX, Said0(), 0) == Served(6) && Firsts(6) == E0
  {
    hide Heard, Joined, Said0;
    AllHaveSaid();
  }

  lemma LaterReplies()
    ensures Replies([1, 2, 4], Said1(), 59) == [Rearmed(1, 59), Rearmed(2, 59), Rearmed(4, 59)]
    ensures Replies([1, 5], Said2(), 59) == [Closed(1, 59), Rearmed(5, 59)]
  {
    hide Heard, Joined, Said0, Said1, Said2;
    AllHaveSaid();
    assert SIX[0] == 1 && SIX[1] == 2 && SIX[3] == 4;
    assert [1, 2, 4][0] == 1;
  }

  lemma {:induction false} AllArrived(log: seq<Call>, n: nat)
    requires LogLaid(log, []) && n <= 6
    ensures LogLaid(log + Served(n), Firsts(n))
  {
    hide LogLaid;
    if n == 0 {
      assert log + Served(0) == log && Firsts(0) == [];
    } else {
      AllArrived(log, n - 1);
      LogArrived(log + Served(n - 1), Firsts(n - 1), n, 0);
      assert log + Served(n) == log + Served(n - 1) + [Rearmed(n, 0)];
      assert Firsts(n) == Firsts(n - 1) + [Entry(n, 0)];
    }
  }

  lemma AfterFirstBatch(log: seq<Call>)
    requires LogLaid(log, E0)
    ensures LogLaid(log + [Rearmed(1, 59), Rearmed(2, 59), Rearmed(4, 59)], E3)
  {
    hide LogLaid, Sift;
    FirstBatch();
    LogRenewed(log, E0, 0, 59);
    LogRenewed(log + [Rearmed(1, 59)], E1, 0, 59);
    LogRenewed(log + [Rearmed(1, 59)] + [Rearmed(2, 59)], E2, 0, 59);
    assert log + [Rearmed(1, 59)] + [Rearmed(2, 59)] + [Rearmed(4, 59)]
        == log + [Rearmed(1, 59), Rearmed(2, 59), Rearmed(4, 59)];
  }

  lemma AfterSecondBatch(log: seq<Call>)
    requires LogLaid(log, E3)
    ensures LogLaid(log + [Closed(1, 59), Rearmed(5, 59)], E5)
  {
    hide LogLaid, Sift, Without;
    SecondBatch();
    LogDeleted(log, E3, 3, 59);
    LogRenewed(log + [Closed(1, 59)], E4, 0, 59);
    assert log + [Closed(1, 59)] + [Rearmed(5, 59)] == log + [Closed(1, 59), Rearmed(5, 59)];
  }

  // ---------- The run ----------

  /** Six clients arrive and are served at time 0. */
  method SixClients(q: QueueConnections, k: Kernel, stack: nat -> RequestLine)
    requires Scene(q, k, Nothing(), 0, map[]) && LogLaid(k.log, [])
    requires k.wakeUps == Alarm && k.arrivals == Caller && k.now == 0 && k.log == []
    modifies q`currentSize, q.connections, q.indexQueue, k
    ensures Scene(q, k, Nothing(), 2, Said1()) && LogLaid(k.log, E0)
    ensures k.now == 0 && |k.log| == 15
  {
    hide Scene, LogLaid, Always, Greetings, Readies, Replies, Joined, Heard, Served, Firsts;
    AllHaveSaid();
    SixQueue();
    Admit(q, k, stack, Nothing(), 0, map[], [], SIX, 2);
    ghost var log := Exchange(q, k, stack, Nothing(), 1, Said0(), [], SIX);
    AllArrived(log, 6);
    FirstReplies();
  }

  lemma SixQueue()
    ensures Queueing(Caller, 1, SIX, 2) && Distinct(SIX) && forall fd | fd in SIX :: 0 < fd < MAX_EPOLL_EVENTS
  {
    hide Greetings;
  }

  /** A minute later: three clients are renewed; then the first hangs up, and a fourth is renewed. */
  method MinuteLater(q: QueueConnections, k: Kernel, stack: nat -> RequestLine)
    requires Scene(q, k, Nothing(), 8, Said1()) && LogLaid(k.log, E0)
    requires k.wakeUps == Alarm && k.now == 32 && |k.log| == 21
    modifies q`currentSize, q.connections, q.indexQueue, k
    ensures Scene(q, k, Nothing(), 10, Heard(Said2(), [1, 5])) && LogLaid(k.log, E5)
    ensures k.now == 59 && |k.log| == 28
  {
    hide Scene, LogLaid, Always, Greetings, Readies, Replies, Heard, Said0, Said1;
    AllHaveSaid();
    LaterReplies();
    KnownThen();
    ghost var log := Exchange(q, k, stack, Nothing(), 8, Said1(), E0, [1, 2, 4]);
    AfterFirstBatch(log);
    log := Exchange(q, k, stack, Nothing(), 9, Said2(), E3, [1, 5]);
    AfterSecondBatch(log);
  }

  lemma KnownThen()
    ensures forall fd | fd in [1, 2, 4] :: fd in Said1()
    ensures forall fd | fd in [1, 5] :: fd in Said2()
    ensures Distinct([1, 2, 4]) && Distinct([1, 5])
  {
    hide Heard, Joined, Said0, Said1, Said2;
    AllHaveSaid();
    assert SIX[0] == 1 && SIX[1] == 2 && SIX[3] == 4;
    assert [1, 2, 4][0] == 1;
  }

  lemma NobodyLate()
    ensures Gone(E5, 59) == [] && Stay(E5, 59) == E5 && forall said :: Unsaid(said, []) == said
  {
  }

  /** The wait at 118 starts although client 6 has been silent for all of these seconds. */
  method Hiding(q: QueueConnections, k: Kernel, stack: nat -> RequestLine, ghost said: map<nat, nat>)
    requires Scene(q, k, Nothing(), 10, said) && LogLaid(k.log, E5)
    requires k.wakeUps == Alarm && k.now == 59 && |k.log| == 28
    modifies q`currentSize, q.connections, q.indexQueue, k
    ensures Scene(q, k, Nothing(), 12, Unsaid(said, [3])) && LogLaid(k.log, E6) && !Always(k.log, Swept)
    ensures k.now == 236 && |k.log| == 31
  {
    hide Scene, LogLaid, Always, Greetings, Gone, Stay, Unsaid, Closes, NothingHidden;
    NobodyLate();
    Silence(q, k, stack, Nothing(), 10, said, E5);
    FirstCheck();
    Silence(q, k, stack, Nothing(), 11, said, E5);
  }

  lemma HiddenGoes(log: seq<Call>, before: seq<Call>, gone: seq<nat>)
    requires before + Closes(gone, 236) <= log && |gone| >= 2 && gone[..2] == [2, 6]
    requires EvictsAt(before, Closed(6, 236), 236)
    ensures ReachesAge(log, 236)
  {
    hide EvictsAt;
    var closes := Closes(gone, 236);
    assert gone[0] == gone[..2][0] && gone[1] == gone[..2][1];
    assert closes[0] == Closed(2, 236) && closes[1] == Closed(6, 236);
    assert (before + closes)[|before| + 1] == closes[1] && (before + closes)[|before|] == closes[0];
    EvictsAfterOther(before, Closed(2, 236), Closed(6, 236), 236);
    assert log[..|before| + 1] == before + [Closed(2, 236)];
    assert EvictsAt(log[..|before| + 1], log[|before| + 1], 236);
  }

  /** The check at 236 evicts client 6, which was last served at time 0. */
  method Surfacing(q: QueueConnections, k: Kernel, stack: nat -> RequestLine, ghost said: map<nat, nat>)
    requires Scene(q, k, Nothing(), 12, said) && LogLaid(k.log, E6) && !Always(k.log, Swept)
    requires k.wakeUps == Alarm && k.now == 236 && |k.log| == 31
    modifies q`currentSize, q.connections, q.indexQueue, k
    ensures Scene(q, k, Nothing(), 13, Unsaid(said, Gone(E6, 236)))
    ensures !Always(k.log, Swept) && ReachesAge(k.log, 236)
  {
    hide Scene, LogLaid, Always, Greetings, Gone, Stay, Unsaid, Closes, NothingHidden, ReachesAge, EvictsAt;
    ghost var log := k.log;
    EntryGoes(q, k, Nothing(), 12, said, E6, 3);
    SecondCheck();
    Silence(q, k, stack, Nothing(), 12, said, E6);
    HiddenGoes(k.log, log, Gone(E6, 236));
  }

  /** Thirteen punctual rounds of the loop with the delete as written: a wait starts with an expired
      client, and a client is evicted at the age of 236 seconds. */
  method PromisesFail(stack: nat -> RequestLine) returns (k: Kernel)
    ensures exists m :: Rounds(k, Nothing(), 13, World(m, k.sockets, k.incoming, k.log, k.now), false)
    ensures Always(k.log, Punctual) && !Always(k.log, Swept) && ReachesAge(k.log, 236)
  {
    hide Scene, LogLaid, Always, Gone, ReachesAge, Rounds, Unsaid, Heard, Said1, Said2, Greetings;
    var q;
    q, k := Opening(Alarm, Caller);
    SixClients(q, k, stack);
    Ticks(q, k, stack, Nothing(), 2, Said1(), E0);
    MinuteLater(q, k, stack);
    Hiding(q, k, stack, Heard(Said2(), [1, 5]));
    ghost var said := Unsaid(Heard(Said2(), [1, 5]), [3]);
    Surfacing(q, k, stack, said);
    RunOfScene(q, k, 13, Unsaid(said, Gone(E6, 236)));
  }
}
