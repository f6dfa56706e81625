/** The lateness bound is reached: a run of the loop in which every wait is swept and every round
    punctual, and a client is evicted 177 seconds after it was last served. */
module LatestEviction {
  import opened Layouts
  import opened Kernels
  import opened Lateness
  import opened History
  import opened ConnectionQueue
  import opened Request
  import opened Evictions
  import opened Batches
  import opened EventLoop
  import opened Staging

  /** Client 1 arrives and is served at once, client 2 a minute later; both are silent from then on. */
  function Alarm(n: nat): WakeUp {
    if n == 0 then WakeUp(0, [Incoming])
    else if n == 3 then WakeUp(0, [Ready(1, true)])
    else if 5 <= n <= 10 then Tock(n - 5)
    else if n == 11 then WakeUp(59, [Incoming])
    else if n == 14 then WakeUp(59, [Ready(2, true)])
    else if n == 16 then WakeUp(118, [])
    else WakeUp(236, [])
  }

  function Caller(n: nat): Arrival {
    if n == 1 then Client(1, Greetings(1))
    else if n == 12 then Client(2, Greetings(1))
    else Nobody
  }

  /** The first client arrives and is served at time 0. */
  method FirstClient(q: QueueConnections, k: Kernel, stack: nat -> RequestLine)
    requires Scene(q, k, Nothing(), 0, map[]) && LogLaid(k.log, []) && Always(k.log, Swept)
    requires k.wakeUps == Alarm && k.arrivals == Caller && k.now == 0 && k.log == []
    modifies q`currentSize, q.connections, q.indexQueue, k
    ensures Scene(q, k, Nothing(), 2, map[1 := 0]) && LogLaid(k.log, [Entry(1, 0)]) && Always(k.log, Swept)
    ensures k.now == 0 && |k.log| == 5
  {
    hide Scene, LogLaid, Always, Greetings, Readies, Replies, Joined, Heard;
    FirstSaid();
    Admit(q, k, stack, Nothing(), 0, map[], [], [1], 1);
    ghost var log := Exchange(q, k, stack, Nothing(), 1, map[1 := 1], [], [1]);
    LogArrived(log, [], 1, 0);
  }

  lemma FirstSaid()
    ensures Joined(map[], [1], 1) == map[1 := 1] && Heard(map[1 := 1], [1]) == map[1 := 0]
    ensures Readies([1]) == [Ready(1, true)] && Replies([1], map[1 := 1], 0) == [Rearmed(1, 0)]
    ensures [] + [Entry(1, 0)] == [Entry(1, 0)]
  {
  }

  /** The second client arrives and is served when the first has been silent for 59 seconds. */
  method SecondClient(q: QueueConnections, k: Kernel, stack: nat -> RequestLine)
    requires Scene(q, k, Nothing(), 8, map[1 := 0]) && LogLaid(k.log, [Entry(1, 0)]) && Always(k.log, Swept)
    requires k.wakeUps == Alarm && k.arrivals == Caller && k.now == 32 && |k.log| == 11
    modifies q`currentSize, q.connections, q.indexQueue, k
    ensures Scene(q, k, Nothing(), 10, map[1 := 0, 2 := 0])
    ensures LogLaid(k.log, [Entry(1, 0), Entry(2, 59)]) && Always(k.log, Swept)
    ensures k.now == 59 && |k.log| == 16
  {
    hide Scene, LogLaid, Always, Greetings, Readies, Replies, Joined, Heard;
    SecondSaid();
    Admit(q, k, stack, Nothing(), 8, map[1 := 0], [Entry(1, 0)], [2], 1);
    ghost var log := Exchange(q, k, stack, Nothing(), 9, map[1 := 0, 2 := 1], [Entry(1, 0)], [2]);
    LogArrived(log, [Entry(1, 0)], 2, 59);
  }

  lemma SecondSaid()
    ensures Joined(map[1 := 0], [2], 1) == map[1 := 0, 2 := 1] && 2 !in map[1 := 0]
    ensures Heard(map[1 := 0, 2 := 1], [2]) == map[1 := 0, 2 := 0]
    ensures Readies([2]) == [Ready(2, true)] && Replies([2], map[1 := 0, 2 := 1], 59) == [Rearmed(2, 59)]
    ensures [Entry(1, 0)] + [Entry(2, 59)] == [Entry(1, 0), Entry(2, 59)]
  {
  }

  lemma WhoGoes()
    ensures Gone([Entry(1, 0), Entry(2, 59)], 59) == []
    ensures Stay([Entry(1, 0), Entry(2, 59)], 59) == [Entry(1, 0), Entry(2, 59)]
    ensures Gone([Entry(1, 0), Entry(2, 59)], 118) == [1]
    ensures Stay([Entry(1, 0), Entry(2, 59)], 118) == [Entry(2, 59)]
    ensures Gone([Entry(2, 59)], 236) == [2] && Stay([Entry(2, 59)], 236) == []
  {
    assert [Entry(1, 0), Entry(2, 59)][..1][0 := Entry(2, 59)] == [Entry(2, 59)];
    assert Without([Entry(1, 0), Entry(2, 59)], 0) == [Entry(2, 59)];
    assert Without([Entry(2, 59)], 0) == [];
  }

  /** Twice the loop waits for as long as the first client is old: it evicts that client at the age of
      118 seconds, and the other one at 177. */
  method TwoWaits(q: QueueConnections, k: Kernel, stack: nat -> RequestLine)
    requires Scene(q, k, Nothing(), 10, map[1 := 0, 2 := 0])
    requires LogLaid(k.log, [Entry(1, 0), Entry(2, 59)]) && Always(k.log, Swept)
    requires k.wakeUps == Alarm && k.now == 59 && |k.log| == 16
    modifies q`currentSize, q.connections, q.indexQueue, k
    ensures Scene(q, k, Nothing(), 12, Unsaid(Unsaid(map[1 := 0, 2 := 0], []), [1]))
    ensures LogLaid(k.log, [Entry(2, 59)]) && Always(k.log, Swept)
    ensures k.now == 236 && |k.log| == 19
  {
    hide Scene, LogLaid, Always, Greetings, Gone, Stay, Unsaid, Closes;
    WhoGoes();
    Silence(q, k, stack, Nothing(), 10, map[1 := 0, 2 := 0], [Entry(1, 0), Entry(2, 59)]);
    Silence(q, k, stack, Nothing(), 11, Unsaid(map[1 := 0, 2 := 0], []), [Entry(1, 0), Entry(2, 59)]);
  }

  /** Thirteen rounds of the loop with the delete as written, all swept and punctual, the last of which
      evicts a client at the age of 177 seconds. */
  method BoundIsReached(stack: nat -> RequestLine) returns (k: Kernel)
    ensures exists m :: Rounds(k, Nothing(), 13, World(m, k.sockets, k.incoming, k.log, k.now), false)
    ensures Always(k.log, Swept) && Always(k.log, Punctual) && ReachesAge(k.log, TWO_WAITS)
  {
    hide Scene, LogLaid, Always, Greetings, Gone, Stay, ReachesAge, Closes, Rounds, Unsaid;
    var q;
    q, k := Opening(Alarm, Caller);
    FirstClient(q, k, stack);
    Ticks(q, k, stack, Nothing(), 2, map[1 := 0], [Entry(1, 0)]);
    SecondClient(q, k, stack);
    TwoWaits(q, k, stack);
    ghost var log, said := k.log, Unsaid(Unsaid(map[1 := 0, 2 := 0], []), [1]);
    EntryGoes(q, k, Nothing(), 12, said, [Entry(2, 59)], 0);
    WhoGoes();
    Silence(q, k, stack, Nothing(), 12, said, [Entry(2, 59)]);
    AgeReached(k.log, log, [2], 236, TWO_WAITS);
    RunOfScene(q, k, 13, Unsaid(said, [2]));
  }
}
