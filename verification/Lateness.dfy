/** How late a timeout can be. The loop waits for the age of the oldest connection, not for the time
    it has left, so an idle connection can outlive its timeout almost threefold, and no more. */
module Lateness {
  import opened Connections

  function Age(c: Connection, now: int): int {
    now - c.priorityTime
  }

  function Survivors(m: map<nat, Connection>, now: int): map<nat, Connection> {
    map fd | fd in m && Age(m[fd], now) < KEEP_ALIVE_TIMEOUT :: m[fd]
  }

  const ONE_WAIT := 2 * (KEEP_ALIVE_TIMEOUT - 1)   // 118 seconds
  const TWO_WAITS := 3 * (KEEP_ALIVE_TIMEOUT - 1)  // 177 seconds

  /** The timeout is the age of a connection, in milliseconds; with the heap in order, of the oldest
      one. Without connections the wait is without end. */
  ghost predicate WaitsForAge(m: map<nat, Connection>, now: int, timeout: int, ordered: bool) {
    && (m == map[] ==> timeout == -1)
    && (m != map[] ==> exists fd :: fd in m && timeout == Age(m[fd], now) * 1000)
    && (ordered ==> forall fd | fd in m :: Age(m[fd], now) * 1000 <= timeout)
  }

  /** The assumption of the lateness bound on one wait and the check that follows it. A wait with a
      positive timeout ends by then, and the next check falls in the second of waking; a poll, and
      what it found, take no more than a second; what ends an endless wait takes no more than a
      second. */
  predicate Prompt(from: int, timeout: int, woke: int, next: int) {
    if timeout < 0 then next - woke <= 1
    else if timeout == 0 then next - from <= 1
    else (woke - from) * 1000 <= timeout && next == woke
  }

  /** What holds at every check for timeouts: all ages are at most 118; or at most 177, and then
      every connection that survives the check has age 0. */
  ghost predicate OnTime(m: map<nat, Connection>, now: int) {
    && (forall fd | fd in m :: 0 <= Age(m[fd], now))
    && (|| (forall fd | fd in m :: Age(m[fd], now) <= ONE_WAIT)
        || (forall fd | fd in m :: Age(m[fd], now) <= TWO_WAITS
                                   && (Age(m[fd], now) < KEEP_ALIVE_TIMEOUT ==> Age(m[fd], now) == 0)))
  }

  /** Every entry is as it was, or was made or renewed between two instants. */
  ghost predicate Touched(m: map<nat, Connection>, m': map<nat, Connection>, from: int, to: int) {
    forall fd | fd in m' :: (fd in m && m'[fd] == m[fd]) || from <= m'[fd].priorityTime <= to
  }

  /** The bound is inductive over rounds: at `from` the expired connections go, the wait lasts until
      `woke`, what is served is renewed by `end`, and the next check is at `next`. */
  lemma RoundKeepsOnTime(m: map<nat, Connection>, from: int, timeout: int, woke: int,
                         m': map<nat, Connection>, end: int, next: int)
    requires OnTime(m, from) && WaitsForAge(m, from, timeout, false)
    requires from <= woke <= end <= next && Prompt(from, timeout, woke, next)
    requires Touched(Survivors(m, from), m', woke, end)
    ensures OnTime(m', next)
  {
    if timeout <= 0 {
      assert timeout < 0 ==> m == map[];
      assert forall fd | fd in m' :: 0 <= Age(m'[fd], next) <= KEEP_ALIVE_TIMEOUT;
    } else {
      var oldest :| oldest in m && timeout == Age(m[oldest], from) * 1000;
      assert woke - from <= Age(m[oldest], from);
      assert woke - from < KEEP_ALIVE_TIMEOUT ==> forall fd | fd in m' :: Age(m'[fd], woke) <= ONE_WAIT;
    }
  }
}
