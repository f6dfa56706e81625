/** What the log of system calls says about the server: the queue is a function of it, and so are the
    promises about evictions. */
module History {
  import opened Connections
  import opened HeapModel
  import opened Kernels
  import opened Lateness
  import QueueRuns

  // ---------- The queue, replayed ----------

  /** A connection found or created, and then renewed. */
  ghost function Renewed(q: Queue, fd: nat, now: int): Queue
    requires QueueRuns.Ready(q, now) && fd < |q.index|
  {
    QueueRuns.TouchRefines(q, fd, now);
    Update(GetOrCreate(q, fd, now), fd, now)
  }

  lemma RenewedRefines(q: Queue, fd: nat, now: int)
    requires QueueRuns.Ready(q, now) && fd < |q.index|
    ensures var r := Renewed(q, fd, now);
            && Coherent(r) && |r.index| == |q.index|
            && Contents(r) == Contents(q)[fd := FreshConnection(fd, now)]
            && (HeapOrdered(q.heap) ==> HeapOrdered(r.heap))
  {
    hide Update, GetOrCreate, HeapOrdered;
    QueueRuns.TouchRefines(q, fd, now);
    var looked := GetOrCreate(q, fd, now);
    RenewedAt(q, fd, now);
    UpdateCoherence(looked, fd, now);
    if HeapOrdered(q.heap) {
      UpdateOrders(looked, fd, now);
    }
  }

  lemma RenewedAt(q: Queue, fd: nat, now: int)
    requires QueueRuns.Ready(q, now) && fd < |q.index|
    requires Coherent(GetOrCreate(q, fd, now)) && Has(GetOrCreate(q, fd, now), fd)
    ensures var looked := GetOrCreate(q, fd, now);
            && looked.heap[looked.index[fd]].priorityTime <= now
            && |Update(looked, fd, now).index| == |looked.index|
  {
    QueueRuns.TouchRefines(q, fd, now);
    var looked := GetOrCreate(q, fd, now);
    assert looked.heap[looked.index[fd]] == Contents(looked)[fd];
    if fd in Contents(q) {
      assert Contents(q)[fd] == q.heap[q.index[fd]];
    }
  }

  /** The queue that the re-arms and the closes of a log make of the empty one. */
  ghost function Replay(log: seq<Call>, size: nat, repaired: bool): Queue {
    if log == [] then QueueRuns.Empty(size)
    else ReplayAfter(log[|log| - 1], Replay(log[..|log| - 1], size, repaired), repaired)
  }

  ghost function ReplayAfter(call: Call, q: Queue, repaired: bool): Queue {
    match call
    case Rearmed(fd, at) => if QueueRuns.Ready(q, at) && fd < |q.index| then Renewed(q, fd, at) else q
    case Closed(fd, _) => if Coherent(q) && fd < |q.index| then DeleteByFd(q, fd, repaired) else q
    case _ => q
  }

  lemma ReplaySnoc(log: seq<Call>, call: Call, size: nat, repaired: bool)
    ensures Replay(log + [call], size, repaired) == ReplayAfter(call, Replay(log, size, repaired), repaired)
  {
    hide ReplayAfter;
    assert (log + [call])[..|log|] == log;
  }

  /** The queue is the one the log says, and holds every client since it was last re-armed. */
  ghost predicate Tracked(q: Queue, log: seq<Call>, repaired: bool) {
    && Coherent(q) && q == Replay(log, |q.index|, repaired)
    && forall fd :: LastRearm(log, fd) == if fd in Contents(q) then Some(Contents(q)[fd].priorityTime) else None
  }

  lemma TrackedRearm(q: Queue, log: seq<Call>, repaired: bool, fd: nat, now: int)
    requires Tracked(q, log, repaired) && QueueRuns.Ready(q, now) && fd < |q.index|
    ensures Tracked(Renewed(q, fd, now), log + [Rearmed(fd, now)], repaired)
  {
    hide Replay, Renewed, LastRearm, Coherent, Contents;
    RenewedRefines(q, fd, now);
    ReplaySnoc(log, Rearmed(fd, now), |q.index|, repaired);
    LogSnoc(log, Rearmed(fd, now));
  }

  lemma TrackedClose(q: Queue, log: seq<Call>, repaired: bool, fd: nat, now: int)
    requires Tracked(q, log, repaired) && fd < |q.index|
    ensures Coherent(DeleteByFd(q, fd, repaired)) && Contents(DeleteByFd(q, fd, repaired)) == Contents(q) - {fd}
    ensures Tracked(DeleteByFd(q, fd, repaired), log + [Closed(fd, now)], repaired)
  {
    hide Replay, DeleteByFd, LastRearm, Coherent, Contents;
    DeleteByFdRefines(q, fd, repaired);
    ReplaySnoc(log, Closed(fd, now), |q.index|, repaired);
    LogSnoc(log, Closed(fd, now));
  }

  lemma TrackedOther(q: Queue, log: seq<Call>, repaired: bool, call: Call)
    requires Tracked(q, log, repaired)
    requires call.Waited? || call.Refused? || (call.Accepted? && call.fd !in Contents(q))
    ensures Tracked(q, log + [call], repaired)
  {
    hide Replay, LastRearm, Coherent, Contents;
    ReplaySnoc(log, call, |q.index|, repaired);
    LogSnoc(log, call);
  }

  /** Between lookup and renewal the record may change, as long as its time is not in the future. */
  lemma RenewInFlight(q: Queue, looked: Queue, fd: nat, at: int, c: Connection, now: int)
    requires QueueRuns.Ready(q, at) && at <= now && fd < |q.index|
    requires looked == GetOrCreate(q, fd, at) && Coherent(looked) && Has(looked, fd)
    requires c.clientFd == fd && c.priorityTime <= now
    ensures Coherent(Write(looked, fd, c)) && Update(Write(looked, fd, c), fd, now) == Renewed(q, fd, now)
  {
    WriteRefines(looked, fd, c);
    var renewal := FreshConnection(fd, now);
    if Has(q, fd) {
      assert Write(looked, fd, c).heap[looked.index[fd] := renewal] == q.heap[q.index[fd] := renewal];
      assert q.heap[q.index[fd]].priorityTime <= now;
    } else {
      CreatedLast(q, fd, at);
      CreatedLast(q, fd, now);
      var n := |q.heap|;
      assert looked.heap[n := c][n := renewal] == q.heap + [renewal];
      NothingBelow(Queue(q.heap + [renewal], q.index[fd := n]), n);
      assert (q.heap + [renewal])[n := renewal] == q.heap + [renewal];
    }
  }

  /** A connection created now stays behind all others. */
  lemma CreatedLast(q: Queue, fd: nat, now: int)
    requires QueueRuns.Ready(q, now) && fd < |q.index| && !Has(q, fd)
    ensures GetOrCreate(q, fd, now) == Queue(q.heap + [FreshConnection(fd, now)], q.index[fd := |q.heap|])
    ensures InRange(GetOrCreate(q, fd, now))
  {
    RoomForAbsent(q, fd);
    var n, h := |q.heap|, q.heap + [FreshConnection(fd, now)];
    assert n > 0 ==> h[Parent(n)] == q.heap[Parent(n)];
  }

  lemma NothingBelow(q: Queue, i: nat)
    requires InRange(q) && i == |q.heap| - 1
    ensures Heapify(q, i) == q
  {
  }

  lemma DeleteForgets(q: Queue, fd: nat, c: Connection, repaired: bool)
    requires Coherent(q) && fd < |q.index| && Has(q, fd) && c.clientFd == fd
    ensures Coherent(Write(q, fd, c)) && DeleteByFd(Write(q, fd, c), fd, repaired) == DeleteByFd(q, fd, repaired)
  {
    hide Contents;
    WriteRefines(q, fd, c);
    var i, n := q.index[fd], |q.heap| - 1;
    var h := q.heap[i := c];
    if i == n {
      assert h[..n] == q.heap[..n];
    } else {
      assert h[..n][i := h[n]] == q.heap[..n][i := q.heap[n]];
    }
  }

  /** Closing a connection forgets the record, and that it may just have been created. */
  lemma CloseInFlight(q: Queue, looked: Queue, fd: nat, at: int, c: Connection, repaired: bool)
    requires QueueRuns.Ready(q, at) && fd < |q.index|
    requires looked == GetOrCreate(q, fd, at) && Coherent(looked) && Has(looked, fd)
    requires c.clientFd == fd
    ensures Coherent(Write(looked, fd, c))
    ensures DeleteByFd(Write(looked, fd, c), fd, repaired) == DeleteByFd(q, fd, repaired)
  {
    DeleteForgets(looked, fd, c, repaired);
    if !Has(q, fd) {
      CreatedLast(q, fd, at);
      assert looked.heap[..|q.heap|] == q.heap && q.index[fd := |q.heap|][fd := -1] == q.index;
    }
  }

  // ---------- Promises over a log ----------

  /** A close that answers no report: the connection was evicted. */
  predicate Evicts(before: seq<Call>, call: Call) {
    call.Closed? && Report(before, call.fd) != Some(true)
  }

  /** An eviction comes at least a minute after the client was last re-armed. */
  predicate NotEarly(before: seq<Call>, call: Call) {
    Evicts(before, call) ==>
      var t := LastRearm(before, call.fd);
      t.Some? && call.at - t.value >= KEEP_ALIVE_TIMEOUT
  }

  /** An eviction comes at most 177 seconds after the client was last re-armed. */
  predicate NotLate(before: seq<Call>, call: Call) {
    Evicts(before, call) ==>
      var t := LastRearm(before, call.fd);
      t.Some? && call.at - t.value <= TWO_WAITS
  }

  /** A wait starts only when no connection has expired. */
  ghost predicate Swept(before: seq<Call>, call: Call) {
    call.Waited? ==>
      forall fd | LastRearm(before, fd).Some? :: call.from - LastRearm(before, fd).value < KEEP_ALIVE_TIMEOUT
  }

  /** A wait lasts for the age of the oldest connection. */
  ghost predicate LongEnough(before: seq<Call>, call: Call) {
    call.Waited? ==>
      forall fd | LastRearm(before, fd).Some? :: (call.from - LastRearm(before, fd).value) * 1000 <= call.timeout
  }

  /** The last wait and the check at `now` were prompt. */
  predicate PromptSince(log: seq<Call>, now: int) {
    var w := LastWait(log);
    w.Some? && w.value.Waited? ==> Prompt(w.value.from, w.value.timeout, w.value.woke, now)
  }

  /** The check that a wait or an eviction belongs to came promptly after the last wait. */
  predicate Punctual(before: seq<Call>, call: Call) {
    && (call.Waited? ==> PromptSince(before, call.from))
    && (Evicts(before, call) ==> PromptSince(before, call.at))
  }

  /** No expired record is right below one that has not expired. */
  ghost predicate Surfaced(h: seq<Connection>, now: int) {
    forall i | 0 < i < |h| && Age(h[i], now) >= KEEP_ALIVE_TIMEOUT :: Age(h[Parent(i)], now) >= KEEP_ALIVE_TIMEOUT
  }

  /** Below a root that has not expired nothing has, if nothing expired is hidden. */
  lemma {:induction false} NothingBelowRoot(h: seq<Connection>, now: int, i: nat)
    requires i < |h| && Surfaced(h, now) && Age(h[0], now) < KEEP_ALIVE_TIMEOUT
    ensures Age(h[i], now) < KEEP_ALIVE_TIMEOUT
  {
    if i > 0 {
      NothingBelowRoot(h, now, Parent(i));
    }
  }

  /** When a wait starts, no expired record is hidden in the heap below one that has not expired. */
  ghost function NoneHidden(size: nat, repaired: bool): (seq<Call>, Call) -> bool {
    (before, call: Call) => call.Waited? ==> Surfaced(Replay(before, size, repaired).heap, call.from)
  }

  /** A wait is swept exactly if nothing expired is hidden. */
  ghost function SweptExactly(size: nat, repaired: bool): (seq<Call>, Call) -> bool {
    (before, call) => Swept(before, call) <==> NoneHidden(size, repaired)(before, call)
  }

  lemma NotAWait(before: seq<Call>, call: Call, size: nat, repaired: bool)
    requires !call.Waited?
    ensures Swept(before, call) && LongEnough(before, call) && SweptExactly(size, repaired)(before, call)
  {
    assert NoneHidden(size, repaired)(before, call);
  }

  /** The heap is in order at the check, before every eviction and when the wait starts. */
  ghost function OrderedCheck(size: nat, repaired: bool): (seq<Call>, Call) -> bool {
    (before, call: Call) =>
      call.Waited? || Evicts(before, call) ==> HeapOrdered(Replay(before, size, repaired).heap)
  }

  /** A close that answers a report meets the guard of delete by descriptor. */
  ghost function MeetsGuard(size: nat, repaired: bool): (seq<Call>, Call) -> bool {
    (before, call: Call) =>
      call.Closed? && Report(before, call.fd) == Some(true) ==>
        repaired || Guarded(Replay(before, size, repaired), call.fd)
  }

  ghost predicate Guarded(q: Queue, fd: nat) {
    Coherent(q) && fd < |q.index| && DeleteKeepsOrder(q, fd)
  }

  lemma {:induction false} ReplayIsCoherent(log: seq<Call>, size: nat, repaired: bool)
    ensures var q := Replay(log, size, repaired); Coherent(q) && |q.index| == size
  {
    hide Renewed, DeleteByFd, Contents, HeapOrdered;
    if log != [] {
      var q, call := Replay(log[..|log| - 1], size, repaired), log[|log| - 1];
      ReplayIsCoherent(log[..|log| - 1], size, repaired);
      if call.Rearmed? && QueueRuns.Ready(q, call.at) && call.fd < size {
        RenewedRefines(q, call.fd, call.at);
      } else if call.Closed? && call.fd < size {
        DeleteByFdRefines(q, call.fd, repaired);
      }
    }
  }

  /** The guard is exact: a close that answers a report keeps the heap in order if and only if it meets it. */
  lemma GuardExact(before: seq<Call>, fd: nat, at: int, size: nat, repaired: bool)
    requires fd < size && Report(before, fd) == Some(true) && HeapOrdered(Replay(before, size, repaired).heap)
    ensures HeapOrdered(Replay(before + [Closed(fd, at)], size, repaired).heap)
            <==> MeetsGuard(size, repaired)(before, Closed(fd, at))
  {
    hide Coherent, Renewed, DeleteByFd, DeleteKeepsOrder, HeapOrdered, Report, Replay;
    ReplayIsCoherent(before, size, repaired);
    ReplaySnoc(before, Closed(fd, at), size, repaired);
    DeleteByFdOrder(Replay(before, size, repaired), fd, repaired);
  }

  /** What the lateness bound assumes. */
  ghost predicate Smooth(log: seq<Call>) {
    Always(log, Swept) && Always(log, Punctual)
  }

  /** What every log of the server promises. */
  ghost predicate Promises(log: seq<Call>, size: nat, repaired: bool) {
    && Always(log, NotEarly)
    && Always(log, SweptExactly(size, repaired))
    && (Always(log, OrderedCheck(size, repaired)) ==> Always(log, Swept) && Always(log, LongEnough))
    && (Always(log, MeetsGuard(size, repaired)) ==> Always(log, OrderedCheck(size, repaired)))
    && (Smooth(log) ==> Always(log, NotLate))
  }

  lemma PromisesSnoc(log: seq<Call>, call: Call, size: nat, repaired: bool)
    requires Promises(log, size, repaired)
    requires NotEarly(log, call) && SweptExactly(size, repaired)(log, call)
    requires Always(log, OrderedCheck(size, repaired)) && OrderedCheck(size, repaired)(log, call) ==>
               Swept(log, call) && LongEnough(log, call)
    requires Always(log, MeetsGuard(size, repaired)) ==> OrderedCheck(size, repaired)(log, call)
    requires Smooth(log) && Swept(log, call) && Punctual(log, call) ==> NotLate(log, call)
    ensures Promises(log + [call], size, repaired)
  {
    hide Always, NotEarly, Swept, LongEnough, NotLate, Punctual, SweptExactly, OrderedCheck, MeetsGuard;
    AlwaysSnoc(log, call, NotEarly);
    AlwaysSnoc(log, call, SweptExactly(size, repaired));
    AlwaysSnoc(log, call, OrderedCheck(size, repaired));
    AlwaysSnoc(log, call, Swept);
    AlwaysSnoc(log, call, LongEnough);
    AlwaysSnoc(log, call, MeetsGuard(size, repaired));
    AlwaysSnoc(log, call, Punctual);
    AlwaysSnoc(log, call, NotLate);
  }

  /** A call that is neither a wait nor an eviction promises nothing. */
  lemma PromisesOther(log: seq<Call>, call: Call, size: nat, repaired: bool)
    requires Promises(log, size, repaired) && !call.Waited? && !Evicts(log, call)
    ensures Promises(log + [call], size, repaired)
    ensures Always(log + [call], MeetsGuard(size, repaired))
            <==> Always(log, MeetsGuard(size, repaired)) && MeetsGuard(size, repaired)(log, call)
  {
    hide Promises, Always, Report, MeetsGuard;
    NotAWait(log, call, size, repaired);
    PromisesSnoc(log, call, size, repaired);
    AlwaysSnoc(log, call, MeetsGuard(size, repaired));
  }
}
