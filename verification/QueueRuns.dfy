/** Whole runs of the queue under a clock that never goes back: the index stays coherent and
    the queue behaves as a finite map, even after heap order has been lost. */
module QueueRuns {
  import opened Connections
  import opened HeapModel
  import opened Layouts

  datatype Op =
    | Touch(fd: nat)                  // find the connection, or create it
    | Renew(fd: nat)                  // keep-alive: a fresh record with a new time
    | Store(fd: nat, c: Connection)   // a write by the state machine through its pointer
    | Remove(fd: nat)                 // delete by descriptor
    | Pop                             // delete the root

  datatype Timed = Timed(op: Op, now: int)

  predicate InCapacity(op: Op, size: nat) {
    op.Pop? || op.fd < size
  }

  ghost predicate Ready(q: Queue, now: int) {
    Coherent(q) && NotAfter(q.heap, now)
  }

  /** The state machine never writes the descriptor or the time of a record. */
  function Stored(was: Connection, c: Connection): Connection {
    c.(clientFd := was.clientFd, priorityTime := was.priorityTime)
  }

  /** One operation; `repaired` selects the delete with the shift-up added. */
  function Apply(q: Queue, t: Timed, repaired: bool): Queue
    requires Ready(q, t.now) && InCapacity(t.op, |q.index|)
  {
    match t.op
    case Touch(fd) => GetOrCreate(q, fd, t.now)
    case Renew(fd) => if Has(q, fd) then Update(q, fd, t.now) else q
    case Store(fd, c) => if Has(q, fd) then Write(q, fd, Stored(q.heap[q.index[fd]], c)) else q
    case Remove(fd) => DeleteByFd(q, fd, repaired)
    case Pop => Dequeue(q)
  }

  /** The same operation on the abstract map. An ordered queue pops an entry of minimal time. */
  ghost predicate MapStep(m: map<nat, Connection>, t: Timed, m': map<nat, Connection>, ordered: bool) {
    match t.op
    case Touch(fd) => m' == if fd in m then m else m[fd := FreshConnection(fd, t.now)]
    case Renew(fd) => m' == if fd in m then m[fd := FreshConnection(fd, t.now)] else m
    case Store(fd, c) => m' == if fd in m then m[fd := Stored(m[fd], c)] else m
    case Remove(fd) => m' == m - {fd}
    case Pop =>
      if m == map[] then m' == m
      else exists fd :: && fd in m && m' == m - {fd}
                        && (ordered ==> forall g | g in m :: m[fd].priorityTime <= m[g].priorityTime)
  }

  lemma NotAfterContents(q: Queue, now: int)
    requires Coherent(q)
    ensures NotAfter(q.heap, now) <==> forall fd | fd in Contents(q) :: Contents(q)[fd].priorityTime <= now
  {
    forall i | 0 <= i < |q.heap|
      ensures q.heap[i].clientFd in Contents(q) && Contents(q)[q.heap[i].clientFd] == q.heap[i]
    {
    }
  }

  lemma NonEmptyContents(q: Queue)
    requires Coherent(q)
    ensures Contents(q) == map[] <==> |q.heap| == 0
  {
    if |q.heap| > 0 {
      assert q.heap[0].clientFd in Contents(q);
    }
  }

  lemma PopRefines(q: Queue, t: Timed)
    requires Ready(q, t.now) && t.op.Pop?
    ensures Coherent(Dequeue(q))
    ensures MapStep(Contents(q), t, Contents(Dequeue(q)), false)
    ensures HeapOrdered(q.heap) ==>
              HeapOrdered(Dequeue(q).heap) && MapStep(Contents(q), t, Contents(Dequeue(q)), true)
  {
    NonEmptyContents(q);
    if |q.heap| > 0 {
      var fd := q.heap[0].clientFd;
      DequeueIsDequeueRoot(q);
      DequeueByFdRefines(q, fd);
      assert fd in Contents(q);
      if HeapOrdered(q.heap) {
        DequeueByFdOrder(q, fd);
        forall g | g in Contents(q)
          ensures Contents(q)[fd].priorityTime <= Contents(q)[g].priorityTime
        {
          RootIsMinimal(q.heap, q.index[g]);
        }
      }
    }
  }

  lemma TouchRefines(q: Queue, fd: nat, now: int)
    requires Ready(q, now) && fd < |q.index|
    ensures var r := GetOrCreate(q, fd, now);
            && Coherent(r) && |r.index| == |q.index| && Has(r, fd)
            && Contents(r) == if fd in Contents(q) then Contents(q)
                              else Contents(q)[fd := FreshConnection(fd, now)]
    ensures HeapOrdered(q.heap) ==> HeapOrdered(GetOrCreate(q, fd, now).heap)
  {
    if q.index[fd] == -1 {
      RoomForAbsent(q, fd);
      EnqueueCoherence(q, FreshConnection(fd, now));
      if HeapOrdered(q.heap) {
        EnqueueOrders(q, FreshConnection(fd, now));
      }
    }
  }

  lemma WriteOrders(q: Queue, fd: nat, c: Connection)
    requires Coherent(q) && fd < |q.index| && Has(q, fd) && HeapOrdered(q.heap)
    requires c.priorityTime == q.heap[q.index[fd]].priorityTime
    ensures HeapOrdered(Write(q, fd, c).heap)
  {
    var r := Write(q, fd, c);
    forall j: nat | j < |r.heap| ensures EdgeOk(r.heap, j) {
      assert EdgeOk(q.heap, j);
    }
  }

  lemma ApplyCoherent(q: Queue, t: Timed, repaired: bool)
    requires Ready(q, t.now) && InCapacity(t.op, |q.index|)
    ensures var r := Apply(q, t, repaired);
            && Coherent(r) && |r.index| == |q.index|
            && MapStep(Contents(q), t, Contents(r), false)
  {
    match t.op
    case Touch(fd) =>
      TouchRefines(q, fd, t.now);
    case Renew(fd) =>
      if Has(q, fd) {
        UpdateCoherence(q, fd, t.now);
      }
    case Store(fd, c) =>
      if Has(q, fd) {
        WriteRefines(q, fd, Stored(q.heap[q.index[fd]], c));
      }
    case Remove(fd) =>
      DeleteByFdRefines(q, fd, repaired);
    case Pop =>
      PopRefines(q, t);
  }

  /** A step of the map puts no time into the future. */
  lemma StepNotAfter(m: map<nat, Connection>, t: Timed, m': map<nat, Connection>)
    requires MapStep(m, t, m', false) && forall fd | fd in m :: m[fd].priorityTime <= t.now
    ensures forall fd | fd in m' :: m'[fd].priorityTime <= t.now
  {
  }

  /** Every operation keeps the index coherent and refines the map operation. */
  lemma ApplyRefines(q: Queue, t: Timed, repaired: bool)
    requires Ready(q, t.now) && InCapacity(t.op, |q.index|)
    ensures var r := Apply(q, t, repaired);
            && Ready(r, t.now) && |r.index| == |q.index|
            && MapStep(Contents(q), t, Contents(r), false)
  {
    hide Apply, Coherent, Contents, NotAfter, MapStep;
    ApplyCoherent(q, t, repaired);
    NotAfterContents(q, t.now);
    StepNotAfter(Contents(q), t, Contents(Apply(q, t, repaired)));
    NotAfterContents(Apply(q, t, repaired), t.now);
  }

  /** The guard under which delete by descriptor, as written, keeps heap order. */
  predicate OrderGuard(q: Queue, op: Op)
    requires Coherent(q) && InCapacity(op, |q.index|)
  {
    op.Remove? ==> DeleteKeepsOrder(q, op.fd)
  }

  /** From a valid heap, an operation keeps heap order if and only if it meets the guard;
      with the repaired delete it always does. */
  lemma ApplyOrdered(q: Queue, t: Timed, repaired: bool)
    requires Ready(q, t.now) && InCapacity(t.op, |q.index|) && HeapOrdered(q.heap)
    ensures var r := Apply(q, t, repaired);
            && (HeapOrdered(r.heap) <==> repaired || OrderGuard(q, t.op))
            && Coherent(r) && MapStep(Contents(q), t, Contents(r), true)
  {
    ApplyRefines(q, t, repaired);
    match t.op
    case Touch(fd) =>
      TouchRefines(q, fd, t.now);
    case Renew(fd) =>
      if Has(q, fd) {
        UpdateOrders(q, fd, t.now);
      }
    case Store(fd, c) =>
      if Has(q, fd) {
        WriteOrders(q, fd, Stored(q.heap[q.index[fd]], c));
      }
    case Remove(fd) =>
      DeleteByFdOrder(q, fd, repaired);
    case Pop =>
      PopRefines(q, t);
  }

  // ---------- Runs ----------

  ghost predicate LegalRun(ops: seq<Timed>, start: int, size: nat)
  {
    && (forall i | 0 <= i < |ops| :: start <= ops[i].now && InCapacity(ops[i].op, size))
    && (forall i, j | 0 <= i < j < |ops| :: ops[i].now <= ops[j].now)
  }

  ghost function Run(q: Queue, start: int, ops: seq<Timed>, repaired: bool): Queue
    requires Ready(q, start) && LegalRun(ops, start, |q.index|)
    decreases ops
  {
    if ops == [] then q
    else
      ApplyRefines(q, ops[0], repaired);
      Run(Apply(q, ops[0], repaired), ops[0].now, ops[1..], repaired)
  }

  ghost predicate MapRun(m: map<nat, Connection>, ops: seq<Timed>, m': map<nat, Connection>, ordered: bool)
    decreases ops
  {
    if ops == [] then m' == m
    else exists mid :: MapStep(m, ops[0], mid, ordered) && MapRun(mid, ops[1..], m', ordered)
  }

  function EndTime(start: int, ops: seq<Timed>): int {
    if ops == [] then start else ops[|ops| - 1].now
  }

  /** Whole-run coherence and refinement, for the code as written (or repaired). */
  lemma {:induction false} RunRefinesMap(q: Queue, start: int, ops: seq<Timed>, repaired: bool)
    requires Ready(q, start) && LegalRun(ops, start, |q.index|)
    ensures Ready(Run(q, start, ops, repaired), EndTime(start, ops))
    ensures MapRun(Contents(q), ops, Contents(Run(q, start, ops, repaired)), false)
    decreases ops
  {
    if ops != [] {
      ApplyRefines(q, ops[0], repaired);
      var r := Apply(q, ops[0], repaired);
      RunRefinesMap(r, ops[0].now, ops[1..], repaired);
      assert EndTime(start, ops) == EndTime(ops[0].now, ops[1..]);
    }
  }

  ghost predicate GuardedRun(q: Queue, start: int, ops: seq<Timed>, repaired: bool)
    requires Ready(q, start) && LegalRun(ops, start, |q.index|)
    decreases ops
  {
    ops == [] ||
    (&& (repaired || OrderGuard(q, ops[0].op))
     && (ApplyRefines(q, ops[0], repaired);
         GuardedRun(Apply(q, ops[0], repaired), ops[0].now, ops[1..], repaired)))
  }

  lemma {:induction false} RepairedRunIsGuarded(q: Queue, start: int, ops: seq<Timed>)
    requires Ready(q, start) && LegalRun(ops, start, |q.index|)
    ensures GuardedRun(q, start, ops, true)
    decreases ops
  {
    if ops != [] {
      ApplyRefines(q, ops[0], true);
      RepairedRunIsGuarded(Apply(q, ops[0], true), ops[0].now, ops[1..]);
    }
  }

  /** With the repaired delete heap order survives every run, and every pop is minimal. */
  lemma RepairedRunOrdered(q: Queue, start: int, ops: seq<Timed>)
    requires Ready(q, start) && LegalRun(ops, start, |q.index|) && HeapOrdered(q.heap)
    ensures var r := Run(q, start, ops, true);
            HeapOrdered(r.heap) && Coherent(r) && MapRun(Contents(q), ops, Contents(r), true)
  {
    RepairedRunIsGuarded(q, start, ops);
    GuardedRunOrdered(q, start, ops, true);
  }

  /** Heap order survives every run that meets the guard (with the repaired delete: every run),
      and then every pop takes an entry of minimal time. */
  lemma {:induction false} GuardedRunOrdered(q: Queue, start: int, ops: seq<Timed>, repaired: bool)
    requires Ready(q, start) && LegalRun(ops, start, |q.index|) && HeapOrdered(q.heap)
    requires GuardedRun(q, start, ops, repaired)
    ensures var r := Run(q, start, ops, repaired);
            HeapOrdered(r.heap) && Coherent(r) && MapRun(Contents(q), ops, Contents(r), true)
    decreases ops
  {
    if ops != [] {
      ApplyRefines(q, ops[0], repaired);
      ApplyOrdered(q, ops[0], repaired);
      GuardedRunOrdered(Apply(q, ops[0], repaired), ops[0].now, ops[1..], repaired);
    }
  }

  // ---------- Heap order can be lost under a nondecreasing clock ----------

  lemma LegalFront(ops: seq<Timed>, t: Timed, start: int, size: nat)
    requires LegalRun(ops + [t], start, size)
    ensures LegalRun(ops, start, size) && InCapacity(t.op, size) && EndTime(start, ops) <= t.now
  {
    var all := ops + [t];
    assert all[|ops|] == t;
    assert forall i | 0 <= i < |ops| :: all[i] == ops[i];
  }

  /** A run followed by one more operation. */
  lemma {:induction false} RunSnoc(q: Queue, start: int, ops: seq<Timed>, t: Timed, repaired: bool)
    requires Ready(q, start) && LegalRun(ops + [t], start, |q.index|)
    ensures LegalRun(ops, start, |q.index|)
    ensures var r := Run(q, start, ops, repaired);
            && Ready(r, t.now) && |r.index| == |q.index| && InCapacity(t.op, |r.index|)
            && Run(q, start, ops + [t], repaired) == Apply(r, t, repaired)
    decreases |ops|
  {
    LegalFront(ops, t, start, |q.index|);
    if ops == [] {
      assert ([] + [t])[0] == t;
    } else {
      ApplyRefines(q, ops[0], repaired);
      assert (ops + [t])[0] == ops[0] && (ops + [t])[1..] == ops[1..] + [t];
      RunSnoc(Apply(q, ops[0], repaired), ops[0].now, ops[1..], t, repaired);
    }
  }

  /** `q` is what a run as written makes of the empty queue by time `now`. */
  ghost predicate Reached(q: Queue, now: int) {
    exists ops :: LegalRun(ops, 0, |q.index|) && EndTime(0, ops) <= now
                  && Run(Empty(|q.index|), 0, ops, false) == q
  }

  /** The empty queue. */
  function Empty(size: nat): (q: Queue)
    ensures Coherent(q)
  {
    Queue([], seq(size, _ => -1))
  }

  lemma ReachedStep(q: Queue, before: int, t: Timed)
    requires Reached(q, before) && before <= t.now && InCapacity(t.op, |q.index|)
    ensures Ready(q, t.now)
    ensures var r := Apply(q, t, false); |r.index| == |q.index| && Reached(r, t.now)
  {
    var size := |q.index|;
    var ops :| LegalRun(ops, 0, size) && EndTime(0, ops) <= before && Run(Empty(size), 0, ops, false) == q;
    assert LegalRun(ops + [t], 0, size) by {
      StartsAtZero(ops, 0, size);
    }
    RunSnoc(Empty(size), 0, ops, t, false);
    ApplyRefines(q, t, false);
    assert EndTime(0, ops + [t]) == t.now;
  }

  lemma StartsAtZero(ops: seq<Timed>, start: int, size: nat)
    requires LegalRun(ops, start, size)
    ensures start <= EndTime(start, ops)
    ensures forall i | 0 <= i < |ops| :: ops[i].now <= EndTime(start, ops)
  {
  }

  /** A client arrives behind all others. */
  lemma Arrive(q: Queue, entries: seq<Entry>, before: int, fd: nat, now: int) returns (r: Queue)
    requires Reached(q, before) && before <= now && LaidOut(q, entries) && fd < |q.index|
    requires forall i | 0 <= i < |entries| :: entries[i].fd != fd && entries[i].time <= now
    ensures |r.index| == |q.index| && Reached(r, now) && LaidOut(r, entries + [Entry(fd, now)])
  {
    hide Reached, GetOrCreate;
    ReachedStep(q, before, Timed(Touch(fd), now));
    ArrivedIs(q, entries, fd, now);
    r := GetOrCreate(q, fd, now);
    assert Apply(q, Timed(Touch(fd), now), false) == r;
  }

  /** The client at a place in the heap is renewed. */
  lemma RenewAt(q: Queue, entries: seq<Entry>, before: int, i: nat, now: int) returns (r: Queue)
    requires Reached(q, before) && before <= now && LaidOut(q, entries)
    requires i < |entries| && entries[i].time <= now
    ensures |r.index| == |q.index| && Reached(r, now)
    ensures LaidOut(r, Sift(entries[i := Entry(entries[i].fd, now)], i))
  {
    hide Reached, Update, Sift;
    RenewedIs(q, entries, i, now);
    ReachedStep(q, before, Timed(Renew(entries[i].fd), now));
    r := Update(q, entries[i].fd, now);
    assert Apply(q, Timed(Renew(entries[i].fd), now), false) == r;
  }

  /** Clients 1 to n, each arriving at the time of its number. */
  lemma {:induction false} Arrivals(size: nat, n: nat) returns (q: Queue)
    requires size >= 7 && n <= 6
    ensures |q.index| == size && Reached(q, n) && LaidOut(q, CountTo(n))
  {
    hide LaidOut, Reached;
    if n == 0 {
      q := EmptyIsLaidOut(size);
    } else {
      q := Arrivals(size, n - 1);
      q := Arrive(q, CountTo(n - 1), n - 1, n, n);
      assert CountTo(n) == CountTo(n - 1) + [Entry(n, n)];
    }
  }

  function CountTo(n: nat): seq<Entry> {
    seq(n, (i: nat) => Entry(i + 1, i + 1))
  }

  lemma EmptyIsLaidOut(size: nat) returns (q: Queue)
    ensures |q.index| == size && Reached(q, 0) && LaidOut(q, CountTo(0))
  {
    q := Empty(size);
    assert Run(q, 0, [], false) == q && LegalRun([], 0, size) && EndTime(0, []) <= 0;
  }

  /** The heap after three renewals. */
  const LATE_UNDER: seq<Entry> := [Entry(1, 1), Entry(2, 7), Entry(3, 3), Entry(5, 9), Entry(4, 8), Entry(6, 6)]

  /** Six arrivals at times 1 to 6, then renewals of 2, 4 and 5 at times 7, 8 and 9. */
  lemma RenewedQueue(size: nat) returns (q: Queue)
    requires size >= 7
    ensures |q.index| == size && Reached(q, 9) && LaidOut(q, LATE_UNDER)
  {
    hide LaidOut, Reached;
    q := Arrivals(size, 6);
    var a := [Entry(1, 1), Entry(4, 4), Entry(3, 3), Entry(2, 7), Entry(5, 5), Entry(6, 6)];
    var b := [Entry(1, 1), Entry(5, 5), Entry(3, 3), Entry(2, 7), Entry(4, 8), Entry(6, 6)];
    SinkTo(CountTo(6), 1, Entry(2, 7), 3, a);
    q := RenewAt(q, CountTo(6), 6, 1, 7);
    SinkTo(a, 1, Entry(4, 8), 4, b);
    q := RenewAt(q, a, 7, 1, 8);
    SinkTo(b, 1, Entry(5, 9), 3, LATE_UNDER);
    q := RenewAt(q, b, 8, 1, 9);
  }

  /** An entry that sinks by one level. */
  lemma SinkTo(entries: seq<Entry>, i: nat, e: Entry, s: nat, r: seq<Entry>)
    requires i < s < |entries| && Smallest(entries[i := e], i) == s && |entries| <= 2 * s + 1
    requires r == entries[i := entries[s]][s := e]
    ensures Sift(entries[i := e], i) == r
  {
    assert entries[i := e][i := entries[s]][s := e] == r;
    assert Smallest(r, s) == s;
  }

  lemma FinalOrder(q: Queue)
    requires LaidOut(q, LATE_UNDER)
    ensures HeapOrdered(q.heap)
  {
    forall i: nat | i < 6 ensures EdgeOk(q.heap, i) {
      assert i == 0 || i == 1 || i == 2 || i == 3 || i == 4 || i == 5;
      assert Parent(1) == 0 && Parent(2) == 0 && Parent(3) == 1 && Parent(4) == 1 && Parent(5) == 2;
    }
  }

  /** From the empty queue of any size above 6, under a clock that never goes back: closing descriptor
      5 at time 10 puts time 6 under time 7. The repaired delete does not. */
  lemma WrittenRemoveLosesOrder(size: nat) returns (q: Queue)
    requires size >= 7
    ensures |q.index| == size && Reached(q, 9) && Ready(q, 10) && HeapOrdered(q.heap)
    ensures InCapacity(Remove(5), |q.index|)
    ensures !HeapOrdered(Apply(q, Timed(Remove(5), 10), false).heap)
    ensures HeapOrdered(Apply(q, Timed(Remove(5), 10), true).heap)
  {
    q := RenewedQueue(size);
    ReachedStep(q, 9, Timed(Remove(5), 10));
    FinalOrder(q);
    SlotOf(q, LATE_UNDER, 3);
    DeleteByFdOrder(q, 5, false);
    DeleteByFdOrder(q, 5, true);
  }
}
