/** The indexed priority queue on values: what each operation of the queue does to the
    live heap prefix and to the descriptor index, and what those results mean.
    The class in QueueConnections is proved equal to these functions. */
module HeapModel {
  import opened Connections

  /** `heap` is the live prefix of the heap array, `index[fd]` the slot recorded for `fd`. */
  datatype Queue = Queue(heap: seq<Connection>, index: seq<int>)

  function Parent(i: int): int
    requires i > 0
  {
    (i - 1) / 2
  }

  // ---------- Invariants ----------

  predicate EdgeOk(h: seq<Connection>, i: nat)
    requires i < |h|
  {
    i > 0 ==> h[Parent(i)].priorityTime <= h[i].priorityTime
  }

  ghost predicate HeapOrdered(h: seq<Connection>) {
    forall i: nat | i < |h| :: EdgeOk(h, i)
  }

  ghost predicate InRange(q: Queue) {
    forall i | 0 <= i < |q.heap| :: q.heap[i].clientFd < |q.index|
  }

  /** The index is exactly the inverse of heap position, and -1 elsewhere. */
  ghost predicate Coherent(q: Queue) {
    && InRange(q)
    && (forall i | 0 <= i < |q.heap| :: q.index[q.heap[i].clientFd] == i)
    && (forall fd | 0 <= fd < |q.index| && q.index[fd] != -1 ::
          0 <= q.index[fd] < |q.heap| && q.heap[q.index[fd]].clientFd == fd)
  }

  ghost predicate NotAfter(h: seq<Connection>, now: int) {
    forall i | 0 <= i < |h| :: h[i].priorityTime <= now
  }

  /** The abstract value of a coherent queue: a finite map from descriptors to connections. */
  ghost function Contents(q: Queue): map<nat, Connection>
    requires Coherent(q)
  {
    map fd: nat | fd < |q.index| && q.index[fd] != -1 :: q.heap[q.index[fd]]
  }

  predicate Has(q: Queue, fd: nat)
    requires fd < |q.index|
  {
    q.index[fd] != -1
  }

  // ---------- Operations ----------

  function SmallestChild(h: seq<Connection>, i: nat): (s: nat)
    requires i < |h|
    ensures s == i || (s > 0 && Parent(s) == i && s < |h|)
  {
    var left, right := 2 * i + 1, 2 * i + 2;
    var s := if left < |h| && h[left].priorityTime < h[i].priorityTime then left else i;
    if right < |h| && h[right].priorityTime < h[s].priorityTime then right else s
  }

  function Swap(q: Queue, i: nat, j: nat): Queue
    requires InRange(q) && i < |q.heap| && j < |q.heap|
  {
    Queue(q.heap[i := q.heap[j]][j := q.heap[i]],
          q.index[q.heap[j].clientFd := i][q.heap[i].clientFd := j])
  }

  function Heapify(q: Queue, i: nat): (r: Queue)
    requires InRange(q) && i < |q.heap|
    ensures InRange(r) && |r.heap| == |q.heap| && |r.index| == |q.index|
    decreases |q.heap| - i
  {
    var s := SmallestChild(q.heap, i);
    if s == i then q else Heapify(Swap(q, i, s), s)
  }

  /** The slots through which heapify takes the record at `i`. */
  function HeapifyPath(q: Queue, i: nat): (path: seq<nat>)
    requires InRange(q) && i < |q.heap|
    ensures path != [] && path[0] == i && forall k | 0 <= k < |path| :: path[k] < |q.heap|
    decreases |q.heap| - i
  {
    var s := SmallestChild(q.heap, i);
    if s == i then [i] else [i] + HeapifyPath(Swap(q, i, s), s)
  }

  /** The shift-up loop: it moves records only, never the index. */
  function ShiftUp(h: seq<Connection>, i: nat): (r: seq<Connection>)
    requires i < |h|
    ensures |r| == |h|
    decreases i
  {
    if i == 0 || h[Parent(i)].priorityTime <= h[i].priorityTime then h
    else ShiftUp(h[i := h[Parent(i)]][Parent(i) := h[i]], Parent(i))
  }

  /** The slot at which the shift-up loop stops. */
  function ShiftUpStop(h: seq<Connection>, i: nat): (stop: nat)
    requires i < |h|
    ensures stop <= i
    decreases i
  {
    if i == 0 || h[Parent(i)].priorityTime <= h[i].priorityTime then i
    else ShiftUpStop(h[i := h[Parent(i)]][Parent(i) := h[i]], Parent(i))
  }

  function Enqueue(q: Queue, c: Connection): Queue
    requires c.clientFd < |q.index|
  {
    if |q.heap| == |q.index| then q
    else
      var h := q.heap + [c];
      Queue(ShiftUp(h, |q.heap|), q.index[c.clientFd := ShiftUpStop(h, |q.heap|)])
  }

  function GetOrCreate(q: Queue, fd: nat, now: int): Queue
    requires fd < |q.index|
  {
    if q.index[fd] == -1 then Enqueue(q, FreshConnection(fd, now)) else q
  }

  function Update(q: Queue, fd: nat, now: int): Queue
    requires InRange(q) && fd < |q.index| && 0 <= q.index[fd] < |q.heap|
    requires q.heap[q.index[fd]].clientFd == fd
  {
    var i := q.index[fd];
    var h := q.heap[i := FreshConnection(fd, now)];
    if now < q.heap[i].priorityTime then
      Queue(ShiftUp(h, i), q.index[fd := ShiftUpStop(h, i)])
    else
      Heapify(Queue(h, q.index), i)
  }

  /** Writing through the pointer that the event loop holds into the heap. */
  function Write(q: Queue, fd: nat, c: Connection): Queue
    requires fd < |q.index| && 0 <= q.index[fd] < |q.heap|
  {
    Queue(q.heap[q.index[fd] := c], q.index)
  }

  /** The last record moved into the slot of `fd`, with both index entries rewritten. */
  function MoveLast(q: Queue, fd: nat): Queue
    requires Coherent(q) && fd < |q.index| && q.index[fd] != -1
    requires q.heap[|q.heap| - 1].clientFd != fd
  {
    var i, n := q.index[fd], |q.heap| - 1;
    Queue(q.heap[..n][i := q.heap[n]], q.index[fd := -1][q.heap[n].clientFd := i])
  }

  function DropLast(q: Queue, fd: nat): Queue
    requires |q.heap| > 0 && fd < |q.index|
  {
    Queue(q.heap[..|q.heap| - 1], q.index[fd := -1])
  }

  function DequeueByFd(q: Queue, fd: nat): Queue
    requires Coherent(q) && fd < |q.index|
  {
    if |q.heap| == 0 || q.index[fd] == -1 then q
    else if q.heap[|q.heap| - 1].clientFd == fd then
      DropLast(q, fd)
    else
      Heapify(MoveLast(q, fd), q.index[fd])
  }

  function Dequeue(q: Queue): Queue
    requires Coherent(q)
  {
    if |q.heap| == 0 then q
    else
      var n := |q.heap| - 1;
      var fdFirst, fdLast := q.heap[0].clientFd, q.heap[n].clientFd;
      if fdFirst == fdLast then DropLast(q, fdFirst)
      else Heapify(Queue(q.heap[..n][0 := q.heap[n]], q.index[fdFirst := -1][fdLast := 0]), 0)
  }

  /** Shift-up that also keeps the index, as heapify does on the way down. */
  function ShiftUpIndexed(q: Queue, i: nat): (r: Queue)
    requires InRange(q) && i < |q.heap|
    ensures InRange(r) && |r.heap| == |q.heap| && |r.index| == |q.index|
    decreases i
  {
    if i == 0 || q.heap[Parent(i)].priorityTime <= q.heap[i].priorityTime then q
    else ShiftUpIndexed(Swap(q, i, Parent(i)), Parent(i))
  }

  /** Delete by descriptor with the missing shift-up added. */
  function DequeueByFdRepaired(q: Queue, fd: nat): Queue
    requires Coherent(q) && fd < |q.index|
  {
    if |q.heap| == 0 || q.index[fd] == -1 then q
    else if q.heap[|q.heap| - 1].clientFd == fd then
      DropLast(q, fd)
    else
      var moved, i := MoveLast(q, fd), q.index[fd];
      if EdgeOk(moved.heap, i) then Heapify(moved, i) else ShiftUpIndexed(moved, i)
  }

  /** Delete by descriptor, as written or with the shift-up added. */
  function DeleteByFd(q: Queue, fd: nat, repaired: bool): Queue
    requires Coherent(q) && fd < |q.index|
  {
    if repaired then DequeueByFdRepaired(q, fd) else DequeueByFd(q, fd)
  }

  /** The guard of delete by descriptor: the slot is the root or the last one, or the last record is
      not below the parent of the slot. */
  predicate DeleteKeepsOrder(q: Queue, fd: nat)
    requires Coherent(q) && fd < |q.index|
  {
    Has(q, fd) ==>
      var i, n := q.index[fd], |q.heap| - 1;
      i == 0 || i == n || q.heap[Parent(i)].priorityTime <= q.heap[n].priorityTime
  }

  // ---------- Coherence and contents ----------

  /** Two coherent queues with the same entries have the same contents. */
  lemma SameContents(q: Queue, m: map<nat, Connection>)
    requires Coherent(q)
    requires forall fd: nat :: fd in m <==> fd < |q.index| && q.index[fd] != -1
    requires forall fd | fd in m :: q.heap[q.index[fd]] == m[fd]
    ensures Contents(q) == m
  {
  }

  lemma SwapCoherent(q: Queue, i: nat, j: nat)
    requires Coherent(q) && i < |q.heap| && j < |q.heap|
    ensures Coherent(Swap(q, i, j))
  {
  }

  lemma SwapKeeps(q: Queue, i: nat, j: nat)
    requires Coherent(q) && i < |q.heap| && j < |q.heap|
    ensures Coherent(Swap(q, i, j))
    ensures Contents(Swap(q, i, j)) == Contents(q)
  {
    SwapCoherent(q, i, j);
    SameContents(Swap(q, i, j), Contents(q));
  }

  lemma {:induction false} HeapifyKeeps(q: Queue, i: nat)
    requires Coherent(q) && i < |q.heap|
    ensures Coherent(Heapify(q, i))
    ensures Contents(Heapify(q, i)) == Contents(q)
    decreases |q.heap| - i
  {
    var s := SmallestChild(q.heap, i);
    if s != i {
      SwapKeeps(q, i, s);
      HeapifyKeeps(Swap(q, i, s), s);
    }
  }

  lemma {:induction false} ShiftUpIndexedKeeps(q: Queue, i: nat)
    requires Coherent(q) && i < |q.heap|
    ensures Coherent(ShiftUpIndexed(q, i))
    ensures Contents(ShiftUpIndexed(q, i)) == Contents(q)
    decreases i
  {
    if i > 0 && q.heap[i].priorityTime < q.heap[Parent(i)].priorityTime {
      SwapKeeps(q, i, Parent(i));
      ShiftUpIndexedKeeps(Swap(q, i, Parent(i)), Parent(i));
    }
  }

  lemma MoveLastCoherent(q: Queue, fd: nat)
    requires Coherent(q) && fd < |q.index| && q.index[fd] != -1
    requires q.heap[|q.heap| - 1].clientFd != fd
    ensures q.index[fd] < |q.heap| - 1
    ensures Coherent(MoveLast(q, fd))
  {
  }

  lemma MoveLastRefines(q: Queue, fd: nat)
    requires Coherent(q) && fd < |q.index| && q.index[fd] != -1
    requires q.heap[|q.heap| - 1].clientFd != fd
    ensures q.index[fd] < |q.heap| - 1
    ensures Coherent(MoveLast(q, fd)) && Contents(MoveLast(q, fd)) == Contents(q) - {fd}
  {
    MoveLastCoherent(q, fd);
    SameContents(MoveLast(q, fd), Contents(q) - {fd});
  }

  lemma DropLastRefines(q: Queue, fd: nat)
    requires Coherent(q) && fd < |q.index| && q.index[fd] != -1
    requires q.heap[|q.heap| - 1].clientFd == fd
    ensures Coherent(DropLast(q, fd)) && Contents(DropLast(q, fd)) == Contents(q) - {fd}
  {
    assert Coherent(DropLast(q, fd));
    SameContents(DropLast(q, fd), Contents(q) - {fd});
  }

  /** Deleting by descriptor removes that descriptor and nothing else, whatever the heap order. */
  lemma DequeueByFdRefines(q: Queue, fd: nat)
    requires Coherent(q) && fd < |q.index|
    ensures Coherent(DequeueByFd(q, fd))
    ensures Contents(DequeueByFd(q, fd)) == Contents(q) - {fd}
  {
    if |q.heap| == 0 || q.index[fd] == -1 {
    } else if q.heap[|q.heap| - 1].clientFd == fd {
      DropLastRefines(q, fd);
    } else {
      MoveLastRefines(q, fd);
      HeapifyKeeps(MoveLast(q, fd), q.index[fd]);
    }
  }

  lemma DequeueByFdRepairedRefines(q: Queue, fd: nat)
    requires Coherent(q) && fd < |q.index|
    ensures Coherent(DequeueByFdRepaired(q, fd))
    ensures Contents(DequeueByFdRepaired(q, fd)) == Contents(q) - {fd}
  {
    if |q.heap| == 0 || q.index[fd] == -1 {
    } else if q.heap[|q.heap| - 1].clientFd == fd {
      DropLastRefines(q, fd);
    } else {
      MoveLastRefines(q, fd);
      HeapifyKeeps(MoveLast(q, fd), q.index[fd]);
      ShiftUpIndexedKeeps(MoveLast(q, fd), q.index[fd]);
    }
  }

  /** Popping is deleting the root by its descriptor. */
  lemma DequeueIsDequeueRoot(q: Queue)
    requires Coherent(q) && |q.heap| > 0
    ensures Dequeue(q) == DequeueByFd(q, q.heap[0].clientFd)
  {
  }

  // ---------- Room ----------

  function Descriptors(h: seq<Connection>): set<nat> {
    set i | 0 <= i < |h| :: h[i].clientFd
  }

  lemma {:induction false} DistinctDescriptors(h: seq<Connection>)
    requires forall i, j | 0 <= i < j < |h| :: h[i].clientFd != h[j].clientFd
    ensures |Descriptors(h)| == |h|
  {
    if |h| > 0 {
      var rest := h[..|h| - 1];
      DistinctDescriptors(rest);
      assert Descriptors(h) == Descriptors(rest) + {h[|h| - 1].clientFd};
      assert h[|h| - 1].clientFd !in Descriptors(rest);
    }
  }

  function Below(n: nat): (r: set<nat>)
    ensures |r| == n && forall x: nat :: x in r <==> x < n
  {
    if n == 0 then {} else Below(n - 1) + {n - 1}
  }

  lemma SubsetSize<T>(a: set<T>, b: set<T>)
    requires a <= b
    ensures |a| <= |b|
  {
    assert b == a + (b - a);
  }

  /** A coherent queue always has room for a descriptor it does not hold. */
  lemma RoomForAbsent(q: Queue, fd: nat)
    requires Coherent(q) && fd < |q.index| && q.index[fd] == -1
    ensures |q.heap| < |q.index|
  {
    DistinctDescriptors(q.heap);
    SubsetSize(Descriptors(q.heap), Below(|q.index|) - {fd});
  }

  // ---------- Heap order ----------

  /** Peek returns an entry of minimal time. */
  lemma {:induction false} RootIsMinimal(h: seq<Connection>, i: nat)
    requires HeapOrdered(h) && i < |h|
    ensures h[0].priorityTime <= h[i].priorityTime
  {
    if i > 0 {
      assert EdgeOk(h, i);
      RootIsMinimal(h, Parent(i));
    }
  }

  /** Valid everywhere except below `i`, whose parent exceeds neither it nor its children. */
  ghost predicate OrderedExceptBelow(h: seq<Connection>, i: nat)
    requires i < |h|
  {
    && (forall j: nat | j < |h| && (j > 0 ==> Parent(j) != i) :: EdgeOk(h, j))
    && (i > 0 ==> forall j: nat | 0 < j < |h| && Parent(j) == i ::
          h[Parent(i)].priorityTime <= h[j].priorityTime)
  }

  /** Valid everywhere except for the edge above `i`, across which grandparents fit. */
  ghost predicate OrderedExceptAbove(h: seq<Connection>, i: nat)
    requires i < |h|
  {
    && (forall j: nat | j < |h| && j != i :: EdgeOk(h, j))
    && (i > 0 ==> forall j: nat | 0 < j < |h| && Parent(j) == i ::
          h[Parent(i)].priorityTime <= h[j].priorityTime)
  }

  lemma NoSmallerChild(h: seq<Connection>, i: nat)
    requires i < |h| && OrderedExceptBelow(h, i) && SmallestChild(h, i) == i
    ensures HeapOrdered(h)
  {
    forall j: nat | j < |h| ensures EdgeOk(h, j) {
      if j > 0 && Parent(j) == i {
        assert j == 2 * i + 1 || j == 2 * i + 2;
      }
    }
  }

  lemma SwapDownOrder(h: seq<Connection>, i: nat)
    requires i < |h| && OrderedExceptBelow(h, i) && SmallestChild(h, i) != i
    ensures var s := SmallestChild(h, i);
            OrderedExceptBelow(h[i := h[s]][s := h[i]], s)
  {
    var s := SmallestChild(h, i);
    var r := h[i := h[s]][s := h[i]];
    forall j: nat | j < |h| && (j > 0 ==> Parent(j) != s) ensures EdgeOk(r, j) {
      if j > 0 && Parent(j) == i {
        assert j == 2 * i + 1 || j == 2 * i + 2;
      } else if j > 0 && j != i {
        assert EdgeOk(h, j);
      }
    }
    forall j: nat | 0 < j < |h| && Parent(j) == s
      ensures r[Parent(s)].priorityTime <= r[j].priorityTime
    {
      assert EdgeOk(h, j);
    }
  }

  /** heapify restores heap order. */
  lemma {:induction false} HeapifyOrders(q: Queue, i: nat)
    requires InRange(q) && i < |q.heap| && OrderedExceptBelow(q.heap, i)
    ensures HeapOrdered(Heapify(q, i).heap)
    decreases |q.heap| - i
  {
    var s := SmallestChild(q.heap, i);
    if s == i {
      NoSmallerChild(q.heap, i);
    } else {
      SwapDownOrder(q.heap, i);
      HeapifyOrders(Swap(q, i, s), s);
    }
  }

  /** `a` is `j` or an ancestor of `j`. */
  predicate Ancestor(a: nat, j: nat) {
    a == j || (j > 0 && Ancestor(a, Parent(j)))
  }

  lemma {:induction false} AncestorStep(a: nat, s: nat, j: nat)
    requires s > 0 && Parent(s) == a && Ancestor(s, j)
    ensures Ancestor(a, j)
    decreases j
  {
    if s != j {
      AncestorStep(a, s, Parent(j));
    }
  }

  /** heapify permutes only the subtree below its argument. */
  lemma {:induction false} HeapifyTouchesSubtree(q: Queue, i: nat, j: nat)
    requires InRange(q) && i < |q.heap| && j < |q.heap| && !Ancestor(i, j)
    ensures Heapify(q, i).heap[j] == q.heap[j]
    decreases |q.heap| - i
  {
    var s := SmallestChild(q.heap, i);
    if s != i {
      if Ancestor(s, j) {
        AncestorStep(i, s, j);
      }
      HeapifyTouchesSubtree(Swap(q, i, s), s, j);
    }
  }

  lemma SwapPermutes(h: seq<Connection>, i: nat, j: nat)
    requires i < |h| && j < |h|
    ensures multiset(h[i := h[j]][j := h[i]]) == multiset(h)
  {
  }

  lemma {:induction false} HeapifyPermutes(q: Queue, i: nat)
    requires InRange(q) && i < |q.heap|
    ensures multiset(Heapify(q, i).heap) == multiset(q.heap)
    decreases |q.heap| - i
  {
    var s := SmallestChild(q.heap, i);
    if s != i {
      SwapPermutes(q.heap, i, s);
      HeapifyPermutes(Swap(q, i, s), s);
    }
  }

  function Pow2(k: nat): (p: nat)
    ensures p > 0
  {
    if k == 0 then 1 else 2 * Pow2(k - 1)
  }

  lemma Doubling(a: nat, b: nat, p: nat, n: nat)
    requires 2 * a <= b && b * p <= n
    ensures a * (2 * p) <= n
  {
    assert a * (2 * p) == (2 * a) * p;
    assert b * p == (2 * a) * p + (b - 2 * a) * p;
  }

  /** One swap for every step of a path. */
  function SwapAlong(q: Queue, path: seq<nat>): Queue
    requires InRange(q) && forall k | 0 <= k < |path| :: path[k] < |q.heap|
    decreases |path|
  {
    if |path| < 2 then q else SwapAlong(Swap(q, path[0], path[1]), path[1..])
  }

  /** Heapify does nothing but swaps, and their number is logarithmic in the size of the heap. */
  lemma {:induction false} HeapifySwapBound(q: Queue, i: nat)
    requires InRange(q) && i < |q.heap|
    ensures var path := HeapifyPath(q, i);
            Heapify(q, i) == SwapAlong(q, path) && (i + 1) * Pow2(|path| - 1) <= |q.heap|
    decreases |q.heap| - i
  {
    var s := SmallestChild(q.heap, i);
    if s != i {
      var rest := HeapifyPath(Swap(q, i, s), s);
      assert HeapifyPath(q, i)[1..] == rest;
      HeapifySwapBound(Swap(q, i, s), s);
      Doubling(i + 1, s + 1, Pow2(|rest| - 1), |q.heap|);
    }
  }

  // ---------- Shift-up ----------

  lemma SwapUpOrder(h: seq<Connection>, i: nat)
    requires i < |h| && OrderedExceptAbove(h, i) && !EdgeOk(h, i)
    ensures OrderedExceptAbove(h[i := h[Parent(i)]][Parent(i) := h[i]], Parent(i))
  {
    var p := Parent(i);
    var r := h[i := h[p]][p := h[i]];
    forall j: nat | j < |h| && j != p ensures EdgeOk(r, j) {
      assert j != i ==> EdgeOk(h, j);
    }
    if p > 0 {
      assert EdgeOk(h, p);
      forall j: nat | 0 < j < |h| && Parent(j) == p
        ensures r[Parent(p)].priorityTime <= r[j].priorityTime
      {
        assert j != i ==> EdgeOk(h, j);
      }
    }
  }

  lemma {:induction false} ShiftUpOrders(h: seq<Connection>, i: nat)
    requires i < |h| && OrderedExceptAbove(h, i)
    ensures HeapOrdered(ShiftUp(h, i))
    ensures multiset(ShiftUp(h, i)) == multiset(h)
    decreases i
  {
    if !EdgeOk(h, i) {
      SwapUpOrder(h, i);
      SwapPermutes(h, i, Parent(i));
      ShiftUpOrders(h[i := h[Parent(i)]][Parent(i) := h[i]], Parent(i));
    }
  }

  lemma {:induction false} ShiftUpIndexedOrders(q: Queue, i: nat)
    requires InRange(q) && i < |q.heap| && OrderedExceptAbove(q.heap, i)
    ensures HeapOrdered(ShiftUpIndexed(q, i).heap)
    decreases i
  {
    if !EdgeOk(q.heap, i) {
      SwapUpOrder(q.heap, i);
      ShiftUpIndexedOrders(Swap(q, i, Parent(i)), Parent(i));
    }
  }

  lemma {:induction false} AncestorIsNotBelow(a: nat, j: nat)
    requires Ancestor(a, j)
    ensures a <= j
  {
    if a != j {
      AncestorIsNotBelow(a, Parent(j));
    }
  }

  /** Slot `j` receives its parent's record when a record shifts up from `i` to `stop`. */
  predicate Displaced(j: nat, i: nat, stop: nat) {
    stop < j && Ancestor(j, i)
  }

  /** The exact effect of the shift-up loop, slot by slot. */
  lemma {:induction false} ShiftUpAt(h: seq<Connection>, i: nat, j: nat)
    requires i < |h| && j < |h|
    ensures var stop := ShiftUpStop(h, i);
            ShiftUp(h, i)[j] ==
              if j == stop then h[i] else if Displaced(j, i, stop) then h[Parent(j)] else h[j]
    decreases i
  {
    if EdgeOk(h, i) {
      if Ancestor(j, i) {
        AncestorIsNotBelow(j, i);
      }
    } else {
      var p := Parent(i);
      ShiftUpAt(h[i := h[p]][p := h[i]], p, j);
      if Ancestor(j, p) {
        AncestorIsNotBelow(j, p);
      }
    }
  }

  // ---------- Enqueue ----------

  /** Enqueue always leaves a valid heap holding the old records and the new one. */
  lemma EnqueueOrders(q: Queue, c: Connection)
    requires c.clientFd < |q.index| && |q.heap| < |q.index| && HeapOrdered(q.heap)
    ensures HeapOrdered(Enqueue(q, c).heap)
    ensures multiset(Enqueue(q, c).heap) == multiset(q.heap) + multiset{c}
  {
    var h := q.heap + [c];
    forall j: nat | j < |q.heap| ensures EdgeOk(h, j) {
      assert EdgeOk(q.heap, j);
    }
    ShiftUpOrders(h, |q.heap|);
  }

  /** The index entries left stale by enqueue are exactly those of the displaced ancestors. */
  lemma EnqueueStale(q: Queue, c: Connection, j: nat)
    requires Coherent(q) && c.clientFd < |q.index| && q.index[c.clientFd] == -1 && j <= |q.heap|
    ensures |q.heap| < |q.index|
    ensures var r, stop := Enqueue(q, c), ShiftUpStop(q.heap + [c], |q.heap|);
            && |r.heap| == |q.heap| + 1 && r.heap[j].clientFd < |q.index|
            && (r.index[r.heap[j].clientFd] != j <==> Displaced(j, |q.heap|, stop))
            && (Displaced(j, |q.heap|, stop) ==> r.heap[j] == q.heap[Parent(j)])
  {
    RoomForAbsent(q, c.clientFd);
    ShiftUpAt(q.heap + [c], |q.heap|, j);
  }

  /** Enqueue keeps the index coherent if and only if the new record does not move up. */
  lemma EnqueueCoherence(q: Queue, c: Connection)
    requires Coherent(q) && c.clientFd < |q.index| && q.index[c.clientFd] == -1
    ensures var n, r := |q.heap|, Enqueue(q, c);
            && (Coherent(r) <==> n == 0 || q.heap[Parent(n)].priorityTime <= c.priorityTime)
            && (Coherent(r) ==> Contents(r) == Contents(q)[c.clientFd := c])
  {
    RoomForAbsent(q, c.clientFd);
    EnqueueStale(q, c, |q.heap|);
  }

  // ---------- Update ----------

  /** Update keeps a valid heap. */
  lemma UpdateOrders(q: Queue, fd: nat, now: int)
    requires Coherent(q) && fd < |q.index| && q.index[fd] != -1 && HeapOrdered(q.heap)
    ensures HeapOrdered(Update(q, fd, now).heap)
  {
    var i, c := q.index[fd], FreshConnection(fd, now);
    var h := q.heap[i := c];
    if now < q.heap[i].priorityTime {
      KeyLowered(q.heap, i, c);
      ShiftUpOrders(h, i);
    } else {
      KeyRaised(q.heap, i, c);
      assert InRange(Queue(h, q.index));
      HeapifyOrders(Queue(h, q.index), i);
    }
  }

  /** The record of `fd` replaced in its slot, before it is moved. */
  lemma WriteRefines(q: Queue, fd: nat, c: Connection)
    requires Coherent(q) && fd < |q.index| && q.index[fd] != -1 && c.clientFd == fd
    ensures Coherent(Write(q, fd, c)) && Contents(Write(q, fd, c)) == Contents(q)[fd := c]
  {
    var r := Write(q, fd, c);
    assert Coherent(r);
    SameContents(r, Contents(q)[fd := c]);
  }

  lemma UpCoherence(q: Queue, fd: nat, c: Connection)
    requires Coherent(q) && fd < |q.index| && q.index[fd] != -1 && c.clientFd == fd
    ensures var i := q.index[fd];
            var h := q.heap[i := c];
            && (EdgeOk(h, i) ==> ShiftUp(h, i) == h && ShiftUpStop(h, i) == i)
            && (!EdgeOk(h, i) ==> !Coherent(Queue(ShiftUp(h, i), q.index[fd := ShiftUpStop(h, i)])))
  {
    var i := q.index[fd];
    var h := q.heap[i := c];
    if !EdgeOk(h, i) {
      ShiftUpAt(h, i, i);
      assert Displaced(i, i, ShiftUpStop(h, i));
    }
  }

  /** Update keeps the index coherent if and only if nothing moves up; then it is a map update. */
  lemma UpdateCoherence(q: Queue, fd: nat, now: int)
    requires Coherent(q) && fd < |q.index| && q.index[fd] != -1
    ensures var i, r := q.index[fd], Update(q, fd, now);
            && (Coherent(r) <==>
                  now >= q.heap[i].priorityTime || i == 0 || q.heap[Parent(i)].priorityTime <= now)
            && (Coherent(r) ==> Contents(r) == Contents(q)[fd := FreshConnection(fd, now)])
  {
    var i, c := q.index[fd], FreshConnection(fd, now);
    WriteRefines(q, fd, c);
    if now < q.heap[i].priorityTime {
      UpCoherence(q, fd, c);
      assert q.index[fd := i] == q.index;
    } else {
      HeapifyKeeps(Queue(q.heap[i := c], q.index), i);
    }
  }

  lemma KeyRaised(h: seq<Connection>, i: nat, c: Connection)
    requires HeapOrdered(h) && i < |h| && h[i].priorityTime <= c.priorityTime
    ensures OrderedExceptBelow(h[i := c], i)
  {
    forall j: nat | j < |h| && (j > 0 ==> Parent(j) != i) ensures EdgeOk(h[i := c], j) {
      assert EdgeOk(h, j);
    }
    if i > 0 {
      forall j: nat | 0 < j < |h| && Parent(j) == i
        ensures h[Parent(i)].priorityTime <= h[j].priorityTime
      {
        assert EdgeOk(h, i) && EdgeOk(h, j);
      }
    }
  }

  lemma KeyLowered(h: seq<Connection>, i: nat, c: Connection)
    requires HeapOrdered(h) && i < |h| && c.priorityTime <= h[i].priorityTime
    ensures OrderedExceptAbove(h[i := c], i)
  {
    var r := h[i := c];
    forall j: nat | j < |h| && j != i ensures EdgeOk(r, j) {
      assert EdgeOk(h, j);
    }
    if i > 0 {
      forall j: nat | 0 < j < |h| && Parent(j) == i
        ensures h[Parent(i)].priorityTime <= h[j].priorityTime
      {
        assert EdgeOk(h, i) && EdgeOk(h, j);
      }
    }
  }

  // ---------- Interior delete ----------

  /** Delete by descriptor, as written, leaves a valid heap in exactly these cases. */
  lemma DequeueByFdOrder(q: Queue, fd: nat)
    requires Coherent(q) && HeapOrdered(q.heap) && fd < |q.index| && q.index[fd] != -1
    ensures var i, n := q.index[fd], |q.heap| - 1;
            HeapOrdered(DequeueByFd(q, fd).heap) <==>
              i == 0 || i == n || q.heap[Parent(i)].priorityTime <= q.heap[n].priorityTime
  {
    var i, n := q.index[fd], |q.heap| - 1;
    if i == n {
      forall j: nat | j < n ensures EdgeOk(q.heap[..n], j) {
        assert EdgeOk(q.heap, j);
      }
    } else if i == 0 || q.heap[Parent(i)].priorityTime <= q.heap[n].priorityTime {
      MoveLastOrder(q, fd);
      HeapifyOrders(MoveLast(q, fd), i);
    } else {
      DequeueByFdBreaks(q, fd);
      assert !EdgeOk(DequeueByFd(q, fd).heap, i);
    }
  }

  lemma MoveLastOrder(q: Queue, fd: nat)
    requires Coherent(q) && HeapOrdered(q.heap) && fd < |q.index| && q.index[fd] != -1
    requires q.heap[|q.heap| - 1].clientFd != fd
    ensures var h, i := MoveLast(q, fd).heap, q.index[fd];
            && i < |h|
            && OrderedExceptBelow(h, i) == EdgeOk(h, i)
            && (!EdgeOk(h, i) ==> OrderedExceptAbove(h, i))
  {
    var h, i := MoveLast(q, fd).heap, q.index[fd];
    forall j: nat | j < |h| && j != i && (j > 0 ==> Parent(j) != i) ensures EdgeOk(h, j) {
      assert EdgeOk(q.heap, j);
    }
    if i > 0 {
      assert EdgeOk(q.heap, i);
      forall j: nat | 0 < j < |h| && Parent(j) == i
        ensures h[Parent(i)].priorityTime <= h[j].priorityTime
        ensures !EdgeOk(h, i) ==> EdgeOk(h, j)
      {
        assert EdgeOk(q.heap, j);
      }
    }
  }

  /** When the moved record is below the vacated slot's parent, exactly that edge is violated. */
  lemma DequeueByFdBreaks(q: Queue, fd: nat)
    requires Coherent(q) && HeapOrdered(q.heap) && fd < |q.index| && q.index[fd] != -1
    requires var i, n := q.index[fd], |q.heap| - 1;
             0 < i < n && q.heap[n].priorityTime < q.heap[Parent(i)].priorityTime
    ensures forall j: nat | j < |DequeueByFd(q, fd).heap| ::
              !EdgeOk(DequeueByFd(q, fd).heap, j) <==> j == q.index[fd]
  {
    MoveLastOrder(q, fd);
    var h, i := MoveLast(q, fd).heap, q.index[fd];
    assert 2 * i + 1 < |h| ==> Parent(2 * i + 1) == i;
    assert 2 * i + 2 < |h| ==> Parent(2 * i + 2) == i;
    assert SmallestChild(h, i) == i;
  }

  /** With the shift-up added, delete by descriptor always leaves a valid heap. */
  lemma DequeueByFdRepairedOrders(q: Queue, fd: nat)
    requires Coherent(q) && HeapOrdered(q.heap) && fd < |q.index|
    ensures HeapOrdered(DequeueByFdRepaired(q, fd).heap)
  {
    if |q.heap| == 0 || q.index[fd] == -1 {
    } else if q.heap[|q.heap| - 1].clientFd == fd {
      DequeueByFdOrder(q, fd);
    } else {
      MoveLastOrder(q, fd);
      var moved, i := MoveLast(q, fd), q.index[fd];
      if EdgeOk(moved.heap, i) {
        HeapifyOrders(moved, i);
      } else {
        ShiftUpIndexedOrders(moved, i);
      }
    }
  }

  lemma DeleteByFdRefines(q: Queue, fd: nat, repaired: bool)
    requires Coherent(q) && fd < |q.index|
    ensures Coherent(DeleteByFd(q, fd, repaired)) && |DeleteByFd(q, fd, repaired).index| == |q.index|
    ensures Contents(DeleteByFd(q, fd, repaired)) == Contents(q) - {fd}
  {
    DequeueByFdRefines(q, fd);
    DequeueByFdRepairedRefines(q, fd);
  }

  /** From a valid heap, delete by descriptor leaves a valid heap if and only if it is repaired or
      meets its guard. */
  lemma DeleteByFdOrder(q: Queue, fd: nat, repaired: bool)
    requires Coherent(q) && fd < |q.index| && HeapOrdered(q.heap)
    ensures HeapOrdered(DeleteByFd(q, fd, repaired).heap) <==> repaired || DeleteKeepsOrder(q, fd)
  {
    DequeueByFdRepairedOrders(q, fd);
    if Has(q, fd) {
      DequeueByFdOrder(q, fd);
    }
  }
}
