/** Queues written out: the records of the heap by descriptor and time, and what the operations of the
    queue make of them. */
module Layouts {
  import opened Connections
  import opened HeapModel

  datatype Entry = Entry(fd: nat, time: int)

  /** Every record is fresh, in the order given. */
  ghost predicate LaidOut(q: Queue, entries: seq<Entry>) {
    && Coherent(q) && |q.heap| == |entries|
    && forall i | 0 <= i < |entries| :: q.heap[i] == FreshConnection(entries[i].fd, entries[i].time)
  }

  function Smallest(entries: seq<Entry>, i: nat): (s: nat)
    requires i < |entries|
    ensures s == i || (i < s < |entries| && s <= 2 * i + 2)
  {
    var left, right := 2 * i + 1, 2 * i + 2;
    var s := if left < |entries| && entries[left].time < entries[i].time then left else i;
    if right < |entries| && entries[right].time < entries[s].time then right else s
  }

  /** The entry at `i` sinks to its place. */
  function Sift(entries: seq<Entry>, i: nat): (r: seq<Entry>)
    requires i < |entries|
    ensures |r| == |entries|
    decreases |entries| - i
  {
    var s := Smallest(entries, i);
    if s == i then entries else Sift(entries[i := entries[s]][s := entries[i]], s)
  }

  lemma {:induction false} SiftIs(q: Queue, entries: seq<Entry>, i: nat)
    requires LaidOut(q, entries) && i < |entries|
    ensures LaidOut(Heapify(q, i), Sift(entries, i)) && |Heapify(q, i).index| == |q.index|
    decreases |entries| - i
  {
    var s := Smallest(entries, i);
    assert SmallestChild(q.heap, i) == s;
    if s != i {
      SwapCoherent(q, i, s);
      SiftIs(Swap(q, i, s), entries[i := entries[s]][s := entries[i]], s);
    }
  }

  lemma SlotOf(q: Queue, entries: seq<Entry>, i: nat)
    requires LaidOut(q, entries) && i < |entries|
    ensures entries[i].fd < |q.index| && q.index[entries[i].fd] == i && q.heap[i].clientFd == entries[i].fd
  {
  }

  lemma NotThere(q: Queue, entries: seq<Entry>, fd: nat)
    requires LaidOut(q, entries) && fd < |q.index|
    requires forall i | 0 <= i < |entries| :: entries[i].fd != fd
    ensures !Has(q, fd)
  {
    assert forall i | 0 <= i < |q.heap| :: q.heap[i].clientFd == entries[i].fd;
  }

  /** A client arrives behind all others. */
  lemma ArrivedIs(q: Queue, entries: seq<Entry>, fd: nat, now: int)
    requires LaidOut(q, entries) && fd < |q.index|
    requires forall i | 0 <= i < |entries| :: entries[i].fd != fd && entries[i].time <= now
    ensures LaidOut(GetOrCreate(q, fd, now), entries + [Entry(fd, now)])
    ensures |GetOrCreate(q, fd, now).index| == |q.index|
  {
    NotThere(q, entries, fd);
    RoomForAbsent(q, fd);
    EnqueueCoherence(q, FreshConnection(fd, now));
    assert EdgeOk(q.heap + [FreshConnection(fd, now)], |q.heap|);
  }

  /** A client is renewed and sinks. */
  lemma RenewedIs(q: Queue, entries: seq<Entry>, i: nat, now: int)
    requires LaidOut(q, entries) && i < |entries| && entries[i].time <= now
    ensures entries[i].fd < |q.index| && q.index[entries[i].fd] == i && q.heap[i].clientFd == entries[i].fd
    ensures var r := Update(q, entries[i].fd, now);
            LaidOut(r, Sift(entries[i := Entry(entries[i].fd, now)], i)) && |r.index| == |q.index|
  {
    hide Sift, Heapify;
    SlotOf(q, entries, i);
    WriteRefines(q, entries[i].fd, FreshConnection(entries[i].fd, now));
    SiftIs(Write(q, entries[i].fd, FreshConnection(entries[i].fd, now)), entries[i := Entry(entries[i].fd, now)], i);
  }

  /** The last entry takes the place of the one that goes, and sinks. */
  function Without(entries: seq<Entry>, i: nat): (r: seq<Entry>)
    requires i < |entries|
    ensures |r| == |entries| - 1
  {
    var n := |entries| - 1;
    if i == n then entries[..n] else Sift(entries[..n][i := entries[n]], i)
  }

  lemma MovedIs(q: Queue, entries: seq<Entry>, i: nat)
    requires LaidOut(q, entries) && i < |entries| - 1
    ensures entries[i].fd < |q.index| && q.index[entries[i].fd] == i
    ensures entries[|entries| - 1].fd != entries[i].fd && q.heap[|entries| - 1].clientFd != entries[i].fd
    ensures var moved := MoveLast(q, entries[i].fd);
            LaidOut(moved, entries[..|entries| - 1][i := entries[|entries| - 1]]) && |moved.index| == |q.index|
  {
    SlotOf(q, entries, i);
    SlotOf(q, entries, |entries| - 1);
    MoveLastCoherent(q, entries[i].fd);
  }

  lemma LastIs(q: Queue, entries: seq<Entry>)
    requires LaidOut(q, entries) && entries != []
    ensures var n := |entries| - 1;
            && entries[n].fd < |q.index| && q.heap[n].clientFd == entries[n].fd
            && LaidOut(DropLast(q, entries[n].fd), entries[..n])
            && |DropLast(q, entries[n].fd).index| == |q.index|
  {
    SlotOf(q, entries, |entries| - 1);
    DropLastRefines(q, entries[|entries| - 1].fd);
  }

  lemma DeletedIs(q: Queue, entries: seq<Entry>, i: nat)
    requires LaidOut(q, entries) && i < |entries|
    ensures entries[i].fd < |q.index| && LaidOut(DequeueByFd(q, entries[i].fd), Without(entries, i))
    ensures |DequeueByFd(q, entries[i].fd).index| == |q.index|
  {
    hide Sift, Heapify, MoveLast, LaidOut, DropLast, Coherent;
    LaidOutParts(q, entries);
    var n, fd := |entries| - 1, entries[i].fd;
    SlotOf(q, entries, i);
    if i < n {
      MovedIs(q, entries, i);
      SiftIs(MoveLast(q, fd), entries[..n][i := entries[n]], i);
    } else {
      LastIs(q, entries);
    }
  }

  lemma LaidOutParts(q: Queue, entries: seq<Entry>)
    requires LaidOut(q, entries)
    ensures Coherent(q) && |q.heap| == |entries|
  {
  }
}
