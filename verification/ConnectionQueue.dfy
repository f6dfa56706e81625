/** The queue of client connections: a heap array and an index array updated in place. A queue made
    with `repaired` set has the shift-up that delete by descriptor lacks as written. */
module ConnectionQueue {
  import opened Connections
  import opened HeapModel
  import opened Kernels
  import QueueRuns

  /** The body descriptor that a queue entry holds, or -1. */
  ghost function BodyOf(q: Queue, fd: nat): int {
    if fd < |q.index| && 0 <= q.index[fd] < |q.heap| then q.heap[q.index[fd]].bodyFd else -1
  }

  function WithoutBody(files: map<nat, File>, bodyFd: int): map<nat, File> {
    if bodyFd > 0 then files - {bodyFd as nat} else files
  }

  class QueueConnections {
    const capacity: nat
    const repaired: bool
    const connections: array<Connection>
    const indexQueue: array<int>
    var currentSize: nat

    ghost predicate Valid()
      reads this
    {
      && connections.Length == indexQueue.Length == capacity
      && connections as object != indexQueue
      && currentSize <= capacity
    }

    ghost function Model(): Queue
      requires Valid()
      reads this, connections, indexQueue
    {
      Queue(connections[..currentSize], indexQueue[..])
    }

    constructor (capacity: nat, repaired: bool)
      ensures Valid() && this.capacity == capacity && this.repaired == repaired
      ensures fresh(connections) && fresh(indexQueue)
      ensures Model() == QueueRuns.Empty(capacity)
    {
      this.capacity, this.repaired := capacity, repaired;
      connections := new Connection[capacity](_ => EmptyConnection());
      indexQueue := new int[capacity](_ => -1);
      currentSize := 0;
    }

    method FreeConnection(c: Connection, k: Kernel)
      requires c.bodyFd > 0 ==> c.bodyFd in k.files
      modifies k`files
      ensures k.files == WithoutBody(old(k.files), c.bodyFd)
    {
      if c.bodyFd > 0 {
        k.CloseFile(c.bodyFd);
      }
    }

    method SwapConnections(a: nat, b: nat)
      requires Valid() && a < currentSize && b < currentSize
      modifies connections
      ensures connections[..] == old(connections[..][a := connections[b]][b := connections[a]])
    {
      var temp := connections[a];
      connections[a] := connections[b];
      connections[b] := temp;
    }

    /** Swapping two records with their index entries. */
    method SwapIndexed(a: nat, b: nat)
      requires Valid() && InRange(Model()) && a < currentSize && b < currentSize
      modifies connections, indexQueue
      ensures Model() == Swap(old(Model()), a, b)
      ensures connections[currentSize..] == old(connections[currentSize..])
    {
      SwapConnections(a, b);
      indexQueue[connections[a].clientFd] := a;
      indexQueue[connections[b].clientFd] := b;
      assert connections[..currentSize] == Swap(old(Model()), a, b).heap;
    }

    /** The shift-up loop shared by enqueue and update: records move, the index does not. */
    method ShiftUpLoop(start: nat) returns (index: nat)
      requires Valid() && start < currentSize
      modifies connections
      ensures Valid() && connections[..currentSize] == ShiftUp(old(connections[..currentSize]), start)
      ensures connections[currentSize..] == old(connections[currentSize..])
      ensures index == ShiftUpStop(old(connections[..currentSize]), start)
    {
      ghost var h := connections[..currentSize];
      index := start;
      while index != 0 && connections[index].priorityTime < connections[Parent(index)].priorityTime
        invariant index <= start
        invariant connections[currentSize..] == old(connections[currentSize..])
        invariant ShiftUp(connections[..currentSize], index) == ShiftUp(h, start)
        invariant ShiftUpStop(connections[..currentSize], index) == ShiftUpStop(h, start)
        decreases index
      {
        ghost var before := connections[..currentSize];
        SwapConnections(index, Parent(index));
        assert connections[..currentSize]
            == before[index := before[Parent(index)]][Parent(index) := before[index]];
        index := Parent(index);
      }
    }

    method HeapifyAt(index: nat)
      requires Valid() && InRange(Model()) && index < currentSize
      modifies connections, indexQueue
      ensures Valid() && Model() == Heapify(old(Model()), index)
      ensures connections[currentSize..] == old(connections[currentSize..])
      decreases currentSize - index
    {
      ghost var q := Model();
      var left, right := 2 * index + 1, 2 * index + 2;
      var smallest := index;
      if left < currentSize && connections[left].priorityTime < connections[smallest].priorityTime {
        smallest := left;
      }
      if right < currentSize && connections[right].priorityTime < connections[smallest].priorityTime {
        smallest := right;
      }
      assert smallest == SmallestChild(q.heap, index);
      if smallest != index {
        SwapIndexed(index, smallest);
        HeapifyAt(smallest);
      }
    }

    method Enqueue(connection: Connection)
      requires Valid() && connection.clientFd < capacity
      modifies this`currentSize, connections, indexQueue
      ensures Valid() && Model() == HeapModel.Enqueue(old(Model()), connection)
    {
      if currentSize == capacity {
        return;
      }
      ghost var q := Model();
      connections[currentSize] := connection;
      currentSize := currentSize + 1;
      assert connections[..currentSize] == q.heap + [connection];
      var index := ShiftUpLoop(currentSize - 1);
      indexQueue[connection.clientFd] := index;
    }

    method ExistsConnection(fd: nat) returns (present: bool)
      requires Valid() && fd < capacity
      ensures present == Has(Model(), fd)
    {
      present := indexQueue[fd] != -1;
    }

    method GetConnectionOrCreateByFd(fd: nat, k: Kernel) returns (slot: nat)
      requires Valid() && Coherent(Model()) && fd < capacity
      modifies this`currentSize, connections, indexQueue, k`step, k`now
      ensures Valid() && k.now >= old(k.now) && k.step >= old(k.step)
      ensures old(k.Still()) ==> k.now == old(k.now)
      ensures Model() == GetOrCreate(old(Model()), fd, k.now)
      ensures Has(old(Model()), fd) ==> k.now == old(k.now)
      ensures slot < currentSize && indexQueue[fd] == slot
    {
      ghost var q := Model();
      var index := indexQueue[fd];
      if index == -1 {
        var now := k.Time();
        Enqueue(FreshConnection(fd, now));
        RoomForAbsent(q, fd);
        index := indexQueue[fd];
        assert index != -1;  // the die() of the program is never reached
      }
      slot := index;
    }

    method UpdateQueueConnection(fd: nat, k: Kernel)
      requires Valid() && Coherent(Model()) && fd < capacity && Has(Model(), fd)
      requires BodyOf(Model(), fd) > 0 ==> BodyOf(Model(), fd) in k.files
      modifies connections, indexQueue, k`step, k`now, k`files
      ensures Valid() && k.now >= old(k.now) && k.step > old(k.step)
      ensures old(k.Still()) ==> k.now == old(k.now)
      ensures Model() == Update(old(Model()), fd, k.now)
      ensures k.files == WithoutBody(old(k.files), BodyOf(old(Model()), fd))
    {
      ghost var q := Model();
      var index := indexQueue[fd];
      var oldPriorityTime := connections[index].priorityTime;
      var newPriorityTime := k.Time();
      FreeConnection(connections[index], k);
      connections[index] := FreshConnection(fd, newPriorityTime);
      ghost var h := q.heap[index := FreshConnection(fd, newPriorityTime)];
      assert Model() == Queue(h, q.index);
      if newPriorityTime < oldPriorityTime {
        var stop := ShiftUpLoop(index);
        indexQueue[fd] := stop;
      } else {
        HeapifyAt(index);
      }
    }

    method DequeueConnection(k: Kernel)
      requires Valid() && Coherent(Model())
      requires currentSize > 0 && connections[0].bodyFd > 0 ==> connections[0].bodyFd in k.files
      modifies this`currentSize, connections, indexQueue, k`files
      ensures Valid() && Model() == Dequeue(old(Model()))
      ensures k.files == if old(currentSize) == 0 then old(k.files)
                         else WithoutBody(old(k.files), old(connections[0].bodyFd))
    {
      if currentSize == 0 {
        return;
      }
      ghost var q := Model();
      var fdFirst := connections[0].clientFd;
      var fdLast := connections[currentSize - 1].clientFd;
      FreeConnection(connections[0], k);
      if fdFirst == fdLast {
        connections[0] := EmptyConnection();
        indexQueue[fdFirst] := -1;
        currentSize := currentSize - 1;
        return;
      }
      connections[0] := connections[currentSize - 1];
      connections[currentSize - 1] := EmptyConnection();
      currentSize := currentSize - 1;
      indexQueue[fdFirst] := -1;
      indexQueue[fdLast] := 0;
      MoveLastCoherent(q, fdFirst);
      assert Model() == MoveLast(q, fdFirst);
      HeapifyAt(0);
    }

    method DequeueConnectionByFd(fd: nat, k: Kernel)
      requires Valid() && Coherent(Model()) && fd < capacity
      requires BodyOf(Model(), fd) > 0 ==> BodyOf(Model(), fd) in k.files
      modifies this`currentSize, connections, indexQueue, k`files
      ensures Valid() && Model() == DeleteByFd(old(Model()), fd, repaired)
      ensures k.files == WithoutBody(old(k.files), BodyOf(old(Model()), fd))
    {
      if currentSize == 0 {
        return;
      }
      var index := indexQueue[fd];
      if index == -1 {
        return;
      }
      ghost var q := Model();
      FreeConnection(connections[index], k);
      var fdLast := connections[currentSize - 1].clientFd;
      if fdLast == fd {
        connections[currentSize - 1] := EmptyConnection();
        currentSize := currentSize - 1;
        indexQueue[fd] := -1;
        assert Model() == DropLast(q, fd);
        return;
      }
      RemoveInterior(fd, index, fdLast);
    }

    /** The part of delete by descriptor that moves the last record into the vacated slot. */
    method RemoveInterior(fd: nat, index: nat, fdLast: nat)
      requires Valid() && Coherent(Model()) && fd < capacity && indexQueue[fd] == index
      requires currentSize > 0 && fdLast == connections[currentSize - 1].clientFd && fdLast != fd
      modifies this`currentSize, connections, indexQueue
      ensures Valid() && Model() == DeleteByFd(old(Model()), fd, repaired)
    {
      ghost var q := Model();
      MoveLastCoherent(q, fd);
      SwapConnections(index, currentSize - 1);
      connections[currentSize - 1] := EmptyConnection();
      currentSize := currentSize - 1;
      indexQueue[fd] := -1;
      indexQueue[fdLast] := index;
      assert Model() == MoveLast(q, fd);
      if repaired && index > 0 && connections[index].priorityTime < connections[Parent(index)].priorityTime {
        ShiftUpIndexedLoop(index);
      } else {
        HeapifyAt(index);
      }
    }

    /** The shift-up of the repaired delete, which also moves the index. */
    method ShiftUpIndexedLoop(start: nat)
      requires Valid() && InRange(Model()) && start < currentSize
      modifies connections, indexQueue
      ensures Valid() && Model() == ShiftUpIndexed(old(Model()), start)
    {
      var index: nat := start;
      while index != 0 && connections[index].priorityTime < connections[Parent(index)].priorityTime
        invariant index < currentSize && InRange(Model())
        invariant ShiftUpIndexed(Model(), index) == ShiftUpIndexed(old(Model()), start)
        decreases index
      {
        SwapIndexed(index, Parent(index));
        index := Parent(index);
      }
    }

    /** The slot of the front of the queue; an entry of minimal time when the heap is ordered. */
    method Peek() returns (first: Option<nat>)
      requires Valid()
      ensures first == if currentSize == 0 then None else Some(0)
      ensures HeapOrdered(Model().heap) && first.Some? ==>
                forall i | 0 <= i < currentSize :: connections[0].priorityTime <= connections[i].priorityTime
    {
      if currentSize == 0 {
        return None;
      }
      first := Some(0);
      if HeapOrdered(Model().heap) {
        forall i: nat | i < currentSize
          ensures connections[0].priorityTime <= connections[i].priorityTime
        {
          RootIsMinimal(Model().heap, i);
        }
      }
    }
  }
}
