/** Receiving a request: a resumable loop against a kernel that may answer short, EINTR or EAGAIN. */
module Receive {
  import opened Connections
  import opened CStrings
  import opened Kernels

  /** The bytes received, the bytes the client has yet to deliver, and the connection state. */
  datatype Rx = Rx(buffer: string, pending: string, state: ConnectionState)

  /** Only the bytes received are scanned. */
  predicate IsRequestComplete(buffer: string) {
    Find(buffer, END_OF_REQUEST) != -1
  }

  /** The effect of one answer of recv. */
  function RecvStep(r: Rx, io: Io): (r': Rx)
    requires |r.buffer| <= BUFFER_REQUEST_SIZE
    ensures |r'.buffer| <= BUFFER_REQUEST_SIZE
  {
    if r.state != Recv then r
    else
      match Limited(io, Min(BUFFER_REQUEST_SIZE - |r.buffer|, |r.pending|))
      case Interrupted => r
      case WouldBlock => if IsRequestComplete(r.buffer) then r.(state := SendHeaders) else r
      case Failed => r.(state := DoneForClose)
      case Moved(n) =>
        if n == 0 then r.(state := DoneForClose)
        else
          var buffer := r.buffer + r.pending[..n];
          Rx(buffer, r.pending[n..], if IsRequestComplete(buffer) then SendHeaders else Recv)
  }

  function RecvRun(r: Rx, answers: seq<Io>): (r': Rx)
    requires |r.buffer| <= BUFFER_REQUEST_SIZE
    ensures |r'.buffer| <= BUFFER_REQUEST_SIZE
  {
    if answers == [] then r
    else RecvStep(RecvRun(r, answers[..|answers| - 1]), answers[|answers| - 1])
  }

  lemma RecvRunSnoc(r: Rx, answers: seq<Io>, io: Io)
    requires |r.buffer| <= BUFFER_REQUEST_SIZE
    ensures RecvRun(r, answers + [io]) == RecvStep(RecvRun(r, answers), io)
  {
    assert (answers + [io])[..|answers|] == answers;
  }

  lemma RecvRunNone(r: Rx)
    requires |r.buffer| <= BUFFER_REQUEST_SIZE
    ensures RecvRun(r, []) == r
  {
  }

  ghost function RxOf(c: Connection, pending: string): Rx {
    Rx(c.requestBuffer, pending, c.state)
  }

  /** Where the next byte goes: the offset counts the bytes received until the request is complete. */
  predicate Receiving(c: Connection) {
    c.state == Recv && c.requestBufferOffset == |c.requestBuffer| <= BUFFER_REQUEST_SIZE
  }

  /** The record after one answer of recv: only the buffer, its offset and the state may differ. */
  ghost predicate Received(c: Connection, c': Connection) {
    && c' == c.(requestBuffer := c'.requestBuffer, requestBufferOffset := c'.requestBufferOffset,
                state := c'.state)
    && (c'.state == Recv ==> Receiving(c'))
    && (c'.state == SendHeaders ==> c'.requestBufferOffset == 0)
    && c'.state in {Recv, SendHeaders, DoneForClose}
  }

  /** The body of the receive loop; `again` is its continue. */
  method RecvOnce(conns: array<Connection>, slot: nat, k: Kernel) returns (again: bool)
    requires slot < conns.Length && Receiving(conns[slot])
    requires k.Valid() && conns[slot].clientFd in k.sockets
    modifies conns, k`step, k`incoming
    ensures k.Valid() && k.step == old(k.step) + 1
    ensures conns[..] == old(conns[..])[slot := conns[slot]]
    ensures Received(old(conns[slot]), conns[slot])
    ensures var fd, io := old(conns[slot].clientFd), k.script(old(k.step)).io;
            && RxOf(conns[slot], k.incoming[fd]) == RecvStep(old(RxOf(conns[slot], k.incoming[fd])), io)
            && k.incoming == old(k.incoming)[fd := k.incoming[fd]]
            && (again <==> conns[slot].state == Recv && !io.WouldBlock?)
            && (again && !io.Interrupted? ==> |conns[slot].requestBuffer| > |old(conns[slot]).requestBuffer|)
  {
    hide Logged, RecvStep, IsRequestComplete, Received, Kernel.Patient;
    ghost var was, pending := conns[slot], k.incoming[conns[slot].clientFd];
    var c := conns[slot];
    var io, data := k.Recv(c.clientFd, BUFFER_REQUEST_SIZE - c.requestBufferOffset);
    again := false;
    match io {
      case Interrupted =>
        again := true;
      case WouldBlock =>
        if IsRequestComplete(c.requestBuffer) {
          c := c.(state := SendHeaders, requestBufferOffset := 0);
        }
      case Failed =>
        c := c.(state := DoneForClose);
      case Moved(n) =>
        if n == 0 {
          c := c.(state := DoneForClose);
        } else {
          c := c.(requestBuffer := c.requestBuffer + data, requestBufferOffset := c.requestBufferOffset + n);
          if IsRequestComplete(c.requestBuffer) {
            c := c.(state := SendHeaders, requestBufferOffset := 0);
          } else {
            again := true;
          }
        }
    }
    assert c == AfterRecv(was, io, data);
    RecvIsStep(was, pending, k.script(old(k.step)).io);
    conns[slot] := c;
  }

  /** The record after one answer of recv. */
  function AfterRecv(c: Connection, io: Io, data: string): Connection {
    match io
    case Interrupted => c
    case WouldBlock =>
      if IsRequestComplete(c.requestBuffer) then c.(state := SendHeaders, requestBufferOffset := 0) else c
    case Failed => c.(state := DoneForClose)
    case Moved(n) =>
      if n == 0 then c.(state := DoneForClose)
      else
        var more := c.(requestBuffer := c.requestBuffer + data, requestBufferOffset := c.requestBufferOffset + n);
        if IsRequestComplete(more.requestBuffer) then more.(state := SendHeaders, requestBufferOffset := 0) else more
  }

  lemma RecvIsStep(c: Connection, pending: string, answer: Io)
    requires Receiving(c)
    ensures var io := Limited(answer, Min(BUFFER_REQUEST_SIZE - c.requestBufferOffset, |pending|));
            RxOf(AfterRecv(c, io, if io.Moved? then pending[..io.count] else ""),
                 if io.Moved? then pending[io.count..] else pending)
              == RecvStep(RxOf(c, pending), answer)
    ensures var io := Limited(answer, Min(BUFFER_REQUEST_SIZE - c.requestBufferOffset, |pending|));
            Received(c, AfterRecv(c, io, if io.Moved? then pending[..io.count] else ""))
  {
    hide IsRequestComplete;
  }

  method RecvRequest(conns: array<Connection>, slot: nat, k: Kernel)
    requires slot < conns.Length && Receiving(conns[slot])
    requires k.Valid() && conns[slot].clientFd in k.sockets
    modifies conns, k`step, k`incoming
    ensures k.Valid() && k.step > old(k.step) && k.Patience() <= old(k.Patience())
    ensures conns[..] == old(conns[..])[slot := conns[slot]]
    ensures Received(old(conns[slot]), conns[slot])
    ensures conns[slot].state == Recv ==> k.Patience() < old(k.Patience())
    ensures var fd := old(conns[slot].clientFd);
            && RxOf(conns[slot], k.incoming[fd])
                 == RecvRun(old(RxOf(conns[slot], k.incoming[fd])), k.Answers(old(k.step), k.step))
            && k.incoming == old(k.incoming)[fd := k.incoming[fd]]
  {
    hide Logged, RecvStep, RecvRun;
    ghost var c0, fd := conns[slot], conns[slot].clientFd;
    ghost var r0 := RxOf(c0, k.incoming[fd]);
    RecvRunNone(r0);
    assert k.Answers(k.step, k.step) == [];
    var again := true;
    while again
      invariant k.Valid() && k.step >= old(k.step) && (!again ==> k.step > old(k.step))
      invariant conns[..] == old(conns[..])[slot := conns[slot]]
      invariant Received(c0, conns[slot])
      invariant again ==> conns[slot].state == Recv
      invariant !again && conns[slot].state == Recv ==> k.Patience() < old(k.Patience())
      invariant k.incoming == old(k.incoming)[fd := k.incoming[fd]]
      invariant RxOf(conns[slot], k.incoming[fd]) == RecvRun(r0, k.Answers(old(k.step), k.step))
      decreases again, k.Patience(), BUFFER_REQUEST_SIZE - |conns[slot].requestBuffer|
    {
      k.AnswersSnoc(old(k.step), k.step);
      RecvRunSnoc(r0, k.Answers(old(k.step), k.step), k.script(k.step).io);
      again := RecvOnce(conns, slot, k);
    }
  }

  // ---------- Every way of splitting the stream ----------

  /** The buffer and what is pending make up the stream; the state tells whether the request in
      the buffer is complete. */
  ghost predicate Faithful(r: Rx, stream: string) {
    && r.buffer + r.pending == stream
    && r.state in {Recv, SendHeaders, DoneForClose}
    && (r.state == Recv ==> !IsRequestComplete(r.buffer))
    && (r.state == SendHeaders ==> IsRequestComplete(r.buffer))
  }

  lemma RecvStepKeepsStream(r: Rx, io: Io, stream: string)
    requires |r.buffer| <= BUFFER_REQUEST_SIZE && Faithful(r, stream)
    ensures Faithful(RecvStep(r, io), stream)
  {
  }

  lemma {:induction false} RecvRunFaithful(r: Rx, answers: seq<Io>, stream: string)
    requires |r.buffer| <= BUFFER_REQUEST_SIZE && Faithful(r, stream)
    ensures Faithful(RecvRun(r, answers), stream)
    decreases |answers|
  {
    if answers != [] {
      RecvRunFaithful(r, answers[..|answers| - 1], stream);
      RecvStepKeepsStream(RecvRun(r, answers[..|answers| - 1]), answers[|answers| - 1], stream);
    }
  }

  lemma RecvRunKeepsStream(stream: string, answers: seq<Io>)
    ensures Faithful(RecvRun(Rx("", stream, Recv), answers), stream)
  {
    RecvRunFaithful(Rx("", stream, Recv), answers, stream);
  }

  /** Position just past the blank line that ends the first request. */
  function EndOf(stream: string): (e: nat)
    requires IsRequestComplete(stream)
    ensures 4 <= e <= |stream|
  {
    Find(stream, END_OF_REQUEST) + 4
  }

  /** What has been received is the complete request if and only if its last byte is there. */
  lemma CompleteAtEnd(r: Rx, stream: string)
    requires IsRequestComplete(stream) && Faithful(r, stream)
    ensures r.buffer <= stream && (IsRequestComplete(r.buffer) <==> |r.buffer| >= EndOf(stream))
  {
    assert r.buffer == stream[..|r.buffer|];
    FindInPrefix(stream, END_OF_REQUEST, |r.buffer|);
  }

  /** However the stream is split, and wherever EINTR and EAGAIN fall, the request is passed on
      with the same first bytes, never before its last byte has arrived. */
  lemma AnyFragmentation(stream: string, answers: seq<Io>)
    requires IsRequestComplete(stream)
    ensures var r, e := RecvRun(Rx("", stream, Recv), answers), EndOf(stream);
            && r.buffer <= stream
            && (r.state == SendHeaders ==> |r.buffer| >= e && r.buffer[..e] == stream[..e])
            && (r.state == Recv ==> |r.buffer| < e)
  {
    RecvRunKeepsStream(stream, answers);
    CompleteAtEnd(RecvRun(Rx("", stream, Recv), answers), stream);
  }

  function Delivered(answers: seq<Io>): nat {
    if answers == [] then 0
    else
      var last := answers[|answers| - 1];
      Delivered(answers[..|answers| - 1]) + if last.Moved? then last.count else 0
  }

  /** A kernel that does not fail never makes the server give up on a request that fits. */
  lemma {:induction false} ProductiveReceive(r0: Rx, stream: string, answers: seq<Io>)
    requires |r0.buffer| <= BUFFER_REQUEST_SIZE && Faithful(r0, stream) && r0.state == Recv
    requires IsRequestComplete(stream) && EndOf(stream) <= BUFFER_REQUEST_SIZE && Productive(answers)
    ensures var r := RecvRun(r0, answers);
            && r.state in {Recv, SendHeaders}
            && (r.state == Recv ==> |r.buffer| >= |r0.buffer| + Delivered(answers))
    decreases |answers|
  {
    if answers != [] {
      var front := answers[..|answers| - 1];
      ProductiveReceive(r0, stream, front);
      RecvRunFaithful(r0, front, stream);
      CompleteAtEnd(RecvRun(r0, front), stream);
      RecvRunFaithful(r0, answers, stream);
      CompleteAtEnd(RecvRun(r0, answers), stream);
    }
  }

  /** Once a productive kernel has delivered the request, it is passed on if and only if it fits. */
  lemma DeliveredRequestIsPassedOn(stream: string, answers: seq<Io>)
    requires IsRequestComplete(stream) && Productive(answers) && Delivered(answers) >= EndOf(stream)
    ensures RecvRun(Rx("", stream, Recv), answers).state == SendHeaders
            <==> EndOf(stream) <= 1024
  {
    AnyFragmentation(stream, answers);
    if EndOf(stream) <= BUFFER_REQUEST_SIZE {
      ProductiveReceive(Rx("", stream, Recv), stream, answers);
    }
  }

  /** What a single transfer of up to n bytes brings. */
  function FirstPart(stream: string, n: nat): string {
    stream[..Min(n, Min(BUFFER_REQUEST_SIZE, |stream|))]
  }

  /** If every transfer moves up to n bytes and the first one brings a complete request, it is passed
      on with just those bytes. */
  lemma {:induction false} SteadyReceive(stream: string, n: nat, answers: seq<Io>)
    requires answers != [] && forall i | 0 <= i < |answers| :: answers[i] == Moved(n)
    requires IsRequestComplete(FirstPart(stream, n))
    ensures RecvRun(Rx("", stream, Recv), answers)
         == Rx(FirstPart(stream, n), stream[|FirstPart(stream, n)|..], SendHeaders)
    decreases |answers|
  {
    var front := answers[..|answers| - 1];
    if front == [] {
      assert "" + FirstPart(stream, n) == FirstPart(stream, n);
    } else {
      SteadyReceive(stream, n, front);
    }
  }
}
