/** Sending a response: resumable loops against a kernel that may answer short,
    EINTR or EAGAIN. */
module Response {
  import opened Connections
  import opened Kernels

  // ---------- Sending ----------

  /** One response in flight: its header block, its body, how far each has gone, and the bytes
      handed to the socket since the response began. */
  datatype Tx = Tx(headers: string, headersOffset: nat, body: string, bodyOffset: nat,
                   wire: string, state: ConnectionState)

  predicate InBounds(t: Tx) {
    t.headersOffset <= |t.headers| && t.bodyOffset <= |t.body|
  }

  /** The effect of one answer of send, or of sendfile, depending on the state. */
  function SendStep(t: Tx, io: Io): (t': Tx)
    requires InBounds(t)
    ensures InBounds(t')
  {
    match t.state
    case SendHeaders => (
      match Limited(io, |t.headers| - t.headersOffset)
      case Interrupted => t
      case WouldBlock =>
        if t.headersOffset == |t.headers| then t.(state := SendBody, headersOffset := 0) else t
      case Failed => t.(state := DoneForClose)
      case Moved(n) =>
        var offset := t.headersOffset + n;
        var sent := t.(wire := t.wire + t.headers[t.headersOffset..offset], headersOffset := offset);
        if n == 0 then sent.(state := DoneForClose)
        else if offset == |t.headers| then sent.(state := SendBody, headersOffset := 0)
        else sent
    )
    case SendBody => (
      match Limited(io, |t.body| - t.bodyOffset)
      case Interrupted => t
      case WouldBlock =>
        if t.bodyOffset == |t.body| then t.(state := Done, bodyOffset := 0) else t
      case Failed => t.(state := DoneForClose)
      case Moved(n) =>
        var offset := t.bodyOffset + n;
        var sent := t.(wire := t.wire + t.body[t.bodyOffset..offset], bodyOffset := offset);
        if n == 0 then sent.(state := DoneForClose)
        else if offset == |t.body| then sent.(state := Done, bodyOffset := 0)
        else sent
    )
    case _ => t
  }

  function SendRun(t: Tx, answers: seq<Io>): (t': Tx)
    requires InBounds(t)
    ensures InBounds(t')
  {
    if answers == [] then t
    else SendStep(SendRun(t, answers[..|answers| - 1]), answers[|answers| - 1])
  }

  lemma SendRunNone(t: Tx)
    requires InBounds(t)
    ensures SendRun(t, []) == t
  {
  }

  lemma SendRunSnoc(t: Tx, answers: seq<Io>, io: Io)
    requires InBounds(t)
    ensures SendRun(t, answers + [io]) == SendStep(SendRun(t, answers), io)
  {
    assert (answers + [io])[..|answers|] == answers;
  }

  ghost function TxOf(c: Connection, body: string, wire: string): Tx {
    Tx(c.responseHeaders, c.responseHeadersOffset, body, c.bodyOffset, wire, c.state)
  }

  /** What sending headers may change in the record. */
  ghost predicate HeadersSent(c: Connection, c': Connection) {
    && c' == c.(responseHeadersOffset := c'.responseHeadersOffset, state := c'.state)
    && c'.state in {SendHeaders, SendBody, DoneForClose}
    && (c'.state == SendBody ==> c'.responseHeadersOffset == 0)
  }

  /** The body of the send loop for headers; `again` is its continue. */
  method SendHeadersOnce(conns: array<Connection>, slot: nat, k: Kernel, ghost body: string)
    returns (again: bool)
    requires slot < conns.Length && conns[slot].state == SendHeaders
    requires k.Valid() && conns[slot].clientFd in k.sockets
    requires InBounds(TxOf(conns[slot], body, ""))
    modifies conns, k`step, k`wire
    ensures k.Valid() && k.step == old(k.step) + 1
    ensures conns[..] == old(conns[..])[slot := conns[slot]]
    ensures HeadersSent(old(conns[slot]), conns[slot])
    ensures var fd, io := old(conns[slot].clientFd), k.script(old(k.step)).io;
            && TxOf(conns[slot], body, k.wire[fd]) == SendStep(old(TxOf(conns[slot], body, k.wire[fd])), io)
            && k.wire == old(k.wire)[fd := k.wire[fd]]
            && (again <==> conns[slot].state == SendHeaders && !io.WouldBlock?)
            && (again && !io.Interrupted? ==>
                  conns[slot].responseHeadersOffset > old(conns[slot].responseHeadersOffset))
  {
    hide Logged, SendStep, Kernel.Patient;
    ghost var was, wire := conns[slot], k.wire[conns[slot].clientFd];
    var c := conns[slot];
    var io := k.Send(c.clientFd, c.responseHeaders[c.responseHeadersOffset..]);
    again := false;
    match io {
      case Interrupted =>
        again := true;
      case WouldBlock =>
        if c.responseHeadersOffset == |c.responseHeaders| {
          c := c.(state := SendBody, responseHeadersOffset := 0);
        }
      case Failed =>
        c := c.(state := DoneForClose);
      case Moved(n) =>
        c := c.(responseHeadersOffset := c.responseHeadersOffset + n);
        if n == 0 {
          c := c.(state := DoneForClose);
        } else if c.responseHeadersOffset == |c.responseHeaders| {
          c := c.(state := SendBody, responseHeadersOffset := 0);
        } else {
          again := true;
        }
    }
    assert c == AfterSend(was, io);
    SendIsStep(was, body, wire, k.script(old(k.step)).io);
    conns[slot] := c;
  }

  /** The record after one answer of send. */
  function AfterSend(c: Connection, io: Io): Connection {
    match io
    case Interrupted => c
    case WouldBlock =>
      if c.responseHeadersOffset == |c.responseHeaders| then c.(state := SendBody, responseHeadersOffset := 0) else c
    case Failed => c.(state := DoneForClose)
    case Moved(n) =>
      var offset := c.responseHeadersOffset + n;
      if n == 0 then c.(state := DoneForClose)
      else if offset == |c.responseHeaders| then c.(state := SendBody, responseHeadersOffset := 0)
      else c.(responseHeadersOffset := offset)
  }

  lemma SendIsStep(c: Connection, body: string, wire: string, answer: Io)
    requires c.state == SendHeaders && InBounds(TxOf(c, body, wire))
    ensures var data := c.responseHeaders[c.responseHeadersOffset..];
            var io := Limited(answer, |data|);
            TxOf(AfterSend(c, io), body, if io.Moved? then wire + data[..io.count] else wire)
              == SendStep(TxOf(c, body, wire), answer)
  {
    var io := Limited(answer, |c.responseHeaders[c.responseHeadersOffset..]|);
    if io.Moved? {
      TakeAfter(c.responseHeaders, c.responseHeadersOffset, io.count);
      assert io.count == 0 ==> wire + "" == wire;
    }
  }

  lemma TakeAfter(s: string, a: nat, n: nat)
    requires a + n <= |s|
    ensures s[a..][..n] == s[a..a + n]
  {
  }

  method SendResponseHeaders(conns: array<Connection>, slot: nat, k: Kernel, ghost body: string)
    requires slot < conns.Length && conns[slot].state == SendHeaders
    requires k.Valid() && conns[slot].clientFd in k.sockets
    requires InBounds(TxOf(conns[slot], body, ""))
    modifies conns, k`step, k`wire
    ensures k.Valid() && k.step > old(k.step) && k.Patience() <= old(k.Patience())
    ensures conns[..] == old(conns[..])[slot := conns[slot]]
    ensures HeadersSent(old(conns[slot]), conns[slot])
    ensures conns[slot].state == SendHeaders ==> k.Patience() < old(k.Patience())
    ensures var fd := old(conns[slot].clientFd);
            && TxOf(conns[slot], body, k.wire[fd])
                 == SendRun(old(TxOf(conns[slot], body, k.wire[fd])), k.Answers(old(k.step), k.step))
            && k.wire == old(k.wire)[fd := k.wire[fd]]
  {
    hide Logged, SendStep, SendRun;
    ghost var c0, fd := conns[slot], conns[slot].clientFd;
    ghost var t0 := TxOf(c0, body, k.wire[fd]);
    SendRunNone(t0);
    assert k.Answers(k.step, k.step) == [];
    var again := true;
    while again
      invariant k.Valid() && k.step >= old(k.step) && (!again ==> k.step > old(k.step))
      invariant conns[..] == old(conns[..])[slot := conns[slot]]
      invariant HeadersSent(c0, conns[slot])
      invariant again ==> conns[slot].state == SendHeaders
      invariant !again && conns[slot].state == SendHeaders ==> k.Patience() < old(k.Patience())
      invariant k.wire == old(k.wire)[fd := k.wire[fd]]
      invariant InBounds(TxOf(conns[slot], body, k.wire[fd]))
      invariant TxOf(conns[slot], body, k.wire[fd]) == SendRun(t0, k.Answers(old(k.step), k.step))
      decreases again, k.Patience(), |conns[slot].responseHeaders| - conns[slot].responseHeadersOffset
    {
      k.AnswersSnoc(old(k.step), k.step);
      SendRunSnoc(t0, k.Answers(old(k.step), k.step), k.script(k.step).io);
      again := SendHeadersOnce(conns, slot, k, body);
    }
  }

  /** What sending the body may change: a body that is done is closed. */
  ghost predicate BodySent(c: Connection, c': Connection, files: map<nat, File>, files': map<nat, File>) {
    && c.bodyFd > 0
    && c' == c.(bodyOffset := c'.bodyOffset, state := c'.state, bodyFd := c'.bodyFd)
    && c'.state in {SendBody, Done, DoneForClose}
    && (if c'.state == Done then c'.bodyFd == -1 && c'.bodyOffset == 0 && files' == files - {c.bodyFd as nat}
        else c'.bodyFd == c.bodyFd && files' == files)
  }

  ghost predicate HoldsBody(c: Connection, files: map<nat, File>) {
    c.bodyFd > 0 && c.bodyFd in files && c.bodyLength == |files[c.bodyFd].text|
  }

  ghost function BodyText(c: Connection, files: map<nat, File>): string
    requires HoldsBody(c, files)
  {
    files[c.bodyFd].text
  }

  method SendFileOnce(conns: array<Connection>, slot: nat, k: Kernel) returns (again: bool)
    requires slot < conns.Length && conns[slot].state == SendBody
    requires k.Valid() && conns[slot].clientFd in k.sockets
    requires HoldsBody(conns[slot], k.files)
    requires InBounds(TxOf(conns[slot], BodyText(conns[slot], k.files), ""))
    modifies conns, k`step, k`wire, k`files
    ensures k.Valid() && k.step == old(k.step) + 1
    ensures conns[..] == old(conns[..])[slot := conns[slot]]
    ensures BodySent(old(conns[slot]), conns[slot], old(k.files), k.files)
    ensures var fd, io := old(conns[slot].clientFd), k.script(old(k.step)).io;
            var body := old(BodyText(conns[slot], k.files));
            && TxOf(conns[slot], body, k.wire[fd]) == SendStep(old(TxOf(conns[slot], body, k.wire[fd])), io)
            && k.wire == old(k.wire)[fd := k.wire[fd]]
            && (again <==> conns[slot].state == SendBody && !io.WouldBlock?)
            && (again && !io.Interrupted? ==> conns[slot].bodyOffset > old(conns[slot].bodyOffset))
  {
    hide Logged, SendStep, Kernel.Patient;
    ghost var was, wire := conns[slot], k.wire[conns[slot].clientFd];
    var c := conns[slot];
    var body := k.files[c.bodyFd].text;
    var io := k.Send(c.clientFd, body[c.bodyOffset..]);
    again := false;
    match io {
      case Interrupted =>
        again := true;
      case WouldBlock =>
        if c.bodyOffset == c.bodyLength {
          k.CloseFile(c.bodyFd);
          c := c.(state := Done, bodyOffset := 0, bodyFd := -1);
        }
      case Failed =>
        c := c.(state := DoneForClose);
      case Moved(n) =>
        c := c.(bodyOffset := c.bodyOffset + n);
        if n == 0 {
          c := c.(state := DoneForClose);
        } else if c.bodyOffset == c.bodyLength {
          k.CloseFile(c.bodyFd);
          c := c.(state := Done, bodyOffset := 0, bodyFd := -1);
        } else {
          again := true;
        }
    }
    assert c == AfterSendfile(was, io);
    SendfileIsStep(was, body, wire, k.script(old(k.step)).io);
    conns[slot] := c;
  }

  /** The record after one answer of sendfile. */
  function AfterSendfile(c: Connection, io: Io): Connection {
    match io
    case Interrupted => c
    case WouldBlock => if c.bodyOffset == c.bodyLength then c.(state := Done, bodyOffset := 0, bodyFd := -1) else c
    case Failed => c.(state := DoneForClose)
    case Moved(n) =>
      if n == 0 then c.(state := DoneForClose)
      else if c.bodyOffset + n == c.bodyLength then c.(state := Done, bodyOffset := 0, bodyFd := -1)
      else c.(bodyOffset := c.bodyOffset + n)
  }

  lemma SendfileIsStep(c: Connection, body: string, wire: string, answer: Io)
    requires c.state == SendBody && c.bodyLength == |body| && InBounds(TxOf(c, body, wire))
    ensures var io := Limited(answer, |body[c.bodyOffset..]|);
            TxOf(AfterSendfile(c, io), body, if io.Moved? then wire + body[c.bodyOffset..][..io.count] else wire)
              == SendStep(TxOf(c, body, wire), answer)
  {
    var io := Limited(answer, |body[c.bodyOffset..]|);
    if io.Moved? {
      TakeAfter(body, c.bodyOffset, io.count);
      assert io.count == 0 ==> wire + "" == wire;
    }
  }

  /** The sendfile loop, once there is a body to send. */
  method SendFileLoop(conns: array<Connection>, slot: nat, k: Kernel)
    requires slot < conns.Length && conns[slot].state == SendBody
    requires k.Valid() && conns[slot].clientFd in k.sockets
    requires HoldsBody(conns[slot], k.files)
    requires InBounds(TxOf(conns[slot], BodyText(conns[slot], k.files), ""))
    modifies conns, k`step, k`wire, k`files
    ensures k.Valid() && k.step >= old(k.step) && k.Patience() <= old(k.Patience())
    ensures conns[..] == old(conns[..])[slot := conns[slot]]
    ensures conns[slot].state == SendBody ==> k.Patience() < old(k.Patience())
    ensures BodySent(old(conns[slot]), conns[slot], old(k.files), k.files)
    ensures var fd, body := old(conns[slot].clientFd), old(BodyText(conns[slot], k.files));
            && TxOf(conns[slot], body, k.wire[fd])
                 == SendRun(old(TxOf(conns[slot], body, k.wire[fd])), k.Answers(old(k.step), k.step))
            && k.wire == old(k.wire)[fd := k.wire[fd]]
  {
    hide Logged, SendStep, SendRun;
    ghost var c0, fd := conns[slot], conns[slot].clientFd;
    ghost var body := k.files[c0.bodyFd].text;
    ghost var t0 := TxOf(c0, body, k.wire[fd]);
    SendRunNone(t0);
    assert k.Answers(k.step, k.step) == [];
    var again := true;
    while again
      invariant k.Valid() && k.step >= old(k.step)
      invariant conns[..] == old(conns[..])[slot := conns[slot]]
      invariant BodySent(c0, conns[slot], old(k.files), k.files)
      invariant again ==> conns[slot].state == SendBody
      invariant !again && conns[slot].state == SendBody ==> k.Patience() < old(k.Patience())
      invariant k.wire == old(k.wire)[fd := k.wire[fd]]
      invariant InBounds(TxOf(conns[slot], body, k.wire[fd]))
      invariant TxOf(conns[slot], body, k.wire[fd]) == SendRun(t0, k.Answers(old(k.step), k.step))
      decreases again, k.Patience(), |body| - conns[slot].bodyOffset
    {
      k.AnswersSnoc(old(k.step), k.step);
      SendRunSnoc(t0, k.Answers(old(k.step), k.step), k.script(k.step).io);
      again := SendFileOnce(conns, slot, k);
    }
  }

  method SendResponseFile(conns: array<Connection>, slot: nat, k: Kernel)
    requires slot < conns.Length && conns[slot].state == SendBody
    requires k.Valid() && conns[slot].clientFd in k.sockets
    requires conns[slot].bodyFd != -1 ==>
               && HoldsBody(conns[slot], k.files)
               && InBounds(TxOf(conns[slot], BodyText(conns[slot], k.files), ""))
    modifies conns, k`step, k`wire, k`files
    ensures k.Valid() && k.step >= old(k.step) && k.Patience() <= old(k.Patience())
    ensures conns[..] == old(conns[..])[slot := conns[slot]]
    ensures old(conns[slot].bodyFd) == -1 ==>
              && conns[slot] == old(conns[slot]).(state := Done, bodyOffset := 0)
              && k.files == old(k.files) && k.wire == old(k.wire)
    ensures conns[slot].state == SendBody ==> k.Patience() < old(k.Patience())
    ensures old(conns[slot].bodyFd) != -1 ==>
              var fd, body := old(conns[slot].clientFd), old(BodyText(conns[slot], k.files));
              && BodySent(old(conns[slot]), conns[slot], old(k.files), k.files)
              && TxOf(conns[slot], body, k.wire[fd])
                   == SendRun(old(TxOf(conns[slot], body, k.wire[fd])), k.Answers(old(k.step), k.step))
              && k.wire == old(k.wire)[fd := k.wire[fd]]
  {
    if conns[slot].bodyFd == -1 {
      conns[slot] := conns[slot].(state := Done, bodyOffset := 0);
      return;
    }
    SendFileLoop(conns, slot, k);
  }

  // ---------- What reaches the wire ----------

  /** The bytes sent since `start` are the headers up to their offset, then the body up to its
      offset: a prefix of headers and body, and all of it once the response is done. */
  ghost predicate Streamed(t: Tx, start: string) {
    && InBounds(t)
    && (t.state == SendHeaders ==> t.bodyOffset == 0 && t.wire == start + t.headers[..t.headersOffset])
    && (t.state == SendBody ==> t.headersOffset == 0 && t.wire == (start + t.headers) + t.body[..t.bodyOffset])
    && (t.state == Done ==> t.wire == start + t.headers + t.body)
    && (t.state == DoneForClose ==> start <= t.wire <= start + t.headers + t.body)
    && t.state != Recv
  }

  lemma Extend(start: string, text: string, a: nat, b: nat)
    requires a <= b <= |text|
    ensures start + text[..a] + text[a..b] == start + text[..b]
    ensures start <= start + text[..b] <= start + text
    ensures text[a..a] == "" && text[..|text|] == text
  {
    assert text[..a] + text[a..b] == text[..b];
  }

  lemma HeadersStepStreams(t: Tx, io: Io, start: string)
    requires Streamed(t, start) && t.state == SendHeaders
    ensures Streamed(SendStep(t, io), start)
  {
    var n := Limited(io, |t.headers| - t.headersOffset);
    var offset := t.headersOffset + if n.Moved? then n.count else 0;
    Extend(start, t.headers, t.headersOffset, offset);
    assert start + t.headers[..offset] <= start + t.headers <= start + t.headers + t.body;
  }

  lemma BodyStepStreams(t: Tx, io: Io, start: string)
    requires Streamed(t, start) && t.state == SendBody
    ensures Streamed(SendStep(t, io), start)
  {
    var n := Limited(io, |t.body| - t.bodyOffset);
    var offset := t.bodyOffset + if n.Moved? then n.count else 0;
    Extend(start + t.headers, t.body, t.bodyOffset, offset);
  }

  lemma SendStepStreams(t: Tx, io: Io, start: string)
    requires Streamed(t, start)
    ensures Streamed(SendStep(t, io), start)
    ensures SendStep(t, io).headers == t.headers && SendStep(t, io).body == t.body
  {
    if t.state == SendHeaders {
      HeadersStepStreams(t, io, start);
    } else if t.state == SendBody {
      BodyStepStreams(t, io, start);
    }
  }

  /** Stream integrity: for every sequence of short writes, EINTR, EAGAIN and errors, what has been
      sent is a prefix of headers and body, and a response that is done has been sent whole. */
  lemma {:induction false} ResponseStreams(t: Tx, answers: seq<Io>, start: string)
    requires Streamed(t, start)
    ensures Streamed(SendRun(t, answers), start)
    ensures SendRun(t, answers).headers == t.headers && SendRun(t, answers).body == t.body
    decreases |answers|
  {
    if answers != [] {
      var front := answers[..|answers| - 1];
      ResponseStreams(t, front, start);
      SendStepStreams(SendRun(t, front), answers[|answers| - 1], start);
    }
  }

  function Transfers(answers: seq<Io>): nat {
    if answers == [] then 0
    else Transfers(answers[..|answers| - 1]) + if answers[|answers| - 1].Moved? then 1 else 0
  }

  /** Bytes still to go. */
  function Left(t: Tx): nat
    requires InBounds(t)
  {
    match t.state
    case SendHeaders => |t.headers| - t.headersOffset + |t.body|
    case SendBody => |t.body| - t.bodyOffset
    case _ => 0
  }

  /** A response on its way, with something left to send and a body. */
  predicate Underway(t: Tx) {
    && InBounds(t) && t.body != ""
    && match t.state
       case SendHeaders => t.headersOffset < |t.headers| && t.bodyOffset == 0
       case SendBody => t.bodyOffset < |t.body|
       case _ => false
  }

  lemma {:induction false} ProductiveProgress(t: Tx, answers: seq<Io>)
    requires Underway(t) && Productive(answers)
    ensures var r := SendRun(t, answers);
            && r.headers == t.headers && r.body == t.body && (Underway(r) || r.state == Done)
            && (Underway(r) ==> Left(r) + Transfers(answers) <= Left(t))
    decreases |answers|
  {
    if answers != [] {
      ProductiveProgress(t, answers[..|answers| - 1]);
    }
  }

  /** A response with a body is done, and has been sent whole, once a kernel that neither fails nor
      stalls has answered as many transfers as there are bytes. */
  lemma ProductiveKernelFinishes(t: Tx, answers: seq<Io>)
    requires Streamed(t, "") && t.state == SendHeaders && t.headersOffset < |t.headers| && t.body != ""
    requires Productive(answers) && Transfers(answers) >= Left(t)
    ensures SendRun(t, answers).state == Done && SendRun(t, answers).wire == t.headers + t.body
  {
    hide SendStep, SendRun, Transfers;
    ProductiveProgress(t, answers);
    ResponseStreams(t, answers, "");
    var r := SendRun(t, answers);
    assert "" + r.headers + r.body == r.headers + r.body;
  }

  /** A response with an empty body is done only through EAGAIN: the first answer of sendfile that
      is not EINTR decides, and anything else closes the connection. */
  lemma {:induction false} EmptyBody(t: Tx, interruptions: nat, io: Io)
    requires InBounds(t) && t.state == SendBody && t.body == "" && io != Interrupted
    ensures SendRun(t, seq(interruptions, _ => Interrupted) + [io]).state
         == if io == WouldBlock then Done else DoneForClose
  {
    Interruptions(t, interruptions);
    SendRunSnoc(t, seq(interruptions, _ => Interrupted), io);
  }

  lemma {:induction false} Interruptions(t: Tx, n: nat)
    requires InBounds(t) && t.state in {SendHeaders, SendBody}
    ensures SendRun(t, seq(n, _ => Interrupted)) == t
  {
    if n > 0 {
      Interruptions(t, n - 1);
      assert seq(n, _ => Interrupted) == seq(n - 1, _ => Interrupted) + [Interrupted];
      SendRunSnoc(t, seq(n - 1, _ => Interrupted), Interrupted);
    }
  }
}
