/** Serving one ready client: the do-while over the connection's state, which holds a slot of the
    heap array throughout. */
module Serving {
  import opened Connections
  import opened CStrings
  import opened HeapModel
  import opened Kernels
  import opened ConnectionQueue
  import QueueRuns
  import opened History
  import opened Receive
  import opened Request
  import RequestProofs
  import opened Response
  import opened ResponseHead

  // ---------- Between events ----------

  /** Between events every entry is as fresh as when it was made, and belongs to an open client. */
  ghost predicate SettledMap(m: map<nat, Connection>, now: int, clients: set<nat>) {
    forall fd | fd in m ::
      m[fd] == FreshConnection(fd, m[fd].priorityTime) && m[fd].priorityTime <= now && fd in clients
  }

  ghost predicate Settled(q: QueueConnections, k: Kernel)
    reads q, q.connections, q.indexQueue, k
  {
    && q.Valid() && k.Valid() && k.limit == q.capacity
    && Coherent(q.Model()) && SettledMap(Contents(q.Model()), k.now, k.sockets)
    && Tracked(q.Model(), k.log, q.repaired)
    && k.armed.Keys == k.sockets
    && k.files == map[]
  }

  lemma SettledIsReady(q: Queue, now: int, clients: set<nat>)
    requires Coherent(q) && SettledMap(Contents(q), now, clients)
    ensures QueueRuns.Ready(q, now)
  {
    QueueRuns.NotAfterContents(q, now);
  }

  // ---------- One connection in flight ----------

  /** What an event starts from: the bytes its client has yet to deliver, the bytes already on its
      wire, and the old contents of the buffers that sscanf fills. */
  datatype Start = Start(stream: string, wire: string, stale: RequestLine)

  predicate Supported(version: string) {
    version == "HTTP/1.0" || version == "HTTP/1.1"
  }

  /** No body is there yet. */
  const NO_FILE := File(Page(""), "", "", "")

  /** The request in the buffer is complete and came from the client. */
  predicate RequestRead(c: Connection, s: Start) {
    c.requestBuffer <= s.stream && IsRequestComplete(c.requestBuffer)
  }

  /** No response has been made. */
  predicate Unmade(c: Connection, files: map<nat, File>, wire: string, s: Start) {
    c.responseHeaders == "" && c.bodyFd == -1 && files == map[] && wire == s.wire
  }

  /** The response answers the request in the buffer and announces its body. */
  ghost predicate Answers(c: Connection, s: Start, body: File) {
    && RequestRead(c, s)
    && c.responseHeaders != "" && Announces(c.responseHeaders, |body.text|)
    && var p := ParseRequest(c.requestBuffer, s.stale);
    && Acceptable(p)
    && c.requestHeaders == p.headers && c.keepAlive == WantsKeepAlive(p.headers)
    && c.protocolVersion == p.line.version && c.path == p.line.path && c.absolutePath == RealPath(p.line.path)
    && c.requestBody == p.body && HasHead(c, body)
  }

  /** The header block is one that the server makes for the request, and the body is what it says. */
  ghost predicate HasHead(c: Connection, body: File) {
    exists result: OpenResult ::
      && IsHead(c.responseHeaders, c.protocolVersion, StatusOf(result), AcceptsGzip(c.requestHeaders), c.keepAlive,
                |body.text|, MediaType(Original(body).media), Original(body).modified)
      && IsBody(body, c.absolutePath, result, AcceptsGzip(c.requestHeaders))
  }

  /** What sending changes in a record makes no other answer of it. */
  lemma SameAnswer(c: Connection, c': Connection, s: Start, body: File)
    requires c' == c.(state := c'.state, responseHeadersOffset := c'.responseHeadersOffset,
                      bodyOffset := c'.bodyOffset, bodyFd := c'.bodyFd)
    ensures Answers(c', s, body) <==> Answers(c, s, body)
    ensures Answers(c, s, body) ==> RequestRead(c', s) && c'.responseHeaders != ""
  {
    assert HasHead(c', body) <==> HasHead(c, body);
  }

  /** Exactly the body of this connection is open. */
  predicate HoldsOnly(c: Connection, files: map<nat, File>, body: File) {
    c.bodyFd > 0 && files == map[c.bodyFd as nat := body] && c.bodyLength == |body.text|
  }

  ghost predicate Stage(c: Connection, files: map<nat, File>, pending: string, wire: string,
                        s: Start, body: File)
  {
    match c.state
    case Recv =>
      Receiving(c) && Unmade(c, files, wire, s) && c.requestHeaders == [] && c.requestBody == ""
      && Faithful(RxOf(c, pending), s.stream)
    case SendHeaders =>
      RequestRead(c, s)
      && ((Unmade(c, files, wire, s) && c.requestHeaders == [] && c.requestBody == "")
          || (Answers(c, s, body) && HoldsOnly(c, files, body) && Streamed(TxOf(c, body.text, wire), s.wire)))
    case SendBody =>
      Answers(c, s, body) && HoldsOnly(c, files, body) && Streamed(TxOf(c, body.text, wire), s.wire)
    case Done =>
      Answers(c, s, body) && c.bodyFd == -1 && files == map[] && wire == s.wire + c.responseHeaders + body.text
    case DoneForClose =>
      || Unmade(c, files, wire, s)
      || (Answers(c, s, body) && HoldsOnly(c, files, body) && s.wire <= wire <= s.wire + c.responseHeaders + body.text)
      || (Answers(c, s, body) && c.bodyFd == -1 && files == map[] && !c.keepAlive
          && wire == s.wire + c.responseHeaders + body.text)
  }

  predicate Acceptable(p: Parsed) {
    p.Parsed? && Supported(p.line.version) && p.line.path != "/hello"
  }

  /** The client sends a request that is complete, fits the buffer and asks for a file. */
  predicate Answerable(s: Start) {
    && IsRequestComplete(s.stream) && EndOf(s.stream) <= BUFFER_REQUEST_SIZE
    && Acceptable(ParseRequest(s.stream[..EndOf(s.stream)], s.stale))
  }

  /** The whole response is on the wire. */
  ghost predicate Answered(c: Connection, wire: string, s: Start, body: File) {
    Answers(c, s, body) && wire == s.wire + c.responseHeaders + body.text
  }

  /** An answerable request is on its way to being answered. */
  ghost predicate OnTrack(c: Connection, wire: string, s: Start, body: File) {
    match c.state
    case Recv => true
    case SendHeaders => c.responseHeaders == "" || Underway(TxOf(c, body.text, wire))
    case SendBody => Underway(TxOf(c, body.text, wire))
    case Done => true
    case DoneForClose => Answered(c, wire, s, body) && !c.keepAlive
  }

  /** An answerable request stays on track, if the kernel is helpful. */
  ghost predicate StaysOnTrack(k: Kernel, from: nat, to: nat, c: Connection, wire: string,
                               c': Connection, wire': string, s: Start, body: File, body': File)
  {
    Answerable(s) && k.Helped(from, to) && OnTrack(c, wire, s, body) ==> OnTrack(c', wire', s, body')
  }

  /** No byte of the stream is lost: what is not in the buffer is still to be delivered. If the first
      transfer brings a complete request, the buffer holds just those bytes. */
  ghost predicate Drawn(k: Kernel, c: Connection, pending: string, s: Start) {
    && c.requestBuffer + pending == s.stream
    && forall n: nat | k.Steady(n) && IsRequestComplete(FirstPart(s.stream, n)) ::
         c.requestBuffer == if c.state == Recv then "" else FirstPart(s.stream, n)
  }

  lemma ReceivingDraws(k: Kernel, c: Connection, r0: Rx, c': Connection, pending: string,
                       from: nat, to: nat, s: Start)
    requires c.state == Recv && from < to && Faithful(r0, s.stream) && |r0.buffer| <= BUFFER_REQUEST_SIZE
    requires r0 == RxOf(c, r0.pending) && RxOf(c', pending) == RecvRun(r0, k.Answers(from, to))
    requires Drawn(k, c, r0.pending, s)
    ensures Drawn(k, c', pending, s)
  {
    hide RecvRun, IsRequestComplete;
    RecvRunFaithful(r0, k.Answers(from, to), s.stream);
    forall n: nat | k.Steady(n) && IsRequestComplete(FirstPart(s.stream, n))
      ensures c'.requestBuffer == FirstPart(s.stream, n) && c'.state == SendHeaders
    {
      assert "" + r0.pending == r0.pending;
      SteadyReceive(s.stream, n, k.Answers(from, to));
    }
  }

  /** Sending draws nothing. */
  lemma SendingDrawsNothing(k: Kernel, c: Connection, c': Connection, pending: string, s: Start)
    requires c.state != Recv && c'.state != Recv && c'.requestBuffer == c.requestBuffer
    requires Drawn(k, c, pending, s)
    ensures Drawn(k, c', pending, s)
  {
  }

  function Rank(state: ConnectionState): nat {
    match state
    case Recv => 4
    case SendHeaders => 3
    case SendBody => 2
    case Done => 1
    case DoneForClose => 0
  }

  /** Progress of the state machine: never backwards, and standing still costs a would-block. */
  twostate predicate Progress(k: Kernel, before: ConnectionState, after: ConnectionState)
    reads k
  {
    && k.step >= old(k.step) && k.Patience() <= old(k.Patience())
    && Rank(after) <= Rank(before)
    && (after == before ==> k.Patience() < old(k.Patience()))
  }

  /** The parts of a record that the state machine never writes. */
  predicate SameIdentity(c: Connection, c': Connection) {
    c'.clientFd == c.clientFd && c'.priorityTime == c.priorityTime
  }

  // ---------- One turn per state ----------

  method OnRecv(conns: array<Connection>, slot: nat, k: Kernel, ghost s: Start)
    requires slot < conns.Length && conns[slot].state == Recv
    requires k.Valid() && conns[slot].clientFd in k.sockets
    requires Stage(conns[slot], k.files, k.incoming[conns[slot].clientFd], k.wire[conns[slot].clientFd], s, NO_FILE)
    modifies conns, k`step, k`incoming
    ensures k.Valid() && conns[..] == old(conns[..])[slot := conns[slot]]
    ensures SameIdentity(old(conns[slot]), conns[slot])
    ensures Progress(k, Recv, conns[slot].state)
    ensures var fd := conns[slot].clientFd;
            && Stage(conns[slot], k.files, k.incoming[fd], k.wire[fd], s, NO_FILE)
            && k.incoming == old(k.incoming)[fd := k.incoming[fd]]
            && StaysOnTrack(k, old(k.step), k.step, old(conns[slot]), k.wire[fd], conns[slot], k.wire[fd], s,
                            NO_FILE, NO_FILE)
            && (Drawn(k, old(conns[slot]), old(k.incoming[fd]), s) ==> Drawn(k, conns[slot], k.incoming[fd], s))
  {
    hide Logged, Drawn;
    ghost var fd := conns[slot].clientFd;
    ghost var c, r0, from := conns[slot], RxOf(conns[slot], k.incoming[fd]), k.step;
    RecvRequest(conns, slot, k);
    RecvRunFaithful(r0, k.Answers(from, k.step), s.stream);
    if Drawn(k, c, r0.pending, s) {
      ReceivingDraws(k, c, r0, conns[slot], k.incoming[fd], from, k.step, s);
    }
    if Answerable(s) && k.Helped(from, k.step) {
      k.HelpedIsProductive(from, k.step);
      ProductiveReceive(r0, s.stream, k.Answers(from, k.step));
    }
  }

  /** What has been received of an answerable request, once it is complete, is acceptable. */
  lemma AnswerableBuffer(c: Connection, s: Start)
    requires Answerable(s) && RequestRead(c, s)
    ensures Acceptable(ParseRequest(c.requestBuffer, s.stale))
  {
    hide ParseRequest, IsRequestComplete, Supported;
    var n := |c.requestBuffer|;
    assert c.requestBuffer == s.stream[..n];
    CompleteAtEnd(Rx(c.requestBuffer, s.stream[n..], SendHeaders), s.stream);
    RequestProofs.SameLine(s.stream, n, s.stale);
  }

  lemma SupportedIsOneLine(version: string)
    requires Supported(version)
    ensures FreeOf(version, CRLF)
  {
  }

  /** A connection sent to close, with what the parser had stored when it gave up. */
  predicate Rejected(c: Connection, c': Connection, p: Parsed) {
    || c' == c.(state := DoneForClose)
    || (c' == Filled(c, p).(state := DoneForClose) && !Acceptable(p))
  }

  /** Which canned response a request gets that is not for a file. */
  function Refusal(peerKnown: bool, p: Parsed): Canned {
    if !peerKnown || !p.Parsed? then BadRequest
    else if p.line.version !in {"HTTP/1.0", "HTTP/1.1"} then VersionNotSupported(p.line.version)
    else Hello
  }

  /** No canned response was sent; or one was, for a request that is not for a file, and the connection is
      to be closed. */
  ghost predicate Noticed(was: seq<Notice>, now: seq<Notice>, c: Connection, stale: RequestLine) {
    || now == was
    || (c.state == DoneForClose
        && exists known: bool ::
             var p := ParseRequest(c.requestBuffer, stale);
             !(known && Acceptable(p)) && now == was + [Notice(c.clientFd, Refusal(known, p))])
  }

  /** Parsing the request and checking protocol and path; anything but a request for a file gets a
      canned response and sends the connection to close. */
  method CheckRequest(conns: array<Connection>, slot: nat, k: Kernel, stale: RequestLine) returns (ok: bool)
    requires slot < conns.Length && conns[slot].requestHeaders == []
    requires conns[slot].clientFd in k.sockets
    modifies conns, k`step, k`notices
    ensures k.step > old(k.step) && conns[..] == old(conns[..])[slot := conns[slot]]
    ensures var c, p := old(conns[slot]), ParseRequest(old(conns[slot].requestBuffer), stale);
            var known := k.script(old(k.step)).peerKnown;
            && (ok <==> known && Acceptable(p))
            && (if ok then conns[slot] == Filled(c, p) else Rejected(c, conns[slot], p))
            && k.notices == old(k.notices) + if ok then [] else [Notice(c.clientFd, Refusal(known, p))]
  {
    hide ParseRequest;
    var fd := conns[slot].clientFd;
    ok := ProcessRequest(conns, slot, k, stale);
    if !ok {
      k.SendCanned(fd, BadRequest);
      conns[slot] := conns[slot].(state := DoneForClose);
      return;
    }
    var protocol := conns[slot].protocolVersion;
    if protocol != "HTTP/1.0" && protocol != "HTTP/1.1" {
      ok := false;
      k.SendCanned(fd, VersionNotSupported(protocol));
      conns[slot] := conns[slot].(state := DoneForClose);
      return;
    }
    if conns[slot].path == "/hello" {
      ok := false;
      k.SendCanned(fd, Hello);
      conns[slot] := conns[slot].(state := DoneForClose);
    }
  }

  lemma RejectedStage(c: Connection, c': Connection, files: map<nat, File>, wire: string, s: Start, body: File)
    requires c.state == SendHeaders && c.requestHeaders == [] && Stage(c, files, "", wire, s, body)
    requires Rejected(c, c', ParseRequest(c.requestBuffer, s.stale))
    ensures Stage(c', files, "", wire, s, body)
  {
    hide ParseRequest, IsHead, Announces, WantsKeepAlive, AcceptsGzip, HasHead, IsRequestComplete;
    SameAnswer(c, c.(state := DoneForClose), s, body);
  }

  /** A request parsed again, because it has no field lines, gives the same answer. */
  lemma AcceptedStage(c: Connection, files: map<nat, File>, wire: string, s: Start, body: File)
    requires c.state == SendHeaders && c.requestHeaders == [] && Stage(c, files, "", wire, s, body)
    requires Acceptable(ParseRequest(c.requestBuffer, s.stale))
    ensures var c' := Filled(c, ParseRequest(c.requestBuffer, s.stale));
            Accepted(c', files, wire, s, body) && (OnTrack(c, wire, s, body) ==> OnTrack(c', wire, s, body))
  {
    hide ParseRequest, IsHead, Announces, WantsKeepAlive, AcceptsGzip, IsRequestComplete;
  }

  /** Ready to send headers, once a response has been made if there is none. */
  ghost predicate Accepted(c: Connection, files: map<nat, File>, wire: string, s: Start, body: File) {
    && c.state == SendHeaders
    && if c.responseHeaders == "" then
         var p := ParseRequest(c.requestBuffer, s.stale);
         && RequestRead(c, s) && Unmade(c, files, wire, s) && Acceptable(p)
         && c.requestHeaders == p.headers && c.protocolVersion == p.line.version && c.path == p.line.path
         && c.absolutePath == RealPath(p.line.path) && c.requestBody == p.body
       else
         Answers(c, s, body) && HoldsOnly(c, files, body) && Streamed(TxOf(c, body.text, wire), s.wire)
  }

  method OnSendHeaders(conns: array<Connection>, slot: nat, k: Kernel, stale: RequestLine,
                       ghost s: Start, ghost body0: File) returns (ghost body: File)
    requires slot < conns.Length && conns[slot].state == SendHeaders && s.stale == stale
    requires k.Valid() && conns[slot].clientFd in k.sockets
    requires Stage(conns[slot], k.files, "", k.wire[conns[slot].clientFd], s, body0)
    modifies conns, k`step, k`files, k`wire, k`notices
    ensures k.Valid() && conns[..] == old(conns[..])[slot := conns[slot]]
    ensures SameIdentity(old(conns[slot]), conns[slot])
    ensures conns[slot].requestBuffer == old(conns[slot].requestBuffer)
            && conns[slot].state != Recv
    ensures Progress(k, SendHeaders, conns[slot].state)
    ensures var fd := conns[slot].clientFd;
            && Stage(conns[slot], k.files, "", k.wire[fd], s, body)
            && k.wire == old(k.wire)[fd := k.wire[fd]]
            && StaysOnTrack(k, old(k.step), k.step, old(conns[slot]), old(k.wire[fd]), conns[slot], k.wire[fd],
                            s, body0, body)
    ensures Noticed(old(k.notices), k.notices, conns[slot], stale)
  {
    hide Logged, ParseRequest, IsRequestComplete, Stage, Answerable, OnTrack, Accepted, RequestRead;
    ghost var c, fd, from := conns[slot], conns[slot].clientFd, k.step;
    body := body0;
    StageRead(c, k.files, k.wire[fd], s, body);
    if conns[slot].requestHeaders == [] {
      var ok := CheckRequest(conns, slot, k, stale);
      if !ok {
        if Answerable(s) && k.Helped(from, k.step) {
          AnswerableBuffer(c, s);
        }
        RejectedStage(c, conns[slot], k.files, k.wire[fd], s, body);
        return;
      }
      AcceptedStage(c, k.files, k.wire[fd], s, body);
    } else {
      AlreadyMade(c, k.files, k.wire[fd], s, body);
    }
    ghost var checked := k.step;
    body := Respond(conns, slot, k, s, body);
    assert k.Helped(from, k.step) ==> k.Helped(checked, k.step);
  }

  /** Make a response if there is none, and send its headers. */
  method Respond(conns: array<Connection>, slot: nat, k: Kernel, ghost s: Start, ghost body0: File)
    returns (ghost body: File)
    requires slot < conns.Length && conns[slot].state == SendHeaders
    requires k.Valid() && conns[slot].clientFd in k.sockets
    requires Accepted(conns[slot], k.files, k.wire[conns[slot].clientFd], s, body0)
    modifies conns, k`step, k`files, k`wire
    ensures k.Valid() && conns[..] == old(conns[..])[slot := conns[slot]]
    ensures SameIdentity(old(conns[slot]), conns[slot])
    ensures conns[slot].requestBuffer == old(conns[slot].requestBuffer)
            && conns[slot].state != Recv
    ensures Progress(k, SendHeaders, conns[slot].state)
    ensures var fd := conns[slot].clientFd;
            && Stage(conns[slot], k.files, "", k.wire[fd], s, body)
            && k.wire == old(k.wire)[fd := k.wire[fd]]
            && StaysOnTrack(k, old(k.step), k.step, old(conns[slot]), old(k.wire[fd]), conns[slot], k.wire[fd],
                            s, body0, body)
  {
    hide ParseRequest, WantsKeepAlive, Announces, IsRequestComplete, Streamed, Stage, Answerable;
    hide Logged, Underway, IsHead, AcceptsGzip, Supported;
    ghost var from := k.step;
    body := body0;
    if conns[slot].responseHeaders == "" {
      SupportedIsOneLine(conns[slot].protocolVersion);
      MakeResponse(conns, slot, k);
      body := k.files[conns[slot].bodyFd];
      FreshResponse(conns[slot], k.wire[conns[slot].clientFd], s, body);
    }
    ghost var ready := k.step;
    SendHeadersStage(conns, slot, k, s, body);
    assert k.Helped(from, k.step) ==> k.Helped(from, ready) && k.Helped(ready, k.step);
  }

  lemma StageRead(c: Connection, files: map<nat, File>, wire: string, s: Start, body: File)
    requires c.state == SendHeaders && Stage(c, files, "", wire, s, body)
    ensures RequestRead(c, s)
  {
  }

  lemma AlreadyMade(c: Connection, files: map<nat, File>, wire: string, s: Start, body: File)
    requires c.state == SendHeaders && c.requestHeaders != [] && Stage(c, files, "", wire, s, body)
    ensures Accepted(c, files, wire, s, body) && c.responseHeaders != ""
  {
  }

  lemma FreshResponse(c: Connection, wire: string, s: Start, body: File)
    requires c.state == SendHeaders && c.responseHeadersOffset == 0 && c.bodyOffset == 0 && wire == s.wire
    ensures Streamed(TxOf(c, body.text, wire), s.wire)
    ensures c.responseHeaders != "" && body.text != "" ==> Underway(TxOf(c, body.text, wire))
  {
    assert c.responseHeaders[..0] == "";
  }

  method SendHeadersStage(conns: array<Connection>, slot: nat, k: Kernel, ghost s: Start, ghost body: File)
    requires slot < conns.Length && conns[slot].state == SendHeaders
    requires k.Valid() && conns[slot].clientFd in k.sockets
    requires Answers(conns[slot], s, body) && HoldsOnly(conns[slot], k.files, body)
    requires Streamed(TxOf(conns[slot], body.text, k.wire[conns[slot].clientFd]), s.wire)
    modifies conns, k`step, k`wire
    ensures k.Valid() && conns[..] == old(conns[..])[slot := conns[slot]]
    ensures SameIdentity(old(conns[slot]), conns[slot])
    ensures conns[slot].requestBuffer == old(conns[slot].requestBuffer)
            && conns[slot].state != Recv
    ensures Progress(k, SendHeaders, conns[slot].state)
    ensures var fd := conns[slot].clientFd;
            && Stage(conns[slot], k.files, "", k.wire[fd], s, body)
            && k.wire == old(k.wire)[fd := k.wire[fd]]
            && StaysOnTrack(k, old(k.step), k.step, old(conns[slot]), old(k.wire[fd]), conns[slot], k.wire[fd],
                            s, body, body)
  {
    hide Logged, Answers, Answerable;
    ghost var fd := conns[slot].clientFd;
    ghost var c, t, from := conns[slot], TxOf(conns[slot], body.text, k.wire[fd]), k.step;
    SendResponseHeaders(conns, slot, k, body.text);
    SameAnswer(c, conns[slot], s, body);
    ResponseStreams(t, k.Answers(from, k.step), s.wire);
    if k.Helped(from, k.step) && Underway(t) {
      k.HelpedIsProductive(from, k.step);
      ProductiveProgress(t, k.Answers(from, k.step));
    }
  }

  method OnSendBody(conns: array<Connection>, slot: nat, k: Kernel, ghost s: Start, ghost body: File)
    requires slot < conns.Length && conns[slot].state == SendBody
    requires k.Valid() && conns[slot].clientFd in k.sockets
    requires Stage(conns[slot], k.files, "", k.wire[conns[slot].clientFd], s, body)
    modifies conns, k`step, k`files, k`wire
    ensures k.Valid() && conns[..] == old(conns[..])[slot := conns[slot]]
    ensures SameIdentity(old(conns[slot]), conns[slot])
    ensures conns[slot].requestBuffer == old(conns[slot].requestBuffer)
            && conns[slot].state != Recv
    ensures Progress(k, SendBody, conns[slot].state)
    ensures var fd := conns[slot].clientFd;
            && Stage(conns[slot], k.files, "", k.wire[fd], s, body)
            && k.wire == old(k.wire)[fd := k.wire[fd]]
            && StaysOnTrack(k, old(k.step), k.step, old(conns[slot]), old(k.wire[fd]), conns[slot], k.wire[fd],
                            s, body, body)
  {
    hide Logged, Answers, Answerable;
    ghost var fd := conns[slot].clientFd;
    ghost var c, t, from := conns[slot], TxOf(conns[slot], body.text, k.wire[fd]), k.step;
    SendResponseFile(conns, slot, k);
    SameAnswer(c, conns[slot], s, body);
    ResponseStreams(t, k.Answers(from, k.step), s.wire);
    if k.Helped(from, k.step) && Underway(t) {
      k.HelpedIsProductive(from, k.step);
      ProductiveProgress(t, k.Answers(from, k.step));
    }
  }

  // ---------- The whole event ----------

  /** The slot that the event loop points into: it still is the slot of `fd`, and nothing but its
      record differs from the queue in which the event was looked up. */
  ghost predicate Pointing(q: QueueConnections, fd: nat, slot: nat, looked: Queue)
    reads q, q.connections, q.indexQueue
  {
    && q.Valid() && fd < q.capacity && slot < q.currentSize
    && Coherent(looked) && |looked.index| == q.capacity && looked.index[fd] == slot < |looked.heap|
    && q.Model() == Queue(looked.heap[slot := q.connections[slot]], looked.index)
    && SameIdentity(looked.heap[slot], q.connections[slot])
  }

  ghost predicate InFlight(q: QueueConnections, k: Kernel, fd: nat, slot: nat, looked: Queue, s: Start, body: File)
    reads q, q.connections, q.indexQueue, k
  {
    && Pointing(q, fd, slot, looked)
    && k.Valid() && k.limit == q.capacity && k.armed.Keys == k.sockets && fd in k.sockets
    && SettledMap(Contents(looked), k.now, k.sockets)
    && Stage(q.connections[slot], k.files, k.incoming[fd], k.wire[fd], s, body)
  }

  /** The body descriptors held by queue entries. */
  ghost function LiveBodies(q: Queue): set<nat> {
    set i | 0 <= i < |q.heap| && q.heap[i].bodyFd > 0 :: q.heap[i].bodyFd as nat
  }

  lemma SettledHoldsNoBody(q: Queue, now: int, clients: set<nat>)
    requires Coherent(q) && SettledMap(Contents(q), now, clients)
    ensures LiveBodies(q) == {} && forall i | 0 <= i < |q.heap| :: q.heap[i].bodyFd == -1
  {
    forall i | 0 <= i < |q.heap| ensures q.heap[i].bodyFd == -1 {
      assert q.heap[i].clientFd in Contents(q);
    }
  }

  /** Conservation: at every turn the open body files are exactly those held by queue entries. */
  lemma BodiesConserved(q: QueueConnections, k: Kernel, fd: nat, slot: nat, looked: Queue, s: Start, body: File)
    requires InFlight(q, k, fd, slot, looked, s, body)
    ensures LiveBodies(q.Model()) == k.files.Keys
  {
    hide Logged;
    SettledHoldsNoBody(looked, k.now, k.sockets);
    var c, h := q.connections[slot], q.Model().heap;
    assert h[slot] == c;
    forall i | 0 <= i < |h| && i != slot ensures h[i].bodyFd == -1 {
      assert h[i] == looked.heap[i];
    }
    assert k.files.Keys == if c.bodyFd > 0 then {c.bodyFd as nat} else {};
    if c.bodyFd > 0 {
      assert c.bodyFd as nat in LiveBodies(q.Model());
    }
  }

  method CloseEpollClient(k: Kernel, fd: nat)
    requires k.Valid() && fd in k.sockets && fd in k.armed
    modifies k`armed, k`sockets, k`log
    ensures k.Valid() && k.armed == old(k.armed) - {fd} && k.sockets == old(k.sockets) - {fd}
    ensures k.log == old(k.log) + [Closed(fd, k.now)]
  {
    k.EpollDel(fd);
    k.CloseSocket(fd);
  }

  lemma StageBody(c: Connection, files: map<nat, File>, pending: string, wire: string, s: Start, body: File)
    requires Stage(c, files, pending, wire, s, body)
    ensures c.bodyFd > 0 ==> c.bodyFd as nat in files
    ensures WithoutBody(files, c.bodyFd) == map[]
  {
  }

  /** What looking `fd` up at time `at` makes of a queue that the log accounts for. */
  ghost predicate LookedUp(base: Queue, at: int, fd: nat, looked: Queue, log: seq<Call>, repaired: bool) {
    Tracked(base, log, repaired) && QueueRuns.Ready(base, at) && fd < |base.index|
    && looked == GetOrCreate(base, fd, at)
  }

  lemma RecordOf(q: Queue, fd: nat, now: int, clients: set<nat>)
    requires Coherent(q) && fd in Contents(q) && SettledMap(Contents(q), now, clients)
    ensures fd < |q.index| && Has(q, fd) && 0 <= q.index[fd] < |q.heap|
    ensures var c := q.heap[q.index[fd]]; c.clientFd == fd && c.priorityTime <= now && c == Contents(q)[fd]
  {
  }

  /** Renewing the record in flight renews the connection in the queue before the lookup. */
  lemma AfterUpdate(base: Queue, at: int, looked: Queue, model: Queue, fd: nat, c: Connection,
                    before: int, now: int, clients: set<nat>, log: seq<Call>, repaired: bool)
    requires LookedUp(base, at, fd, looked, log, repaired) && at <= before
    requires Coherent(looked) && fd in Contents(looked) && SettledMap(Contents(looked), before, clients)
    requires before <= now && SameIdentity(looked.heap[looked.index[fd]], c)
    requires model == Queue(looked.heap[looked.index[fd] := c], looked.index)
    ensures Coherent(model) && Has(model, fd) && QueueRuns.Ready(base, now)
    ensures var r := Update(model, fd, now);
            && Coherent(r) && r == Renewed(base, fd, now) && Tracked(r, log + [Rearmed(fd, now)], repaired)
            && Contents(r) == Contents(looked)[fd := FreshConnection(fd, now)]
            && SettledMap(Contents(r), now, clients)
  {
    hide Update, Renewed, Tracked, Coherent, Contents, GetOrCreate, HeapOrdered;
    RecordOf(looked, fd, before, clients);
    WriteRefines(looked, fd, c);
    UpdateCoherence(model, fd, now);
    RenewInFlight(base, looked, fd, at, c, now);
    RenewedRefines(base, fd, now);
    TrackedRearm(base, log, repaired, fd, now);
  }

  /** Closing the record in flight deletes the connection from the queue before the lookup. */
  lemma AfterDequeue(base: Queue, at: int, looked: Queue, model: Queue, fd: nat, c: Connection,
                     now: int, clients: set<nat>, log: seq<Call>, repaired: bool)
    requires LookedUp(base, at, fd, looked, log, repaired)
    requires Coherent(looked) && fd in Contents(looked) && SettledMap(Contents(looked), now, clients)
    requires SameIdentity(looked.heap[looked.index[fd]], c)
    requires model == Queue(looked.heap[looked.index[fd] := c], looked.index)
    ensures Coherent(model) && Has(model, fd)
    ensures var r := DeleteByFd(model, fd, repaired);
            && Coherent(r) && r == DeleteByFd(base, fd, repaired) && Tracked(r, log + [Closed(fd, now)], repaired)
            && Contents(r) == Contents(looked) - {fd}
            && SettledMap(Contents(r), now, clients - {fd})
  {
    hide DeleteByFd, Tracked, Coherent, Contents, GetOrCreate;
    RecordOf(looked, fd, now, clients);
    WriteRefines(looked, fd, c);
    DeleteByFdRefines(model, fd, repaired);
    CloseInFlight(base, looked, fd, at, c, repaired);
    TrackedClose(base, log, repaired, fd, now);
  }

  /** The keep-alive branch: a fresh record in the queue, and the descriptor armed again. */
  method KeepAlive(q: QueueConnections, k: Kernel, fd: nat, ghost slot: nat, ghost base: Queue, ghost at: int,
                   ghost looked: Queue, ghost s: Start, ghost body: File)
    requires InFlight(q, k, fd, slot, looked, s, body) && fd in Contents(looked)
    requires LookedUp(base, at, fd, looked, k.log, q.repaired) && at <= k.now
    modifies q.connections, q.indexQueue, k`step, k`now, k`files, k`armed, k`log
    ensures Settled(q, k) && k.now >= old(k.now) && (old(k.Still()) ==> k.now == old(k.now))
    ensures Contents(q.Model()) == Contents(looked)[fd := FreshConnection(fd, k.now)]
    ensures QueueRuns.Ready(base, k.now) && q.Model() == Renewed(base, fd, k.now)
    ensures k.armed == old(k.armed)[fd := true] && k.log == old(k.log) + [Rearmed(fd, k.now)]
    ensures k.step >= old(k.step)
  {
    hide Logged, Stage, Coherent, SettledMap, Update, Contents, Renewed, Tracked, LookedUp, Report;
    ghost var c, model, before := q.connections[slot], q.Model(), k.now;
    AfterUpdate(base, at, looked, model, fd, c, before, before, k.sockets, k.log, q.repaired);
    StageBody(c, k.files, k.incoming[fd], k.wire[fd], s, body);
    var present := q.ExistsConnection(fd);
    if present {
      q.UpdateQueueConnection(fd, k);
      AfterUpdate(base, at, looked, model, fd, c, before, k.now, k.sockets, k.log, q.repaired);
      k.EpollMod(fd);
    }
  }

  /** The close branch: out of the queue, out of epoll, closed. */
  method Close(q: QueueConnections, k: Kernel, fd: nat, ghost slot: nat, ghost base: Queue, ghost at: int,
               ghost looked: Queue, ghost s: Start, ghost body: File)
    requires InFlight(q, k, fd, slot, looked, s, body) && fd in Contents(looked)
    requires LookedUp(base, at, fd, looked, k.log, q.repaired)
    modifies q`currentSize, q.connections, q.indexQueue, k`files, k`armed, k`sockets, k`log
    ensures Settled(q, k)
    ensures Contents(q.Model()) == Contents(looked) - {fd}
    ensures Coherent(base) && q.Model() == DeleteByFd(base, fd, q.repaired)
    ensures k.armed == old(k.armed) - {fd} && k.sockets == old(k.sockets) - {fd}
    ensures k.log == old(k.log) + [Closed(fd, k.now)]
  {
    hide Logged, Stage, Coherent, SettledMap, DeleteByFd, Contents, Tracked, Report;
    AfterDequeue(base, at, looked, q.Model(), fd, q.connections[slot], k.now, k.sockets, k.log, q.repaired);
    StageBody(q.connections[slot], k.files, k.incoming[fd], k.wire[fd], s, body);
    var present := q.ExistsConnection(fd);
    if present {
      q.DequeueConnectionByFd(fd, k);
      CloseEpollClient(k, fd);
    }
  }

  /** How an event ended, with the record as it was when its last stage was reached. */
  datatype Ending = Ending(kept: bool, last: Connection, body: File)

  /** Kept: the whole response is on the wire, and the request asked for keep-alive.
      Closed: no response was made and nothing was sent; or the response was cut off while its body
      was open; or it was sent whole and the request did not ask for keep-alive. */
  ghost predicate Ended(e: Ending, s: Start, wire: string) {
    if e.kept then
      && Answers(e.last, s, e.body) && AsksForKeepAlive(e.last.requestHeaders)
      && wire == s.wire + e.last.responseHeaders + e.body.text
    else
      || (e.last.responseHeaders == "" && wire == s.wire)
      || (Answers(e.last, s, e.body) && e.last.bodyFd > 0
          && s.wire <= wire <= s.wire + e.last.responseHeaders + e.body.text)
      || (Answers(e.last, s, e.body) && !AsksForKeepAlive(e.last.requestHeaders)
          && wire == s.wire + e.last.responseHeaders + e.body.text)
  }

  /** The whole response is on the wire, and the connection is kept exactly if the request asks for it. */
  ghost predicate Finished(e: Ending, s: Start, wire: string) {
    Answered(e.last, wire, s, e.body) && (e.kept <==> AsksForKeepAlive(e.last.requestHeaders))
  }

  /** One turn of the switch for the states that leave the heap alone. */
  method Turn(q: QueueConnections, k: Kernel, fd: nat, slot: nat, stale: RequestLine,
              ghost looked: Queue, ghost s: Start, ghost body0: File) returns (ghost body: File)
    requires InFlight(q, k, fd, slot, looked, s, body0) && s.stale == stale
    requires q.connections[slot].clientFd == fd && q.connections[slot].state in {Recv, SendHeaders, SendBody}
    modifies q.connections, k`step, k`incoming, k`files, k`wire, k`notices
    ensures InFlight(q, k, fd, slot, looked, s, body)
    ensures Progress(k, old(q.connections[slot].state), q.connections[slot].state)
    ensures k.wire == old(k.wire)[fd := k.wire[fd]] && k.incoming == old(k.incoming)[fd := k.incoming[fd]]
    ensures StaysOnTrack(k, old(k.step), k.step, old(q.connections[slot]), old(k.wire[fd]),
                         q.connections[slot], k.wire[fd], s, body0, body)
    ensures Drawn(k, old(q.connections[slot]), old(k.incoming[fd]), s) ==>
              Drawn(k, q.connections[slot], k.incoming[fd], s)
    ensures Noticed(old(k.notices), k.notices, q.connections[slot], stale)
  {
    hide Logged, Drawn, Refusal, Coherent, Contents, SettledMap, Answers, Unmade, HoldsOnly, Streamed, Faithful;
    hide Underway, Report;
    hide Answerable, Helpful, OnTrack;
    ghost var heap, c, pending := q.connections[..q.currentSize], q.connections[slot], k.incoming[fd];
    body := body0;
    match q.connections[slot].state {
      case Recv =>
        FreshTrack(q.connections[slot], k.wire[fd], s, NO_FILE, body0);
        OnRecv(q.connections, slot, k, s);
        body := NO_FILE;
      case SendHeaders =>
        body := OnSendHeaders(q.connections, slot, k, stale, s, body0);
      case SendBody =>
        OnSendBody(q.connections, slot, k, s, body0);
    }
    assert q.connections[..q.currentSize] == heap[slot := q.connections[slot]];
    if c.state != Recv && Drawn(k, c, pending, s) {
      SendingDrawsNothing(k, c, q.connections[slot], pending, s);
    }
    assert looked.heap[slot := heap[slot]][slot := q.connections[slot]] == looked.heap[slot := q.connections[slot]];
  }

  /** Before a response there is no body to be on track with. */
  lemma FreshTrack(c: Connection, wire: string, s: Start, body: File, body': File)
    requires c.state == Recv
    ensures OnTrack(c, wire, s, body) && OnTrack(c, wire, s, body')
  {
  }

  /** The state in which an event finds its connection: fresh, whether it was in the queue or not. */
  lemma AfterLookup(before: Queue, fd: nat, was: int, now: int, clients: set<nat>)
    requires Coherent(before) && fd < |before.index| && fd in clients
    requires SettledMap(Contents(before), was, clients) && was <= now
    ensures var q := GetOrCreate(before, fd, now);
            && Coherent(q) && |q.index| == |before.index| && fd in Contents(q)
            && SettledMap(Contents(q), now, clients)
            && q.heap[q.index[fd]] == FreshConnection(fd, q.heap[q.index[fd]].priorityTime)
            && Contents(q) == (if fd in Contents(before) then Contents(before)
                               else Contents(before)[fd := FreshConnection(fd, now)])
            && QueueRuns.Ready(before, now)
  {
    SettledIsReady(before, now, clients);
    QueueRuns.TouchRefines(before, fd, now);
  }

  lemma FreshStage(c: Connection, files: map<nat, File>, s: Start)
    requires c == FreshConnection(c.clientFd, c.priorityTime) && files == map[]
    ensures Stage(c, files, s.stream, s.wire, s, NO_FILE)
    ensures forall k: Kernel :: Drawn(k, c, s.stream, s)
  {
    assert "" + s.stream == s.stream;
  }

  /** A finished response, on its way to keep-alive or to close. */
  lemma DoneStage(c: Connection, files: map<nat, File>, pending: string, wire: string, s: Start, body: File)
    requires c.state == Done && Stage(c, files, pending, wire, s, body)
    ensures c.keepAlive ==> Ended(Ending(true, c, body), s, wire) && Finished(Ending(true, c, body), s, wire)
    ensures !c.keepAlive ==> Stage(c.(state := DoneForClose), files, pending, wire, s, body)
                             && OnTrack(c.(state := DoneForClose), wire, s, body)
  {
    hide ParseRequest, WantsKeepAlive, AsksForKeepAlive, Announces, HasHead, IsRequestComplete, RealPath, Acceptable;
    WantingIsAsking(c.requestHeaders);
    SameAnswer(c, c.(state := DoneForClose), s, body);
  }

  lemma CloseStage(c: Connection, files: map<nat, File>, pending: string, wire: string, s: Start, body: File)
    requires c.state == DoneForClose && Stage(c, files, pending, wire, s, body)
    ensures Ended(Ending(false, c, body), s, wire)
    ensures OnTrack(c, wire, s, body) ==> Finished(Ending(false, c, body), s, wire)
  {
    hide ParseRequest, WantsKeepAlive, AsksForKeepAlive, Announces, HasHead, IsRequestComplete, RealPath, Acceptable;
    WantingIsAsking(c.requestHeaders);
  }

  /** The queue, the clients and the interest list once an event has ended. */
  ghost predicate Concluded(e: Ending, fd: nat, m: map<nat, Connection>, m': map<nat, Connection>, now: int,
                            clients: set<nat>, clients': set<nat>,
                            armed: map<nat, bool>, armed': map<nat, bool>)
  {
    if e.kept then
      m' == m[fd := FreshConnection(fd, now)] && clients' == clients && armed' == armed[fd := true]
    else
      m' == m - {fd} && clients' == clients - {fd} && armed' == armed - {fd}
  }

  /** The do-while, up to the branch that leaves it. It ends although the kernel may answer EINTR and
      EAGAIN any finite number of times. On every turn `slot` still is the slot of `fd`, and the
      open body files are those of the queue. */
  method RunStages(q: QueueConnections, k: Kernel, fd: nat, slot: nat, stale: RequestLine,
                   ghost looked: Queue, ghost s: Start) returns (keep: bool, ghost body: File)
    requires InFlight(q, k, fd, slot, looked, s, NO_FILE) && s.stale == stale
    requires q.connections[slot].clientFd == fd
    modifies q.connections, k`step, k`incoming, k`files, k`wire, k`notices
    ensures InFlight(q, k, fd, slot, looked, s, body)
    ensures k.wire == old(k.wire)[fd := k.wire[fd]] && k.incoming == old(k.incoming)[fd := k.incoming[fd]]
    ensures if keep then q.connections[slot].state == Done && q.connections[slot].keepAlive
            else q.connections[slot].state == DoneForClose
    ensures k.step >= old(k.step)
    ensures Answerable(s) && k.Helped(old(k.step), k.step) && old(q.connections[slot]).state == Recv ==>
              OnTrack(q.connections[slot], k.wire[fd], s, body)
    ensures Drawn(k, old(q.connections[slot]), old(k.incoming[fd]), s) ==>
              Drawn(k, q.connections[slot], k.incoming[fd], s)
    ensures Noticed(old(k.notices), k.notices, q.connections[slot], stale)
  {
    hide Logged, Drawn, Refusal, Coherent, Contents, SettledMap, Stage, Answerable, Helpful, OnTrack, Report;
    hide LiveBodies;
    ghost var from, starting := k.step, q.connections[slot].state == Recv;
    body := NO_FILE;
    if starting {
      FreshTrack(q.connections[slot], k.wire[fd], s, NO_FILE, NO_FILE);
    }
    keep := false;
    while !keep && q.connections[slot].state != DoneForClose
      invariant InFlight(q, k, fd, slot, looked, s, body) && q.connections[slot].clientFd == fd
      invariant k.wire == old(k.wire)[fd := k.wire[fd]] && k.incoming == old(k.incoming)[fd := k.incoming[fd]]
      invariant k.step >= from
      invariant Answerable(s) && k.Helped(from, k.step) && starting ==>
                  OnTrack(q.connections[slot], k.wire[fd], s, body)
      invariant Drawn(k, old(q.connections[slot]), old(k.incoming[fd]), s) ==>
                  Drawn(k, q.connections[slot], k.incoming[fd], s)
      invariant Noticed(old(k.notices), k.notices, q.connections[slot], stale)
      invariant keep ==> q.connections[slot].state == Done && q.connections[slot].keepAlive
      decreases !keep, k.Patience(), Rank(q.connections[slot].state)
    {
      ghost var turn := k.step;
      keep, body := NextStage(q, k, fd, slot, stale, looked, s, body);
      assert k.Helped(from, k.step) ==> k.Helped(from, turn) && k.Helped(turn, k.step);
    }
  }

  /** One turn of the do-while; `keep` is its end by keep-alive. */
  method NextStage(q: QueueConnections, k: Kernel, fd: nat, slot: nat, stale: RequestLine,
                   ghost looked: Queue, ghost s: Start, ghost body0: File) returns (keep: bool, ghost body: File)
    requires InFlight(q, k, fd, slot, looked, s, body0) && s.stale == stale
    requires q.connections[slot].clientFd == fd && q.connections[slot].state != DoneForClose
    modifies q.connections, k`step, k`incoming, k`files, k`wire, k`notices
    ensures InFlight(q, k, fd, slot, looked, s, body) && q.connections[slot].clientFd == fd
    ensures k.wire == old(k.wire)[fd := k.wire[fd]] && k.incoming == old(k.incoming)[fd := k.incoming[fd]]
    ensures keep ==> q.connections[slot] == old(q.connections[slot]) && q.connections[slot].state == Done
                     && q.connections[slot].keepAlive
    ensures k.step >= old(k.step) && k.Patience() <= old(k.Patience())
    ensures keep || k.Patience() < old(k.Patience())
            || Rank(q.connections[slot].state) < Rank(old(q.connections[slot].state))
    ensures StaysOnTrack(k, old(k.step), k.step, old(q.connections[slot]), old(k.wire[fd]),
                         q.connections[slot], k.wire[fd], s, body0, body)
    ensures Drawn(k, old(q.connections[slot]), old(k.incoming[fd]), s) ==>
              Drawn(k, q.connections[slot], k.incoming[fd], s)
    ensures Noticed(old(k.notices), k.notices, q.connections[slot], stale)
  {
    hide Logged, Drawn, Refusal, Coherent, Contents, SettledMap, Stage, Answerable, Helpful, OnTrack, Report;
    hide LiveBodies;
    BodiesConserved(q, k, fd, slot, looked, s, body0);
    assert LiveBodies(q.Model()) == k.files.Keys;
    assert q.indexQueue[fd] == slot && q.connections[slot].clientFd == fd;
    keep, body := false, body0;
    if q.connections[slot].state != Done {
      body := Turn(q, k, fd, slot, stale, looked, s, body0);
    } else if q.connections[slot].keepAlive {
      keep := true;
    } else {
      DoneStage(q.connections[slot], k.files, k.incoming[fd], k.wire[fd], s, body0);
      ghost var c := q.connections[slot];
      MarkForClose(q, fd, slot, looked);
      if Drawn(k, c, k.incoming[fd], s) {
        SendingDrawsNothing(k, c, q.connections[slot], k.incoming[fd], s);
      }
    }
  }

  method MarkForClose(q: QueueConnections, fd: nat, slot: nat, ghost looked: Queue)
    requires Pointing(q, fd, slot, looked)
    modifies q.connections
    ensures Pointing(q, fd, slot, looked)
    ensures q.connections[slot] == old(q.connections[slot]).(state := DoneForClose)
  {
    hide Logged, Coherent;
    q.connections[slot] := q.connections[slot].(state := DoneForClose);
    assert q.Model().heap == looked.heap[slot := q.connections[slot]];
  }

  /** What an event did to the queue and the log: renewed and re-armed, or deleted and closed. */
  ghost predicate Outcome(kept: bool, fd: nat, q: Queue, q': Queue, log: seq<Call>, log': seq<Call>,
                          now: int, repaired: bool)
  {
    && Coherent(q) && fd < |q.index|
    && if kept then
         QueueRuns.Ready(q, now) && q' == Renewed(q, fd, now) && log' == log + [Rearmed(fd, now)]
       else
         q' == DeleteByFd(q, fd, repaired) && log' == log + [Closed(fd, now)]
  }

  /** An event keeps heap order unless it closes a connection against the guard. */
  lemma OutcomeOrder(kept: bool, fd: nat, q: Queue, q': Queue, log: seq<Call>, log': seq<Call>,
                     now: int, repaired: bool)
    requires Outcome(kept, fd, q, q', log, log', now, repaired) && HeapOrdered(q.heap)
    ensures HeapOrdered(q'.heap) <==> kept || repaired || DeleteKeepsOrder(q, fd)
  {
    hide HeapOrdered, Renewed, DeleteByFd;
    if kept {
      RenewedRefines(q, fd, now);
    } else {
      DeleteByFdOrder(q, fd, repaired);
    }
  }

  /** The stages of one event, and the branch that ends it. */
  method Serve(q: QueueConnections, k: Kernel, fd: nat, slot: nat, stale: RequestLine,
               ghost base: Queue, ghost at: int, ghost looked: Queue, ghost s: Start) returns (ghost e: Ending)
    requires InFlight(q, k, fd, slot, looked, s, NO_FILE) && s.stale == stale
    requires LookedUp(base, at, fd, looked, k.log, q.repaired) && at <= k.now
    requires fd in Contents(looked) && q.connections[slot].clientFd == fd && q.connections[slot].state == Recv
    modifies q`currentSize, q.connections, q.indexQueue, k
    ensures Settled(q, k) && k.now >= old(k.now) && (!e.kept || old(k.Still()) ==> k.now == old(k.now))
    ensures fd in k.wire && k.wire == old(k.wire)[fd := k.wire[fd]] && Ended(e, s, k.wire[fd])
    ensures fd in k.incoming && k.incoming == old(k.incoming)[fd := k.incoming[fd]]
    ensures Concluded(e, fd, Contents(looked), Contents(q.Model()), k.now,
                      old(k.sockets), k.sockets, old(k.armed), k.armed)
    ensures Outcome(e.kept, fd, base, q.Model(), old(k.log), k.log, k.now, q.repaired)
    ensures k.step >= old(k.step)
    ensures Answerable(s) && k.Helped(old(k.step), k.step) ==> Finished(e, s, k.wire[fd])
    ensures Drawn(k, old(q.connections[slot]), old(k.incoming[fd]), s) ==> Drawn(k, e.last, k.incoming[fd], s)
    ensures e.last.state != Recv && Noticed(old(k.notices), k.notices, e.last, stale)
  {
    hide Logged, Drawn, Refusal, Coherent, Contents, SettledMap, Ended, Stage, Tracked, Renewed, DeleteByFd, Report;
    hide Answerable, Helpful, OnTrack, Finished;
    var keep, body := RunStages(q, k, fd, slot, stale, looked, s);
    e := Ending(keep, q.connections[slot], body);
    ghost var served := k.step;
    if keep {
      DoneStage(q.connections[slot], k.files, k.incoming[fd], k.wire[fd], s, body);
      KeepAlive(q, k, fd, slot, base, at, looked, s, body);
    } else {
      CloseStage(q.connections[slot], k.files, k.incoming[fd], k.wire[fd], s, body);
      Close(q, k, fd, slot, base, at, looked, s, body);
    }
    assert k.Helped(old(k.step), k.step) ==> k.Helped(old(k.step), served);
  }

  /** Looking a connection up changes nothing that matters once its event has ended. */
  lemma ConcludedFromLookup(e: Ending, fd: nat, m: map<nat, Connection>, looked: map<nat, Connection>,
                            m': map<nat, Connection>, c: Connection, now: int, clients: set<nat>,
                            clients': set<nat>, armed: map<nat, bool>, armed': map<nat, bool>)
    requires looked == (if fd in m then m else m[fd := c])
    requires Concluded(e, fd, looked, m', now, clients, clients', armed, armed')
    ensures Concluded(e, fd, m, m', now, clients, clients', armed, armed')
  {
  }

  /** Serving one event. The connection is kept, with a fresh record, armed again and with its whole
      response sent; or it is gone from the queue and from epoll, and closed. */
  method HandleEvent(q: QueueConnections, k: Kernel, clientFd: nat, stale: RequestLine)
    returns (ghost e: Ending)
    requires Settled(q, k) && clientFd in k.sockets
    modifies q`currentSize, q.connections, q.indexQueue, k
    ensures Settled(q, k) && k.now >= old(k.now) && (old(k.Still()) ==> k.now == old(k.now))
    ensures Concluded(e, clientFd, old(Contents(q.Model())), Contents(q.Model()), k.now,
                      old(k.sockets), k.sockets, old(k.armed), k.armed)
    ensures Outcome(e.kept, clientFd, old(q.Model()), q.Model(), old(k.log), k.log, k.now, q.repaired)
    ensures clientFd in k.wire && k.wire == old(k.wire)[clientFd := k.wire[clientFd]]
    ensures clientFd in k.incoming && k.incoming == old(k.incoming)[clientFd := k.incoming[clientFd]]
    ensures k.step >= old(k.step)
    ensures var s := Start(old(k.incoming)[clientFd], old(k.wire)[clientFd], stale);
            && Ended(e, s, k.wire[clientFd])
            && (Answerable(s) && k.Helped(old(k.step), k.step) ==> Finished(e, s, k.wire[clientFd]))
            && Drawn(k, e.last, k.incoming[clientFd], s) && e.last.state != Recv
    ensures Noticed(old(k.notices), k.notices, e.last, stale)
  {
    hide Logged, Drawn, Refusal, Coherent, SettledMap, Ended, Stage, GetOrCreate, Contents, Concluded, Tracked;
    hide Report, Outcome;
    hide Answerable, Finished;
    ghost var s := Start(k.incoming[clientFd], k.wire[clientFd], stale);
    ghost var before, was, from := q.Model(), k.now, k.step;
    AfterLookup(before, clientFd, was, was, k.sockets);
    var slot := q.GetConnectionOrCreateByFd(clientFd, k);
    AfterLookup(before, clientFd, was, k.now, k.sockets);
    FreshStage(q.connections[slot], k.files, s);
    ghost var looked, clients, armed := Contents(q.Model()), k.sockets, k.armed;
    ghost var created := FreshConnection(clientFd, k.now);
    ghost var found := k.step;
    e := Serve(q, k, clientFd, slot, stale, before, k.now, q.Model(), s);
    assert k.Helped(from, k.step) ==> k.Helped(found, k.step);
    ConcludedFromLookup(e, clientFd, Contents(before), looked, Contents(q.Model()), created, k.now,
                        clients, k.sockets, armed, k.armed);
  }
}
