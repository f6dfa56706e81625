/** Parsing a received request: request line, header fields and body. */
module Request {
  import opened Connections
  import opened CStrings
  import opened Kernels

  const METHODS: seq<string> := ["GET", "POST", "PUT", "PATCH", "DELETE", "HEAD", "OPTIONS"]
  const SPACES := " \t\n\r\U{b}\U{c}"

  datatype RequestLine = RequestLine(verb: string, path: string, version: string)

  datatype Parsed =
    | Malformed
    | Unsupported(line: RequestLine)
    | Parsed(line: RequestLine, headers: seq<Header>, body: string)

  // ---------- The request line ----------

  function Words(s: string): seq<string>
    decreases |s|
  {
    var t := s[Strspn(s, SPACES)..];
    if t == "" then []
    else
      var n := Strcspn(t, SPACES);
      [t[..n]] + Words(t[n..])
  }

  /** sscanf with three %s: a word that is missing leaves the old contents of its buffer. */
  function ScanLine(s: string, stale: RequestLine): RequestLine {
    var w := Words(s);
    RequestLine(if |w| > 0 then w[0] else stale.verb,
                if |w| > 1 then w[1] else stale.path,
                if |w| > 2 then w[2] else stale.version)
  }

  // ---------- Header fields ----------

  /** The field whose token starts `s`. The value starts two characters past the name and runs to
      the end of its line, even where the token itself is shorter. */
  function FieldAt(s: string): Header {
    var token := s[..Strcspn(s, CRLF)];
    var nameLength := Strcspn(token, ": ");
    var value := if nameLength + 2 <= |s| then s[nameLength + 2..] else "";
    Header(Lower(s[..nameLength]), value[..Strcspn(value, CRLF)])
  }

  /** The tokenising loop: each field is put in front of those already read. */
  function ParseHeaders(s: string, read: seq<Header>): seq<Header>
    decreases |s|
  {
    var d := Strspn(s, CRLF);
    var t := s[d..];
    assert t != "" ==> t[0] == s[d] && Strcspn(t, CRLF) > 0;
    if t == "" then read else ParseHeaders(t[Strcspn(t, CRLF)..], [FieldAt(t)] + read)
  }

  /** What is left after the token that starts `t` and the delimiters behind it. */
  function AfterToken(t: string): string {
    var rest := t[Strcspn(t, CRLF)..];
    rest[Strspn(rest, CRLF)..]
  }

  /** One turn of the tokeniser from the start of a token. */
  lemma ParseStep(t: string, read: seq<Header>)
    requires t != "" && t[0] !in CRLF
    ensures ParseHeaders(t, read) == ParseHeaders(AfterToken(t), [FieldAt(t)] + read)
  {
    assert Strspn(t, CRLF) == 0 && t[0..] == t;
    SkipDelimiters(t[Strcspn(t, CRLF)..], [FieldAt(t)] + read);
  }

  lemma SkipDelimiters(s: string, read: seq<Header>)
    ensures ParseHeaders(s, read) == ParseHeaders(s[Strspn(s, CRLF)..], read)
  {
    var t := s[Strspn(s, CRLF)..];
    assert Strspn(t, CRLF) == 0 && t[0..] == t;
  }

  method ReadField(token: string) returns (field: Header)
    ensures field == FieldAt(token)
  {
    var tokenLength := Strcspn(token, CRLF);
    var nameLength := Strcspn(token[..tokenLength], ": ");
    var name := ToLower(token[..nameLength]);
    var value := if nameLength + 2 <= |token| then token[nameLength + 2..] else "";
    field := Header(name, value[..Strcspn(value, CRLF)]);
  }

  /** strtok: where the token after the one at `pos` starts, or the end of the text. */
  function NextToken(text: string, pos: nat): (next: nat)
    requires pos < |text| && text[pos] !in CRLF
    ensures pos < next <= |text| && (next < |text| ==> text[next] !in CRLF)
  {
    var end := pos + Strcspn(text[pos..], CRLF);
    assert text[pos..][0] == text[pos] && end > pos;
    var next := end + Strspn(text[end..], CRLF);
    assert next < |text| ==> text[end..][next - end] == text[next];
    next
  }

  lemma NextTokenIs(text: string, pos: nat)
    requires pos < |text| && text[pos] !in CRLF
    ensures text[NextToken(text, pos)..] == AfterToken(text[pos..])
  {
    var end := Strcspn(text[pos..], CRLF);
    DropDrop(text, pos, end);
    DropDrop(text, pos + end, Strspn(text[pos + end..], CRLF));
  }

  method TokenizeHeaders(text: string) returns (headers: seq<Header>)
    ensures headers == ParseHeaders(text, [])
  {
    headers := [];
    ghost var result := ParseHeaders(text, []);
    SkipDelimiters(text, headers);
    var pos := Strspn(text, CRLF);
    while pos < |text|
      invariant pos <= |text| && (pos < |text| ==> text[pos] !in CRLF)
      invariant ParseHeaders(text[pos..], headers) == result
    {
      ParseStep(text[pos..], headers);
      NextTokenIs(text, pos);
      var field := ReadField(text[pos..]);
      headers := [field] + headers;
      pos := NextToken(text, pos);
    }
    assert text[pos..] == "";
  }

  // ---------- The whole request ----------

  /** The part of a request from the CRLF of its first line on: fields up to the blank line, then
      the body. Without a blank line further on, the request has no header fields. */
  function ParseRest(line: RequestLine, text: string): Parsed
    requires |text| >= 2
  {
    var e := Find(text[2..], END_OF_REQUEST);
    if e == -1 then Parsed(line, [], "")
    else Parsed(line, ParseHeaders(text[..e + 6], []), text[e + 6..])
  }

  function ParseLineAndRest(firstLine: string, text: string, stale: RequestLine): Parsed
    requires |text| >= 2
  {
    var line := ScanLine(firstLine, stale);
    if line.verb in METHODS then ParseRest(line, text) else Unsupported(line)
  }

  function ParseRequest(buffer: string, stale: RequestLine): Parsed {
    var f := Find(buffer, CRLF);
    if f == -1 then Malformed else ParseLineAndRest(buffer[..f], buffer[f..], stale)
  }

  method ReadRest(line: RequestLine, text: string) returns (p: Parsed)
    requires |text| >= 2
    ensures p == ParseRest(line, text)
  {
    hide Find, ParseHeaders;
    var end := Find(text[2..], END_OF_REQUEST);
    if end == -1 {
      return Parsed(line, [], "");
    }
    var headers := TokenizeHeaders(text[..end + 6]);
    p := Parsed(line, headers, text[end + 6..]);
  }

  method ReadRequest(buffer: string, stale: RequestLine) returns (p: Parsed)
    ensures p == ParseRequest(buffer, stale)
  {
    hide Find, ScanLine, ParseRest;
    var firstLineLength := Find(buffer, CRLF);
    if firstLineLength == -1 {
      return Malformed;
    }
    var line := ScanLine(buffer[..firstLineLength], stale);
    if line.verb !in METHODS {
      return Unsupported(line);
    }
    p := ReadRest(line, buffer[firstLineLength..]);
  }

  /** The file that a path asks for: without its query, and the index for the root. */
  function RealPath(path: string): string {
    var p := path[..Strcspn(path, "?")];
    if p == "/" then "/index.html" else p
  }

  /** What the parser stores in the connection. */
  function Filled(c: Connection, p: Parsed): Connection {
    match p
    case Malformed => c
    case Unsupported(line) => c.(path := line.path, protocolVersion := line.version)
    case Parsed(line, headers, body) =>
      c.(path := line.path, absolutePath := RealPath(line.path), protocolVersion := line.version,
         requestHeaders := headers, requestBody := if body == "" then c.requestBody else body)
  }

  /** False is a bad request: the peer is gone, no line ends, or the method is not supported. */
  method ProcessRequest(conns: array<Connection>, slot: nat, k: Kernel, stale: RequestLine) returns (ok: bool)
    requires slot < conns.Length && conns[slot].requestHeaders == []
    modifies conns, k`step
    ensures k.step == old(k.step) + 1
    ensures conns[..] == old(conns[..])[slot := conns[slot]]
    ensures var c, p := old(conns[slot]), ParseRequest(old(conns[slot].requestBuffer), stale);
            var peerKnown := k.script(old(k.step)).peerKnown;
            ok == (peerKnown && p.Parsed?) && conns[slot] == if peerKnown then Filled(c, p) else c
  {
    var peerKnown := k.PeerKnown();
    if !peerKnown {
      return false;
    }
    var p := ReadRequest(conns[slot].requestBuffer, stale);
    conns[slot] := Filled(conns[slot], p);
    ok := p.Parsed?;
  }
}
