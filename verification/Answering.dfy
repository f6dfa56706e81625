/** What the client of a printed request gets: stated on the lines it prints and on the bytes it reads. */
module Answering {
  import opened Connections
  import opened CStrings
  import opened Headers
  import opened Kernels
  import opened Receive
  import opened Request
  import opened RequestProofs
  import opened ResponseHead
  import opened Serving

  // ---------- What the request says ----------

  /** A request for a file, that is neither too new nor too old nor too long for the server. */
  ghost predicate Sendable(line: RequestLine, hs: seq<Header>, body: string) {
    && line.verb in {"GET", "POST", "PUT", "PATCH", "DELETE", "HEAD", "OPTIONS"}
    && IsWord(line.path) && line.path != "/hello" && line.version in {"HTTP/1.0", "HTTP/1.1"}
    && Printable(hs) && hs != []
    && |PrintRequest(line, hs, "")| <= 1024
  }

  /** The last field line called connection, in any case, has a value that starts with a small k. */
  ghost predicate AskedToBeKept(hs: seq<Header>) {
    exists v :: LastMatch(hs, "connection", v) && |v| > 0 && v[0] == 'k'
  }

  /** The last field line called accept-encoding, in any case, has "gzip" somewhere in its value. */
  ghost predicate AskedForGzip(hs: seq<Header>) {
    exists v, i :: LastMatch(hs, "accept-encoding", v) && MatchAt(v, "gzip", i)
  }

  lemma KeepingIsAsked(hs: seq<Header>)
    ensures WantsKeepAlive(Listed(hs)) <==> AskedToBeKept(hs)
    ensures (forall i | 0 <= i < |hs| :: !SameText(hs[i].name, "connection")) ==> !AskedToBeKept(hs)
    ensures LastMatch(hs, "connection", "close") ==> !AskedToBeKept(hs)
  {
    hide Listed, Lookup, LastMatch, SameText;
    ListedLookup(hs, "connection");
    LastMatchNames(hs, "connection");
  }

  lemma LastMatchNames(hs: seq<Header>, name: string)
    ensures forall v :: LastMatch(hs, name, v) ==> exists i :: 0 <= i < |hs| && SameText(hs[i].name, name)
  {
    hide SameText;
  }

  lemma GzipIsAsked(hs: seq<Header>)
    ensures AcceptsGzip(Listed(hs)) <==> AskedForGzip(hs)
  {
    hide Listed, Lookup, LastMatch, Find;
    ListedLookup(hs, "accept-encoding");
    forall v: string ensures Contains(v, "gzip") <==> exists i :: MatchAt(v, "gzip", i) {
      FindFirst(v, "gzip");
    }
  }

  lemma SendableIsPrintable(line: RequestLine, hs: seq<Header>, body: string)
    requires Sendable(line, hs, body)
    ensures PrintableLine(line) && Printable(hs) && hs != []
  {
    assert METHODS[0] == "GET" && METHODS[1] == "POST" && METHODS[2] == "PUT" && METHODS[3] == "PATCH"
        && METHODS[4] == "DELETE" && METHODS[5] == "HEAD" && METHODS[6] == "OPTIONS";
    VersionIsWord(line.version);
  }

  lemma VersionIsWord(version: string)
    requires version in {"HTTP/1.0", "HTTP/1.1"}
    ensures IsWord(version) && Supported(version)
  {
  }

  /** The request ends where the part before its body does. */
  lemma SendableFits(line: RequestLine, hs: seq<Header>, body: string)
    requires PrintableLine(line) && Printable(hs) && hs != []
    ensures var s := PrintRequest(line, hs, body);
            IsRequestComplete(s) && EndOf(s) <= |PrintRequest(line, hs, "")|
  {
    hide Find, PrintLine, PrintFields;
    PrintedIsComplete(line, hs, body);
    PrintedIsComplete(line, hs, "");
    var front, s := PrintRequest(line, hs, ""), PrintRequest(line, hs, body);
    var a, b := PrintLine(line), PrintFields(hs, CRLF);
    assert a + (CRLF + (b + (CRLF + body))) == (a + (CRLF + (b + (CRLF + "")))) + body;
    assert s[..|front|] == front;
    FindInPrefix(s, END_OF_REQUEST, |front|);
  }

  /** The server answers it. */
  lemma SendableIsAnswerable(line: RequestLine, hs: seq<Header>, body: string, wire: string, stale: RequestLine)
    requires Sendable(line, hs, body)
    ensures Answerable(Start(PrintRequest(line, hs, body), wire, stale))
  {
    hide IsRequestComplete, ParseRequest, PrintRequest, Listed, Printable, PrintableLine, Supported, IsWord;
    SendableIsPrintable(line, hs, body);
    SendableFits(line, hs, body);
    PrintedPrefix(line, hs, body, EndOf(PrintRequest(line, hs, body)), stale);
    VersionIsWord(line.version);
  }

  // ---------- What the response says ----------

  /** The response to a request of that version and for that file, by how opening the file went. */
  ghost predicate Responds(r: Reply, version: string, file: string, result: OpenResult, gzip: bool, kept: bool,
                           body: File)
  {
    && r.statusLine == version + (match result
                                  case Found => " 200 OK"
                                  case NotFound => " 404 Not Found"
                                  case Denied => " 500 Internal Server Error")
    && r.body == body.text
    && body.what.GzipOf? == gzip
    && var page := if gzip then body.what.original else body;
       && page.what == Page(if result == Found then file
                            else if result == NotFound then "/error/404.html" else "/error/error.html")
       && exists date :: Says(r.fields, gzip, kept, |r.body|, MediaType(page.media), date, page.modified)
  }

  lemma StatusDigits()
    ensures Decimal(200) == "200" && Decimal(404) == "404" && Decimal(500) == "500"
  {
    assert Decimal(20) == "20" && Decimal(40) == "40" && Decimal(50) == "50";
  }

  lemma Reasons()
    ensures " 200" + " OK" == " 200 OK" && " 404" + " Not Found" == " 404 Not Found"
    ensures " 500" + " Internal Server Error" == " 500 Internal Server Error"
    ensures " " + "OK" == " OK" && " " + "Not Found" == " Not Found"
    ensures " " + "Internal Server Error" == " Internal Server Error"
    ensures " " + "200" == " 200" && " " + "404" == " 404" && " " + "500" == " 500"
  {
  }

  lemma Joined(a: string, b: string, c: string)
    ensures a + " " + b + " " + c == a + ((" " + b) + (" " + c))
  {
  }

  lemma StatusLines(version: string)
    ensures StatusLine(version, 200) == version + " 200 OK"
    ensures StatusLine(version, 404) == version + " 404 Not Found"
    ensures StatusLine(version, 500) == version + " 500 Internal Server Error"
  {
    hide Decimal;
    StatusDigits();
    Reasons();
    Joined(version, "200", "OK");
    Joined(version, "404", "Not Found");
    Joined(version, "500", "Internal Server Error");
  }

  /** A header block with its body behind is read as it was made. */
  lemma HeadIsRead(block: string, version: string, result: OpenResult, gzip: bool, kept: bool, file: string, body: File)
    requires IsHead(block, version, StatusOf(result), gzip, kept, |body.text|, MediaType(Original(body).media),
                    Original(body).modified)
    requires IsBody(body, file, result, gzip) && FreeOf(version, CRLF)
    ensures var r := ReadReply(block + body.text);
            r.Some? && Responds(r.value, version, file, result, gzip, kept, body)
  {
    hide ReadReply, ResponseFields, Says, StatusLine, HeaderBlock, Listed, FreeOf, MediaType;
    var media, modified := MediaType(Original(body).media), Original(body).modified;
    var date: Line :|
      block == HeaderBlock(StatusLine(version, StatusOf(result)),
                           ResponseFields(gzip, kept, |body.text|, media, date, modified));
    var fields := ResponseFields(gzip, kept, |body.text|, media, date, modified);
    FieldsArePlain(gzip, kept, |body.text|, media, date, modified);
    FieldsAreRead(gzip, kept, |body.text|, media, date, modified);
    StatusLineIsOneLine(version, StatusOf(result));
    ReplyRoundTrip(StatusLine(version, StatusOf(result)), fields, body.text);
    StatusLines(version);
  }

  /** What the server stored is what the client printed. */
  lemma StoredAsPrinted(line: RequestLine, hs: seq<Header>, body: string, s: Start, c: Connection, answer: File)
    requires Sendable(line, hs, body) && s.stream == PrintRequest(line, hs, body) && Answers(c, s, answer)
    ensures c.requestHeaders == Listed(hs) && c.protocolVersion == line.version && c.path == line.path
    ensures c.absolutePath == RealPath(line.path) && c.requestBody <= body
    ensures c.keepAlive == WantsKeepAlive(Listed(hs)) && HasHead(c, answer)
  {
    hide IsRequestComplete, ParseRequest, PrintRequest, Listed, Printable, PrintableLine, WantsKeepAlive, HasHead;
    hide Announces, RealPath;
    var n := |c.requestBuffer|;
    assert c.requestBuffer == s.stream[..n];
    SendableIsPrintable(line, hs, body);
    SendableFits(line, hs, body);
    CompleteAtEnd(Rx(c.requestBuffer, s.stream[n..], DoneForClose), s.stream);
    PrintedPrefix(line, hs, body, n, s.stale);
    BodyAsSent(line, hs, body, n, s.stale);
  }

  /** The body that is stored is as much of the body as has arrived. */
  lemma BodyAsSent(line: RequestLine, hs: seq<Header>, body: string, n: nat, stale: RequestLine)
    requires PrintableLine(line) && Printable(hs) && hs != []
    requires var s := PrintRequest(line, hs, body);
             IsRequestComplete(s) && EndOf(s) <= n <= |s|
    ensures var p := ParseRequest(PrintRequest(line, hs, body)[..n], stale);
            p.Parsed? && p.body <= body && |p.body| == n - EndOf(PrintRequest(line, hs, body))
  {
    hide Find, ParseRequest, PrintRequest, Listed;
    var s := PrintRequest(line, hs, body);
    PrintedIsComplete(line, hs, body);
    assert s[..|s|] == s;
    ParseAnyPrefix(s, n, stale);
    ParseAnyPrefix(s, |s|, stale);
    RequestRoundTrip(line, hs, body, stale);
    assert s[EndOf(s)..|s|] == body;
    assert s[EndOf(s)..n] <= s[EndOf(s)..|s|];
  }

  /** A printed request, answered. The client splits what it gets at the first blank line and reads the
      status, every field with its value, and the whole body; the body is the file asked for or the
      error page that the status names, compressed exactly if the request accepts that and the response
      says so; and the client is kept exactly if it asked for it, as the response says. */
  lemma AnswerIsRead(line: RequestLine, hs: seq<Header>, body: string, s: Start, e: Ending, wire: string)
    requires Sendable(line, hs, body) && s.stream == PrintRequest(line, hs, body) && Finished(e, s, wire)
    ensures s.wire <= wire && e.kept == AskedToBeKept(hs)
    ensures var r := ReadReply(wire[|s.wire|..]);
            && r.Some?
            && exists result ::
                 Responds(r.value, line.version, RealPath(line.path), result, AskedForGzip(hs), e.kept, e.body)
  {
    hide Answers, ReadReply, Responds, IsHead, PrintRequest, Sendable, Listed, WantsKeepAlive, AskedToBeKept;
    hide AskedForGzip, AcceptsGzip, AsksForKeepAlive, IsBody, RealPath, MediaType;
    StoredAsPrinted(line, hs, body, s, e.last, e.body);
    WantingIsAsking(e.last.requestHeaders);
    KeepingIsAsked(hs);
    GzipIsAsked(hs);
    assert wire == s.wire + (e.last.responseHeaders + e.body.text);
    assert wire[|s.wire|..] == e.last.responseHeaders + e.body.text;
    var result :|
      && IsHead(e.last.responseHeaders, line.version, StatusOf(result), AskedForGzip(hs), e.last.keepAlive,
                |e.body.text|, MediaType(Original(e.body).media), Original(e.body).modified)
      && IsBody(e.body, e.last.absolutePath, result, AskedForGzip(hs));
    VersionIsOneLine(line, hs, body);
    HeadIsRead(e.last.responseHeaders, line.version, result, AskedForGzip(hs), e.kept, RealPath(line.path), e.body);
  }

  lemma VersionIsOneLine(line: RequestLine, hs: seq<Header>, body: string)
    requires Sendable(line, hs, body)
    ensures FreeOf(line.version, CRLF)
  {
  }
}
