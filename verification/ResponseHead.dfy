/** makeResponse: choosing the body, deciding on keep-alive, and announcing the length. */
module ResponseHead {
  import opened Connections
  import opened CStrings
  import opened Headers
  import opened Kernels
  import opened Request
  import opened RequestProofs

  // ---------- Decimal numbers ----------

  function Digit(n: nat): char
    requires n < 10
  {
    ('0' as int + n) as char
  }

  function Decimal(n: nat): (s: string)
    ensures s != "" && (forall i | 0 <= i < |s| :: '0' <= s[i] <= '9') && (n > 0 ==> s[0] != '0')
  {
    if n < 10 then [Digit(n)] else Decimal(n / 10) + [Digit(n % 10)]
  }

  function ReadDecimal(s: string): nat
    requires forall i | 0 <= i < |s| :: '0' <= s[i] <= '9'
  {
    if s == "" then 0 else ReadDecimal(s[..|s| - 1]) * 10 + (s[|s| - 1] as int - '0' as int)
  }

  lemma {:induction false} DecimalRoundTrip(n: nat)
    ensures ReadDecimal(Decimal(n)) == n
  {
    if n < 10 {
      assert Decimal(n)[..0] == "";
    } else {
      DecimalRoundTrip(n / 10);
      assert Decimal(n)[..|Decimal(n)| - 1] == Decimal(n / 10);
    }
  }

  // ---------- The header block ----------

  const EOL := "\n"
  const SERVER_NAME := "Undefined Behaviour Server"
  const CACHE_CONTROL := "private, no-cache, no-store, must-revalidate"

  function ConnectionFields(keepAlive: bool): seq<Header> {
    if keepAlive then
      [Header("connection", "keep-alive"), Header("keep-alive", "timeout=" + Decimal(KEEP_ALIVE_TIMEOUT))]
    else
      [Header("connection", "close")]
  }

  function FieldsBefore(gzip: bool, keepAlive: bool): seq<Header> {
    (if gzip then [Header("content-encoding", "gzip")] else []) + ConnectionFields(keepAlive)
  }

  function FieldsAfter(media: string, date: string, modified: string): seq<Header> {
    [Header("content-type", media), Header("date", date), Header("last-modified", modified),
     Header("server", SERVER_NAME), Header("cache-control", CACHE_CONTROL)]
  }

  function ResponseFields(gzip: bool, keepAlive: bool, length: nat, media: string, date: string, modified: string)
    : seq<Header>
  {
    FieldsBefore(gzip, keepAlive) + [Header("content-length", Decimal(length))]
    + FieldsAfter(media, date, modified)
  }

  function StatusLine(version: string, status: nat): string {
    version + " " + Decimal(status) + " "
    + (if status == 200 then "OK" else if status == 404 then "Not Found" else "Internal Server Error")
  }

  function HeaderBlock(statusLine: string, fields: seq<Header>): string {
    statusLine + (EOL + (PrintFields(fields, EOL) + EOL))
  }

  /** A response as a client reads it: its first line, its fields, and what is behind the first blank
      line. */
  datatype Reply = Reply(statusLine: string, fields: seq<Header>, body: string)

  function ReadReply(bytes: string): Option<Reply> {
    var e := Find(bytes, "\n\n");
    if e == -1 then None
    else
      var head := bytes[..e + 2];
      var n := Strcspn(head, "\r\n");
      Some(Reply(head[..n], ParseHeaders(head[n..], []), bytes[e + 2..]))
  }

  /** The content length as a client reads it from a header block (section 8.6 of RFC 9110). */
  function AnnouncedLength(block: string): Option<string> {
    var r := ReadReply(block);
    if r.Some? then Lookup(r.value.fields, "content-length") else None
  }

  predicate Announces(block: string, length: nat) {
    AnnouncedLength(block) == Some(Decimal(length))
  }

  lemma LowerIsSame(s: string)
    requires IsLower(s)
    ensures Lower(s) == s
  {
  }

  /** Looking up a name that only one field has. */
  lemma UniqueLookup(fields: seq<Header>, h: Header)
    requires h in fields && forall g | g in fields :: IsLower(g.name) && (g.name == h.name ==> g == h)
    ensures Lookup(Listed(fields), h.name) == Some(h.value)
  {
    hide Listed, Lookup, Lower, SameText;
    ListedLookup(fields, h.name);
    SameNames(fields, h.name);
    var i :| 0 <= i < |fields| && fields[i] == h;
    assert Names(fields[i], h.name);
    var v := Lookup(Listed(fields), h.name).value;
    assert LastMatch(fields, h.name, v);
    var j :| 0 <= j < |fields| && Names(fields[j], h.name) && fields[j].value == v;
    assert fields[j] in fields;
  }

  lemma NoLookup(fields: seq<Header>, name: string)
    requires IsLower(name) && forall g | g in fields :: IsLower(g.name) && g.name != name
    ensures Lookup(Listed(fields), name) == None
  {
    hide Listed, Lookup, Lower, SameText;
    ListedLookup(fields, name);
    SameNames(fields, name);
  }

  lemma SameNames(fields: seq<Header>, name: string)
    requires IsLower(name) && forall g | g in fields :: IsLower(g.name)
    ensures forall i | 0 <= i < |fields| :: Names(fields[i], name) <==> fields[i].name == name
  {
    NamesIsLower(name);
    forall i | 0 <= i < |fields| ensures Names(fields[i], name) <==> fields[i].name == name {
      LowerIsSame(fields[i].name);
    }
  }

  predicate TokenChar(c: char) {
    'a' <= c <= 'z' || c == '-'
  }

  predicate IsToken(s: string) {
    forall i | 0 <= i < |s| :: TokenChar(s[i])
  }

  /** A field in the form the server prints. */
  predicate PlainField(h: Header) {
    PrintableField(h) && IsLower(h.name)
  }

  lemma TokenPrintable(name: string, value: string)
    requires name != "" && IsToken(name) && FreeOf(value, CRLF)
    ensures PrintableField(Header(name, value)) && IsLower(name)
  {
  }

  lemma TokenField(name: string, value: string)
    requires name != "" && IsToken(name) && FreeOf(value, CRLF)
    ensures PlainField(Header(name, value))
  {
    TokenPrintable(name, value);
  }

  lemma ConnectionToken()
    ensures IsToken("connection")
  {
  }

  lemma Tokens()
    ensures IsToken("content-encoding") && IsToken("connection") && IsToken("keep-alive")
    ensures IsToken("content-length") && IsToken("content-type") && IsToken("date")
    ensures IsToken("last-modified") && IsToken("server") && IsToken("cache-control")
  {
  }

  lemma FieldsBeforeOk(gzip: bool, keepAlive: bool)
    ensures forall h | h in FieldsBefore(gzip, keepAlive) :: PlainField(h)
  {
    hide PlainField, IsToken, FreeOf;
    Tokens();
    PlainValues();
    TokenField("content-encoding", "gzip");
    TokenField("connection", "keep-alive");
    TokenField("keep-alive", "timeout=" + Decimal(KEEP_ALIVE_TIMEOUT));
    TokenField("connection", "close");
  }

  lemma PlainValues()
    ensures FreeOf("gzip", CRLF) && FreeOf("keep-alive", CRLF) && FreeOf("close", CRLF)
    ensures FreeOf("timeout=" + Decimal(KEEP_ALIVE_TIMEOUT), CRLF)
    ensures FreeOf(SERVER_NAME, CRLF) && FreeOf(CACHE_CONTROL, CRLF)
  {
  }

  lemma FieldsAfterOk(media: string, date: string, modified: string)
    requires FreeOf(media, CRLF) && FreeOf(date, CRLF) && FreeOf(modified, CRLF)
    ensures forall h | h in FieldsAfter(media, date, modified) :: PlainField(h)
  {
    hide PlainField, IsToken, FreeOf;
    Tokens();
    PlainValues();
    TokenField("content-type", media);
    TokenField("date", date);
    TokenField("last-modified", modified);
    TokenField("server", SERVER_NAME);
    TokenField("cache-control", CACHE_CONTROL);
  }

  lemma FieldsArePlain(gzip: bool, keepAlive: bool, length: nat, media: string, date: string, modified: string)
    requires FreeOf(media, CRLF) && FreeOf(date, CRLF) && FreeOf(modified, CRLF)
    ensures var fields := ResponseFields(gzip, keepAlive, length, media, date, modified);
            Printable(fields) && fields != [] && forall h | h in fields :: IsLower(h.name)
  {
    hide FieldsBefore, FieldsAfter, IsToken;
    Tokens();
    TokenPrintable("content-length", Decimal(length));
    var front, back := FieldsBefore(gzip, keepAlive), FieldsAfter(media, date, modified);
    FieldsBeforeOk(gzip, keepAlive);
    FieldsAfterOk(media, date, modified);
    var fields := front + [Header("content-length", Decimal(length))] + back;
    forall i | 0 <= i < |fields| ensures PlainField(fields[i]) {
      if i < |front| {
        assert fields[i] == front[i];
      } else if i > |front| {
        assert fields[i] == back[i - |front| - 1];
      }
    }
  }

  /** The names of the fields are all different. */
  lemma DifferentNames()
    ensures "content-encoding" !in {"connection", "keep-alive", "content-length", "content-type", "date",
                                    "last-modified", "server", "cache-control"}
    ensures "connection" !in {"keep-alive", "content-length", "content-type", "date", "last-modified", "server",
                              "cache-control"}
    ensures "keep-alive" !in {"content-length", "content-type", "date", "last-modified", "server", "cache-control"}
    ensures "content-length" !in {"content-type", "date", "last-modified", "server", "cache-control"}
    ensures "content-type" !in {"date", "last-modified", "server", "cache-control"}
    ensures "date" !in {"last-modified", "server", "cache-control"}
    ensures "last-modified" !in {"server", "cache-control"} && "server" != "cache-control"
  {
    assert "connection"[0] == 'c' && "keep-alive"[0] == 'k';
    assert "last-modified"[0] == 'l' && "cache-control"[0] == 'c';
  }

  /** The fields of a response. */
  ghost predicate AmongFields(gzip: bool, keepAlive: bool, length: nat, media: string, date: string, modified: string,
                              h: Header)
  {
    || (gzip && h == Header("content-encoding", "gzip"))
    || h == Header("connection", if keepAlive then "keep-alive" else "close")
    || (keepAlive && h == Header("keep-alive", "timeout=60"))
    || h == Header("content-length", Decimal(length)) || h == Header("content-type", media)
    || h == Header("date", date) || h == Header("last-modified", modified)
    || h == Header("server", "Undefined Behaviour Server")
    || h == Header("cache-control", "private, no-cache, no-store, must-revalidate")
  }

  lemma WhichFields(gzip: bool, keepAlive: bool, length: nat, media: string, date: string, modified: string, h: Header)
    ensures h in ResponseFields(gzip, keepAlive, length, media, date, modified)
            <==> AmongFields(gzip, keepAlive, length, media, date, modified, h)
  {
    assert Decimal(60) == "60" && "timeout=" + "60" == "timeout=60";
  }

  /** What a client finds in the fields. */
  ghost predicate Says(fields: seq<Header>, gzip: bool, keepAlive: bool, length: nat, media: string, date: string,
                       modified: string)
  {
    && Lookup(fields, "content-encoding") == (if gzip then Some("gzip") else None)
    && Lookup(fields, "connection") == Some(if keepAlive then "keep-alive" else "close")
    && Lookup(fields, "keep-alive") == (if keepAlive then Some("timeout=60") else None)
    && Lookup(fields, "content-length") == Some(Decimal(length))
    && Lookup(fields, "content-type") == Some(media) && Lookup(fields, "date") == Some(date)
    && Lookup(fields, "last-modified") == Some(modified)
    && Lookup(fields, "server") == Some("Undefined Behaviour Server")
    && Lookup(fields, "cache-control") == Some("private, no-cache, no-store, must-revalidate")
  }

  /** Two fields of a response have different names. */
  lemma OneOfEach(gzip: bool, keepAlive: bool, length: nat, media: string, date: string, modified: string,
                  g: Header, h: Header)
    requires AmongFields(gzip, keepAlive, length, media, date, modified, g)
    requires AmongFields(gzip, keepAlive, length, media, date, modified, h) && g.name == h.name
    ensures g == h
  {
    hide Decimal;
    DifferentNames();
  }

  lemma ReadField(gzip: bool, keepAlive: bool, length: nat, media: string, date: string, modified: string, h: Header)
    requires FreeOf(media, CRLF) && FreeOf(date, CRLF) && FreeOf(modified, CRLF)
    requires AmongFields(gzip, keepAlive, length, media, date, modified, h)
    ensures Lookup(Listed(ResponseFields(gzip, keepAlive, length, media, date, modified)), h.name) == Some(h.value)
  {
    hide AmongFields, ResponseFields, Listed, Lookup;
    var fields := ResponseFields(gzip, keepAlive, length, media, date, modified);
    FieldsArePlain(gzip, keepAlive, length, media, date, modified);
    WhichFields(gzip, keepAlive, length, media, date, modified, h);
    forall g | g in fields ensures IsLower(g.name) && (g.name == h.name ==> g == h) {
      WhichFields(gzip, keepAlive, length, media, date, modified, g);
      if g.name == h.name {
        OneOfEach(gzip, keepAlive, length, media, date, modified, g, h);
      }
    }
    UniqueLookup(fields, h);
  }

  lemma ReadNone(gzip: bool, keepAlive: bool, length: nat, media: string, date: string, modified: string, name: string)
    requires FreeOf(media, CRLF) && FreeOf(date, CRLF) && FreeOf(modified, CRLF)
    requires (name == "content-encoding" && !gzip) || (name == "keep-alive" && !keepAlive)
    ensures Lookup(Listed(ResponseFields(gzip, keepAlive, length, media, date, modified)), name) == None
  {
    hide ResponseFields, Listed, Lookup, Decimal, IsToken;
    var fields := ResponseFields(gzip, keepAlive, length, media, date, modified);
    FieldsArePlain(gzip, keepAlive, length, media, date, modified);
    Tokens();
    TokenPrintable(name, "");
    forall g | g in fields ensures g.name != name {
      WhichFields(gzip, keepAlive, length, media, date, modified, g);
      DifferentNames();
    }
    NoLookup(fields, name);
  }

  lemma FieldsAreRead(gzip: bool, keepAlive: bool, length: nat, media: string, date: string, modified: string)
    requires FreeOf(media, CRLF) && FreeOf(date, CRLF) && FreeOf(modified, CRLF)
    ensures Says(Listed(ResponseFields(gzip, keepAlive, length, media, date, modified)),
                 gzip, keepAlive, length, media, date, modified)
  {
    hide ResponseFields, Listed, Lookup, Decimal, FreeOf;
    if gzip {
      ReadField(gzip, keepAlive, length, media, date, modified, Header("content-encoding", "gzip"));
    } else {
      ReadNone(gzip, keepAlive, length, media, date, modified, "content-encoding");
    }
    ReadField(gzip, keepAlive, length, media, date, modified,
              Header("connection", if keepAlive then "keep-alive" else "close"));
    if keepAlive {
      ReadField(gzip, keepAlive, length, media, date, modified, Header("keep-alive", "timeout=60"));
    } else {
      ReadNone(gzip, keepAlive, length, media, date, modified, "keep-alive");
    }
    ReadField(gzip, keepAlive, length, media, date, modified, Header("content-length", Decimal(length)));
    ReadField(gzip, keepAlive, length, media, date, modified, Header("content-type", media));
    ReadField(gzip, keepAlive, length, media, date, modified, Header("date", date));
    ReadField(gzip, keepAlive, length, media, date, modified, Header("last-modified", modified));
    ReadField(gzip, keepAlive, length, media, date, modified, Header("server", "Undefined Behaviour Server"));
    ReadField(gzip, keepAlive, length, media, date, modified,
              Header("cache-control", "private, no-cache, no-store, must-revalidate"));
  }

  /** No blank line begins before the last field line ends. */
  lemma {:induction false} NoEarlierBlank(fields: seq<Header>, i: nat)
    requires Printable(fields) && fields != [] && i < |PrintFields(fields, "\n")| - 1
    ensures var s := PrintFields(fields, "\n"); !(s[i] == '\n' && s[i + 1] == '\n')
    decreases |fields|
  {
    var s, first, rest := PrintFields(fields, "\n"), PrintField(fields[0], "\n"), PrintFields(fields[1..], "\n");
    assert PrintableField(fields[0]);
    FieldHasOneEnd(fields[0]);
    assert s == first + rest;
    if i >= |first| {
      NoEarlierBlank(fields[1..], i - |first|);
    } else if i == |first| - 1 {
      StartsWithName(fields[1..]);
    }
  }

  lemma FieldHasOneEnd(h: Header)
    requires PrintableField(h)
    ensures var s := PrintField(h, "\n");
            && |s| > 1 && s[|s| - 1] == '\n' && forall i | 0 <= i < |s| - 1 :: s[i] != '\n'
  {
    var s, line := PrintField(h, "\n"), h.name + (": " + h.value);
    assert s == line + "\n";
    NoLineEnd(h.name, ": \r\n");
    NoLineEnd(h.value, CRLF);
    forall i | 0 <= i < |line| ensures line[i] != '\n' {
      assert line[i] in h.name || line[i] == ':' || line[i] == ' ' || line[i] in h.value;
    }
  }

  lemma NoLineEnd(s: string, free: string)
    requires FreeOf(s, free) && '\n' in free
    ensures '\n' !in s
  {
  }

  lemma StartsWithName(fields: seq<Header>)
    requires Printable(fields)
    ensures fields != [] ==> PrintFields(fields, "\n") != "" && PrintFields(fields, "\n")[0] != '\n'
  {
    if fields != [] {
      assert PrintableField(fields[0]);
      FieldHasOneEnd(fields[0]);
    }
  }

  lemma {:induction false} FieldsEnd(fields: seq<Header>)
    requires Printable(fields) && fields != []
    ensures var s := PrintFields(fields, "\n"); |s| > 1 && s[|s| - 1] == '\n'
    decreases |fields|
  {
    assert PrintableField(fields[0]);
    FieldHasOneEnd(fields[0]);
    if |fields| > 1 {
      FieldsEnd(fields[1..]);
    } else {
      assert fields[1..] == [];
    }
  }

  /** The first blank line is the end of the header block, whatever is behind. */
  lemma EndOfBlock(statusLine: string, fields: seq<Header>, body: string)
    requires FreeOf(statusLine, CRLF) && Printable(fields) && fields != []
    ensures Find(HeaderBlock(statusLine, fields) + body, "\n\n") == |HeaderBlock(statusLine, fields)| - 2
  {
    hide PrintFields, FreeOf, Find, PrintableField;
    NoLineEnd(statusLine, CRLF);
    var printed := PrintFields(fields, "\n");
    var front := statusLine + "\n";
    var s := HeaderBlock(statusLine, fields) + body;
    assert s == front + (printed + ("\n" + body));
    FieldsEnd(fields);
    StartsWithName(fields);
    var e := |front| + |printed| - 1;
    assert s[e] == printed[|printed| - 1] && s[e + 1] == '\n';
    assert s[e..e + 2] == "\n\n";
    forall i | 0 <= i < e ensures !MatchAt(s, "\n\n", i) {
      if i < |statusLine| {
        assert s[i] == statusLine[i] && statusLine[i] in statusLine;
        NoMatch(s, "\n\n", i, 0);
      } else if i == |statusLine| {
        assert s[i + 1] == printed[0];
        NoMatch(s, "\n\n", i, 1);
      } else {
        var j := i - |front|;
        NoEarlierBlank(fields, j);
        assert s[i] == printed[j] && s[i + 1] == printed[j + 1];
        if s[i] != '\n' {
          NoMatch(s, "\n\n", i, 0);
        } else {
          NoMatch(s, "\n\n", i, 1);
        }
      }
    }
    FindIs(s, "\n\n", e);
  }

  /** A client that splits a response at its first blank line gets back the status line, the fields, and
      all of the body. */
  lemma ReplyRoundTrip(statusLine: string, fields: seq<Header>, body: string)
    requires FreeOf(statusLine, CRLF) && Printable(fields) && fields != []
    ensures ReadReply(HeaderBlock(statusLine, fields) + body) == Some(Reply(statusLine, Listed(fields), body))
  {
    hide Find, Strcspn, ParseHeaders, PrintFields;
    var block := HeaderBlock(statusLine, fields);
    EndOfBlock(statusLine, fields, body);
    assert (block + body)[..|block|] == block && (block + body)[|block|..] == body;
    var rest := EOL + (PrintFields(fields, EOL) + EOL);
    StrcspnIs(statusLine, rest, CRLF);
    assert block[..|statusLine|] == statusLine && block[|statusLine|..] == rest;
    BlockRoundTrip(fields, EOL);
  }

  lemma {:induction false} PrintedTogether(a: seq<Header>, b: seq<Header>, eol: string)
    ensures PrintFields(a + b, eol) == PrintFields(a, eol) + PrintFields(b, eol)
  {
    if a == [] {
      assert a + b == b;
    } else {
      assert (a + b)[1..] == a[1..] + b && (a + b)[0] == a[0];
      PrintedTogether(a[1..], b, eol);
    }
  }

  lemma OneLine(name: string, value: string)
    ensures PrintFields([Header(name, value)], "\n") == (name + ": ") + value + "\n"
  {
    assert [Header(name, value)][1..] == [];
  }

  /** One more line in front. */
  lemma NextLine(name: string, value: string, fields: seq<Header>)
    ensures PrintFields([Header(name, value)] + fields, "\n")
         == (name + ": ") + value + "\n" + PrintFields(fields, "\n")
  {
    hide PrintFields;
    PrintedTogether([Header(name, value)], fields, "\n");
    OneLine(name, value);
  }

  lemma TextConnection(keepAlive: bool)
    ensures PrintFields(ConnectionFields(keepAlive), "\n")
         == if keepAlive then "connection: " + "keep-alive" + "\n" + ("keep-alive: " + "timeout=60" + "\n")
            else "connection: " + "close" + "\n"
  {
    hide PrintFields, ConnectionFields;
    ConnectionLists();
    if keepAlive {
      NextLine("connection", "keep-alive", [Header("keep-alive", "timeout=60")]);
      OneLine("keep-alive", "timeout=60");
    } else {
      OneLine("connection", "close");
    }
  }

  lemma TextBefore(gzip: bool, keepAlive: bool)
    ensures PrintFields(FieldsBefore(gzip, keepAlive), "\n")
         == (if gzip then "content-encoding: " + "gzip" + "\n" else "")
            + (if keepAlive then "connection: " + "keep-alive" + "\n" + ("keep-alive: " + "timeout=60" + "\n")
               else "connection: " + "close" + "\n")
  {
    hide PrintFields, ConnectionFields;
    PrintedTogether(if gzip then [Header("content-encoding", "gzip")] else [], ConnectionFields(keepAlive), "\n");
    NoLines();
    OneLine("content-encoding", "gzip");
    TextConnection(keepAlive);
  }

  lemma NoLines()
    ensures PrintFields([], "\n") == ""
  {
  }

  lemma ConnectionLists()
    ensures ConnectionFields(true) == [Header("connection", "keep-alive")] + [Header("keep-alive", "timeout=60")]
    ensures ConnectionFields(false) == [Header("connection", "close")]
  {
    assert Decimal(60) == "60" && "timeout=" + "60" == "timeout=60";
  }

  lemma TextAfter(media: string, date: string, modified: string)
    ensures PrintFields(FieldsAfter(media, date, modified), "\n")
         == "content-type: " + media + "\n"
            + ("date: " + date + "\n"
               + ("last-modified: " + modified + "\n"
                  + ("server: " + "Undefined Behaviour Server" + "\n"
                     + ("cache-control: " + "private, no-cache, no-store, must-revalidate" + "\n"))))
  {
    hide PrintFields;
    var e := [Header("cache-control", CACHE_CONTROL)];
    var d := [Header("server", SERVER_NAME)] + e;
    var c := [Header("last-modified", modified)] + d;
    var b := [Header("date", date)] + c;
    assert FieldsAfter(media, date, modified) == [Header("content-type", media)] + b;
    OneLine("cache-control", CACHE_CONTROL);
    NextLine("server", SERVER_NAME, e);
    NextLine("last-modified", modified, d);
    NextLine("date", date, c);
    NextLine("content-type", media, b);
  }

  /** The text of a header block, line by line as the server formats it. */
  lemma HeadText(statusLine: string, gzip: bool, keepAlive: bool, length: nat, media: string, date: string,
                 modified: string)
    ensures HeaderBlock(statusLine, ResponseFields(gzip, keepAlive, length, media, date, modified))
         == statusLine
            + ("\n" + (((if gzip then "content-encoding: " + "gzip" + "\n" else "")
                        + (if keepAlive then
                             "connection: " + "keep-alive" + "\n" + ("keep-alive: " + "timeout=60" + "\n")
                           else
                             "connection: " + "close" + "\n")
                        + ("content-length: " + Decimal(length) + "\n")
                        + ("content-type: " + media + "\n"
                           + ("date: " + date + "\n"
                              + ("last-modified: " + modified + "\n"
                                 + ("server: " + "Undefined Behaviour Server" + "\n"
                                    + ("cache-control: " + "private, no-cache, no-store, must-revalidate" + "\n"))))))
                       + "\n"))
  {
    hide PrintFields, FieldsBefore, FieldsAfter, Decimal;
    var front, size := FieldsBefore(gzip, keepAlive), [Header("content-length", Decimal(length))];
    PrintedTogether(front + size, FieldsAfter(media, date, modified), "\n");
    PrintedTogether(front, size, "\n");
    OneLine("content-length", Decimal(length));
    TextBefore(gzip, keepAlive);
    TextAfter(media, date, modified);
  }

  /** The header block announces the length it was made for. */
  lemma BlockAnnounces(statusLine: string, fields: seq<Header>, length: nat)
    requires FreeOf(statusLine, CRLF) && Printable(fields) && fields != []
    requires Lookup(Listed(fields), "content-length") == Some(Decimal(length))
    ensures Announces(HeaderBlock(statusLine, fields), length)
    ensures HeaderBlock(statusLine, fields) != ""
  {
    hide ReadReply, Listed, Lookup, PrintFields;
    ReplyRoundTrip(statusLine, fields, "");
    assert HeaderBlock(statusLine, fields) + "" == HeaderBlock(statusLine, fields);
  }

  // ---------- makeResponse ----------

  predicate Contains(s: string, word: string) {
    Find(s, word) != -1
  }

  /** Only the first letter of the connection field is looked at. */
  predicate WantsKeepAlive(headers: seq<Header>) {
    var v := Lookup(headers, "connection");
    v.Some? && v.value != "" && v.value[0] == 'k'
  }

  /** What that means: the value of the first connection field starts with a small k. */
  ghost predicate AsksForKeepAlive(headers: seq<Header>) {
    exists v :: FirstMatch(headers, "connection", v) && |v| > 0 && v[0] == 'k'
  }

  lemma WantingIsAsking(headers: seq<Header>)
    ensures WantsKeepAlive(headers) <==> AsksForKeepAlive(headers)
  {
    hide FirstMatch, Lookup;
    LookupIsFirstMatch(headers, "connection");
  }

  predicate AcceptsGzip(headers: seq<Header>) {
    var v := Lookup(headers, "accept-encoding");
    v.Some? && Contains(v.value, "gzip")
  }

  function StatusOf(result: OpenResult): nat {
    match result
    case Found => 200
    case NotFound => 404
    case Denied => 500
  }

  /** libmagic's description, with a character set behind it if it compares above "text/". */
  function MediaType(media: Line): Line {
    if Strcmp(media, "text/") > 0 then media + "; charset=UTF-8" else media
  }

  lemma CharsetExact(media: Line)
    ensures MediaType(media) == media + if exists n: nat :: GreaterAt(media, "text/", n) then "; charset=UTF-8" else ""
  {
    StrcmpExact(media, "text/");
  }

  /** Text types get a character set, and so do video types. */
  lemma WhoGetsCharset(rest: Line)
    ensures rest != "" ==> MediaType("text/" + rest) == "text/" + rest + "; charset=UTF-8"
    ensures MediaType("video/" + rest) == "video/" + rest + "; charset=UTF-8"
    ensures MediaType("image/" + rest) == "image/" + rest
  {
    CharsetExact("text/" + rest);
    CharsetExact("video/" + rest);
    CharsetExact("image/" + rest);
    assert rest != "" ==> GreaterAt("text/" + rest, "text/", 5);
    assert GreaterAt("video/" + rest, "text/", 0);
  }

  /** The header block of a response, at some date. */
  ghost predicate IsHead(block: string, version: string, status: nat, gzip: bool, keepAlive: bool, length: nat,
                         media: Line, modified: Line)
  {
    exists date: Line ::
      block == HeaderBlock(StatusLine(version, status),
                           ResponseFields(gzip, keepAlive, length, media, date, modified))
  }

  /** The file itself, also when the body is its compressed copy. */
  function Original(body: File): File {
    if body.what.GzipOf? then body.what.original else body
  }

  /** What is sent: the file asked for, or an error page, or the compressed copy of either. */
  predicate IsBody(body: File, path: string, result: OpenResult, gzip: bool) {
    && body.what.GzipOf? == gzip
    && Original(body).what == Page(match result
                                   case Found => path
                                   case NotFound => "/error/404.html"
                                   case Denied => "/error/error.html")
  }

  /** The body of the response, and what is said about it. Exactly one file is left open. */
  method OpenBody(path: string, gzip: bool, k: Kernel)
    returns (status: nat, bodyFd: nat, bodyLength: nat, media: Line, modified: Line)
    requires k.Valid()
    modifies k`step, k`files
    ensures k.Valid() && k.step > old(k.step)
    ensures status == StatusOf(k.script(old(k.step)).openResult)
    ensures bodyFd > 0 && bodyFd !in old(k.files) && bodyFd !in k.sockets
    ensures bodyFd in k.files && k.files == old(k.files)[bodyFd := k.files[bodyFd]]
    ensures IsBody(k.files[bodyFd], path, k.script(old(k.step)).openResult, gzip)
    ensures media == MediaType(Original(k.files[bodyFd]).media) && modified == Original(k.files[bodyFd]).modified
    ensures k.Helped(old(k.step), k.step) ==> k.files[bodyFd].text != ""
    ensures bodyLength == |k.files[bodyFd].text|
  {
    ghost var before := k.files;
    var result, fd := k.Open(path);
    status := 200;
    bodyFd := fd;
    if !result.Found? {
      status := if result.NotFound? then 404 else 500;
      bodyFd := k.OpenOrDie(Page(if result.NotFound? then "/error/404.html" else "/error/error.html"));
    }
    var page := k.files[bodyFd];
    media, modified := MediaType(page.media), page.modified;
    if gzip {
      k.CloseFile(bodyFd);
      assert k.files == before;
      bodyFd := k.OpenOrDie(GzipOf(page));
    }
    bodyLength := |k.files[bodyFd].text|;
  }

  method MakeHeaders(version: string, status: nat, gzip: bool, keepAlive: bool, length: nat, media: Line,
                     modified: Line, k: Kernel)
    returns (block: string)
    requires FreeOf(version, CRLF)
    modifies k`step
    ensures k.step > old(k.step)
    ensures block != "" && Announces(block, length)
    ensures IsHead(block, version, status, gzip, keepAlive, length, media, modified)
  {
    hide *;
    var date := k.Date();
    var fields := ResponseFields(gzip, keepAlive, length, media, date, modified);
    var statusLine := StatusLine(version, status);
    FieldsArePlain(gzip, keepAlive, length, media, date, modified);
    FieldsAreRead(gzip, keepAlive, length, media, date, modified);
    SaysLength(Listed(fields), gzip, keepAlive, length, media, date, modified);
    StatusLineIsOneLine(version, status);
    BlockAnnounces(statusLine, fields, length);
    block := HeaderBlock(statusLine, fields);
    HeadFor(version, status, gzip, keepAlive, length, media, date, modified);
  }

  lemma SaysLength(fields: seq<Header>, gzip: bool, keepAlive: bool, length: nat, media: string, date: string,
                   modified: string)
    requires Says(fields, gzip, keepAlive, length, media, date, modified)
    ensures Lookup(fields, "content-length") == Some(Decimal(length))
  {
  }

  lemma HeadFor(version: string, status: nat, gzip: bool, keepAlive: bool, length: nat,
                media: Line, date: Line, modified: Line)
    ensures IsHead(HeaderBlock(StatusLine(version, status),
                               ResponseFields(gzip, keepAlive, length, media, date, modified)),
                   version, status, gzip, keepAlive, length, media, modified)
  {
  }

  method MakeResponse(conns: array<Connection>, slot: nat, k: Kernel)
    requires slot < conns.Length && conns[slot].responseHeaders == ""
    requires k.Valid() && FreeOf(conns[slot].protocolVersion, CRLF)
    modifies conns, k`step, k`files
    ensures k.Valid() && k.step > old(k.step)
    ensures conns[..] == old(conns[..])[slot := conns[slot]]
    ensures var c, c' := old(conns[slot]), conns[slot];
            && c' == c.(bodyFd := c'.bodyFd, bodyLength := c'.bodyLength, bodyOffset := 0,
                        keepAlive := WantsKeepAlive(c.requestHeaders),
                        responseHeaders := c'.responseHeaders, responseHeadersOffset := 0)
            && c'.bodyFd > 0 && c'.bodyFd !in old(k.files) && c'.bodyFd in k.files
            && k.files == old(k.files)[c'.bodyFd as nat := k.files[c'.bodyFd]]
            && c'.bodyLength == |k.files[c'.bodyFd].text|
            && c'.responseHeaders != "" && Announces(c'.responseHeaders, c'.bodyLength)
            && IsHead(c'.responseHeaders, c.protocolVersion, StatusOf(k.script(old(k.step)).openResult),
                      AcceptsGzip(c.requestHeaders), c'.keepAlive, c'.bodyLength,
                      MediaType(Original(k.files[c'.bodyFd]).media), Original(k.files[c'.bodyFd]).modified)
            && IsBody(k.files[c'.bodyFd], c.absolutePath, k.script(old(k.step)).openResult,
                      AcceptsGzip(c.requestHeaders))
            && (k.Helped(old(k.step), k.step) ==> k.files[c'.bodyFd].text != "")
  {
    hide Announces, Find, Lookup, IsHead, IsBody, MediaType;
    var c := conns[slot];
    var accepted := GetHeader(c.requestHeaders, "accept-encoding");
    var gzip := accepted.Some? && Contains(accepted.value, "gzip");
    var status, bodyFd, bodyLength, media, modified := OpenBody(c.absolutePath, gzip, k);
    var connection := GetHeader(c.requestHeaders, "connection");
    var keepAlive := connection.Some? && connection.value != "" && connection.value[0] == 'k';
    var block := MakeHeaders(c.protocolVersion, status, gzip, keepAlive, bodyLength, media, modified, k);
    conns[slot] := c.(bodyFd := bodyFd, bodyLength := bodyLength, bodyOffset := 0, keepAlive := keepAlive,
                      responseHeaders := block, responseHeadersOffset := 0);
  }

  lemma StatusLineIsOneLine(version: string, status: nat)
    requires FreeOf(version, CRLF)
    ensures FreeOf(StatusLine(version, status), CRLF)
  {
  }
}
