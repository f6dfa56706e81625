/** What parsing means: printing a request and parsing it gives it back, lookups find the last
    matching field line, and the result does not depend on how much more has been received. */
module RequestProofs {
  import opened Connections
  import opened CStrings
  import opened Headers
  import opened Kernels
  import opened Receive
  import opened Request

  // ---------- Printing ----------

  /** The single-space subset of the field line of section 5 of RFC 9112. */
  predicate PrintableField(h: Header) {
    h.name != "" && FreeOf(h.name, ": \r\n") && FreeOf(h.value, CRLF)
  }

  predicate Printable(hs: seq<Header>) {
    forall i | 0 <= i < |hs| :: PrintableField(hs[i])
  }

  function LowerField(h: Header): Header {
    h.(name := Lower(h.name))
  }

  /** The fields in the order the parser lists them: last line first, names in lower case. */
  function Listed(hs: seq<Header>): seq<Header> {
    if hs == [] then [] else Listed(hs[1..]) + [LowerField(hs[0])]
  }

  // ---------- One field ----------

  predicate IsEol(eol: string) {
    eol == "\r\n" || eol == "\n"
  }

  lemma FieldSlices(h: Header, eol: string, rest: string)
    ensures var s, line := PrintField(h, eol) + rest, h.name + (": " + h.value);
            && s == line + (eol + rest)
            && s[..|line|] == line && s[..|h.name|] == h.name
            && s[|h.name| + 2..] == h.value + (eol + rest)
            && s[|h.name| + 2..][..|h.value|] == h.value
  {
    var s, line := PrintField(h, eol) + rest, h.name + (": " + h.value);
    assert s == line + (eol + rest);
    assert s == (h.name + ": ") + (h.value + (eol + rest));
  }

  lemma FieldIsRead(h: Header, eol: string, rest: string)
    requires PrintableField(h) && IsEol(eol)
    ensures FieldAt(PrintField(h, eol) + rest) == LowerField(h)
  {
    hide Strcspn, PrintField, Lower;
    FieldSlices(h, eol, rest);
    var line := h.name + (": " + h.value);
    StrcspnIs(line, eol + rest, CRLF);
    StrcspnIs(h.name, ": " + h.value, ": ");
    StrcspnIs(h.value, eol + rest, CRLF);
  }

  /** A field line in any form: the name ends at the first colon or space, and the value starts two
      characters on, whatever those are. */
  lemma FieldInAnyForm(name: string, sep: char, skipped: char, value: string, rest: string)
    requires FreeOf(name, ": \r\n") && (sep == ':' || sep == ' ') && FreeOf([skipped] + value, "\r\n")
    requires rest != "" ==> rest[0] == '\r' || rest[0] == '\n'
    ensures FieldAt(name + ([sep, skipped] + (value + rest))) == Header(Lower(name), value)
  {
    hide Strcspn, Lower;
    var s, token := name + ([sep, skipped] + (value + rest)), name + ([sep, skipped] + value);
    assert s == token + rest;
    TokenIsFree(name, sep, skipped, value);
    StrcspnIs(token, rest, CRLF);
    assert s[..|token|] == token;
    StrcspnIs(name, [sep, skipped] + value, ": ");
    assert s[|name| + 2..] == value + rest && s[..|name|] == name;
    StrcspnIs(value, rest, CRLF);
    assert (value + rest)[..|value|] == value;
  }

  lemma TokenIsFree(name: string, sep: char, skipped: char, value: string)
    requires FreeOf(name, ": \r\n") && (sep == ':' || sep == ' ') && FreeOf([skipped] + value, "\r\n")
    ensures FreeOf(name + ([sep, skipped] + value), CRLF) && FreeOf(name, ": ") && FreeOf(value, CRLF)
  {
    var all := ": \r\n";
    assert all[0] == ':' && all[1] == ' ' && all[2] == '\r' && all[3] == '\n';
    forall c | c !in all ensures c !in ": " && c !in CRLF {
    }
    assert forall i | 0 <= i < |value| :: value[i] == ([skipped] + value)[i + 1];
    assert ([skipped] + value)[0] == skipped;
  }

  /** A line without colon or space takes the line behind it for its value. */
  lemma FieldWithoutColon(name: string, next: string, rest: string)
    requires FreeOf(name, ": \r\n") && FreeOf(next, "\r\n")
    requires rest != "" ==> rest[0] == '\r' || rest[0] == '\n'
    ensures FieldAt(name + ("\r\n" + (next + rest))) == Header(Lower(name), next)
  {
    hide Strcspn, Lower;
    var s := name + ("\r\n" + (next + rest));
    NameIsFree(name);
    StrcspnIs(name, "\r\n" + (next + rest), CRLF);
    assert s[..|name|] == name && name + "" == name;
    StrcspnIs(name, "", ": ");
    assert s[|name| + 2..] == next + rest;
    StrcspnIs(next, rest, CRLF);
    assert (next + rest)[..|next|] == next;
  }

  lemma NameIsFree(name: string)
    requires FreeOf(name, ": \r\n")
    ensures FreeOf(name, CRLF) && FreeOf(name, ": ")
  {
    assert "" + name == name;
    TokenIsFree(name, ':', 'x', "");
    assert forall i | 0 <= i < |name| :: name[i] == (name + ([':', 'x'] + ""))[i];
  }

  lemma FieldIsSkipped(h: Header, eol: string, rest: string)
    requires PrintableField(h) && IsEol(eol)
    ensures AfterToken(PrintField(h, eol) + rest) == rest[Strspn(rest, CRLF)..]
  {
    var s := PrintField(h, eol) + rest;
    var line := h.name + (": " + h.value);
    assert s == line + (eol + rest);
    StrcspnIs(line, eol + rest, CRLF);
    assert s[|line|..] == eol + rest;
    SkipRun(eol, rest);
  }

  lemma {:induction false} SkipRun(run: string, rest: string)
    requires forall i | 0 <= i < |run| :: run[i] in CRLF
    ensures (run + rest)[Strspn(run + rest, CRLF)..] == rest[Strspn(rest, CRLF)..]
  {
    if run == "" {
      assert run + rest == rest;
    } else {
      assert (run + rest)[1..] == run[1..] + rest;
      SkipRun(run[1..], rest);
    }
  }

  // ---------- All fields ----------

  lemma FieldStep(h: Header, eol: string, rest: string, read: seq<Header>)
    requires PrintableField(h) && IsEol(eol)
    ensures ParseHeaders(PrintField(h, eol) + rest, read) == ParseHeaders(rest, [LowerField(h)] + read)
  {
    var s := PrintField(h, eol) + rest;
    assert s[0] == h.name[0];
    ParseStep(s, read);
    FieldIsRead(h, eol, rest);
    FieldIsSkipped(h, eol, rest);
    SkipDelimiters(rest, [LowerField(h)] + read);
  }

  lemma PrintFieldsStep(hs: seq<Header>, eol: string, tail: string)
    requires hs != []
    ensures PrintFields(hs, eol) + tail == PrintField(hs[0], eol) + (PrintFields(hs[1..], eol) + tail)
  {
  }

  lemma ListedStep(hs: seq<Header>, read: seq<Header>)
    requires hs != []
    ensures Listed(hs) + read == Listed(hs[1..]) + ([LowerField(hs[0])] + read)
  {
  }

  /** Parsing printed fields lists them in reverse with lower-cased names, in front of `read`. */
  lemma {:induction false} FieldsRoundTrip(hs: seq<Header>, eol: string, tail: string, read: seq<Header>)
    requires Printable(hs) && IsEol(eol)
    ensures ParseHeaders(PrintFields(hs, eol) + tail, read) == ParseHeaders(tail, Listed(hs) + read)
    decreases |hs|
  {
    if hs == [] {
      assert PrintFields(hs, eol) + tail == tail;
      assert Listed(hs) + read == read;
    } else {
      PrintFieldsStep(hs, eol, tail);
      ListedStep(hs, read);
      FieldStep(hs[0], eol, PrintFields(hs[1..], eol) + tail, read);
      FieldsRoundTrip(hs[1..], eol, tail, [LowerField(hs[0])] + read);
    }
  }

  // ---------- The end of the fields ----------

  lemma {:induction false} FieldsLength(hs: seq<Header>)
    requires Printable(hs) && hs != []
    ensures |PrintFields(hs, CRLF)| >= 5
    ensures PrintFields(hs, CRLF)[0] !in CRLF
  {
    assert PrintFields(hs, CRLF)[0] == hs[0].name[0];
  }

  /** The blank line behind printed fields is the first one. */
  lemma {:induction false} NoEarlierEnd(hs: seq<Header>, body: string, i: nat)
    requires Printable(hs) && hs != [] && i < |PrintFields(hs, CRLF)| - 2
    ensures !MatchAt(PrintFields(hs, CRLF) + (CRLF + body), END_OF_REQUEST, i)
    decreases |hs|
  {
    hide MatchAt;
    var line := hs[0].name + (": " + hs[0].value);
    var after := PrintFields(hs[1..], CRLF) + (CRLF + body);
    var s := PrintFields(hs, CRLF) + (CRLF + body);
    assert s == line + (CRLF + after);
    if i < |line| {
      assert s[i] == line[i] && line[i] !in CRLF;
      NoMatch(s, END_OF_REQUEST, i, 0);
    } else if i == |line| {
      FieldsLength(hs[1..]);
      assert s[i + 2] == after[0];
      NoMatch(s, END_OF_REQUEST, i, 2);
    } else if i == |line| + 1 {
      assert s[i] == '\n';
      NoMatch(s, END_OF_REQUEST, i, 0);
    } else {
      var j := i - |line| - 2;
      NoEarlierEnd(hs[1..], body, j);
      assert s == (line + CRLF) + after;
      MatchBehind(line + CRLF, after, END_OF_REQUEST, j);
    }
  }

  lemma EndOfFields(hs: seq<Header>, body: string)
    requires Printable(hs) && hs != []
    ensures Find(PrintFields(hs, CRLF) + (CRLF + body), END_OF_REQUEST) == |PrintFields(hs, CRLF)| - 2
  {
    FieldsLength(hs);
    var printed := PrintFields(hs, CRLF);
    var s := printed + (CRLF + body);
    FieldsEndInCrlf(hs);
    assert s[|printed| - 2..|printed| + 2] == END_OF_REQUEST;
    forall i | 0 <= i < |printed| - 2 ensures !MatchAt(s, END_OF_REQUEST, i) {
      NoEarlierEnd(hs, body, i);
    }
    FindIs(s, END_OF_REQUEST, |printed| - 2);
  }

  lemma {:induction false} FieldsEndInCrlf(hs: seq<Header>)
    requires Printable(hs) && hs != []
    ensures var p := PrintFields(hs, CRLF); |p| >= 2 && p[|p| - 2..] == CRLF
  {
    var p := PrintFields(hs, CRLF);
    if |hs| == 1 {
      assert p == PrintField(hs[0], CRLF);
    } else {
      FieldsEndInCrlf(hs[1..]);
      var rest := PrintFields(hs[1..], CRLF);
      assert p[|p| - 2..] == rest[|rest| - 2..];
    }
  }

  // ---------- The request line ----------

  /** White space in the C locale. */
  predicate IsBlank(c: char) {
    c == ' ' || c == '\t' || c == '\n' || c == '\r' || c == '\U{b}' || c == '\U{c}'
  }

  predicate IsWord(w: string) {
    w != "" && forall i | 0 <= i < |w| :: !IsBlank(w[i])
  }

  predicate IsGap(g: string) {
    forall i | 0 <= i < |g| :: IsBlank(g[i])
  }

  lemma BlankIsSpace()
    ensures forall c :: c in SPACES <==> IsBlank(c)
  {
    forall c ensures c in SPACES <==> IsBlank(c) {
      assert SPACES[0] == ' ' && SPACES[1] == '\t' && SPACES[2] == '\n' && SPACES[3] == '\r'
          && SPACES[4] == '\U{b}' && SPACES[5] == '\U{c}' && |SPACES| == 6;
    }
  }

  /** Words set apart by white space, with some in front and behind, perhaps. */
  function Spaced(words: seq<string>, gaps: seq<string>): string
    requires |gaps| == |words| + 1
  {
    if words == [] then gaps[0] else gaps[0] + (words[0] + Spaced(words[1..], gaps[1..]))
  }

  predicate Apart(words: seq<string>, gaps: seq<string>) {
    && |gaps| == |words| + 1
    && (forall i | 0 <= i < |words| :: IsWord(words[i]))
    && (forall i | 0 <= i < |gaps| :: IsGap(gaps[i]))
    && (forall i | 0 < i < |words| :: gaps[i] != "")
  }

  /** Splitting finds the words, whatever the white space between them. */
  lemma {:induction false} SpacedWords(words: seq<string>, gaps: seq<string>)
    requires Apart(words, gaps)
    ensures Words(Spaced(words, gaps)) == words
    decreases |words|
  {
    BlankIsSpace();
    hide Words;
    if words == [] {
      GapHasNoWords(gaps[0]);
    } else {
      var rest := Spaced(words[1..], gaps[1..]);
      assert gaps[1..][0] == gaps[1];
      assert rest != "" && |words| > 1 ==> rest[0] == gaps[1][0];
      assert |words| == 1 ==> rest == gaps[1];
      SkipGap(gaps[0], words[0], rest);
      FirstWord(words[0], rest);
      SpacedWords(words[1..], gaps[1..]);
    }
  }

  lemma GapHasNoWords(gap: string)
    requires IsGap(gap)
    ensures Words(gap) == []
  {
    BlankIsSpace();
    assert gap + "" == gap;
    StrspnIs(gap, "", SPACES);
    assert gap[|gap|..] == "";
  }

  lemma SkipGap(gap: string, w: string, rest: string)
    requires IsGap(gap) && IsWord(w)
    ensures Words(gap + (w + rest)) == Words(w + rest)
  {
    BlankIsSpace();
    var s := w + rest;
    assert s[0] == w[0];
    StrspnIs(gap, s, SPACES);
    assert (gap + s)[|gap|..] == s;
    assert Strspn(s, SPACES) == 0 && s[0..] == s;
  }

  /** The first three words, and the old contents of a buffer for every word that is missing. */
  lemma ScanSpaced(words: seq<string>, gaps: seq<string>, stale: RequestLine)
    requires Apart(words, gaps)
    ensures var line := ScanLine(Spaced(words, gaps), stale);
            && line.verb == (if |words| >= 1 then words[0] else stale.verb)
            && line.path == (if |words| >= 2 then words[1] else stale.path)
            && line.version == (if |words| >= 3 then words[2] else stale.version)
  {
    SpacedWords(words, gaps);
  }

  /** The verdict on a request: which verbs the server knows, and that a line end is needed. */
  lemma Verdict(buffer: string, stale: RequestLine)
    ensures var p := ParseRequest(buffer, stale);
            && (p.Malformed? <==> forall i :: !MatchAt(buffer, "\r\n", i))
            && (!p.Malformed? ==>
                  (p.Parsed? <==> p.line.verb in {"GET", "POST", "PUT", "PATCH", "DELETE", "HEAD", "OPTIONS"}))
  {
    FindFirst(buffer, CRLF);
    hide Find, ScanLine, ParseHeaders;
    forall verb: string
      ensures verb in METHODS <==> verb in {"GET", "POST", "PUT", "PATCH", "DELETE", "HEAD", "OPTIONS"}
    {
      assert METHODS[0] == "GET" && METHODS[1] == "POST" && METHODS[2] == "PUT" && METHODS[3] == "PATCH"
          && METHODS[4] == "DELETE" && METHODS[5] == "HEAD" && METHODS[6] == "OPTIONS" && |METHODS| == 7;
    }
  }

  predicate IsLine(line: RequestLine) {
    IsWord(line.verb) && IsWord(line.path) && IsWord(line.version)
  }

  predicate PrintableLine(line: RequestLine) {
    line.verb in METHODS && IsLine(line)
  }

  function PrintLine(line: RequestLine): string {
    line.verb + (" " + (line.path + (" " + line.version)))
  }

  lemma FirstWord(w: string, rest: string)
    requires IsWord(w) && (rest != "" ==> IsBlank(rest[0]))
    ensures Words(w + rest) == [w] + Words(rest)
  {
    BlankIsSpace();
    var s := w + rest;
    assert s[0] == w[0];
    assert Strspn(s, SPACES) == 0 && s[0..] == s;
    StrcspnIs(w, rest, SPACES);
    assert s[..|w|] == w && s[|w|..] == rest;
  }

  lemma LineRoundTrip(line: RequestLine, stale: RequestLine)
    requires IsLine(line)
    ensures ScanLine(PrintLine(line), stale) == line
  {
    var words, gaps := [line.verb, line.path, line.version], ["", " ", " ", ""];
    SpacedWords(words, gaps);
    PrintedIsSpaced(line);
  }

  lemma PrintedIsSpaced(line: RequestLine)
    ensures Spaced([line.verb, line.path, line.version], ["", " ", " ", ""]) == PrintLine(line)
  {
    var a, b, c := line.verb, line.path, line.version;
    assert [a, b, c][1..] == [b, c] && [b, c][1..] == [c] && [c][1..] == [];
    assert ["", " ", " ", ""][1..] == [" ", " ", ""] && [" ", " ", ""][1..] == [" ", ""] && [" ", ""][1..] == [""];
    assert Spaced([c], [" ", ""]) == " " + (c + "");
    assert Spaced([b, c], [" ", " ", ""]) == " " + (b + (" " + (c + "")));
  }

  lemma LineFreeOfCr(line: RequestLine, i: nat)
    requires IsLine(line) && i < |PrintLine(line)|
    ensures PrintLine(line)[i] != '\r'
  {
    var c := PrintLine(line)[i];
    assert c in line.verb || c == ' ' || c in line.path || c in line.version;
  }

  lemma EndOfLine(line: RequestLine, rest: string)
    requires IsLine(line)
    ensures Find(PrintLine(line) + (CRLF + rest), CRLF) == |PrintLine(line)|
  {
    var text := PrintLine(line);
    var s := text + (CRLF + rest);
    assert s[|text|..|text| + 2] == CRLF;
    forall i | 0 <= i < |text| ensures !MatchAt(s, CRLF, i) {
      LineFreeOfCr(line, i);
      NoMatch(s, CRLF, i, 0);
    }
    FindIs(s, CRLF, |text|);
  }

  /** A printed request with a method that the server does not know is refused, whatever follows its
      line; its path and version are kept, and nothing else is. */
  lemma UnknownMethod(line: RequestLine, rest: string, stale: RequestLine, c: Connection)
    requires IsLine(line)
    requires line.verb !in {"GET", "POST", "PUT", "PATCH", "DELETE", "HEAD", "OPTIONS"}
    ensures var p := ParseRequest(PrintLine(line) + (CRLF + rest), stale);
            && !p.Parsed? && !p.Malformed?
            && Filled(c, p) == c.(path := line.path, protocolVersion := line.version)
  {
    hide Find, ScanLine, PrintLine, ParseHeaders;
    var text := PrintLine(line);
    var s := text + (CRLF + rest);
    Verdict(s, stale);
    EndOfLine(line, rest);
    assert s[..|text|] == text;
    LineRoundTrip(line, stale);
  }

  /** Text without a line end is refused, and nothing is kept. */
  lemma NoLine(buffer: string, stale: RequestLine, c: Connection)
    requires forall i :: !MatchAt(buffer, "\r\n", i)
    ensures !ParseRequest(buffer, stale).Parsed? && Filled(c, ParseRequest(buffer, stale)) == c
  {
    Verdict(buffer, stale);
  }

  /** The query is cut off at the first question mark, and the root is the index. */
  lemma RealPathIs(file: string, query: string)
    requires FreeOf(file, "?")
    ensures RealPath(file) == (if file == "/" then "/index.html" else file)
    ensures RealPath(file + "?" + query) == RealPath(file)
  {
    hide Strcspn;
    StrcspnIs(file, "", "?");
    assert file + "" == file && file[..|file|] == file;
    StrcspnIs(file, "?" + query, "?");
    assert file + "?" + query == file + ("?" + query);
    assert (file + ("?" + query))[..|file|] == file;
  }

  // ---------- The whole request ----------

  function PrintRequest(line: RequestLine, hs: seq<Header>, body: string): string {
    PrintLine(line) + (CRLF + (PrintFields(hs, CRLF) + (CRLF + body)))
  }

  lemma EolIsDelimiter(eol: string)
    requires IsEol(eol)
    ensures forall i | 0 <= i < |eol| :: eol[i] in CRLF
    ensures eol[Strspn(eol, CRLF)..] == ""
  {
  }

  lemma NothingToParse(read: seq<Header>)
    ensures ParseHeaders("", read) == read
  {
  }

  lemma EolParse(eol: string, read: seq<Header>)
    requires IsEol(eol)
    ensures ParseHeaders(eol, read) == read
  {
    hide *;
    EolIsDelimiter(eol);
    SkipDelimiters(eol, read);
    NothingToParse(read);
  }

  lemma BlockRoundTrip(hs: seq<Header>, eol: string)
    requires Printable(hs) && IsEol(eol)
    ensures ParseHeaders(eol + (PrintFields(hs, eol) + eol), []) == Listed(hs)
  {
    hide *;
    var printed := PrintFields(hs, eol);
    EolIsDelimiter(eol);
    SkipDelimiters(eol + (printed + eol), []);
    SkipRun(eol, printed + eol);
    SkipDelimiters(printed + eol, []);
    FieldsRoundTrip(hs, eol, eol, []);
    assert Listed(hs) + [] == Listed(hs);
    EolParse(eol, Listed(hs));
  }

  lemma BlockSlices(printed: string, body: string)
    ensures var text := CRLF + (printed + (CRLF + body));
            && text[2..] == printed + (CRLF + body)
            && text[..|printed| + 4] == CRLF + (printed + CRLF)
            && text[|printed| + 4..] == body
  {
  }

  lemma RestRoundTrip(line: RequestLine, hs: seq<Header>, body: string)
    requires Printable(hs) && hs != []
    ensures ParseRest(line, CRLF + (PrintFields(hs, CRLF) + (CRLF + body))) == Parsed(line, Listed(hs), body)
  {
    hide PrintFields, Listed, ParseHeaders, Find;
    FieldsLength(hs);
    EndOfFields(hs, body);
    BlockRoundTrip(hs, CRLF);
    BlockSlices(PrintFields(hs, CRLF), body);
  }

  /** Printing a request and parsing it gives back the line, the body, and the fields in reverse
      order with lower-cased names. */
  lemma RequestRoundTrip(line: RequestLine, hs: seq<Header>, body: string, stale: RequestLine)
    requires PrintableLine(line) && Printable(hs) && hs != []
    ensures ParseRequest(PrintRequest(line, hs, body), stale) == Parsed(line, Listed(hs), body)
  {
    var rest := PrintFields(hs, CRLF) + (CRLF + body);
    var s := PrintRequest(line, hs, body);
    var text := PrintLine(line);
    EndOfLine(line, rest);
    assert s[..|text|] == text;
    assert s[|text|..] == CRLF + rest;
    LineRoundTrip(line, stale);
    RestRoundTrip(line, hs, body);
  }

  // ---------- Lookup ----------

  /** `v` is the value of the last field line whose name matches without regard to case. */
  ghost predicate LastMatch(hs: seq<Header>, name: string, v: string) {
    exists i :: && 0 <= i < |hs| && Names(hs[i], name) && hs[i].value == v
                && forall j | i < j < |hs| :: !Names(hs[j], name)
  }

  /** A lookup is for a name in lower case. */
  predicate Names(h: Header, name: string) {
    IsLower(name) && SameText(h.name, name)
  }

  lemma NamesIsLower(name: string)
    ensures forall h: Header :: Names(h, name) <==> Lower(h.name) == name
  {
    forall h: Header ensures Names(h, name) <==> Lower(h.name) == name {
      LowerMatches(h.name, name);
    }
  }

  lemma {:induction false} ListedAt(hs: seq<Header>, i: nat)
    requires i < |hs|
    ensures |Listed(hs)| == |hs| && Listed(hs)[i] == LowerField(hs[|hs| - 1 - i])
  {
    if |hs| > 1 {
      ListedAt(hs[1..], if i < |hs| - 1 then i else 0);
    }
  }

  lemma ListedLookup(hs: seq<Header>, name: string)
    ensures Lookup(Listed(hs), name) == None <==> forall i | 0 <= i < |hs| :: !Names(hs[i], name)
    ensures forall v :: Lookup(Listed(hs), name) == Some(v) <==> LastMatch(hs, name, v)
  {
    NamesIsLower(name);
    hide Names, Lower;
    ListedLength(hs);
    LookupIsFirstMatch(Listed(hs), name);
    forall v ensures FirstMatch(Listed(hs), name, v) <==> LastMatch(hs, name, v) {
      if FirstMatch(Listed(hs), name, v) {
        FirstIsLast(hs, name, v);
      }
      if LastMatch(hs, name, v) {
        LastIsFirst(hs, name, v);
      }
    }
    forall i | 0 <= i < |hs| ensures Lower(hs[i].name) == name <==> Listed(hs)[|hs| - 1 - i].name == name {
      ListedAt(hs, |hs| - 1 - i);
    }
    forall i | 0 <= i < |Listed(hs)|
      ensures Listed(hs)[i].name == name <==> Lower(hs[|hs| - 1 - i].name) == name
    {
      ListedAt(hs, i);
    }
  }

  lemma FirstIsLast(hs: seq<Header>, name: string, v: string)
    requires FirstMatch(Listed(hs), name, v)
    ensures LastMatch(hs, name, v)
  {
    NamesIsLower(name);
    hide Listed, Names, Lower;
    var i :| 0 <= i < |Listed(hs)| && Listed(hs)[i] == Header(name, v)
             && forall j | 0 <= j < i :: Listed(hs)[j].name != name;
    ListedLength(hs);
    ListedAt(hs, i);
    var last := |hs| - 1 - i;
    forall j | last < j < |hs| ensures !Names(hs[j], name) {
      ListedAt(hs, |hs| - 1 - j);
    }
    assert Names(hs[last], name) && hs[last].value == v;
  }

  lemma LastIsFirst(hs: seq<Header>, name: string, v: string)
    requires LastMatch(hs, name, v)
    ensures FirstMatch(Listed(hs), name, v)
  {
    NamesIsLower(name);
    hide Listed, Names, Lower;
    var i :| 0 <= i < |hs| && Names(hs[i], name) && hs[i].value == v
             && forall j | i < j < |hs| :: !Names(hs[j], name);
    ListedLength(hs);
    var first := |hs| - 1 - i;
    ListedAt(hs, first);
    forall j | 0 <= j < first ensures Listed(hs)[j].name != name {
      ListedAt(hs, j);
    }
    assert Listed(hs)[first] == Header(name, v);
  }

  lemma {:induction false} ListedLength(hs: seq<Header>)
    ensures |Listed(hs)| == |hs|
  {
    if hs != [] {
      ListedLength(hs[1..]);
    }
  }

  /** Looking a name up in a parsed request finds the last field line that matches without regard
      to case, and finds nothing if and only if no line matches. */
  lemma LookupAfterParsing(line: RequestLine, hs: seq<Header>, body: string, stale: RequestLine, name: string)
    requires PrintableLine(line) && Printable(hs) && hs != []
    ensures var p := ParseRequest(PrintRequest(line, hs, body), stale);
            && p.Parsed?
            && (Lookup(p.headers, name) == None <==> forall i | 0 <= i < |hs| :: !Names(hs[i], name))
            && (forall v :: Lookup(p.headers, name) == Some(v) <==> LastMatch(hs, name, v))
  {
    RequestRoundTrip(line, hs, body, stale);
    ListedLookup(hs, name);
  }

  // ---------- Parsing what has been received so far ----------

  /** Everything of a parse but the body, which is whatever has arrived behind the blank line. */
  function Head(p: Parsed): Parsed {
    if p.Parsed? then p.(body := "") else p
  }

  lemma LineBeforeEnd(stream: string)
    requires IsRequestComplete(stream)
    ensures 0 <= Find(stream, CRLF) <= Find(stream, END_OF_REQUEST)
  {
    FindFirst(stream, END_OF_REQUEST);
    FindFirst(stream, CRLF);
    var p := Find(stream, END_OF_REQUEST);
    assert stream[p..p + 4][..2] == stream[p..p + 2];
    assert MatchAt(stream, CRLF, p);
  }

  /** With a field line present, the first blank line is found again behind the first line. */
  lemma BlankLineInRest(stream: string, f: nat, p: nat)
    requires f == Find(stream, CRLF) && p == Find(stream, END_OF_REQUEST) && f < p
    ensures f + 2 <= p && Find(stream[f + 2..], END_OF_REQUEST) == p - f - 2
  {
    FindFirst(stream, CRLF);
    FindFirst(stream, END_OF_REQUEST);
    MatchChar(stream, CRLF, f, 1);
    MatchChar(stream, END_OF_REQUEST, p, 0);
    assert stream == stream[..f + 2] + stream[f + 2..];
    FindBehind(stream[..f + 2], stream[f + 2..], END_OF_REQUEST);
  }

  lemma RestOfPrefix(line: RequestLine, text: string, e: nat, m: nat)
    requires |text| >= 2 && Find(text[2..], END_OF_REQUEST) == e - 6 && 6 <= e <= m <= |text|
    ensures ParseRest(line, text[..m]) == Parsed(line, ParseHeaders(text[..e], []), text[e..m])
  {
    hide Find, ParseHeaders;
    TakeDrop(text, m, 2);
    FindInPrefix(text[2..], END_OF_REQUEST, m - 2);
    TakeTake(text, m, e);
    TakeDrop(text, m, e);
  }

  lemma RestHeads(line: RequestLine, text: string, e: nat, m: nat)
    requires |text| >= 2 && Find(text[2..], END_OF_REQUEST) == e - 6 && 6 <= e <= m <= |text|
    ensures var p := ParseRest(line, text[..m]);
            && p.Parsed? && p.body == text[e..m]
            && p.(body := "") == ParseRest(line, text[..e])
  {
    RestOfPrefix(line, text, e, m);
    RestOfPrefix(line, text, e, e);
    assert text[e..e] == "";
  }

  lemma LineAndRestOfPrefix(firstLine: string, text: string, e: nat, m: nat, stale: RequestLine)
    requires |text| >= 2 && Find(text[2..], END_OF_REQUEST) == e - 6 && 6 <= e <= m <= |text|
    ensures var p := ParseLineAndRest(firstLine, text[..m], stale);
            && Head(p) == ParseLineAndRest(firstLine, text[..e], stale)
            && (p.Parsed? ==> p.body == text[e..m])
  {
    RestHeads(ScanLine(firstLine, stale), text, e, m);
  }

  lemma ParsePrefix(stream: string, f: nat, n: nat, stale: RequestLine)
    requires f == Find(stream, CRLF) && f + 2 <= n <= |stream|
    ensures ParseRequest(stream[..n], stale) == ParseLineAndRest(stream[..f], stream[f..][..n - f], stale)
  {
    FindInPrefix(stream, CRLF, n);
    TakeTake(stream, n, f);
    TakeDrop(stream, n, f);
  }

  /** A request with a field line parses the same however much of the stream has arrived behind its
      blank line; only the body differs, and it is exactly what has arrived there. */
  lemma ParseAnyPrefix(stream: string, n: nat, stale: RequestLine)
    requires IsRequestComplete(stream) && Find(stream, CRLF) < EndOf(stream) - 4
    requires EndOf(stream) <= n <= |stream|
    ensures var p := ParseRequest(stream[..n], stale);
            && Head(p) == ParseRequest(stream[..EndOf(stream)], stale)
            && (p.Parsed? ==> p.body == stream[EndOf(stream)..n])
  {
    LineBeforeEnd(stream);
    ParsePrefixes(stream, Find(stream, CRLF), EndOf(stream), n, stale);
  }

  lemma ParsePrefixes(stream: string, f: nat, e: nat, n: nat, stale: RequestLine)
    requires f == Find(stream, CRLF) && e == Find(stream, END_OF_REQUEST) + 4 && f + 4 < e <= n <= |stream|
    ensures var p := ParseRequest(stream[..n], stale);
            && Head(p) == ParseRequest(stream[..e], stale)
            && (p.Parsed? ==> p.body == stream[e..n])
  {
    hide *;
    BlankLineInRest(stream, f, e - 4);
    DropDrop(stream, f, 2);
    ParsePrefix(stream, f, n, stale);
    ParsePrefix(stream, f, e, stale);
    LineAndRestOfPrefix(stream[..f], stream[f..], e - f, n - f, stale);
    DropSlice(stream, f, e - f, n - f);
  }

  /** Whatever has arrived behind the blank line, the request line is the same. */
  lemma SameLine(stream: string, n: nat, stale: RequestLine)
    requires IsRequestComplete(stream) && EndOf(stream) <= n <= |stream|
    ensures var p, first := ParseRequest(stream[..n], stale), ParseRequest(stream[..EndOf(stream)], stale);
            p.Parsed? == first.Parsed? && (p.Parsed? ==> p.line == first.line)
  {
    hide Find;
    LineBeforeEnd(stream);
    ParsePrefix(stream, Find(stream, CRLF), n, stale);
    ParsePrefix(stream, Find(stream, CRLF), EndOf(stream), stale);
  }

  /** A request without field lines takes the bytes behind its blank line for fields if and only if
      a further blank line has arrived with something in front of it. */
  lemma ParseHeaderless(stream: string, n: nat, stale: RequestLine)
    requires IsRequestComplete(stream) && Find(stream, CRLF) == EndOf(stream) - 4
    requires EndOf(stream) <= n <= |stream|
    requires ScanLine(stream[..EndOf(stream) - 4], stale).verb in METHODS
    ensures var p, behind := ParseRequest(stream[..n], stale), stream[EndOf(stream) - 2..n];
            var z := Find(behind, END_OF_REQUEST);
            && p.Parsed?
            && (p.headers != [] <==> z != -1 && Strspn(behind, CRLF) < z + 4)
  {
    var f := Find(stream, CRLF);
    FirstCrlf(stream, f, n);
    ParsePrefix(stream, f, n, stale);
    HeaderlessRest(ScanLine(stream[..f], stale), stream[f + 2..n]);
  }

  lemma BlankLineAfterLine(line: RequestLine, more: string)
    requires PrintableLine(line)
    ensures var s, n := PrintLine(line) + (CRLF + (CRLF + more)), |PrintLine(line)|;
            && Find(s, CRLF) == n && IsRequestComplete(s) && EndOf(s) == n + 4
            && s[..n] == PrintLine(line) && s[n + 2..] == CRLF + more && s[n + 2..n + 4] == CRLF
  {
    hide Find, PrintLine;
    var s, n := PrintLine(line) + (CRLF + (CRLF + more)), |PrintLine(line)|;
    EndOfLine(line, CRLF + more);
    assert s[n..n + 4] == END_OF_REQUEST;
    assert MatchAt(s, END_OF_REQUEST, n);
    FindFirst(s, END_OF_REQUEST);
    LineBeforeEnd(s);
  }

  lemma BlankLineInFields(hs: seq<Header>)
    requires Printable(hs) && hs != []
    ensures var behind := CRLF + (PrintFields(hs, CRLF) + CRLF);
            Find(behind, END_OF_REQUEST) != -1 && Strspn(behind, CRLF) == 2
  {
    hide Find, PrintFields;
    var printed := PrintFields(hs, CRLF);
    EndOfFields(hs, "");
    FieldsLength(hs);
    assert printed + (CRLF + "") == printed + CRLF;
    FindFirst(printed + CRLF, END_OF_REQUEST);
    MatchBehind(CRLF, printed + CRLF, END_OF_REQUEST, |printed| - 2);
    FindFirst(CRLF + (printed + CRLF), END_OF_REQUEST);
    FieldsStart(hs);
    StrspnIs(CRLF, printed + CRLF, CRLF);
  }

  lemma FieldsStart(hs: seq<Header>)
    requires Printable(hs) && hs != []
    ensures PrintFields(hs, CRLF) != "" && PrintFields(hs, CRLF)[0] !in CRLF
  {
    var c := hs[0].name[0];
    assert PrintableField(hs[0]) && c !in ": \r\n";
    assert c == '\r' ==> c in ": \r\n";
    assert c == '\n' ==> c in ": \r\n";
    assert PrintFields(hs, CRLF)[0] == c;
  }

  /** What the server understands can depend on how much has arrived: printed fields behind the blank
      line of a request without field lines are taken for its fields, if they have arrived. */
  lemma HeaderlessDependsOnArrival(line: RequestLine, hs: seq<Header>, stale: RequestLine)
    requires PrintableLine(line) && Printable(hs) && hs != []
    ensures var s := PrintLine(line) + (CRLF + (CRLF + (PrintFields(hs, CRLF) + CRLF)));
            && IsRequestComplete(s)
            && var early, late := ParseRequest(s[..EndOf(s)], stale), ParseRequest(s, stale);
               early.Parsed? && late.Parsed? && early.headers == [] && late.headers != []
  {
    hide Find, PrintFields, PrintLine, ParseRequest, ScanLine, Strspn;
    var more := PrintFields(hs, CRLF) + CRLF;
    var s, n := PrintLine(line) + (CRLF + (CRLF + more)), |PrintLine(line)|;
    BlankLineAfterLine(line, more);
    BlankLineInFields(hs);
    LineRoundTrip(line, stale);
    assert s[..|s|] == s;
    assert Find(CRLF, END_OF_REQUEST) == -1;
    ParseHeaderless(s, n + 4, stale);
    ParseHeaderless(s, |s|, stale);
  }

  lemma FirstCrlf(stream: string, f: nat, n: nat)
    requires f == Find(stream, CRLF) && f + 2 <= n <= |stream|
    ensures stream[f..][..n - f] == CRLF + stream[f + 2..n]
  {
    hide Find;
    FindFirst(stream, CRLF);
    MatchChar(stream, CRLF, f, 0);
    MatchChar(stream, CRLF, f, 1);
    TakeDrop(stream, n, f);
    SliceStart(stream, f, n);
  }

  lemma HeaderlessRest(line: RequestLine, behind: string)
    ensures var p, z := ParseRest(line, CRLF + behind), Find(behind, END_OF_REQUEST);
            p.Parsed? && (p.headers != [] <==> z != -1 && Strspn(behind, CRLF) < z + 4)
  {
    hide Find, Strspn, ParseHeaders;
    var text, z := CRLF + behind, Find(behind, END_OF_REQUEST);
    assert text[2..] == behind;
    if z != -1 {
      assert text[..z + 6] == CRLF + behind[..z + 4];
      EmptyParse(text[..z + 6]);
      SpanOfBlock(behind, z + 4);
      SpanBehind(CRLF, behind[..z + 4]);
    }
  }

  /** No field is read exactly when there is nothing but line ends. */
  lemma EmptyParse(s: string)
    ensures ParseHeaders(s, []) == [] <==> Strspn(s, CRLF) == |s|
  {
    var d := Strspn(s, CRLF);
    var t := s[d..];
    SkipDelimiters(s, []);
    if t != "" {
      assert t[0] == s[d];
      ParseStep(t, []);
      ParseKeeps(AfterToken(t), [FieldAt(t)] + []);
    }
  }

  lemma {:induction false} ParseKeeps(s: string, read: seq<Header>)
    ensures |ParseHeaders(s, read)| >= |read|
    decreases |s|
  {
    var d := Strspn(s, CRLF);
    var t := s[d..];
    SkipDelimiters(s, read);
    if t != "" {
      assert t[0] == s[d] && Strcspn(t, CRLF) > 0;
      ParseStep(t, read);
      ParseKeeps(AfterToken(t), [FieldAt(t)] + read);
    }
  }

  lemma SpanOfBlock(s: string, n: nat)
    requires n <= |s|
    ensures Strspn(s[..n], CRLF) == n <==> Strspn(s, CRLF) >= n
  {
    var a, b := Strspn(s[..n], CRLF), Strspn(s, CRLF);
    assert a < n ==> s[..n][a] == s[a];
    assert b < n ==> s[..n][b] == s[b];
  }

  lemma {:induction false} SpanBehind(run: string, s: string)
    requires forall i | 0 <= i < |run| :: run[i] in CRLF
    ensures Strspn(run + s, CRLF) == |run| + Strspn(s, CRLF)
  {
    if run == "" {
      assert run + s == s;
    } else {
      assert (run + s)[1..] == run[1..] + s;
      SpanBehind(run[1..], s);
    }
  }

  // ---------- From the wire to the request ----------

  /** A printed request is complete, and its blank line is not the end of its first line. */
  lemma PrintedIsComplete(line: RequestLine, hs: seq<Header>, body: string)
    requires PrintableLine(line) && Printable(hs) && hs != []
    ensures var s := PrintRequest(line, hs, body);
            IsRequestComplete(s) && Find(s, CRLF) < EndOf(s) - 4
  {
    hide Find, PrintFields, PrintLine;
    var printed := PrintFields(hs, CRLF);
    var rest := printed + (CRLF + body);
    var front := PrintLine(line) + CRLF;
    var s := PrintRequest(line, hs, body);
    assert s == front + rest;
    EndOfFields(hs, body);
    FieldsLength(hs);
    FindFirst(rest, END_OF_REQUEST);
    MatchBehind(front, rest, END_OF_REQUEST, |printed| - 2);
    FindFirst(s, END_OF_REQUEST);
    EndOfLine(line, rest);
    LineBeforeEnd(s);
    assert s[|PrintLine(line)| + 2] == printed[0];
    NoMatch(s, END_OF_REQUEST, |PrintLine(line)|, 2);
  }

  /** A printed request parses as printed, however much of what is behind it has arrived. */
  lemma PrintedPrefix(line: RequestLine, hs: seq<Header>, body: string, n: nat, stale: RequestLine)
    requires PrintableLine(line) && Printable(hs) && hs != []
    requires var s := PrintRequest(line, hs, body);
             IsRequestComplete(s) && EndOf(s) <= n <= |s|
    ensures Head(ParseRequest(PrintRequest(line, hs, body)[..n], stale)) == Parsed(line, Listed(hs), "")
  {
    hide Find, ParseRequest, PrintRequest, Listed;
    var stream := PrintRequest(line, hs, body);
    PrintedIsComplete(line, hs, body);
    assert stream[..|stream|] == stream;
    ParseAnyPrefix(stream, n, stale);
    ParseAnyPrefix(stream, |stream|, stale);
    RequestRoundTrip(line, hs, body, stale);
  }

  /** A client prints a request, with anything behind it, and the network cuts it into pieces at
      will. Once the server passes the request on, it parses the line and the fields as printed. */
  lemma SentRequestIsUnderstood(line: RequestLine, hs: seq<Header>, body: string, answers: seq<Io>,
                                stale: RequestLine)
    requires PrintableLine(line) && Printable(hs) && hs != []
    ensures var r := RecvRun(Rx("", PrintRequest(line, hs, body), Recv), answers);
            r.state == SendHeaders ==>
              Head(ParseRequest(r.buffer, stale)) == Parsed(line, Listed(hs), "")
  {
    hide Find, ParseRequest, RecvRun, PrintRequest, Listed;
    var stream := PrintRequest(line, hs, body);
    var r := RecvRun(Rx("", stream, Recv), answers);
    PrintedIsComplete(line, hs, body);
    AnyFragmentation(stream, answers);
    if r.state == SendHeaders {
      assert r.buffer == stream[..|r.buffer|];
      PrintedPrefix(line, hs, body, |r.buffer|, stale);
    }
  }
}
