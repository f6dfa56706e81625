/** The C string functions the request parser relies on. */
module CStrings {

  const CRLF := "\r\n"
  const END_OF_REQUEST := "\r\n\r\n"

  // ---------- Slices of slices ----------

  lemma DropDrop(s: string, a: nat, b: nat)
    requires a + b <= |s|
    ensures s[a..][b..] == s[a + b..]
  {
  }

  lemma DropSlice(s: string, a: nat, b: nat, c: nat)
    requires b <= c && a + c <= |s|
    ensures s[a..][b..c] == s[a + b..a + c]
  {
  }

  lemma TakeTake(s: string, a: nat, b: nat)
    requires b <= a <= |s|
    ensures s[..a][..b] == s[..b]
  {
  }

  lemma TakeDrop(s: string, a: nat, b: nat)
    requires b <= a <= |s|
    ensures s[..a][b..] == s[b..][..a - b]
    ensures s[..a][b..] == s[b..a]
  {
  }

  lemma SliceStart(s: string, a: nat, b: nat)
    requires a + 2 <= b <= |s|
    ensures s[a..b] == [s[a], s[a + 1]] + s[a + 2..b]
  {
  }

  // ---------- Searching ----------

  predicate MatchAt(s: string, pattern: string, i: int) {
    0 <= i <= |s| - |pattern| && s[i..i + |pattern|] == pattern
  }

  /** strstr: the first position of `pattern`, or -1. */
  function Find(s: string, pattern: string): (r: int)
    ensures r == -1 || 0 <= r <= |s| - |pattern|
  {
    if |s| < |pattern| then -1
    else if s[..|pattern|] == pattern then 0
    else if s == "" then -1
    else
      var r := Find(s[1..], pattern);
      if r == -1 then -1 else r + 1
  }

  lemma MatchBehind(a: string, b: string, pattern: string, j: nat)
    ensures MatchAt(a + b, pattern, |a| + j) <==> MatchAt(b, pattern, j)
  {
    if j + |pattern| <= |b| {
      assert (a + b)[|a| + j..|a| + j + |pattern|] == b[j..j + |pattern|];
    }
  }

  lemma {:induction false} FindFirst(s: string, pattern: string)
    ensures var r := Find(s, pattern);
            && (r == -1 || MatchAt(s, pattern, r))
            && (forall i | MatchAt(s, pattern, i) :: 0 <= r <= i)
  {
    if |s| >= |pattern| && s[..|pattern|] != pattern && s != "" {
      FindFirst(s[1..], pattern);
      var r := Find(s[1..], pattern);
      assert s == [s[0]] + s[1..];
      if r != -1 {
        MatchBehind([s[0]], s[1..], pattern, r);
      }
      forall i | MatchAt(s, pattern, i) ensures i > 0 && MatchAt(s[1..], pattern, i - 1) {
        assert s[0..0 + |pattern|] == s[..|pattern|];
        MatchBehind([s[0]], s[1..], pattern, i - 1);
      }
    }
  }

  /** The first match is the only match with none before it. */
  lemma FindIs(s: string, pattern: string, r: int)
    requires MatchAt(s, pattern, r)
    requires forall i | 0 <= i < r :: !MatchAt(s, pattern, i)
    ensures Find(s, pattern) == r
  {
    FindFirst(s, pattern);
  }

  lemma NoMatch(s: string, pattern: string, i: nat, j: nat)
    requires j < |pattern| && i + j < |s| && s[i + j] != pattern[j]
    ensures !MatchAt(s, pattern, i)
  {
    if i + |pattern| <= |s| {
      assert s[i..i + |pattern|][j] == s[i + j];
    }
  }

  lemma MatchChar(s: string, pattern: string, i: nat, j: nat)
    requires MatchAt(s, pattern, i) && j < |pattern|
    ensures s[i + j] == pattern[j]
  {
    assert s[i..i + |pattern|][j] == s[i + j];
  }

  lemma FindBehind(front: string, rest: string, pattern: string)
    requires Find(front + rest, pattern) >= |front|
    ensures Find(rest, pattern) == Find(front + rest, pattern) - |front|
  {
    var r := Find(front + rest, pattern);
    FindFirst(front + rest, pattern);
    MatchBehind(front, rest, pattern, r - |front|);
    forall i | 0 <= i < r - |front| ensures !MatchAt(rest, pattern, i) {
      MatchBehind(front, rest, pattern, i);
    }
    FindIs(rest, pattern, r - |front|);
  }

  /** What a prefix of the text shows of the first match. */
  lemma FindInPrefix(s: string, pattern: string, n: nat)
    requires n <= |s|
    ensures Find(s[..n], pattern) ==
              if Find(s, pattern) >= 0 && Find(s, pattern) + |pattern| <= n then Find(s, pattern) else -1
  {
    FindFirst(s, pattern);
    FindFirst(s[..n], pattern);
    forall i ensures MatchAt(s[..n], pattern, i) <==> MatchAt(s, pattern, i) && i + |pattern| <= n {
      if 0 <= i && i + |pattern| <= n {
        assert s[..n][i..i + |pattern|] == s[i..i + |pattern|];
      }
    }
  }

  /** strcspn: the length of the leading run of characters outside `reject`. */
  function Strcspn(s: string, reject: string): (n: nat)
    ensures n <= |s| && (n < |s| ==> s[n] in reject)
    ensures forall i | 0 <= i < n :: s[i] !in reject
  {
    if s == "" || s[0] in reject then 0 else 1 + Strcspn(s[1..], reject)
  }

  /** strspn: the length of the leading run of characters inside `accept`. */
  function Strspn(s: string, accept: string): (n: nat)
    ensures n <= |s| && (n < |s| ==> s[n] !in accept)
    ensures forall i | 0 <= i < n :: s[i] in accept
  {
    if s == "" || s[0] !in accept then 0 else 1 + Strspn(s[1..], accept)
  }

  /** strcmp: the first difference decides. */
  function Strcmp(s: string, t: string): int {
    if s == "" || t == "" then if s == t then 0 else if s == "" then -1 else 1
    else if s[0] == t[0] then Strcmp(s[1..], t[1..])
    else if s[0] < t[0] then -1 else 1
  }

  /** The first difference is at `n`, and there `s` is greater, or goes on where `t` ends. */
  predicate GreaterAt(s: string, t: string, n: nat) {
    n < |s| && n <= |t| && s[..n] == t[..n] && (n == |t| || s[n] > t[n])
  }

  lemma GreaterLater(s: string, t: string, n: nat)
    requires s != "" && t != "" && s[0] == t[0]
    ensures GreaterAt(s, t, n + 1) <==> GreaterAt(s[1..], t[1..], n)
  {
    if n < |s| - 1 && n < |t| {
      assert s[..n + 1] == [s[0]] + s[1..][..n] && t[..n + 1] == [t[0]] + t[1..][..n];
    }
  }

  lemma {:induction false} StrcmpExact(s: string, t: string)
    ensures Strcmp(s, t) > 0 <==> exists n: nat :: GreaterAt(s, t, n)
  {
    if s != "" && t != "" && s[0] == t[0] {
      StrcmpExact(s[1..], t[1..]);
      if n: nat :| GreaterAt(s[1..], t[1..], n) {
        GreaterLater(s, t, n);
      }
      if n: nat :| GreaterAt(s, t, n) {
        GreaterLater(s, t, n - 1);
      }
    } else if s != "" {
      assert GreaterAt(s, t, 0) <==> t == "" || s[0] > t[0];
    }
  }

  predicate FreeOf(s: string, chars: string) {
    forall i | 0 <= i < |s| :: s[i] !in chars
  }

  /** A run that is followed by a rejected character, or by nothing, is found whole. */
  lemma StrcspnIs(run: string, rest: string, reject: string)
    requires FreeOf(run, reject) && (rest != "" ==> rest[0] in reject)
    ensures Strcspn(run + rest, reject) == |run|
  {
    assert forall i | 0 <= i < |run| :: (run + rest)[i] == run[i];
    assert rest != "" ==> (run + rest)[|run|] == rest[0];
  }

  lemma StrspnIs(run: string, rest: string, accept: string)
    requires (forall i | 0 <= i < |run| :: run[i] in accept) && (rest != "" ==> rest[0] !in accept)
    ensures Strspn(run + rest, accept) == |run|
  {
    assert forall i | 0 <= i < |run| :: (run + rest)[i] == run[i];
    assert rest != "" ==> (run + rest)[|run|] == rest[0];
  }

  /** tolower in the C locale. */
  function LowerChar(c: char): char {
    if 'A' <= c <= 'Z' then (c as int - 'A' as int + 'a' as int) as char else c
  }

  function Lower(s: string): string {
    seq(|s|, i requires 0 <= i < |s| => LowerChar(s[i]))
  }

  /** The same character, or the same letter in the other case. */
  predicate SameLetter(a: char, b: char) {
    || a == b
    || ('A' <= a <= 'Z' && b as int == a as int + 32)
    || ('A' <= b <= 'Z' && a as int == b as int + 32)
  }

  /** Equality without regard to case, as strcasecmp sees it in the C locale. */
  predicate SameText(s: string, t: string) {
    |s| == |t| && forall i | 0 <= i < |s| :: SameLetter(s[i], t[i])
  }

  predicate IsLower(s: string) {
    forall i | 0 <= i < |s| :: !('A' <= s[i] <= 'Z')
  }

  lemma LowerIsLower(s: string)
    ensures IsLower(Lower(s)) && SameText(s, Lower(s))
  {
    forall i | 0 <= i < |s| ensures SameLetter(s[i], Lower(s)[i]) && !('A' <= Lower(s)[i] <= 'Z') {
      assert Lower(s)[i] == LowerChar(s[i]);
    }
  }

  /** A lower-case text is what lowering gives exactly for the texts equal to it without regard to case. */
  lemma LowerMatches(s: string, t: string)
    ensures Lower(s) == t <==> IsLower(t) && SameText(s, t)
  {
    LowerIsLower(s);
    if IsLower(t) && SameText(s, t) {
      forall i | 0 <= i < |s| ensures LowerChar(s[i]) == t[i] {
        assert SameLetter(s[i], t[i]);
      }
    }
  }

  method ToLower(s: string) returns (lower: string)
    ensures lower == Lower(s) && IsLower(lower) && SameText(s, lower)
  {
    LowerIsLower(s);
    lower := "";
    for i := 0 to |s|
      invariant lower == Lower(s)[..i]
    {
      lower := lower + [LowerChar(s[i])];
    }
  }
}
