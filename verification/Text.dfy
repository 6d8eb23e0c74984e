/**
 The few string operations the GitOps files are edited with: trimming, splitting
 on one character, joining, and substring search, with the laws relating them.
 */
module Text {

  /** Unicode White_Space, which is what trimming removes at both ends. */
  predicate IsSpace(c: char) {
    || '\t' <= c <= '\r' || c == ' ' || c == '\U{85}' || c == '\U{A0}' || c == '\U{1680}'
    || '\U{2000}' <= c <= '\U{200A}' || c == '\U{2028}' || c == '\U{2029}' || c == '\U{202F}'
    || c == '\U{205F}' || c == '\U{3000}'
  }

  function TrimLeft(s: string): string {
    if s != "" && IsSpace(s[0]) then TrimLeft(s[1..]) else s
  }

  function TrimRight(s: string): string {
    if s != "" && IsSpace(s[|s| - 1]) then TrimRight(s[..|s| - 1]) else s
  }

  function Trim(s: string): string {
    TrimRight(TrimLeft(s))
  }

  const UPPER := {'A', 'B', 'C', 'D', 'E', 'F', 'G', 'H', 'I', 'J', 'K', 'L', 'M',
                  'N', 'O', 'P', 'Q', 'R', 'S', 'T', 'U', 'V', 'W', 'X', 'Y', 'Z'}
  const LOWER := {'a', 'b', 'c', 'd', 'e', 'f', 'g', 'h', 'i', 'j', 'k', 'l', 'm',
                  'n', 'o', 'p', 'q', 'r', 's', 't', 'u', 'v', 'w', 'x', 'y', 'z'}
  const NUMERALS := {'0', '1', '2', '3', '4', '5', '6', '7', '8', '9'}

  lemma LettersAre(c: char)
    ensures c in UPPER <==> 'A' <= c <= 'Z'
    ensures c in LOWER <==> 'a' <= c <= 'z'
    ensures c in NUMERALS <==> '0' <= c <= '9'
  {
  }

  predicate HasPrefix(s: string, prefix: string) {
    prefix <= s
  }

  predicate ContainsText(s: string, sub: string) {
    sub <= s || (s != "" && ContainsText(s[1..], sub))
  }

  /** The pieces of `s` between occurrences of `sep`; never empty. */
  function Split(s: string, sep: char): (parts: seq<string>)
    ensures |parts| >= 1
  {
    if s == "" then [""]
    else
      var rest := Split(s[1..], sep);
      if s[0] == sep then [""] + rest else [[s[0]] + rest[0]] + rest[1..]
  }

  function Join(parts: seq<string>, sep: char): string {
    if |parts| == 0 then ""
    else if |parts| == 1 then parts[0]
    else parts[0] + [sep] + Join(parts[1..], sep)
  }

  ghost predicate Free(parts: seq<string>, sep: char) {
    forall p | p in parts :: sep !in p
  }

  // ---- trimming ----

  lemma {:induction false} TrimLeftSkips(w: string, s: string)
    requires forall c | c in w :: IsSpace(c)
    ensures TrimLeft(w + s) == TrimLeft(s)
  {
    if w == "" {
      assert w + s == s;
    } else {
      assert (w + s)[0] == w[0] && (w + s)[1..] == w[1..] + s;
      TrimLeftSkips(w[1..], s);
    }
  }

  lemma {:induction false} TrimRightStops(s: string, t: string)
    requires t != "" && !IsSpace(t[0])
    ensures |TrimRight(s + t)| > |s| && s + t[..1] <= TrimRight(s + t)
    decreases |t|
  {
    var u := s + t;
    if IsSpace(u[|u| - 1]) {
      assert u[..|u| - 1] == s + t[..|t| - 1];
      TrimRightStops(s, t[..|t| - 1]);
    }
  }

  lemma TrimTight(s: string)
    requires s != "" && !IsSpace(s[0]) && !IsSpace(s[|s| - 1])
    ensures Trim(s) == s
  {
  }

  /** Trimming leaves nothing to trim, and only takes space away. */
  lemma {:induction false} TrimRightShape(s: string)
    ensures TrimRight(s) == "" || !IsSpace(TrimRight(s)[|TrimRight(s)| - 1])
    ensures TrimRight(s) <= s
    ensures TrimRight(s) != "" ==> TrimRight(s)[0] == s[0]
  {
    if s != "" && IsSpace(s[|s| - 1]) {
      TrimRightShape(s[..|s| - 1]);
    }
  }

  lemma {:induction false} TrimLeftShape(s: string)
    ensures TrimLeft(s) == "" || !IsSpace(TrimLeft(s)[0])
    ensures |TrimLeft(s)| <= |s| && TrimLeft(s) == s[|s| - |TrimLeft(s)|..]
    ensures forall c | c in s[..|s| - |TrimLeft(s)|] :: IsSpace(c)
  {
    if s != "" && IsSpace(s[0]) {
      TrimLeftShape(s[1..]);
      assert s[..|s| - |TrimLeft(s)|] == [s[0]] + s[1..][..|s| - 1 - |TrimLeft(s)|];
    }
  }

  lemma TrimIdempotent(s: string)
    ensures Trim(Trim(s)) == Trim(s)
  {
    TrimLeftShape(s);
    TrimRightShape(TrimLeft(s));
    if Trim(s) != "" {
      TrimTight(Trim(s));
    }
  }

  // ---- splitting and joining ----

  lemma {:induction false} JoinOfSplit(s: string, sep: char)
    ensures Join(Split(s, sep), sep) == s
    ensures Free(Split(s, sep), sep)
  {
    if s == "" {
    } else {
      JoinOfSplit(s[1..], sep);
      var rest := Split(s[1..], sep);
      var parts := Split(s, sep);
      if s[0] == sep {
        assert parts[1..] == rest;
        assert Join(parts, sep) == "" + [sep] + Join(rest, sep);
      } else {
        assert parts[0] == [s[0]] + rest[0] && parts[1..] == rest[1..];
        assert forall c | c in parts[0] :: c == s[0] || c in rest[0];
        assert Join(parts, sep) == [s[0]] + Join(rest, sep);
      }
    }
  }

  lemma {:induction false} SplitFree(s: string, sep: char)
    requires sep !in s
    ensures Split(s, sep) == [s]
  {
    if s == "" {
    } else {
      SplitFree(s[1..], sep);
      assert s == [s[0]] + s[1..];
    }
  }

  lemma {:induction false} SplitAppend(a: string, b: string, sep: char)
    ensures Split(a + [sep] + b, sep) == Split(a, sep) + Split(b, sep)
  {
    if a == "" {
      assert (a + [sep] + b)[1..] == b;
    } else {
      assert (a + [sep] + b)[1..] == a[1..] + [sep] + b && (a + [sep] + b)[0] == a[0];
      SplitAppend(a[1..], b, sep);
    }
  }

  lemma {:induction false} SplitOfJoin(parts: seq<string>, sep: char)
    requires |parts| >= 1 && Free(parts, sep)
    ensures Split(Join(parts, sep), sep) == parts
  {
    SplitFree(parts[0], sep);
    if |parts| <= 1 {
    } else {
      SplitOfJoin(parts[1..], sep);
      SplitAppend(parts[0], Join(parts[1..], sep), sep);
      assert parts == [parts[0]] + parts[1..];
    }
  }

  /** `parts` with `b` put at the end of the last one. */
  function Glue(parts: seq<string>, b: string): seq<string>
    requires |parts| >= 1
  {
    parts[..|parts| - 1] + [parts[|parts| - 1] + b]
  }

  lemma GlueTail(first: string, rest: seq<string>, b: string)
    requires |rest| >= 1
    ensures Glue([first] + rest, b) == [first] + Glue(rest, b)
  {
  }

  lemma GlueHead(c: char, rest: seq<string>, b: string)
    requires |rest| >= 1
    ensures var g := Glue(rest, b);
            Glue([[c] + rest[0]] + rest[1..], b) == [[c] + g[0]] + g[1..]
  {
    if |rest| == 1 {
      assert [c] + rest[0] + b == [c] + (rest[0] + b);
    } else {
      var parts := [[c] + rest[0]] + rest[1..];
      assert parts[|parts| - 1] == rest[|rest| - 1];
      assert parts[..|parts| - 1] == [[c] + rest[0]] + rest[1..|rest| - 1];
      assert Glue(rest, b)[1..] == rest[1..|rest| - 1] + [rest[|rest| - 1] + b];
    }
  }

  /** Appending free text only extends the last piece. */
  lemma {:induction false} SplitGlue(a: string, b: string, sep: char)
    requires sep !in b
    ensures Split(a + b, sep) == Glue(Split(a, sep), b)
  {
    if a == "" {
      assert a + b == b;
      SplitFree(b, sep);
    } else {
      assert (a + b)[0] == a[0] && (a + b)[1..] == a[1..] + b;
      SplitGlue(a[1..], b, sep);
      hide Glue;
      GlueTail("", Split(a[1..], sep), b);
      GlueHead(a[0], Split(a[1..], sep), b);
    }
  }

  lemma {:induction false} JoinLength(parts: seq<string>, sep: char)
    requires |parts| >= 1
    ensures |Join(parts, sep)| >= |parts| - 1 + |parts[|parts| - 1]|
  {
    if |parts| <= 1 {
    } else {
      JoinLength(parts[1..], sep);
    }
  }
}
