/** The string operations the council's Python code relies on. */
module Text {
  import opened Wrappers

  /** `c.lower()` for ASCII letters; other characters are kept. */
  function LowerChar(c: char): (r: char)
    ensures 'A' <= c <= 'Z' ==> 'a' <= r <= 'z' && r as int == c as int + 32
    ensures !('A' <= c <= 'Z') ==> r == c
  {
    if 'A' <= c <= 'Z' then (c as int + 32) as char else c
  }

  /** `s.lower()`, character by character. */
  function Lower(s: string): (r: string)
    ensures |r| == |s|
    ensures forall i :: 0 <= i < |s| ==> r[i] == LowerChar(s[i])
  {
    seq(|s|, i requires 0 <= i < |s| => LowerChar(s[i]))
  }

  /** `part` occurs in `s` starting at position `i`. */
  predicate OccursAt(s: string, part: string, i: int)
  {
    0 <= i && i + |part| <= |s| && s[i..i + |part|] == part
  }

  /** `part in s`, scanning the windows of `s` from the left. */
  predicate Contains(s: string, part: string)
    decreases |s|
  {
    if |s| < |part| then false
    else s[..|part|] == part || (s != [] && Contains(s[1..], part))
  }

  /** Contains means exactly that `part` occurs at some position of `s`. */
  lemma {:induction false} ContainsAt(s: string, part: string)
    ensures Contains(s, part) <==> exists i :: OccursAt(s, part, i)
    decreases |s|
  {
    if |s| >= |part| {
      assert OccursAt(s, part, 0) <==> s[..|part|] == part;
      if s != [] {
        ContainsAt(s[1..], part);
        if Contains(s[1..], part) {
          var i :| OccursAt(s[1..], part, i);
          assert OccursAt(s, part, i + 1);
        }
        if exists i :: OccursAt(s, part, i) {
          var i :| OccursAt(s, part, i);
          if i > 0 {
            assert OccursAt(s[1..], part, i - 1);
          }
        }
      }
    }
  }

  /** The characters Python's argument-less `str.strip()` removes. */
  const Whitespace: set<char> :=
    {'\t', '\n', '\U{0B}', '\U{0C}', '\r', '\U{1C}', '\U{1D}', '\U{1E}', '\U{1F}', ' ',
     '\U{85}', '\U{A0}', '\U{1680}', '\U{2000}', '\U{2001}', '\U{2002}', '\U{2003}',
     '\U{2004}', '\U{2005}', '\U{2006}', '\U{2007}', '\U{2008}', '\U{2009}', '\U{200A}',
     '\U{2028}', '\U{2029}', '\U{202F}', '\U{205F}', '\U{3000}'}

  /** `s.lstrip(cs)`: what is left after dropping leading characters of `cs`. */
  function TrimStart(s: string, cs: set<char>): string
  {
    if s != [] && s[0] in cs then TrimStart(s[1..], cs) else s
  }

  /** Left-stripping leaves a suffix that does not start with a `cs` character, having cut only `cs` characters. */
  lemma {:induction false} TrimStartSuffix(s: string, cs: set<char>)
    ensures var r := TrimStart(s, cs);
            && |r| <= |s| && r == s[|s| - |r|..]
            && (r == [] || r[0] !in cs)
            && forall i :: 0 <= i < |s| - |r| ==> s[i] in cs
  {
    if s != [] && s[0] in cs {
      TrimStartSuffix(s[1..], cs);
      var r := TrimStart(s, cs);
      forall i | 0 <= i < |s| - |r|
        ensures s[i] in cs
      {
        if i > 0 {
          assert s[i] == s[1..][i - 1];
        }
      }
    }
  }

  /** `s.rstrip(cs)`: what is left after dropping trailing characters of `cs`. */
  function TrimEnd(s: string, cs: set<char>): string
  {
    if s != [] && s[|s| - 1] in cs then TrimEnd(s[..|s| - 1], cs) else s
  }

  /** Right-stripping leaves a prefix that does not end with a `cs` character, having cut only `cs` characters. */
  lemma {:induction false} TrimEndPrefix(s: string, cs: set<char>)
    ensures var r := TrimEnd(s, cs);
            && |r| <= |s| && r == s[..|r|]
            && (r == [] || r[|r| - 1] !in cs)
            && forall i :: |r| <= i < |s| ==> s[i] in cs
  {
    if s != [] && s[|s| - 1] in cs {
      TrimEndPrefix(s[..|s| - 1], cs);
      var r := TrimEnd(s, cs);
      forall i | |r| <= i < |s|
        ensures s[i] in cs
      {
        if i < |s| - 1 {
          assert s[i] == s[..|s| - 1][i];
        }
      }
    }
  }

  /** `r` is `s` with a prefix and a suffix made only of characters of `cs` cut away, `r` starting at `a`. */
  predicate StrippedAt(s: string, r: string, a: int, cs: set<char>)
  {
    && 0 <= a && a + |r| <= |s| && r == s[a..a + |r|]
    && (forall i :: 0 <= i < a ==> s[i] in cs)
    && (forall i :: a + |r| <= i < |s| ==> s[i] in cs)
  }

  /**
   * `s.strip(cs)`: the longest infix of `s` that neither starts nor ends
   * with a character of `cs`, everything cut away being in `cs`.
   */
  function Trim(s: string, cs: set<char>): (r: string)
    ensures exists a :: StrippedAt(s, r, a, cs)
    ensures r == [] || (r[0] !in cs && r[|r| - 1] !in cs)
  {
    TrimBothEnds(s, cs);
    TrimEnd(TrimStart(s, cs), cs)
  }

  /** Taking a prefix of a suffix is taking an infix. */
  lemma SliceOfSuffix(s: string, a: nat, k: nat)
    requires a + k <= |s|
    ensures s[a..][..k] == s[a..a + k]
  {
  }

  /** Cutting `cs` characters off the front of `s`, giving `t`, then off the back of `t`, giving `r`, strips `s` to `r`. */
  lemma StrippedCompose(s: string, t: string, r: string, cs: set<char>)
    requires |t| <= |s| && t == s[|s| - |t|..] && forall i :: 0 <= i < |s| - |t| ==> s[i] in cs
    requires |r| <= |t| && r == t[..|r|] && forall i :: |r| <= i < |t| ==> t[i] in cs
    requires (t == [] || t[0] !in cs) && (r == [] || r[|r| - 1] !in cs)
    ensures StrippedAt(s, r, |s| - |t|, cs)
    ensures r == [] || (r[0] !in cs && r[|r| - 1] !in cs)
  {
    var a := |s| - |t|;
    SliceOfSuffix(s, a, |r|);
    forall i | a + |r| <= i < |s|
      ensures s[i] in cs
    {
      assert s[i] == t[i - a];
    }
    if r != [] {
      assert r[0] == t[0];
    }
  }

  /** Right-stripping the left-stripped string leaves an infix cut out of `s` by `cs` characters only. */
  lemma TrimBothEnds(s: string, cs: set<char>)
    ensures StrippedAt(s, TrimEnd(TrimStart(s, cs), cs), |s| - |TrimStart(s, cs)|, cs)
    ensures var r := TrimEnd(TrimStart(s, cs), cs); r == [] || (r[0] !in cs && r[|r| - 1] !in cs)
  {
    var t := TrimStart(s, cs);
    TrimStartSuffix(s, cs);
    TrimEndPrefix(t, cs);
    StrippedCompose(s, t, TrimEnd(t, cs), cs);
  }

  /** Stripping twice removes nothing more. */
  lemma TrimIdempotent(s: string, cs: set<char>)
    ensures Trim(Trim(s, cs), cs) == Trim(s, cs)
  {
    var r := Trim(s, cs);
    assert TrimStart(r, cs) == r;
    assert TrimEnd(r, cs) == r;
  }

  /** `sep.join(parts)`. */
  function Join(sep: string, parts: seq<string>): (r: string)
    ensures |parts| == 1 ==> r == parts[0]
    ensures parts == [] ==> r == ""
  {
    if parts == [] then "" else if |parts| == 1 then parts[0] else parts[0] + sep + Join(sep, parts[1..])
  }

  /** Joining one more part puts the separator between the parts joined so far and the new part. */
  lemma {:induction false} JoinSnoc(sep: string, parts: seq<string>, last: string)
    requires parts != []
    ensures Join(sep, parts + [last]) == Join(sep, parts) + sep + last
    decreases |parts|
  {
    var all := parts + [last];
    if |parts| == 1 {
      assert all[1..] == [last];
    } else {
      assert all[1..] == parts[1..] + [last];
      JoinSnoc(sep, parts[1..], last);
    }
  }

  /** `s.split(c)[-1]`: the part of `s` after its last `c`. */
  function AfterLast(s: string, c: char): string
  {
    if s == [] then []
    else if s[|s| - 1] == c then []
    else AfterLast(s[..|s| - 1], c) + [s[|s| - 1]]
  }

  /** The part after the last `c` is a suffix of `s` free of `c`, preceded by a `c` unless it is all of `s`. */
  lemma {:induction false} AfterLastSuffix(s: string, c: char)
    ensures var r := AfterLast(s, c);
            && |r| <= |s| && r == s[|s| - |r|..]
            && c !in r
            && (|r| < |s| ==> s[|s| - |r| - 1] == c)
  {
    if s != [] && s[|s| - 1] != c {
      AfterLastSuffix(s[..|s| - 1], c);
    }
  }

  /** The position of the first `c` in `s`. */
  function FirstIndex(s: string, c: char): (r: Option<nat>)
    ensures r.None? <==> c !in s
    ensures r.Some? ==> r.value < |s| && s[r.value] == c && c !in s[..r.value]
    ensures r.Some? ==> forall a :: 0 <= a < r.value ==> s[a] != c
  {
    if s == [] then None
    else if s[0] == c then Some(0)
    else
      match FirstIndex(s[1..], c)
      case None => None
      case Some(k) => Some(k + 1)
  }

  /** The position of the last `c` in `s`. */
  function LastIndex(s: string, c: char): (r: Option<nat>)
    ensures r.None? <==> c !in s
    ensures r.Some? ==> r.value < |s| && s[r.value] == c && c !in s[r.value + 1..]
    ensures r.Some? ==> forall a :: r.value < a < |s| ==> s[a] != c
  {
    if s == [] then None
    else if s[|s| - 1] == c then Some(|s| - 1)
    else LastIndex(s[..|s| - 1], c)
  }

  /** Python's `a <= b` on strings: lexicographic order of code points. */
  predicate LexLe(a: string, b: string)
  {
    if a == [] then true
    else if b == [] then false
    else if a[0] != b[0] then a[0] < b[0]
    else LexLe(a[1..], b[1..])
  }

  /** Any two strings are comparable. */
  lemma {:induction false} LexLeTotal(a: string, b: string)
    ensures LexLe(a, b) || LexLe(b, a)
  {
    if a != [] && b != [] && a[0] == b[0] {
      LexLeTotal(a[1..], b[1..]);
    }
  }

  /** The order is transitive. */
  lemma {:induction false} LexLeTransitive(a: string, b: string, c: string)
    requires LexLe(a, b) && LexLe(b, c)
    ensures LexLe(a, c)
  {
    if a != [] && b != [] && c != [] && a[0] == b[0] && b[0] == c[0] {
      LexLeTransitive(a[1..], b[1..], c[1..]);
    }
  }
}
