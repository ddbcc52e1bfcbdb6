/**
 * Python string operations the core relies on: `sub in s`, `s.lower()`,
 * `s.strip()`, `s.split(sep)`, `s.endswith(...)` and string ordering.
 */
module Text {
  import opened Wrappers

  /** `c.lower()` for ASCII letters; other characters are left as they are. */
  function LowerChar(c: char): char {
    if 'A' <= c <= 'Z' then (c as int + 32) as char else c
  }

  /** `s.lower()`, character by character. */
  function Lower(s: string): (r: string)
    ensures |r| == |s|
    ensures forall i :: 0 <= i < |s| ==> r[i] == LowerChar(s[i])
  {
    if s == [] then [] else [LowerChar(s[0])] + Lower(s[1..])
  }

  lemma LowerAppend(a: string, b: string)
    ensures Lower(a + b) == Lower(a) + Lower(b)
  {
    assert forall i :: 0 <= i < |a + b| ==> Lower(a + b)[i] == (Lower(a) + Lower(b))[i];
  }

  predicate IsPrefix(p: string, s: string) {
    |p| <= |s| && s[..|p|] == p
  }

  predicate EndsWith(s: string, suffix: string) {
    |suffix| <= |s| && s[|s| - |suffix|..] == suffix
  }

  /** `sub in s`: some position of `s` starts a copy of `sub`. */
  predicate Contains(s: string, sub: string)
    decreases |s|
  {
    IsPrefix(sub, s) || (|s| > 0 && Contains(s[1..], sub))
  }

  predicate OccursAt(s: string, sub: string, i: int) {
    0 <= i && i + |sub| <= |s| && s[i..i + |sub|] == sub
  }

  lemma {:induction false} ContainsIff(s: string, sub: string)
    ensures Contains(s, sub) <==> exists i :: OccursAt(s, sub, i)
    decreases |s|
  {
    if IsPrefix(sub, s) {
      assert OccursAt(s, sub, 0);
    } else if |s| > 0 {
      ContainsIff(s[1..], sub);
      if Contains(s[1..], sub) {
        var i :| OccursAt(s[1..], sub, i);
        assert s[1..][i..i + |sub|] == s[i + 1..i + 1 + |sub|];
        assert OccursAt(s, sub, i + 1);
      } else {
        forall i | 1 <= i
          ensures OccursAt(s, sub, i) ==> OccursAt(s[1..], sub, i - 1)
        {
          if i + |sub| <= |s| {
            assert s[1..][i - 1..i - 1 + |sub|] == s[i..i + |sub|];
          }
        }
      }
    }
  }

  /** A string contains every piece of a concatenation it is built from. */
  lemma ContainsMiddle(a: string, b: string, c: string)
    ensures Contains(a + b + c, b)
  {
    var s := a + b + c;
    assert s[|a|..|a| + |b|] == b;
    assert OccursAt(s, b, |a|);
    ContainsIff(s, b);
  }

  /** Containment is transitive: `x in sub` and `sub in s` give `x in s`. */
  lemma ContainsTrans(s: string, sub: string, x: string)
    requires Contains(s, sub) && Contains(sub, x)
    ensures Contains(s, x)
  {
    ContainsIff(s, sub);
    ContainsIff(sub, x);
    var i :| OccursAt(s, sub, i);
    var j :| OccursAt(sub, x, j);
    forall k | 0 <= k < |x| ensures s[i + j + k] == x[k] {
      assert x[k] == sub[j..j + |x|][k] == sub[j + k];
      assert sub[j + k] == s[i..i + |sub|][j + k];
    }
    assert s[i + j..i + j + |x|] == x;
    assert OccursAt(s, x, i + j);
    ContainsIff(s, x);
  }

  /** Position of the first occurrence of `sub` in `s` (`s.find(sub)`). */
  function IndexOf(s: string, sub: string): (r: Option<nat>)
    ensures r.Some? ==> OccursAt(s, sub, r.value)
    ensures r.Some? ==> forall j :: 0 <= j < r.value ==> !OccursAt(s, sub, j)
    ensures r.None? ==> forall j :: !OccursAt(s, sub, j)
    decreases |s|
  {
    if IsPrefix(sub, s) then Some(0)
    else if |s| == 0 then None
    else
      var rest := IndexOf(s[1..], sub);
      ShiftOccurs(s, sub);
      if rest.Some? then Some(rest.value + 1) else None
  }

  /** Occurrences in `s[1..]` are those in `s`, one position earlier. */
  lemma ShiftOccurs(s: string, sub: string)
    requires |s| > 0
    ensures forall j :: j >= 1 ==> (OccursAt(s, sub, j) <==> OccursAt(s[1..], sub, j - 1))
  {
    forall j | j >= 1
      ensures OccursAt(s, sub, j) <==> OccursAt(s[1..], sub, j - 1)
    {
      if j + |sub| <= |s| {
        assert s[1..][j - 1..j - 1 + |sub|] == s[j..j + |sub|];
      }
    }
  }

  /** When `sep` starts with a character `a` lacks, the first `sep` in `a + sep + b` is the one after `a`. */
  lemma IndexOfAfter(a: string, sep: string, b: string)
    requires |sep| > 0 && sep[0] !in a
    ensures IndexOf(a + sep + b, sep) == Some(|a|)
  {
    var s := a + sep + b;
    assert s[|a|..|a| + |sep|] == sep;
    assert OccursAt(s, sep, |a|);
    forall j | 0 <= j < |a|
      ensures !OccursAt(s, sep, j)
    {
      assert s[j] == a[j];
      if j + |sep| <= |s| {
        assert s[j..j + |sep|][0] == s[j];
      }
    }
  }

  lemma IndexOfContains(s: string, sub: string)
    ensures IndexOf(s, sub).Some? <==> Contains(s, sub)
  {
    ContainsIff(s, sub);
  }

  /** `s.split(sep)` for a non-empty separator: the pieces between occurrences. */
  function Split(s: string, sep: string): (r: seq<string>)
    requires |sep| > 0
    ensures |r| >= 1
    decreases |s|
  {
    match IndexOf(s, sep)
    case None => [s]
    case Some(i) => [s[..i]] + Split(s[i + |sep|..], sep)
  }

  function Join(pieces: seq<string>, sep: string): string {
    if |pieces| == 0 then ""
    else if |pieces| == 1 then pieces[0]
    else pieces[0] + sep + Join(pieces[1..], sep)
  }

  /** Splitting cuts at separators only: joining the pieces gives `s` back, and no piece holds `sep`. */
  lemma {:induction false} SplitJoin(s: string, sep: string)
    requires |sep| > 0
    ensures Join(Split(s, sep), sep) == s
    ensures forall k :: 0 <= k < |Split(s, sep)| ==> !Contains(Split(s, sep)[k], sep)
    decreases |s|
  {
    match IndexOf(s, sep)
    case None =>
      ContainsIff(s, sep);
    case Some(i) =>
      var head, rest := s[..i], s[i + |sep|..];
      var tail := Split(rest, sep);
      assert Split(s, sep) == [head] + tail;
      SplitJoin(rest, sep);
      assert Join([head] + tail, sep) == head + sep + Join(tail, sep);
      assert head + sep + rest == s by {
        assert s[i..i + |sep|] == sep;
      }
      HeadHasNoSeparator(s, sep, i);
  }

  lemma HeadHasNoSeparator(s: string, sep: string, i: nat)
    requires i <= |s|
    requires forall j :: 0 <= j < i ==> !OccursAt(s, sep, j)
    requires |sep| > 0
    ensures !Contains(s[..i], sep)
  {
    var head := s[..i];
    forall j | 0 <= j
      ensures OccursAt(head, sep, j) ==> OccursAt(s, sep, j) && j < i
    {
      if j + |sep| <= |head| {
        assert head[j..j + |sep|] == s[j..j + |sep|];
      }
    }
    ContainsIff(head, sep);
  }

  /** `s.split(sep)` has a piece at index 1 exactly when `sep in s`. */
  lemma SplitLength(s: string, sep: string)
    requires |sep| > 0
    ensures |Split(s, sep)| >= 2 <==> Contains(s, sep)
  {
    IndexOfContains(s, sep);
  }

  /** `s.split(sep)[1]`: the text between the first and second occurrence of `sep`. */
  function SecondPiece(s: string, sep: string): (r: Result<string>)
    requires |sep| > 0
  {
    var pieces := Split(s, sep);
    if |pieces| >= 2 then Success(pieces[1]) else Failure("list index out of range")
  }

  /** The characters `str.isspace()` accepts among ASCII. */
  predicate IsSpace(c: char) {
    c == ' ' || c == '\t' || c == '\n' || c == '\r' || c == '\U{B}' || c == '\U{C}'
    || ('\U{1C}' <= c <= '\U{1F}')
  }

  function StripLeft(s: string): (r: string)
    ensures |r| <= |s| && r == s[|s| - |r|..]
    ensures r == [] || !IsSpace(r[0])
    ensures forall i :: 0 <= i < |s| - |r| ==> IsSpace(s[i])
  {
    if |s| > 0 && IsSpace(s[0]) then StripLeft(s[1..]) else s
  }

  function StripRight(s: string): (r: string)
    ensures |r| <= |s| && r == s[..|r|]
    ensures r == [] || !IsSpace(r[|r| - 1])
    ensures forall i :: |r| <= i < |s| ==> IsSpace(s[i])
  {
    if |s| > 0 && IsSpace(s[|s| - 1]) then StripRight(s[..|s| - 1]) else s
  }

  /** `r` is `s[i..j]`, and everything of `s` outside it is whitespace. */
  predicate StripsTo(s: string, r: string, i: int, j: int) {
    0 <= i <= j <= |s| && r == s[i..j] &&
    (forall k :: 0 <= k < i ==> IsSpace(s[k])) && (forall k :: j <= k < |s| ==> IsSpace(s[k]))
  }

  /** `s.strip()`: the longest middle part with no surrounding whitespace. */
  function Strip(s: string): (r: string)
    ensures r == [] || (!IsSpace(r[0]) && !IsSpace(r[|r| - 1]))
    ensures exists i, j :: StripsTo(s, r, i, j)
    ensures Contains(s, r)
  {
    var l := StripLeft(s);
    var r := StripRight(l);
    StripBounds(s, l, r);
    ContainsSuffixPrefix(s, l, r);
    r
  }

  /** The strip is what lies between a leading and a trailing run of whitespace. */
  lemma StripBounds(s: string, l: string, r: string)
    requires |l| <= |s| && l == s[|s| - |l|..] && forall k :: 0 <= k < |s| - |l| ==> IsSpace(s[k])
    requires |r| <= |l| && r == l[..|r|] && forall k :: |r| <= k < |l| ==> IsSpace(l[k])
    ensures exists i, j :: StripsTo(s, r, i, j)
  {
    var i := |s| - |l|;
    var j := i + |r|;
    assert r == s[i..j];
    forall k | j <= k < |s| ensures IsSpace(s[k]) {
      assert s[k] == l[k - i];
    }
    assert StripsTo(s, r, i, j);
  }

  /** A prefix of a suffix of `s` occurs in `s`. */
  lemma ContainsSuffixPrefix(s: string, l: string, r: string)
    requires |l| <= |s| && l == s[|s| - |l|..]
    requires |r| <= |l| && r == l[..|r|]
    ensures Contains(s, r)
  {
    var head, tail := s[..|s| - |l|], l[|r|..];
    assert s == head + l;
    assert l == r + tail;
    assert s == head + r + tail;
    ContainsMiddle(head, r, tail);
  }

  /** A string with no surrounding whitespace is its own strip. */
  lemma StripTrimmed(s: string)
    requires s == [] || (!IsSpace(s[0]) && !IsSpace(s[|s| - 1]))
    ensures Strip(s) == s
  {
  }

  /** `s.split(' ')[0]`: the text before the first space. */
  function FirstWord(s: string): (r: string)
    ensures IsPrefix(r, s)
    ensures ' ' !in r
    ensures |r| < |s| ==> s[|r|] == ' '
  {
    if s == [] || s[0] == ' ' then [] else [s[0]] + FirstWord(s[1..])
  }

  lemma {:induction false} FirstWordOf(w: string, t: string)
    requires ' ' !in w
    ensures FirstWord(w + " " + t) == w
  {
    if w != [] {
      assert (w + " " + t)[1..] == w[1..] + " " + t;
      FirstWordOf(w[1..], t);
    }
  }

  /** Python's ordering of strings: by code point, a proper prefix first. */
  predicate LexLess(a: string, b: string) {
    if a == [] then b != []
    else if b == [] then false
    else if a[0] != b[0] then a[0] < b[0]
    else LexLess(a[1..], b[1..])
  }

  lemma {:induction false} LexLessTotal(a: string, b: string)
    ensures a != b ==> (LexLess(a, b) <==> !LexLess(b, a))
    ensures !LexLess(a, a)
  {
    if a != [] && b != [] && a[0] == b[0] {
      LexLessTotal(a[1..], b[1..]);
      if a[1..] == b[1..] {
        assert a == [a[0]] + a[1..] && b == [b[0]] + b[1..];
      }
    }
    if a != [] {
      LexLessTotal(a[1..], a[1..]);
    }
  }
}
