/** The handful of Python `str` operations the modelled code relies on:
    `lower`, `in` (substring), `strip`, `split`, `str(int)` and string
    comparison. Characters are compared by code point, as Python does. */
module Text {
  import opened Outcomes

  // ---------------------------------------------------------------- lower

  /** `str.lower` on one character, restricted to ASCII letters. */
  function LowerChar(c: char): (r: char)
    ensures 'A' <= c <= 'Z' ==> r as int == c as int + 32
    ensures !('A' <= c <= 'Z') ==> r == c
  {
    if 'A' <= c <= 'Z' then (c as int + 32) as char else c
  }

  function Lower(s: string): (r: string)
    ensures |r| == |s|
    ensures forall i :: 0 <= i < |s| ==> r[i] == LowerChar(s[i])
  {
    seq(|s|, i requires 0 <= i < |s| => LowerChar(s[i]))
  }

  lemma LowerOfConcat(a: string, b: string)
    ensures Lower(a + b) == Lower(a) + Lower(b)
  {
    assert forall i :: 0 <= i < |a + b| ==> Lower(a + b)[i] == (Lower(a) + Lower(b))[i];
  }

  /** Lower-casing twice changes nothing more than lower-casing once. */
  lemma LowerIdempotent(s: string)
    ensures Lower(Lower(s)) == Lower(s)
  {
    assert forall i :: 0 <= i < |s| ==> Lower(Lower(s))[i] == Lower(s)[i];
  }

  // ------------------------------------------------------------ substring

  predicate IsPrefix(p: string, s: string) {
    |p| <= |s| && s[..|p|] == p
  }

  /** `sub` occurs in `s` starting at position `i`. */
  predicate OccursAt(s: string, sub: string, i: int) {
    0 <= i <= |s| - |sub| && s[i..i + |sub|] == sub
  }

  /** Python's `sub in s`. */
  predicate Contains(s: string, sub: string)
    decreases |s|
  {
    IsPrefix(sub, s) || (s != [] && Contains(s[1..], sub))
  }

  /** `Contains` holds exactly when `sub` occurs at some position of `s`. */
  lemma {:induction false} ContainsIff(s: string, sub: string)
    ensures Contains(s, sub) <==> exists i :: OccursAt(s, sub, i)
    decreases |s|
  {
    if IsPrefix(sub, s) {
      assert OccursAt(s, sub, 0);
    } else if s != [] {
      ContainsIff(s[1..], sub);
      if Contains(s[1..], sub) {
        var i :| OccursAt(s[1..], sub, i);
        assert s[i + 1..i + 1 + |sub|] == s[1..][i..i + |sub|];
        assert OccursAt(s, sub, i + 1);
      }
      if exists i :: OccursAt(s, sub, i) {
        var i :| OccursAt(s, sub, i);
        assert i != 0;
        assert s[1..][i - 1..i - 1 + |sub|] == s[i..i + |sub|];
        assert OccursAt(s[1..], sub, i - 1);
      }
    }
  }

  /** A string contains whatever is written inside it. */
  lemma {:induction false} ContainsInfix(a: string, sub: string, b: string)
    ensures Contains(a + sub + b, sub)
    decreases |a|
  {
    if a == [] {
      assert (a + sub + b)[..|sub|] == sub;
    } else {
      assert (a + sub + b)[1..] == a[1..] + sub + b;
      ContainsInfix(a[1..], sub, b);
    }
  }

  /** The empty string is in every string. */
  lemma ContainsEmpty(s: string)
    ensures Contains(s, "")
  {
    assert IsPrefix("", s);
  }

  // ----------------------------------------------------------------- strip

  /** The white-space characters `str.strip` removes, restricted to ASCII:
      tab, line feed, vertical tab, form feed, carriage return, the four
      separators U+001C to U+001F, and space. */
  predicate IsSpace(c: char) {
    9 <= c as int <= 13 || 28 <= c as int <= 32
  }

  function TrimStart(s: string): (r: string)
    ensures |r| <= |s| && r == s[|s| - |r|..]
    ensures r == [] || !IsSpace(r[0])
    ensures forall i :: 0 <= i < |s| - |r| ==> IsSpace(s[i])
    decreases |s|
  {
    if s != [] && IsSpace(s[0]) then TrimStart(s[1..]) else s
  }

  function TrimEnd(s: string): (r: string)
    ensures |r| <= |s| && r == s[..|r|]
    ensures r == [] || !IsSpace(r[|r| - 1])
    ensures forall i :: |r| <= i < |s| ==> IsSpace(s[i])
    decreases |s|
  {
    if s != [] && IsSpace(s[|s| - 1]) then TrimEnd(s[..|s| - 1]) else s
  }

  /** Python's `s.strip()`: `s` without leading and trailing white space.
      The result is a slice of `s`, it neither starts nor ends with white
      space, and everything dropped is white space. */
  function Strip(s: string): (r: string)
    ensures exists i :: StripsTo(s, i, r)
    ensures r == [] || (!IsSpace(r[0]) && !IsSpace(r[|r| - 1]))
  {
    var t := TrimStart(s);
    var r := TrimEnd(t);
    var i := |s| - |t|;
    assert r == s[i..i + |r|];
    assert StripsTo(s, i, r);
    r
  }

  /** `r` is the slice of `s` at `i` and only white space lies around it. */
  predicate StripsTo(s: string, i: int, r: string) {
    && OccursAt(s, r, i)
    && (forall k :: 0 <= k < i ==> IsSpace(s[k]))
    && (forall k :: i + |r| <= k < |s| ==> IsSpace(s[k]))
  }

  // ----------------------------------------------------------------- split

  /** The position of the first occurrence of `sep` in `s`, if any. */
  function IndexOf(s: string, sep: string): (r: Option<nat>)
    ensures r.Some? <==> Contains(s, sep)
    ensures r.Some? ==> r.value + |sep| <= |s| && s[r.value..r.value + |sep|] == sep
    ensures r.Some? ==> forall j :: 0 <= j < r.value ==> !IsPrefix(sep, s[j..])
    decreases |s|
  {
    if IsPrefix(sep, s) then Some(0)
    else if s == [] then None
    else match IndexOf(s[1..], sep)
      case None => None
      case Some(i) =>
        assert forall j :: 1 <= j < i + 1 ==> s[j..] == s[1..][j - 1..];
        Some(i + 1)
  }

  /** No occurrence of `sep` starts before the first one. */
  lemma PrefixBeforeFirst(s: string, sep: string, i: nat)
    requires sep != [] && IndexOf(s, sep) == Some(i)
    ensures !Contains(s[..i], sep)
  {
    ContainsIff(s[..i], sep);
    forall j | 0 <= j < i
      ensures !OccursAt(s[..i], sep, j)
    {
      assert !IsPrefix(sep, s[j..]);
      if j + |sep| <= i {
        assert s[..i][j..j + |sep|] == s[j..][..|sep|];
      }
    }
  }

  /** Python's `s.split(sep)` for a non-empty separator. */
  function Split(s: string, sep: string): (parts: seq<string>)
    requires sep != []
    ensures |parts| >= 1
    ensures forall k :: 0 <= k < |parts| ==> !Contains(parts[k], sep)
    ensures |parts| == 1 <==> !Contains(s, sep)
    decreases |s|
  {
    match IndexOf(s, sep)
    case None => [s]
    case Some(i) =>
      PrefixBeforeFirst(s, sep, i);
      [s[..i]] + Split(s[i + |sep|..], sep)
  }

  /** Python's `sep.join(parts)`. */
  function Join(parts: seq<string>, sep: string): string
  {
    if parts == [] then ""
    else if |parts| == 1 then parts[0]
    else parts[0] + sep + Join(parts[1..], sep)
  }

  /** Splitting and joining again gives back the original string. */
  lemma {:induction false} JoinSplit(s: string, sep: string)
    requires sep != []
    ensures Join(Split(s, sep), sep) == s
    decreases |s|
  {
    match IndexOf(s, sep)
    case None =>
      SplitWhole(s, sep);
    case Some(i) =>
      Reassemble(s, sep, i);
      var rest := s[i + |sep|..];
      SplitAt(s, sep, i);
      var tail := Split(rest, sep);
      JoinSplit(rest, sep);
      JoinCons(s[..i], tail, sep);
      calc {
        Join(Split(s, sep), sep);
        == Join([s[..i]] + tail, sep);
        == s[..i] + sep + Join(tail, sep);
        == s[..i] + sep + rest;
        == s;
      }
  }

  lemma SplitWhole(s: string, sep: string)
    requires sep != [] && IndexOf(s, sep).None?
    ensures Split(s, sep) == [s]
  {
  }

  lemma SplitAt(s: string, sep: string, i: nat)
    requires sep != [] && IndexOf(s, sep) == Some(i)
    ensures Split(s, sep) == [s[..i]] + Split(s[i + |sep|..], sep)
  {
  }

  /** A string is the text before an occurrence, the occurrence and the
      text after it. */
  lemma Reassemble(s: string, sep: string, i: nat)
    requires i + |sep| <= |s| && s[i..i + |sep|] == sep
    ensures s == s[..i] + sep + s[i + |sep|..]
  {
    assert s == s[..i] + s[i..i + |sep|] + s[i + |sep|..];
  }

  lemma JoinCons(head: string, tail: seq<string>, sep: string)
    requires tail != []
    ensures Join([head] + tail, sep) == head + sep + Join(tail, sep)
  {
    assert ([head] + tail)[1..] == tail;
  }

  /** Peeling off the last part of a join. */
  lemma {:induction false} JoinLast(parts: seq<string>, sep: string)
    requires |parts| >= 2
    ensures Join(parts, sep) == Join(parts[..|parts| - 1], sep) + sep + parts[|parts| - 1]
    decreases |parts|
  {
    if |parts| > 2 {
      JoinLast(parts[1..], sep);
      assert parts[1..][..|parts[1..]| - 1] == parts[..|parts| - 1][1..];
    }
  }

  /** `s.split(sep)[-1]`: the text after the last occurrence of `sep`. */
  function LastSegment(s: string, sep: string): (r: string)
    requires sep != []
    ensures !Contains(r, sep)
    ensures !Contains(s, sep) ==> r == s
    ensures Contains(s, sep) ==> exists p :: s == p + sep + r
  {
    var parts := Split(s, sep);
    assert Contains(s, sep) ==> s == Join(parts[..|parts| - 1], sep) + sep + parts[|parts| - 1] by {
      if |parts| >= 2 {
        JoinSplit(s, sep);
        JoinLast(parts, sep);
      }
    }
    parts[|parts| - 1]
  }

  /** Both inserted parts of `h + a + m + b` occur in it. */
  lemma ContainsParts(h: string, a: string, m: string, b: string)
    ensures Contains(h + a + m + b, a) && Contains(h + a + m + b, b)
  {
    ContainsInfix(h, a, m + b);
    assert h + a + (m + b) == h + a + m + b;
    ContainsInfix(h + a + m, b, "");
    assert h + a + m + b + "" == h + a + m + b;
  }

  /** Equal strings with the same head and tail have the same middle. */
  lemma InfixCancel(p: string, a: string, b: string, q: string)
    requires p + a + q == p + b + q
    ensures a == b
  {
    assert |a| == |b|;
    assert a == (p + a + q)[|p|..|p| + |a|];
    assert b == (p + b + q)[|p|..|p| + |b|];
  }

  /** Two ways of writing a string as "anything, a one-character
      separator, a separator-free tail" have the same tail. */
  lemma SeparatorFreeTail(p: string, q: string, sep: string, r: string, t: string)
    requires |sep| == 1 && p + sep + r == q + sep + t
    requires !Contains(r, sep) && !Contains(t, sep)
    ensures r == t
  {
    var s := p + sep + r;
    assert s == q + sep + t;
    if |r| < |t| {
      var k := |t| - |r| - 1;
      assert t[k] == s[|s| - |r| - 1] == sep[0];
      assert OccursAt(t, sep, k);
      ContainsIff(t, sep);
    } else if |t| < |r| {
      var k := |r| - |t| - 1;
      assert r[k] == s[|s| - |t| - 1] == sep[0];
      assert OccursAt(r, sep, k);
      ContainsIff(r, sep);
    } else {
      assert r == s[|s| - |r|..] == t;
    }
  }

  /** For a one-character separator, whatever precedes its last
      occurrence is dropped by `s.split(sep)[-1]`. */
  lemma LastSegmentAfter(p: string, sep: string, r: string)
    requires |sep| == 1 && !Contains(r, sep)
    ensures LastSegment(p + sep + r, sep) == r
  {
    var s := p + sep + r;
    ContainsInfix(p, sep, r);
    var last := LastSegment(s, sep);
    var q :| s == q + sep + last;
    SeparatorFreeTail(p, q, sep, r, last);
  }

  /** A string whose first separator follows `p` and that has no other
      after it splits into `p` and the rest. */
  lemma SplitAtOnlySeparator(p: string, sep: string, t: string)
    requires sep != [] && IndexOf(p + sep + t, sep) == Some(|p|) && !Contains(t, sep)
    ensures Split(p + sep + t, sep) == [p, t]
  {
    var s := p + sep + t;
    SplitAt(s, sep, |p|);
    assert s[..|p|] == p && s[|p| + |sep|..] == t;
    SplitWhole(t, sep);
  }

  // ------------------------------------------------------------- integers

  function DigitChar(d: nat): (c: char)
    requires d < 10
    ensures '0' <= c <= '9'
  {
    ('0' as int + d) as char
  }

  function DigitValue(c: char): nat
    requires '0' <= c <= '9'
  {
    c as int - '0' as int
  }

  predicate AllDigits(s: string) {
    forall i :: 0 <= i < |s| ==> '0' <= s[i] <= '9'
  }

  /** Python's `str(n)` for a non-negative integer. */
  function NatToString(n: nat): (s: string)
    ensures s != [] && AllDigits(s)
    decreases n
  {
    if n < 10 then [DigitChar(n)] else NatToString(n / 10) + [DigitChar(n % 10)]
  }

  /** The number a string of decimal digits denotes. */
  function DigitsValue(s: string): nat
    requires AllDigits(s)
  {
    if s == [] then 0 else DigitsValue(s[..|s| - 1]) * 10 + DigitValue(s[|s| - 1])
  }

  /** Reading back the decimal text of `n` gives `n`. */
  lemma {:induction false} NatToStringRoundTrip(n: nat)
    ensures DigitsValue(NatToString(n)) == n
    decreases n
  {
    var s := NatToString(n);
    if n >= 10 {
      NatToStringRoundTrip(n / 10);
      assert s[..|s| - 1] == NatToString(n / 10);
    }
  }

  /** Different numbers have different decimal texts. */
  lemma NatToStringInjective(m: nat, n: nat)
    requires NatToString(m) == NatToString(n)
    ensures m == n
  {
    NatToStringRoundTrip(m);
    NatToStringRoundTrip(n);
  }

  // ---------------------------------------------------------------- order

  /** Python's `a <= b` on strings: lexicographic by code point. */
  predicate StrLe(a: string, b: string)
    decreases |a|
  {
    a == [] || (b != [] && (a[0] < b[0] || (a[0] == b[0] && StrLe(a[1..], b[1..]))))
  }

  lemma {:induction false} StrLeTotal(a: string, b: string)
    ensures StrLe(a, b) || StrLe(b, a)
    decreases |a|
  {
    if a != [] && b != [] && a[0] == b[0] {
      StrLeTotal(a[1..], b[1..]);
    }
  }

  lemma {:induction false} StrLeTrans(a: string, b: string, c: string)
    requires StrLe(a, b) && StrLe(b, c)
    ensures StrLe(a, c)
    decreases |a|
  {
    if a != [] && a[0] == b[0] && b[0] == c[0] {
      StrLeTrans(a[1..], b[1..], c[1..]);
    }
  }

  lemma {:induction false} StrLeAntisym(a: string, b: string)
    requires StrLe(a, b) && StrLe(b, a)
    ensures a == b
    decreases |a|
  {
    if a != [] {
      StrLeAntisym(a[1..], b[1..]);
      assert a == [a[0]] + a[1..];
      assert b == [b[0]] + b[1..];
    }
  }
}
