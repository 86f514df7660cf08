/** The JavaScript string operations the garden relies on: String.prototype.trim,
    includes, split on one character, ASCII lower-casing, and the subset of
    number spellings accepted by `isNaN`/`parseInt` that the model keeps
    (an optional sign followed by decimal digits). */
module Strings {
  import opened Wrappers

  // ---------------------------------------------------------------------------
  // trim
  // ---------------------------------------------------------------------------

  /** WhiteSpace and LineTerminator code points of ECMAScript, which is what `trim` removes. */
  predicate IsJsSpace(c: char) {
    c == '\t' || c == '\n' || c == '\U{000B}' || c == '\U{000C}' || c == '\r' ||
    c == ' ' || c == '\U{00A0}' || c == '\U{1680}' ||
    ('\U{2000}' <= c <= '\U{200A}') ||
    c == '\U{2028}' || c == '\U{2029}' || c == '\U{202F}' || c == '\U{205F}' ||
    c == '\U{3000}' || c == '\U{FEFF}'
  }

  ghost predicate AllSpace(s: string) {
    forall i :: 0 <= i < |s| ==> IsJsSpace(s[i])
  }

  /** Every character of `s` from index `lo` up to `hi` is whitespace. */
  ghost predicate SpaceIn(s: string, lo: int, hi: int)
    requires 0 <= lo <= hi <= |s|
  {
    forall i :: lo <= i < hi ==> IsJsSpace(s[i])
  }

  /** Neither end of `s` is whitespace. */
  predicate IsTrimmed(s: string) {
    s == [] || (!IsJsSpace(s[0]) && !IsJsSpace(s[|s| - 1]))
  }

  /** The number of whitespace characters `s` starts with. */
  function LeadingSpace(s: string): (n: nat)
    ensures n <= |s| && SpaceIn(s, 0, n) && (n < |s| ==> !IsJsSpace(s[n]))
  {
    if s != [] && IsJsSpace(s[0]) then
      1 + LeadingSpace(s[1..])
    else
      0
  }

  /** The number of whitespace characters `s` ends with. */
  function TrailingSpace(s: string): (n: nat)
    ensures n <= |s| && SpaceIn(s, |s| - n, |s|) && (n < |s| ==> !IsJsSpace(s[|s| - n - 1]))
  {
    if s != [] && IsJsSpace(s[|s| - 1]) then
      1 + TrailingSpace(s[..|s| - 1])
    else
      0
  }

  /** Drops the leading whitespace; the result does not start with whitespace. */
  function TrimStart(s: string): (r: string)
    ensures r == [] || !IsJsSpace(r[0])
  {
    s[LeadingSpace(s)..]
  }

  /** Drops the trailing whitespace; the result does not end with whitespace. */
  function TrimEnd(s: string): (r: string)
    ensures r == [] || !IsJsSpace(r[|r| - 1])
  {
    s[..|s| - TrailingSpace(s)]
  }

  /** String.prototype.trim: the result has no whitespace at either end. */
  function Trim(s: string): (r: string)
    ensures IsTrimmed(r) && |r| <= |s|
  {
    TrimEnd(TrimStart(s))
  }

  lemma SliceOfSuffix(s: string, k: nat, n: nat)
    requires k + n <= |s|
    ensures s[k..][..n] == s[k..k + n]
  {
  }

  /** What trim keeps: the slice of `s` that follows its leading whitespace. */
  lemma TrimKept(s: string)
    ensures var k := LeadingSpace(s); var r := Trim(s); k + |r| <= |s| && r == s[k..k + |r|]
  {
    var k := LeadingSpace(s);
    var t := s[k..];
    var m := |t| - TrailingSpace(t);
    assert Trim(s) == t[..m];
    SliceOfSuffix(s, k, m);
  }

  /** What trim drops at the end: everything after the kept slice is whitespace. */
  lemma TrimDropsTrailing(s: string)
    ensures var k := LeadingSpace(s); var r := Trim(s); k + |r| <= |s| && SpaceIn(s, k + |r|, |s|)
  {
    var k := LeadingSpace(s);
    var t := s[k..];
    var m := |t| - TrailingSpace(t);
    forall i | k + m <= i < |s|
      ensures IsJsSpace(s[i])
    {
      assert s[i] == t[i - k];
    }
  }

  /** What trim removes: `s` is `k` whitespace characters, then the result, then
      whitespace to the end. */
  lemma TrimShape(s: string)
    ensures var k := LeadingSpace(s); var r := Trim(s);
      k + |r| <= |s| && r == s[k..k + |r|] && SpaceIn(s, 0, k) && SpaceIn(s, k + |r|, |s|)
  {
    TrimKept(s);
    TrimDropsTrailing(s);
  }

  /** Whitespace followed by a string that does not start with whitespace: the
      whitespace is exactly what is counted as leading. */
  lemma {:induction false} LeadingSpaceOf(pre: string, t: string)
    requires AllSpace(pre)
    requires t == [] || !IsJsSpace(t[0])
    ensures LeadingSpace(pre + t) == |pre|
    decreases |pre|
  {
    if pre != [] {
      assert (pre + t)[1..] == pre[1..] + t;
      LeadingSpaceOf(pre[1..], t);
    } else {
      assert pre + t == t;
    }
  }

  lemma {:induction false} TrailingSpaceOf(t: string, post: string)
    requires AllSpace(post)
    requires t == [] || !IsJsSpace(t[|t| - 1])
    ensures TrailingSpace(t + post) == |post|
    decreases |post|
  {
    if post != [] {
      var s := t + post;
      assert s[..|s| - 1] == t + post[..|post| - 1];
      TrailingSpaceOf(t, post[..|post| - 1]);
    } else {
      assert t + post == t;
    }
  }

  lemma TrimStartSkips(pre: string, t: string)
    requires AllSpace(pre)
    requires t == [] || !IsJsSpace(t[0])
    ensures TrimStart(pre + t) == t
  {
    LeadingSpaceOf(pre, t);
    assert (pre + t)[|pre|..] == t;
  }

  lemma TrimEndSkips(t: string, post: string)
    requires AllSpace(post)
    requires t == [] || !IsJsSpace(t[|t| - 1])
    ensures TrimEnd(t + post) == t
  {
    TrailingSpaceOf(t, post);
    assert (t + post)[..|t|] == t;
  }

  /** The decomposition promised by Trim is unique: whatever whitespace surrounds
      a trimmed string, trimming gives that string back. */
  lemma {:induction false} TrimUnique(pre: string, m: string, post: string)
    requires AllSpace(pre) && AllSpace(post) && IsTrimmed(m)
    ensures Trim(pre + m + post) == m
  {
    if m == [] {
      assert pre + m + post == pre + post;
      TrimStartSkips(pre + post, []);
      assert pre + post + [] == pre + post;
    } else {
      assert pre + m + post == pre + (m + post);
      TrimStartSkips(pre, m + post);
      TrimEndSkips(m, post);
    }
  }

  /** Trimming twice is trimming once. */
  lemma TrimIdempotent(s: string)
    ensures Trim(Trim(s)) == Trim(s)
  {
    var r := Trim(s);
    assert [] + r + [] == r;
    TrimUnique([], r, []);
  }

  // ---------------------------------------------------------------------------
  // includes
  // ---------------------------------------------------------------------------

  /** `sub` occurs in `s` starting at index `i`. */
  ghost predicate OccursAt(s: string, sub: string, i: int) {
    0 <= i <= |s| - |sub| && s[i..i + |sub|] == sub
  }

  /** String.prototype.includes: `sub` occurs somewhere in `s`. */
  predicate Contains(s: string, sub: string)
    ensures Contains(s, sub) <==> exists i :: OccursAt(s, sub, i)
    decreases |s|
  {
    if |sub| > |s| then
      false
    else if s[..|sub|] == sub then
      assert OccursAt(s, sub, 0);
      true
    else
      assert forall i :: OccursAt(s[1..], sub, i) ==> OccursAt(s, sub, i + 1);
      assert forall i :: OccursAt(s, sub, i) ==> i > 0 && OccursAt(s[1..], sub, i - 1);
      Contains(s[1..], sub)
  }

  // ---------------------------------------------------------------------------
  // split on one separator character
  // ---------------------------------------------------------------------------

  /** The number of occurrences of `c` in `s`. */
  function Count(s: string, c: char): (n: nat)
    ensures n == 0 <==> c !in s
    ensures n <= |s|
  {
    if s == [] then 0
    else (if s[0] == c then 1 else 0) + Count(s[1..], c)
  }

  /** The inverse of Split: the parts glued together with `sep` between them. */
  function Join(parts: seq<string>, sep: char): string
    requires |parts| >= 1
  {
    if |parts| == 1 then parts[0] else parts[0] + [sep] + Join(parts[1..], sep)
  }

  /** String.prototype.split with a one-character separator: one more part than
      separators, and no part contains the separator. */
  function Split(s: string, sep: char): (parts: seq<string>)
    ensures |parts| == Count(s, sep) + 1
    ensures forall k :: 0 <= k < |parts| ==> sep !in parts[k]
  {
    if s == [] then [[]]
    else
      var rest := Split(s[1..], sep);
      if s[0] == sep then
        [[]] + rest
      else
        var parts := [[s[0]] + rest[0]] + rest[1..];
        assert forall k :: 1 <= k < |parts| ==> parts[k] == rest[k];
        parts
  }

  /** Joining the parts with the separator gives back the split string. */
  lemma {:induction false} SplitJoin(s: string, sep: char)
    ensures Join(Split(s, sep), sep) == s
  {
    if s != [] {
      var rest := Split(s[1..], sep);
      SplitJoin(s[1..], sep);
      var parts := Split(s, sep);
      if s[0] == sep {
        assert parts[1..] == rest;
      } else {
        assert parts[0] == [s[0]] + rest[0];
        if |rest| > 1 {
          assert parts[1..] == rest[1..];
          assert Join(rest, sep) == rest[0] + [sep] + Join(rest[1..], sep);
        }
      }
    }
  }

  lemma JoinTwo(parts: seq<string>, sep: char)
    requires |parts| == 2
    ensures Join(parts, sep) == parts[0] + [sep] + parts[1]
  {
    assert parts[1..] == [parts[1]];
  }

  lemma {:induction false} SplitNoSeparator(s: string, sep: char)
    requires sep !in s
    ensures Split(s, sep) == [s]
  {
    if s != [] {
      SplitNoSeparator(s[1..], sep);
      assert [s[0]] + s[1..] == s;
    }
  }

  /** A string with exactly one separator splits into the text before it and the text after it. */
  lemma {:induction false} SplitAtOnlySeparator(a: string, sep: char, b: string)
    requires sep !in a && sep !in b
    ensures Split(a + [sep] + b, sep) == [a, b]
    decreases |a|
  {
    var s := a + [sep] + b;
    if a == [] {
      assert s[1..] == b;
      SplitNoSeparator(b, sep);
    } else {
      assert s[0] == a[0] != sep;
      assert s[1..] == a[1..] + [sep] + b;
      SplitAtOnlySeparator(a[1..], sep, b);
      assert [s[0]] + a[1..] == a;
    }
  }

  // ---------------------------------------------------------------------------
  // ASCII lower-casing
  // ---------------------------------------------------------------------------

  function LowerAscii(c: char): (d: char)
    ensures 'A' <= c <= 'Z' ==> d as int == c as int + 32
    ensures !('A' <= c <= 'Z') ==> d == c
  {
    if 'A' <= c <= 'Z' then (c as int + 32) as char else c
  }

  /** String.prototype.toLowerCase restricted to ASCII letters. */
  function ToLowerAscii(s: string): (r: string)
    ensures |r| == |s|
    ensures forall i :: 0 <= i < |s| ==> r[i] == LowerAscii(s[i])
    ensures forall i :: 0 <= i < |r| ==> !('A' <= r[i] <= 'Z')
  {
    seq(|s|, i requires 0 <= i < |s| => LowerAscii(s[i]))
  }

  // ---------------------------------------------------------------------------
  // signed decimal integers
  // ---------------------------------------------------------------------------

  predicate IsDigit(c: char) { '0' <= c <= '9' }

  predicate AllDigits(s: string) {
    forall i :: 0 <= i < |s| ==> IsDigit(s[i])
  }

  /** The text shapes that the model lets through `isNaN` and `parseInt`:
      an optional `+` or `-` followed by one or more decimal digits. */
  predicate IsIntegerText(s: string) {
    (|s| >= 2 && (s[0] == '-' || s[0] == '+') && AllDigits(s[1..])) ||
    (|s| >= 1 && AllDigits(s))
  }

  /** The value of a run of decimal digits, most significant first. */
  function DigitsValue(ds: string): (n: nat)
    requires AllDigits(ds)
  {
    if ds == [] then 0
    else DigitsValue(ds[..|ds| - 1]) * 10 + (ds[|ds| - 1] as int - '0' as int)
  }

  /** The decimal digits of `n`, without leading zeros. */
  function NatText(n: nat): (s: string)
    ensures |s| >= 1 && AllDigits(s)
  {
    var d := ['0' + (n % 10) as char];
    if n < 10 then d else NatText(n / 10) + d
  }

  /** The canonical decimal spelling of an integer. */
  function IntegerText(n: int): (s: string)
    ensures IsIntegerText(s)
  {
    if n < 0 then "-" + NatText(-n) else NatText(n)
  }

  /** `parseInt` on the accepted shapes; None on every other text. */
  function ParseInteger(s: string): (r: Option<int>)
    ensures r.Some? <==> IsIntegerText(s)
  {
    if |s| >= 2 && (s[0] == '-' || s[0] == '+') && AllDigits(s[1..]) then
      var v: int := DigitsValue(s[1..]);
      Some(if s[0] == '-' then -v else v)
    else if |s| >= 1 && AllDigits(s) then
      Some(DigitsValue(s))
    else
      None
  }

  lemma {:induction false} NatTextValue(n: nat)
    ensures DigitsValue(NatText(n)) == n
  {
    var d := ['0' + (n % 10) as char];
    if n >= 10 {
      NatTextValue(n / 10);
      var s := NatText(n / 10) + d;
      assert s[..|s| - 1] == NatText(n / 10);
    }
  }

  /** Parsing the decimal spelling of any integer gives that integer back. */
  lemma ParseIntegerText(n: int)
    ensures ParseInteger(IntegerText(n)) == Some(n)
  {
    if n < 0 {
      NatTextValue(-n);
      assert IntegerText(n)[1..] == NatText(-n);
    } else {
      NatTextValue(n);
    }
  }
}
