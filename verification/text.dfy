/** The Python `str` operations the generator relies on, on `seq<char>`:
    `isspace`/`strip`, `startswith`, `replace(p, '')`, `lower` (ASCII only),
    `sep.join`, `split(c)` for a one-character separator, `str(int)` and `int(digits)`. */
module Text {

  datatype Option<+T> = None | Some(value: T)

  /** Python's `str.isspace` for one character. */
  predicate IsSpace(c: char) {
    ('\t' <= c <= '\r') || ('\U{1C}' <= c <= '\U{1F}') || c == ' '
    || c == '\U{85}' || c == '\U{A0}' || c == '\U{1680}'
    || ('\U{2000}' <= c <= '\U{200A}') || c == '\U{2028}' || c == '\U{2029}'
    || c == '\U{202F}' || c == '\U{205F}' || c == '\U{3000}'
  }

  predicate IsDigit(c: char) { '0' <= c <= '9' }

  predicate AllDigits(s: string) { forall k :: 0 <= k < |s| ==> IsDigit(s[k]) }

  /** No leading and no trailing whitespace: what `strip` leaves. */
  predicate IsStripped(s: string) {
    s == [] || (!IsSpace(s[0]) && !IsSpace(s[|s| - 1]))
  }

  predicate StartsWith(s: string, p: string) {
    |p| <= |s| && s[..|p|] == p
  }

  predicate OccursAt(p: string, s: string, i: int) {
    0 <= i && i + |p| <= |s| && s[i..i + |p|] == p
  }

  /** `p` occurs somewhere in `s`. */
  predicate Occurs(p: string, s: string) {
    exists i :: 0 <= i <= |s| && OccursAt(p, s, i)
  }

  function TrimStart(s: string): (r: string)
    ensures |r| <= |s| && r == s[|s| - |r|..]
    ensures r == [] || !IsSpace(r[0])
    ensures forall k :: 0 <= k < |s| - |r| ==> IsSpace(s[k])
  {
    if s != [] && IsSpace(s[0]) then TrimStart(s[1..]) else s
  }

  function TrimEnd(s: string): (r: string)
    ensures |r| <= |s| && r == s[..|r|]
    ensures r == [] || !IsSpace(r[|r| - 1])
    ensures forall k :: |r| <= k < |s| ==> IsSpace(s[k])
  {
    if s != [] && IsSpace(s[|s| - 1]) then TrimEnd(s[..|s| - 1]) else s
  }

  /** Python's `str.strip()`: `s` without its leading and trailing whitespace. */
  function Strip(s: string): (r: string)
    ensures IsStripped(r)
    ensures r == [] <==> forall k :: 0 <= k < |s| ==> IsSpace(s[k])
  {
    var t := TrimStart(s);
    TrimEnd(t)
  }

  /** What `strip` removes is whitespace, from the two ends only: the result is a slice. */
  lemma StripIsSlice(s: string)
    ensures exists i :: SliceBetweenSpaces(s, Strip(s), i)
  {
    var t := TrimStart(s);
    var r := Strip(s);
    var i := |s| - |t|;
    assert r == s[i..i + |r|] by { assert t == s[i..]; }
    assert SliceBetweenSpaces(s, r, i);
  }

  /** `r` is `s[i..i + |r|]`, and everything of `s` before and after it is whitespace. */
  predicate SliceBetweenSpaces(s: string, r: string, i: int) {
    0 <= i <= |s| - |r| && r == s[i..i + |r|]
    && (forall k :: 0 <= k < i ==> IsSpace(s[k]))
    && (forall k :: i + |r| <= k < |s| ==> IsSpace(s[k]))
  }

  lemma StripOfStripped(s: string)
    requires IsStripped(s)
    ensures Strip(s) == s
  {
  }

  lemma StripLeadingSpace(s: string)
    ensures Strip([' '] + s) == Strip(s)
  {
    assert ([' '] + s)[1..] == s;
  }

  lemma NotStartsWith(s: string, p: string, i: nat)
    requires i < |p| && i < |s| && s[i] != p[i]
    ensures !StartsWith(s, p)
  {
    if |p| <= |s| { assert s[..|p|][i] == s[i]; }
  }

  lemma StartsWithPrefix(p: string, x: string)
    ensures StartsWith(p + x, p)
  {
    assert (p + x)[..|p|] == p;
  }

  /** Python's `s.replace(p, '')`: every non-overlapping occurrence of `p`,
      found left to right, removed. */
  function RemoveAll(s: string, p: string): (r: string)
    requires p != []
    ensures |r| <= |s|
    decreases |s|
  {
    if |s| < |p| then s
    else if s[..|p|] == p then RemoveAll(s[|p|..], p)
    else [s[0]] + RemoveAll(s[1..], p)
  }

  lemma {:induction false} RemoveAllAbsent(s: string, p: string)
    requires p != [] && !Occurs(p, s)
    ensures RemoveAll(s, p) == s
    decreases |s|
  {
    if |s| >= |p| {
      assert !OccursAt(p, s, 0);
      assert s[0..0 + |p|] == s[..|p|];
      assert !Occurs(p, s[1..]) by {
        forall i | 0 <= i && i + |p| <= |s[1..]|
          ensures !OccursAt(p, s[1..], i)
        {
          assert s[1..][i..i + |p|] == s[i + 1..i + 1 + |p|];
          assert !OccursAt(p, s, i + 1);
        }
      }
      RemoveAllAbsent(s[1..], p);
      assert [s[0]] + s[1..] == s;
    }
  }

  /** ASCII-only `str.lower()` on one character. */
  function LowerChar(c: char): char {
    if 'A' <= c <= 'Z' then (c as int + 32) as char else c
  }

  /** ASCII `str.lower()`: no capital letter is left, every other character stays where
      it was, and each capital becomes the small letter 32 code points above it. */
  function Lower(s: string): (r: string)
    ensures |r| == |s|
    ensures forall k :: 0 <= k < |r| ==> !('A' <= r[k] <= 'Z')
    ensures forall k :: 0 <= k < |s| && !('A' <= s[k] <= 'Z') ==> r[k] == s[k]
    ensures forall k :: 0 <= k < |s| && 'A' <= s[k] <= 'Z' ==> r[k] as int == s[k] as int + 32
  {
    seq(|s|, k requires 0 <= k < |s| => LowerChar(s[k]))
  }

  /** Lower-casing twice is lower-casing once. */
  lemma LowerIdempotent(s: string)
    ensures Lower(Lower(s)) == Lower(s)
  {
  }

  /** Python's `sep.join(parts)`. */
  function Join(sep: string, parts: seq<string>): string
    decreases |parts|
  {
    if |parts| == 0 then ""
    else if |parts| == 1 then parts[0]
    else parts[0] + sep + Join(sep, parts[1..])
  }

  lemma {:induction false} JoinSnoc(sep: string, parts: seq<string>, x: string)
    requires parts != []
    ensures Join(sep, parts + [x]) == Join(sep, parts) + sep + x
    decreases |parts|
  {
    if |parts| == 1 {
      assert parts + [x] == [parts[0], x];
    } else {
      assert (parts + [x])[1..] == parts[1..] + [x];
      JoinSnoc(sep, parts[1..], x);
    }
  }

  /** Python's `s.split(c)` for a single-character separator: the pieces between
      the occurrences of `c`; there is always at least one piece. */
  function Split(s: string, c: char): (r: seq<string>)
    ensures |r| >= 1
    ensures forall k :: 0 <= k < |r| ==> c !in r[k]
  {
    if s == [] then [""]
    else if s[0] == c then [""] + Split(s[1..], c)
    else
      var rest := Split(s[1..], c);
      [[s[0]] + rest[0]] + rest[1..]
  }

  /** Splitting `a + c + b` splits `a` and `b` separately. */
  lemma {:induction false} SplitConcat(a: string, c: char, b: string)
    ensures Split(a + [c] + b, c) == Split(a, c) + Split(b, c)
  {
    if a == [] {
      assert [c] + b == a + [c] + b;
      assert ([c] + b)[1..] == b;
    } else {
      assert (a + [c] + b)[1..] == a[1..] + [c] + b;
      SplitConcat(a[1..], c, b);
      if a[0] != c {
        var rest := Split(a[1..], c);
        assert Split(a, c) == [[a[0]] + rest[0]] + rest[1..];
      }
    }
  }

  lemma SplitNoSeparator(s: string, c: char)
    requires c !in s
    ensures Split(s, c) == [s]
  {
    if s != [] {
      assert c !in s[1..] by { assert forall k :: 0 <= k < |s[1..]| ==> s[1..][k] == s[k + 1]; }
      SplitNoSeparator(s[1..], c);
      assert [s[0]] + s[1..] == s;
    }
  }

  /** `split` undoes `join` when no part contains the separator. */
  lemma {:induction false} SplitJoin(parts: seq<string>, c: char)
    requires parts != []
    requires forall k :: 0 <= k < |parts| ==> c !in parts[k]
    ensures Split(Join([c], parts), c) == parts
    decreases |parts|
  {
    if |parts| == 1 {
      SplitNoSeparator(parts[0], c);
    } else {
      SplitConcat(parts[0], c, Join([c], parts[1..]));
      SplitNoSeparator(parts[0], c);
      SplitJoin(parts[1..], c);
    }
  }

  /** The pieces of every part, in order. */
  function SplitEach(parts: seq<string>, c: char): seq<string>
    decreases |parts|
  {
    if parts == [] then [] else Split(parts[0], c) + SplitEach(parts[1..], c)
  }

  lemma {:induction false} SplitEachAppend(xs: seq<string>, ys: seq<string>, c: char)
    ensures SplitEach(xs + ys, c) == SplitEach(xs, c) + SplitEach(ys, c)
    decreases |xs|
  {
    if xs == [] {
      assert xs + ys == ys;
    } else {
      assert (xs + ys)[1..] == xs[1..] + ys;
      SplitEachAppend(xs[1..], ys, c);
    }
  }

  lemma {:induction false} SplitEachOfLines(xs: seq<string>, c: char)
    requires forall k :: 0 <= k < |xs| ==> c !in xs[k]
    ensures SplitEach(xs, c) == xs
    decreases |xs|
  {
    if xs != [] {
      SplitNoSeparator(xs[0], c);
      SplitEachOfLines(xs[1..], c);
    }
  }

  /** Splitting a join splits each part. */
  lemma {:induction false} SplitOfJoin(parts: seq<string>, c: char)
    requires parts != []
    ensures Split(Join([c], parts), c) == SplitEach(parts, c)
    decreases |parts|
  {
    if |parts| == 1 {
      assert SplitEach(parts, c) == Split(parts[0], c) + SplitEach([], c);
    } else {
      SplitConcat(parts[0], c, Join([c], parts[1..]));
      SplitOfJoin(parts[1..], c);
    }
  }

  /** Splitting the join of single lines around one multi-line part. */
  lemma {:induction false} SplitOfJoinAround(pre: seq<string>, mid: string, post: seq<string>, c: char)
    requires forall k :: 0 <= k < |pre| ==> c !in pre[k]
    requires forall k :: 0 <= k < |post| ==> c !in post[k]
    ensures Split(Join([c], pre + [mid] + post), c) == pre + Split(mid, c) + post
  {
    var parts := pre + [mid] + post;
    SplitOfJoin(parts, c);
    calc {
      SplitEach(parts, c);
      { SplitEachAppend(pre + [mid], post, c); }
      SplitEach(pre + [mid], c) + SplitEach(post, c);
      { SplitEachAppend(pre, [mid], c); }
      SplitEach(pre, c) + SplitEach([mid], c) + SplitEach(post, c);
      { SplitEachOfLines(pre, c); SplitEachOfLines(post, c); }
      pre + SplitEach([mid], c) + post;
      { assert SplitEach([mid], c) == Split(mid, c) + SplitEach([], c); }
      pre + Split(mid, c) + post;
    }
  }

  /** `join` undoes `split`. */
  lemma {:induction false} JoinSplit(s: string, c: char)
    ensures Join([c], Split(s, c)) == s
  {
    if s != [] {
      JoinSplit(s[1..], c);
      var rest := Split(s[1..], c);
      if s[0] == c {
        assert Split(s, c) == [""] + rest;
        assert ([""] + rest)[1..] == rest;
      } else {
        var r := Split(s, c);
        assert r == [[s[0]] + rest[0]] + rest[1..];
        if |rest| == 1 {
          assert [s[0]] + s[1..] == s;
        } else {
          assert r[1..] == rest[1..];
          assert Join([c], rest) == rest[0] + [c] + Join([c], rest[1..]);
          assert [s[0]] + s[1..] == s;
        }
      }
    }
  }

  function DigitChar(d: nat): (c: char)
    requires d < 10
    ensures IsDigit(c)
  {
    ('0' as int + d) as char
  }

  /** Python's `str(n)` for a non-negative integer. */
  function NatToString(n: nat): (r: string)
    ensures r != [] && AllDigits(r)
    decreases n
  {
    if n < 10 then [DigitChar(n)] else NatToString(n / 10) + [DigitChar(n % 10)]
  }

  /** Python's `int(s)` for a string of ASCII decimal digits. */
  function DigitsValue(s: string): nat
    requires AllDigits(s)
    decreases |s|
  {
    if s == [] then 0 else DigitsValue(s[..|s| - 1]) * 10 + (s[|s| - 1] as int - '0' as int)
  }

  /** `int(str(n)) == n`. */
  lemma {:induction false} DigitsValueOfNatToString(n: nat)
    ensures DigitsValue(NatToString(n)) == n
    decreases n
  {
    if n >= 10 {
      var s := NatToString(n);
      assert s[..|s| - 1] == NatToString(n / 10);
      DigitsValueOfNatToString(n / 10);
    }
  }

  lemma NatToStringInjective(a: nat, b: nat)
    requires NatToString(a) == NatToString(b)
    ensures a == b
  {
    DigitsValueOfNatToString(a);
    DigitsValueOfNatToString(b);
  }

  /** Length of the longest prefix of `s` whose characters all satisfy `p`. */
  function LeadingCount(s: string, p: char -> bool): (n: nat)
    ensures n <= |s|
    ensures forall k :: 0 <= k < n ==> p(s[k])
    ensures n < |s| ==> !p(s[n])
  {
    if s != [] && p(s[0]) then 1 + LeadingCount(s[1..], p) else 0
  }

  lemma {:induction false} LeadingCountOf(x: string, y: string, p: char -> bool)
    requires forall k :: 0 <= k < |x| ==> p(x[k])
    requires y == [] || !p(y[0])
    ensures LeadingCount(x + y, p) == |x|
  {
    if x == [] {
      assert x + y == y;
    } else {
      assert (x + y)[0] == x[0];
      assert (x + y)[1..] == x[1..] + y;
      LeadingCountOf(x[1..], y, p);
    }
  }
}
