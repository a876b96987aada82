// Python string and list helpers used across the model: the ordering of
// `str` values that `sorted` uses, `sorted(set(xs))`, the first-occurrence
// de-duplication of `dict.fromkeys`, and `strip`, `zfill`, `isdigit`,
// `lower`, `in` on strings and `join`.
module Text {

  // ---------------------------------------------------------------------
  // Ordering of strings (Python compares `str` by code points)
  // ---------------------------------------------------------------------

  predicate LexLess(a: string, b: string)
  {
    if |a| == 0 then |b| > 0
    else if |b| == 0 then false
    else if a[0] != b[0] then a[0] < b[0]
    else LexLess(a[1..], b[1..])
  }

  lemma {:induction false} LexIrreflexive(a: string)
    ensures !LexLess(a, a)
  {
    if |a| > 0 {
      LexIrreflexive(a[1..]);
    }
  }

  lemma {:induction false} LexTransitive(a: string, b: string, c: string)
    requires LexLess(a, b) && LexLess(b, c)
    ensures LexLess(a, c)
  {
    if |a| > 0 && |b| > 0 && |c| > 0 && a[0] == b[0] && b[0] == c[0] {
      LexTransitive(a[1..], b[1..], c[1..]);
    }
  }

  lemma {:induction false} LexTotal(a: string, b: string)
    ensures a == b || LexLess(a, b) || LexLess(b, a)
  {
    if |a| > 0 && |b| > 0 && a[0] == b[0] {
      LexTotal(a[1..], b[1..]);
      if a[1..] == b[1..] {
        assert a == [a[0]] + a[1..] && b == [b[0]] + b[1..];
      }
    }
  }

  lemma {:induction false} LexAsymmetric(a: string, b: string)
    requires LexLess(a, b)
    ensures !LexLess(b, a)
  {
    if |a| > 0 && |b| > 0 && a[0] == b[0] {
      LexAsymmetric(a[1..], b[1..]);
    }
  }

  predicate StrictlySorted(r: seq<string>)
  {
    forall i, j :: 0 <= i < j < |r| ==> LexLess(r[i], r[j])
  }

  predicate NoDups<T(==)>(r: seq<T>)
  {
    forall i, j :: 0 <= i < j < |r| ==> r[i] != r[j]
  }

  /** Appending an element not yet present keeps a list duplicate-free. */
  lemma NoDupsSnoc<T>(r: seq<T>, x: T)
    requires NoDups(r) && x !in r
    ensures NoDups(r + [x])
  {
    forall i, j | 0 <= i < j < |r| + 1 ensures (r + [x])[i] != (r + [x])[j] {
      if j == |r| {
        assert (r + [x])[i] == r[i];
      }
    }
  }

  lemma StrictlySortedHasNoDups(r: seq<string>)
    requires StrictlySorted(r)
    ensures NoDups(r)
  {
    forall i, j | 0 <= i < j < |r| ensures r[i] != r[j] {
      LexIrreflexive(r[i]);
    }
  }

  // ---------------------------------------------------------------------
  // sorted(set(xs))
  // ---------------------------------------------------------------------

  /** Inserts `x` into a strictly sorted list unless it is already there. */
  function InsertSorted(x: string, r: seq<string>): (q: seq<string>)
    requires StrictlySorted(r)
    ensures StrictlySorted(q)
    ensures forall y :: y in q <==> y == x || y in r
    ensures |q| <= |r| + 1
  {
    if r == [] then [x]
    else if x == r[0] then r
    else if LexLess(x, r[0]) then
      assert forall j :: 0 <= j < |r| ==> LexLess(x, r[j]) by {
        forall j | 0 <= j < |r| ensures LexLess(x, r[j]) {
          if j > 0 { LexTransitive(x, r[0], r[j]); }
        }
      }
      [x] + r
    else
      LexTotal(x, r[0]);
      var tail := InsertSorted(x, r[1..]);
      assert forall y :: y in tail ==> LexLess(r[0], y) by {
        forall y | y in tail ensures LexLess(r[0], y) {
          if y != x {
            var j :| 1 <= j < |r| && r[j] == y;
          }
        }
      }
      [r[0]] + tail
  }

  /** Python's `sorted(set(xs))`: the distinct elements of `xs` in ascending order. */
  function SortedUnique(xs: seq<string>): (r: seq<string>)
    ensures StrictlySorted(r)
    ensures forall y :: y in r <==> y in xs
    ensures |r| <= |xs|
  {
    if xs == [] then []
    else InsertSorted(xs[|xs| - 1], SortedUnique(xs[..|xs| - 1]))
  }

  /** Two strictly sorted lists with the same elements are the same list, so
      `SortedUnique` is fully determined by the set of its input's elements. */
  lemma {:induction false} StrictlySortedUnique(a: seq<string>, b: seq<string>)
    requires StrictlySorted(a) && StrictlySorted(b)
    requires forall y :: y in a <==> y in b
    ensures a == b
  {
    if a != [] { assert a[0] in a; }
    if b != [] { assert b[0] in b; }
    if a != [] && b != [] {
      assert a[0] in a && b[0] in b;
      if a[0] != b[0] {
        var i :| 0 <= i < |b| && b[i] == a[0];
        var j :| 0 <= j < |a| && a[j] == b[0];
        LexAsymmetric(a[0], b[0]);
        assert false;
      }
      LexIrreflexive(a[0]);
      forall y ensures y in a[1..] <==> y in b[1..] {
        if y in a[1..] {
          var k :| 1 <= k < |a| && a[k] == y;
          assert y in b;
          var m :| 0 <= m < |b| && b[m] == y;
          assert m != 0;
          assert b[1..][m - 1] == y;
        }
        if y in b[1..] {
          var k :| 1 <= k < |b| && b[k] == y;
          assert y in a;
          var m :| 0 <= m < |a| && a[m] == y;
          assert m != 0;
          assert a[1..][m - 1] == y;
        }
      }
      StrictlySortedUnique(a[1..], b[1..]);
      assert a == [a[0]] + a[1..] && b == [b[0]] + b[1..];
    }
  }

  // ---------------------------------------------------------------------
  // list(dict.fromkeys(xs)): first occurrences, in order
  // ---------------------------------------------------------------------

  function Dedup<T(==,!new)>(xs: seq<T>): (r: seq<T>)
    ensures NoDups(r)
    ensures forall y :: y in r <==> y in xs
    ensures |r| <= |xs|
  {
    if xs == [] then []
    else
      var p := Dedup(xs[..|xs| - 1]);
      if xs[|xs| - 1] in p then p else p + [xs[|xs| - 1]]
  }

  /** A list without duplicates is its own de-duplication. */
  lemma {:induction false} DedupOfNoDups<T(!new)>(xs: seq<T>)
    requires NoDups(xs)
    ensures Dedup(xs) == xs
  {
    if xs != [] {
      var n := |xs| - 1;
      assert NoDups(xs[..n]) by {
        forall i, j | 0 <= i < j < n ensures xs[..n][i] != xs[..n][j] {
          assert xs[..n][i] == xs[i] && xs[..n][j] == xs[j];
        }
      }
      DedupOfNoDups(xs[..n]);
      assert xs[n] !in xs[..n] by {
        forall i | 0 <= i < n ensures xs[..n][i] != xs[n] {
          assert xs[..n][i] == xs[i];
        }
      }
      assert xs[..n] + [xs[n]] == xs;
    }
  }

  /** Index of the first occurrence of `y` in `xs`. */
  function FirstIndex<T(==)>(xs: seq<T>, y: T): (k: nat)
    requires y in xs
    ensures k < |xs| && xs[k] == y
    ensures forall i :: 0 <= i < k ==> xs[i] != y
  {
    if xs[0] == y then 0 else 1 + FirstIndex(xs[1..], y)
  }

  lemma {:induction false} FirstIndexOfPrefix<T>(xs: seq<T>, n: nat, y: T)
    requires n <= |xs| && y in xs[..n]
    ensures y in xs && FirstIndex(xs, y) == FirstIndex(xs[..n], y)
  {
    var k := FirstIndex(xs[..n], y);
    assert xs[k] == xs[..n][k] == y;
  }

  /** The de-duplicated list keeps the order of first occurrences. */
  lemma {:induction false} DedupKeepsFirstOccurrenceOrder<T(!new)>(xs: seq<T>)
    ensures forall i, j :: 0 <= i < j < |Dedup(xs)| ==>
      FirstIndex(xs, Dedup(xs)[i]) < FirstIndex(xs, Dedup(xs)[j])
  {
    if xs != [] {
      var n := |xs| - 1;
      var pre := xs[..n];
      DedupKeepsFirstOccurrenceOrder(pre);
      var p := Dedup(pre);
      var r := Dedup(xs);
      forall i, j | 0 <= i < j < |r|
        ensures FirstIndex(xs, r[i]) < FirstIndex(xs, r[j])
      {
        FirstIndexOfPrefix(xs, n, r[i]);
        if j < |p| {
          FirstIndexOfPrefix(xs, n, r[j]);
        } else {
          assert r[j] == xs[n] && xs[n] !in pre;
          assert FirstIndex(xs, r[j]) == n;
        }
      }
    }
  }

  /** Appending elements never changes the de-duplicated prefix. */
  lemma {:induction false} DedupPrefixStable<T(!new)>(xs: seq<T>, ys: seq<T>)
    ensures |Dedup(xs)| <= |Dedup(xs + ys)|
    ensures Dedup(xs + ys)[..|Dedup(xs)|] == Dedup(xs)
  {
    if ys != [] {
      var zs := xs + ys[..|ys| - 1];
      assert (xs + ys)[..|xs + ys| - 1] == zs;
      DedupPrefixStable(xs, ys[..|ys| - 1]);
    } else {
      assert xs + ys == xs;
    }
  }

  // ---------------------------------------------------------------------
  // str methods
  // ---------------------------------------------------------------------

  /** Characters Python's `str.isspace` accepts. */
  predicate IsSpace(c: char)
  {
    c == ' ' || ('\t' <= c <= '\r') || ('\U{1c}' <= c <= '\U{1f}') || c == '\U{85}' || c == '\U{a0}'
    || c == '\U{1680}' || ('\U{2000}' <= c <= '\U{200a}') || c == '\U{2028}' || c == '\U{2029}'
    || c == '\U{202f}' || c == '\U{205f}' || c == '\U{3000}'
  }

  function TrimLeft(s: string): (r: string)
    ensures |r| <= |s| && r == s[|s| - |r|..]
    ensures r == [] || !IsSpace(r[0])
    ensures forall i :: 0 <= i < |s| - |r| ==> IsSpace(s[i])
  {
    if s != [] && IsSpace(s[0]) then TrimLeft(s[1..]) else s
  }

  function TrimRight(s: string): (r: string)
    ensures |r| <= |s| && r == s[..|r|]
    ensures r == [] || !IsSpace(r[|r| - 1])
    ensures forall i :: |r| <= i < |s| ==> IsSpace(s[i])
  {
    if s != [] && IsSpace(s[|s| - 1]) then TrimRight(s[..|s| - 1]) else s
  }

  predicate AllSpace(t: string)
  {
    forall k :: 0 <= k < |t| ==> IsSpace(t[k])
  }

  /** `s.strip()`: `s` without its leading and trailing whitespace. */
  function Strip(s: string): (r: string)
    ensures r == [] || (!IsSpace(r[0]) && !IsSpace(r[|r| - 1]))
    ensures |r| <= |s|
  {
    TrimRight(TrimLeft(s))
  }

  /** The stripped string is a slice of the original with only whitespace
      cut away on either side. */
  lemma StripIsSlice(s: string)
    ensures exists i, j :: 0 <= i <= j <= |s| && Strip(s) == s[i..j] && AllSpace(s[..i]) && AllSpace(s[j..])
  {
    var left := TrimLeft(s);
    var r := TrimRight(left);
    var i := |s| - |left|;
    var j := i + |r|;
    assert r == s[i..j] by {
      assert left == s[i..];
      assert r == left[..|r|];
    }
    LeadingSpace(s, i);
    TrailingSpace(s, left, i, |r|);
    assert Strip(s) == s[i..j] && AllSpace(s[..i]) && AllSpace(s[j..]);
  }

  /** What `TrimLeft` cut away is whitespace. */
  lemma LeadingSpace(s: string, i: nat)
    requires i == |s| - |TrimLeft(s)|
    ensures AllSpace(s[..i])
  {
    forall k | 0 <= k < i ensures IsSpace(s[..i][k]) {
      assert s[..i][k] == s[k];
    }
  }

  /** What `TrimRight` cut away from the end of `left == s[i..]` is
      whitespace. */
  lemma TrailingSpace(s: string, left: string, i: nat, n: nat)
    requires i <= |s| && left == s[i..] && n == |TrimRight(left)|
    ensures i + n <= |s| && AllSpace(s[i + n..])
  {
    var tail := s[i + n..];
    forall k | 0 <= k < |tail| ensures IsSpace(tail[k]) {
      assert tail[k] == left[n + k];
    }
  }

  predicate IsAsciiDigit(c: char)
  {
    '0' <= c <= '9'
  }

  /** `s.isdigit()`: non-empty and made of decimal digits only. */
  predicate IsDigits(s: string)
  {
    |s| > 0 && forall i :: 0 <= i < |s| ==> IsAsciiDigit(s[i])
  }

  function Repeat(c: char, n: nat): (r: string)
    ensures |r| == n && forall i :: 0 <= i < n ==> r[i] == c
  {
    if n == 0 then [] else [c] + Repeat(c, n - 1)
  }

  /** `s.zfill(width)`: pads with '0' on the left to `width`, after a leading sign. */
  function ZFill(s: string, width: int): (r: string)
    ensures |s| >= width ==> r == s
    ensures |s| < width ==> |r| == width
    ensures |s| < width && s != [] && (s[0] == '+' || s[0] == '-') ==>
      r[0] == s[0] && r[|r| - |s| + 1..] == s[1..]
    ensures |s| < width && (s == [] || (s[0] != '+' && s[0] != '-')) ==>
      r[width - |s|..] == s && forall i :: 0 <= i < width - |s| ==> r[i] == '0'
  {
    if |s| >= width then s
    else if s != [] && (s[0] == '+' || s[0] == '-') then [s[0]] + Repeat('0', width - |s|) + s[1..]
    else Repeat('0', width - |s|) + s
  }

  /** `c.lower()` on ASCII letters; every other character is left as it is. */
  function LowerChar(c: char): (d: char)
    ensures 'A' <= c <= 'Z' ==> 'a' <= d <= 'z'
    ensures !('A' <= c <= 'Z') ==> d == c
  {
    if 'A' <= c <= 'Z' then (c as int - 'A' as int + 'a' as int) as char else c
  }

  function Lower(s: string): (r: string)
    ensures |r| == |s| && forall i :: 0 <= i < |s| ==> r[i] == LowerChar(s[i])
  {
    if s == [] then [] else [LowerChar(s[0])] + Lower(s[1..])
  }

  predicate IsPrefix(p: string, s: string)
  {
    |p| <= |s| && s[..|p|] == p
  }

  /** `sub` occurs in `text` starting at index `i`. */
  predicate OccursAt(text: string, sub: string, i: int)
  {
    0 <= i && i + |sub| <= |text| && text[i..i + |sub|] == sub
  }

  /** Python's `sub in text` on strings. */
  predicate Contains(text: string, sub: string)
  {
    IsPrefix(sub, text) || (|text| > 0 && Contains(text[1..], sub))
  }

  lemma {:induction false} ContainsAt(text: string, sub: string)
    ensures Contains(text, sub) <==> exists i :: OccursAt(text, sub, i)
  {
    if |text| > 0 {
      ContainsAt(text[1..], sub);
      if exists i :: OccursAt(text, sub, i) {
        var i :| OccursAt(text, sub, i);
        if i == 0 {
          assert IsPrefix(sub, text);
        } else {
          assert OccursAt(text[1..], sub, i - 1) by {
            assert text[1..][i - 1..i - 1 + |sub|] == text[i..i + |sub|];
          }
        }
      }
      if IsPrefix(sub, text) {
        assert OccursAt(text, sub, 0);
      }
      if Contains(text[1..], sub) {
        var i :| OccursAt(text[1..], sub, i);
        assert OccursAt(text, sub, i + 1) by {
          assert text[1..][i..i + |sub|] == text[i + 1..i + 1 + |sub|];
        }
      }
    } else {
      if exists i :: OccursAt(text, sub, i) {
        var i :| OccursAt(text, sub, i);
        assert IsPrefix(sub, text);
      }
      if Contains(text, sub) {
        assert OccursAt(text, sub, 0);
      }
    }
  }

  /** `sep.join(parts)`. */
  function Join(sep: string, parts: seq<string>): (r: string)
    ensures parts == [] ==> r == []
    ensures |parts| == 1 ==> r == parts[0]
  {
    if parts == [] then []
    else if |parts| == 1 then parts[0]
    else parts[0] + sep + Join(sep, parts[1..])
  }

  /** Decimal digits of a natural number, as `str(n)` writes it. */
  function NatToString(n: nat): (r: string)
    ensures |r| > 0 && forall i :: 0 <= i < |r| ==> IsAsciiDigit(r[i])
  {
    if n < 10 then [('0' as int + n) as char]
    else NatToString(n / 10) + [('0' as int + n % 10) as char]
  }

  /** `str(n)` has one digit below 10, two below 100, and four from 1000
      to 9999. */
  lemma NatToStringWidth(n: nat)
    ensures n < 10 ==> |NatToString(n)| == 1
    ensures 10 <= n < 100 ==> |NatToString(n)| == 2
    ensures 1000 <= n < 10000 ==> |NatToString(n)| == 4
  {
    if n >= 10 {
      NatToStringWidth(n / 10);
    }
  }

  /** `f"{n:02d}"` for a natural number. */
  function Pad2(n: nat): (r: string)
    ensures |r| >= 2
  {
    ZFill(NatToString(n), 2)
  }

  /** Below 100, the rendering is two characters wide. */
  lemma Pad2Width(n: nat)
    requires n < 100
    ensures |Pad2(n)| == 2
  {
    NatToStringWidth(n);
  }

  /** Below 100, the two-digit rendering is the tens digit then the units
      digit. */
  lemma Pad2Digits(n: nat)
    requires n < 100
    ensures Pad2(n) == [('0' as int + n / 10) as char, ('0' as int + n % 10) as char]
  {
    NatToStringWidth(n);
    if n >= 10 {
      assert NatToString(n / 10) == [('0' as int + n / 10) as char];
    }
  }
}
