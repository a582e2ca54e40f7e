/** The parts of Python's `str` that the coordinator relies on: whitespace,
    `strip()`, `split()`, `sep.join(...)`, `lower()`, the `in` substring test,
    `str(int)`, `int(str)` and string ordering. */
module Text {
  import opened Wrappers

  /** `str.isspace()` for one character: the characters `str.split()` and
      `str.strip()` (both without arguments) treat as whitespace. */
  predicate IsSpace(c: char) {
    SpaceAt(c, 0)
  }

  predicate SpaceAt(c: char, i: nat)
    decreases |WhitespaceList| - i
  {
    i < |WhitespaceList| && (WhitespaceList[i] == c || SpaceAt(c, i + 1))
  }

  const WhitespaceList: seq<char> :=
    [ ' ', '\t', '\n', '\U{0B}', '\U{0C}', '\r', '\U{1C}', '\U{1D}', '\U{1E}', '\U{1F}',
      '\U{85}', '\U{A0}', '\U{1680}', '\U{2000}', '\U{2001}', '\U{2002}', '\U{2003}',
      '\U{2004}', '\U{2005}', '\U{2006}', '\U{2007}', '\U{2008}', '\U{2009}', '\U{200A}',
      '\U{2028}', '\U{2029}', '\U{202F}', '\U{205F}', '\U{3000}' ]

  /** No visible ASCII character is whitespace. */
  lemma PrintableNotSpace(c: char)
    requires '!' <= c <= '~'
    ensures !IsSpace(c)
  {
    NotSpaceFrom(c, 0);
  }

  lemma {:induction false} NotSpaceFrom(c: char, i: nat)
    requires '!' <= c <= '~'
    ensures !SpaceAt(c, i)
    decreases |WhitespaceList| - i
  {
    if i < |WhitespaceList| {
      assert WhitespaceList[i] == ' ' || WhitespaceList[i] < ' ' || WhitespaceList[i] > '~';
      NotSpaceFrom(c, i + 1);
    }
  }

  predicate NoSpace(s: string) {
    forall i :: 0 <= i < |s| ==> !IsSpace(s[i])
  }

  predicate AllSpace(s: string) {
    forall i :: 0 <= i < |s| ==> IsSpace(s[i])
  }

  /** A word as `str.split()` yields it: non-empty, no whitespace inside. */
  predicate IsWord(w: string) {
    w != [] && NoSpace(w)
  }

  // ---------------------------------------------------------------- strip

  /** `s.lstrip()`: drops the leading whitespace and nothing else (the
      rest of its contract is `TrimLeftSuffix`). */
  function TrimLeft(s: string): (r: string)
    ensures |r| <= |s|
    ensures r == [] || !IsSpace(r[0])
  {
    if s != [] && IsSpace(s[0]) then TrimLeft(s[1..]) else s
  }

  /** What `lstrip()` leaves is a suffix, and what it drops is whitespace. */
  lemma {:induction false} TrimLeftSuffix(s: string)
    ensures TrimLeft(s) == s[|s| - |TrimLeft(s)|..]
    ensures AllSpace(s[..|s| - |TrimLeft(s)|])
  {
    if s != [] && IsSpace(s[0]) {
      TrimLeftSuffix(s[1..]);
      var r := TrimLeft(s[1..]);
      assert s[..|s| - |r|] == [s[0]] + s[1..][..|s| - 1 - |r|];
    }
  }

  /** `s.rstrip()`: drops the trailing whitespace and nothing else (the
      rest of its contract is `TrimRightPrefix`). */
  function TrimRight(s: string): (r: string)
    ensures |r| <= |s|
    ensures r == [] || !IsSpace(r[|r| - 1])
  {
    if s != [] && IsSpace(s[|s| - 1]) then TrimRight(s[..|s| - 1]) else s
  }

  /** What `rstrip()` leaves is a prefix, and what it drops is whitespace. */
  lemma {:induction false} TrimRightPrefix(s: string)
    ensures TrimRight(s) == s[..|TrimRight(s)|]
    ensures AllSpace(s[|TrimRight(s)|..])
  {
    if s != [] && IsSpace(s[|s| - 1]) {
      TrimRightPrefix(s[..|s| - 1]);
      var r := TrimRight(s[..|s| - 1]);
      assert s[|r|..] == s[..|s| - 1][|r|..] + [s[|s| - 1]];
    }
  }

  /** `s.strip()` (its contract is `StripSpec`). */
  function Strip(s: string): string {
    TrimRight(TrimLeft(s))
  }

  /** What `strip()` leaves is a contiguous piece of `s`; everything cut off
      is whitespace; the piece is empty exactly when `s` is all whitespace. */
  lemma StripSpec(s: string)
    ensures var r := Strip(s); var a := |s| - |TrimLeft(s)|;
      a + |r| <= |s| && r == s[a..a + |r|]
    ensures Strip(s) == [] <==> AllSpace(s)
    ensures var r := Strip(s); r == [] || (!IsSpace(r[0]) && !IsSpace(r[|r| - 1]))
  {
    StripPiece(s);
    StripEmpty(s);
    StripEnds(s);
  }

  lemma StripPiece(s: string)
    ensures var r := Strip(s); var a := |s| - |TrimLeft(s)|;
      a + |r| <= |s| && r == s[a..a + |r|]
  {
    var l := TrimLeft(s);
    TrimLeftSuffix(s);
    TrimRightPrefix(l);
  }

  lemma StripEmpty(s: string)
    ensures Strip(s) == [] <==> AllSpace(s)
  {
    var l := TrimLeft(s);
    TrimLeftSuffix(s);
    TrimRightPrefix(l);
    var a := |s| - |l|;
    if Strip(s) == [] {
      assert AllSpace(l) by {
        assert l[|Strip(s)|..] == l;
      }
      assert l == [];
      assert s[..a] == s;
    }
  }

  lemma StripEnds(s: string)
    ensures var r := Strip(s); r == [] || (!IsSpace(r[0]) && !IsSpace(r[|r| - 1]))
  {
    var l := TrimLeft(s);
    TrimRightPrefix(l);
  }

  /** A string with no whitespace at either end is its own `strip()`. */
  lemma StripTrimmed(s: string)
    requires s == [] || (!IsSpace(s[0]) && !IsSpace(s[|s| - 1]))
    ensures Strip(s) == s
  {
  }

  // ---------------------------------------------------------------- split

  /** The longest prefix of `s` without whitespace (the rest of its
      contract is `TakeWordPrefix`). */
  function TakeWord(s: string): (w: string)
    ensures |w| <= |s|
    ensures s != [] && !IsSpace(s[0]) ==> w != []
  {
    if s == [] || IsSpace(s[0]) then [] else [s[0]] + TakeWord(s[1..])
  }

  /** The word is a prefix, holds no whitespace, and stops at whitespace. */
  lemma {:induction false} TakeWordPrefix(s: string)
    ensures TakeWord(s) == s[..|TakeWord(s)|] && NoSpace(TakeWord(s))
    ensures |TakeWord(s)| < |s| ==> IsSpace(s[|TakeWord(s)|])
  {
    if s != [] && !IsSpace(s[0]) {
      TakeWordPrefix(s[1..]);
    }
  }

  lemma {:induction false} TakeWordNoSpace(w: string)
    requires NoSpace(w)
    ensures TakeWord(w) == w
  {
    if w != [] {
      TakeWordNoSpace(w[1..]);
    }
  }

  /** `s.split()`: the maximal runs of non-whitespace characters, in order. */
  function Split(s: string): seq<string>
    decreases |s|
  {
    var t := TrimLeft(s);
    if t == [] then []
    else
      var w := TakeWord(t);
      [w] + Split(t[|w|..])
  }

  /** Every piece `split()` yields is a word. */
  lemma {:induction false} SplitYieldsWords(s: string)
    ensures forall i :: 0 <= i < |Split(s)| ==> IsWord(Split(s)[i])
    decreases |s|
  {
    var t := TrimLeft(s);
    if t != [] {
      var w := TakeWord(t);
      TakeWordPrefix(t);
      SplitYieldsWords(t[|w|..]);
    }
  }

  /** `sep.join(ws)`. */
  function Join(ws: seq<string>, sep: string): string {
    if ws == [] then ""
    else if |ws| == 1 then ws[0]
    else ws[0] + sep + Join(ws[1..], sep)
  }

  /** The words of every string of `ts`, in order. */
  function SplitAll(ts: seq<string>): seq<string> {
    if ts == [] then [] else Split(ts[0]) + SplitAll(ts[1..])
  }

  lemma {:induction false} TrimLeftAllSpace(a: string, x: string)
    requires AllSpace(a)
    ensures TrimLeft(a + x) == TrimLeft(x)
    decreases |a|
  {
    if a != [] {
      assert (a + x)[1..] == a[1..] + x;
      TrimLeftAllSpace(a[1..], x);
    } else {
      assert a + x == x;
    }
  }

  lemma {:induction false} TrimLeftAppend(a: string, x: string)
    requires TrimLeft(a) != []
    ensures TrimLeft(a + x) == TrimLeft(a) + x
    decreases |a|
  {
    assert a != [];
    if IsSpace(a[0]) {
      assert (a + x)[1..] == a[1..] + x;
      TrimLeftAppend(a[1..], x);
    }
  }

  lemma {:induction false} TakeWordBeforeSpace(t: string, c: char, b: string)
    requires IsSpace(c)
    ensures TakeWord(t + [c] + b) == TakeWord(t)
    decreases |t|
  {
    if t == [] {
      assert t + [c] + b == [c] + b;
    } else if !IsSpace(t[0]) {
      assert (t + [c] + b)[1..] == t[1..] + [c] + b;
      TakeWordBeforeSpace(t[1..], c, b);
    }
  }

  lemma {:induction false} SplitAllSpace(a: string)
    requires AllSpace(a)
    ensures Split(a) == []
  {
    TrimLeftAllSpace(a, []);
    assert a + [] == a;
  }

  /** Splitting at a whitespace character splits the two sides apart. */
  lemma {:induction false} SplitSeparated(a: string, c: char, b: string)
    requires IsSpace(c)
    ensures Split(a + [c] + b) == Split(a) + Split(b)
    decreases |a|
  {
    if Split(a) == [] {
      SplitSeparatedBlank(a, c, b);
    } else {
      var w, r := SplitStep(a, c, b);
      SplitSeparated(r, c, b);
      ConsAppend(w, Split(r), Split(b));
    }
  }

  lemma ConsAppend(w: string, x: seq<string>, y: seq<string>)
    ensures [w] + (x + y) == [w] + x + y
  {
  }

  lemma SplitSeparatedBlank(a: string, c: char, b: string)
    requires IsSpace(c) && Split(a) == []
    ensures Split(a + [c] + b) == Split(b)
  {
    assert TrimLeft(a) == [];
    TrimLeftSuffix(a);
    assert AllSpace(a + [c]) by {
      assert a == a[..|a| - |TrimLeft(a)|];
    }
    TrimLeftAllSpace(a + [c], b);
  }

  /** The first word of `a` is also the first word of `a + [c] + b`. */
  lemma SplitStep(a: string, c: char, b: string) returns (w: string, r: string)
    requires IsSpace(c) && Split(a) != []
    ensures |r| < |a|
    ensures Split(a) == [w] + Split(r)
    ensures Split(a + [c] + b) == [w] + Split(r + [c] + b)
  {
    var t := TrimLeft(a);
    w := TakeWord(t);
    r := t[|w|..];
    TrimLeftSplice(a, c, b);
    TakeWordBeforeSpace(t, c, b);
    assert (t + [c] + b)[|w|..] == r + [c] + b;
  }

  lemma TrimLeftSplice(a: string, c: char, b: string)
    requires TrimLeft(a) != []
    ensures TrimLeft(a + [c] + b) == TrimLeft(a) + [c] + b
  {
    TrimLeftAppend(a, [c] + b);
    assert a + [c] + b == a + ([c] + b);
  }

  /** A single word splits to itself. */
  lemma {:induction false} SplitWord(w: string)
    requires IsWord(w)
    ensures Split(w) == [w]
  {
    assert TrimLeft(w) == w;
    TakeWordNoSpace(w);
    assert w[|w|..] == [];
  }

  /** The words of a space-joined list are the words of its members. */
  lemma {:induction false} SplitJoinSpace(ts: seq<string>)
    ensures Split(Join(ts, " ")) == SplitAll(ts)
  {
    if ts == [] {
    } else if |ts| == 1 {
      assert SplitAll(ts[1..]) == [];
    } else {
      SplitJoinSpace(ts[1..]);
      assert ts[0] + " " + Join(ts[1..], " ") == ts[0] + [' '] + Join(ts[1..], " ");
      SplitSeparated(ts[0], ' ', Join(ts[1..], " "));
    }
  }

  /** Joining words with single spaces and splitting again gives the words back. */
  lemma {:induction false} SplitJoinWords(ws: seq<string>)
    requires forall i :: 0 <= i < |ws| ==> IsWord(ws[i])
    ensures Split(Join(ws, " ")) == ws
  {
    SplitJoinSpace(ws);
    SplitAllWords(ws);
  }

  lemma {:induction false} SplitAllWords(ws: seq<string>)
    requires forall i :: 0 <= i < |ws| ==> IsWord(ws[i])
    ensures SplitAll(ws) == ws
  {
    if ws != [] {
      SplitWord(ws[0]);
      SplitAllWords(ws[1..]);
    }
  }

  lemma {:induction false} SplitAllAppend(xs: seq<string>, ys: seq<string>)
    ensures SplitAll(xs + ys) == SplitAll(xs) + SplitAll(ys)
  {
    if xs == [] {
      assert xs + ys == ys;
    } else {
      assert (xs + ys)[0] == xs[0];
      assert (xs + ys)[1..] == xs[1..] + ys;
      SplitAllAppend(xs[1..], ys);
    }
  }

  // ---------------------------------------------------------------- lower, in

  /** `str.lower()` on one character (ASCII letters only). */
  function LowerChar(c: char): char {
    if 'A' <= c <= 'Z' then (c as int + 32) as char else c
  }

  /** `s.lower()`, character by character. */
  function Lower(s: string): (r: string)
    ensures |r| == |s| && forall i :: 0 <= i < |s| ==> r[i] == LowerChar(s[i])
  {
    if s == [] then [] else [LowerChar(s[0])] + Lower(s[1..])
  }

  /** Python's `needle in hay` for strings. */
  predicate Contains(hay: string, needle: string) {
    needle <= hay || (hay != [] && Contains(hay[1..], needle))
  }

  // ---------------------------------------------------------------- slices

  /** `s[:j]`, with Python's meaning for negative and out-of-range `j`. */
  function SliceTo<T>(s: seq<T>, j: int): (r: seq<T>)
    ensures |r| <= |s|
  {
    if j >= 0 then s[..if j <= |s| then j else |s|]
    else s[..if |s| + j >= 0 then |s| + j else 0]
  }

  /** `s[j:]`, with Python's meaning for negative and out-of-range `j`. */
  function SliceFrom<T>(s: seq<T>, j: int): (r: seq<T>)
    ensures |r| <= |s|
  {
    if j >= 0 then s[if j <= |s| then j else |s|..]
    else s[if |s| + j >= 0 then |s| + j else 0..]
  }

  // ---------------------------------------------------------------- numbers

  predicate IsDigit(c: char) {
    '0' <= c <= '9'
  }

  predicate AllDigits(s: string) {
    forall i :: 0 <= i < |s| ==> IsDigit(s[i])
  }

  function DigitChar(d: int): (c: char)
    requires 0 <= d < 10
    ensures IsDigit(c) && c as int - '0' as int == d
  {
    ('0' as int + d) as char
  }

  /** `str(n)` for a non-negative integer: its decimal digits. */
  function NatToString(n: nat): (s: string)
    ensures |s| >= 1 && AllDigits(s)
  {
    if n < 10 then [DigitChar(n)] else NatToString(n / 10) + [DigitChar(n % 10)]
  }

  /** `str(n)` for any integer. */
  function IntToString(n: int): string {
    if n < 0 then "-" + NatToString(-n) else NatToString(n)
  }

  /** The value of a string of decimal digits. */
  function DigitsValue(s: string): nat
    requires AllDigits(s)
  {
    if s == [] then 0 else DigitsValue(s[..|s| - 1]) * 10 + (s[|s| - 1] as int - '0' as int)
  }

  /** `int(s)` for an optional sign followed by ASCII digits; `None` where
      `int` raises ValueError. */
  function ParseInt(s: string): Option<int> {
    if s != [] && (s[0] == '-' || s[0] == '+') then
      var d := s[1..];
      if d != [] && AllDigits(d) then
        var v: int := DigitsValue(d);
        Some(if s[0] == '-' then -v else v)
      else None
    else if s != [] && AllDigits(s) then Some(DigitsValue(s))
    else None
  }

  lemma {:induction false} DigitsValueOfNat(n: nat)
    ensures DigitsValue(NatToString(n)) == n
    decreases n
  {
    if n >= 10 {
      var p := NatToString(n / 10);
      assert (p + [DigitChar(n % 10)])[..|p|] == p;
      DigitsValueOfNat(n / 10);
    }
  }

  /** `int(str(n)) == n`: decimal printing loses nothing. */
  lemma {:induction false} ParseIntToString(n: int)
    ensures ParseInt(IntToString(n)) == Some(n)
  {
    if n < 0 {
      DigitsValueOfNat(-n);
      ParseNegative(NatToString(-n));
    } else {
      DigitsValueOfNat(n);
      ParseDigits(NatToString(n));
    }
  }

  lemma ParseDigits(d: string)
    requires d != [] && AllDigits(d)
    ensures ParseInt(d) == Some(DigitsValue(d))
  {
    assert IsDigit(d[0]);
  }

  lemma ParseNegative(d: string)
    requires d != [] && AllDigits(d)
    ensures ParseInt("-" + d) == Some(-(DigitsValue(d) as int))
  {
    assert ("-" + d)[1..] == d;
  }

  /** Different integers print differently. */
  lemma IntToStringInjective(a: int, b: int)
    requires IntToString(a) == IntToString(b)
    ensures a == b
  {
    ParseIntToString(a);
    ParseIntToString(b);
  }

  // ---------------------------------------------------------------- order

  /** Python's `a <= b` on strings: lexicographic by code point. */
  predicate StrLeq(a: string, b: string) {
    a == [] || (b != [] && (a[0] < b[0] || (a[0] == b[0] && StrLeq(a[1..], b[1..]))))
  }

  lemma {:induction false} StrLeqTotal(a: string, b: string)
    ensures StrLeq(a, b) || StrLeq(b, a)
  {
    if a != [] && b != [] && a[0] == b[0] {
      StrLeqTotal(a[1..], b[1..]);
    }
  }

  lemma {:induction false} StrLeqTrans(a: string, b: string, c: string)
    requires StrLeq(a, b) && StrLeq(b, c)
    ensures StrLeq(a, c)
  {
    if a != [] && b != [] && c != [] && a[0] == b[0] == c[0] {
      StrLeqTrans(a[1..], b[1..], c[1..]);
    }
  }

  lemma {:induction false} StrLeqAntisymmetric(a: string, b: string)
    requires StrLeq(a, b) && StrLeq(b, a)
    ensures a == b
  {
    if a != [] && b != [] {
      StrLeqAntisymmetric(a[1..], b[1..]);
      assert a == [a[0]] + a[1..];
      assert b == [b[0]] + b[1..];
    }
  }

  // ---------------------------------------------------------------- sorted()

  predicate StrSorted(xs: seq<string>) {
    forall i, j :: 0 <= i < j < |xs| ==> StrLeq(xs[i], xs[j])
  }

  /** Insertion of `x` after every element not above it. */
  function InsertString(xs: seq<string>, x: string): seq<string> {
    if xs == [] then [x]
    else if StrLeq(xs[|xs| - 1], x) then xs + [x]
    else InsertString(xs[..|xs| - 1], x) + [xs[|xs| - 1]]
  }

  /** `sorted(xs)` for strings. */
  function SortStrings(xs: seq<string>): seq<string> {
    if xs == [] then [] else InsertString(SortStrings(xs[..|xs| - 1]), xs[|xs| - 1])
  }

  lemma InsertStringSpec(xs: seq<string>, x: string)
    requires StrSorted(xs)
    ensures StrSorted(InsertString(xs, x))
    ensures multiset(InsertString(xs, x)) == multiset(xs) + multiset{x}
  {
    InsertStringSorted(xs, x);
    InsertStringPerm(xs, x);
  }

  lemma {:induction false} InsertStringSorted(xs: seq<string>, x: string)
    requires StrSorted(xs)
    ensures StrSorted(InsertString(xs, x))
  {
    if xs != [] {
      var init, last := xs[..|xs| - 1], xs[|xs| - 1];
      if StrLeq(last, x) {
        forall i | 0 <= i < |xs|
          ensures StrLeq(xs[i], x)
        {
          if i < |xs| - 1 {
            StrLeqTrans(xs[i], last, x);
          }
        }
        SortedSnoc(xs, x);
      } else {
        StrLeqTotal(last, x);
        forall i, j | 0 <= i < j < |init|
          ensures StrLeq(init[i], init[j])
        {
          assert init[i] == xs[i] && init[j] == xs[j];
        }
        InsertStringSorted(init, x);
        forall i | 0 <= i < |init|
          ensures StrLeq(init[i], last)
        {
          assert init[i] == xs[i];
        }
        InsertStringBound(init, x, last);
        SortedSnoc(InsertString(init, x), last);
      }
    }
  }

  lemma {:induction false} InsertStringPerm(xs: seq<string>, x: string)
    ensures multiset(InsertString(xs, x)) == multiset(xs) + multiset{x}
  {
    if xs != [] && !StrLeq(xs[|xs| - 1], x) {
      var init := xs[..|xs| - 1];
      assert init + [xs[|xs| - 1]] == xs;
      InsertStringPerm(init, x);
    }
  }

  /** Inserting below a bound keeps every element below it. */
  lemma {:induction false} InsertStringBound(xs: seq<string>, x: string, b: string)
    requires forall i :: 0 <= i < |xs| ==> StrLeq(xs[i], b)
    requires StrLeq(x, b)
    ensures forall i :: 0 <= i < |InsertString(xs, x)| ==> StrLeq(InsertString(xs, x)[i], b)
  {
    if xs != [] && !StrLeq(xs[|xs| - 1], x) {
      var init, last := xs[..|xs| - 1], xs[|xs| - 1];
      forall i | 0 <= i < |init|
        ensures StrLeq(init[i], b)
      {
        assert init[i] == xs[i];
      }
      InsertStringBound(init, x, b);
      var r := InsertString(init, x);
      forall i | 0 <= i < |r| + 1
        ensures StrLeq((r + [last])[i], b)
      {
        if i < |r| {
          assert (r + [last])[i] == r[i];
        }
      }
    } else {
      forall i | 0 <= i < |xs| + 1
        ensures StrLeq((xs + [x])[i], b)
      {
        if i < |xs| {
          assert (xs + [x])[i] == xs[i];
        }
      }
    }
  }

  lemma SortedSnoc(ys: seq<string>, y: string)
    requires StrSorted(ys) && forall i :: 0 <= i < |ys| ==> StrLeq(ys[i], y)
    ensures StrSorted(ys + [y])
  {
    forall i, j | 0 <= i < j < |ys| + 1
      ensures StrLeq((ys + [y])[i], (ys + [y])[j])
    {
      assert (ys + [y])[i] == ys[i];
      if j < |ys| {
        assert (ys + [y])[j] == ys[j];
      }
    }
  }

  /** `sorted()` orders the strings and keeps every one of them. */
  lemma {:induction false} SortStringsSpec(xs: seq<string>)
    ensures StrSorted(SortStrings(xs))
    ensures multiset(SortStrings(xs)) == multiset(xs)
  {
    if xs != [] {
      var init := xs[..|xs| - 1];
      assert init + [xs[|xs| - 1]] == xs;
      SortStringsSpec(init);
      InsertStringSpec(SortStrings(init), xs[|xs| - 1]);
    }
  }
}
