/** Values and text helpers shared by every part of the expense tracker model:
    JavaScript numbers as the application uses them, `parseFloat`, the string
    operations the handlers call (`trim`, `toLowerCase`, `includes`, `join`),
    and order-preserving filtering. */
module Common {

  datatype Option<T> = None | Some(value: T)

  // ---------------------------------------------------------------------------
  // JavaScript numbers
  // ---------------------------------------------------------------------------

  /** A JavaScript number: NaN or a finite value. Amounts are exact reals, so
      floating-point rounding is not part of the model. */
  datatype Number = NaN | Num(value: real)

  /** `a + b`: NaN as soon as either side is NaN. */
  function Add(a: Number, b: Number): Number
  {
    if a.Num? && b.Num? then Num(a.value + b.value) else NaN
  }

  /** `a - b`. */
  function Sub(a: Number, b: Number): Number
  {
    if a.Num? && b.Num? then Num(a.value - b.value) else NaN
  }

  /** `a > b`: false whenever NaN is involved. */
  predicate Greater(a: Number, b: Number)
  {
    a.Num? && b.Num? && a.value > b.value
  }

  /** `x > 0 ? x : 0`, the clamp applied to every remaining-budget figure. */
  function Clamp(x: Number): (r: Number)
    ensures r.Num? && r.value >= 0.0
    ensures Greater(x, Num(0.0)) ==> r == x
    ensures !Greater(x, Num(0.0)) ==> r == Num(0.0)
  {
    if Greater(x, Num(0.0)) then x else Num(0.0)
  }

  /** `(v || 0)` for a dictionary slot that may be missing: undefined, NaN and
      0 are all falsy and read as 0. */
  function OrZero(v: Option<Number>): (r: Number)
    ensures r.Num?
    ensures v.Some? && v.value.Num? ==> r == v.value
    ensures !(v.Some? && v.value.Num?) ==> r == Num(0.0)
  {
    if v.Some? && v.value.Num? then v.value else Num(0.0)
  }

  /** Sum of a sequence of numbers, added left to right from 0 like `reduce`. */
  function SumSeq(xs: seq<Number>): Number
  {
    if xs == [] then Num(0.0) else Add(SumSeq(xs[..|xs| - 1]), xs[|xs| - 1])
  }

  lemma SumSeqSnoc(xs: seq<Number>, x: Number)
    ensures SumSeq(xs + [x]) == Add(SumSeq(xs), x)
  {
    assert (xs + [x])[..|xs|] == xs;
  }

  /** The `reduce` sum is a number exactly when every element is one: a
      single NaN makes the whole sum NaN. */
  lemma {:induction false} SumSeqNum(xs: seq<Number>)
    ensures SumSeq(xs).Num? <==> forall i :: 0 <= i < |xs| ==> xs[i].Num?
  {
    if xs != [] {
      var n := |xs| - 1;
      SumSeqNum(xs[..n]);
      assert forall i :: 0 <= i < n ==> xs[..n][i] == xs[i];
    }
  }

  // ---------------------------------------------------------------------------
  // parseFloat
  // ---------------------------------------------------------------------------

  /** The characters `trim()` and `parseFloat` skip: ECMAScript WhiteSpace and
      LineTerminator. */
  predicate IsJsWhitespace(c: char)
  {
    c == '\t' || c == '\n' || c == '\U{000B}' || c == '\U{000C}' || c == '\r' || c == ' '
    || c == '\U{00A0}' || c == '\U{1680}' || ('\U{2000}' <= c <= '\U{200A}')
    || c == '\U{2028}' || c == '\U{2029}' || c == '\U{202F}' || c == '\U{205F}'
    || c == '\U{3000}' || c == '\U{FEFF}'
  }

  predicate IsDigit(c: char)
  {
    '0' <= c <= '9'
  }

  predicate AllDigits(s: string)
  {
    forall i :: 0 <= i < |s| ==> IsDigit(s[i])
  }

  /** Value of a string of decimal digits (empty string reads as 0). */
  function DigitsValue(ds: string): nat
    requires AllDigits(ds)
  {
    if ds == [] then 0
    else DigitsValue(ds[..|ds| - 1]) * 10 + ((ds[|ds| - 1] as int) - ('0' as int))
  }

  /** Length of the run of decimal digits that starts `s`. */
  function LeadingDigits(s: string): (n: nat)
    ensures n <= |s|
    ensures AllDigits(s[..n])
    ensures n < |s| ==> !IsDigit(s[n])
  {
    if s == [] || !IsDigit(s[0]) then 0
    else
      var n := 1 + LeadingDigits(s[1..]);
      assert s[..n] == [s[0]] + s[1..][..n - 1];
      n
  }

  function Pow10(n: nat): (r: real)
    ensures r >= 1.0
  {
    if n == 0 then 1.0 else 10.0 * Pow10(n - 1)
  }

  /** Scale factor of an optional exponent part `e[+-]digits` at the start of
      `rest`; 1 when there is none (JavaScript ignores a dangling `e`). */
  function ExponentScale(rest: string): (r: real)
    ensures r > 0.0
  {
    if |rest| == 0 || (rest[0] != 'e' && rest[0] != 'E') then 1.0
    else
      var afterE := rest[1..];
      var neg := |afterE| > 0 && afterE[0] == '-';
      var digits := if |afterE| > 0 && (afterE[0] == '-' || afterE[0] == '+') then afterE[1..] else afterE;
      var n := LeadingDigits(digits);
      if n == 0 then 1.0
      else
        var e := DigitsValue(digits[..n]);
        if neg then 1.0 / Pow10(e) else Pow10(e)
  }

  /** Value of the digits after the decimal point. */
  function Fraction(ds: string): (r: real)
    requires AllDigits(ds)
    ensures 0.0 <= r
  {
    QuotientNonNeg(DigitsValue(ds) as real, Pow10(|ds|));
    DigitsValue(ds) as real / Pow10(|ds|)
  }

  /** The longest prefix of `u` of the form digits[.digits][exponent], with at
      least one digit in the mantissa; None when there is no such prefix. The
      unsigned part never reads as a negative number. */
  function ParseUnsigned(u: string): (r: Option<real>)
    ensures r.Some? ==> r.value >= 0.0
  {
    var n1 := LeadingDigits(u);
    var hasDot := n1 < |u| && u[n1] == '.';
    var fracStart := if hasDot then n1 + 1 else n1;
    var n2 := if hasDot then LeadingDigits(u[fracStart..]) else 0;
    if n1 + n2 == 0 then None
    else
      var mantissa := DigitsValue(u[..n1]) as real + Fraction(u[fracStart..][..n2]);
      var scale := ExponentScale(u[fracStart + n2..]);
      ProductNonNeg(mantissa, scale);
      Some(mantissa * scale)
  }

  lemma ProductNonNeg(a: real, b: real)
    requires a >= 0.0 && b > 0.0
    ensures a * b >= 0.0
  {
  }

  lemma QuotientNonNeg(a: real, b: real)
    requires a >= 0.0 && b > 0.0
    ensures a / b >= 0.0
  {
  }

  /** Drops leading JavaScript whitespace. */
  function TrimStart(s: string): (r: string)
    ensures |r| <= |s| && r == s[|s| - |r|..]
    ensures r != [] ==> !IsJsWhitespace(r[0])
    ensures forall i :: 0 <= i < |s| - |r| ==> IsJsWhitespace(s[i])
  {
    if s != [] && IsJsWhitespace(s[0]) then TrimStart(s[1..]) else s
  }

  /** `parseFloat(s)`: skip leading whitespace, read an optional sign and the
      longest numeric prefix; NaN when there is none. */
  function ParseFloat(s: string): Number
  {
    if s != [] && IsJsWhitespace(s[0]) then ParseFloat(s[1..])
    else
      var signed := |s| > 0 && (s[0] == '-' || s[0] == '+');
      var u := if signed then s[1..] else s;
      match ParseUnsigned(u)
      case None => NaN
      case Some(v) => Num(if signed && s[0] == '-' then -v else v)
  }

  lemma {:induction false} LeadingDigitsAll(s: string)
    requires AllDigits(s)
    ensures LeadingDigits(s) == |s|
  {
    if s != [] {
      assert AllDigits(s[1..]);
      LeadingDigitsAll(s[1..]);
    }
  }

  /** A plain run of digits is read whole, as the number it spells. */
  lemma UnsignedDigits(s: string)
    requires s != [] && AllDigits(s)
    ensures ParseUnsigned(s) == Some(DigitsValue(s) as real)
  {
    LeadingDigitsAll(s);
    assert s[..|s|] == s;
    assert s[|s|..] == "";
    assert Fraction(""[..0]) == 0.0;
  }

  /** `parseFloat` of a digit string is the number it spells. */
  lemma ParseDigits(s: string)
    requires s != [] && AllDigits(s)
    ensures ParseFloat(s) == Num(DigitsValue(s) as real)
  {
    UnsignedDigits(s);
    assert IsDigit(s[0]);
  }

  /** `parseFloat` of a minus sign followed by digits is the negated number. */
  lemma ParseNegativeDigits(s: string)
    requires s != [] && AllDigits(s)
    ensures ParseFloat("-" + s) == Num(-(DigitsValue(s) as real))
  {
    var t := "-" + s;
    assert t[0] == '-' && t[1..] == s;
    UnsignedDigits(s);
  }

  /** Leading whitespace does not change what `parseFloat` reads. */
  lemma ParseSkipsWhitespace(c: char, s: string)
    requires IsJsWhitespace(c)
    ensures ParseFloat([c] + s) == ParseFloat(s)
  {
    assert ([c] + s)[1..] == s;
  }

  // ---------------------------------------------------------------------------
  // Strings
  // ---------------------------------------------------------------------------

  /** Drops trailing JavaScript whitespace. */
  function TrimEnd(s: string): (r: string)
    ensures |r| <= |s| && r == s[..|r|]
    ensures r != [] ==> !IsJsWhitespace(r[|r| - 1])
    ensures forall i :: |r| <= i < |s| ==> IsJsWhitespace(s[i])
  {
    if s != [] && IsJsWhitespace(s[|s| - 1]) then TrimEnd(s[..|s| - 1]) else s
  }

  /** `s.trim()`. */
  function Trim(s: string): string
  {
    TrimEnd(TrimStart(s))
  }

  /** The lower-case form of an ASCII or Latin-1 capital letter (the
      multiplication sign U+00D7 is not a letter); every other character is
      kept. */
  function LowerChar(c: char): char
  {
    if 'A' <= c <= 'Z' || ('\U{00C0}' <= c <= '\U{00DE}' && c != '\U{00D7}') then (c as int + 32) as char else c
  }

  /** `s.toLowerCase()` on the ASCII and Latin-1 letters, one character at a
      time. */
  function Lower(s: string): (r: string)
    ensures |r| == |s|
    ensures forall i :: 0 <= i < |s| ==> r[i] == LowerChar(s[i])
  {
    seq(|s|, i requires 0 <= i < |s| => LowerChar(s[i]))
  }

  /** `s.includes(sub)`. */
  predicate Contains(s: string, sub: string)
    decreases |s|
  {
    sub <= s || (s != [] && Contains(s[1..], sub))
  }

  /** Decimal digits of a natural number, as `${n}` renders it. */
  function NatToString(n: nat): (r: string)
    ensures |r| >= 1 && AllDigits(r)
    decreases n
  {
    var d := ['0' + (n % 10) as char];
    if n < 10 then d else NatToString(n / 10) + d
  }

  /** `rows.join(sep)`. */
  function Join(rows: seq<string>, sep: char): string
  {
    if |rows| == 0 then ""
    else if |rows| == 1 then rows[0]
    else rows[0] + [sep] + Join(rows[1..], sep)
  }

  /** `s.split(sep)`: the pieces between occurrences of `sep`. */
  function Split(s: string, sep: char): (r: seq<string>)
    ensures |r| >= 1
  {
    if s == [] then [""]
    else
      var rest := Split(s[1..], sep);
      if s[0] == sep then [""] + rest else [[s[0]] + rest[0]] + rest[1..]
  }

  /** `s.trim()` is empty exactly when every character of `s` is whitespace. */
  lemma TrimEmptyIff(s: string)
    ensures Trim(s) == "" <==> forall i :: 0 <= i < |s| ==> IsJsWhitespace(s[i])
  {
  }

  /** Every string includes the empty string. */
  lemma ContainsEmpty(s: string)
    ensures Contains(s, "")
  {
  }

  /** `s` does not contain `sep`. */
  predicate Free(s: string, sep: char)
  {
    sep !in s
  }

  lemma {:induction false} SplitFree(s: string, sep: char)
    requires Free(s, sep)
    ensures Split(s, sep) == [s]
    decreases |s|
  {
    if s != [] {
      SplitFree(s[1..], sep);
      assert [s[0]] + s[1..] == s;
    }
  }

  lemma {:induction false} SplitAt(a: string, b: string, sep: char)
    requires Free(a, sep)
    ensures Split(a + [sep] + b, sep) == [a] + Split(b, sep)
    decreases |a|
  {
    var s := a + [sep] + b;
    if a == [] {
      assert s[1..] == b;
    } else {
      assert s[1..] == a[1..] + [sep] + b;
      SplitAt(a[1..], b, sep);
      assert [a[0]] + a[1..] == a;
    }
  }

  /** Splitting a join on its separator gives the rows back, as long as no row
      contains the separator: a joined document has exactly one line per row. */
  lemma {:induction false} SplitJoin(rows: seq<string>, sep: char)
    requires |rows| >= 1
    requires forall k :: 0 <= k < |rows| ==> Free(rows[k], sep)
    ensures Split(Join(rows, sep), sep) == rows
  {
    if |rows| == 1 {
      SplitFree(rows[0], sep);
    } else {
      SplitJoin(rows[1..], sep);
      SplitAt(rows[0], Join(rows[1..], sep), sep);
      assert [rows[0]] + rows[1..] == rows;
    }
  }

  /** A join of rows without `c` has no `c`, when the separator is not `c`. */
  lemma {:induction false} JoinFree(rows: seq<string>, sep: char, c: char)
    requires sep != c
    requires forall k :: 0 <= k < |rows| ==> Free(rows[k], c)
    ensures Free(Join(rows, sep), c)
  {
    if |rows| > 1 {
      JoinFree(rows[1..], sep, c);
    }
  }

  /** How many times `c` occurs in `s`. */
  function Occurrences(s: string, c: char): nat
  {
    if s == [] then 0 else (if s[0] == c then 1 else 0) + Occurrences(s[1..], c)
  }

  lemma {:induction false} OccurrencesConcat(a: string, b: string, c: char)
    ensures Occurrences(a + b, c) == Occurrences(a, c) + Occurrences(b, c)
  {
    if a != [] {
      assert (a + b)[1..] == a[1..] + b;
      OccurrencesConcat(a[1..], b, c);
    } else {
      assert a + b == b;
    }
  }

  lemma {:induction false} OccurrencesIn(s: string, c: char)
    ensures c in s <==> Occurrences(s, c) > 0
  {
    if s != [] {
      assert s == [s[0]] + s[1..];
      OccurrencesIn(s[1..], c);
    }
  }

  /** `s.split(sep)` has one piece more than `s` has separators. */
  lemma {:induction false} SplitCount(s: string, sep: char)
    ensures |Split(s, sep)| == Occurrences(s, sep) + 1
  {
    if s != [] {
      SplitCount(s[1..], sep);
    }
  }

  /** A join holds the separators it puts between the rows and those inside
      any one of them. */
  lemma {:induction false} JoinCount(rows: seq<string>, sep: char, k: nat)
    requires k < |rows|
    ensures Occurrences(Join(rows, sep), sep) >= |rows| - 1 + Occurrences(rows[k], sep)
  {
    if |rows| > 1 {
      var rest := rows[1..];
      OccurrencesConcat(rows[0] + [sep], Join(rest, sep), sep);
      OccurrencesConcat(rows[0], [sep], sep);
      assert Occurrences([sep], sep) == 1;
      if k == 0 {
        JoinCount(rest, sep, 0);
      } else {
        JoinCount(rest, sep, k - 1);
        assert rest[k - 1] == rows[k];
      }
    }
  }

  /** A separator inside one of the rows gives the split of their join more
      pieces than there are rows. */
  lemma SplitJoinMore(rows: seq<string>, sep: char, k: nat)
    requires k < |rows| && sep in rows[k]
    ensures |Split(Join(rows, sep), sep)| > |rows|
  {
    OccurrencesIn(rows[k], sep);
    JoinCount(rows, sep, k);
    SplitCount(Join(rows, sep), sep);
  }

  /** A join starts with its first row. */
  lemma JoinStartsWith(rows: seq<string>, sep: char)
    requires |rows| >= 1
    ensures rows[0] <= Join(rows, sep)
  {
  }

  // ---------------------------------------------------------------------------
  // Order-preserving filtering
  // ---------------------------------------------------------------------------

  /** No element occurs twice. */
  predicate Distinct<T(==)>(s: seq<T>)
  {
    forall i, j :: 0 <= i < j < |s| ==> s[i] != s[j]
  }

  lemma DistinctSnoc<T>(s: seq<T>, x: T)
    requires Distinct(s) && x !in s
    ensures Distinct(s + [x])
  {
  }

  /** The position of the first occurrence of `x` in `s`. */
  function FirstIndex<T(==)>(s: seq<T>, x: T): (r: nat)
    requires x in s
    ensures r < |s| && s[r] == x
    ensures forall i :: 0 <= i < r ==> s[i] != x
  {
    if s[0] == x then 0
    else
      var r := 1 + FirstIndex(s[1..], x);
      assert forall i :: 1 <= i < r ==> s[i] == s[1..][i - 1];
      r
  }

  /** Every element of `keys` occurs in `s`, and `keys` lists them in the
      order of their first occurrence in `s`. */
  predicate FirstOccurrenceOrder<T(==)>(keys: seq<T>, s: seq<T>)
  {
    && (forall i :: 0 <= i < |keys| ==> keys[i] in s)
    && forall i, j :: 0 <= i < j < |keys| ==> FirstIndex(s, keys[i]) < FirstIndex(s, keys[j])
  }

  lemma FirstIndexSnoc<T>(s: seq<T>, y: T, x: T)
    requires x in s
    ensures FirstIndex(s + [y], x) == FirstIndex(s, x)
  {
    assert forall i :: 0 <= i < |s| ==> (s + [y])[i] == s[i];
  }

  lemma FirstIndexLast<T>(s: seq<T>, x: T)
    requires x !in s
    ensures FirstIndex(s + [x], x) == |s|
  {
  }

  /** A repeated element leaves the first-occurrence order as it was. */
  lemma OrderSnocOld<T>(keys: seq<T>, s: seq<T>, x: T)
    requires FirstOccurrenceOrder(keys, s) && x in s
    ensures FirstOccurrenceOrder(keys, s + [x])
  {
    forall i | 0 <= i < |keys|
      ensures FirstIndex(s + [x], keys[i]) == FirstIndex(s, keys[i])
    {
      FirstIndexSnoc(s, x, keys[i]);
    }
  }

  /** A new element goes after every element seen before. */
  lemma OrderSnocNew<T>(keys: seq<T>, s: seq<T>, x: T)
    requires FirstOccurrenceOrder(keys, s) && x !in s
    ensures FirstOccurrenceOrder(keys + [x], s + [x])
  {
    var keys' := keys + [x];
    forall i | 0 <= i < |keys|
      ensures FirstIndex(s + [x], keys[i]) == FirstIndex(s, keys[i])
    {
      FirstIndexSnoc(s, x, keys[i]);
    }
    FirstIndexLast(s, x);
    forall i, j | 0 <= i < j < |keys'|
      ensures FirstIndex(s + [x], keys'[i]) < FirstIndex(s + [x], keys'[j])
    {
      assert keys'[i] == keys[i];
      if j < |keys| {
        assert keys'[j] == keys[j];
      }
    }
  }

  lemma TakeSnoc<T>(s: seq<T>, i: nat)
    requires i < |s|
    ensures s[..i + 1] == s[..i] + [s[i]]
    ensures s[..i + 1][..i] == s[..i]
  {
  }

  /** `s.findIndex(p)`: the first position whose element satisfies `p`, or -1. */
  function FindIndex<T>(s: seq<T>, p: T -> bool): (r: int)
    ensures -1 <= r < |s|
    ensures r == -1 <==> forall i :: 0 <= i < |s| ==> !p(s[i])
    ensures 0 <= r ==> p(s[r]) && forall i :: 0 <= i < r ==> !p(s[i])
    decreases |s|
  {
    if s == [] then -1
    else if p(s[0]) then 0
    else
      var k := FindIndex(s[1..], p);
      if k == -1 then -1 else k + 1
  }

  /** `s.filter((_, j) => j !== i)`: position `i` dropped, the rest kept in order;
      an index outside `s` drops nothing. */
  function RemoveAt<T>(s: seq<T>, i: int): (r: seq<T>)
    ensures 0 <= i < |s| ==>
      && |r| == |s| - 1
      && (forall j :: 0 <= j < i ==> r[j] == s[j])
      && (forall j :: i <= j < |r| ==> r[j] == s[j + 1])
    ensures !(0 <= i < |s|) ==> r == s
  {
    if 0 <= i < |s| then s[..i] + s[i + 1..] else s
  }

  /** `a` can be obtained from `b` by deleting elements. */
  predicate IsSubsequence<T(==)>(a: seq<T>, b: seq<T>)
    decreases |b|
  {
    if a == [] then true
    else if b == [] then false
    else (a[|a| - 1] == b[|b| - 1] && IsSubsequence(a[..|a| - 1], b[..|b| - 1]))
         || IsSubsequence(a, b[..|b| - 1])
  }

  /** `s.filter(p)`: the elements of `s` that satisfy `p`, in their order. */
  function Filter<T>(s: seq<T>, p: T -> bool): (r: seq<T>)
    ensures |r| <= |s|
    ensures forall i :: 0 <= i < |r| ==> p(r[i])
  {
    if s == [] then []
    else if p(s[|s| - 1]) then Filter(s[..|s| - 1], p) + [s[|s| - 1]]
    else Filter(s[..|s| - 1], p)
  }

  lemma FilterSnoc<T>(s: seq<T>, x: T, p: T -> bool)
    ensures Filter(s + [x], p) == if p(x) then Filter(s, p) + [x] else Filter(s, p)
  {
    assert (s + [x])[..|s|] == s;
  }

  /** The filter keeps every copy of each element that passes and none of
      the others. */
  lemma {:induction false} FilterCounts<T>(s: seq<T>, p: T -> bool)
    ensures forall x :: multiset(Filter(s, p))[x] == if p(x) then multiset(s)[x] else 0
  {
    if s != [] {
      var n := |s| - 1;
      var init, last := s[..n], s[n];
      assert s == init + [last];
      FilterCounts(init, p);
      FilterSnoc(init, last, p);
    }
  }

  /** The filter keeps the order of `s`. */
  lemma {:induction false} FilterSubsequence<T>(s: seq<T>, p: T -> bool)
    ensures IsSubsequence(Filter(s, p), s)
  {
    if s != [] {
      var n := |s| - 1;
      var init, last := s[..n], s[n];
      assert s == init + [last];
      FilterSubsequence(init, p);
      FilterSnoc(init, last, p);
      var r := Filter(init, p);
      if p(last) {
        assert (r + [last])[..|r|] == r;
      } else if r != [] {
        assert s[..|s| - 1] == init;
      }
    }
  }

  /** Every element the filter keeps comes from `s`. */
  lemma FilterMembers<T>(s: seq<T>, p: T -> bool)
    ensures forall x :: x in Filter(s, p) ==> x in s
  {
    FilterCounts(s, p);
    forall x | x in Filter(s, p)
      ensures x in s
    {
      assert x in multiset(Filter(s, p));
    }
  }

  /** Every element of `s` that passes is kept. */
  lemma FilterMembersPassing<T>(s: seq<T>, p: T -> bool)
    ensures forall i :: 0 <= i < |s| && p(s[i]) ==> s[i] in Filter(s, p)
  {
    FilterCounts(s, p);
    forall i | 0 <= i < |s| && p(s[i])
      ensures s[i] in Filter(s, p)
    {
      assert s[i] in multiset(s);
    }
  }

  /** Filtering keeps a sequence whose every element passes. */
  lemma {:induction false} FilterAll<T>(s: seq<T>, p: T -> bool)
    requires forall i :: 0 <= i < |s| ==> p(s[i])
    ensures Filter(s, p) == s
  {
    if s != [] {
      var n := |s| - 1;
      FilterAll(s[..n], p);
      assert s[..n] + [s[n]] == s;
    }
  }

  /** Filtering twice by the same test is filtering once. */
  lemma FilterIdempotent<T>(s: seq<T>, p: T -> bool)
    ensures Filter(Filter(s, p), p) == Filter(s, p)
  {
    FilterAll(Filter(s, p), p);
  }
}
