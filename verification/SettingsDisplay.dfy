/** The settings page prints stored values for display and parses what comes back: grouped currency amounts, and
    the tithe rate as a percentage. */
module SettingsDisplay {
  import opened FiniteSums
  import opened RemittanceModel

  // ---- Decimals ----------------------------------------------------------------------------------------

  /** `coefficient` times ten to the minus `scale`. */
  datatype Decimal = Decimal(coefficient: nat, scale: nat)

  function Pow10(k: nat): (r: nat)
    ensures r > 0
  {
    if k == 0 then 1 else 10 * Pow10(k - 1)
  }

  lemma {:induction false} MulMonotone(a: nat, b: nat, p: nat)
    ensures a < b ==> a * p + p <= b * p
  {
    if a + 1 < b {
      MulMonotone(a, b - 1, p);
      assert b * p == (b - 1) * p + p;
    } else if a + 1 == b {
      assert b * p == a * p + p;
    }
  }

  function Div(n: nat, p: nat): (q: nat)
    requires p > 0
    ensures q * p <= n < q * p + p
  {
    n / p
  }

  function Mod(n: nat, p: nat): (r: nat)
    requires p > 0
    ensures r < p && n == Div(n, p) * p + r
  {
    n - Div(n, p) * p
  }

  lemma DivModUnique(n: nat, p: nat, q: nat, r: nat)
    requires r < p && n == q * p + r
    ensures Div(n, p) == q && Mod(n, p) == r
  {
    hide Div, Mod;
    var a := Div(n, p);
    MulMonotone(a, q, p);
    MulMonotone(q, a, p);
  }

  /** The arithmetic context keeps 28 digits. */
  const PRECISION := 28

  /** Divides, rounding half to even. */
  function Rounded(n: nat, unit: nat): nat
    requires unit > 0
  {
    var q, r := Div(n, unit), Mod(n, unit);
    if 2 * r > unit || (2 * r == unit && q % 2 == 1) then q + 1 else q
  }

  predicate Fits(n: nat) { n < Pow10(PRECISION) }

  /** Rounds to `places` decimals; `None` when the result has more digits than the context keeps. */
  function Quantize(d: Decimal, places: nat): Option<Decimal> {
    var coefficient: nat :=
      if d.scale <= places then d.coefficient * Pow10(places - d.scale) else Rounded(d.coefficient, Pow10(d.scale - places));
    if Fits(coefficient) then Some(Decimal(coefficient, places)) else None
  }

  predicate Digit(c: char) { '0' <= c <= '9' }

  predicate AllDigits(s: string) { forall i :: 0 <= i < |s| ==> Digit(s[i]) }

  function ValueOf(s: string): nat
    requires AllDigits(s)
  {
    if s == "" then 0 else 10 * ValueOf(s[..|s| - 1]) + (s[|s| - 1] - '0') as nat
  }

  function Find(s: string, c: char): (i: nat)
    ensures i <= |s| && (i < |s| ==> s[i] == c) && forall j :: 0 <= j < i ==> s[j] != c
  {
    if s == "" then 0 else if s[0] == c then 0 else 1 + Find(s[1..], c)
  }

  /** Reads digits with at most one decimal point. */
  function ReadDecimal(s: string): Option<Decimal> {
    var i := Find(s, '.');
    if i == |s| then (if s != "" && AllDigits(s) then Some(Decimal(ValueOf(s), 0)) else None) else
    var digits, decimals := s[..i] + s[i + 1..], s[i + 1..];
    if digits != "" && AllDigits(digits) then Some(Decimal(ValueOf(digits), |decimals|)) else None
  }

  function DigitsOf(n: nat): (s: string)
    ensures s != "" && AllDigits(s)
  {
    if n < 10 then [('0' as int + n) as char] else DigitsOf(n / 10) + [('0' as int + n % 10) as char]
  }

  /** The last `k` digits. */
  function Padded(n: nat, k: nat): (s: string)
    ensures |s| == k && AllDigits(s)
  {
    if k == 0 then "" else Padded(n / 10, k - 1) + [('0' as int + n % 10) as char]
  }

  /** A number of hundredths (k = 2) or ten-thousandths (k = 4), printed with its decimals. */
  function Plain(n: nat, k: nat): string { DigitsOf(Div(n, Pow10(k))) + "." + Padded(n, k) }

  /** Commas between groups of three digits. */
  function Group(s: string): string { if |s| <= 3 then s else Group(s[..|s| - 3]) + "," + s[|s| - 3..] }

  function Grouped(n: nat): string { Group(DigitsOf(n / 100)) + "." + Padded(n, 2) }

  function Without(s: string, c: char): string {
    if s == "" then "" else Without(s[..|s| - 1], c) + (if s[|s| - 1] == c then "" else [s[|s| - 1]])
  }

  const PESO := '\U{20B1}'

  // ---- The printer and the parser ------------------------------------------------------------------------

  function ShowCurrency(raw: string): string {
    var d := ReadDecimal(raw);
    if d.None? then raw else
    var q := Quantize(d.value, 2);
    if q.None? then raw else Grouped(q.value.coefficient)
  }

  /** `None` stands for a refused value or an exception. */
  function ParseCurrency(display: string): Option<string> {
    var cleaned := Trim(Without(Without(Trim(display), ','), PESO));
    var d := ReadDecimal(cleaned);
    if d.None? then None else
    var q := Quantize(d.value, 2);
    if q.None? then None else Some(Plain(q.value.coefficient, 2))
  }

  function ShowTithe(raw: string): string {
    var d := ReadDecimal(raw);
    if d.None? then "10.00" else
    var q := Quantize(Decimal(d.value.coefficient * 100, d.value.scale), 2);
    if q.None? then "10.00" else Plain(q.value.coefficient, 2)
  }

  function ParseTithe(display: string): Option<string> {
    var pct := ReadDecimal(Trim(display));
    if pct.None? then None else
    if pct.value.coefficient > 100 * Pow10(pct.value.scale) then None else
    var q := Quantize(Decimal(pct.value.coefficient, pct.value.scale + 2), 4);
    if q.None? then None else Some(Plain(q.value.coefficient, 4))
  }

  // ---- Digits --------------------------------------------------------------------------------------------

  lemma {:induction false} DigitsValue(n: nat)
    ensures ValueOf(DigitsOf(n)) == n
  {
    if n >= 10 {
      DigitsValue(n / 10);
      assert DigitsOf(n)[..|DigitsOf(n)| - 1] == DigitsOf(n / 10);
    }
  }

  lemma TimesTen(v: nat, p: nat)
    ensures v * (10 * p) == 10 * (v * p)
  {
  }

  /** Appending one more digit. */
  lemma LastDigit(s: string, n: nat)
    requires AllDigits(s)
    ensures AllDigits(s + [('0' as int + n % 10) as char])
    ensures ValueOf(s + [('0' as int + n % 10) as char]) == 10 * ValueOf(s) + n % 10
  {
    var t := s + [('0' as int + n % 10) as char];
    assert t[..|t| - 1] == s;
  }

  /** Splitting off the last digit of the remainder. */
  lemma SplitRemainder(n: nat, p: nat)
    requires p > 0
    ensures Mod(n, 10 * p) == 10 * Mod(n / 10, p) + n % 10 && Div(n, 10 * p) == Div(n / 10, p)
  {
    var q, r := Div(n / 10, p), Mod(n / 10, p);
    hide Div, Mod;
    assert q * (10 * p) == 10 * (q * p);
    DivModUnique(n, 10 * p, q, 10 * r + n % 10);
  }

  lemma PaddedStep(s: string, n: nat, k: nat)
    requires AllDigits(s) && k > 0
    ensures ValueOf(s + Padded(n, k)) == 10 * ValueOf(s + Padded(n / 10, k - 1)) + n % 10
  {
    LastDigit(s + Padded(n / 10, k - 1), n);
    assert s + Padded(n, k) == s + Padded(n / 10, k - 1) + [('0' as int + n % 10) as char];
  }

  lemma {:induction false} PaddedAppends(s: string, n: nat, k: nat)
    requires AllDigits(s)
    ensures ValueOf(s + Padded(n, k)) == ValueOf(s) * Pow10(k) + Mod(n, Pow10(k))
  {
    hide Mod, Div, ValueOf;
    if k == 0 {
      assert s + Padded(n, k) == s;
      DivModUnique(n, 1, n, 0);
    } else {
      assert Pow10(k) == 10 * Pow10(k - 1);
      PaddedStep(s, n, k);
      hide *;
      PaddedAppends(s, n / 10, k - 1);
      SplitRemainder(n, Pow10(k - 1));
      TimesTen(ValueOf(s), Pow10(k - 1));
    }
  }

  lemma FindPoint(a: string, b: string)
    requires AllDigits(a)
    ensures Find(a + "." + b, '.') == |a|
  {
    var s := a + "." + b;
    assert s[|a|] == '.';
    assert forall i :: 0 <= i < |a| ==> s[i] == a[i] && a[i] != '.';
  }

  lemma ReadParts(a: string, b: string)
    requires AllDigits(a) && AllDigits(b) && a != ""
    ensures AllDigits(a + b) && ReadDecimal(a + "." + b) == Some(Decimal(ValueOf(a + b), |b|))
  {
    var s := a + "." + b;
    FindPoint(a, b);
    assert s[..|a|] == a && s[|a| + 1..] == b;
    hide ValueOf;
  }

  /** Reading what was printed gives the number back. */
  lemma ReadPlain(n: nat, k: nat)
    ensures ReadDecimal(Plain(n, k)) == Some(Decimal(n, k))
  {
    hide Pow10, DigitsOf, Padded, ReadDecimal;
    var q := Div(n, Pow10(k));
    hide Div, Mod;
    ReadParts(DigitsOf(q), Padded(n, k));
    PaddedAppends(DigitsOf(q), n, k);
    DigitsValue(q);
    assert n == q * Pow10(k) + Mod(n, Pow10(k));
  }

  // ---- Grouping ------------------------------------------------------------------------------------------

  lemma {:induction false} WithoutConcat(a: string, b: string, c: char)
    ensures Without(a + b, c) == Without(a, c) + Without(b, c)
  {
    if b == "" {
      assert a + b == a;
    } else {
      assert (a + b)[..|a + b| - 1] == a + b[..|b| - 1];
      WithoutConcat(a, b[..|b| - 1], c);
    }
  }

  lemma {:induction false} WithoutNone(s: string, c: char)
    requires c !in s
    ensures Without(s, c) == s
  {
    if s != "" { WithoutNone(s[..|s| - 1], c); }
  }

  lemma OneComma()
    ensures Without(",", ',') == ""
  {
    assert ","[..0] == "" && Without("", ',') == "";
  }

  lemma {:induction false} Ungroup(s: string)
    requires AllDigits(s)
    ensures Without(Group(s), ',') == s
  {
    if |s| <= 3 {
      WithoutNone(s, ',');
    } else {
      var init, last := s[..|s| - 3], s[|s| - 3..];
      assert ',' !in last;
      assert s == init + last && Group(s) == Group(init) + "," + last && AllDigits(init);
      hide Without, Group;
      Ungroup(init);
      WithoutConcat(Group(init) + ",", last, ',');
      WithoutConcat(Group(init), ",", ',');
      WithoutNone(last, ',');
      OneComma();
      assert init + "" == init;
    }
  }

  /** Counted from the right, every fourth character is a comma and no other is. */
  lemma {:induction false} GroupsOfThree(s: string, i: nat)
    requires AllDigits(s) && i < |Group(s)|
    ensures Group(s)[|Group(s)| - 1 - i] == ',' <==> i % 4 == 3
  {
    if |s| > 3 {
      var init, last := s[..|s| - 3], s[|s| - 3..];
      assert Group(s) == Group(init) + "," + last;
      hide Group;
      GroupChar(Group(init), last, i);
      if i >= 4 { GroupsOfThree(init, i - 4); }
    }
  }

  /** The characters of a grouped number, from the right. */
  lemma GroupChar(g: string, last: string, i: nat)
    requires |last| == 3 && AllDigits(last) && i < |g| + 4
    ensures var s := g + "," + last;
      && (i < 3 ==> s[|s| - 1 - i] == last[2 - i] != ',') && (i == 3 ==> s[|s| - 1 - i] == ',')
      && (i > 3 ==> s[|s| - 1 - i] == g[|g| - 1 - (i - 4)])
  {
  }

  lemma {:induction false} GroupHead(s: string)
    requires AllDigits(s)
    ensures s != "" ==> Group(s) != "" && Digit(Group(s)[0])
  {
    if |s| > 3 { GroupHead(s[..|s| - 3]); }
  }

  lemma UngroupAmount(n: nat)
    ensures Without(Grouped(n), ',') == Plain(n, 2)
  {
    var whole, rest := DigitsOf(n / 100), Padded(n, 2);
    SmallPowers();
    assert Plain(n, 2) == whole + "." + rest by { DivModUnique(n, 100, n / 100, n % 100); }
    hide Pow10, Plain, DigitsOf, Padded;
    Ungroup(whole);
    WithoutConcat(Group(whole) + ".", rest, ',');
    WithoutConcat(Group(whole), ".", ',');
    WithoutNone(rest, ',');
    WithoutNone(".", ',');
  }

  lemma TrimNothing(s: string)
    requires s != "" && !Space(s[0]) && !Space(s[|s| - 1])
    ensures Trim(s) == s
  {
  }

  lemma PlainEnds(n: nat, k: nat)
    requires k > 0
    ensures var s := Plain(n, k); s != "" && Digit(s[0]) && Digit(s[|s| - 1]) && ',' !in s && PESO !in s
  {
    hide DigitsOf, Padded, Pow10;
    PointEnds(DigitsOf(Div(n, Pow10(k))), Padded(n, k));
  }

  lemma PointEnds(a: string, b: string)
    requires a != "" && b != "" && AllDigits(a) && AllDigits(b)
    ensures var s := a + "." + b; Digit(s[0]) && Digit(s[|s| - 1]) && ',' !in s && PESO !in s
  {
    var s := a + "." + b;
    assert s[0] == a[0] && s[|s| - 1] == b[|b| - 1];
    assert ',' !in a && ',' !in b && PESO !in a && PESO !in b;
  }

  lemma GroupedEnds(n: nat)
    ensures var s := Grouped(n); s != "" && Digit(s[0]) && Digit(s[|s| - 1])
  {
    GroupHead(DigitsOf(n / 100));
    var rest := Padded(n, 2);
    assert Grouped(n)[|Grouped(n)| - 2..] == rest;
  }

  lemma ParsePlainCurrency(n: nat)
    ensures ParseCurrency(Plain(n, 2)) == if Fits(n) then Some(Plain(n, 2)) else None
  {
    hide Pow10, Fits, Plain, ReadDecimal;
    PlainEnds(n, 2);
    TrimNothing(Plain(n, 2));
    WithoutNone(Plain(n, 2), ',');
    WithoutNone(Plain(n, 2), PESO);
    ReadPlain(n, 2);
    QuantizeSame(n, 2);
  }

  lemma QuantizeSame(n: nat, k: nat)
    ensures Quantize(Decimal(n, k), k) == if Fits(n) then Some(Decimal(n, k)) else None
  {
    assert Pow10(0) == 1;
  }

  lemma ParseGrouped(n: nat)
    ensures ParseCurrency(Grouped(n)) == if Fits(n) then Some(Plain(n, 2)) else None
  {
    hide Pow10, Fits, Plain, ReadDecimal, Grouped;
    GroupedEnds(n);
    TrimNothing(Grouped(n));
    UngroupAmount(n);
    PlainEnds(n, 2);
    WithoutNone(Plain(n, 2), PESO);
    TrimNothing(Plain(n, 2));
    ReadPlain(n, 2);
    QuantizeSame(n, 2);
  }

  /** Printing a stored amount and parsing the display gives the amount back exactly when it has at most 28 digits
      in centavos; a longer one is shown as stored, and parsing it fails. */
  lemma CurrencyRoundTrip(n: nat)
    ensures ParseCurrency(ShowCurrency(Plain(n, 2))) == Some(Plain(n, 2)) <==> Fits(n)
    ensures Fits(n) ==> ShowCurrency(Plain(n, 2)) == Grouped(n)
  {
    hide Pow10, Fits, Plain, ReadDecimal, Grouped, ParseCurrency;
    ReadPlain(n, 2);
    QuantizeSame(n, 2);
    ParseGrouped(n);
    ParsePlainCurrency(n);
  }

  /** Distinct amounts print differently, so the parsed text names the amount. */
  lemma PlainIsInjective(m: nat, n: nat, k: nat)
    requires Plain(m, k) == Plain(n, k)
    ensures m == n
  {
    ReadPlain(m, k);
    ReadPlain(n, k);
  }

  // ---- The tithe rate --------------------------------------------------------------------------------------

  lemma Pow10Adds(a: nat, b: nat)
    ensures Pow10(a + b) == Pow10(a) * Pow10(b)
  {
    if a != 0 {
      Pow10Adds(a - 1, b);
      assert Pow10(a) * Pow10(b) == 10 * (Pow10(a - 1) * Pow10(b));
    }
  }

  lemma SmallPowers()
    ensures Pow10(0) == 1 && Pow10(1) == 10 && Pow10(2) == 100 && Pow10(3) == 1000 && Pow10(4) == 10000
    ensures forall n: nat :: n <= 1000000 ==> Fits(n)
  {
    Pow10Adds(4, 24);
    Pow10Adds(4, 20);
  }

  /** The fraction in ten-thousandths, for a stored text with at most four decimals. */
  function TenThousandths(d: Decimal): nat
    requires d.scale <= 4
  {
    d.coefficient * Pow10(4 - d.scale)
  }

  lemma ShowsPercent(raw: string, d: Decimal)
    requires ReadDecimal(raw) == Some(d) && d.scale <= 4 && TenThousandths(d) <= 10000
    ensures ShowTithe(raw) == Plain(TenThousandths(d), 2)
  {
    SmallPowers();
    hide Plain, ReadDecimal, Pow10, Fits;
    var c := d.coefficient;
    if d.scale == 3 {
      DivModUnique(c * 100, 10, c * 10, 0);
    } else if d.scale == 4 {
      DivModUnique(c * 100, 100, c, 0);
    }
    hide Div, Mod;
  }

  lemma ParsesPercent(f: nat)
    requires f <= 10000
    ensures ParseTithe(Plain(f, 2)) == Some(Plain(f, 4))
  {
    SmallPowers();
    hide Plain, ReadDecimal, Pow10, Fits;
    PlainEnds(f, 2);
    TrimNothing(Plain(f, 2));
    ReadPlain(f, 2);
  }

  /** For every stored fraction between 0 and 1 with at most four decimals, the percentage display parses back to an
      equal fraction, printed with four decimals. */
  lemma TitheRoundTrip(raw: string, d: Decimal)
    requires ReadDecimal(raw) == Some(d) && d.scale <= 4 && TenThousandths(d) <= 10000
    ensures ParseTithe(ShowTithe(raw)) == Some(Plain(TenThousandths(d), 4))
    ensures ReadDecimal(Plain(TenThousandths(d), 4)) == Some(Decimal(TenThousandths(d), 4))
  {
    ShowsPercent(raw, d);
    ParsesPercent(TenThousandths(d));
    ReadPlain(TenThousandths(d), 4);
  }
}
