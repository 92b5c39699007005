/** Token amounts between human-readable strings and base units (internal/stablecoin/abi.go). */
module Amount {
  import opened Wrappers
  import opened Numerals

  datatype AmountError = Required | NonNumeric | NonNumericFraction | NotPositive

  // ---- The string functions of the Go library that the parser uses ----

  /** unicode.IsSpace. */
  predicate IsSpace(c: char) {
    c == ' ' || '\U{0009}' <= c <= '\U{000D}' || c == '\U{0085}' || c == '\U{00A0}' || c == '\U{1680}'
    || '\U{2000}' <= c <= '\U{200A}' || c == '\U{2028}' || c == '\U{2029}' || c == '\U{202F}'
    || c == '\U{205F}' || c == '\U{3000}'
  }

  function TrimSpace(s: string): string {
    if s == "" then ""
    else if IsSpace(s[0]) then TrimSpace(s[1..])
    else if IsSpace(s[|s| - 1]) then TrimSpace(s[..|s| - 1])
    else s
  }

  /** Index of the first decimal point, or the length. */
  function Point(s: string): (k: nat)
    ensures k <= |s| && (k < |s| ==> s[k] == '.')
    ensures forall i :: 0 <= i < k ==> s[i] != '.'
  {
    if s == "" || s[0] == '.' then 0 else 1 + Point(s[1..])
  }

  function IntPart(s: string): string { s[..Point(s)] }

  function FracPart(s: string): string {
    if Point(s) < |s| then s[Point(s) + 1..] else ""
  }

  function ZeroText(k: nat): (z: string)
    ensures |z| == k && AllDigits(z)
  {
    seq(k, _ => '0')
  }

  function TrimLeftZeros(s: string): string {
    if s != "" && s[0] == '0' then TrimLeftZeros(s[1..]) else s
  }

  function TrimRightZeros(s: string): string {
    if s != "" && s[|s| - 1] == '0' then TrimRightZeros(s[..|s| - 1]) else s
  }

  // ---- What an amount string means ----

  /** Digits with at most one point. */
  predicate IsNumeral(t: string) {
    t != "" && (forall i :: 0 <= i < |t| ==> IsDigit(t[i]) || t[i] == '.')
    && (forall i, j :: 0 <= i < j < |t| ==> t[i] != '.' || t[j] != '.')
  }

  /** The number written is Written(t) / 10^|FracPart(t)|. */
  function Written(t: string): nat
    requires AllDigits(IntPart(t)) && AllDigits(FracPart(t))
  {
    Decimal(IntPart(t) + FracPart(t))
  }

  /** The number written, in units of 10^-decimals, rounded down. */
  function Units(t: string, decimals: nat): nat
    requires AllDigits(IntPart(t)) && AllDigits(FracPart(t))
  {
    Shrink(Scale(Written(t), decimals), |FracPart(t)|)
  }

  function Parsed(amount: string, decimals: nat): Result<nat, AmountError> {
    var t := TrimSpace(amount);
    if t == "" then Err(Required)
    else if !AllDigits(IntPart(t)) then Err(NonNumeric)
    else if !AllDigits(FracPart(t)) then Err(NonNumericFraction)
    else if Units(t, decimals) == 0 then Err(NotPositive)
    else Ok(Units(t, decimals))
  }

  lemma NumeralParts(t: string)
    ensures IsNumeral(t) <==> t != "" && AllDigits(IntPart(t)) && AllDigits(FracPart(t))
  {
    var k := Point(t);
    if k < |t| {
      assert forall i :: 0 <= i < |FracPart(t)| ==> FracPart(t)[i] == t[k + 1 + i];
      assert forall i :: k < i < |t| ==> t[i] == FracPart(t)[i - k - 1];
    }
    assert forall i :: 0 <= i < k ==> t[i] == IntPart(t)[i];
  }

  /** ParseAmount is exact: it accepts a string exactly when its trimmed form is digits with at most one
      point and the floor of the written number times 10^decimals is positive, and it returns that floor,
      never more than was written. */
  lemma ParseIsExactFloor(amount: string, decimals: nat)
    ensures var t := TrimSpace(amount);
      Parsed(amount, decimals).Ok? <==> IsNumeral(t) && Units(t, decimals) > 0
    ensures var t := TrimSpace(amount);
      Parsed(amount, decimals).Ok? ==>
        var (n, scale) := (Parsed(amount, decimals).value, Pow(10, |FracPart(t)|));
        n * scale <= Written(t) * Pow(10, decimals) < (n + 1) * scale
  {
    var t := TrimSpace(amount);
    NumeralParts(t);
    if IsNumeral(t) { UnitsAreFloor(t, decimals); }
  }

  /** Which error is answered: an empty string first, then a character that is no digit before the first point, then one
      after it, then an amount below one unit. */
  lemma ParseErrorsIff(amount: string, decimals: nat)
    ensures var t, r := TrimSpace(amount), Parsed(amount, decimals);
      && (r == Err(Required) <==> t == "")
      && (r == Err(NonNumeric) <==> t != "" && exists i :: 0 <= i < Point(t) && !('0' <= t[i] <= '9'))
      && (r == Err(NonNumericFraction) <==>
          (forall i :: 0 <= i < Point(t) ==> '0' <= t[i] <= '9') && exists i :: Point(t) < i < |t| && !('0' <= t[i] <= '9'))
      && (r == Err(NotPositive) <==> IsNumeral(t) && Units(t, decimals) == 0)
  {
    var t := TrimSpace(amount);
    NumeralParts(t);
    assert forall i :: 0 <= i < Point(t) ==> IntPart(t)[i] == t[i];
    if Point(t) < |t| {
      forall i | Point(t) < i < |t| ensures FracPart(t)[i - Point(t) - 1] == t[i] {}
      forall j | 0 <= j < |FracPart(t)| ensures FracPart(t)[j] == t[Point(t) + 1 + j] {}
    }
  }

  lemma UnitsAreFloor(t: string, decimals: nat)
    requires AllDigits(IntPart(t)) && AllDigits(FracPart(t))
    ensures var (n, scale) := (Units(t, decimals), Pow(10, |FracPart(t)|));
      n * scale <= Written(t) * Pow(10, decimals) < (n + 1) * scale
  {
    var x, k := Scale(Written(t), decimals), |FracPart(t)|;
    ScaleIsProduct(Written(t), decimals);
    ShrinkBounds(x, k);
    ScaleSum(Shrink(x, k), 1, k);
    ScaleIsProduct(Shrink(x, k), k);
    ScaleIsProduct(Shrink(x, k) + 1, k);
  }

  // ---- The parser ----

  lemma {:induction false} TrimLeftZerosValue(s: string)
    requires AllDigits(s)
    ensures AllDigits(TrimLeftZeros(s)) && Decimal(TrimLeftZeros(s)) == Decimal(s)
    decreases |s|
  {
    if s != "" && s[0] == '0' {
      assert s == "0" + s[1..];
      DecimalAppend("0", s[1..]);
      assert Nums("0") == [0];
      ScaleSum(0, 0, |s| - 1);
      TrimLeftZerosValue(s[1..]);
    }
  }

  lemma ZeroTextValue(k: nat)
    ensures Decimal(ZeroText(k)) == 0
  {
    assert Nums(ZeroText(k)) == Zeros(k);
    ValueZeros(10, k);
  }

  /** Cutting fraction digits off is rounding down. */
  lemma TruncationIsFloor(ip: string, fp: string, decimals: nat)
    requires AllDigits(ip) && AllDigits(fp) && |fp| > decimals
    ensures Decimal(ip + fp[..decimals]) == Shrink(Scale(Decimal(ip + fp), decimals), |fp|)
  {
    var kept, cut := ip + fp[..decimals], fp[decimals..];
    assert ip + fp == kept + cut;
    DecimalAppend(kept, cut);
    DecimalBound(cut);
    var w := Decimal(ip + fp);
    ShrinkTwice(Scale(w, decimals), decimals, |cut|);
    ScalePositive(decimals);
    ShrinkScaled(w, 0, decimals);
    ShrinkScaled(Decimal(kept), Decimal(cut), |cut|);
  }

  /** Padding the fraction with zeros is scaling up. */
  lemma PaddingIsScaling(ip: string, fp: string, decimals: nat)
    requires AllDigits(ip) && AllDigits(fp) && |fp| <= decimals
    ensures Decimal(ip + (fp + ZeroText(decimals - |fp|))) == Shrink(Scale(Decimal(ip + fp), decimals), |fp|)
  {
    var z := ZeroText(decimals - |fp|);
    assert ip + (fp + z) == (ip + fp) + z;
    DecimalAppend(ip + fp, z);
    ZeroTextValue(decimals - |fp|);
    var w := Decimal(ip + fp);
    ScaleTwice(w, |z|, |fp|);
    ScalePositive(|fp|);
    ShrinkScaled(Scale(w, |z|), 0, |fp|);
  }

  method ParseAmount(amount: string, decimals: nat) returns (r: Result<nat, AmountError>)
    ensures r == Parsed(amount, decimals)
  {
    var text := TrimSpace(amount);
    if text == "" {
      return Err(Required);
    }
    var intPart, fracPart := IntPart(text), FracPart(text);
    for i := 0 to |intPart|
      invariant forall j :: 0 <= j < i ==> IsDigit(intPart[j])
    {
      if intPart[i] < '0' || intPart[i] > '9' {
        return Err(NonNumeric);
      }
    }
    for i := 0 to |fracPart|
      invariant forall j :: 0 <= j < i ==> IsDigit(fracPart[j])
    {
      if fracPart[i] < '0' || fracPart[i] > '9' {
        return Err(NonNumericFraction);
      }
    }
    if |fracPart| > decimals {
      TruncationIsFloor(intPart, fracPart, decimals);
      fracPart := fracPart[..decimals];
    } else {
      PaddingIsScaling(intPart, fracPart, decimals);
      fracPart := fracPart + ZeroText(decimals - |fracPart|);
    }
    var combined := intPart + fracPart;
    TrimLeftZerosValue(combined);
    combined := TrimLeftZeros(combined);
    if combined == "" {
      combined := "0";
      assert Nums("0") == [0];
    }
    var result := Decimal(combined);
    if result == 0 {
      return Err(NotPositive);
    }
    return Ok(result);
  }

  // ---- The printer ----

  function PrintInt(n: int): string {
    if n < 0 then "-" + Print(-n) else Print(n)
  }

  /** Left zero-padding to a width. */
  function PadLeft(s: string, width: nat): string {
    if |s| < width then ZeroText(width - |s|) + s else s
  }

  /** The two halves of the division, as text. */
  function Joined(intPart: int, fracPart: nat, decimals: nat): string {
    if fracPart == 0 then PrintInt(intPart)
    else PrintInt(intPart) + "." + TrimRightZeros(PadLeft(Print(fracPart), decimals))
  }

  function FormatAmount(raw: int, decimals: nat): string {
    if raw == 0 then "0"
    else
      PowPositive(10, decimals);
      Joined(raw / Pow(10, decimals), raw % Pow(10, decimals), decimals)
  }

  /** Without redundant zeros: an integer part without leading zeros, and a fraction, if any, of at most
      `decimals` digits that does not end in zero. */
  predicate IsCanonical(s: string, decimals: nat) {
    var ip, fp := IntPart(s), FracPart(s);
    && AllDigits(ip) && AllDigits(fp) && ip != "" && (|ip| > 1 ==> ip[0] != '0')
    && |fp| <= decimals && (fp != "" ==> fp[|fp| - 1] != '0')
    && (fp == "" ==> Point(s) == |s|)
  }

  lemma {:induction false} PointAfterDigits(ip: string, rest: string)
    requires AllDigits(ip) && (rest == "" || rest[0] == '.')
    ensures Point(ip + rest) == |ip|
    decreases |ip|
  {
    if ip == "" {
      assert ip + rest == rest;
    } else {
      assert (ip + rest)[1..] == ip[1..] + rest;
      PointAfterDigits(ip[1..], rest);
    }
  }

  lemma {:induction false} TrimRightZerosSplit(s: string) returns (k: nat)
    ensures s == TrimRightZeros(s) + ZeroText(k)
    ensures TrimRightZeros(s) != "" ==> TrimRightZeros(s)[|TrimRightZeros(s)| - 1] != '0'
    decreases |s|
  {
    if s != "" && s[|s| - 1] == '0' {
      k := TrimRightZerosSplit(s[..|s| - 1]);
      k := k + 1;
    } else {
      k := 0;
    }
  }

  lemma {:induction false} TrimRightZerosOf(s: string, k: nat)
    requires s != "" ==> s[|s| - 1] != '0'
    ensures TrimRightZeros(s + ZeroText(k)) == s
    decreases k
  {
    if k == 0 {
      assert s + ZeroText(0) == s;
    } else {
      assert (s + ZeroText(k))[..|s| + k - 1] == s + ZeroText(k - 1);
      TrimRightZerosOf(s, k - 1);
    }
  }

  lemma PadLeftValue(s: string, width: nat)
    requires AllDigits(s) && |s| <= width
    ensures |PadLeft(s, width)| == width && AllDigits(PadLeft(s, width)) && Decimal(PadLeft(s, width)) == Decimal(s)
  {
    var k := width - |s|;
    if k > 0 {
      DecimalAppend(ZeroText(k), s);
      ZeroTextValue(k);
      ScaleSum(0, 0, |s|);
    }
  }

  lemma PrintFits(n: nat, width: nat)
    requires n < Scale(1, width) && n > 0
    ensures |Print(n)| <= width
  {
    ScaleIsProduct(1, width);
    DigitsLength(10, n, width);
  }

  lemma NotTrimmed(s: string)
    requires s != "" && !IsSpace(s[0]) && !IsSpace(s[|s| - 1])
    ensures TrimSpace(s) == s
  {
  }

  /** The units of a canonical string, part by part. */
  lemma CanonicalUnits(s: string, decimals: nat)
    requires IsCanonical(s, decimals)
    ensures var (ip, fp) := (IntPart(s), FracPart(s));
      && Units(s, decimals) == Scale(Decimal(ip), decimals) + Decimal(fp + ZeroText(decimals - |fp|))
      && Decimal(fp + ZeroText(decimals - |fp|)) < Scale(1, decimals)
  {
    var ip, fp := IntPart(s), FracPart(s);
    var padded := fp + ZeroText(decimals - |fp|);
    PaddingIsScaling(ip, fp, decimals);
    DecimalAppend(ip, padded);
    DecimalBound(padded);
  }

  lemma CanonicalNotTrimmed(s: string, decimals: nat)
    requires IsCanonical(s, decimals)
    ensures TrimSpace(s) == s && s != ""
  {
    var ip, fp := IntPart(s), FracPart(s);
    assert s[0] == ip[0];
    assert s[|s| - 1] == if fp == "" then ip[|ip| - 1] else fp[|fp| - 1];
    NotTrimmed(s);
  }

  lemma PartsOf(ip: string, fp: string)
    requires AllDigits(ip) && AllDigits(fp) && ip != ""
    ensures IntPart(ip) == ip && FracPart(ip) == "" && Point(ip) == |ip|
    ensures IntPart(ip + "." + fp) == ip && FracPart(ip + "." + fp) == fp
  {
    PointAfterDigits(ip, "");
    assert ip + "" == ip;
    PointAfterDigits(ip, "." + fp);
    assert ip + ("." + fp) == ip + "." + fp;
  }

  /** A canonical string from its parts. */
  lemma CanonicalOf(ip: string, fp: string, decimals: nat)
    requires AllDigits(ip) && ip != "" && (|ip| > 1 ==> ip[0] != '0')
    requires AllDigits(fp) && |fp| <= decimals && (fp != "" ==> fp[|fp| - 1] != '0')
    ensures var s := if fp == "" then ip else ip + "." + fp;
      && IsCanonical(s, decimals) && IntPart(s) == ip && FracPart(s) == fp
      && Units(s, decimals) == Scale(Decimal(ip), decimals) + Decimal(fp + ZeroText(decimals - |fp|))
  {
    PartsOf(ip, fp);
    CanonicalUnits(if fp == "" then ip else ip + "." + fp, decimals);
  }

  lemma JoinedInteger(q: nat, decimals: nat)
    ensures IsCanonical(Joined(q, 0, decimals), decimals)
    ensures Units(Joined(q, 0, decimals), decimals) == Scale(q, decimals)
  {
    PrintValue(q);
    CanonicalOf(Print(q), "", decimals);
    assert "" + ZeroText(decimals) == ZeroText(decimals);
    ZeroTextValue(decimals);
  }

  /** The trimmed fraction of a positive remainder. */
  lemma FractionOf(r: nat, decimals: nat)
    requires 0 < r < Scale(1, decimals)
    ensures var fp := TrimRightZeros(PadLeft(Print(r), decimals));
      && AllDigits(fp) && fp != "" && fp[|fp| - 1] != '0' && |fp| <= decimals
      && Decimal(fp + ZeroText(decimals - |fp|)) == r
  {
    PrintFits(r, decimals);
    PrintValue(r);
    PadLeftValue(Print(r), decimals);
    var padded := PadLeft(Print(r), decimals);
    var k := TrimRightZerosSplit(padded);
    var fp := TrimRightZeros(padded);
    assert AllDigits(fp) by { assert forall i :: 0 <= i < |fp| ==> fp[i] == padded[i]; }
    assert k == decimals - |fp|;
    NotAllZeros(fp, k);
  }

  lemma JoinedFraction(q: nat, r: nat, decimals: nat)
    requires 0 < r < Scale(1, decimals)
    ensures IsCanonical(Joined(q, r, decimals), decimals)
    ensures Units(Joined(q, r, decimals), decimals) == Scale(q, decimals) + r
  {
    PrintValue(q);
    FractionOf(r, decimals);
    CanonicalOf(Print(q), TrimRightZeros(PadLeft(Print(r), decimals)), decimals);
  }

  lemma NotAllZeros(fp: string, k: nat)
    requires AllDigits(fp) && AllDigits(fp + ZeroText(k)) && Decimal(fp + ZeroText(k)) > 0
    ensures fp != ""
  {
    if fp == "" {
      assert fp + ZeroText(k) == ZeroText(k);
      ZeroTextValue(k);
    }
  }

  /** FormatAmount in terms of the shifted decimal point. */
  lemma FormatOf(n: nat, decimals: nat) returns (q: nat, r: nat)
    requires n > 0
    ensures n == Scale(q, decimals) + r && r < Scale(1, decimals)
    ensures FormatAmount(n, decimals) == Joined(q, r, decimals)
  {
    q := Shrink(n, decimals);
    r := HalvesOf(n, decimals);
    FormatHalves(n, decimals, q, r);
  }

  lemma HalvesOf(n: nat, decimals: nat) returns (r: nat)
    ensures var q := Shrink(n, decimals);
      && n == Scale(q, decimals) + r && r < Scale(1, decimals)
      && Pow(10, decimals) > 0 && n / Pow(10, decimals) == q && n % Pow(10, decimals) == r
  {
    PowPositive(10, decimals);
    ShrinkIsQuotient(n, decimals);
    ShrinkBounds(n, decimals);
    r := n - Scale(Shrink(n, decimals), decimals);
  }

  lemma FormatHalves(n: nat, decimals: nat, q: nat, r: nat)
    requires n > 0 && Pow(10, decimals) > 0 && n / Pow(10, decimals) == q && n % Pow(10, decimals) == r
    ensures FormatAmount(n, decimals) == Joined(q, r, decimals)
  {
  }

  lemma JoinedParts(q: nat, r: nat, decimals: nat)
    requires r < Scale(1, decimals)
    ensures IsCanonical(Joined(q, r, decimals), decimals)
    ensures Units(Joined(q, r, decimals), decimals) == Scale(q, decimals) + r
  {
    if r == 0 { JoinedInteger(q, decimals); } else { JoinedFraction(q, r, decimals); }
  }

  /** The printed form of a positive amount is canonical and denotes the amount. */
  lemma FormatParts(n: nat, decimals: nat)
    requires n > 0
    ensures IsCanonical(FormatAmount(n, decimals), decimals)
    ensures Units(FormatAmount(n, decimals), decimals) == n
  {
    var q, r := FormatOf(n, decimals);
    JoinedParts(q, r, decimals);
  }

  /** Printing a positive amount and parsing it back is the identity, for all decimals. */
  lemma RoundTrip(n: nat, decimals: nat)
    requires n > 0
    ensures Parsed(FormatAmount(n, decimals), decimals) == Ok(n)
  {
    FormatParts(n, decimals);
    CanonicalNotTrimmed(FormatAmount(n, decimals), decimals);
  }

  /** Printing the padded fraction and trimming it gives the fraction back. */
  lemma FractionPrinted(fp: string, decimals: nat)
    requires AllDigits(fp) && fp != "" && fp[|fp| - 1] != '0' && |fp| <= decimals
    ensures var r := Decimal(fp + ZeroText(decimals - |fp|));
      r > 0 && TrimRightZeros(PadLeft(Print(r), decimals)) == fp
  {
    var padded := fp + ZeroText(decimals - |fp|);
    var r := Decimal(padded);
    LastDigitCounts(fp, decimals - |fp|);
    DecimalBound(padded);
    PrintFits(r, decimals);
    PrintValue(r);
    PadLeftValue(Print(r), decimals);
    ValueInjective(10, Nums(PadLeft(Print(r), decimals)), Nums(padded));
    TextNums(PadLeft(Print(r), decimals));
    TextNums(padded);
    TrimRightZerosOf(fp, decimals - |fp|);
  }

  lemma JoinedIsFormat(q: nat, r: nat, decimals: nat)
    requires r < Scale(1, decimals) && Scale(q, decimals) + r > 0
    ensures FormatAmount(Scale(q, decimals) + r, decimals) == Joined(q, r, decimals)
  {
    var n := Scale(q, decimals) + r;
    var q', r' := FormatOf(n, decimals);
    ShrinkScaled(q, r, decimals);
    ShrinkScaled(q', r', decimals);
  }

  lemma CanonicalWhole(s: string, decimals: nat)
    requires IsCanonical(s, decimals)
    ensures var (ip, fp) := (IntPart(s), FracPart(s));
      s == (if fp == "" then ip else ip + "." + fp) && Print(Decimal(ip)) == ip
  {
    PrintUnique(IntPart(s));
  }

  /** A canonical string joins its own integer part and padded fraction. */
  lemma CanonicalIsJoined(s: string, decimals: nat) returns (q: nat, r: nat)
    requires IsCanonical(s, decimals)
    ensures r < Scale(1, decimals) && Units(s, decimals) == Scale(q, decimals) + r
    ensures s == Joined(q, r, decimals)
  {
    var fp := FracPart(s);
    var padded := fp + ZeroText(decimals - |fp|);
    CanonicalUnits(s, decimals);
    CanonicalWhole(s, decimals);
    q, r := Decimal(IntPart(s)), Decimal(padded);
    if fp == "" {
      assert padded == ZeroText(decimals);
      ZeroTextValue(decimals);
    } else {
      FractionPrinted(fp, decimals);
    }
  }

  /** A canonical string is what its own units print as. */
  lemma CanonicalIsPrinted(s: string, decimals: nat)
    requires IsCanonical(s, decimals) && Units(s, decimals) > 0
    ensures FormatAmount(Units(s, decimals), decimals) == s
  {
    var q, r := CanonicalIsJoined(s, decimals);
    JoinedIsFormat(q, r, decimals);
  }

  lemma LastDigitCounts(fp: string, k: nat)
    requires AllDigits(fp) && fp != "" && fp[|fp| - 1] != '0'
    ensures Decimal(fp + ZeroText(k)) > 0
  {
    DecimalAppend(fp, ZeroText(k));
    DecimalSnoc(fp);
    ScalePositive(k);
    ScaleSum(1, Decimal(fp) - 1, k);
  }

  /** FormatAmount(n, decimals) is the one canonical string that parses to n; so printing is injective, and
      printing a parsed amount puts it in canonical form. */
  lemma FormatIsCanonicalForm(n: nat, decimals: nat, s: string)
    requires n > 0
    ensures s == FormatAmount(n, decimals) <==> IsCanonical(s, decimals) && Parsed(s, decimals) == Ok(n)
  {
    FormatParts(n, decimals);
    RoundTrip(n, decimals);
    if IsCanonical(s, decimals) && Parsed(s, decimals) == Ok(n) {
      CanonicalNotTrimmed(s, decimals);
      CanonicalIsPrinted(s, decimals);
    }
  }

  /** Different amounts print differently. */
  lemma FormatInjective(n: nat, m: nat, decimals: nat)
    requires n > 0 && m > 0 && FormatAmount(n, decimals) == FormatAmount(m, decimals)
    ensures n == m
  {
    RoundTrip(n, decimals);
    RoundTrip(m, decimals);
  }
}
