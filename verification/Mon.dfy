/** Amounts of the native token as people write them, and as wei. */
module Mon {
  import opened Basics
  import opened Charging
  import opened Decimals
  import opened Texts

  const FRACTION_DIGITS: nat := 18
  const WEI_PER_MON: nat := 1_000_000_000_000_000_000

  function Zeros(n: nat): (s: string)
    ensures |s| == n && AllDigits(s)
  {
    if n == 0 then "" else Zeros(n - 1) + "0"
  }

  function TrimRight(s: string): (r: string) {
    if s != "" && s[|s| - 1] == '0' then TrimRight(s[..|s| - 1]) else s
  }

  /** Without redundant leading zeros; a lone zero stays. */
  function TrimLeft(s: string): (r: string) {
    if |s| > 1 && s[0] == '0' then TrimLeft(s[1..]) else s
  }

  /** The wei an amount stands for, as text; None when it is not a plain decimal amount. */
  function ParseMON(value: string): (wei: Option<string>) {
    if !PlainText(value) then None else
    var parts := Split(value, '.');
    if |parts| > 2 || parts[0] == "" || !AllDigits(parts[0]) then None else
    if |parts| == 2 && (parts[1] == "" || |parts[1]| > FRACTION_DIGITS || !AllDigits(parts[1])) then None else
    var n := Wei(parts[0], if |parts| == 2 then parts[1] else "");
    if n >= TWO_256 then None else Some(Print(n))
  }

  /** The wei of an amount given by its two parts. */
  function Wei(whole: string, fraction: string): (n: nat)
    requires |fraction| <= FRACTION_DIGITS
  {
    Decimal(whole) * WEI_PER_MON + (if fraction != "" then Decimal(fraction + Zeros(FRACTION_DIGITS - |fraction|))
      else 0)
  }

  /** Nothing but digits and dots, starting and ending with none of the refused signs. */
  predicate PlainText(value: string) {
    && value != "" && !Space(value[0]) && !Space(value[|value| - 1]) && value[0] != '-'
    && 'e' !in value && 'E' !in value && '+' !in value
  }

  /** The eighteen digits of a fraction. */
  function Padded(f: nat): (s: string)
    requires |Print(f)| <= FRACTION_DIGITS
  {
    Zeros(FRACTION_DIGITS - |Print(f)|) + Print(f)
  }

  function FormatWei(value: string): (mon: string) {
    var n := SetString(value);
    if n.NotANumber? || n.value < 0 then "0" else
    var whole, fraction: nat := n.value / WEI_PER_MON, n.value % WEI_PER_MON;
    if fraction == 0 then Print(whole) else
    FractionFits(fraction);
    Print(whole) + "." + TrimRight(Padded(fraction))
  }

  // ------------------------------------------------------------------------- digits

  function Pow10(n: nat): (p: nat)
    ensures p > 0
  {
    if n == 0 then 1 else 10 * Pow10(n - 1)
  }

  lemma {:induction false} Joined(a: string, b: string)
    requires AllDigits(a) && AllDigits(b)
    ensures AllDigits(a + b) && Decimal(a + b) == Decimal(a) * Pow10(|b|) + Decimal(b)
    decreases |b|
  {
    if b == "" {
      assert a + b == a;
    } else {
      var n := |b| - 1;
      var front, last := b[..n], b[n];
      assert Digit(last) && b == front + [last] && (a + b)[..|a + b| - 1] == a + front && (a + b)[|a + b| - 1] == last;
      Joined(a, front);
      Shifted(Decimal(a), Pow10(n), Decimal(front), (last - '0') as nat);
    }
  }

  lemma Shifted(a: nat, p: nat, b: nat, d: nat)
    ensures 10 * (a * p + b) + d == a * (10 * p) + (10 * b + d)
  {
  }

  lemma {:induction false} ZerosAreZero(n: nat)
    ensures Decimal(Zeros(n)) == 0
  {
    if n > 0 {
      ZerosAreZero(n - 1);
      assert Zeros(n)[..|Zeros(n)| - 1] == Zeros(n - 1);
    }
  }

  lemma {:induction false} BelowPower(s: string)
    requires AllDigits(s)
    ensures Decimal(s) < Pow10(|s|)
    decreases |s|
  {
    if s != "" { assert Digit(s[|s| - 1]); BelowPower(s[..|s| - 1]); }
  }

  /** Digits of one length with one value are one string. */
  lemma {:induction false} SameDigits(a: string, b: string)
    requires AllDigits(a) && AllDigits(b) && |a| == |b| && Decimal(a) == Decimal(b)
    ensures a == b
    decreases |a|
  {
    if a != "" {
      var n := |a| - 1;
      assert Digit(a[n]) && Digit(b[n]);
      var x, y := (a[n] - '0') as nat, (b[n] - '0') as nat;
      assert 10 * Decimal(a[..n]) + x == 10 * Decimal(b[..n]) + y;
      assert x == y && Decimal(a[..n]) == Decimal(b[..n]);
      SameDigits(a[..n], b[..n]);
      assert a[n] == '0' + x as char == b[n];
      assert a == a[..n] + [a[n]] && b == b[..n] + [b[n]];
    }
  }

  lemma {:induction false} PrintLength(n: nat, k: nat)
    requires n < Pow10(k) && k > 0
    ensures |Print(n)| <= k
    decreases k
  {
    if n >= 10 { PrintLength(n / 10, k - 1); }
  }

  lemma EighteenDigits()
    ensures Pow10(FRACTION_DIGITS) == WEI_PER_MON
  {
    assert Pow10(3) == 1_000;
    assert Pow10(6) == 1_000_000;
    assert Pow10(9) == 1_000_000_000;
    assert Pow10(12) == 1_000_000_000_000;
    assert Pow10(15) == 1_000_000_000_000_000;
  }

  lemma FractionFits(f: nat)
    requires f < WEI_PER_MON
    ensures |Print(f)| <= FRACTION_DIGITS
  {
    EighteenDigits();
    PrintLength(f, FRACTION_DIGITS);
  }

  lemma PaddedReadsBack(f: nat)
    requires f < WEI_PER_MON
    ensures |Print(f)| <= FRACTION_DIGITS
    ensures |Padded(f)| == FRACTION_DIGITS && AllDigits(Padded(f)) && Decimal(Padded(f)) == f
  {
    FractionFits(f);
    PrintedReadsBack(f);
    ZerosAreZero(FRACTION_DIGITS - |Print(f)|);
    Joined(Zeros(FRACTION_DIGITS - |Print(f)|), Print(f));
  }

  lemma {:induction false} TrimmedRight(s: string)
    requires AllDigits(s)
    ensures AllDigits(TrimRight(s)) && |TrimRight(s)| <= |s|
    ensures s == TrimRight(s) + Zeros(|s| - |TrimRight(s)|)
    ensures TrimRight(s) == "" <==> Decimal(s) == 0
    decreases |s|
  {
    if s != "" {
      var n := |s| - 1;
      assert Digit(s[n]) && s == s[..n] + [s[n]];
      if s[n] == '0' { TrimmedRight(s[..n]); }
    }
  }

  lemma {:induction false} TrimZeros(s: string, n: nat)
    ensures TrimRight(s + Zeros(n)) == TrimRight(s)
  {
    if n > 0 {
      var t := s + Zeros(n);
      assert t == s + Zeros(n - 1) + "0" && t[..|t| - 1] == s + Zeros(n - 1);
      TrimZeros(s, n - 1);
    } else {
      assert s + Zeros(0) == s;
    }
  }

  lemma {:induction false} TrimmedLeft(s: string)
    requires AllDigits(s) && s != ""
    ensures Canonical(TrimLeft(s)) && Decimal(TrimLeft(s)) == Decimal(s)
    decreases |s|
  {
    if |s| > 1 && s[0] == '0' {
      TrimmedLeft(s[1..]);
      assert s == "0" + s[1..] && Decimal("0") == 0 by { assert "0"[..0] == ""; }
      Joined("0", s[1..]);
    }
  }

  // ------------------------------------------------------------------------ splitting

  lemma NoDot(s: string)
    requires AllDigits(s)
    ensures '.' !in s
  {
  }

  lemma SplitPlain(whole: string)
    requires '.' !in whole
    ensures Split(whole, '.') == [whole]
  {
  }

  lemma SplitPair(whole: string, fraction: string)
    requires '.' !in whole && '.' !in fraction
    ensures Split(whole + "." + fraction, '.') == [whole, fraction]
  {
    var s := whole + "." + fraction;
    assert s[|whole|] == '.';
    var i := IndexOf(s, '.');
    assert forall k :: 0 <= k < |whole| ==> s[k] == whole[k];
    assert forall k :: 0 <= k < i ==> s[k] in s[..i];
    assert s[..i] == whole && s[i + 1..] == fraction;
    SplitPlain(fraction);
  }

  // ----------------------------------------------------------------------- round trips

  /** Without redundant leading whole-part zeros and trailing fraction zeros. */
  function CanonOf(whole: string, fraction: string): (s: string) {
    TrimLeft(whole) + (if TrimRight(fraction) == "" then "" else "." + TrimRight(fraction))
  }

  function Canon(value: string): (s: string) {
    var parts := Split(value, '.');
    CanonOf(parts[0], if |parts| == 2 then parts[1] else "")
  }

  lemma DigitsArePlain(value: string)
    requires value != "" && Digit(value[0]) && forall i :: 0 <= i < |value| ==> Digit(value[i]) || value[i] == '.'
    ensures PlainText(value)
  {
  }

  lemma DigitsSplit(value: string, whole: string, fraction: string)
    requires AllDigits(whole) && whole != "" && AllDigits(fraction)
    requires value == if fraction == "" then whole else whole + "." + fraction
    ensures PlainText(value) && Split(value, '.') == if fraction == "" then [whole] else [whole, fraction]
  {
    NoDot(whole);
    NoDot(fraction);
    if fraction == "" { SplitPlain(whole); } else { SplitPair(whole, fraction); }
    assert Digit(value[0]) by { assert value[0] == whole[0]; }
    DigitsArePlain(value);
  }

  lemma DigitsParse(value: string, whole: string, fraction: string)
    requires AllDigits(whole) && whole != "" && AllDigits(fraction) && |fraction| <= FRACTION_DIGITS
    requires value == if fraction == "" then whole else whole + "." + fraction
    ensures ParseMON(value) == if Wei(whole, fraction) < TWO_256 then Some(Print(Wei(whole, fraction))) else None
  {
    DigitsSplit(value, whole, fraction);
  }

  lemma FractionWei(fraction: string)
    requires AllDigits(fraction) && |fraction| <= FRACTION_DIGITS
    ensures var padded := fraction + Zeros(FRACTION_DIGITS - |fraction|);
            && AllDigits(padded) && Decimal(padded) < WEI_PER_MON && (fraction == "" ==> Decimal(padded) == 0)
  {
    var padded := fraction + Zeros(FRACTION_DIGITS - |fraction|);
    Joined(fraction, Zeros(FRACTION_DIGITS - |fraction|));
    EighteenDigits();
    BelowPower(padded);
    if fraction == "" {
      ZerosAreZero(FRACTION_DIGITS);
      assert padded == Zeros(FRACTION_DIGITS);
    }
  }

  /** Printing an amount of wei and reading it back yields the same amount. */
  lemma ParseOfFormat(w: nat)
    requires w < TWO_256
    ensures ParseMON(FormatWei(Print(w))) == Some(Print(w))
  {
    var n, f := w / WEI_PER_MON, w % WEI_PER_MON;
    var value := ParseOfParts(n, f);
    assert value == FormatWei(Print(n * WEI_PER_MON + f)) by { FormatOfWei(n, f); }
    assert n * WEI_PER_MON + f == w;
  }

  lemma ParseOfParts(n: nat, f: nat) returns (value: string)
    requires f < WEI_PER_MON && n * WEI_PER_MON + f < TWO_256
    ensures |Print(f)| <= FRACTION_DIGITS
    ensures value == if f == 0 then Print(n) else Print(n) + "." + TrimRight(Padded(f))
    ensures ParseMON(value) == Some(Print(n * WEI_PER_MON + f))
  {
    var whole := Print(n);
    var fraction := PrintedFraction(f);
    value := if fraction == "" then whole else whole + "." + fraction;
    PrintedWei(n, f, fraction);
    var w := Wei(whole, fraction);
    assert w == n * WEI_PER_MON + f < TWO_256;
    assert ParseMON(value) == Some(Print(w)) by { DigitsParse(value, whole, fraction); }
  }

  lemma PrintedWei(n: nat, f: nat, fraction: string)
    requires |fraction| <= FRACTION_DIGITS && (fraction == "" <==> f == 0)
    requires fraction != "" ==> Decimal(fraction + Zeros(FRACTION_DIGITS - |fraction|)) == f
    ensures AllDigits(Print(n)) && Print(n) != "" && Wei(Print(n), fraction) == n * WEI_PER_MON + f
  {
    PrintedReadsBack(n);
  }

  /** The fraction as printed, and what it reads back as. */
  lemma PrintedFraction(f: nat) returns (fraction: string)
    requires f < WEI_PER_MON
    ensures |Print(f)| <= FRACTION_DIGITS
    ensures fraction == if f == 0 then "" else TrimRight(Padded(f))
    ensures AllDigits(fraction) && |fraction| <= FRACTION_DIGITS && (fraction == "" <==> f == 0)
    ensures fraction != "" ==> Decimal(fraction + Zeros(FRACTION_DIGITS - |fraction|)) == f
  {
    PaddedReadsBack(f);
    TrimmedRight(Padded(f));
    fraction := if f == 0 then "" else TrimRight(Padded(f));
  }

  lemma SplitWei(whole: nat, f: nat)
    requires f < WEI_PER_MON
    ensures (whole * WEI_PER_MON + f) / WEI_PER_MON == whole && (whole * WEI_PER_MON + f) % WEI_PER_MON == f
  {
  }

  lemma FormatOfWei(n: nat, f: nat)
    requires f < WEI_PER_MON
    ensures |Print(f)| <= FRACTION_DIGITS
    ensures FormatWei(Print(n * WEI_PER_MON + f)) == if f == 0 then Print(n) else Print(n) + "." + TrimRight(Padded(f))
  {
    FractionFits(f);
    SplitWei(n, f);
    PrintedNumber(n * WEI_PER_MON + f);
  }

  lemma WholeText(whole: string)
    requires AllDigits(whole) && whole != ""
    ensures Print(Decimal(whole)) == TrimLeft(whole)
  {
    TrimmedLeft(whole);
    ReadPrintsBack(TrimLeft(whole));
  }

  lemma FractionText(fraction: string, f: nat)
    requires AllDigits(fraction) && |fraction| <= FRACTION_DIGITS
    requires f == Decimal(fraction + Zeros(FRACTION_DIGITS - |fraction|)) && f < WEI_PER_MON
             && |Print(f)| <= FRACTION_DIGITS
    ensures f == 0 <==> TrimRight(fraction) == ""
    ensures f != 0 ==> TrimRight(Padded(f)) == TrimRight(fraction)
  {
    var padded := fraction + Zeros(FRACTION_DIGITS - |fraction|);
    FractionWei(fraction);
    assert TrimRight(padded) == TrimRight(fraction) by { TrimZeros(fraction, FRACTION_DIGITS - |fraction|); }
    assert f == 0 <==> TrimRight(padded) == "" by { TrimmedRight(padded); }
    assert Padded(f) == padded by { PaddedIs(f, padded); }
  }

  lemma PaddedIs(f: nat, padded: string)
    requires f < WEI_PER_MON && |Print(f)| <= FRACTION_DIGITS
    requires AllDigits(padded) && |padded| == FRACTION_DIGITS && Decimal(padded) == f
    ensures Padded(f) == padded
  {
    PaddedReadsBack(f);
    SameDigits(Padded(f), padded);
  }

  lemma WeiParts(whole: string, fraction: string) returns (n: nat, f: nat)
    requires AllDigits(fraction) && |fraction| <= FRACTION_DIGITS
    ensures n == Decimal(whole) && f == Decimal(fraction + Zeros(FRACTION_DIGITS - |fraction|)) && f < WEI_PER_MON
    ensures Wei(whole, fraction) == n * WEI_PER_MON + f
  {
    FractionWei(fraction);
    n, f := Decimal(whole), Decimal(fraction + Zeros(FRACTION_DIGITS - |fraction|));
  }

  lemma FormatOfParts(whole: string, fraction: string)
    requires AllDigits(whole) && whole != "" && AllDigits(fraction) && |fraction| <= FRACTION_DIGITS
    ensures FormatWei(Print(Wei(whole, fraction))) == CanonOf(whole, fraction)
  {
    var n, f := WeiParts(whole, fraction);
    FormatOfWei(n, f);
    WholeText(whole);
    FractionText(fraction, f);
    Pieces(Print(n), if f == 0 then "" else TrimRight(Padded(f)), whole, fraction);
  }

  lemma Pieces(a: string, b: string, whole: string, fraction: string)
    requires a == TrimLeft(whole) && b == TrimRight(fraction)
    ensures CanonOf(whole, fraction) == if b == "" then a else a + "." + b
  {
    if b != "" { assert a + "." + b == a + ("." + b); } else { assert a + "" == a; }
  }

  /** The parts of an accepted amount. */
  lemma AcceptedParts(value: string) returns (whole: string, fraction: string)
    requires ParseMON(value).Some?
    ensures AllDigits(whole) && whole != "" && AllDigits(fraction) && |fraction| <= FRACTION_DIGITS
    ensures ParseMON(value) == Some(Print(Wei(whole, fraction))) && Wei(whole, fraction) < TWO_256
    ensures Canon(value) == CanonOf(whole, fraction)
  {
    var parts := Split(value, '.');
    whole, fraction := parts[0], if |parts| == 2 then parts[1] else "";
  }

  /** Reading an amount and printing it yields its canonical form. */
  lemma FormatOfParse(value: string)
    requires ParseMON(value).Some?
    ensures FormatWei(ParseMON(value).value) == Canon(value)
  {
    var whole, fraction := AcceptedParts(value);
    FormatOfParts(whole, fraction);
  }

  /** Two accepted amounts are equal exactly when their canonical forms are. */
  lemma EqualIffCanonical(a: string, b: string)
    requires ParseMON(a).Some? && ParseMON(b).Some?
    ensures ParseMON(a) == ParseMON(b) <==> Canon(a) == Canon(b)
  {
    var wholeA, fractionA := AcceptedParts(a);
    var wholeB, fractionB := AcceptedParts(b);
    FormatOfParse(a);
    FormatOfParse(b);
    ParseOfFormat(Wei(wholeA, fractionA));
    ParseOfFormat(Wei(wholeB, fractionB));
  }

  /** One whole token is 10^18 wei. */
  lemma OneIsWei(one: string)
    requires one == "1"
    ensures ParseMON(one) == Some(Print(1_000_000_000_000_000_000))
  {
    assert Print(1) == "1";
    var value := ParseOfParts(1, 0);
  }

  /** The smallest amount, in the eighteenth decimal place, is one wei. */
  lemma SmallestIsWei(smallest: string)
    requires smallest == "0.000000000000000001"
    ensures ParseMON(smallest) == Some(Print(1))
  {
    var n, f := 0, 1;
    var value := ParseOfParts(n, f);
    SmallestText(n, f, value);
  }

  lemma SmallestText(n: nat, f: nat, value: string)
    requires n == 0 && f == 1 && value == Print(n) + "." + TrimRight(Padded(f))
    ensures value == "0.000000000000000001"
  {
    assert Print(n) == "0";
    SmallestFraction(f);
    assert value == "0" + "." + "000000000000000001";
  }

  lemma SmallestFraction(f: nat)
    requires f == 1
    ensures TrimRight(Padded(f)) == "000000000000000001"
  {
    assert Print(1) == "1";
    assert Zeros(17) == "00000000000000000" by {
      assert Zeros(8) == "00000000" by { assert Zeros(4) == "0000"; }
      assert Zeros(12) == "000000000000";
      assert Zeros(16) == "0000000000000000";
    }
  }
}
