/** Durations such as "1.5h": a decimal number and a unit, read in fixed point
    with nine fraction digits and 128-bit arithmetic. */
module DurationText {
  import opened Wrappers
  import opened TimeMath

  const U128_MAX: nat := 0xFFFF_FFFF_FFFF_FFFF_FFFF_FFFF_FFFF_FFFF
  const BILLION: nat := 1_000_000_000

  datatype Error = Empty | NoNumber | BadNumber | BadSuffix | Negative | Overflow

  predicate IsDigit(c: char) { '0' <= c <= '9' }

  predicate AllDigits(s: string) { forall i :: 0 <= i < |s| ==> IsDigit(s[i]) }

  /** The characters Unicode counts as white space. */
  predicate IsWhite(c: char) {
    || '\U{9}' <= c <= '\U{D}' || c in {' ', '\U{85}', '\U{A0}', '\U{1680}', '\U{2028}', '\U{2029}', '\U{202F}'}
    || '\U{2000}' <= c <= '\U{200A}' || c in {'\U{205F}', '\U{3000}'}
  }

  predicate AllWhite(s: string) { forall i :: 0 <= i < |s| ==> IsWhite(s[i]) }

  predicate AllLetters(s: string) { forall i :: 0 <= i < |s| ==> !IsWhite(s[i]) && !IsDigit(s[i]) && s[i] != '.' }

  function TrimEnd(s: string): string {
    if s != "" && IsWhite(s[|s| - 1]) then TrimEnd(s[..|s| - 1]) else s
  }

  function Trim(s: string): string {
    if s != "" && IsWhite(s[0]) then Trim(s[1..]) else TrimEnd(s)
  }

  function Lower(s: string): string {
    seq(|s|, i requires 0 <= i < |s| => if 'A' <= s[i] <= 'Z' then s[i] + 32 as char else s[i])
  }

  /** The length of a unit in nanoseconds. */
  function Unit(suffix: string): Option<nat> {
    var u := Lower(suffix);
    if u == "" || u == "s" then Some(1_000_000_000)
    else if u == "ms" then Some(1_000_000)
    else if u == "us" || u == "\U{B5}s" then Some(1_000)
    else if u == "m" then Some(60_000_000_000)
    else if u == "h" then Some(3_600_000_000_000)
    else if u == "d" then Some(86_400_000_000_000)
    else None
  }

  /** Where the suffix starts: after the last digit or point. */
  function SuffixStart(s: string): (r: nat)
    ensures r <= |s|
    ensures forall i :: r <= i < |s| ==> !IsDigit(s[i]) && s[i] != '.'
    ensures r > 0 ==> IsDigit(s[r - 1]) || s[r - 1] == '.'
  {
    if s == "" || IsDigit(s[|s| - 1]) || s[|s| - 1] == '.' then |s| else SuffixStart(s[..|s| - 1])
  }

  function FindDot(s: string): (r: nat)
    ensures r <= |s| && (r < |s| ==> s[r] == '.')
    ensures forall i :: 0 <= i < r ==> s[i] != '.'
  {
    if s == "" || s[0] == '.' then 0 else 1 + FindDot(s[1..])
  }

  /** The number a digit string stands for. */
  function Value(s: string): nat
    requires AllDigits(s)
  {
    if s == "" then 0 else Value(s[..|s| - 1]) * 10 + (s[|s| - 1] as int - '0' as int)
  }

  function Pow10(n: nat): (r: nat)
    ensures r > 0
  {
    if n == 0 then 1 else 10 * Pow10(n - 1)
  }

  /** The standard library's reading of an unsigned 128-bit number. */
  function ParseU128(s: string): Option<nat> {
    var digits := if s != "" && s[0] == '+' then s[1..] else s;
    if digits == "" || !AllDigits(digits) || Value(digits) > U128_MAX then None else Some(Value(digits))
  }

  /** The first nine fraction characters, filled up with zeros. */
  function NineDigits(frac: string): (r: string)
    ensures |r| == 9
  {
    seq(9, i requires 0 <= i < 9 => if i < |frac| then frac[i] else '0')
  }

  function ParseFraction(frac: string): Result<nat, Error> {
    if AllDigits(NineDigits(frac)) then Ok(Value(NineDigits(frac))) else Err(BadNumber)
  }

  /** The loop over the fraction: a nine-byte buffer filled from the left. */
  method ReadFraction(frac: string) returns (r: Result<nat, Error>)
    ensures r == ParseFraction(frac)
  {
    var buffer := new char[9](_ => '0');
    var i := 0;
    while i < 9 && i < |frac|
      invariant 0 <= i <= 9 && i <= |frac|
      invariant forall k :: 0 <= k < i ==> buffer[k] == frac[k] && IsDigit(frac[k])
      invariant forall k :: i <= k < 9 ==> buffer[k] == '0'
    {
      if !IsDigit(frac[i]) {
        assert !IsDigit(NineDigits(frac)[i]);
        return Err(BadNumber);
      }
      buffer[i] := frac[i];
      i := i + 1;
    }
    assert buffer[..] == NineDigits(frac);
    r := Ok(Value(buffer[..]));
  }

  /** A decimal in fixed point: billionths. */
  function ParseDecimal(s: string): Result<nat, Error> {
    var dot := FindDot(s);
    var whole, frac := s[..dot], if dot < |s| then s[dot + 1..] else "";
    if s != "" && s[0] == '-' then Err(Negative)
    else if whole == "" && frac == "" then Err(BadNumber)
    else
      var n := if whole == "" then Some(0) else ParseU128(whole);
      match n
      case None => Err(BadNumber)
      case Some(n) =>
        match ParseFraction(frac)
        case Err(e) => Err(e)
        case Ok(f) =>
          if n * BILLION > U128_MAX || n * BILLION + f > U128_MAX then Err(Overflow) else Ok(n * BILLION + f)
  }

  /** From billionths of a nanosecond to a duration, checked twice. */
  function ScaleBack(product: nat): Result<Duration, Error> {
    var total := product / BILLION;
    if product > U128_MAX || total > U64_MAX then Err(Overflow) else Ok(Span(total / BILLION, total % BILLION))
  }

  function ParseDuration(text: string): Result<Duration, Error> {
    var input := Trim(text);
    if input == "" then Err(Empty)
    else
      var at := SuffixStart(input);
      if at == 0 then Err(NoNumber)
      else
        match ParseDecimal(input[..at])
        case Err(e) => Err(e)
        case Ok(fixed) =>
          match Unit(input[at..])
          case None => Err(BadSuffix)
          case Some(unit) => ScaleBack(fixed * unit)
  }

  // ----- what well-formed text means

  /** A decimal numeral: an optional plus sign, whole digits, fraction digits. */
  datatype Numeral = Numeral(plus: bool, whole: string, dot: bool, frac: string) {
    ghost predicate Valid() {
      && AllDigits(whole) && AllDigits(frac)
      && (whole == "" ==> !plus && frac != "")
      && (frac != "" ==> dot)
    }

    function Text(): string {
      (if plus then "+" else "") + whole + (if dot then "." + frac else "")
    }

    /** The numeral's value is Digits() / Scale(). */
    ghost function Digits(): nat
      requires Valid()
    {
      Value(whole + frac)
    }

    ghost function Scale(): nat { Pow10(|frac|) }
  }

  /** n is num / den, rounded down. */
  ghost predicate IsFloor(n: nat, num: nat, den: nat) { n * den <= num < (n + 1) * den }

  /** White space, a numeral, a unit, white space. */
  ghost predicate Reads(text: string, x: Numeral, unit: nat) {
    exists before, suffix, after ::
      && text == before + x.Text() + suffix + after
      && AllWhite(before) && AllWhite(after)
      && Unit(suffix) == Some(unit)
  }

  lemma {:induction false} ValueOfConcat(a: string, b: string)
    requires AllDigits(a) && AllDigits(b)
    ensures AllDigits(a + b) && Value(a + b) == Value(a) * Pow10(|b|) + Value(b)
    decreases |b|
  {
    if b == "" {
      assert a + b == a;
    } else {
      var c := b[..|b| - 1];
      ValueOfConcat(a, c);
      assert (a + b)[..|a + b| - 1] == a + c;
      assert Value(a) * Pow10(|b|) == Value(a) * Pow10(|c|) * 10;
    }
  }

  lemma {:induction false} ValueBelowPow(s: string)
    requires AllDigits(s)
    ensures Value(s) < Pow10(|s|)
    decreases |s|
  {
    if s != "" {
      ValueBelowPow(s[..|s| - 1]);
    }
  }

  lemma {:induction false} PowSum(m: nat, n: nat)
    ensures Pow10(m + n) == Pow10(m) * Pow10(n)
    decreases m
  {
    if m > 0 {
      PowSum(m - 1, n);
    }
  }

  lemma {:induction false} ZerosAreNothing(s: string)
    requires forall i :: 0 <= i < |s| ==> s[i] == '0'
    ensures AllDigits(s) && Value(s) == 0
    decreases |s|
  {
    if s != "" {
      ZerosAreNothing(s[..|s| - 1]);
    }
  }

  lemma PowNine()
    ensures Pow10(9) == BILLION
  {
    assert Pow10(3) == 1000;
    PowSum(3, 3);
    PowSum(6, 3);
  }

  lemma SplitQuotient(v: nat, power: nat, t: nat)
    requires t < power
    ensures IsFloor(v, (v * power + t) * BILLION, power * BILLION)
  {
    assert v * (power * BILLION) == v * power * BILLION;
    assert (v + 1) * (power * BILLION) == (v * power + power) * BILLION;
  }

  lemma WholeQuotient(f: nat, pad: nat, power: nat)
    requires pad * power == BILLION && power > 0
    ensures IsFloor(f * pad, f * BILLION, power)
  {
    assert f * pad * power == f * (pad * power);
    assert (f * pad + 1) * power == f * pad * power + power;
  }

  /** The nine-digit buffer holds the fraction in billionths, rounded down. */
  lemma NineDigitsRoundDown(frac: string)
    requires AllDigits(frac)
    ensures AllDigits(NineDigits(frac)) && Value(NineDigits(frac)) < BILLION
    ensures IsFloor(Value(NineDigits(frac)), Value(frac) * BILLION, Pow10(|frac|))
  {
    var nine := NineDigits(frac);
    PowNine();
    hide IsFloor, Pow10, Value;
    if |frac| <= 9 {
      var zeros := seq(9 - |frac|, _ => '0');
      assert nine == frac + zeros;
      ZerosAreNothing(zeros);
      ValueOfConcat(frac, zeros);
      PowSum(9 - |frac|, |frac|);
      WholeQuotient(Value(frac), Pow10(9 - |frac|), Pow10(|frac|));
    } else {
      var rest := frac[9..];
      assert frac == nine + rest;
      ValueOfConcat(nine, rest);
      ValueBelowPow(rest);
      PowSum(|rest|, 9);
      SplitQuotient(Value(nine), Pow10(|rest|), Value(rest));
    }
    ValueBelowPow(nine);
  }

  // ----- the parser on well-formed text

  function Computed(x: Numeral): nat
    requires AllDigits(x.whole) && AllDigits(NineDigits(x.frac))
  {
    Value(x.whole) * BILLION + Value(NineDigits(x.frac))
  }

  lemma ComputedRoundsDown(x: Numeral)
    requires x.Valid()
    ensures AllDigits(NineDigits(x.frac)) && IsFloor(Computed(x), x.Digits() * BILLION, x.Scale())
  {
    hide IsFloor, Pow10, Value, NineDigits;
    NineDigitsRoundDown(x.frac);
    ValueOfConcat(x.whole, x.frac);
    AddWhole(Value(x.whole), Value(x.frac), Value(NineDigits(x.frac)), Pow10(|x.frac|));
  }

  lemma AddWhole(w: nat, f: nat, v: nat, power: nat)
    requires IsFloor(v, f * BILLION, power)
    ensures IsFloor(w * BILLION + v, (w * power + f) * BILLION, power)
  {
    assert (w * power + f) * BILLION == w * BILLION * power + f * BILLION;
    assert (w * BILLION + v) * power == w * BILLION * power + v * power;
    assert (w * BILLION + v + 1) * power == w * BILLION * power + (v + 1) * power;
  }

  lemma FloorIsUnique(m: nat, n: nat, num: nat, den: nat)
    requires IsFloor(m, num, den) && IsFloor(n, num, den)
    ensures m == n
  {
    assert m < n ==> (m + 1) * den <= n * den;
    assert n < m ==> (n + 1) * den <= m * den;
  }

  lemma {:induction false} DotComesFirst(a: string, b: string)
    requires AllDigits(a) || (a != "" && a[0] == '+' && AllDigits(a[1..]))
    requires b == "" || b[0] == '.'
    ensures FindDot(a + b) == |a|
    decreases |a|
  {
    if a == "" {
      assert a + b == b;
    } else {
      assert (a + b)[1..] == a[1..] + b;
      DotComesFirst(a[1..], b);
    }
  }

  lemma NumeralParts(x: Numeral)
    requires x.Valid()
    ensures var t, dot := x.Text(), FindDot(x.Text());
            && t[..dot] == (if x.plus then "+" else "") + x.whole
            && (dot < |t| <==> x.dot) && (x.dot ==> t[dot + 1..] == x.frac)
            && |t| > 0 && (IsDigit(t[0]) || t[0] in {'+', '.'}) && (IsDigit(t[|t| - 1]) || t[|t| - 1] == '.')
  {
    hide Value;
    var signed := (if x.plus then "+" else "") + x.whole;
    var rest := if x.dot then "." + x.frac else "";
    assert x.Text() == signed + rest;
    assert x.plus ==> signed[1..] == x.whole;
    DotComesFirst(signed, rest);
  }

  lemma NumeralParses(x: Numeral)
    requires x.Valid()
    ensures AllDigits(NineDigits(x.frac))
    ensures ParseDecimal(x.Text()) ==
              if Value(x.whole) > U128_MAX then Err(BadNumber)
              else if Computed(x) > U128_MAX then Err(Overflow) else Ok(Computed(x))
  {
    NineDigitsRoundDown(x.frac);
    NumeralParts(x);
    var t, dot := x.Text(), FindDot(x.Text());
    assert (if dot < |t| then t[dot + 1..] else "") == x.frac;
    if x.whole != "" {
      WholeParses(x);
    }
    hide Pow10, NineDigits, FindDot, Numeral.Text, Value, ParseU128;
  }

  lemma WholeParses(x: Numeral)
    requires x.Valid() && x.whole != ""
    ensures ParseU128((if x.plus then "+" else "") + x.whole) ==
              if Value(x.whole) > U128_MAX then None else Some(Value(x.whole))
  {
    var signed := (if x.plus then "+" else "") + x.whole;
    assert x.plus ==> signed[1..] == x.whole;
    assert !x.plus ==> signed == x.whole;
    hide Value;
  }

  lemma {:induction false} TrimEndDrops(core: string, after: string)
    requires core != "" && !IsWhite(core[|core| - 1]) && AllWhite(after)
    ensures TrimEnd(core + after) == core
    decreases |after|
  {
    if after == "" {
      assert core + after == core;
    } else {
      assert (core + after)[..|core + after| - 1] == core + after[..|after| - 1];
      TrimEndDrops(core, after[..|after| - 1]);
    }
  }

  lemma {:induction false} TrimDrops(before: string, core: string, after: string)
    requires core != "" && !IsWhite(core[0]) && !IsWhite(core[|core| - 1])
    requires AllWhite(before)
    requires AllWhite(after)
    ensures Trim(before + core + after) == core
    decreases |before|
  {
    if before == "" {
      assert before + core + after == core + after;
      TrimEndDrops(core, after);
    } else {
      assert (before + core + after)[1..] == before[1..] + core + after;
      TrimDrops(before[1..], core, after);
    }
  }

  lemma UnitsAreLetters(suffix: string)
    requires Unit(suffix).Some?
    ensures 1_000 <= Unit(suffix).value <= 86_400_000_000_000
    ensures AllLetters(suffix)
  {
    var u := Lower(suffix);
    assert forall i :: 0 <= i < |u| ==> u[i] in {'s', 'm', 'u', 'h', 'd', '\U{B5}'};
    forall i | 0 <= i < |suffix| ensures !IsWhite(suffix[i]) && !IsDigit(suffix[i]) && suffix[i] != '.' {
      assert u[i] in {'s', 'm', 'u', 'h', 'd', '\U{B5}'};
    }
  }

  lemma {:induction false} SuffixFound(number: string, suffix: string)
    requires number != "" && (IsDigit(number[|number| - 1]) || number[|number| - 1] == '.')
    requires AllLetters(suffix)
    ensures SuffixStart(number + suffix) == |number|
  {
    var s, r := number + suffix, SuffixStart(number + suffix);
    assert s[|number| - 1] == number[|number| - 1];
    assert forall i :: |number| <= i < |s| ==> s[i] == suffix[i - |number|];
  }

  lemma TextSplits(text: string, x: Numeral, unit: nat)
    requires x.Valid() && Reads(text, x, unit)
    ensures 1_000 <= unit <= 86_400_000_000_000
    ensures var input, at := Trim(text), SuffixStart(Trim(text));
            at > 0 && input[..at] == x.Text() && Unit(input[at..]) == Some(unit)
  {
    var before, suffix, after :|
      && text == before + x.Text() + suffix + after
      && AllWhite(before) && AllWhite(after)
      && Unit(suffix) == Some(unit);
    UnitsAreLetters(suffix);
    NumeralParts(x);
    hide Unit, Trim, SuffixStart, Numeral.Text, AllWhite, AllLetters, Numeral.Valid;
    CoreFound(before, x.Text(), suffix, after);
  }

  lemma CoreFound(before: string, number: string, suffix: string, after: string)
    requires AllWhite(before)
    requires AllWhite(after)
    requires number != "" && (IsDigit(number[0]) || number[0] in {'+', '.'})
    requires IsDigit(number[|number| - 1]) || number[|number| - 1] == '.'
    requires AllLetters(suffix)
    ensures Trim(before + number + suffix + after) == number + suffix
    ensures SuffixStart(number + suffix) == |number|
    ensures (number + suffix)[..|number|] == number && (number + suffix)[|number|..] == suffix
  {
    var core := number + suffix;
    assert !IsWhite(core[0]) && !IsWhite(core[|core| - 1]) by {
      assert core[0] == number[0];
      assert core[|core| - 1] == if suffix == "" then number[|number| - 1] else suffix[|suffix| - 1];
    }
    SuffixFound(number, suffix);
    hide *;
    assert before + number + suffix + after == before + core + after;
    TrimDrops(before, core, after);
  }

  /** A duration is accepted exactly when its length, rounded down to billionths
      of the unit and then to nanoseconds, fits in 64 bits: none of the 128-bit
      overflow checks rejects anything that would fit. And it is read as that. */
  lemma AcceptedIffItFits(text: string, x: Numeral, unit: nat, q: nat)
    requires x.Valid() && Reads(text, x, unit) && IsFloor(q, x.Digits() * BILLION, x.Scale())
    ensures ParseDuration(text).Ok? <==> q * unit / BILLION <= U64_MAX
    ensures ParseDuration(text).Ok? ==> ExactNs(ParseDuration(text).value) == q * unit / BILLION
  {
    TextSplits(text, x, unit);
    NumeralParses(x);
    ComputedRoundsDown(x);
    FloorIsUnique(q, Computed(x), x.Digits() * BILLION, x.Scale());
    hide Numeral.Text, IsFloor, Trim, SuffixStart, Unit, Value, ParseDecimal, Pow10, NineDigits;
    BigIsTooBig(Value(x.whole), q, unit);
  }

  lemma BigIsTooBig(whole: nat, q: nat, unit: nat)
    requires q >= whole * BILLION && unit >= 1_000
    ensures whole > U128_MAX ==> q > U128_MAX
    ensures q > U128_MAX || q * unit > U128_MAX ==> q * unit / BILLION > U64_MAX
  {
    assert q * unit >= q * 1_000;
  }

  // ----- how good the reading is

  /** The duration never exceeds the true value, and is short of it by less than
      one nanosecond plus a billionth of the unit. All in units of 1 / Scale. */
  lemma ShortByLittle(text: string, x: Numeral, unit: nat)
    requires x.Valid() && Reads(text, x, unit) && ParseDuration(text).Ok?
    ensures var ns := ExactNs(ParseDuration(text).value);
            && ns * x.Scale() <= x.Digits() * unit
            && (x.Digits() * unit - ns * x.Scale()) * BILLION < (unit + BILLION) * x.Scale()
  {
    ComputedRoundsDown(x);
    AcceptedIffItFits(text, x, unit, Computed(x));
    hide Numeral.Scale, Numeral.Digits, ParseDuration, Computed;
    TwoFloors(Computed(x), x.Digits(), x.Scale(), unit);
  }

  lemma MulLe(a: int, b: int, c: nat)
    requires a <= b
    ensures a * c <= b * c
  {
  }

  lemma MulLt(a: int, b: int, c: nat)
    requires a < b && c > 0
    ensures a * c < b * c
  {
  }

  lemma Swap(a: int, b: int, c: int)
    ensures a * b * c == a * c * b
  {
  }

  lemma Distribute(a: int, b: int, c: int)
    ensures (a + b) * c == a * c + b * c
  {
  }

  lemma TwoFloors(q: nat, num: nat, den: nat, unit: nat)
    requires IsFloor(q, num * BILLION, den) && unit > 0 && den > 0
    ensures var ns := q * unit / BILLION;
            ns * den <= num * unit && (num * unit - ns * den) * BILLION < (unit + BILLION) * den
  {
    var ns, rest := q * unit / BILLION, q * unit % BILLION;
    MulLe(q * den, num * BILLION, unit);
    Swap(q, den, unit);
    Swap(num, BILLION, unit);
    Distribute(ns * BILLION, rest, den);
    Swap(ns, BILLION, den);
    assert ns * den * BILLION + rest * den <= num * unit * BILLION;
    Distribute(q, 1, den);
    MulLt(num * BILLION, q * den + den, unit);
    Distribute(q * den, den, unit);
    MulLt(rest, BILLION, den);
    Distribute(unit, BILLION, den);
    Swap(1, den, unit);
  }

  /** In one unit, a larger numeral never gives a shorter duration, and whatever
      is below an accepted numeral is accepted. */
  lemma Monotone(low: string, x: Numeral, high: string, y: Numeral, unit: nat)
    requires x.Valid() && y.Valid() && Reads(low, x, unit) && Reads(high, y, unit)
    requires x.Digits() * y.Scale() <= y.Digits() * x.Scale()
    requires ParseDuration(high).Ok?
    ensures ParseDuration(low).Ok?
    ensures ExactNs(ParseDuration(low).value) <= ExactNs(ParseDuration(high).value)
  {
    ComputedRoundsDown(x);
    ComputedRoundsDown(y);
    AcceptedIffItFits(low, x, unit, Computed(x));
    AcceptedIffItFits(high, y, unit, Computed(y));
    hide Numeral.Digits, ParseDuration, Computed;
    FloorsKeepOrder(Computed(x), x.Digits(), x.Scale(), Computed(y), y.Digits(), y.Scale());
    hide *;
    MulLe(Computed(x), Computed(y), unit);
  }

  lemma FloorsKeepOrder(m: nat, a: nat, p: nat, n: nat, b: nat, q: nat)
    requires p > 0 && q > 0 && IsFloor(m, a * BILLION, p) && IsFloor(n, b * BILLION, q) && a * q <= b * p
    ensures m <= n
  {
    if m > n {
      MulLe(n + 1, m, q);
      MulLe(m * p, a * BILLION, q);
      Swap(a, BILLION, q);
      Swap(b, BILLION, p);
      MulLt(b * BILLION, m * q, p);
      Swap(m, p, q);
      assert false;
    }
  }

  // ----- printing and reading back

  lemma AppendDigit(s: string, d: nat)
    requires AllDigits(s) && d < 10
    ensures AllDigits(s + [Digit(d)]) && Value(s + [Digit(d)]) == Value(s) * 10 + d
  {
    assert (s + [Digit(d)])[..|s|] == s;
  }

  function Digit(d: nat): (c: char)
    requires d < 10
    ensures IsDigit(c)
  {
    (d + '0' as int) as char
  }

  function Decimal(n: nat): (s: string)
    ensures s != "" && AllDigits(s) && Value(s) == n
  {
    var front := if n < 10 then "" else Decimal(n / 10);
    AppendDigit(front, n % 10);
    front + [Digit(n % 10)]
  }

  function Padded(n: nat, width: nat): (s: string)
    requires n < Pow10(width)
    ensures |s| == width && AllDigits(s) && Value(s) == n
  {
    if width == 0 then ""
    else
      AppendDigit(Padded(n / 10, width - 1), n % 10);
      Padded(n / 10, width - 1) + [Digit(n % 10)]
  }

  /** A duration as seconds with nine fraction digits. */
  function Print(d: Duration): string {
    Printed(d).Text()
  }

  function Printed(d: Duration): (x: Numeral)
    ensures x.Valid() && x.whole == Decimal(d.secs)
    ensures NineDigits(x.frac) == x.frac && Value(x.frac) == d.subsecNanos
  {
    PowNine();
    Numeral(false, Decimal(d.secs), true, Padded(d.subsecNanos, 9))
  }

  lemma LengthDecides(d: Duration, e: Duration)
    requires ExactNs(d) == ExactNs(e)
    ensures d == e
  {
  }

  /** Printing and parsing gives the duration back exactly when its nanoseconds
      fit in 64 bits; otherwise it is refused, although a duration can be longer. */
  lemma RoundTrip(d: Duration)
    ensures ParseDuration(Print(d)) == Ok(d) <==> ExactNs(d) <= U64_MAX
    ensures ParseDuration(Print(d)).Err? <==> ExactNs(d) > U64_MAX
  {
    var x := Printed(d);
    ReadsItself(x);
    ComputedRoundsDown(x);
    AcceptedIffItFits(Print(d), x, BILLION, Computed(x));
    hide Numeral.Text, Value, Decimal, Padded, Printed, ParseDuration, NineDigits, Numeral.Digits, Numeral.Scale, IsFloor;
    assert Computed(x) == ExactNs(d);
    assert ExactNs(d) * BILLION / BILLION == ExactNs(d);
    if ParseDuration(Print(d)).Ok? {
      LengthDecides(d, ParseDuration(Print(d)).value);
    }
  }

  lemma ReadsItself(x: Numeral)
    ensures Reads(x.Text(), x, BILLION)
  {
    assert x.Text() == "" + x.Text() + "" + "";
    assert Lower("") == "";
    assert AllWhite("") && Unit("") == Some(BILLION);
  }

  // ----- text that is not well formed

  /** A number up to its ninth fraction character. */
  function Head(s: string): string {
    s[..Min(|s|, FindDot(s) + 10)]
  }

  lemma DotIsUnique(s: string, k: nat)
    requires k <= |s| && (k < |s| ==> s[k] == '.') && forall i :: 0 <= i < k ==> s[i] != '.'
    ensures FindDot(s) == k
  {
  }

  lemma HeadParts(s: string)
    ensures var dot, head := FindDot(s), Head(s);
            && dot == FindDot(head) && s[..dot] == head[..dot] && (dot < |s| <==> dot < |head|)
            && (dot < |s| ==> head[dot + 1..] == s[dot + 1..][..Min(9, |s| - dot - 1)])
            && (s == "" <==> head == "") && (s != "" ==> s[0] == head[0])
  {
    var dot, head := FindDot(s), Head(s);
    DotIsUnique(head, dot);
    assert s[..dot] == head[..dot];
    assert dot < |s| ==> head[dot + 1..] == s[dot + 1..][..Min(9, |s| - dot - 1)];
  }

  /** The numeral x, rounded down to n billionths, fits in 128 bits. */
  ghost predicate Fits(x: Numeral, n: nat)
    requires x.Valid()
  {
    n <= U128_MAX && IsFloor(n, x.Digits() * BILLION, x.Scale())
  }

  /** What follows the ninth fraction character is never looked at: a number that
      is not negative is read as its head is, and is read as n exactly when its
      head is a numeral whose billionths are n and fit in 128 bits. */
  lemma ReadIffHeadIsNumeral(s: string, n: nat)
    requires s == "" || s[0] != '-'
    ensures ParseDecimal(s) == Ok(n) <==> exists x: Numeral :: x.Valid() && x.Text() == Head(s) && Fits(x, n)
  {
    HeadReads(s);
    var head := Head(s);
    if ParseDecimal(s) == Ok(n) {
      var x := HeadIsNumeral(head);
      NumeralReads(x, n);
    }
    forall x: Numeral | x.Valid() && x.Text() == head && Fits(x, n) ensures ParseDecimal(head) == Ok(n) {
      NumeralReads(x, n);
    }
  }

  lemma HeadReads(s: string)
    requires s == "" || s[0] != '-'
    ensures ParseDecimal(s) == ParseDecimal(Head(s)) && |Head(s)| <= FindDot(Head(s)) + 10
  {
    HeadParts(s);
    NineOfHead(s);
  }

  lemma NineOfHead(s: string)
    ensures var frac := if FindDot(s) < |s| then s[FindDot(s) + 1..] else "";
            NineDigits(frac) == NineDigits(frac[..Min(9, |frac|)])
  {
  }

  lemma NumeralReads(x: Numeral, n: nat)
    requires x.Valid()
    ensures ParseDecimal(x.Text()) == Ok(n) <==> Fits(x, n)
  {
    NumeralParses(x);
    ComputedRoundsDown(x);
    hide Numeral.Text, Numeral.Digits, Numeral.Scale, Value, NineDigits, IsFloor;
    if Fits(x, n) {
      FloorIsUnique(n, Computed(x), x.Digits() * BILLION, x.Scale());
    }
  }

  lemma WholeIsSigned(signed: string) returns (plus: bool, whole: string)
    requires ParseU128(signed).Some?
    ensures AllDigits(whole) && whole != "" && signed == (if plus then "+" else "") + whole
  {
    plus := signed[0] == '+';
    whole := if plus then signed[1..] else signed;
  }

  lemma FractionIsDigits(frac: string)
    requires |frac| <= 9 && ParseFraction(frac).Ok?
    ensures AllDigits(frac)
  {
    forall i | 0 <= i < |frac| ensures IsDigit(frac[i]) {
      assert NineDigits(frac)[i] == frac[i];
    }
  }

  lemma SplitAtDot(head: string, dot: nat)
    requires dot <= |head| && (dot < |head| ==> head[dot] == '.')
    ensures head == head[..dot] + (if dot < |head| then "." + head[dot + 1..] else "")
  {
    assert head == head[..dot] + head[dot..];
    if dot < |head| {
      assert head[dot..] == [head[dot]] + head[dot + 1..];
    }
  }

  lemma HeadIsNumeral(head: string) returns (x: Numeral)
    requires |head| <= FindDot(head) + 10 && ParseDecimal(head).Ok?
    ensures x.Valid() && x.Text() == head
  {
    var dot := FindDot(head);
    var frac := if dot < |head| then head[dot + 1..] else "";
    FractionIsDigits(frac);
    SplitAtDot(head, dot);
    var plus, whole := false, "";
    if dot > 0 {
      plus, whole := WholeIsSigned(head[..dot]);
    }
    assert dot == 0 ==> frac != "";
    hide ParseDecimal, ParseFraction, ParseU128, FindDot, Value;
    x := Numeral(plus, whole, dot < |head|, frac);
    assert x.Text() == (if plus then "+" else "") + whole + (if dot < |head| then "." + frac else "");
  }

  const JUNK := "1.234567890 and 1"

  lemma JunkHasANumeralHead()
    ensures ParseDecimal(JUNK).Ok? && ParseDecimal(JUNK).value <= U64_MAX
  {
    DotIsUnique(JUNK, 1);
    var x := Numeral(false, "1", true, "234567890");
    assert Head(JUNK) == x.Text();
    NumeralParses(x);
    NineDigitsRoundDown(x.frac);
    ValueBelowPow("1");
    HeadReads(JUNK);
  }

  /** So text can be read that is no numeral at all. */
  lemma JunkIsRead()
    ensures ParseDecimal(JUNK).Ok? && ParseDuration(JUNK).Ok?
    ensures !exists x: Numeral :: x.Valid() && x.Text() == JUNK
  {
    JunkHasANumeralHead();
    JunkIsNotTrimmed(JUNK);
    hide ParseDecimal, ParseDuration;
    DotIsUnique(JUNK, 1);
    forall x: Numeral | x.Valid() ensures x.Text() != JUNK {
      NumeralParts(x);
      assert JUNK[2..][9] == ' ';
    }
  }

  /** Text that starts and ends with a digit is all number: seconds. */
  lemma JunkIsNotTrimmed(s: string)
    requires s != "" && IsDigit(s[0]) && IsDigit(s[|s| - 1])
    requires ParseDecimal(s).Ok? && ParseDecimal(s).value <= U64_MAX
    ensures ParseDuration(s).Ok?
  {
    assert Trim(s) == s && SuffixStart(s) == |s| && s[..|s|] == s && s[|s|..] == "";
    assert Lower("") == "";
    hide ParseDecimal, Trim, SuffixStart;
  }
}
