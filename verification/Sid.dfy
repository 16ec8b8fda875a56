/** LEAN security identifiers: contract properties packed into one number, printed in base 36. */
module Sid {
  import opened Results
  import opened Reals
  import opened Ascii
  import opened Division

  const MARKET := 100
  const STRIKE_SCALE := 100_000
  const STRIKE := 10_000_000
  const OPTION_STYLE := 10_000_000_000_000
  const DAYS := 100_000_000_000_000
  const PUT_CALL := 10_000_000_000_000_000_000
  const U64 := 0x1_0000_0000_0000_0000
  const I64 := 0x8000_0000_0000_0000
  const NEGATIVE_MASK := 0x8_0000
  const MAX_STRIKE_PRICE := 475_711

  // ---- Packing ----

  /** The properties of a contract; `strike` is the encoded magnitude with its sign bit. */
  datatype Properties = Properties(right: nat, days: nat, style: nat, strike: nat, scale: nat, market: nat,
                                   securityType: nat) {
    /** The digits each property has room for. */
    predicate InRange() {
      && right <= 1 && days < 100_000 && style <= 1 && strike < 1_000_000 && scale < 100 && market < 1000
         && securityType < 100
    }

    function Packed(): nat {
      right * PUT_CALL + days * DAYS + style * OPTION_STYLE + strike * STRIKE + scale * STRIKE_SCALE + market * MARKET
          + securityType
    }
  }

  function Unpacked(n: nat): Properties {
    Properties(n / PUT_CALL, n / DAYS % 100_000, n / OPTION_STYLE % 10, n / STRIKE % 1_000_000,
               n / STRIKE_SCALE % 100, n / MARKET % 1000, n % MARKET)
  }

  /** Every property can be read back from the packed number. */
  lemma UnpackPacked(p: Properties)
    requires p.InRange()
    ensures Unpacked(p.Packed()) == p
  {
    var n := p.Packed();
    var a := p.right;
    var b := a * 100_000 + p.days;
    var c := b * 10 + p.style;
    var d := c * 1_000_000 + p.strike;
    var e := d * 100 + p.scale;
    var f := e * 1000 + p.market;
    assert n == f * MARKET + p.securityType;
    QuotientAndRemainder(n, MARKET, f, p.securityType);
    QuotientAndRemainder(f, 1000, e, p.market);
    QuotientAndRemainder(n, STRIKE_SCALE, e, n - e * STRIKE_SCALE);
    QuotientAndRemainder(e, 100, d, p.scale);
    QuotientAndRemainder(n, STRIKE, d, n - d * STRIKE);
    QuotientAndRemainder(d, 1_000_000, c, p.strike);
    QuotientAndRemainder(n, OPTION_STYLE, c, n - c * OPTION_STYLE);
    QuotientAndRemainder(c, 10, b, p.style);
    QuotientAndRemainder(n, DAYS, b, n - b * DAYS);
    QuotientAndRemainder(b, 100_000, a, p.days);
    QuotientAndRemainder(n, PUT_CALL, a, n - a * PUT_CALL);
  }

  /** The packed number fits 64 bits, for puts exactly up to day 84467. */
  lemma FitsIff(p: Properties)
    requires p.InRange()
    ensures p.Packed() < U64 <==> p.right == 0 || p.days <= 84_467
  {
  }

  /** A put dated one day later wraps around. */
  lemma LatePutWraps()
    ensures var p := Properties(1, 84_468, 0, 0, 0, 0, 0); p.InRange() && p.Packed() % U64 != p.Packed()
  {
  }

  lemma NoWrap(p: Properties)
    requires p.InRange() && (p.right == 1 ==> p.days <= 84_467)
    ensures p.Packed() < U64 && p.Packed() % U64 == p.Packed()
  {
  }

  // ---- The strike ----

  predicate MultipleOfTen(x: real) { IsWhole(x / 10.0) }

  function Truncated(x: real): int { if x < 0.0 then -(-x).Floor else x.Floor }

  lemma Shrinks(x: real)
    requires x != 0.0 && MultipleOfTen(x)
    ensures Abs(x / 10.0).Floor < Abs(x).Floor && x / 10.0 != 0.0 && IsWhole(x) && Abs(x / 10.0) >= 1.0
  {
    var q := (x / 10.0).Floor;
    assert x == 10.0 * q as real == (10 * q) as real;
  }

  /** Take the trailing zeros off: what is left, and how many there were. */
  function Stripped(x: real): (real, nat)
    requires x != 0.0
    decreases Abs(x).Floor
  {
    if MultipleOfTen(x) then
      Shrinks(x);
      var (mantissa, zeros) := Stripped(x / 10.0);
      (mantissa, zeros + 1)
    else (x, 0)
  }

  function Scaled(m: real, zeros: nat): real { m * Power10(zeros) as real }

  lemma {:induction false} StrippedScales(x: real)
    requires x != 0.0
    ensures Scaled(Stripped(x).0, Stripped(x).1) == x
    decreases Abs(x).Floor
  {
    if MultipleOfTen(x) {
      Shrinks(x);
      StrippedScales(x / 10.0);
      TenTimes(Stripped(x / 10.0).0, Stripped(x / 10.0).1, x);
    } else {
      ScaledByOne(x);
    }
  }

  lemma ScaledByOne(x: real)
    ensures Scaled(x, 0) == x
  {
  }

  lemma TenTimes(m: real, zeros: nat, x: real)
    requires Scaled(m, zeros) == x / 10.0
    ensures Scaled(m, zeros + 1) == x
  {
  }

  /** Only whole numbers lose zeros, and they stay whole. */
  lemma {:induction false} StrippedStaysWhole(x: real)
    requires x != 0.0
    ensures Stripped(x).0 != 0.0
    ensures if IsWhole(x) then IsWhole(Stripped(x).0) else Stripped(x) == (x, 0)
    decreases Abs(x).Floor
  {
    if MultipleOfTen(x) {
      Shrinks(x);
      StrippedStaysWhole(x / 10.0);
    }
  }

  function Micros(strike: real): real { strike * 1_000_000.0 }

  /** The magnitude, with bit 19 set for a negative strike. */
  function SignBit(n: int): nat { if n < 0 then NEGATIVE_MASK - n else n }

  function Encoded(n: int): Result<nat> {
    if n < -I64 || n >= I64 then Err("option strike cannot be encoded in a LEAN SID")
    else if n >= MAX_STRIKE_PRICE || -n >= MAX_STRIKE_PRICE then Err("option strike is outside the LEAN SID range")
    else Ok(SignBit(n))
  }

  function Normalized(strike: real): Result<(nat, nat)> {
    if strike == 0.0 then Ok((0, 0)) else
      var (mantissa, scale) := Stripped(Micros(strike));
      match Encoded(Truncated(mantissa))
      case Ok(encoded) => Ok((encoded, scale))
      case Err(message) => Err(message)
  }

  method NormalizeStrike(strike: real) returns (r: Result<(nat, nat)>)
    ensures r == Normalized(strike)
  {
    if strike == 0.0 {
      return Ok((0, 0));
    }
    var x := strike * 1_000_000.0;
    assert x == Micros(strike) && x != 0.0;
    var scale: nat := 0;
    while MultipleOfTen(x)
      invariant x != 0.0
      invariant Stripped(Micros(strike)) == (Stripped(x).0, Stripped(x).1 + scale)
      decreases Abs(x).Floor
    {
      Shrinks(x);
      x := x / 10.0;
      scale := scale + 1;
    }
    var encoded := Encoded(Truncated(x));
    match encoded {
      case Ok(n) => return Ok((n, scale));
      case Err(message) => return Err(message);
    }
  }

  function SignedOf(encoded: nat): int { if encoded >= NEGATIVE_MASK then NEGATIVE_MASK - encoded else encoded }

  function DecodedStrike(encoded: nat, scale: nat): real { Scaled(SignedOf(encoded) as real, scale) / 1_000_000.0 }

  lemma EncodedDecodes(n: int)
    requires Encoded(n).Ok?
    ensures Encoded(n).value < 1_000_000 && SignedOf(Encoded(n).value) == n
  {
  }

  /** Stripping and truncating a number of millionths loses nothing exactly when it is whole. */
  lemma TruncationIsExactIff(x: real)
    requires x != 0.0
    ensures Scaled(Truncated(Stripped(x).0) as real, Stripped(x).1) == x <==> IsWhole(x)
  {
    StrippedScales(x);
    StrippedStaysWhole(x);
    if IsWhole(x) {
      assert Truncated(Stripped(x).0) as real == Stripped(x).0;
    } else {
      ScaledByOne(Truncated(x) as real);
      assert Truncated(x) as real != x;
    }
  }

  /** An accepted strike decodes to itself exactly when it is a whole number of millionths. */
  lemma StrikeDecodesIff(strike: real)
    requires Normalized(strike).Ok?
    ensures var (encoded, scale) := Normalized(strike).value;
            encoded < 1_000_000 && (DecodedStrike(encoded, scale) == strike <==> IsWhole(Micros(strike)))
  {
    if strike != 0.0 {
      EncodedDecodes(Truncated(Stripped(Micros(strike)).0));
      TruncationIsExactIff(Micros(strike));
    }
  }

  /** A strike is refused exactly when its millionths, less their trailing zeros, reach 475711 either way. */
  lemma StrikeAcceptedIff(strike: real)
    ensures Normalized(strike).Ok? <==> strike == 0.0 || Abs(Stripped(Micros(strike)).0) < 475_711.0
    ensures strike != 0.0 ==> !MultipleOfTen(Stripped(Micros(strike)).0)
  {
    if strike != 0.0 {
      StripsAll(Micros(strike));
    }
  }

  lemma {:induction false} StripsAll(x: real)
    requires x != 0.0
    ensures !MultipleOfTen(Stripped(x).0)
    decreases Abs(x).Floor
  {
    if MultipleOfTen(x) {
      Shrinks(x);
      StripsAll(x / 10.0);
    }
  }

  /** A negative strike sets bit 19 of its code. */
  lemma NegativeStrike()
    ensures Normalized(-1.0) == Ok((524_289, 6))
  {
    assert Micros(-1.0) == -1_000_000.0;
  }

  /** A seventh decimal is cut off: two strikes share one code. */
  lemma SeventhDecimalIsLost()
    ensures Normalized(0.123_456_7) == Normalized(0.123_456) == Ok((123_456, 0))
  {
    assert Micros(0.123_456_7) == 123_456.7 && Micros(0.123_456) == 123_456.0;
    assert (123_456.7 / 10.0).Floor == 12_345 && (123_456.0 / 10.0).Floor == 12_345;
    assert 123_456.7.Floor == 123_456;
  }

  /** A decimal holds a 96-bit coefficient, so a strike in millionths stays below 2^96. */
  predicate FitsDecimal(strike: real) {
    Abs(Micros(strike)) < 0x1_0000_0000_0000_0000_0000_0000 as real
  }

  lemma {:induction false} Power10Grows(a: nat, b: nat)
    requires a <= b
    ensures Power10(a) <= Power10(b)
  {
    if a < b {
      Power10Grows(a, b - 1);
    }
  }

  lemma TwentyNineZeros()
    ensures Power10(29) == 100_000_000_000_000_000_000_000_000_000
  {
    assert Power10(10) == 10_000_000_000;
    assert Power10(20) == 100_000_000_000_000_000_000;
  }

  lemma TooManyZeros(x: real)
    requires x != 0.0 && Stripped(x).1 > 28
    ensures Abs(x) >= 100_000_000_000_000_000_000_000_000_000.0
  {
    TwentyNineZeros();
    Power10Grows(29, Stripped(x).1);
    StrippedScales(x);
    StrippedStaysWhole(x);
    AtLeastPower(Stripped(x).0, Stripped(x).1);
  }

  lemma ScaleFits(strike: real)
    requires FitsDecimal(strike) && Normalized(strike).Ok?
    ensures Normalized(strike).value.1 <= 28
  {
    if strike != 0.0 && Stripped(Micros(strike)).1 > 28 {
      TooManyZeros(Micros(strike));
    }
  }

  lemma AtLeastPower(m: real, zeros: nat)
    requires IsWhole(m) && m != 0.0
    ensures Abs(Scaled(m, zeros)) >= Power10(zeros) as real
  {
  }

  // ---- Base 36 ----

  predicate IsDigit(c: char) { '0' <= c <= '9' || 'A' <= c <= 'Z' }

  function DigitOf(n: nat): (c: char)
    requires n < 36
    ensures IsDigit(c) && ValueOf(c) == n
  {
    if n < 10 then '0' + n as char else 'A' + (n - 10) as char
  }

  function ValueOf(c: char): (n: nat)
    requires IsDigit(c)
    ensures n < 36 && (n == 0 ==> c == '0')
  {
    if c <= '9' then (c - '0') as nat else (c - 'A') as nat + 10
  }

  ghost predicate AllDigits(s: string) { forall i :: 0 <= i < |s| ==> IsDigit(s[i]) }

  /** The digits of a number, none for zero. */
  function Digits(n: nat): (s: string)
    ensures AllDigits(s) && (n > 0 ==> s != [] && s[0] != '0')
  {
    if n == 0 then [] else Digits(n / 36) + [DigitOf(n % 36)]
  }

  function Base36(n: nat): string { if n == 0 then "0" else Digits(n) }

  function Parsed(s: string): nat
    requires AllDigits(s)
  {
    if s == [] then 0 else Parsed(s[..|s| - 1]) * 36 + ValueOf(s[|s| - 1])
  }

  function Reversed(s: string): string { if s == [] then [] else [s[|s| - 1]] + Reversed(s[..|s| - 1]) }

  method EncodeBase36(value: nat) returns (text: string)
    ensures text == Base36(value)
  {
    if value == 0 {
      return "0";
    }
    var rest, output := value, [];
    while rest != 0
      invariant Digits(value) == Digits(rest) + Reversed(output)
    {
      ghost var before := output;
      var digit := rest % 36;
      output := output + [if digit < 10 then '0' + digit as char else 'A' + (digit - 10) as char];
      assert output[..|output| - 1] == before;
      rest := rest / 36;
    }
    text := Reversed(output);
  }

  /** How a number is written: "0", or digits with no leading zero. */
  ghost predicate Canonical(s: string) {
    AllDigits(s) && s != [] && (s[0] == '0' ==> s == "0")
  }

  lemma {:induction false} ParsedDigits(n: nat)
    ensures Parsed(Digits(n)) == n
  {
    if n > 0 {
      ParsedDigits(n / 36);
      assert Digits(n)[..|Digits(n)| - 1] == Digits(n / 36);
    }
  }

  /** Printing is canonical and reading undoes it. */
  lemma ParseUndoesPrint(n: nat)
    ensures Canonical(Base36(n)) && Parsed(Base36(n)) == n
  {
    ParsedDigits(n);
    if n == 0 {
      assert "0"[..0] == [];
      assert Parsed("0") == Parsed("0"[..0]) * 36 + ValueOf('0');
    }
  }

  lemma {:induction false} DigitsOfParsed(s: string)
    requires AllDigits(s) && s != [] && s[0] != '0'
    ensures Parsed(s) > 0 && Digits(Parsed(s)) == s
    decreases |s|
  {
    var most, last := s[..|s| - 1], ValueOf(s[|s| - 1]);
    var n := Parsed(most) * 36 + last;
    assert n / 36 == Parsed(most) && n % 36 == last;
    SameDigit(s[|s| - 1]);
    if |s| == 1 {
      assert most == [];
    } else {
      DigitsOfParsed(most);
    }
    assert s == most + [s[|s| - 1]];
  }

  lemma SameDigit(c: char)
    requires IsDigit(c)
    ensures DigitOf(ValueOf(c)) == c
  {
  }

  /** Printing undoes reading, so canonical texts and numbers are in bijection. */
  lemma PrintUndoesParse(s: string)
    requires Canonical(s)
    ensures Base36(Parsed(s)) == s
  {
    if s == "0" {
      ParseUndoesPrint(0);
    } else {
      DigitsOfParsed(s);
    }
  }

  // ---- The identifier ----

  function Suffix(underlying: Option<string>): string {
    match underlying case Some(sid) => "|" + sid case None => ""
  }

  function Text(ticker: string, packed: nat, underlying: Option<string>): string {
    Upper(ticker) + " " + Base36(packed) + Suffix(underlying)
  }

  datatype Contract = Contract(ticker: string, market: nat, securityType: nat, days: int, strike: real, right: nat,
                               style: nat, underlying: Option<string>) {
    function Fields(encoded: nat, scale: nat): Properties
      requires days >= 0
    {
      Properties(right, days, style, encoded, scale, market, securityType)
    }
  }

  /** What fits the layout: dates, market codes and strikes that the digits can hold. */
  ghost predicate Representable(c: Contract) {
    && 0 <= c.days < 100_000 && c.right <= 1 && (c.right == 1 ==> c.days <= 84_467)
    && c.style <= 1 && c.market < 1000 && c.securityType <= 11
    && FitsDecimal(c.strike) && IsWhole(Micros(c.strike)) && Normalized(c.strike).Ok?
    && ' ' !in c.ticker
  }

  ghost function PropertiesOf(c: Contract): Properties
    requires c.days >= 0 && Normalized(c.strike).Ok?
  {
    c.Fields(Normalized(c.strike).value.0, Normalized(c.strike).value.1)
  }

  ghost function SidOf(c: Contract): string
    requires c.days >= 0 && Normalized(c.strike).Ok?
  {
    Text(c.ticker, PropertiesOf(c).Packed() % U64, c.underlying)
  }

  lemma RepresentableFits(c: Contract)
    requires Representable(c)
    ensures var p := PropertiesOf(c);
            && p.InRange() && p.Packed() < U64 && p.Packed() % U64 == p.Packed()
            && c.strike == DecodedStrike(p.strike, p.scale)
  {
    var p := PropertiesOf(c);
    StrikeDecodesIff(c.strike);
    ScaleFits(c.strike);
    NoWrap(p);
  }

  function First(s: string, mark: char): (n: nat)
    ensures n <= |s| && (n < |s| <==> mark in s)
  {
    if s == [] || s[0] == mark then 0 else 1 + First(s[1..], mark)
  }

  lemma {:induction false} FirstMark(a: string, mark: char, s: string)
    requires mark !in a
    ensures First(a + [mark] + s, mark) == |a|
  {
    var whole := a + [mark] + s;
    if a == [] {
      assert whole[0] == mark;
    } else {
      assert whole[0] == a[0] && whole[1..] == a[1..] + [mark] + s;
      FirstMark(a[1..], mark, s);
    }
  }

  /** Texts split at their first separator. */
  lemma SplitsOnce(a: string, b: string, s: string, t: string, mark: char)
    requires a + [mark] + s == b + [mark] + t && mark !in a && mark !in b
    ensures a == b && s == t
  {
    var whole := a + [mark] + s;
    FirstMark(a, mark, s);
    FirstMark(b, mark, t);
    assert a == whole[..|a|] && b == whole[..|b|];
    assert s == whole[|a| + 1..] && t == whole[|b| + 1..];
  }

  lemma UpperHasNoSpace(ticker: string)
    requires ' ' !in ticker
    ensures ' ' !in Upper(ticker)
  {
  }

  lemma TextSplits(ticker: string, m: nat, u: Option<string>)
    ensures Text(ticker, m, u) == Upper(ticker) + [' '] + (Base36(m) + Suffix(u))
  {
  }

  lemma CanonicalBase36(n: nat)
    ensures AllDigits(Base36(n)) && Parsed(Base36(n)) == n
  {
    ParseUndoesPrint(n);
  }

  lemma SameText(ticker: string, other: string, m: nat, n: nat, u: Option<string>, v: Option<string>)
    requires ' ' !in ticker && ' ' !in other && Text(ticker, m, u) == Text(other, n, v)
    ensures Upper(ticker) == Upper(other) && m == n && u == v
  {
    UpperHasNoSpace(ticker);
    UpperHasNoSpace(other);
    TextSplits(ticker, m, u);
    TextSplits(other, n, v);
    SplitsOnce(Upper(ticker), Upper(other), Base36(m) + Suffix(u), Base36(n) + Suffix(v), ' ');
    CanonicalBase36(m);
    CanonicalBase36(n);
    SameCode(Base36(m), Base36(n), u, v);
  }

  lemma BarMarksUnderlying(code: string, u: Option<string>)
    requires AllDigits(code)
    ensures '|' in code + Suffix(u) <==> u.Some?
    ensures '|' !in code
  {
  }

  lemma SameMarkedCode(a: string, b: string, u: string, v: string)
    requires AllDigits(a) && AllDigits(b) && a + Suffix(Some(u)) == b + Suffix(Some(v))
    ensures a == b && u == v
  {
    assert a + Suffix(Some(u)) == a + ['|'] + u;
    assert b + Suffix(Some(v)) == b + ['|'] + v;
    SplitsOnce(a, b, u, v, '|');
  }

  lemma SameCode(a: string, b: string, u: Option<string>, v: Option<string>)
    requires AllDigits(a) && AllDigits(b) && a + Suffix(u) == b + Suffix(v)
    ensures a == b && u == v
  {
    BarMarksUnderlying(a, u);
    BarMarksUnderlying(b, v);
    if u.Some? {
      SameMarkedCode(a, b, u.value, v.value);
    } else {
      assert a + Suffix(u) == a && b + Suffix(v) == b;
    }
  }

  /** Distinct contracts get distinct identifiers; tickers are compared in upper case. */
  lemma SidIsLossless(c: Contract, d: Contract)
    requires Representable(c) && Representable(d) && SidOf(c) == SidOf(d)
    ensures d == c.(ticker := d.ticker) && Upper(c.ticker) == Upper(d.ticker)
  {
    RepresentableFits(c);
    RepresentableFits(d);
    var p, q := PropertiesOf(c), PropertiesOf(d);
    SameText(c.ticker, d.ticker, p.Packed(), q.Packed(), c.underlying, d.underlying);
    UnpackPacked(p);
    UnpackPacked(q);
  }

  // ---- Reading an identifier ----

  /** What is before the first mark, all of it where there is none, and what is after. */
  function Before(s: string, mark: char): string { s[..First(s, mark)] }

  function After(s: string, mark: char): string
    requires mark in s
  {
    s[First(s, mark) + 1..]
  }

  /** The text is the ticker in upper case, a space, and a base-36 code whose digits are the contract's own
      right, date, style, strike, market and security type; its underlying, if any, follows a bar. */
  ghost predicate ReadsAs(text: string, c: Contract) {
    && ' ' in text && Before(text, ' ') == Upper(c.ticker)
    && var rest := After(text, ' ');
    && AllDigits(Before(rest, '|'))
    && (c.underlying.None? <==> '|' !in rest)
    && (c.underlying.Some? ==> '|' in rest && After(rest, '|') == c.underlying.value)
    && var p := Unpacked(Parsed(Before(rest, '|')));
    && p.right == c.right && p.days == c.days && p.style == c.style && p.market == c.market
    && p.securityType == c.securityType && DecodedStrike(p.strike, p.scale) == c.strike
  }

  lemma SplitsAtMark(a: string, mark: char, s: string)
    requires mark !in a
    ensures mark in a + [mark] + s && Before(a + [mark] + s, mark) == a && After(a + [mark] + s, mark) == s
  {
    FirstMark(a, mark, s);
    assert (a + [mark] + s)[|a|] == mark;
  }

  lemma {:induction false} NoMark(s: string, mark: char)
    requires mark !in s
    ensures Before(s, mark) == s
  {
    if s != [] {
      NoMark(s[1..], mark);
    }
  }

  lemma CodeSplits(code: string, u: Option<string>)
    requires AllDigits(code)
    ensures var rest := code + Suffix(u);
            && Before(rest, '|') == code && (u.None? <==> '|' !in rest)
            && (u.Some? ==> '|' in rest && After(rest, '|') == u.value)
  {
    BarMarksUnderlying(code, u);
    if u.Some? {
      assert code + Suffix(u) == code + ['|'] + u.value;
      SplitsAtMark(code, '|', u.value);
    } else {
      assert code + Suffix(u) == code;
      NoMark(code, '|');
    }
  }

  /** The identifier of a representable contract reads as that contract. */
  lemma SidReadsBack(c: Contract)
    requires Representable(c)
    ensures ReadsAs(SidOf(c), c)
  {
    RepresentableFits(c);
    var p := PropertiesOf(c);
    UnpackPacked(p);
    UpperHasNoSpace(c.ticker);
    TextSplits(c.ticker, p.Packed(), c.underlying);
    SplitsAtMark(Upper(c.ticker), ' ', Base36(p.Packed()) + Suffix(c.underlying));
    CanonicalBase36(p.Packed());
    CodeSplits(Base36(p.Packed()), c.underlying);
  }

  lemma TextReadsAs(c: Contract, text: string)
    requires c.days >= 0 && Normalized(c.strike).Ok? && text == SidOf(c)
    ensures Representable(c) ==> ReadsAs(text, c)
  {
    if Representable(c) {
      SidReadsBack(c);
    }
  }

  method LeanSid(c: Contract) returns (r: Result<string>)
    ensures r.Ok? <==> c.days >= 0 && Normalized(c.strike).Ok?
    ensures r.Ok? ==> r.value == SidOf(c)
    ensures Representable(c) ==> r.Ok? && ReadsAs(r.value, c)
  {
    if c.days < 0 {
      return Err("LEAN SID date predates OLE Automation epoch");
    }
    var strike := NormalizeStrike(c.strike);
    if strike.Err? {
      return Err(strike.message);
    }
    var properties := c.right * PUT_CALL + c.days * DAYS + c.style * OPTION_STYLE + strike.value.0 * STRIKE
                      + strike.value.1 * STRIKE_SCALE + c.market * MARKET + c.securityType;
    var code := EncodeBase36(properties % U64);
    var text := Upper(c.ticker) + " " + code;
    if c.underlying.Some? {
      text := text + "|" + c.underlying.value;
    }
    r := Ok(text);
    TextReadsAs(c, text);
  }
}
