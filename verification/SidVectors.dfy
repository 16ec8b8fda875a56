/** Identifiers of options and of their underlyings, and the texts LEAN itself gives to six of them. */
module SidVectors {
  import opened Results
  import opened Reals
  import opened Ascii
  import opened Calendar
  import opened Sid

  // ---- Options ----

  const INDEX := 10
  const FUTURE := 5

  /** The security type of an option on a security type: index option, future option, or option. */
  function OptionType(underlying: nat): nat {
    if underlying == INDEX then 9 else if underlying == FUTURE then 8 else 2
  }

  /** A security that is not a derivative: no strike, and the codes of an American call. */
  function Plain(ticker: string, market: nat, securityType: nat, days: int): Contract {
    Contract(ticker, market, securityType, days, 0.0, 0, 0, None)
  }

  /** `lean_option_sid`. */
  /** `lean_option_sid`: the option's text carries its underlying's. */
  /** `lean_option_sid`: the option's text carries its underlying's. */
  method LeanOptionSid(underlying: Contract, option: Contract) returns (r: Result<string>)
    requires underlying == Plain(underlying.ticker, underlying.market, underlying.securityType, underlying.days)
    requires option.ticker == underlying.ticker && option.market == underlying.market && option.underlying.None?
    requires option.securityType == OptionType(underlying.securityType)
    ensures Representable(underlying) && Representable(option) ==>
              && r.Ok? && ReadsAs(r.value, option.(underlying := Some(SidOf(underlying))))
              && ReadsAs(SidOf(underlying), underlying)
  {
    var sid := LeanSid(underlying);
    if sid.Err? { return sid; }
    r := LeanSid(option.(underlying := Some(sid.value)));
  }

  // ---- Numerals, three digits at a time ----

  lemma OneMoreDigit(n: nat, text: string, c: char, m: nat)
    requires IsDigit(c) && Digits(n) == text && m == n * 36 + ValueOf(c) && m > 0
    ensures Digits(m) == text + [c]
  {
    assert m / 36 == n && m % 36 == ValueOf(c);
    SameDigit(c);
  }

  /** `m` has three more digits than `n`. */
  ghost predicate Follows(n: nat, a: char, b: char, c: char, m: nat) {
    && IsDigit(a) && IsDigit(b) && IsDigit(c)
    && m == ((n * 36 + ValueOf(a)) * 36 + ValueOf(b)) * 36 + ValueOf(c)
  }

  lemma SixMoreDigits(k: nat, text: string, a: char, b: char, c: char, m: nat, d: char, e: char, f: char, n: nat)
    requires k > 0 && Digits(k) == text && Follows(k, a, b, c, m) && Follows(m, d, e, f, n)
    ensures Base36(n) == text + [a, b, c] + [d, e, f]
  {
    ThreeMoreDigits(k, text, a, b, c, m);
    ThreeMoreDigits(m, text + [a, b, c], d, e, f, n);
  }

  /** `m` is written as `n` is, with three more digits. */
  lemma ThreeMoreDigits(n: nat, text: string, a: char, b: char, c: char, m: nat)
    requires IsDigit(a) && IsDigit(b) && IsDigit(c) && Digits(n) == text && (n > 0 || ValueOf(a) > 0)
    requires m == ((n * 36 + ValueOf(a)) * 36 + ValueOf(b)) * 36 + ValueOf(c)
    ensures Digits(m) == text + [a, b, c]
  {
    var k := n * 36 + ValueOf(a);
    var l := k * 36 + ValueOf(b);
    OneMoreDigit(n, text, a, k);
    OneMoreDigit(k, text + [a], b, l);
    OneMoreDigit(l, text + [a] + [b], c, m);
    assert text + [a] + [b] + [c] == text + [a, b, c];
  }

  lemma StartsR735QT(n: nat, m: nat)
    requires n == 1_644_491_477 && m == 35_247
    ensures Digits(n) == "R735QT"
  {
    ThreeMoreDigits(0, "", 'R', '7', '3', m);
    ThreeMoreDigits(m, "R73", '5', 'Q', 'T', n);
  }

  lemma UnderlyingCode(n: nat, m: nat, k: nat)
    requires k == 1_644_491_477 && Follows(k, 'J', '8', 'X', m) && Follows(m, 'C', '9', 'X', n)
    ensures Base36(n) == "R735QTJ8XC9X"
  {
    StartsR735QT(k, 35_247);
    SixMoreDigits(k, "R735QT", 'J', '8', 'X', m, 'C', '9', 'X', n);
  }

  lemma StartsXEOLB4(n: nat, m: nat)
    requires n == 2_020_045_792 && m == 43_296
    ensures Digits(n) == "XEOLB4"
  {
    ThreeMoreDigits(0, "", 'X', 'E', 'O', m);
    ThreeMoreDigits(m, "XEO", 'L', 'B', '4', n);
  }

  lemma AmericanCallCode(n: nat, m: nat, k: nat)
    requires k == 2_020_045_792 && Follows(k, 'Y', 'A', 'U', m) && Follows(m, 'I', 'N', 'A', n)
    ensures Base36(n) == "XEOLB4YAUINA"
  {
    StartsXEOLB4(k, 43_296);
    SixMoreDigits(k, "XEOLB4", 'Y', 'A', 'U', m, 'I', 'N', 'A', n);
  }

  lemma Starts31DSLGK(n: nat, m: nat)
    requires n == 6_613_982_372 && m == 141_760
    ensures Digits(n) == "31DSLGK"
  {
    OneMoreDigit(0, "", '3', 3);
    ThreeMoreDigits(3, "3", '1', 'D', 'S', m);
    ThreeMoreDigits(m, "31DS", 'L', 'G', 'K', n);
  }

  lemma AmericanPutCode(n: nat, m: nat, k: nat)
    requires k == 6_613_982_372 && Follows(k, 'X', 'I', '4', m) && Follows(m, 'C', '1', '2', n)
    ensures Base36(n) == "31DSLGKXI4C12"
  {
    Starts31DSLGK(k, 141_760);
    SixMoreDigits(k, "31DSLGK", 'X', 'I', '4', m, 'C', '1', '2', n);
  }

  lemma StartsXEOOUQ(n: nat, m: nat)
    requires n == 2_020_050_386 && m == 43_296
    ensures Digits(n) == "XEOOUQ"
  {
    ThreeMoreDigits(0, "", 'X', 'E', 'O', m);
    ThreeMoreDigits(m, "XEO", 'O', 'U', 'Q', n);
  }

  lemma EuropeanCallCode(n: nat, m: nat, k: nat)
    requires k == 2_020_050_386 && Follows(k, 'W', '0', 'N', m) && Follows(m, 'L', 'D', '2', n)
    ensures Base36(n) == "XEOOUQW0NLD2"
  {
    StartsXEOOUQ(k, 43_296);
    SixMoreDigits(k, "XEOOUQ", 'W', '0', 'N', m, 'L', 'D', '2', n);
  }

  lemma Starts31DSP06(n: nat, m: nat)
    requires n == 6_613_986_966 && m == 141_760
    ensures Digits(n) == "31DSP06"
  {
    OneMoreDigit(0, "", '3', 3);
    ThreeMoreDigits(3, "3", '1', 'D', 'S', m);
    ThreeMoreDigits(m, "31DS", 'P', '0', '6', n);
  }

  lemma EuropeanPutCode(n: nat, m: nat, k: nat)
    requires k == 6_613_986_966 && Follows(k, 'V', '7', 'X', m) && Follows(m, 'E', 'Q', 'U', n)
    ensures Base36(n) == "31DSP06V7XEQU"
  {
    Starts31DSP06(k, 141_760);
    SixMoreDigits(k, "31DSP06", 'V', '7', 'X', m, 'E', 'Q', 'U', n);
  }

  lemma CentCallCode(n: nat, m: nat, k: nat)
    requires k == 2_020_045_792 && Follows(k, 'Y', 'A', 'L', m) && Follows(m, 'Y', '0', '6', n)
    ensures Base36(n) == "XEOLB4YALY06"
  {
    StartsXEOLB4(k, 43_296);
    SixMoreDigits(k, "XEOLB4", 'Y', 'A', 'L', m, 'Y', '0', '6', n);
  }

  lemma CentPutCode(n: nat, m: nat, k: nat)
    requires k == 6_613_982_372 && Follows(k, 'X', 'H', 'V', m) && Follows(m, 'R', 'D', 'Y', n)
    ensures Base36(n) == "31DSLGKXHVRDY"
  {
    Starts31DSLGK(k, 141_760);
    SixMoreDigits(k, "31DSLGK", 'X', 'H', 'V', m, 'R', 'D', 'Y', n);
  }

  // ---- The texts LEAN gives to options on Apple expiring on 21 May 2020 ----

  lemma PackedIs(c: Contract, encoded: nat, scale: nat)
    requires c.days >= 0 && Normalized(c.strike) == Ok((encoded, scale))
    ensures PropertiesOf(c).Packed()
            == c.right * PUT_CALL + c.days * DAYS + c.style * OPTION_STYLE + encoded * STRIKE + scale * STRIKE_SCALE
               + c.market * MARKET + c.securityType
  {
  }

  lemma TextIs(c: Contract, p: nat, code: string, upper: string)
    requires c.days >= 0 && Normalized(c.strike).Ok? && PropertiesOf(c).Packed() == p < U64
    requires Base36(p) == code && Upper(c.ticker) == upper
    ensures SidOf(c) == upper + " " + code + Suffix(c.underlying)
  {
  }

  lemma UpperApple(ticker: string)
    requires ticker == "AAPL"
    ensures Upper(ticker) == ticker
  {
  }

  lemma HundredNormalized()
    ensures Normalized(100.0) == Ok((1, 8))
  {
  }

  lemma CentNormalized()
    ensures Normalized(0.01) == Ok((1, 4))
  {
  }

  lemma TheDates()
    ensures DayNumber(Date(1998, 1, 2)) == 35_797 && DayNumber(Date(2020, 5, 21)) == 43_972
  {
  }

  /** Apple, listed on 2 January 1998. */
  lemma UnderlyingText(c: Contract)
    requires c == Plain("AAPL", 1, 1, DayNumber(Date(1998, 1, 2)))
    ensures SidOf(c) == "AAPL" + " " + "R735QTJ8XC9X" + ""
  {
    TheDates();
    UpperApple(c.ticker);
    PackedIs(c, 0, 0);
    var p := PropertiesOf(c).Packed();
    UnderlyingCode(p, 76_725_394_375_857, 1_644_491_477);
    TextIs(c, p, "R735QTJ8XC9X", "AAPL");
  }

  ghost predicate AppleOption(c: Contract, strike: real, right: nat, style: nat) {
    c == Contract("AAPL", 1, OptionType(1), DayNumber(Date(2020, 5, 21)), strike, right, style,
                  Some("AAPL R735QTJ8XC9X"))
  }

  /** Calls and puts at 100, American and European, and American ones at one cent. */
  lemma AmericanCallText(c: Contract)
    requires AppleOption(c, 100.0, 0, 0)
    ensures Normalized(c.strike).Ok? && SidOf(c) == "AAPL" + " " + "XEOLB4YAUINA" + ("|" + "AAPL R735QTJ8XC9X")
  {
    TheDates();
    HundredNormalized();
    PackedIs(c, 1, 8);
    var p := PropertiesOf(c).Packed();
    AmericanCallCode(p, 94_247_256_516_006, 2_020_045_792);
    UpperApple(c.ticker);
    TextIs(c, p, "XEOLB4YAUINA", "AAPL");
  }

  lemma AmericanPutText(c: Contract)
    requires AppleOption(c, 100.0, 1, 0)
    ensures Normalized(c.strike).Ok? && SidOf(c) == "AAPL" + " " + "31DSLGKXI4C12" + ("|" + "AAPL R735QTJ8XC9X")
  {
    TheDates();
    HundredNormalized();
    PackedIs(c, 1, 8);
    var p := PropertiesOf(c).Packed();
    AmericanPutCode(p, 308_581_961_591_452, 6_613_982_372);
    UpperApple(c.ticker);
    TextIs(c, p, "31DSLGKXI4C12", "AAPL");
  }

  lemma EuropeanCallText(c: Contract)
    requires AppleOption(c, 100.0, 0, 1)
    ensures Normalized(c.strike).Ok? && SidOf(c) == "AAPL" + " " + "XEOOUQW0NLD2" + ("|" + "AAPL R735QTJ8XC9X")
  {
    TheDates();
    HundredNormalized();
    PackedIs(c, 1, 8);
    var p := PropertiesOf(c).Packed();
    EuropeanCallCode(p, 94_247_470_850_711, 2_020_050_386);
    UpperApple(c.ticker);
    TextIs(c, p, "XEOOUQW0NLD2", "AAPL");
  }

  lemma EuropeanPutText(c: Contract)
    requires AppleOption(c, 100.0, 1, 1)
    ensures Normalized(c.strike).Ok? && SidOf(c) == "AAPL" + " " + "31DSP06V7XEQU" + ("|" + "AAPL R735QTJ8XC9X")
  {
    TheDates();
    HundredNormalized();
    PackedIs(c, 1, 8);
    var p := PropertiesOf(c).Packed();
    EuropeanPutCode(p, 308_582_175_926_157, 6_613_986_966);
    UpperApple(c.ticker);
    TextIs(c, p, "31DSP06V7XEQU", "AAPL");
  }

  lemma CentCallText(c: Contract)
    requires AppleOption(c, 0.01, 0, 0)
    ensures Normalized(c.strike).Ok? && SidOf(c) == "AAPL" + " " + "XEOLB4YALY06" + ("|" + "AAPL R735QTJ8XC9X")
  {
    TheDates();
    CentNormalized();
    PackedIs(c, 1, 4);
    var p := PropertiesOf(c).Packed();
    CentCallCode(p, 94_247_256_515_997, 2_020_045_792);
    UpperApple(c.ticker);
    TextIs(c, p, "XEOLB4YALY06", "AAPL");
  }

  lemma CentPutText(c: Contract)
    requires AppleOption(c, 0.01, 1, 0)
    ensures Normalized(c.strike).Ok? && SidOf(c) == "AAPL" + " " + "31DSLGKXHVRDY" + ("|" + "AAPL R735QTJ8XC9X")
  {
    TheDates();
    CentNormalized();
    PackedIs(c, 1, 4);
    var p := PropertiesOf(c).Packed();
    CentPutCode(p, 308_581_961_591_443, 6_613_982_372);
    UpperApple(c.ticker);
    TextIs(c, p, "31DSLGKXHVRDY", "AAPL");
  }
}
