/** OSI option tickers: the printer of the core, and the parser of the Tradier brokerage. */
module OptionTicker {
  import opened Results
  import opened Reals
  import opened Ascii
  import opened Calendar

  datatype Right = Call | Put
  /** A contract; index options are told from equity options by their root alone. */
  datatype Contract = Contract(root: string, isIndex: bool, expiry: Date, right: Right, strike: real)

  predicate IsIndexRoot(root: string) {
    root in {"SPX", "NDX", "VIX", "RUT", "RUTW", "SPXW", "VIXW", "NDXP", "NQX"}
  }

  // ---- Printing ----

  /** `(strike * 1000).to_u64().unwrap_or(0)`. */
  function Thousandths(strike: real): nat {
    var n := (strike * 1000.0).Floor;
    if 0 <= n < 0x1_0000_0000_0000_0000 then n else 0
  }

  function DateText(d: Date): (s: string)
    ensures AllDecimal(s)
  {
    Printed(d.year % 100, 2) + Printed(d.month, 2) + Printed(d.day, 2)
  }

  function RightChar(r: Right): char { if r == Call then 'C' else 'P' }

  /** What follows the root. */
  function Tail(expiry: Date, right: Right, n: nat): string {
    DateText(expiry) + [RightChar(right)] + Printed(n, 8)
  }

  function FormatOptionTicker(root: string, strike: real, expiry: Date, right: Right): string {
    Upper(root) + Tail(expiry, right, Thousandths(strike))
  }

  // ---- Parsing ----

  /** The year of the hundred from `first` that ends in the two digits. */
  function YearOf(two: nat, first: int): int { first + (two - first) % 100 }

  function DateOf(s: string, first: int): Date
    requires |s| == 6 && AllDecimal(s)
  {
    Date(YearOf(NumberOf(s[..2]), first), NumberOf(s[2..4]), NumberOf(s[4..6]))
  }

  function ParseUpper(text: string, first: int): Option<Contract> {
    if |text| < 15 then None else
      var root, suffix := text[..|text| - 15], text[|text| - 15..];
      if root == "" || !AllDecimal(suffix[..6]) || !AllDecimal(suffix[7..]) then None else
        var expiry := DateOf(suffix[..6], first);
        if !ValidDate(expiry) || (suffix[6] != 'C' && suffix[6] != 'P') then None
        else Some(Contract(root, IsIndexRoot(root), expiry, if suffix[6] == 'C' then Call else Put,
                           NumberOf(suffix[7..]) as real / 1000.0))
  }

  /** Two-digit years resolve to the hundred years from `first`. */
  function ParseSymbol(value: string, first: int): Option<Contract> {
    ParseUpper(Upper(Trim(value)), first)
  }

  // ---- What the printed text reads as ----

  lemma {:induction false} TrimStartConcat(a: string, b: string)
    requires b != [] && !IsSpace(b[0])
    ensures TrimStart(a + b) == TrimStart(a) + b
  {
    if a == [] {
      assert a + b == b;
    } else if IsSpace(a[0]) {
      assert (a + b)[1..] == a[1..] + b;
      TrimStartConcat(a[1..], b);
    }
  }

  lemma {:induction false} TrimStartShortens(s: string)
    ensures |TrimStart(s)| <= |s| && (TrimStart(s) == s <==> s == [] || !IsSpace(s[0]))
    ensures |TrimStart(s)| == |s| ==> TrimStart(s) == s
    ensures TrimStart(s) == s[|s| - |TrimStart(s)|..]
  {
    if s != [] && IsSpace(s[0]) {
      TrimStartShortens(s[1..]);
    }
  }

  lemma TailShape(expiry: Date, right: Right, n: nat)
    requires ValidDate(expiry)
    ensures |DateText(expiry)| == 6 && DateText(expiry)[..2] == Printed(expiry.year % 100, 2)
    ensures DateText(expiry)[2..4] == Printed(expiry.month, 2) && DateText(expiry)[4..6] == Printed(expiry.day, 2)
    ensures |Printed(n, 8)| >= 8 && (|Printed(n, 8)| == 8 <==> n < 100_000_000)
  {
    assert Power10(2) == 100;
    EightDigits();
    PrintedLength(expiry.year % 100, 2);
    PrintedLength(expiry.month, 2);
    PrintedLength(expiry.day, 2);
    PrintedLength(n, 8);
  }

  lemma EightDigits()
    ensures Power10(8) == 100_000_000
  {
  }

  /** The parser sees the root without its leading white space, then the tail as printed. */
  lemma PrintedText(root: string, expiry: Date, right: Right, n: nat)
    requires ValidDate(expiry)
    ensures var tail := Tail(expiry, right, n);
            Upper(Trim(Upper(root) + tail)) == TrimStart(Upper(root)) + tail
  {
    var tail := Tail(expiry, right, n);
    TailShape(expiry, right, n);
    assert tail[|tail| - 1] == Printed(n, 8)[|Printed(n, 8)| - 1];
    forall i | 0 <= i < |tail| ensures UpperChar(tail[i]) == tail[i] {
      TailIsUpper(expiry, right, n, i);
    }
    TrimmedText(Upper(root), tail);
    TrimStartIsUpper(Upper(root));
    AlreadyUpper(TrimStart(Upper(root)) + tail);
  }

  predicate AllUpper(s: string) { forall i :: 0 <= i < |s| ==> UpperChar(s[i]) == s[i] }

  lemma TrimmedText(head: string, tail: string)
    requires tail != [] && !IsSpace(tail[0]) && !IsSpace(tail[|tail| - 1])
    ensures Trim(head + tail) == TrimStart(head) + tail
  {
    TrimStartConcat(head, tail);
    NothingToTrim(TrimStart(head) + tail);
  }

  lemma NothingToTrim(text: string)
    requires text != [] && !IsSpace(text[|text| - 1])
    ensures TrimEnd(text) == text
  {
  }

  lemma {:induction false} TrimStartIsUpper(s: string)
    requires AllUpper(s)
    ensures AllUpper(TrimStart(s))
  {
    if s != [] && IsSpace(s[0]) {
      TrimStartIsUpper(s[1..]);
    }
  }

  lemma AlreadyUpper(s: string)
    requires AllUpper(s)
    ensures Upper(s) == s
  {
  }

  lemma TailIsUpper(expiry: Date, right: Right, n: nat, i: nat)
    requires i < |Tail(expiry, right, n)|
    ensures UpperChar(Tail(expiry, right, n)[i]) == Tail(expiry, right, n)[i]
  {
  }

  function Read(root: string, expiry: Date, right: Right, n: nat, first: int): Option<Contract> {
    var seen := Date(YearOf(expiry.year % 100, first), expiry.month, expiry.day);
    if root == "" || !ValidDate(seen) then None
    else Some(Contract(root, IsIndexRoot(root), seen, right, n as real / 1000.0))
  }

  lemma ParseSplits(root: string, date: string, letter: char, digits: string, first: int)
    requires |date| == 6 && AllDecimal(date) && |digits| == 8 && AllDecimal(digits)
    ensures ParseUpper(root + (date + [letter] + digits), first) ==
            if root == "" || !ValidDate(DateOf(date, first)) || (letter != 'C' && letter != 'P') then None
            else Some(Contract(root, IsIndexRoot(root), DateOf(date, first), if letter == 'C' then Call else Put,
                               NumberOf(digits) as real / 1000.0))
  {
    var tail := date + [letter] + digits;
    var text := root + tail;
    assert text[..|text| - 15] == root && text[|text| - 15..] == tail;
    assert tail[..6] == date && tail[7..] == digits && tail[6] == letter;
  }

  lemma ReadsText(root: string, expiry: Date, right: Right, n: nat, first: int, date: string, digits: string)
    requires |date| == 6 && AllDecimal(date) && |digits| == 8 && AllDecimal(digits) && NumberOf(digits) == n
    requires DateOf(date, first) == Date(YearOf(expiry.year % 100, first), expiry.month, expiry.day)
    ensures ParseUpper(root + (date + [RightChar(right)] + digits), first) == Read(root, expiry, right, n, first)
  {
    ParseSplits(root, date, RightChar(right), digits, first);
  }

  /** Eight strike digits are read back as they are, with the year moved into the window. */
  lemma ReadsEightDigits(root: string, expiry: Date, right: Right, n: nat, first: int)
    requires ValidDate(expiry) && n < 100_000_000
    ensures ParseUpper(root + Tail(expiry, right, n), first) == Read(root, expiry, right, n, first)
  {
    TailShape(expiry, right, n);
    DateReads(expiry, first);
    NumberOfPrinted(n, 8);
    ReadsText(root, expiry, right, n, first, DateText(expiry), Printed(n, 8));
  }

  lemma DateReads(expiry: Date, first: int)
    requires ValidDate(expiry)
    ensures |DateText(expiry)| == 6
    ensures DateOf(DateText(expiry), first) == Date(YearOf(expiry.year % 100, first), expiry.month, expiry.day)
  {
    TailShape(expiry, Call, 0);
    NumberOfPrinted(expiry.year % 100, 2);
    NumberOfPrinted(expiry.month, 2);
    NumberOfPrinted(expiry.day, 2);
  }

  /** More digits push the right's letter out of place, and the text is refused. */
  lemma RefusesMoreDigits(root: string, expiry: Date, right: Right, n: nat, first: int)
    requires ValidDate(expiry) && n >= 100_000_000
    ensures ParseUpper(root + Tail(expiry, right, n), first) == None
  {
    var text, digits := root + Tail(expiry, right, n), Printed(n, 8);
    TailShape(expiry, right, n);
    var letter := |text| - |digits| - 1;
    assert text[letter] == RightChar(right);
    var suffix := text[|text| - 15..];
    if |digits| < 15 {
      assert suffix[..6][14 - |digits|] == text[letter];
    } else {
      assert suffix[6] == digits[|digits| - 9];
    }
  }

  // ---- The round trips ----

  predicate StrikeFits(strike: real) { 0.0 <= strike < 100_000.0 && IsWhole(strike * 1000.0) }

  predicate RootFits(root: string) { root != "" && Upper(root) == root && !IsSpace(root[0]) }

  predicate YearFits(year: int, first: int) { first <= year < first + 100 }

  /** What a ticker can carry. */
  predicate Printable(c: Contract, first: int) {
    RootFits(c.root) && YearFits(c.expiry.year, first) && StrikeFits(c.strike)
  }

  function Format(c: Contract): string { FormatOptionTicker(c.root, c.strike, c.expiry, c.right) }

  lemma WindowIff(year: int, first: int)
    ensures YearOf(year % 100, first) == year <==> YearFits(year, first)
  {
  }

  lemma StrikeIff(strike: real)
    ensures Thousandths(strike) < 100_000_000 && Thousandths(strike) as real / 1000.0 == strike <==> StrikeFits(strike)
  {
  }

  lemma RootIff(root: string)
    ensures TrimStart(Upper(root)) == root && root != "" <==> RootFits(root)
  {
    TrimStartShortens(Upper(root));
  }

  lemma ReadIff(c: Contract, first: int)
    requires ValidDate(c.expiry) && c.isIndex == IsIndexRoot(c.root)
    ensures var n := Thousandths(c.strike);
            n < 100_000_000 && Read(TrimStart(Upper(c.root)), c.expiry, c.right, n, first) == Some(c)
            <==> Printable(c, first)
  {
    RootIff(c.root);
    WindowIff(c.expiry.year, first);
    StrikeIff(c.strike);
  }

  /** Parsing a printed ticker gives the contract back exactly when the ticker can carry it. */
  lemma ParseUndoesFormatIff(c: Contract, first: int)
    requires ValidDate(c.expiry) && c.isIndex == IsIndexRoot(c.root)
    ensures ParseSymbol(Format(c), first) == Some(c) <==> Printable(c, first)
  {
    var n, root := Thousandths(c.strike), TrimStart(Upper(c.root));
    PrintedText(c.root, c.expiry, c.right, n);
    ReadIff(c, first);
    if n < 100_000_000 {
      ReadsEightDigits(root, c.expiry, c.right, n, first);
    } else {
      RefusesMoreDigits(root, c.expiry, c.right, n, first);
    }
  }

  /** Printing a parsed ticker gives the text that was parsed, trimmed and in upper case. */
  lemma FormatUndoesParse(value: string, first: int)
    requires ParseSymbol(value, first).Some?
    ensures Format(ParseSymbol(value, first).value) == Upper(Trim(value))
  {
    var text, c := Upper(Trim(value)), ParseSymbol(value, first).value;
    var suffix := text[|text| - 15..];
    RootReprints(Trim(value), |text| - 15);
    TailReprints(suffix, first);
    assert text == c.root + suffix;
  }

  lemma RootReprints(value: string, n: nat)
    requires n <= |value|
    ensures Upper(Upper(value)[..n]) == Upper(value)[..n]
  {
  }

  lemma TailReprints(suffix: string, first: int)
    requires |suffix| == 15 && AllDecimal(suffix[..6]) && AllDecimal(suffix[7..])
    requires suffix[6] == 'C' || suffix[6] == 'P'
    ensures var right := if suffix[6] == 'C' then Call else Put;
            Tail(DateOf(suffix[..6], first), right, Thousandths(NumberOf(suffix[7..]) as real / 1000.0)) == suffix
  {
    DateReprints(suffix[..6], first);
    StrikeText(suffix[7..]);
    assert suffix == suffix[..6] + [suffix[6]] + suffix[7..];
  }

  lemma StrikeText(digits: string)
    requires |digits| == 8 && AllDecimal(digits)
    ensures Printed(Thousandths(NumberOf(digits) as real / 1000.0), 8) == digits
  {
    PrintedNumberOf(digits);
    EightDigits();
    StrikeReprints(NumberOf(digits));
  }

  lemma DigitsFollow(root: string, date: string, letter: char, digits: string)
    requires |date| == 6
    ensures (root + (date + [letter] + digits))[|root| + 7..] == digits
  {
    var text := root + (date + [letter] + digits);
    assert text == (root + date + [letter]) + digits;
  }

  lemma TickerDigits(root: string, n: nat, expiry: Date, right: Right)
    requires ValidDate(expiry)
    ensures var text := Upper(root) + Tail(expiry, right, n);
            |text| >= |root| + 7 && text[|root| + 7..] == Printed(n, 8)
  {
    TailShape(expiry, right, n);
    DigitsFollow(Upper(root), DateText(expiry), RightChar(right), Printed(n, 8));
  }

  /** The digits of a printed strike are its whole thousandths, and zero where those are negative or do not fit 64
      bits. */
  lemma PrintedStrike(root: string, strike: real, expiry: Date, right: Right)
    requires ValidDate(expiry)
    ensures var text := FormatOptionTicker(root, strike, expiry, right);
            var from, n := |root| + 7, (strike * 1000.0).Floor;
            && |text| >= from && AllDecimal(text[from..])
            && NumberOf(text[from..]) == if 0 <= n < 0x1_0000_0000_0000_0000 then n else 0
  {
    TickerDigits(root, Thousandths(strike), expiry, right);
    NumberOfPrinted(Thousandths(strike), 8);
  }

  lemma OneMoreDigit(n: nat, width: nat, text: string, d: nat, m: nat)
    requires Printed(n, width) == text && d < 10 && m == n * 10 + d
    ensures Printed(m, width + 1) == text + ['0' + d as char]
  {
    assert m / 10 == n && m % 10 == d;
  }

  lemma TwoMoreDigits(n: nat, width: nat, text: string, d: nat, e: nat, m: nat)
    requires Printed(n, width) == text && d < 10 && e < 10 && m == n * 100 + d * 10 + e
    ensures Printed(m, width + 2) == text + ['0' + d as char, '0' + e as char]
  {
    OneMoreDigit(n, width, text, d, n * 10 + d);
    OneMoreDigit(n * 10 + d, width + 1, text + ['0' + d as char], e, m);
  }

  /** A call on SPY at 635 that expires on 10 August 2026. */
  lemma TickerOfACall(root: string, year: nat, month: nat, day: nat, thousandths: nat, dollars: nat)
    requires root == "SPY" && year == 2026 && month == 8 && day == 10 && thousandths == 635_000 && dollars == 635
    ensures FormatOptionTicker(root, 635.0, Date(year, month, day), Call)
            == "SPY" + ("26" + "08" + "10") + "C" + "00635000"
  {
    assert Upper(root) == root;
    TwoMoreDigits(0, 0, "", 2, 6, year % 100);
    TwoMoreDigits(0, 0, "", 0, 8, month);
    TwoMoreDigits(0, 0, "", 1, 0, day);
    DateTextIs(Date(year, month, day), "26", "08", "10");
    StrikeText635(thousandths, dollars);
  }

  lemma StrikeText635(n: nat, k: nat)
    requires n == 635_000 && k == 635
    ensures Printed(n, 8) == "00635000"
  {
    TwoMoreDigits(0, 0, "", 0, 0, 0);
    TwoMoreDigits(0, 2, "00", 6, 3, 63);
    OneMoreDigit(63, 4, "0063", 5, k);
    TwoMoreDigits(k, 5, "00635", 0, 0, k * 100);
    OneMoreDigit(k * 100, 7, "0063500", 0, n);
  }

  lemma StrikeReprints(n: nat)
    requires n < 100_000_000
    ensures Thousandths(n as real / 1000.0) == n
  {
  }

  lemma YearReprints(two: nat, first: int)
    requires two < 100
    ensures YearOf(two, first) % 100 == two
  {
  }

  lemma TwoDigits(s: string)
    requires |s| == 2 && AllDecimal(s)
    ensures NumberOf(s) < 100 && Printed(NumberOf(s), 2) == s
  {
    assert Power10(2) == 100;
    PrintedNumberOf(s);
  }

  lemma YearText(s: string, first: int)
    requires |s| == 2 && AllDecimal(s)
    ensures Printed(YearOf(NumberOf(s), first) % 100, 2) == s
  {
    TwoDigits(s);
    YearReprints(NumberOf(s), first);
  }

  lemma DateTextIs(d: Date, year: string, month: string, day: string)
    requires Printed(d.year % 100, 2) == year && Printed(d.month, 2) == month && Printed(d.day, 2) == day
    ensures DateText(d) == year + month + day
  {
  }

  lemma ThreePairs(s: string)
    requires |s| == 6
    ensures s == s[..2] + s[2..4] + s[4..6]
  {
  }

  lemma DateReprints(s: string, first: int)
    requires |s| == 6 && AllDecimal(s)
    ensures DateText(DateOf(s, first)) == s
  {
    YearText(s[..2], first);
    TwoDigits(s[2..4]);
    TwoDigits(s[4..6]);
    DateTextIs(DateOf(s, first), s[..2], s[2..4], s[4..6]);
    ThreePairs(s);
  }
}
