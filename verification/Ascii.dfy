/** ASCII text: case, white space and decimal digits. */
module Ascii {
  function UpperChar(c: char): char { if 'a' <= c <= 'z' then 'A' + (c - 'a') else c }

  function Upper(s: string): (u: string)
    ensures |u| == |s| && forall i :: 0 <= i < |s| ==> u[i] == UpperChar(s[i])
  {
    seq(|s|, i requires 0 <= i < |s| => UpperChar(s[i]))
  }

  predicate IsSpace(c: char) { c == ' ' || '\t' <= c <= '\r' }

  function TrimStart(s: string): string {
    if s != [] && IsSpace(s[0]) then TrimStart(s[1..]) else s
  }

  function TrimEnd(s: string): string {
    if s != [] && IsSpace(s[|s| - 1]) then TrimEnd(s[..|s| - 1]) else s
  }

  function Trim(s: string): string { TrimEnd(TrimStart(s)) }

  predicate IsDecimal(c: char) { '0' <= c <= '9' }

  predicate AllDecimal(s: string) { forall i :: 0 <= i < |s| ==> IsDecimal(s[i]) }

  /** The decimal digits of `n`, with zeros in front up to `width` of them. */
  function Printed(n: nat, width: nat): (s: string)
    ensures AllDecimal(s)
    decreases n + width
  {
    if n == 0 && width == 0 then [] else
      Printed(n / 10, if width > 0 then width - 1 else 0) + ['0' + (n % 10) as char]
  }

  function NumberOf(s: string): nat
    requires AllDecimal(s)
  {
    if s == [] then 0 else NumberOf(s[..|s| - 1]) * 10 + (s[|s| - 1] - '0') as nat
  }

  function Power10(n: nat): (p: nat)
    ensures p >= 1
  {
    if n == 0 then 1 else 10 * Power10(n - 1)
  }

  /** A number that fits its width is printed in exactly that many digits, another in more. */
  lemma {:induction false} PrintedLength(n: nat, width: nat)
    ensures n < Power10(width) ==> |Printed(n, width)| == width
    ensures n >= Power10(width) ==> |Printed(n, width)| > width
    decreases n + width
  {
    if width > 0 {
      PrintedLength(n / 10, width - 1);
    } else if n > 0 {
      PrintedLength(n / 10, 0);
    }
  }

  lemma {:induction false} NumberOfPrinted(n: nat, width: nat)
    ensures NumberOf(Printed(n, width)) == n
    decreases n + width
  {
    if n > 0 || width > 0 {
      var w := if width > 0 then width - 1 else 0;
      NumberOfPrinted(n / 10, w);
      assert Printed(n, width)[..|Printed(n, width)| - 1] == Printed(n / 10, w);
    }
  }

  lemma {:induction false} PrintedNumberOf(s: string)
    requires AllDecimal(s)
    ensures Printed(NumberOf(s), |s|) == s && NumberOf(s) < Power10(|s|)
  {
    if s != [] {
      var most, digit := s[..|s| - 1], (s[|s| - 1] - '0') as nat;
      PrintedNumberOf(most);
      assert NumberOf(s) / 10 == NumberOf(most) && NumberOf(s) % 10 == digit;
      assert '0' + digit as char == s[|s| - 1];
    }
  }
}
