/**
  `itoa` of llab/gpu/utils.c: writes the decimal form of a 32-bit `int` into
  a caller-supplied char buffer, followed by the terminating '\0', and
  returns the buffer.

  The C routine first writes '-' for a negative value and negates it, then
  counts the digits with a do-while loop that moves p one cell per
  digit, writes '\0' there, and finally walks back writing `i % 10` digits
  until `i` is 0. `INT_MIN` cannot be negated in 32 bits, so it is excluded.
*/
module Itoa {

  const INT_MIN: int := -2147483648
  const INT_MAX: int := 2147483647

  /** The `digit` table of the C routine. */
  const DigitTable: seq<char> := "0123456789"

  function DigitChar(d: int): (c: char)
    requires 0 <= d < 10
    ensures '0' <= c <= '9' && c as int - '0' as int == d
  {
    DigitTable[d]
  }

  /** Decimal digits of n, most significant first, no leading zeros. */
  function Digits(n: nat): seq<char>
  {
    if n < 10 then [DigitChar(n)] else Digits(n / 10) + [DigitChar(n % 10)]
  }

  /** The string itoa produces (without its terminator). */
  function DecimalString(i: int): seq<char>
  {
    if i < 0 then ['-'] + Digits(-i) else Digits(i)
  }

  function NumDigits(n: nat): nat
  {
    if n < 10 then 1 else 1 + NumDigits(n / 10)
  }

  /** The value of a string of decimal digits. */
  function ParseDigits(s: seq<char>): int
  {
    if s == [] then 0 else 10 * ParseDigits(s[..|s| - 1]) + (s[|s| - 1] as int - '0' as int)
  }

  /** Reading back a string produced by itoa. */
  function ParseDecimal(s: seq<char>): int
  {
    if s != [] && s[0] == '-' then -ParseDigits(s[1..]) else ParseDigits(s)
  }

  predicate AllDigits(s: seq<char>)
  {
    forall k :: 0 <= k < |s| ==> '0' <= s[k] <= '9'
  }

  lemma {:induction false} DigitsLength(n: nat)
    ensures |Digits(n)| == NumDigits(n)
    decreases n
  {
    if n >= 10 {
      DigitsLength(n / 10);
    }
  }

  lemma {:induction false} DigitsShape(n: nat)
    ensures |Digits(n)| == NumDigits(n)
    ensures AllDigits(Digits(n))
    ensures Digits(n)[0] == '0' <==> n == 0
    decreases n
  {
    if n >= 10 {
      DigitsShape(n / 10);
      assert Digits(n)[0] == Digits(n / 10)[0];
    }
  }

  lemma {:induction false} DigitsRoundTrip(n: nat)
    ensures ParseDigits(Digits(n)) == n
    decreases n
  {
    if n >= 10 {
      DigitsRoundTrip(n / 10);
      var s := Digits(n);
      assert s[..|s| - 1] == Digits(n / 10);
    } else {
      var s := Digits(n);
      assert s[..|s| - 1] == [];
    }
  }

  /** The output of itoa is '-' exactly for a negative value, followed by
      digits only, with no leading zero unless the value is 0, which yields
      "0"; and it reads back as the value it came from. */
  lemma DecimalStringCorrect(i: int)
    ensures var s := DecimalString(i);
      && |s| >= 1
      && (s[0] == '-' <==> i < 0)
      && AllDigits(if i < 0 then s[1..] else s)
      && (i == 0 <==> s == "0")
      && (i != 0 ==> s[if i < 0 then 1 else 0] != '0')
      && ParseDecimal(s) == i
  {
    var n: nat := if i < 0 then -i else i;
    DigitsShape(n);
    DigitsRoundTrip(n);
    var s := DecimalString(i);
    if i < 0 {
      assert s[1..] == Digits(n);
    } else if i == 0 {
      assert s == "0";
    } else {
      assert Digits(n)[0] != '-';
    }
  }

  /** A value below 10^k has at most k digits. */
  lemma {:induction false} NumDigitsBound(n: nat, k: nat, p: nat)
    requires k >= 1 && n < p && p == Pow10(k)
    ensures NumDigits(n) <= k
    decreases k
  {
    if n >= 10 {
      assert k != 1;
      assert n / 10 < Pow10(k - 1);
      NumDigitsBound(n / 10, k - 1, Pow10(k - 1));
    }
  }

  function Pow10(k: nat): (r: nat)
    ensures r >= 1
  {
    if k == 0 then 1 else 10 * Pow10(k - 1)
  }

  /** Every representable value but INT_MIN fits a 12-char buffer: at most
      a sign and ten digits, plus the terminator. */
  lemma TwelveCharsSuffice(i: int)
    requires INT_MIN < i <= INT_MAX
    ensures |DecimalString(i)| + 1 <= 12
  {
    var n: nat := if i < 0 then -i else i;
    DigitsShape(n);
    assert Pow10(10) == 10000000000;
    NumDigitsBound(n, 10, Pow10(10));
  }

  /** The digit-counting do-while loop leaves p at start + NumDigits(i). */
  method CountDigits(i: nat, start: nat) returns (p: nat)
    ensures p == start + NumDigits(i)
  {
    p := start;
    var shifter := i;
    p := p + 1;
    shifter := shifter / 10;
    while shifter != 0
      invariant p - start + (if shifter == 0 then 0 else NumDigits(shifter)) == NumDigits(i)
      decreases shifter
    {
      p := p + 1;
      shifter := shifter / 10;
    }
  }

  /** The backward do-while loop: starting one cell past the last digit, it
      writes the digits of n from least to most significant, ending at start;
      no other cell changes. */
  method WriteDigits(b: array<char>, n: nat, start: nat)
    requires start + NumDigits(n) <= b.Length
    modifies b
    ensures b[start..start + NumDigits(n)] == Digits(n)
    ensures b[..start] == old(b[..start])
    ensures b[start + NumDigits(n)..] == old(b[start + NumDigits(n)..])
  {
    var end := start + NumDigits(n);
    var p := end - 1;
    PendingStart(n);
    PutBefore(b, p, end, DigitChar(n % 10));
    var m: nat := n / 10;
    while m != 0
      invariant start <= p < end
      invariant Pending(b[p..end], n, m, p - start)
      invariant forall k :: 0 <= k < b.Length && !(p <= k < end) ==> b[k] == old(b[k])
      decreases m
    {
      p, m := WriteNextDigit(b, n, m, start, p, end);
    }
  }

  /** One pass of the backward loop: the next lower cell gets the last
      pending digit, and the loop state is kept. */
  method WriteNextDigit(b: array<char>, n: nat, m: nat, start: nat, p: nat, end: nat)
      returns (p': nat, m': nat)
    requires start <= p < end <= b.Length && m != 0
    requires Pending(b[p..end], n, m, p - start)
    modifies b
    ensures start <= p' < end && p' == p - 1 && m' == m / 10
    ensures Pending(b[p'..end], n, m', p' - start)
    ensures forall k :: 0 <= k < b.Length && k != p' ==> b[k] == old(b[k])
  {
    PendingStep(b[p..end], n, m, p - start);
    PutBefore(b, p - 1, end, DigitChar(m % 10));
    p' := p - 1;
    m' := m / 10;
  }

  /** Loop state of the backward loop: the cells written so far, preceded by
      the digits of the value still to write, spell the digits of n. */
  ghost predicate Pending(written: seq<char>, n: nat, m: nat, room: nat)
  {
    if m == 0 then room == 0 && written == Digits(n)
    else room == NumDigits(m) && Digits(m) + written == Digits(n)
  }

  /** One step of the backward loop: the cell before b[p + 1..end] gets c. */
  method PutBefore(b: array<char>, p: nat, end: nat, c: char)
    requires p < end <= b.Length
    modifies b
    ensures b[p..end] == [c] + old(b[p + 1..end])
    ensures forall k :: 0 <= k < b.Length && k != p ==> b[k] == old(b[k])
  {
    b[p] := c;
    assert b[p + 1..end] == old(b[p + 1..end]);
  }

  /** The first pass of the do-while loop, which also handles n == 0. */
  lemma PendingStart(n: nat)
    ensures NumDigits(n) >= 1
    ensures Pending([DigitChar(n % 10)] + [], n, n / 10, NumDigits(n) - 1)
  {
    if n > 0 {
      PendingStep([], n, n, NumDigits(n));
    }
  }

  /** Writing the last pending digit keeps the loop state. */
  lemma PendingStep(written: seq<char>, n: nat, m: nat, room: nat)
    requires m > 0 && Pending(written, n, m, room)
    ensures room >= 1 && Pending([DigitChar(m % 10)] + written, n, m / 10, room - 1)
  {
    var front := if m / 10 == 0 then [] else Digits(m / 10);
    assert Digits(m) == front + [DigitChar(m % 10)];
    assert front + ([DigitChar(m % 10)] + written) == Digits(m) + written;
  }

  /** `itoa(i, b)`: b starts with the decimal form of i followed by '\0'; the
      cells after the terminator are untouched, and the result is b. */
  method Itoa(i: int, b: array<char>) returns (r: array<char>)
    requires INT_MIN < i <= INT_MAX
    requires |DecimalString(i)| < b.Length
    modifies b
    ensures r == b
    ensures b[..|DecimalString(i)|] == DecimalString(i)
    ensures b[|DecimalString(i)|] == '\0'
    ensures b[|DecimalString(i)| + 1..] == old(b[|DecimalString(i)| + 1..])
  {
    var n: nat := if i < 0 then -i else i;
    var start: nat := if i < 0 then 1 else 0;
    ghost var s := DecimalString(i);
    assert s == (if i < 0 then ['-'] else []) + Digits(n);
    DigitsLength(n);
    if i < 0 {
      b[0] := '-';
    }
    var p := CountDigits(n, start);
    assert p == |s|;
    b[p] := '\0';
    WriteDigits(b, n, start);
    assert b[..p] == b[..start] + b[start..p];
    r := b;
  }
}
