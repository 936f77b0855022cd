/**
  The few PHP value rules the gateway's decisions depend on: which strings
  PHP treats as false, `strtolower` on ASCII text, and how a posted string is
  turned into an integer array key (the saved-card radio value and its lookup).
 */
module Php {

  /** `! $s` for a string: PHP treats exactly "" and "0" as false
      (an unset setting reads as null, which the callers pass as ""). */
  predicate Falsy(s: string) {
    s == "" || s == "0"
  }

  /** `strtolower` on one character, ASCII letters only. */
  function LowerChar(c: char): (r: char)
    ensures 'A' <= c <= 'Z' ==> r as int == c as int + 32
    ensures !('A' <= c <= 'Z') ==> r == c
  {
    if 'A' <= c <= 'Z' then (c as int + 32) as char else c
  }

  /** `strtolower` on a string, character by character. */
  function Lower(s: string): (r: string)
    ensures |r| == |s|
    ensures forall i :: 0 <= i < |s| ==> r[i] == LowerChar(s[i])
  {
    if s == [] then [] else [LowerChar(s[0])] + Lower(s[1..])
  }

  predicate IsDigit(c: char) {
    '0' <= c <= '9'
  }

  function DigitChar(d: nat): (c: char)
    requires d < 10
    ensures IsDigit(c)
  {
    ('0' as int + d) as char
  }

  function DigitValue(c: char): (d: nat)
    requires IsDigit(c)
    ensures d < 10 && DigitChar(d) == c
  {
    c as int - '0' as int
  }

  /** The decimal text PHP prints for a non-negative integer (`echo $i`). */
  function DecimalText(n: nat): (s: string)
    ensures |s| > 0
    decreases n
  {
    if n < 10 then [DigitChar(n)] else DecimalText(n / 10) + [DigitChar(n % 10)]
  }

  predicate AllDigits(s: string) {
    forall i :: 0 <= i < |s| ==> IsDigit(s[i])
  }

  /** A string PHP turns into a non-negative integer array key: decimal
      digits without a leading zero, or "0" itself. */
  predicate CanonicalDecimal(s: string) {
    |s| > 0 && AllDigits(s) && (|s| == 1 || s[0] != '0')
  }

  function DecimalValue(s: string): nat
    requires AllDigits(s)
    decreases |s|
  {
    if s == [] then 0 else DecimalValue(s[..|s| - 1]) * 10 + DigitValue(s[|s| - 1])
  }

  /** The integer key `$array[$s]` looks up, when the posted string `s`
      names one; None when PHP keeps `s` as a string key (which a list does
      not have) or when `s` names a negative key (which a list does not have
      either). */
  function IndexKey(s: string): (k: Option<nat>)
    ensures k.Some? <==> CanonicalDecimal(s)
  {
    if CanonicalDecimal(s) then Some(DecimalValue(s)) else None
  }

  datatype Option<+T> = None | Some(value: T)

  lemma {:induction false} DecimalTextIsCanonical(n: nat)
    ensures CanonicalDecimal(DecimalText(n))
    decreases n
  {
    if n >= 10 {
      DecimalTextIsCanonical(n / 10);
      var p := DecimalText(n / 10);
      assert DecimalText(n) == p + [DigitChar(n % 10)];
      assert DecimalText(n)[0] == p[0];
      assert p[0] != '0' by {
        if |p| == 1 {
          assert p == [DigitChar(n / 10)];
          assert n / 10 != 0;
        }
      }
    }
  }

  /** Reading back the text printed for `n` gives `n`. */
  lemma {:induction false} DecimalRoundTrip(n: nat)
    ensures AllDigits(DecimalText(n)) && DecimalValue(DecimalText(n)) == n
    decreases n
  {
    DecimalTextIsCanonical(n);
    var s := DecimalText(n);
    if n < 10 {
      assert s[..|s| - 1] == [];
    } else {
      DecimalRoundTrip(n / 10);
      assert s[..|s| - 1] == DecimalText(n / 10);
    }
  }

  lemma {:induction false} LeadingDigitPositive(s: string)
    requires |s| > 0 && AllDigits(s) && s[0] != '0'
    ensures DecimalValue(s) >= 1
    decreases |s|
  {
    if |s| > 1 {
      var p := s[..|s| - 1];
      assert p[0] == s[0];
      LeadingDigitPositive(p);
    } else {
      assert s[..|s| - 1] == [];
    }
  }

  /** Printing the key a canonical string names gives that string back, so
      two different canonical strings never name the same key. */
  lemma {:induction false} CanonicalRoundTrip(s: string)
    requires CanonicalDecimal(s)
    ensures DecimalText(DecimalValue(s)) == s
    decreases |s|
  {
    var p := s[..|s| - 1];
    var d := DigitValue(s[|s| - 1]);
    if |s| == 1 {
      assert p == [];
      assert DecimalValue(s) == d;
    } else {
      assert p[0] == s[0];
      LeadingDigitPositive(p);
      CanonicalRoundTrip(p);
      var v := DecimalValue(s);
      assert v == DecimalValue(p) * 10 + d;
      assert v / 10 == DecimalValue(p) && v % 10 == d;
      assert DecimalText(v) == DecimalText(DecimalValue(p)) + [DigitChar(d)];
    }
  }

  /** The posted text of index `n` names key `n`, and only that text does. */
  lemma IndexKeyRoundTrip(n: nat, s: string)
    ensures IndexKey(DecimalText(n)) == Some(n)
    ensures IndexKey(s) == Some(n) ==> s == DecimalText(n)
  {
    DecimalTextIsCanonical(n);
    DecimalRoundTrip(n);
    if IndexKey(s) == Some(n) {
      CanonicalRoundTrip(s);
    }
  }
}
