/** The check-digit test for card numbers (ISO/IEC 7812-1, Annex B) and the masking of digits. */
module Luhn {
  import opened Sequences

  predicate IsDigit(c: char) {
    '0' <= c <= '9'
  }

  function Number(c: char): nat
    requires IsDigit(c)
  {
    c as nat - '0' as nat
  }

  predicate AllDigits(s: string) {
    forall c | c in s :: IsDigit(c)
  }

  /** Every second digit, counted leftwards from the one before the last. */
  predicate IsDoubled(p: nat) {
    p > 0 && !IsDoubled(p - 1)
  }

  /** What the digit p places left of the last one adds: itself, or the digits of its double. */
  function Weight(digit: nat, p: nat): nat {
    if IsDoubled(p) then (2 * digit) / 10 + (2 * digit) % 10 else digit
  }

  function CheckSum(digits: string): nat
    requires AllDigits(digits)
  {
    if digits == "" then 0
    else
      assert digits[0] in digits && forall c | c in digits[1..] :: c in digits;
      Weight(Number(digits[0]), |digits| - 1) + CheckSum(digits[1..])
  }

  predicate Valid(digits: string)
    requires AllDigits(digits)
  {
    CheckSum(digits) % 10 == 0
  }

  method IsLuhnValid(digits: string) returns (valid: bool)
    requires AllDigits(digits)
    ensures valid == Valid(digits)
  {
    var sum := 0;
    var shouldDouble := false;
    var i := |digits| - 1;
    while i >= 0
      invariant -1 <= i < |digits|
      invariant AllDigits(digits[i + 1..]) && sum == CheckSum(digits[i + 1..])
      invariant shouldDouble == IsDoubled(|digits| - 1 - i)
    {
      assert digits[i] in digits;
      var digit := Number(digits[i]);
      if shouldDouble {
        digit := digit * 2;
        if digit > 9 {
          digit := digit - 9;
        }
      }
      assert digits[i..][1..] == digits[i + 1..];
      sum := sum + digit;
      shouldDouble := !shouldDouble;
      i := i - 1;
    }
    assert digits[0..] == digits;
    valid := sum % 10 == 0;
  }

  /** Replacing one digit replaces its weight and nothing else. */
  lemma {:induction false} ReplaceDigit(digits: string, k: nat, c: char)
    requires AllDigits(digits) && k < |digits| && IsDigit(c)
    ensures AllDigits(digits[k := c]) && IsDigit(digits[k])
    ensures CheckSum(digits[k := c]) - Weight(Number(c), |digits| - 1 - k) ==
              CheckSum(digits) - Weight(Number(digits[k]), |digits| - 1 - k)
  {
    assert digits[k] in digits && digits[0] in digits;
    var changed := digits[k := c];
    assert AllDigits(digits[1..]) && AllDigits(changed);
    if k == 0 {
      assert changed[1..] == digits[1..];
    } else {
      assert changed[1..] == digits[1..][k - 1 := c];
      ReplaceDigit(digits[1..], k - 1, c);
    }
  }

  /** Summing the digits of a double is taking nine off when it has two. */
  lemma WeightIs(digit: nat, p: nat)
    requires digit < 10
    ensures Weight(digit, p) == if !IsDoubled(p) then digit else if digit < 5 then 2 * digit else 2 * digit - 9
  {
    if digit >= 5 {
      assert (2 * digit) / 10 == 1;
    }
  }

  lemma {:induction false} EverySecondIsDoubled(p: nat)
    ensures IsDoubled(p) <==> p % 2 == 1
  {
    if p > 0 {
      EverySecondIsDoubled(p - 1);
    }
  }

  /** The last digit and every second one before it count as they are, the others as the digits of their doubles. */
  lemma WeightShows(digit: nat, p: nat)
    requires digit < 10
    ensures Weight(digit, p) == if p % 2 == 0 then digit else [0, 2, 4, 6, 8, 1, 3, 5, 7, 9][digit]
  {
    EverySecondIsDoubled(p);
  }

  /** Zeros alone add up to nothing; from there ReplaceDigit gives the check sum of every number. */
  lemma {:induction false} ZerosWeighNothing(digits: string)
    requires forall c | c in digits :: c == '0'
    ensures AllDigits(digits) && CheckSum(digits) == 0
  {
    if digits != "" {
      assert digits[0] in digits && forall c | c in digits[1..] :: c in digits;
      ZerosWeighNothing(digits[1..]);
    }
  }

  /** No two digits weigh the same at a place, and none weighs more than nine. */
  lemma WeightsDiffer(a: nat, b: nat, p: nat)
    requires a < 10 && b < 10
    ensures Weight(a, p) < 10 && Weight(b, p) < 10
    ensures Weight(a, p) == Weight(b, p) <==> a == b
  {
    WeightIs(a, p);
    WeightIs(b, p);
  }

  lemma OffByLessThanTen(x: int, d: int)
    requires x % 10 == 0 && -10 < d < 10
    ensures (x + d) % 10 == 0 <==> d == 0
  {
  }

  lemma ErrorShifts(digits: string, k: nat, c: char) returns (shift: int)
    requires AllDigits(digits) && k < |digits| && IsDigit(c) && c != digits[k]
    ensures AllDigits(digits[k := c]) && CheckSum(digits[k := c]) == CheckSum(digits) + shift
    ensures -10 < shift < 10 && shift != 0
  {
    ReplaceDigit(digits, k, c);
    WeightsDiffer(Number(c), Number(digits[k]), |digits| - 1 - k);
    shift := CheckSum(digits[k := c]) - CheckSum(digits);
  }

  /** Any one digit misread makes a valid number invalid. */
  lemma SingleErrorIsCaught(digits: string, k: nat, c: char)
    requires AllDigits(digits) && Valid(digits) && k < |digits| && IsDigit(c) && c != digits[k]
    ensures AllDigits(digits[k := c]) && !Valid(digits[k := c])
  {
    var shift := ErrorShifts(digits, k, c);
    OffByLessThanTen(CheckSum(digits), shift);
  }

  function Swapped(digits: string, k: nat): string
    requires k + 1 < |digits|
  {
    digits[k := digits[k + 1]][k + 1 := digits[k]]
  }

  /** What doubling adds to a digit once the digits of its double are summed. */
  function Slack(digit: nat): int {
    if digit < 5 then digit else digit - 9
  }

  /** What a digit gains by moving one place to the left, by whether it starts to be doubled or stops. */
  lemma GainIs(digit: nat, p: nat)
    requires digit < 10
    ensures Weight(digit, p + 1) - Weight(digit, p) == if IsDoubled(p) then -Slack(digit) else Slack(digit)
  {
    WeightIs(digit, p);
    WeightIs(digit, p + 1);
  }

  lemma SwapShifts(digits: string, k: nat) returns (shift: int)
    requires AllDigits(digits) && k + 1 < |digits|
    ensures IsDigit(digits[k]) && IsDigit(digits[k + 1]) && AllDigits(Swapped(digits, k))
    ensures CheckSum(Swapped(digits, k)) == CheckSum(digits) + shift
    ensures var change := Slack(Number(digits[k + 1])) - Slack(Number(digits[k])); shift == change || shift == -change
  {
    assert digits[k] in digits && digits[k + 1] in digits;
    var p := |digits| - 2 - k;
    ReplaceDigit(digits, k, digits[k + 1]);
    ReplaceDigit(digits[k := digits[k + 1]], k + 1, digits[k]);
    GainIs(Number(digits[k]), p);
    GainIs(Number(digits[k + 1]), p);
    shift := CheckSum(Swapped(digits, k)) - CheckSum(digits);
  }

  predicate SwapIsMissed(a: char, b: char) {
    a == b || (a == '0' && b == '9') || (a == '9' && b == '0')
  }

  lemma SwapShiftsLittle(digits: string, k: nat) returns (shift: int)
    requires AllDigits(digits) && k + 1 < |digits|
    ensures AllDigits(Swapped(digits, k)) && CheckSum(Swapped(digits, k)) == CheckSum(digits) + shift
    ensures -10 < shift < 10 && (shift == 0 <==> SwapIsMissed(digits[k], digits[k + 1]))
  {
    shift := SwapShifts(digits, k);
  }

  /** Swapping neighbours leaves a valid number valid exactly when they are equal or are 0 and 9. */
  lemma SwapIsCaughtIff(digits: string, k: nat)
    requires AllDigits(digits) && Valid(digits) && k + 1 < |digits|
    ensures AllDigits(Swapped(digits, k))
    ensures Valid(Swapped(digits, k)) <==> SwapIsMissed(digits[k], digits[k + 1])
  {
    var shift := SwapShiftsLittle(digits, k);
    OffByLessThanTen(CheckSum(digits), shift);
  }

  // ---------- masking ----------

  function Repeat(c: char, n: nat): (s: string)
    ensures |s| == n && forall i | 0 <= i < n :: s[i] == c
  {
    seq(n, _ => c)
  }

  function MaskDigits(digits: string): string {
    var last4 := if |digits| <= 4 then digits else digits[|digits| - 4..];
    Repeat('*', |digits| - |last4|) + last4
  }

  function DigitsOf(raw: string): (digits: string)
    ensures AllDigits(digits)
  {
    if raw == "" then "" else (if IsDigit(raw[0]) then [raw[0]] else "") + DigitsOf(raw[1..])
  }

  function MaskCardValue(raw: string): string {
    var digits := DigitsOf(raw);
    if digits == "" then raw else MaskDigits(digits)
  }

  /** Masking keeps the length and shows the last four digits, and no other. */
  lemma MaskShowsLastFour(digits: string, i: nat)
    requires AllDigits(digits) && i < |digits|
    ensures |MaskDigits(digits)| == |digits|
    ensures MaskDigits(digits)[i] == if i + 4 >= |digits| then digits[i] else '*'
  {
  }

  /** The digits of a text are the characters at these places, in order. */
  lemma {:induction false} DigitsAre(raw: string) returns (at: seq<nat>)
    ensures Picks(DigitsOf(raw), raw, at)
    ensures forall i: nat | i < |raw| :: i in at <==> '0' <= raw[i] <= '9'
  {
    at := [];
    if raw != "" {
      var rest := raw[1..];
      at := DigitsAre(rest);
      at := ConsPicks(raw[0], DigitsOf(rest), rest, at, IsDigit(raw[0]));
      assert raw == [raw[0]] + rest;
      assert forall i: nat | 0 < i < |raw| :: raw[i] == rest[i - 1];
    }
  }

  /** The places are those of the digits; a text without digits is shown as it is. */
  predicate ShowsLastFour(raw: string, shown: string, at: seq<nat>) {
    && (forall j, k | 0 <= j < k < |at| :: at[j] < at[k])
    && (forall k | 0 <= k < |at| :: at[k] < |raw|)
    && (forall i | 0 <= i < |raw| :: i in at <==> '0' <= raw[i] <= '9')
    && if at == [] then shown == raw
       else
         && |shown| == |at|
         && forall k | 0 <= k < |at| :: shown[k] == if k + 4 >= |at| then raw[at[k]] else '*'
  }

  /**
   A card number given by its key, with or without separators: as many characters as it has digits, the
   last four of them shown and '*' for the others. A text without digits stays as it is.
   */
  lemma CardValueShows(raw: string) returns (at: seq<nat>)
    ensures ShowsLastFour(raw, MaskCardValue(raw), at)
  {
    at := DigitsAre(raw);
    var digits := DigitsOf(raw);
    if digits != "" {
      forall k | 0 <= k < |at|
        ensures |MaskDigits(digits)| == |at|
        ensures MaskDigits(digits)[k] == if k + 4 >= |at| then raw[at[k]] else '*'
      {
        MaskShowsLastFour(digits, k);
      }
    }
  }
}
