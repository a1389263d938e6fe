/**
 * Date-coded document numbers. Cash sessions (`CSH`), sales (`VTA`) and
 * receipts (`REC`) are numbered prefix + YYYYMMDD + a zero-padded counter,
 * where the counter is one more than the number of rows whose number already
 * starts with that prefix and date.
 */
module Numbering {
  import opened Text

  const SessionPrefix := "CSH"
  const SalePrefix := "VTA"
  const ReceiptPrefix := "REC"

  /** `${prefix}${date}${String(count + 1).padStart(width, '0')}`. */
  function FormatNumber(prefix: string, date: string, count: nat, width: nat): (r: string)
    ensures prefix + date <= r
    ensures |r| >= |prefix| + |date| + width
    ensures AllDigits(r[|prefix| + |date|..])
    ensures DigitsValue(r[|prefix| + |date|..]) == count + 1
    ensures |r| > |prefix| + |date| + width ==> r[|prefix| + |date|] != '0'
  {
    var digits := NatToString(count + 1);
    var padded := PadStart(digits, width, '0');
    NatToStringRoundTrip(count + 1);
    LeadingZerosIgnored(|padded| - |digits|, digits);
    var r := prefix + date + padded;
    assert r[|prefix| + |date|..] == padded;
    assert |padded| > width ==> padded == digits;
    r
  }

  /** The counter a number carries after its prefix and date (0 when that tail is not all digits). */
  function Sequence(number: string, head: nat): nat {
    if head <= |number| && AllDigits(number[head..]) then DigitsValue(number[head..]) else 0
  }

  /** Two counts give two different numbers: the counter is recoverable. */
  lemma FormatNumberInjective(prefix: string, date: string, c1: nat, c2: nat, width: nat)
    requires FormatNumber(prefix, date, c1, width) == FormatNumber(prefix, date, c2, width)
    ensures c1 == c2
  {
  }

  /** How many of `numbers` start with `prefix` (the `count({ startsWith })` query). */
  function CountPrefixed(numbers: seq<string>, prefix: string): (n: nat)
    ensures n <= |numbers|
  {
    if numbers == [] then 0
    else CountPrefixed(numbers[..|numbers| - 1], prefix) + (if prefix <= numbers[|numbers| - 1] then 1 else 0)
  }

  /** Appending a row whose number has the prefix raises the count by exactly one. */
  lemma CountPrefixedAppend(numbers: seq<string>, prefix: string, x: string)
    ensures CountPrefixed(numbers + [x], prefix)
         == CountPrefixed(numbers, prefix) + (if prefix <= x then 1 else 0)
  {
    assert (numbers + [x])[..|numbers|] == numbers;
  }

  /**
   * Under sequential creation on one day, the number generated after
   * appending the previous one carries the next counter value: numbers
   * for the same prefix and date go 1, 2, 3, ... without gaps.
   */
  lemma {:induction false} SequentialNumbers(numbers: seq<string>, prefix: string, date: string, width: nat)
    ensures var first := FormatNumber(prefix, date, CountPrefixed(numbers, prefix + date), width);
            var second := FormatNumber(prefix, date, CountPrefixed(numbers + [first], prefix + date), width);
            Sequence(second, |prefix| + |date|) == Sequence(first, |prefix| + |date|) + 1
  {
    var first := FormatNumber(prefix, date, CountPrefixed(numbers, prefix + date), width);
    CountPrefixedAppend(numbers, prefix + date, first);
  }
}
