/**
 The two directions of Go's decimal integer text that the operator relies on:
 `strconv.ParseInt(s, 10, bits)` and `fmt.Sprintf("%d", n)`.
 */
module Decimal {

  datatype Option<+T> = None | Some(value: T)

  predicate IsDigit(c: char) {
    '0' <= c <= '9'
  }

  predicate AllDigits(s: string) {
    forall i | 0 <= i < |s| :: IsDigit(s[i])
  }

  /** The number a digit string denotes; leading zeros are allowed. */
  function DigitsValue(s: string): nat
    requires AllDigits(s)
  {
    if s == [] then 0
    else DigitsValue(s[..|s| - 1]) * 10 + (s[|s| - 1] as int - '0' as int)
  }

  function PowerOfTwo(n: nat): (r: int)
    ensures r >= 1
  {
    if n == 0 then 1 else 2 * PowerOfTwo(n - 1)
  }

  /** `strconv.ParseInt(s, 10, bits)`; `None` stands for the returned error. */
  function ParseInt(s: string, bits: nat): (r: Option<int>)
    requires bits >= 1
    ensures r.Some? ==> -PowerOfTwo(bits - 1) <= r.value < PowerOfTwo(bits - 1)
  {
    if s == "" then None
    else
      var negative := s[0] == '-';
      var body := if s[0] == '-' || s[0] == '+' then s[1..] else s;
      if body == "" || !AllDigits(body) then None
      else
        var magnitude: int := DigitsValue(body);
        var cutoff := PowerOfTwo(bits - 1);
        if negative then
          if magnitude > cutoff then None else Some(-magnitude)
        else
          if magnitude >= cutoff then None else Some(magnitude)
  }

  function PrintNat(n: nat): (s: string)
    ensures s != ""
  {
    var last := [((n % 10) as char) + '0'];
    if n < 10 then last else PrintNat(n / 10) + last
  }

  /** `fmt.Sprintf("%d", n)` */
  function Print(n: int): (s: string)
    ensures s != ""
  {
    if n < 0 then "-" + PrintNat(-n) else PrintNat(n)
  }

  lemma {:induction false} PrintNatIsDigits(n: nat)
    ensures AllDigits(PrintNat(n))
    ensures DigitsValue(PrintNat(n)) == n
  {
    var c := ((n % 10) as char) + '0';
    assert IsDigit(c) && c as int - '0' as int == n % 10;
    if n < 10 {
      assert PrintNat(n) == [c];
      assert DigitsValue([]) == 0;
      assert [c][..0] == [];
    } else {
      PrintNatIsDigits(n / 10);
      var s := PrintNat(n);
      assert s == PrintNat(n / 10) + [c];
      assert s[..|s| - 1] == PrintNat(n / 10);
    }
  }

  /** Printing and parsing back is the identity exactly on the numbers the width can hold. */
  lemma ParsePrint(n: int, bits: nat)
    requires bits >= 1
    ensures ParseInt(Print(n), bits) ==
            if -PowerOfTwo(bits - 1) <= n < PowerOfTwo(bits - 1) then Some(n) else None
  {
    PrintNatIsDigits(if n < 0 then -n else n);
    if n < 0 {
      var s := Print(n);
      assert s[0] == '-' && s[1..] == PrintNat(-n);
    } else {
      var s := Print(n);
      assert IsDigit(s[0]);
    }
  }
}
