/**
 * `to_string` on unsigned integers: the decimal names of trace files and the
 * version number in a trace's `name` file.
 */
module Decimal {

  function Digit(d: nat): (c: char)
    requires d < 10
    ensures '0' <= c <= '9'
    ensures c as int - '0' as int == d
  {
    ('0' as int + d) as char
  }

  /** The decimal representation of n, without leading zeros. */
  function Dec(n: nat): (s: string)
    ensures 1 <= |s|
    ensures |s| == 1 <==> n < 10
    ensures forall i :: 0 <= i < |s| ==> '0' <= s[i] <= '9'
    decreases n
  {
    if n < 10 then [Digit(n)] else Dec(n / 10) + [Digit(n % 10)]
  }

  /** Distinct sequence numbers name distinct files. */
  lemma {:induction false} DecInjective(i: nat, j: nat)
    requires Dec(i) == Dec(j)
    ensures i == j
  {
    if i < 10 && j < 10 {
      assert Dec(i)[0] == Digit(i) && Dec(j)[0] == Digit(j);
    } else if 10 <= i && 10 <= j {
      var si, sj := Dec(i), Dec(j);
      assert si[..|si| - 1] == Dec(i / 10);
      assert sj[..|sj| - 1] == Dec(j / 10);
      DecInjective(i / 10, j / 10);
      assert si[|si| - 1] == Digit(i % 10) && sj[|sj| - 1] == Digit(j % 10);
    }
  }
}
