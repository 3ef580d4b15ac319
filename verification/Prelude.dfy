/** What several modules share. */
module Prelude {

  datatype Option<+T> = None | Some(value: T)

  /** The number of values of a 64-bit word. */
  const TWO64: nat := 0x1_0000_0000_0000_0000

  function Count(b: bool): nat {
    if b then 1 else 0
  }

  /** An upper-case hexadecimal digit. */
  function HexDigit(n: nat): char
    requires n < 16
  {
    if n < 10 then ('0' as int + n) as char else ('A' as int + n - 10) as char
  }

  /** Two sets that differ in one element at most. */
  lemma OneApart(a: set<nat>, b: set<nat>, x: nat)
    requires a - {x} == b - {x}
    ensures |b| - |a| == Count(x in b) - Count(x in a)
  {
    assert |a - {x}| == |a| - if x in a then 1 else 0;
    assert |b - {x}| == |b| - if x in b then 1 else 0;
  }
}
