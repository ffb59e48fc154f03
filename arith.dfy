/** Integer helpers shared by the models. */
module Arith {

  /** The smaller of two integers */
  function Min(a: int, b: int): (m: int)
    ensures m <= a && m <= b && (m == a || m == b)
  {
    if a <= b then a else b
  }
}
