/** Loop bounds shared by the block-processing methods. */
module Blocks {

  /** The number of samples a loop `for i in [0, count)` visits. */
  function BlockLength(count: int): (k: nat)
    ensures count >= 0 ==> k == count
    ensures count < 0 ==> k == 0
  {
    if count < 0 then 0 else count
  }
}
