/** Numbers the other modules share. */
module Arithmetic {

  /** A second in nanoseconds. */
  const SECOND := 1000000000

  function Power(base: nat, k: nat): nat { if k == 0 then 1 else Power(base, k - 1) * base }
}
