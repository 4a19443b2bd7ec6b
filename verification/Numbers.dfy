/** Minimum and maximum of lengths and positions. */
module Numbers {
  function Max(a: nat, b: nat): nat { if a >= b then a else b }

  function Min(a: nat, b: nat): nat { if a <= b then a else b }
}
