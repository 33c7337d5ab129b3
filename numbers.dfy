/** Integer helpers shared by the modules: the smaller and the larger of two
    values, as `Math.min`, `Math.max` and Python's slicing bounds use them. */
module Numbers {
  function Min(a: int, b: int): int {
    if a <= b then a else b
  }

  function Max(a: int, b: int): int {
    if a >= b then a else b
  }
}
