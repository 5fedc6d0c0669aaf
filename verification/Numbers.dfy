/** Small counting helpers. */
module Numbers {
  function Min(a: int, b: int): int {
    if a < b then a else b
  }

  function One(b: bool): nat {
    if b then 1 else 0
  }
}
