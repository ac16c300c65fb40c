/** Sixty-four-bit counters and optional values shared by every component. */
module Wire {
  const MAX_U64: int := 0xFFFF_FFFF_FFFF_FFFF

  type u64 = n: int | 0 <= n <= MAX_U64

  /** Go's `x + n` on uint64: wraps at 2^64. */
  function Wrap(n: int): (r: u64)
    ensures 0 <= n <= MAX_U64 ==> r == n
    ensures n == MAX_U64 + 1 ==> r == 0
  {
    n % (MAX_U64 + 1)
  }

  datatype Option<+T> = None | Some(value: T)
}
