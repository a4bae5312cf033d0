/**
 * The fixed-width integers of the check: the u16 and i16 fields of the font
 * tables, and the i32 they are widened to. Rust's overflow-checked multiply
 * and `abs` are modelled explicitly, since Dafny's integers are unbounded.
 */
module Int32 {
  import opened Wrappers

  const MIN: int := -0x8000_0000
  const MAX: int := 0x7fff_ffff

  /** Rust `i32`. */
  type I32 = x: int | MIN <= x <= MAX
  /** Rust `i16`, e.g. head.yMax and head.yMin. */
  type I16 = x: int | -0x8000 <= x <= 0x7fff
  /** Rust `u16`, e.g. OS/2.usWinAscent and OS/2.usWinDescent. */
  type U16 = x: int | 0 <= x <= 0xffff

  /**
   * `i32::checked_mul`: the product when it is representable, None on
   * overflow. The property the check relies on is `WidenedI16DoublingFits`.
   */
  function CheckedMul(a: I32, b: I32): Option<I32>
  {
    if MIN <= a * b <= MAX then Some(a * b) else None
  }

  /** `i32::abs`, which panics (overflows) on i32::MIN; callers must exclude it. */
  function Abs(x: I32): (r: I32)
    requires x != MIN
    ensures r >= 0 && (r == x || r == -x)
  {
    if x < 0 then -x else x
  }

  /**
   * Doubling with `checked_mul` succeeds exactly on the i32 values whose
   * double is again an i32, so the overflow check is live on i32 inputs;
   * `WidenedI16DoublingFits` shows it never fires on widened i16 fields.
   */
  lemma CheckedDoubleDomain(y: I32)
    ensures CheckedMul(y, 2).Some? <==> -0x4000_0000 <= y <= 0x3fff_ffff
  {
  }

  /**
   * Widened i16 values never make the two `.unwrap()` calls of the check
   * panic: `abs` of a widened i16 is defined, and doubling either the
   * value or its absolute value (at most 65536) stays within i32.
   */
  lemma WidenedI16DoublingFits(y: I16)
    ensures y != MIN
    ensures CheckedMul(y, 2) == Some(2 * y)
    ensures CheckedMul(Abs(y), 2) == Some(2 * Abs(y))
    ensures 0 <= 2 * Abs(y) <= 0x1_0000
  {
  }
}
