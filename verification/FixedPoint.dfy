/** Fixed-point helpers: costs are integers with eight fractional bits. */
module FixedPoint {

  const Q_ONE: nat := 256
  const Q_TILE_MAX: nat := 0x100_0000
  const Q_FOLD_MAX: nat := 0x1000_0000
  const Q_DIAG_MAX: nat := 0x2000
  const Q_DIAG_SQRT2: nat := 362
  const Q_EPS_DEFAULT: nat := 320
  const Q_EPS_MAX: nat := 0x1_0000
  const U32_MAX: nat := 0xFFFF_FFFF
  const G_INFINITE: nat := 0xFFFF_FFFF_FFFF_FFFF

  /** Nearest integer, halves upwards, saturating at `cap`. */
  function Round(v: real, cap: nat): (q: nat)
    ensures q <= cap
    ensures 0.0 <= v <= cap as real ==> v - 0.5 < q as real <= v + 0.5
  {
    if v >= cap as real then cap
    else if v <= 0.0 then 0
    else (v + 0.5).Floor
  }

  /** Truncation, saturating at `cap`: never looser than what was asked. */
  function Floor(v: real, cap: nat): (q: nat)
    ensures q <= cap
    ensures 0.0 <= v <= cap as real ==> v - 1.0 < q as real <= v
  {
    if v >= cap as real then cap
    else if v <= 0.0 then 0
    else v.Floor
  }

  function Sat32(v: nat): nat {
    if v > U32_MAX then U32_MAX else v
  }

  /** Rounding keeps the order, whatever the two caps, as long as the larger value has the larger cap. */
  lemma RoundMonotone(a: real, b: real, capA: nat, capB: nat)
    requires a <= b && capA <= capB
    ensures Round(a, capA) <= Round(b, capB)
  {
    if capA as real <= b < capB as real {
      assert b + 0.5 >= capA as real;
    }
  }

  // ---------- products and quotients ----------

  lemma DivisionIsUnique(a: int, w: int, q: int, r: int)
    requires 0 < w && 0 <= r < w && a == q * w + r
    ensures a / w == q && a % w == r
  {
    var k := a / w - q;
    assert k * w == (a / w) * w - q * w == r - a % w;
    assert k >= 1 ==> k * w >= w;
    assert k <= -1 ==> k * w <= -w;
  }

  lemma ProductBound(a: nat, b: nat, c: nat, d: nat)
    requires a <= c && b <= d
    ensures 0 <= a * b <= c * d
  {
    assert a * b <= a * d <= c * d;
  }

  /** Row-major positions lie within the map. */
  lemma RowMajor(row: int, col: int, h: nat, w: nat)
    requires 0 <= row < h && 0 <= col < w
    ensures 0 <= row * w + col < w * h
  {
    assert row * w <= (h - 1) * w == w * h - w;
  }
}
