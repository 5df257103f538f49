/** Decimal money quantised to 1e-8 with halves rounded up. */
module Money {

  const QUANTA_PER_USD: real := 100_000_000.0

  /** `quantize(0.00000001, ROUND_HALF_UP)` of a non-negative amount. */
  function Quantize(amount: real): real {
    (amount * QUANTA_PER_USD + 0.5).Floor as real / QUANTA_PER_USD
  }

  /** Half a quantum. */
  const HALF_QUANTUM: real := 0.000000005

  predicate Quantized(amount: real) {
    (amount * QUANTA_PER_USD).Floor as real == amount * QUANTA_PER_USD
  }

  /** Rounding moves an amount by at most half a quantum ... */
  lemma QuantizeIsClose(amount: real)
    ensures -HALF_QUANTUM <= Quantize(amount) - amount <= HALF_QUANTUM
  {
    var scaled := amount * QUANTA_PER_USD + 0.5;
    assert scaled - 1.0 < scaled.Floor as real <= scaled;
  }

  /** ... lands on the grid, leaves the grid alone, and keeps order. */
  lemma QuantizeFixesGrid(amount: real)
    ensures Quantized(Quantize(amount))
    ensures Quantized(amount) <==> Quantize(amount) == amount
  {
    var scaled := amount * QUANTA_PER_USD;
    var units := (scaled + 0.5).Floor;
    assert Quantize(amount) * QUANTA_PER_USD == units as real;
    if Quantized(amount) {
      assert units == scaled.Floor;
    }
  }

  lemma QuantizeMonotone(a: real, b: real)
    requires a <= b
    ensures Quantize(a) <= Quantize(b)
  {
    var x, y := (a * QUANTA_PER_USD + 0.5).Floor, (b * QUANTA_PER_USD + 0.5).Floor;
    assert x <= y;
  }

  /** Amounts a whole quantum apart stay apart. */
  lemma QuantizeSeparates(a: real, b: real)
    requires a + 2.0 * HALF_QUANTUM <= b
    ensures Quantize(a) < Quantize(b)
  {
    var x, y := (a * QUANTA_PER_USD + 0.5).Floor, (b * QUANTA_PER_USD + 0.5).Floor;
    assert b * QUANTA_PER_USD + 0.5 >= a * QUANTA_PER_USD + 0.5 + 1.0;
    assert x < y;
  }

  lemma QuantizeNonNegative(amount: real)
    requires amount >= 0.0
    ensures Quantize(amount) >= 0.0
  {
  }
}
