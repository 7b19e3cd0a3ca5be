/**
 * The persisted records of the collector (model.go).
 *
 * Instants are integer milliseconds since the Unix epoch.  Prices and volumes
 * are IEEE-754 binary64 values; the model never computes with them, so a
 * value is kept as its 64-bit pattern and compared only for equality.
 */
module Model {

  /** An IEEE-754 binary64 value, held as its bit pattern. */
  datatype Float64 = Float64(bits: bv64)

  /** +0.0, the value Go's zero-value float64 has. */
  const Zero: Float64 := Float64(0)

  /** One 1-minute bar of one symbol: the `Candlestick` struct. */
  datatype Candlestick = Candlestick(
    time: int,
    symbol: string,
    open: Float64,
    high: Float64,
    low: Float64,
    close: Float64,
    volume: Float64)

  /** One row of the symbol registry: the `Symbol` struct. */
  datatype Symbol = Symbol(symbol: string, name: string, enabled: bool)
}
