/** Record layouts shared by the native driver (Sample.native/main.c) and its
    managed caller (Sample/Native/LibComputeSample.cs).

    Every record that crosses the boundary is four consecutive 32-bit floats,
    16 bytes with no padding.  The host code never does arithmetic on the
    floats, so a float is carried as its bit pattern, and memory is modelled
    as a sequence of 16-byte cells (`Quad`).  `Candlestick`, `Indicator` and
    the managed `PricePoint` are three views of one cell; a pointer cast
    between them is a read of the cell through another view. */
module Records {

  /** A 32-bit float, as its bit pattern. */
  type F32 = bv32

  /** Sixteen bytes of memory: four 32-bit words at offsets 0, 4, 8 and 12. */
  datatype Quad = Quad(w0: F32, w1: F32, w2: F32, w3: F32)

  /** sizeof(Candlestick) == sizeof(Indicator) == sizeof(PricePoint). */
  const RecordSize: nat := 16

  const ZeroQuad: Quad := Quad(0, 0, 0, 0)

  /** Native input record, fields in declaration order. */
  datatype Candlestick = Candlestick(open: F32, high: F32, low: F32, close: F32)

  /** Native output record: the moving average and three reserved channels. */
  datatype Indicator = Indicator(sma: F32, padding1: F32, padding2: F32, padding3: F32)

  /** Managed input record, fields in the order the managed struct declares them. */
  datatype PricePoint = PricePoint(high: F32, low: F32, open: F32, close: F32)

  /** The bytes of a Candlestick: its fields at offsets 0, 4, 8, 12. */
  function CandlestickBytes(c: Candlestick): (q: Quad)
    ensures CandlestickAt(q) == c
  {
    Quad(c.open, c.high, c.low, c.close)
  }

  /** Reads a cell as a Candlestick. */
  function CandlestickAt(q: Quad): Candlestick
  {
    Candlestick(q.w0, q.w1, q.w2, q.w3)
  }

  function IndicatorBytes(r: Indicator): (q: Quad)
    ensures IndicatorAt(q) == r
  {
    Quad(r.sma, r.padding1, r.padding2, r.padding3)
  }

  /** Reads a cell as an Indicator. */
  function IndicatorAt(q: Quad): Indicator
  {
    Indicator(q.w0, q.w1, q.w2, q.w3)
  }

  /** The bytes of a PricePoint under its sequential layout. */
  function PricePointBytes(p: PricePoint): (q: Quad)
  {
    Quad(p.high, p.low, p.open, p.close)
  }

  /** The cast `(Candlestick*)ptr` applied to a PricePoint: the same 16 bytes
      read through the native field names.  Only `close` lands in the field of
      the same name; `open`, `high` and `low` receive `High`, `Low` and `Open`. */
  function PricePointAsCandlestick(p: PricePoint): (c: Candlestick)
    ensures c.close == p.close
    ensures c.open == p.high && c.high == p.low && c.low == p.open
    ensures CandlestickBytes(c) == PricePointBytes(p)
  {
    CandlestickAt(PricePointBytes(p))
  }

  /** A sequence of candlesticks laid out contiguously, one cell each. */
  function CandlestickArray(cs: seq<Candlestick>): (m: seq<Quad>)
    ensures |m| == |cs|
    ensures forall i :: 0 <= i < |cs| ==> CandlestickAt(m[i]) == cs[i]
  {
    seq(|cs|, i requires 0 <= i < |cs| => CandlestickBytes(cs[i]))
  }

  /** A run of cells read as Indicator records. */
  function IndicatorArray(m: seq<Quad>): (rs: seq<Indicator>)
    ensures |rs| == |m|
    ensures forall i :: 0 <= i < |m| ==> IndicatorBytes(rs[i]) == m[i]
  {
    seq(|m|, i requires 0 <= i < |m| => IndicatorAt(m[i]))
  }
}
