/** The managed side of the native call (Sample/Native/LibComputeSample.cs):
    `Compute` pins the price points, passes them to ComputeResult as
    candlesticks, and keeps the moving-average channel of each Indicator. */
module Interop {
  import opened Wrappers
  import opened Records
  import opened Sizing
  import opened Selection
  import opened Backend
  import opened Lifecycle
  import opened Application

  /** The cast `(Candlestick*)ptr` over a whole PricePoint array. */
  function AsCandlesticks(prices: seq<PricePoint>): (kline: seq<Candlestick>)
    ensures |kline| == |prices|
    ensures forall i :: 0 <= i < |prices| ==> kline[i] == PricePointAsCandlestick(prices[i])
  {
    seq(|prices|, i requires 0 <= i < |prices| => PricePointAsCandlestick(prices[i]))
  }

  /** The cast moves no byte: the native side reads, cell for cell, the
      bytes the managed array lays out. */
  lemma {:induction false} CastKeepsBytes(prices: seq<PricePoint>)
    ensures CandlestickArray(AsCandlesticks(prices)) == seq(|prices|, i requires 0 <= i < |prices| => PricePointBytes(prices[i]))
  {
    var kline := AsCandlesticks(prices);
    forall i | 0 <= i < |prices|
      ensures CandlestickArray(kline)[i] == PricePointBytes(prices[i])
    {
      assert CandlestickAt(CandlestickArray(kline)[i]) == kline[i];
    }
  }

  /** `output.Select(I => I.sma).ToArray()`. */
  function Smas(output: seq<Indicator>): (r: seq<F32>)
    ensures |r| == |output|
  {
    seq(|output|, i requires 0 <= i < |output| => output[i].sma)
  }

  /** LibComputeSample.Compute.  The output array has one Indicator per price
      point and that length is the element count passed to ComputeResult;
      `fixed` yields a NULL pointer for an empty array.  The result is null
      exactly when ComputeResult returns nonzero, which is exactly when there
      are no price points; otherwise it holds the `sma` field of each
      output record and the driver has released everything it created.
      `exited` says that the process ended inside ComputeResult. */
  method Compute(vk: Vk, shaders: Shaders, prices: array<PricePoint>) returns (r: Option<seq<F32>>, exited: bool, vk': Vk)
    requires vk.Valid()
    requires prices.Length > 0 ==>
      && vk.QueueIdle() && |vk.physicalDevices| > 0 && vk.physicalDevices[0].WellFormed()
      && prices.Length < MaxElements
    ensures exited <==> prices.Length > 0 && FirstComputeFamilyFrom(vk.physicalDevices[0].queueFamilies, 0).None?
    ensures !exited ==> (r.None? <==> prices.Length == 0)
    ensures prices.Length == 0 ==> r == None && vk' == vk
    ensures r.Some? ==> |r.value| == prices.Length
    ensures r.Some? ==> forall i :: 0 <= i < prices.Length ==>
      r.value[i] == SmaPipeline(shaders, AsCandlesticks(prices[..]))[i].sma
    ensures r.Some? ==> Released(vk, vk') && vk'.QueueIdle()
  {
    var n := prices.Length;
    var output := new Indicator[n](_ => Indicator(0, 0, 0, 0));
    var outPtr: array?<Indicator> := if n == 0 then null else output;
    var kline := new Candlestick[n](i requires 0 <= i < n reads prices => PricePointAsCandlestick(prices[i]));
    var ptr: array?<Candlestick> := if n == 0 then null else kline;
    assert kline[..] == AsCandlesticks(prices[..]);
    var status;
    status, vk' := ComputeResult(vk, shaders, ptr, n, outPtr);
    if status.Exited? {
      return None, true, vk';
    }
    exited := false;
    if status.status != 0 {
      return None, false, vk';
    }
    assert kline[..n] == AsCandlesticks(prices[..]);
    assert output[..] == SmaPipeline(shaders, AsCandlesticks(prices[..]));
    r := Some(Smas(output[..]));
  }
}
