/** The integer sizing arithmetic of the native driver: buffer, descriptor
    and copy sizes, work-group counts, and the 4-byte padding of a loaded
    file.  C's fixed-width conversions are written out: a store into a
    `uint32_t` keeps the value modulo 2^32. */
module Sizing {
  import opened Records

  /** WORKGROUP_SIZE: invocations per work-group along x. */
  const WorkgroupSize: nat := 256

  const Uint32Limit: nat := 0x1_0000_0000

  /** The largest element count for which 16 * count still fits a uint32_t. */
  const MaxElements: nat := 0x1000_0000

  /** Conversion of a non-negative value to uint32_t. */
  function Uint32(x: nat): (r: nat)
    ensures r < Uint32Limit
    ensures x < Uint32Limit ==> r == x
  {
    x % Uint32Limit
  }

  /** `ceil((double)a / (double)b)`.  For the operands used here (below 2^53,
      and b a power of two or small) the double arithmetic is exact, so this
      is the least q with q * b >= a. */
  function CeilDiv(a: nat, b: nat): (q: nat)
    requires b > 0
    ensures q * b >= a
    ensures q > 0 ==> (q - 1) * b < a
  {
    if a == 0 then 0 else (a - 1) / b + 1
  }

  /** inputBufferSize: `count * sizeof(struct Candlestick)` stored in a uint32_t. */
  function InputBufferSize(count: nat): nat
  {
    Uint32(count * RecordSize)
  }

  /** inputDataElementsCount: the element count stored in a uint32_t. */
  function ElementsCount(count: nat): nat
  {
    Uint32(count)
  }

  /** `sizeof(Indicator) * inputDataElementsCount`: the size of both output
      buffers, the range of descriptor binding 1 and the copy-out size.  It is
      computed in size_t, where it cannot wrap. */
  function OutputBufferSize(elements: nat): nat
  {
    RecordSize * elements
  }

  /** Work-groups of the first pass: `(uint32_t)ceil(size / 256.0) + 1`. */
  function Pass1GroupCount(inputBufferSize: nat): nat
  {
    Uint32(Uint32(CeilDiv(inputBufferSize, WorkgroupSize)) + 1)
  }

  /** Work-groups of the second pass: `(uint32_t)ceil(size / 256.0)`. */
  function Pass2GroupCount(inputBufferSize: nat): nat
  {
    Uint32(CeilDiv(inputBufferSize, WorkgroupSize))
  }

  /** While 16 * count fits a uint32_t, the input buffer, both output
      buffers, both descriptor ranges and both copies are exactly one 16-byte
      record per element. */
  lemma SizesExact(count: nat)
    requires count < MaxElements
    ensures ElementsCount(count) == count
    ensures InputBufferSize(count) == RecordSize * count
    ensures OutputBufferSize(ElementsCount(count)) == InputBufferSize(count)
  {
  }

  /** From 2^28 elements on, the uint32_t input size wraps: at exactly 2^28
      it is 0 while the output size, computed in size_t, is 2^32 bytes. */
  lemma InputBufferSizeWraps()
    ensures InputBufferSize(MaxElements) == 0
    ensures OutputBufferSize(ElementsCount(MaxElements)) == Uint32Limit
    ensures InputBufferSize(MaxElements) != RecordSize * MaxElements
  {
  }

  /** For every uint32_t input size: the first pass dispatches exactly one
      work-group more than the second, and the second pass dispatches the
      fewest work-groups whose invocations cover every byte of the input. */
  lemma DispatchCounts(inputBufferSize: nat)
    requires inputBufferSize < Uint32Limit
    ensures Pass1GroupCount(inputBufferSize) == Pass2GroupCount(inputBufferSize) + 1
    ensures Pass2GroupCount(inputBufferSize) * WorkgroupSize >= inputBufferSize
    ensures Pass2GroupCount(inputBufferSize) * WorkgroupSize < inputBufferSize + WorkgroupSize
  {
    var q := CeilDiv(inputBufferSize, WorkgroupSize);
    assert q <= inputBufferSize / WorkgroupSize + 1;
    assert q < Uint32Limit;
  }

  /** The group count is derived from bytes, not elements: for n elements the
      second pass runs ceil(n / 16) work-groups, at least 16 invocations per
      element (and the first pass one work-group more). */
  lemma DispatchPerElement(count: nat)
    requires count < MaxElements
    ensures Pass2GroupCount(InputBufferSize(count)) == CeilDiv(count, WorkgroupSize / RecordSize)
    ensures Pass2GroupCount(InputBufferSize(count)) * WorkgroupSize >= RecordSize * count
  {
    var size := InputBufferSize(count);
    DispatchCounts(size);
    var q := CeilDiv(count, 16);
    assert q * 256 >= size;
    assert q > 0 ==> (q - 1) * 256 < size;
    CeilDivUnique(size, 256, q);
  }

  /** CeilDiv is the only q with (q - 1) * b < a <= q * b. */
  lemma CeilDivUnique(a: nat, b: nat, q: nat)
    requires b > 0
    requires q * b >= a
    requires q > 0 ==> (q - 1) * b < a
    ensures q == CeilDiv(a, b)
  {
    var c := CeilDiv(a, b);
    if q > 0 {
      ProductLess(q - 1, c, b);
    }
    if c > 0 {
      ProductLess(c - 1, q, b);
    }
  }

  /** x * b < y * b with b positive forces x < y. */
  lemma ProductLess(x: nat, y: nat, b: nat)
    requires b > 0 && x * b < y * b
    ensures x < y
  {
  }

  /** readFile's padded length: `((long)ceil(filesize / 4.0)) * 4`. */
  function PaddedLength(filesize: nat): (p: nat)
    ensures p % 4 == 0
    ensures filesize <= p < filesize + 4
  {
    CeilDiv(filesize, 4) * 4
  }

  /** The padded length is the least multiple of 4 not below the file size. */
  lemma PaddedLengthIsLeast(filesize: nat, m: nat)
    requires m % 4 == 0 && m >= filesize
    ensures m >= PaddedLength(filesize)
  {
    var p := PaddedLength(filesize);
    if p > 0 {
      ProductLess(p / 4 - 1, m / 4, 4);
    }
  }
}
