/** The 23 objects the native driver creates before it submits any work,
    laid out in creation order, and their teardown.  The Initialize steps
    create them one after another, so when the instance gets handle `base`,
    the object at position `i` of the layout gets handle `base + i`. */
module Lifecycle {
  import opened Records
  import opened Backend

  /** One embedded SPIR-V array: its length in bytes and what it computes. */
  datatype ShaderCode = ShaderCode(length: nat, kernel: Kernel)

  /** smaPass1_spv and smaPass2_spv. */
  datatype Shaders = Shaders(pass1: ShaderCode, pass2: ShaderCode)

  /** What the created objects depend on besides their handles: the compute
      queue family, the buffer sizes, the two memory types chosen, and the
      shader code. */
  datatype Setup = Setup(
    queueFamilyIndex: nat,
    inputBufferSize: nat,
    outputBufferSize: nat,
    stagingType: nat,
    deviceOnlyType: nat,
    shaders: Shaders)

  /** Positions in the layout. */
  const InstanceAt: nat := 0
  const DeviceAt: nat := 1
  const InputBufferAt: nat := 2
  const InputMemoryAt: nat := 3
  const DeviceInputBufferAt: nat := 4
  const DeviceInputMemoryAt: nat := 5
  const OutputBufferAt: nat := 6
  const OutputMemoryAt: nat := 7
  const DeviceOutputBufferAt: nat := 8
  const DeviceOutputMemoryAt: nat := 9
  const SetLayoutAt: nat := 10
  const DescriptorPoolAt: nat := 11
  const DescriptorSetAt: nat := 12
  const FirstModuleAt: nat := 13
  const SecondModuleAt: nat := 14
  const PipelineLayoutAt: nat := 15
  const FirstPipelineAt: nat := 16
  const SecondPipelineAt: nat := 17
  const CommandPoolAt: nat := 18
  const Pass1CommandsAt: nat := 19
  const Pass2CommandsAt: nat := 20
  const CopyInCommandsAt: nat := 21
  const CopyOutCommandsAt: nat := 22
  const LayoutSize: nat := 23

  /** The create-info of the object at position `i`. */
  function LayoutInfo(base: Handle, c: Setup, i: nat): ObjectInfo
  {
    if i == InstanceAt then InstanceInfo(ApiVersion11)
    else if i == DeviceAt then DeviceInfo(c.queueFamilyIndex, 1)
    else if i == InputBufferAt || i == DeviceInputBufferAt then BufferInfo(c.inputBufferSize)
    else if i == InputMemoryAt then MemoryInfo(c.inputBufferSize, c.stagingType)
    else if i == DeviceInputMemoryAt then MemoryInfo(c.inputBufferSize, c.deviceOnlyType)
    else if i == OutputBufferAt || i == DeviceOutputBufferAt then BufferInfo(c.outputBufferSize)
    else if i == OutputMemoryAt then MemoryInfo(c.outputBufferSize, c.stagingType)
    else if i == DeviceOutputMemoryAt then MemoryInfo(c.outputBufferSize, c.deviceOnlyType)
    else if i == SetLayoutAt then DescriptorSetLayoutInfo([0, 1])
    else if i == DescriptorPoolAt then DescriptorPoolInfo(1, 2)
    else if i == DescriptorSetAt then DescriptorSetInfo(base + SetLayoutAt)
    else if i == FirstModuleAt then ShaderModuleInfo(c.shaders.pass1.length, c.shaders.pass1.kernel)
    else if i == SecondModuleAt then ShaderModuleInfo(c.shaders.pass2.length, c.shaders.pass2.kernel)
    else if i == PipelineLayoutAt then PipelineLayoutInfo([base + SetLayoutAt])
    else if i == FirstPipelineAt then ComputePipelineInfo(base + FirstModuleAt, "main", base + PipelineLayoutAt)
    else if i == SecondPipelineAt then ComputePipelineInfo(base + SecondModuleAt, "main", base + PipelineLayoutAt)
    else if i == CommandPoolAt then CommandPoolInfo(c.queueFamilyIndex)
    else CommandBufferInfo
  }

  /** The position of the object that the object at position `i` is created
      from; -1 for the instance, which is created from nothing. */
  function ParentAt(i: nat): int
  {
    if i == InstanceAt then -1
    else if i == DeviceAt then InstanceAt
    else if i == DescriptorSetAt then DescriptorPoolAt
    else if i >= Pass1CommandsAt then CommandPoolAt
    else DeviceAt
  }

  /** The layout with `live[i]` saying whether position `i` is still live. */
  function Layout(base: Handle, c: Setup, live: seq<bool>): (r: seq<Object>)
    requires |live| == LayoutSize
    ensures |r| == LayoutSize
  {
    seq(LayoutSize, i requires 0 <= i < LayoutSize =>
      Object(LayoutInfo(base, c, i), if i == InstanceAt then NullHandle else base + ParentAt(i), live[i]))
  }

  /** Every position live, and none. */
  function AllLive(): (lv: seq<bool>)
    ensures |lv| == LayoutSize
  {
    seq(LayoutSize, _ => true)
  }

  function NoneLive(): (lv: seq<bool>)
    ensures |lv| == LayoutSize
  {
    seq(LayoutSize, _ => false)
  }

  /** Only the instance, the device and what the device created without a
      buffer are live. */
  function BuffersEnded(): (lv: seq<bool>)
    ensures |lv| == LayoutSize
  {
    seq(LayoutSize, i => i < InputBufferAt || i > DeviceOutputMemoryAt)
  }

  /** Only the instance and the device are live. */
  function DeviceLevelEnded(): (lv: seq<bool>)
    ensures |lv| == LayoutSize
  {
    seq(LayoutSize, i => i <= DeviceAt)
  }

  /** The eight buffer and memory objects of the layout, all live. */
  function BufferChunk(base: Handle, c: Setup): seq<Object>
  {
    [Object(BufferInfo(c.inputBufferSize), base + DeviceAt, true),
     Object(MemoryInfo(c.inputBufferSize, c.stagingType), base + DeviceAt, true),
     Object(BufferInfo(c.inputBufferSize), base + DeviceAt, true),
     Object(MemoryInfo(c.inputBufferSize, c.deviceOnlyType), base + DeviceAt, true),
     Object(BufferInfo(c.outputBufferSize), base + DeviceAt, true),
     Object(MemoryInfo(c.outputBufferSize, c.stagingType), base + DeviceAt, true),
     Object(BufferInfo(c.outputBufferSize), base + DeviceAt, true),
     Object(MemoryInfo(c.outputBufferSize, c.deviceOnlyType), base + DeviceAt, true)]
  }

  /** The set layout, the descriptor pool and the set, all live. */
  function DescriptorChunk(base: Handle, c: Setup): seq<Object>
  {
    [Object(DescriptorSetLayoutInfo([0, 1]), base + DeviceAt, true),
     Object(DescriptorPoolInfo(1, 2), base + DeviceAt, true),
     Object(DescriptorSetInfo(base + SetLayoutAt), base + DescriptorPoolAt, true)]
  }

  /** The two shader modules, the pipeline layout and the two pipelines, all
      live. */
  function PipelineChunk(base: Handle, c: Setup): seq<Object>
  {
    [Object(ShaderModuleInfo(c.shaders.pass1.length, c.shaders.pass1.kernel), base + DeviceAt, true),
     Object(ShaderModuleInfo(c.shaders.pass2.length, c.shaders.pass2.kernel), base + DeviceAt, true),
     Object(PipelineLayoutInfo([base + SetLayoutAt]), base + DeviceAt, true),
     Object(ComputePipelineInfo(base + FirstModuleAt, "main", base + PipelineLayoutAt), base + DeviceAt, true),
     Object(ComputePipelineInfo(base + SecondModuleAt, "main", base + PipelineLayoutAt), base + DeviceAt, true)]
  }

  /** The command pool and its four command buffers, all live. */
  function CommandChunk(base: Handle, c: Setup): seq<Object>
  {
    [Object(CommandPoolInfo(c.queueFamilyIndex), base + DeviceAt, true),
     Object(CommandBufferInfo, base + CommandPoolAt, true),
     Object(CommandBufferInfo, base + CommandPoolAt, true),
     Object(CommandBufferInfo, base + CommandPoolAt, true),
     Object(CommandBufferInfo, base + CommandPoolAt, true)]
  }

  /** The layout with every object live is the instance, the device and the
      four groups, in creation order. */
  lemma LayoutAllLive(base: Handle, c: Setup)
    requires base > 0
    ensures Layout(base, c, AllLive())
         == [Object(InstanceInfo(ApiVersion11), NullHandle, true),
             Object(DeviceInfo(c.queueFamilyIndex, 1), base, true)]
          + BufferChunk(base, c) + DescriptorChunk(base, c) + PipelineChunk(base, c) + CommandChunk(base, c)
  {
  }

  /** Liveness after destroying position `j`: it ends, and so does what was
      created from it. */
  function Ended(live: seq<bool>, j: nat): (r: seq<bool>)
    requires |live| == LayoutSize
    ensures |r| == LayoutSize
  {
    seq(LayoutSize, i requires 0 <= i < LayoutSize => live[i] && i != j && ParentAt(i) != j)
  }

  /** Position `j` of the layout is a descriptor pool or a command pool. */
  predicate PoolAt(j: nat)
  {
    j == DescriptorPoolAt || j == CommandPoolAt
  }

  /** Nothing live in `live` was created from position `j`. */
  predicate NoLiveChildAt(live: seq<bool>, j: nat)
    requires |live| == LayoutSize
  {
    forall i :: 0 <= i < LayoutSize && ParentAt(i) == j ==> !live[i]
  }

  /** The driver's objects are those of an earlier user `before`, then the
      layout from handle |before| + 1 with liveness `live`, then `after`,
      objects created from the device that are no longer live. */
  ghost predicate Laid(vk: Vk, before: seq<Object>, base: Handle, c: Setup, live: seq<bool>, after: seq<Object>)
  {
    && vk.Valid()
    && base == |before| + 1
    && |live| == LayoutSize
    && vk.objects == before + Layout(base, c, live) + after
    && (forall k :: 0 <= k < |after| ==> !after[k].live && after[k].parent == base + DeviceAt)
  }

  /** In objects laid out as `before`, the layout, then anything, position
      `j` of the layout is handle base + j. */
  lemma LayoutAt(objects: seq<Object>, before: seq<Object>, base: Handle, c: Setup, live: seq<bool>, rest: seq<Object>, j: nat)
    requires base == |before| + 1 && |live| == LayoutSize && j < LayoutSize
    requires objects == before + Layout(base, c, live) + rest
    ensures 0 < base + j <= |objects|
    ensures objects[base + j - 1] == Layout(base, c, live)[j]
  {
    assert objects[base + j - 1] == (before + Layout(base, c, live))[base + j - 1];
  }

  /** A layout position maps to the handle base + position. */
  lemma LaidEntry(vk: Vk, before: seq<Object>, base: Handle, c: Setup, live: seq<bool>, after: seq<Object>, j: nat)
    requires Laid(vk, before, base, c, live, after) && j < LayoutSize
    ensures vk.Has(base + j)
    ensures vk.objects[base + j - 1] == Layout(base, c, live)[j]
  {
    assert vk.objects[base + j - 1] == (before + Layout(base, c, live))[base + j - 1];
  }

  /** With every object of the layout's position `j` ended, no live object
      anywhere was created from handle base + j. */
  lemma NoLiveChildInLayout(vk: Vk, before: seq<Object>, base: Handle, c: Setup, live: seq<bool>, after: seq<Object>, j: nat)
    requires Laid(vk, before, base, c, live, after) && j < LayoutSize
    requires NoLiveChildAt(live, j)
    ensures LiveChildren(vk.objects, base + j) == 0
  {
    var lay := Layout(base, c, live);
    forall k | 0 <= k < |vk.objects|
      ensures !LiveChildOf(vk.objects[k], base + j)
    {
      if k < |before| {
        assert ValidEntry(vk.objects, k);
      } else if k < |before| + LayoutSize {
        assert vk.objects[k] == lay[k - |before|];
      } else {
        assert vk.objects[k] == after[k - |before| - LayoutSize];
      }
    }
    LiveChildrenZero(vk.objects, base + j);
  }

  /** vkDestroy* or vkFree* on the object at position `j`: the layout's
      liveness becomes Ended(live, j) and nothing else changes.  The call is
      valid: no batch is pending, the object is live and, unless it is a
      pool, nothing live was created from it. */
  method DestroyAt(vk: Vk, handle: Handle, ghost before: seq<Object>, ghost base: Handle, ghost c: Setup,
                   ghost live: seq<bool>, ghost after: seq<Object>) returns (vk': Vk)
    requires Laid(vk, before, base, c, live, after) && vk.QueueIdle()
    requires base <= handle < base + LayoutSize && live[handle - base]
    requires PoolAt(handle - base) || NoLiveChildAt(live, handle - base)
    ensures Laid(vk', before, base, c, Ended(live, handle - base), after)
    ensures vk' == vk.(objects := vk'.objects)
  {
    var j := handle - base;
    LaidEntry(vk, before, base, c, live, after, j);
    if !PoolAt(j) {
      NoLiveChildInLayout(vk, before, base, c, live, after, j);
    }
    DestroyKeepsValid(vk, handle);
    vk' := vk.Destroy(handle);
    KilledInLayout(before, base, c, live, after, j);
  }

  /** What Killed does to a laid-out sequence. */
  lemma KilledInLayout(before: seq<Object>, base: Handle, c: Setup, live: seq<bool>, after: seq<Object>, j: nat)
    requires base == |before| + 1 && |live| == LayoutSize && j < LayoutSize
    requires ValidObjects(before + Layout(base, c, live) + after)
    requires forall k :: 0 <= k < |after| ==> !after[k].live && after[k].parent == base + DeviceAt
    requires PoolAt(j) || NoLiveChildAt(live, j)
    ensures Killed(before + Layout(base, c, live) + after, base + j)
         == before + Layout(base, c, Ended(live, j)) + after
  {
    var s := before + Layout(base, c, live) + after;
    var t := before + Layout(base, c, Ended(live, j)) + after;
    var r := Killed(s, base + j);
    forall k | 0 <= k < |s|
      ensures r[k] == t[k]
    {
      assert ValidEntry(s, k);
    }
  }
}
