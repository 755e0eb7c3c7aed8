/** The native driver of Sample.native/main.c: the ComputeApplication record
    that the Initialize steps fill with handles, the submission of the four
    recorded command buffers on one fence, teardown, and the exported
    ComputeResult.  Every Vulkan call goes through the driver state `Vk`,
    which each step takes and gives back. */
module Application {
  import opened Wrappers
  import opened Records
  import opened Vulkan
  import opened Selection
  import opened Sizing
  import opened Backend
  import opened Lifecycle
  import opened Phases

  /** The two passes over input cells, starting from the output cells the
      device-only output memory holds. */
  function SmaCells(shaders: Shaders, input: seq<Quad>, output: seq<Quad>): (r: seq<Quad>)
    ensures |r| == |output|
  {
    RunKernel(shaders.pass2.kernel, input, RunKernel(shaders.pass1.kernel, input, output))
  }

  /** The 23 handles of a ComputeApplication in creation order. */
  datatype Placement = Placement(
    instance: Handle, device: Handle,
    inputBuffer: Handle, inputBufferMemory: Handle, deviceOnlyInputBuffer: Handle, deviceOnlyInputBufferMemory: Handle,
    outputBuffer: Handle, outputBufferMemory: Handle, deviceOnlyOutputBuffer: Handle, deviceOnlyOutputBufferMemory: Handle,
    descriptorSetLayout: Handle, descriptorPool: Handle, descriptorSet: Handle,
    firstModule: Handle, secondModule: Handle, pipelineLayout: Handle, firstPipeline: Handle, secondPipeline: Handle,
    commandPool: Handle, pass1Commands: Handle, pass2Commands: Handle, copyInCommands: Handle, copyOutCommands: Handle)

  /** The handles of the layout when the instance is handle `base`. */
  function PlacementFrom(base: Handle): Placement
  {
    Placement(base, base + DeviceAt,
      base + InputBufferAt, base + InputMemoryAt, base + DeviceInputBufferAt, base + DeviceInputMemoryAt,
      base + OutputBufferAt, base + OutputMemoryAt, base + DeviceOutputBufferAt, base + DeviceOutputMemoryAt,
      base + SetLayoutAt, base + DescriptorPoolAt, base + DescriptorSetAt,
      base + FirstModuleAt, base + SecondModuleAt, base + PipelineLayoutAt,
      base + FirstPipelineAt, base + SecondPipelineAt,
      base + CommandPoolAt, base + Pass1CommandsAt, base + Pass2CommandsAt,
      base + CopyInCommandsAt, base + CopyOutCommandsAt)
  }

  /** Each buffer of the layout at `base` bound to its own memory. */
  function BindingsAt(base: Handle, boundMemory: map<Handle, Handle>): map<Handle, Handle>
  {
    var m1: map<Handle, Handle> := boundMemory[base + InputBufferAt := base + InputMemoryAt];
    var m2: map<Handle, Handle> := m1[base + DeviceInputBufferAt := base + DeviceInputMemoryAt];
    var m3: map<Handle, Handle> := m2[base + OutputBufferAt := base + OutputMemoryAt];
    m3[base + DeviceOutputBufferAt := base + DeviceOutputMemoryAt]
  }

  /** The descriptor set's two bindings: the whole device-only input and
      output buffers. */
  function SetWritesAt(base: Handle, c: Setup, descriptorWrites: map<Handle, seq<BufferRange>>): map<Handle, seq<BufferRange>>
  {
    descriptorWrites[base + DescriptorSetAt := [
      BufferRange(base + DeviceInputBufferAt, 0, c.inputBufferSize),
      BufferRange(base + DeviceOutputBufferAt, 0, c.outputBufferSize)]]
  }

  /** The recordings of the four command buffers. */
  function RecordingsAt(base: Handle, c: Setup, recorded: map<Handle, seq<Command>>): map<Handle, seq<Command>>
  {
    var r1: map<Handle, seq<Command>> := recorded
      [base + CopyInCommandsAt := CopyCommands(base + InputBufferAt, base + DeviceInputBufferAt, c.inputBufferSize)];
    var r2: map<Handle, seq<Command>> := r1
      [base + Pass1CommandsAt := PassCommands(base + FirstPipelineAt, base + PipelineLayoutAt, base + DescriptorSetAt, Pass1GroupCount(c.inputBufferSize))];
    var r3: map<Handle, seq<Command>> := r2
      [base + Pass2CommandsAt := PassCommands(base + SecondPipelineAt, base + PipelineLayoutAt, base + DescriptorSetAt, Pass2GroupCount(c.inputBufferSize))];
    r3[base + CopyOutCommandsAt := CopyCommands(base + DeviceOutputBufferAt, base + OutputBufferAt, c.outputBufferSize)]
  }

  /** The four memory objects as vkAllocateMemory leaves them: `n` zero
      cells each. */
  function ZeroedAt(base: Handle, n: nat, contents: map<Handle, seq<Quad>>): map<Handle, seq<Quad>>
  {
    var zero := ZeroCells(n);
    var c1: map<Handle, seq<Quad>> := contents[base + InputMemoryAt := zero];
    var c2: map<Handle, seq<Quad>> := c1[base + DeviceInputMemoryAt := zero];
    var c3: map<Handle, seq<Quad>> := c2[base + OutputMemoryAt := zero];
    c3[base + DeviceOutputMemoryAt := zero]
  }

  class ComputeApplication {
    var instance: Handle
    var physicalDevice: Option<PhysicalDevice>
    var device: Handle
    var smaFirstPassPipeline: Handle
    var smaSecondPassPipeline: Handle
    var pipelineLayout: Handle
    var smaFirstPassShaderModule: Handle
    var smaSecondPassShaderModule: Handle
    var commandPool: Handle
    var smaPass1CommandBuffer: Handle
    var smaPass2CommandBuffer: Handle
    var copyInputBufferToDeviceCommand: Handle
    var copyFromDeviceOutputCommand: Handle
    var descriptorPool: Handle
    var descriptorSet: Handle
    var descriptorSetLayout: Handle
    var queue: Option<QueueRef>
    var queueFamilyIndex: nat

    var inputData: array?<Candlestick>
    var inputDataElementsCount: nat
    var inputBufferSize: nat

    var inputBuffer: Handle
    var inputBufferMemory: Handle
    var deviceOnlyInputBuffer: Handle
    var deviceOnlyInputBufferMemory: Handle
    var outputBuffer: Handle
    var outputBufferMemory: Handle
    var deviceOnlyOutputBuffer: Handle
    var deviceOnlyOutputBufferMemory: Handle

    /** calloc: every handle VK_NULL_HANDLE, every pointer NULL, every count 0. */
    constructor ()
      ensures instance == device == NullHandle && physicalDevice == None && queue == None && queueFamilyIndex == 0
      ensures inputBuffer == inputBufferMemory == deviceOnlyInputBuffer == deviceOnlyInputBufferMemory == NullHandle
      ensures outputBuffer == outputBufferMemory == deviceOnlyOutputBuffer == deviceOnlyOutputBufferMemory == NullHandle
      ensures descriptorSetLayout == descriptorPool == descriptorSet == NullHandle
      ensures smaFirstPassShaderModule == smaSecondPassShaderModule == pipelineLayout == NullHandle
      ensures smaFirstPassPipeline == smaSecondPassPipeline == NullHandle
      ensures commandPool == smaPass1CommandBuffer == smaPass2CommandBuffer == NullHandle
      ensures copyInputBufferToDeviceCommand == copyFromDeviceOutputCommand == NullHandle
      ensures inputData == null && inputDataElementsCount == 0 && inputBufferSize == 0
    {
      instance, physicalDevice, device := NullHandle, None, NullHandle;
      smaFirstPassPipeline, smaSecondPassPipeline, pipelineLayout := NullHandle, NullHandle, NullHandle;
      smaFirstPassShaderModule, smaSecondPassShaderModule := NullHandle, NullHandle;
      commandPool, smaPass1CommandBuffer, smaPass2CommandBuffer := NullHandle, NullHandle, NullHandle;
      copyInputBufferToDeviceCommand, copyFromDeviceOutputCommand := NullHandle, NullHandle;
      descriptorPool, descriptorSet, descriptorSetLayout := NullHandle, NullHandle, NullHandle;
      queue, queueFamilyIndex := None, 0;
      inputData, inputDataElementsCount, inputBufferSize := null, 0, 0;
      inputBuffer, inputBufferMemory, deviceOnlyInputBuffer, deviceOnlyInputBufferMemory := NullHandle, NullHandle, NullHandle, NullHandle;
      outputBuffer, outputBufferMemory, deviceOnlyOutputBuffer, deviceOnlyOutputBufferMemory := NullHandle, NullHandle, NullHandle, NullHandle;
    }

    /** The memory type chosen for the two host-side (staging) buffers. */
    function StagingMemoryType(): nat
      reads this`physicalDevice
      requires physicalDevice.Some? && physicalDevice.value.WellFormed()
    {
      var pd := physicalDevice.value;
      MemoryTypeIndex(pd.memoryTypes, pd.storageBufferTypeBits, HostVisible | HostCoherent)
    }

    /** The memory type chosen for the two device-only buffers. */
    function DeviceOnlyMemoryType(): nat
      reads this`physicalDevice
      requires physicalDevice.Some? && physicalDevice.value.WellFormed()
    {
      var pd := physicalDevice.value;
      MemoryTypeIndex(pd.memoryTypes, pd.storageBufferTypeBits, DeviceLocal)
    }

    /** InitializeVulkanInstance: a Vulkan 1.1 instance. */
    method InitializeVulkanInstance(vk: Vk) returns (vk': Vk)
      requires vk.Valid()
      modifies this`instance
      ensures instance == vk.NextHandle()
      ensures vk'.Valid()
      ensures vk' == vk.(objects := vk.objects + [Object(InstanceInfo(ApiVersion11), NullHandle, true)])
    {
      CreateKeepsValid(vk, InstanceInfo(ApiVersion11), NullHandle);
      instance := vk.NextHandle();
      vk' := vk.Create(InstanceInfo(ApiVersion11), NullHandle);
    }

    /** SelectPhysicalDevice: the first physical device; with none the source
        prints a message and leaves the handle as it was. */
    method SelectPhysicalDevice(vk: Vk)
      modifies this`physicalDevice
      ensures |vk.physicalDevices| == 0 ==> physicalDevice == old(physicalDevice)
      ensures |vk.physicalDevices| > 0 ==> physicalDevice == Some(vk.physicalDevices[0])
    {
      if |vk.physicalDevices| == 0 {
        return;
      }
      physicalDevice := Some(vk.physicalDevices[0]);
    }

    /** InitializeVulkanDevice: a logical device with one queue of the first
        compute-capable family, and that queue.  `exited` stands for the
        `exit(1)` taken when no family qualifies. */
    method InitializeVulkanDevice(vk: Vk) returns (vk': Vk, exited: bool)
      requires vk.Valid() && vk.Live(instance) && physicalDevice.Some?
      modifies this`queueFamilyIndex, this`device, this`queue
      ensures exited <==> FirstComputeFamilyFrom(physicalDevice.value.queueFamilies, 0).None?
      ensures exited ==> vk' == vk
      ensures !exited ==> Some(queueFamilyIndex) == FirstComputeFamilyFrom(physicalDevice.value.queueFamilies, 0)
      ensures !exited ==> device == vk.NextHandle() && queue == Some(QueueRef(device, queueFamilyIndex, 0))
      ensures vk'.Valid()
      ensures !exited ==> vk' == vk.(objects := vk.objects + [Object(DeviceInfo(queueFamilyIndex, 1), instance, true)])
    {
      var family := GetComputeQueueFamilyIndex(physicalDevice.value.queueFamilies);
      if family.None? {
        return vk, true;
      }
      queueFamilyIndex := family.value;
      CreateKeepsValid(vk, DeviceInfo(queueFamilyIndex, 1), instance);
      device := vk.NextHandle();
      vk' := vk.Create(DeviceInfo(queueFamilyIndex, 1), instance);
      queue := Some(QueueRef(device, queueFamilyIndex, 0));
      exited := false;
    }

    /** InitializeBuffers: a staging and a device-only buffer for input, both
        from one create-info of inputBufferSize bytes, and the same pair for
        output at sizeof(Indicator) bytes per element; staging memory is
        requested HOST_VISIBLE|HOST_COHERENT and device-only memory
        DEVICE_LOCAL, each through RetrieveMemoryType, and each buffer is
        bound to its own memory at offset 0. */
    method InitializeBuffers(vk: Vk) returns (vk': Vk)
      requires vk.Valid() && vk.Live(device)
      requires physicalDevice.Some? && physicalDevice.value.WellFormed()
      modifies this`inputBuffer, this`inputBufferMemory, this`deviceOnlyInputBuffer, this`deviceOnlyInputBufferMemory
      modifies this`outputBuffer, this`outputBufferMemory, this`deviceOnlyOutputBuffer, this`deviceOnlyOutputBufferMemory
      ensures inputBuffer == vk.NextHandle() && inputBufferMemory == inputBuffer + 1
      ensures deviceOnlyInputBuffer == inputBuffer + 2 && deviceOnlyInputBufferMemory == inputBuffer + 3
      ensures outputBuffer == inputBuffer + 4 && outputBufferMemory == inputBuffer + 5
      ensures deviceOnlyOutputBuffer == inputBuffer + 6 && deviceOnlyOutputBufferMemory == inputBuffer + 7
      ensures vk'.Valid()
      ensures vk'.objects == vk.objects + [
        Object(BufferInfo(inputBufferSize), device, true),
        Object(MemoryInfo(inputBufferSize, StagingMemoryType()), device, true),
        Object(BufferInfo(inputBufferSize), device, true),
        Object(MemoryInfo(inputBufferSize, DeviceOnlyMemoryType()), device, true),
        Object(BufferInfo(OutputBufferSize(inputDataElementsCount)), device, true),
        Object(MemoryInfo(OutputBufferSize(inputDataElementsCount), StagingMemoryType()), device, true),
        Object(BufferInfo(OutputBufferSize(inputDataElementsCount)), device, true),
        Object(MemoryInfo(OutputBufferSize(inputDataElementsCount), DeviceOnlyMemoryType()), device, true)]
      ensures vk'.boundMemory == vk.boundMemory
        [inputBuffer := inputBufferMemory][deviceOnlyInputBuffer := deviceOnlyInputBufferMemory]
        [outputBuffer := outputBufferMemory][deviceOnlyOutputBuffer := deviceOnlyOutputBufferMemory]
      ensures vk'.contents == vk.contents
        [inputBufferMemory := ZeroCells(inputBufferSize / RecordSize)]
        [deviceOnlyInputBufferMemory := ZeroCells(inputBufferSize / RecordSize)]
        [outputBufferMemory := ZeroCells(inputDataElementsCount)]
        [deviceOnlyOutputBufferMemory := ZeroCells(inputDataElementsCount)]
      ensures vk' == vk.(objects := vk'.objects, boundMemory := vk'.boundMemory, contents := vk'.contents)
    {
      var pd, dev := physicalDevice.value, device;
      var inSize, outSize := inputBufferSize, OutputBufferSize(inputDataElementsCount);
      var v1, v2, v3, b1, m1, b2, m2, b3, m3, b4, m4;
      v1, b1, m1 := CreateBoundBuffer(vk, pd, dev, inSize, HostVisible | HostCoherent);
      v2, b2, m2 := CreateBoundBuffer(v1, pd, dev, inSize, DeviceLocal);
      v3, b3, m3 := CreateBoundBuffer(v2, pd, dev, outSize, HostVisible | HostCoherent);
      vk', b4, m4 := CreateBoundBuffer(v3, pd, dev, outSize, DeviceLocal);
      inputBuffer, inputBufferMemory, deviceOnlyInputBuffer, deviceOnlyInputBufferMemory := b1, m1, b2, m2;
      outputBuffer, outputBufferMemory, deviceOnlyOutputBuffer, deviceOnlyOutputBufferMemory := b3, m3, b4, m4;
    }

    /** InitializeDescriptorSetLayout: bindings 0 and 1, one storage buffer
        each, for the compute stage. */
    method InitializeDescriptorSetLayout(vk: Vk) returns (vk': Vk)
      requires vk.Valid() && vk.Live(device)
      modifies this`descriptorSetLayout
      ensures descriptorSetLayout == vk.NextHandle()
      ensures vk'.Valid()
      ensures vk' == vk.(objects := vk.objects + [Object(DescriptorSetLayoutInfo([0, 1]), device, true)])
    {
      CreateKeepsValid(vk, DescriptorSetLayoutInfo([0, 1]), device);
      descriptorSetLayout := vk.NextHandle();
      vk' := vk.Create(DescriptorSetLayoutInfo([0, 1]), device);
    }

    /** InitializeDescriptorSets: a pool for one set of two storage-buffer
        descriptors, one set of the layout allocated from it, and one write
        pointing binding 0 at the whole device-only input buffer
        (inputBufferSize bytes) and binding 1 at the whole device-only output
        buffer (sizeof(Indicator) bytes per element). */
    method InitializeDescriptorSets(vk: Vk) returns (vk': Vk)
      requires vk.Valid() && vk.Live(device)
      modifies this`descriptorPool, this`descriptorSet
      ensures descriptorPool == vk.NextHandle() && descriptorSet == descriptorPool + 1
      ensures vk'.Valid()
      ensures vk' == vk.(
        objects := vk.objects + [
          Object(DescriptorPoolInfo(1, 2), device, true),
          Object(DescriptorSetInfo(descriptorSetLayout), descriptorPool, true)],
        descriptorWrites := vk.descriptorWrites[descriptorSet := [
          BufferRange(deviceOnlyInputBuffer, 0, inputBufferSize),
          BufferRange(deviceOnlyOutputBuffer, 0, OutputBufferSize(inputDataElementsCount))]])
    {
      var dev, layout := device, descriptorSetLayout;
      var ranges := [
        BufferRange(deviceOnlyInputBuffer, 0, inputBufferSize),
        BufferRange(deviceOnlyOutputBuffer, 0, OutputBufferSize(inputDataElementsCount))];
      var pool := vk.NextHandle();
      CreateKeepsValid(vk, DescriptorPoolInfo(1, 2), dev);
      var vk1 := vk.Create(DescriptorPoolInfo(1, 2), dev);
      var newSet := vk1.NextHandle();
      CreateKeepsValid(vk1, DescriptorSetInfo(layout), pool);
      var vk2 := vk1.Create(DescriptorSetInfo(layout), pool);
      vk' := vk2.UpdateDescriptorSet(newSet, ranges);
      descriptorPool, descriptorSet := pool, newSet;
    }

    /** InitializeComputePipelines: a shader module from each embedded array
        at its raw length, a pipeline layout with the one descriptor set
        layout, and a compute pipeline per module with entry point "main". */
    method InitializeComputePipelines(vk: Vk, shaders: Shaders) returns (vk': Vk)
      requires vk.Valid() && vk.Live(device)
      modifies this`smaFirstPassShaderModule, this`smaSecondPassShaderModule, this`pipelineLayout
      modifies this`smaFirstPassPipeline, this`smaSecondPassPipeline
      ensures smaFirstPassShaderModule == vk.NextHandle() && smaSecondPassShaderModule == smaFirstPassShaderModule + 1
      ensures pipelineLayout == smaFirstPassShaderModule + 2
      ensures smaFirstPassPipeline == smaFirstPassShaderModule + 3 && smaSecondPassPipeline == smaFirstPassShaderModule + 4
      ensures vk'.Valid()
      ensures vk' == vk.(objects := vk.objects + [
        Object(ShaderModuleInfo(shaders.pass1.length, shaders.pass1.kernel), device, true),
        Object(ShaderModuleInfo(shaders.pass2.length, shaders.pass2.kernel), device, true),
        Object(PipelineLayoutInfo([descriptorSetLayout]), device, true),
        Object(ComputePipelineInfo(smaFirstPassShaderModule, "main", pipelineLayout), device, true),
        Object(ComputePipelineInfo(smaSecondPassShaderModule, "main", pipelineLayout), device, true)])
    {
      var dev, setLayout := device, descriptorSetLayout;
      var module1, v1 := CreateChild(vk, ShaderModuleInfo(shaders.pass1.length, shaders.pass1.kernel), dev);
      var module2, v2 := CreateChild(v1, ShaderModuleInfo(shaders.pass2.length, shaders.pass2.kernel), dev);
      var layout, v3 := CreateChild(v2, PipelineLayoutInfo([setLayout]), dev);
      var pipeline1, v4 := CreateChild(v3, ComputePipelineInfo(module1, "main", layout), dev);
      var pipeline2, v5 := CreateChild(v4, ComputePipelineInfo(module2, "main", layout), dev);
      smaFirstPassShaderModule, smaSecondPassShaderModule, pipelineLayout := module1, module2, layout;
      smaFirstPassPipeline, smaSecondPassPipeline := pipeline1, pipeline2;
      vk' := v5;
    }

    /** InitializeCommandBuffers: a command pool on the compute family, four
        primary command buffers from it (pass 1, pass 2, copy-in, copy-out, in
        that order), and their one-time recordings: copy-in moves
        inputBufferSize bytes from the staging to the device-only input
        buffer; each pass binds its pipeline and the descriptor set and
        dispatches ceil(inputBufferSize / 256) work-groups, plus one for pass
        1; copy-out moves sizeof(Indicator) bytes per element from the
        device-only to the staging output buffer. */
    method InitializeCommandBuffers(vk: Vk) returns (vk': Vk)
      requires vk.Valid() && vk.Live(device)
      modifies this`commandPool, this`smaPass1CommandBuffer, this`smaPass2CommandBuffer
      modifies this`copyInputBufferToDeviceCommand, this`copyFromDeviceOutputCommand
      ensures commandPool == vk.NextHandle()
      ensures smaPass1CommandBuffer == commandPool + 1 && smaPass2CommandBuffer == commandPool + 2
      ensures copyInputBufferToDeviceCommand == commandPool + 3 && copyFromDeviceOutputCommand == commandPool + 4
      ensures vk'.Valid()
      ensures vk' == vk.(
        objects := vk.objects + [
          Object(CommandPoolInfo(queueFamilyIndex), device, true),
          Object(CommandBufferInfo, commandPool, true),
          Object(CommandBufferInfo, commandPool, true),
          Object(CommandBufferInfo, commandPool, true),
          Object(CommandBufferInfo, commandPool, true)],
        recorded := vk.recorded
          [copyInputBufferToDeviceCommand := CopyCommands(inputBuffer, deviceOnlyInputBuffer, inputBufferSize)]
          [smaPass1CommandBuffer := PassCommands(smaFirstPassPipeline, pipelineLayout, descriptorSet, Pass1GroupCount(inputBufferSize))]
          [smaPass2CommandBuffer := PassCommands(smaSecondPassPipeline, pipelineLayout, descriptorSet, Pass2GroupCount(inputBufferSize))]
          [copyFromDeviceOutputCommand := CopyCommands(deviceOnlyOutputBuffer, outputBuffer, OutputBufferSize(inputDataElementsCount))])
    {
      var dev, family := device, queueFamilyIndex;
      var size, outSize, boundSet := inputBufferSize, OutputBufferSize(inputDataElementsCount), descriptorSet;
      var pool, v0 := CreateChild(vk, CommandPoolInfo(family), dev);
      var cb1, v1 := CreateChild(v0, CommandBufferInfo, pool);
      var cb2, v2 := CreateChild(v1, CommandBufferInfo, pool);
      var cb3, v3 := CreateChild(v2, CommandBufferInfo, pool);
      var cb4, v4 := CreateChild(v3, CommandBufferInfo, pool);
      vk' := v4.Record(cb3, CopyCommands(inputBuffer, deviceOnlyInputBuffer, size));
      vk' := vk'.Record(cb1, PassCommands(smaFirstPassPipeline, pipelineLayout, boundSet, Pass1GroupCount(size)));
      vk' := vk'.Record(cb2, PassCommands(smaSecondPassPipeline, pipelineLayout, boundSet, Pass2GroupCount(size)));
      vk' := vk'.Record(cb4, CopyCommands(deviceOnlyOutputBuffer, outputBuffer, outSize));
      commandPool, smaPass1CommandBuffer, smaPass2CommandBuffer := pool, cb1, cb2;
      copyInputBufferToDeviceCommand, copyFromDeviceOutputCommand := cb3, cb4;
    }

    /** What the created objects depend on besides their handles. */
    function SetupOf(shaders: Shaders): (c: Setup)
      reads this`queueFamilyIndex, this`inputBufferSize, this`inputDataElementsCount, this`physicalDevice
      requires physicalDevice.Some? && physicalDevice.value.WellFormed()
      ensures c.shaders == shaders && c.inputBufferSize == inputBufferSize
    {
      Setup(queueFamilyIndex, inputBufferSize, OutputBufferSize(inputDataElementsCount),
            StagingMemoryType(), DeviceOnlyMemoryType(), shaders)
    }

    /** The Initialize steps in the order ComputeResult and run call them.
        Unless InitializeVulkanDevice exits, they leave the 23 objects live
        and laid out right after the objects that existed before, the
        buffers bound, the descriptor set written and the four command
        buffers recorded, with every memory object holding zero cells. */
    method Initialize(vk: Vk, shaders: Shaders) returns (vk': Vk, exited: bool)
      requires vk.Valid() && |vk.physicalDevices| > 0 && vk.physicalDevices[0].WellFormed()
      requires 0 < inputDataElementsCount < MaxElements && inputBufferSize == RecordSize * inputDataElementsCount
      modifies this`instance, this`physicalDevice, this`device, this`queue, this`queueFamilyIndex
      modifies this`inputBuffer, this`inputBufferMemory, this`deviceOnlyInputBuffer, this`deviceOnlyInputBufferMemory
      modifies this`outputBuffer, this`outputBufferMemory, this`deviceOnlyOutputBuffer, this`deviceOnlyOutputBufferMemory
      modifies this`descriptorSetLayout, this`descriptorPool, this`descriptorSet
      modifies this`smaFirstPassShaderModule, this`smaSecondPassShaderModule, this`pipelineLayout
      modifies this`smaFirstPassPipeline, this`smaSecondPassPipeline
      modifies this`commandPool, this`smaPass1CommandBuffer, this`smaPass2CommandBuffer
      modifies this`copyInputBufferToDeviceCommand, this`copyFromDeviceOutputCommand
      ensures physicalDevice == Some(vk.physicalDevices[0])
      ensures exited <==> FirstComputeFamilyFrom(vk.physicalDevices[0].queueFamilies, 0).None?
      ensures exited ==> vk'.Valid() && vk'.objects == vk.objects + [Object(InstanceInfo(ApiVersion11), NullHandle, true)]
      ensures !exited ==> Ready(vk', vk.objects, SetupOf(shaders))
      ensures !exited ==> vk'.contents == ZeroedAt(instance, inputDataElementsCount, vk.contents)
      ensures vk'.fences == vk.fences && vk'.submissions == vk.submissions && vk'.completed == vk.completed
    {
      var v1 := InitializeVulkanInstance(vk);
      SelectPhysicalDevice(v1);
      var v2;
      v2, exited := InitializeVulkanDevice(v1);
      if exited {
        return v2, true;
      }
      vk' := InitializeObjects(vk, v2, shaders, SetupOf(shaders));
    }

    /** InitializeBuffers through InitializeCommandBuffers, after
        InitializeVulkanInstance and InitializeVulkanDevice created the
        instance and the device as the two newest objects of `vk`. */
    method InitializeObjects(v0: Vk, vk: Vk, shaders: Shaders, ghost c: Setup) returns (vk': Vk)
      requires vk.Valid() && vk.Live(device) && physicalDevice.Some? && physicalDevice.value.WellFormed()
      requires 0 < inputDataElementsCount < MaxElements && inputBufferSize == RecordSize * inputDataElementsCount
      requires instance == v0.NextHandle() && device == instance + DeviceAt && c == SetupOf(shaders)
      requires vk == v0.(objects := v0.objects
        + [Object(InstanceInfo(ApiVersion11), NullHandle, true)]
        + [Object(DeviceInfo(queueFamilyIndex, 1), instance, true)])
      modifies this`inputBuffer, this`inputBufferMemory, this`deviceOnlyInputBuffer, this`deviceOnlyInputBufferMemory
      modifies this`outputBuffer, this`outputBufferMemory, this`deviceOnlyOutputBuffer, this`deviceOnlyOutputBufferMemory
      modifies this`descriptorSetLayout, this`descriptorPool, this`descriptorSet
      modifies this`smaFirstPassShaderModule, this`smaSecondPassShaderModule, this`pipelineLayout
      modifies this`smaFirstPassPipeline, this`smaSecondPassPipeline
      modifies this`commandPool, this`smaPass1CommandBuffer, this`smaPass2CommandBuffer
      modifies this`copyInputBufferToDeviceCommand, this`copyFromDeviceOutputCommand
      ensures Ready(vk', v0.objects, c)
      ensures vk'.contents == ZeroedAt(instance, inputDataElementsCount, v0.contents)
      ensures vk'.fences == v0.fences && vk'.submissions == v0.submissions && vk'.completed == v0.completed
    {
      var v3 := InitializeBuffersAndDescriptors(vk, c);
      vk' := FinishObjects(vk, v3, shaders, c);
      InitializedIsReady(v0, vk', c);
    }

    /** InitializeComputePipelines and InitializeCommandBuffers after
        InitializeBuffersAndDescriptors took `vk` to `v3`. */
    method FinishObjects(vk: Vk, v3: Vk, shaders: Shaders, ghost c: Setup) returns (vk': Vk)
      requires v3.Valid() && v3.Live(device) && physicalDevice.Some? && physicalDevice.value.WellFormed()
      requires device == instance + DeviceAt && vk.NextHandle() == instance + InputBufferAt && c == SetupOf(shaders)
      requires (inputBuffer, inputBufferMemory, deviceOnlyInputBuffer, deviceOnlyInputBufferMemory)
            == (instance + InputBufferAt, instance + InputMemoryAt, instance + DeviceInputBufferAt, instance + DeviceInputMemoryAt)
      requires (outputBuffer, outputBufferMemory, deviceOnlyOutputBuffer, deviceOnlyOutputBufferMemory)
            == (instance + OutputBufferAt, instance + OutputMemoryAt, instance + DeviceOutputBufferAt, instance + DeviceOutputMemoryAt)
      requires (descriptorSetLayout, descriptorPool, descriptorSet)
            == (instance + SetLayoutAt, instance + DescriptorPoolAt, instance + DescriptorSetAt)
      requires v3 == vk.(objects := vk.objects + BufferChunk(instance, c) + DescriptorChunk(instance, c),
                         boundMemory := BindingsAt(instance, vk.boundMemory),
                         descriptorWrites := SetWritesAt(instance, c, vk.descriptorWrites),
                         contents := ZeroedAt(instance, inputDataElementsCount, vk.contents))
      modifies this`smaFirstPassShaderModule, this`smaSecondPassShaderModule, this`pipelineLayout
      modifies this`smaFirstPassPipeline, this`smaSecondPassPipeline
      modifies this`commandPool, this`smaPass1CommandBuffer, this`smaPass2CommandBuffer
      modifies this`copyInputBufferToDeviceCommand, this`copyFromDeviceOutputCommand
      ensures Placed() && vk'.Valid()
      ensures vk' == vk.(objects := vk.objects + BufferChunk(instance, c) + DescriptorChunk(instance, c)
                                    + PipelineChunk(instance, c) + CommandChunk(instance, c),
                         boundMemory := BindingsAt(instance, vk.boundMemory),
                         descriptorWrites := SetWritesAt(instance, c, vk.descriptorWrites),
                         contents := ZeroedAt(instance, inputDataElementsCount, vk.contents),
                         recorded := RecordingsAt(instance, c, vk.recorded))
    {
      vk' := InitializePipelinesAndCommands(v3, shaders, c);
    }

    /** InitializeBuffers, InitializeDescriptorSetLayout and
        InitializeDescriptorSets on a state whose newest object is the
        device. */
    method InitializeBuffersAndDescriptors(vk: Vk, ghost c: Setup) returns (vk': Vk)
      requires vk.Valid() && vk.Live(device) && device == instance + DeviceAt && vk.NextHandle() == instance + InputBufferAt
      requires physicalDevice.Some? && physicalDevice.value.WellFormed() && c == SetupOf(c.shaders)
      requires 0 < inputDataElementsCount < MaxElements && inputBufferSize == RecordSize * inputDataElementsCount
      modifies this`inputBuffer, this`inputBufferMemory, this`deviceOnlyInputBuffer, this`deviceOnlyInputBufferMemory
      modifies this`outputBuffer, this`outputBufferMemory, this`deviceOnlyOutputBuffer, this`deviceOnlyOutputBufferMemory
      modifies this`descriptorSetLayout, this`descriptorPool, this`descriptorSet
      ensures (inputBuffer, inputBufferMemory, deviceOnlyInputBuffer, deviceOnlyInputBufferMemory)
           == (instance + InputBufferAt, instance + InputMemoryAt, instance + DeviceInputBufferAt, instance + DeviceInputMemoryAt)
      ensures (outputBuffer, outputBufferMemory, deviceOnlyOutputBuffer, deviceOnlyOutputBufferMemory)
           == (instance + OutputBufferAt, instance + OutputMemoryAt, instance + DeviceOutputBufferAt, instance + DeviceOutputMemoryAt)
      ensures (descriptorSetLayout, descriptorPool, descriptorSet)
           == (instance + SetLayoutAt, instance + DescriptorPoolAt, instance + DescriptorSetAt)
      ensures vk'.Valid()
      ensures vk' == vk.(objects := vk.objects + BufferChunk(instance, c) + DescriptorChunk(instance, c),
                         boundMemory := BindingsAt(instance, vk.boundMemory),
                         descriptorWrites := SetWritesAt(instance, c, vk.descriptorWrites),
                         contents := ZeroedAt(instance, inputDataElementsCount, vk.contents))
    {
      assert inputBufferSize / RecordSize == inputDataElementsCount;
      var v3 := InitializeBuffers(vk);
      var v4 := InitializeDescriptorSetLayout(v3);
      vk' := InitializeDescriptorSets(v4);
      assert vk'.objects == vk.objects + BufferChunk(instance, c) + DescriptorChunk(instance, c);
    }

    /** InitializeComputePipelines and InitializeCommandBuffers. */
    method InitializePipelinesAndCommands(vk: Vk, shaders: Shaders, ghost c: Setup) returns (vk': Vk)
      requires vk.Valid() && vk.Live(device) && device == instance + DeviceAt
      requires descriptorSetLayout == instance + SetLayoutAt && vk.NextHandle() == instance + FirstModuleAt
      requires inputBuffer == instance + InputBufferAt && deviceOnlyInputBuffer == instance + DeviceInputBufferAt
      requires outputBuffer == instance + OutputBufferAt && deviceOnlyOutputBuffer == instance + DeviceOutputBufferAt
      requires descriptorSet == instance + DescriptorSetAt
      requires physicalDevice.Some? && physicalDevice.value.WellFormed() && c == SetupOf(shaders)
      modifies this`smaFirstPassShaderModule, this`smaSecondPassShaderModule, this`pipelineLayout
      modifies this`smaFirstPassPipeline, this`smaSecondPassPipeline
      modifies this`commandPool, this`smaPass1CommandBuffer, this`smaPass2CommandBuffer
      modifies this`copyInputBufferToDeviceCommand, this`copyFromDeviceOutputCommand
      ensures (smaFirstPassShaderModule, smaSecondPassShaderModule, pipelineLayout, smaFirstPassPipeline, smaSecondPassPipeline)
           == (instance + FirstModuleAt, instance + SecondModuleAt, instance + PipelineLayoutAt,
               instance + FirstPipelineAt, instance + SecondPipelineAt)
      ensures (commandPool, smaPass1CommandBuffer, smaPass2CommandBuffer, copyInputBufferToDeviceCommand, copyFromDeviceOutputCommand)
           == (instance + CommandPoolAt, instance + Pass1CommandsAt, instance + Pass2CommandsAt,
               instance + CopyInCommandsAt, instance + CopyOutCommandsAt)
      ensures vk'.Valid()
      ensures vk' == vk.(objects := vk.objects + PipelineChunk(instance, c) + CommandChunk(instance, c),
                         recorded := RecordingsAt(instance, c, vk.recorded))
    {
      var v6 := InitializeComputePipelines(vk, shaders);
      vk' := InitializeCommandBuffers(v6);
      assert vk'.objects == vk.objects + PipelineChunk(instance, c) + CommandChunk(instance, c);
    }

    /** The objects, bindings, descriptor writes, recordings and memory the
        two halves of the Initialize steps leave make a Ready state. */
    lemma InitializedIsReady(v0: Vk, vk: Vk, c: Setup)
      requires physicalDevice.Some? && physicalDevice.value.WellFormed() && c == SetupOf(c.shaders)
      requires 0 < inputDataElementsCount < MaxElements && inputBufferSize == RecordSize * inputDataElementsCount
      requires instance == v0.NextHandle() && Placed() && vk.Valid()
      requires vk == v0.(objects := v0.objects
                           + [Object(InstanceInfo(ApiVersion11), NullHandle, true)]
                           + [Object(DeviceInfo(queueFamilyIndex, 1), instance, true)]
                           + BufferChunk(instance, c) + DescriptorChunk(instance, c)
                           + PipelineChunk(instance, c) + CommandChunk(instance, c),
                         boundMemory := BindingsAt(instance, v0.boundMemory),
                         descriptorWrites := SetWritesAt(instance, c, v0.descriptorWrites),
                         contents := ZeroedAt(instance, inputDataElementsCount, v0.contents),
                         recorded := RecordingsAt(instance, c, v0.recorded))
      ensures Ready(vk, v0.objects, c)
    {
      LayoutAllLive(instance, c);
      assert vk.objects == v0.objects + Layout(instance, c, AllLive()) + [];
      InitializedIsWired(v0, vk, c);
    }

    /** The bindings, descriptor writes, recordings and memory the Initialize
        steps leave make the state wired and sized. */
    lemma InitializedIsWired(vk: Vk, vk': Vk, c: Setup)
      requires 0 < inputDataElementsCount < MaxElements && inputBufferSize == RecordSize * inputDataElementsCount
      requires Placed() && c.inputBufferSize == inputBufferSize && c.outputBufferSize == OutputBufferSize(inputDataElementsCount)
      requires vk'.boundMemory == BindingsAt(instance, vk.boundMemory)
      requires vk'.descriptorWrites == SetWritesAt(instance, c, vk.descriptorWrites)
      requires vk'.recorded == RecordingsAt(instance, c, vk.recorded)
      requires vk'.contents == ZeroedAt(instance, inputDataElementsCount, vk.contents)
      ensures Wired(vk') && Sized(vk'.contents)
    {
    }

    /** The 23 handles, in creation order. */
    function Handles(): Placement
      reads this
    {
      Placement(instance, device,
        inputBuffer, inputBufferMemory, deviceOnlyInputBuffer, deviceOnlyInputBufferMemory,
        outputBuffer, outputBufferMemory, deviceOnlyOutputBuffer, deviceOnlyOutputBufferMemory,
        descriptorSetLayout, descriptorPool, descriptorSet,
        smaFirstPassShaderModule, smaSecondPassShaderModule, pipelineLayout,
        smaFirstPassPipeline, smaSecondPassPipeline,
        commandPool, smaPass1CommandBuffer, smaPass2CommandBuffer,
        copyInputBufferToDeviceCommand, copyFromDeviceOutputCommand)
    }

    /** The handles hold the layout's positions, from the instance on: the
        Initialize steps create the 23 objects one after another. */
    ghost predicate Placed()
      reads this
    {
      Handles() == PlacementFrom(instance)
    }

    /** For n > 0 elements: each buffer is bound to its own memory, the
        descriptor set points at the two device-only buffers, and the four
        command buffers hold their recordings. */
    ghost predicate Wired(vk: Vk)
      reads this
    {
      var n := inputDataElementsCount;
      && 0 < n < MaxElements && inputBufferSize == RecordSize * n
      && vk.boundMemory.Keys >= {inputBuffer, deviceOnlyInputBuffer, outputBuffer, deviceOnlyOutputBuffer}
      && (vk.boundMemory[inputBuffer], vk.boundMemory[deviceOnlyInputBuffer],
          vk.boundMemory[outputBuffer], vk.boundMemory[deviceOnlyOutputBuffer])
         == (inputBufferMemory, deviceOnlyInputBufferMemory, outputBufferMemory, deviceOnlyOutputBufferMemory)
      && descriptorSet in vk.descriptorWrites
      && vk.descriptorWrites[descriptorSet]
           == [BufferRange(deviceOnlyInputBuffer, 0, inputBufferSize), BufferRange(deviceOnlyOutputBuffer, 0, OutputBufferSize(n))]
      && vk.recorded.Keys >= {copyInputBufferToDeviceCommand, smaPass1CommandBuffer, smaPass2CommandBuffer, copyFromDeviceOutputCommand}
      && (vk.recorded[copyInputBufferToDeviceCommand], vk.recorded[smaPass1CommandBuffer],
          vk.recorded[smaPass2CommandBuffer], vk.recorded[copyFromDeviceOutputCommand])
         == (CopyCommands(inputBuffer, deviceOnlyInputBuffer, inputBufferSize),
             PassCommands(smaFirstPassPipeline, pipelineLayout, descriptorSet, Pass1GroupCount(inputBufferSize)),
             PassCommands(smaSecondPassPipeline, pipelineLayout, descriptorSet, Pass2GroupCount(inputBufferSize)),
             CopyCommands(deviceOnlyOutputBuffer, outputBuffer, OutputBufferSize(n)))
    }

    /** Each of the four memory objects holds one cell per element. */
    ghost predicate Sized(contents: map<Handle, seq<Quad>>)
      reads this
    {
      var n := inputDataElementsCount;
      && contents.Keys >= {inputBufferMemory, deviceOnlyInputBufferMemory, outputBufferMemory, deviceOnlyOutputBufferMemory}
      && (|contents[inputBufferMemory]|, |contents[deviceOnlyInputBufferMemory]|,
          |contents[outputBufferMemory]|, |contents[deviceOnlyOutputBufferMemory]|) == (n, n, n, n)
    }

    /** The state the Initialize steps leave: the 23 objects live and laid
        out after those of earlier users, and everything wired. */
    ghost predicate Ready(vk: Vk, before: seq<Object>, c: Setup)
      reads this
    {
      Placed() && Laid(vk, before, instance, c, AllLive(), []) && Wired(vk) && Sized(vk.contents)
    }

    /** The state right after vkCreateFence in ExecuteComputeShaders: the
        fence is live right after the layout, at handle instance + LayoutSize. */
    ghost predicate Fenced(vk: Vk, before: seq<Object>, c: Setup)
      reads this
    {
      && Placed() && instance == |before| + 1 && vk.Valid()
      && vk.objects == before + Layout(instance, c, AllLive()) + [Object(FenceInfo, device, true)]
      && Wired(vk)
    }

    /** `vk` is a later state of the Fenced state `start` in which only
        memory, the fence and the queue's logs have changed. */
    ghost predicate During(vk: Vk, start: Vk)
      reads this
    {
      && vk == start.(contents := vk.contents, fences := vk.fences, submissions := vk.submissions, completed := vk.completed)
      && Sized(vk.contents)
      && instance + LayoutSize in vk.fences
    }

    /** Copy-in submitted with the unsignaled fence and waited for: the
        device-only input memory now holds the staging input. */
    lemma CopyInPhase(start: Vk, vk: Vk, before: seq<Object>, c: Setup)
      requires Fenced(start, before, c) && During(vk, start)
      requires vk.fences[instance + LayoutSize] == FenceState(false, [])
      ensures var fence := instance + LayoutSize;
        var r := vk.Submit(copyInputBufferToDeviceCommand, fence).WaitForFence(fence);
        && Observed(r, vk, fence, copyInputBufferToDeviceCommand,
                    vk.contents[deviceOnlyInputBufferMemory := vk.contents[inputBufferMemory]])
        && During(r, start)
    {
      SubmitThenWaitOnUnsignaled(vk, copyInputBufferToDeviceCommand, instance + LayoutSize);
      CopyPhase(vk.View(), inputBuffer, deviceOnlyInputBuffer, inputBufferSize, Bound(NullHandle, NullHandle));
    }

    /** Pass 1 submitted with the unsignaled fence and waited for: the
        device-only output memory now holds the first kernel run over the
        device-only input and the previous output. */
    lemma Pass1Phase(start: Vk, vk: Vk, before: seq<Object>, c: Setup)
      requires Fenced(start, before, c) && During(vk, start)
      requires vk.fences[instance + LayoutSize] == FenceState(false, [])
      ensures var fence := instance + LayoutSize;
        var r := vk.Submit(smaPass1CommandBuffer, fence).WaitForFence(fence);
        && Observed(r, vk, fence, smaPass1CommandBuffer, vk.contents[deviceOnlyOutputBufferMemory :=
             RunKernel(c.shaders.pass1.kernel, vk.contents[deviceOnlyInputBufferMemory], vk.contents[deviceOnlyOutputBufferMemory])])
        && During(r, start)
    {
      SubmitThenWaitOnUnsignaled(vk, smaPass1CommandBuffer, instance + LayoutSize);
      Pass1Runs(start, vk, before, c);
    }

    /** Executing pass 1 at any point while the fence exists changes only
        the device-only output memory, to the first kernel run over the
        device-only input and the previous output. */
    lemma Pass1Runs(start: Vk, vk: Vk, before: seq<Object>, c: Setup)
      requires Fenced(start, before, c) && During(vk, start)
      ensures vk.Execute(smaPass1CommandBuffer) == vk.(contents := vk.contents[deviceOnlyOutputBufferMemory :=
        RunKernel(c.shaders.pass1.kernel, vk.contents[deviceOnlyInputBufferMemory], vk.contents[deviceOnlyOutputBufferMemory])])
    {
      var rest := [Object(FenceInfo, device, true)];
      LayoutAt(vk.objects, before, instance, c, AllLive(), rest, FirstPipelineAt);
      LayoutAt(vk.objects, before, instance, c, AllLive(), rest, FirstModuleAt);
      DispatchCounts(inputBufferSize);
      PassPhase(vk.View(), smaFirstPassPipeline, pipelineLayout, descriptorSet, Pass1GroupCount(inputBufferSize), Bound(NullHandle, NullHandle));
    }

    /** Pass 2, likewise, with the second kernel. */
    lemma Pass2Phase(start: Vk, vk: Vk, before: seq<Object>, c: Setup)
      requires Fenced(start, before, c) && During(vk, start)
      requires vk.fences[instance + LayoutSize] == FenceState(false, [])
      ensures var fence := instance + LayoutSize;
        var r := vk.Submit(smaPass2CommandBuffer, fence).WaitForFence(fence);
        && Observed(r, vk, fence, smaPass2CommandBuffer, vk.contents[deviceOnlyOutputBufferMemory :=
             RunKernel(c.shaders.pass2.kernel, vk.contents[deviceOnlyInputBufferMemory], vk.contents[deviceOnlyOutputBufferMemory])])
        && During(r, start)
    {
      SubmitThenWaitOnUnsignaled(vk, smaPass2CommandBuffer, instance + LayoutSize);
      Pass2Runs(start, vk, before, c);
    }

    /** Executing pass 2, likewise, with the second kernel. */
    lemma Pass2Runs(start: Vk, vk: Vk, before: seq<Object>, c: Setup)
      requires Fenced(start, before, c) && During(vk, start)
      ensures vk.Execute(smaPass2CommandBuffer) == vk.(contents := vk.contents[deviceOnlyOutputBufferMemory :=
        RunKernel(c.shaders.pass2.kernel, vk.contents[deviceOnlyInputBufferMemory], vk.contents[deviceOnlyOutputBufferMemory])])
    {
      var rest := [Object(FenceInfo, device, true)];
      LayoutAt(vk.objects, before, instance, c, AllLive(), rest, SecondPipelineAt);
      LayoutAt(vk.objects, before, instance, c, AllLive(), rest, SecondModuleAt);
      DispatchCounts(inputBufferSize);
      PassPhase(vk.View(), smaSecondPassPipeline, pipelineLayout, descriptorSet, Pass2GroupCount(inputBufferSize), Bound(NullHandle, NullHandle));
    }

    /** Copy-out submitted with the unsignaled fence and waited for: the
        staging output memory now holds the device-only output. */
    lemma CopyOutPhase(start: Vk, vk: Vk, before: seq<Object>, c: Setup)
      requires Fenced(start, before, c) && During(vk, start)
      requires vk.fences[instance + LayoutSize] == FenceState(false, [])
      ensures var fence := instance + LayoutSize;
        var r := vk.Submit(copyFromDeviceOutputCommand, fence).WaitForFence(fence);
        && Observed(r, vk, fence, copyFromDeviceOutputCommand,
                    vk.contents[outputBufferMemory := vk.contents[deviceOnlyOutputBufferMemory]])
        && During(r, start)
    {
      SubmitThenWaitOnUnsignaled(vk, copyFromDeviceOutputCommand, instance + LayoutSize);
      CopyOutRuns(start, vk, before, c);
    }

    /** Executing copy-out at any point while the fence exists replaces the
        staging output memory with the device-only output. */
    lemma CopyOutRuns(start: Vk, vk: Vk, before: seq<Object>, c: Setup)
      requires Fenced(start, before, c) && During(vk, start)
      ensures vk.Execute(copyFromDeviceOutputCommand)
           == vk.(contents := vk.contents[outputBufferMemory := vk.contents[deviceOnlyOutputBufferMemory]])
    {
      CopyPhase(vk.View(), deviceOnlyOutputBuffer, outputBuffer, OutputBufferSize(inputDataElementsCount), Bound(NullHandle, NullHandle));
    }

    /** The three batches ExecuteComputeShaders as written leaves pending on
        its fence, run by the device in submission order: pass 1 and pass 2
        change only the device-only output memory, so the staging output
        keeps its old cells until copy-out has run too, and then holds the
        two passes' result. */
    lemma PendingBatches(start: Vk, vk: Vk, before: seq<Object>, c: Setup)
      requires Fenced(start, before, c) && During(vk, start)
      ensures var stale := vk.contents[outputBufferMemory];
        && vk.Executed([smaPass1CommandBuffer]).contents[outputBufferMemory] == stale
        && vk.Executed([smaPass1CommandBuffer, smaPass2CommandBuffer]).contents[outputBufferMemory] == stale
        && vk.Executed([smaPass1CommandBuffer, smaPass2CommandBuffer, copyFromDeviceOutputCommand]).contents[outputBufferMemory]
           == SmaCells(c.shaders, vk.contents[deviceOnlyInputBufferMemory], vk.contents[deviceOnlyOutputBufferMemory])
    {
      PendingPasses(start, vk, before, c);
      var w2 := vk.Executed([smaPass1CommandBuffer, smaPass2CommandBuffer]);
      CopyOutRuns(start, w2, before, c);
      ExecutedAppend(vk, [smaPass1CommandBuffer, smaPass2CommandBuffer], copyFromDeviceOutputCommand);
      assert [smaPass1CommandBuffer, smaPass2CommandBuffer] + [copyFromDeviceOutputCommand]
          == [smaPass1CommandBuffer, smaPass2CommandBuffer, copyFromDeviceOutputCommand];
    }

    /** The pending batches do the same once the fence is destroyed: the
        model lets them run as if it were still live. */
    lemma PendingAfterDestroy(start: Vk, vk: Vk, before: seq<Object>, c: Setup)
      requires Fenced(start, before, c) && During(vk, start)
      ensures vk.MayDestroy(instance + LayoutSize)
      ensures var r := vk.Destroy(instance + LayoutSize);
        var stale := vk.contents[outputBufferMemory];
        && r.Executed([smaPass1CommandBuffer]).contents[outputBufferMemory] == stale
        && r.Executed([smaPass1CommandBuffer, smaPass2CommandBuffer]).contents[outputBufferMemory] == stale
        && r.Executed([smaPass1CommandBuffer, smaPass2CommandBuffer, copyFromDeviceOutputCommand]).contents[outputBufferMemory]
           == SmaCells(c.shaders, vk.contents[deviceOnlyInputBufferMemory], vk.contents[deviceOnlyOutputBufferMemory])
    {
      var fence := instance + LayoutSize;
      FenceDestroyed(start, vk, before, c);
      PendingBatches(start, vk, before, c);
      DestroyKeepsPendingWork(vk, fence, [smaPass1CommandBuffer]);
      DestroyKeepsPendingWork(vk, fence, [smaPass1CommandBuffer, smaPass2CommandBuffer]);
      DestroyKeepsPendingWork(vk, fence, [smaPass1CommandBuffer, smaPass2CommandBuffer, copyFromDeviceOutputCommand]);
    }

    /** Pass 1 and then pass 2 left pending and run by the device: the
        device-only output memory holds the two passes' result, and nothing
        else has changed. */
    lemma PendingPasses(start: Vk, vk: Vk, before: seq<Object>, c: Setup)
      requires Fenced(start, before, c) && During(vk, start)
      ensures vk.Executed([smaPass1CommandBuffer]).contents == vk.contents[deviceOnlyOutputBufferMemory :=
        RunKernel(c.shaders.pass1.kernel, vk.contents[deviceOnlyInputBufferMemory], vk.contents[deviceOnlyOutputBufferMemory])]
      ensures During(vk.Executed([smaPass1CommandBuffer, smaPass2CommandBuffer]), start)
      ensures vk.Executed([smaPass1CommandBuffer, smaPass2CommandBuffer]).contents == vk.contents[deviceOnlyOutputBufferMemory :=
        SmaCells(c.shaders, vk.contents[deviceOnlyInputBufferMemory], vk.contents[deviceOnlyOutputBufferMemory])]
    {
      Pass1Runs(start, vk, before, c);
      ExecutedAppend(vk, [], smaPass1CommandBuffer);
      assert [] + [smaPass1CommandBuffer] == [smaPass1CommandBuffer];
      var w1 := vk.Execute(smaPass1CommandBuffer);
      assert During(w1, start);
      Pass2Runs(start, w1, before, c);
      ExecutedAppend(vk, [smaPass1CommandBuffer], smaPass2CommandBuffer);
      assert [smaPass1CommandBuffer] + [smaPass2CommandBuffer] == [smaPass1CommandBuffer, smaPass2CommandBuffer];
    }

    /** vkResetFences after a wait that observed the fence's only batch:
        the fence is unsignaled again with nothing pending. */
    lemma ResetAfterWait(start: Vk, vk: Vk)
      requires During(vk, start) && vk.fences[instance + LayoutSize] == FenceState(true, [])
      ensures var r := vk.ResetFence(instance + LayoutSize);
        && r == vk.(fences := r.fences)
        && r.fences == vk.fences[instance + LayoutSize := FenceState(false, [])]
        && During(r, start)
    {
    }

    /** vkCreateFence on the device of a Ready state: the fence is live at
        handle instance + LayoutSize, unsignaled, with nothing pending. */
    lemma FenceCreated(vk: Vk, before: seq<Object>, c: Setup)
      requires Ready(vk, before, c)
      ensures vk.Live(device) && vk.NextHandle() == instance + LayoutSize
      ensures var r := vk.CreateFence(device);
        Fenced(r, before, c) && During(r, r) && r.fences[instance + LayoutSize] == FenceState(false, [])
    {
      LaidEntry(vk, before, instance, c, AllLive(), [], DeviceAt);
      assert vk.objects == before + Layout(instance, c, AllLive());
      CreateKeepsValid(vk, FenceInfo, device);
    }

    /** Destroying the fence leaves the layout laid out and live, followed
        by the dead fence. */
    lemma FenceDestroyed(start: Vk, vk: Vk, before: seq<Object>, c: Setup)
      requires Fenced(start, before, c) && During(vk, start)
      ensures vk.MayDestroy(instance + LayoutSize)
      ensures vk.MayDestroyFence(instance + LayoutSize) <==> vk.fences[instance + LayoutSize].outstanding == []
      ensures Laid(vk.Destroy(instance + LayoutSize), before, instance, c, AllLive(), [Object(FenceInfo, device, false)])
    {
      var fence := instance + LayoutSize;
      var prior := vk.(objects := before + Layout(instance, c, AllLive()));
      forall k | 0 <= k < |prior.objects|
        ensures ValidEntry(prior.objects, k)
      {
        assert ValidEntry(vk.objects, k);
      }
      LayoutAt(prior.objects, before, instance, c, AllLive(), [], DeviceAt);
      CreateThenDestroy(prior, FenceInfo, device);
      assert prior.Create(FenceInfo, device).objects == vk.objects;
      DestroyKeepsValid(vk, fence);
      assert vk.Destroy(fence).objects == before + Layout(instance, c, AllLive()) + [Object(FenceInfo, device, false)];
    }

    /** ExecuteComputeShaders with the fence reset after each of the first
        three waits, as section 5.5 of the Vulkan 1.1 specification requires
        of a fence passed to vkQueueSubmit: all four submissions are valid
        and each wait returns once its phase has executed.  Copy-in fills the
        device-only input with the staging input, the two passes run over
        it, and copy-out brings their result back to the staging output; the
        fence ends signaled with nothing pending, so its destruction is
        valid usage. */
    method ExecuteComputeShadersWithReset(vk: Vk, ghost before: seq<Object>, ghost c: Setup) returns (vk': Vk, fenceDestroyValid: bool)
      requires Ready(vk, before, c)
      ensures fenceDestroyValid && (vk.QueueIdle() ==> vk'.QueueIdle())
      ensures Laid(vk', before, instance, c, AllLive(), [Object(FenceInfo, device, false)])
      ensures var input := vk.contents[inputBufferMemory];
        var result := SmaCells(c.shaders, input, vk.contents[deviceOnlyOutputBufferMemory]);
        vk'.contents == vk.contents[deviceOnlyInputBufferMemory := input]
          [deviceOnlyOutputBufferMemory := result][outputBufferMemory := result]
      ensures vk'.submissions == vk.submissions
        + [Submission(copyInputBufferToDeviceCommand, true)] + [Submission(smaPass1CommandBuffer, true)]
        + [Submission(smaPass2CommandBuffer, true)] + [Submission(copyFromDeviceOutputCommand, true)]
      ensures vk'.completed == vk.completed
        + [copyInputBufferToDeviceCommand] + [smaPass1CommandBuffer] + [smaPass2CommandBuffer] + [copyFromDeviceOutputCommand]
      ensures vk'.fences == vk.fences[vk.NextHandle() := FenceState(true, [])]
      ensures vk' == vk.(objects := vk'.objects, contents := vk'.contents, fences := vk'.fences,
                         submissions := vk'.submissions, completed := vk'.completed)
    {
      var fence := vk.NextHandle();
      FenceCreated(vk, before, c);
      var start := vk.CreateFence(device);
      var v2 := CopyInThenPass1(start, before, c);
      var v4 := Pass2ThenCopyOut(start, v2, before, c);
      FenceDestroyed(start, v4, before, c);
      fenceDestroyValid := v4.MayDestroyFence(fence);
      vk' := v4.Destroy(fence);
    }

    /** The first half of ExecuteComputeShadersWithReset: copy-in and pass 1,
        each submitted with the unsignaled fence, waited for, and followed by
        a reset of the fence. */
    method CopyInThenPass1(start: Vk, ghost before: seq<Object>, ghost c: Setup) returns (vk': Vk)
      requires Fenced(start, before, c) && During(start, start)
      requires start.fences[instance + LayoutSize] == FenceState(false, [])
      ensures During(vk', start) && vk'.fences == start.fences
      ensures var input := start.contents[inputBufferMemory];
        vk'.contents == start.contents[deviceOnlyInputBufferMemory := input]
          [deviceOnlyOutputBufferMemory := RunKernel(c.shaders.pass1.kernel, input, start.contents[deviceOnlyOutputBufferMemory])]
      ensures vk'.submissions == start.submissions
        + [Submission(copyInputBufferToDeviceCommand, true)] + [Submission(smaPass1CommandBuffer, true)]
      ensures vk'.completed == start.completed + [copyInputBufferToDeviceCommand] + [smaPass1CommandBuffer]
    {
      var fence := instance + LayoutSize;
      CopyInPhase(start, start, before, c);
      var w1 := start.Submit(copyInputBufferToDeviceCommand, fence).WaitForFence(fence);
      ResetAfterWait(start, w1);
      var v1 := w1.ResetFence(fence);
      assert v1.fences == start.fences;
      Pass1Phase(start, v1, before, c);
      var w2 := v1.Submit(smaPass1CommandBuffer, fence).WaitForFence(fence);
      ResetAfterWait(start, w2);
      vk' := w2.ResetFence(fence);
      assert vk'.fences == start.fences;
    }

    /** The second half of ExecuteComputeShadersWithReset: pass 2, submitted
        with the unsignaled fence, waited for and followed by a reset, then
        copy-out, submitted and waited for. */
    method Pass2ThenCopyOut(start: Vk, vk: Vk, ghost before: seq<Object>, ghost c: Setup) returns (vk': Vk)
      requires Fenced(start, before, c) && During(vk, start)
      requires vk.fences[instance + LayoutSize] == FenceState(false, [])
      ensures During(vk', start)
      ensures vk'.fences == vk.fences[instance + LayoutSize := FenceState(true, [])]
      ensures var result := RunKernel(c.shaders.pass2.kernel, vk.contents[deviceOnlyInputBufferMemory], vk.contents[deviceOnlyOutputBufferMemory]);
        vk'.contents == vk.contents[deviceOnlyOutputBufferMemory := result][outputBufferMemory := result]
      ensures vk'.submissions == vk.submissions
        + [Submission(smaPass2CommandBuffer, true)] + [Submission(copyFromDeviceOutputCommand, true)]
      ensures vk'.completed == vk.completed + [smaPass2CommandBuffer] + [copyFromDeviceOutputCommand]
    {
      var fence := instance + LayoutSize;
      Pass2Phase(start, vk, before, c);
      var w3 := vk.Submit(smaPass2CommandBuffer, fence).WaitForFence(fence);
      ResetAfterWait(start, w3);
      var v3 := w3.ResetFence(fence);
      assert v3.fences == vk.fences;
      CopyOutPhase(start, v3, before, c);
      vk' := v3.Submit(copyFromDeviceOutputCommand, fence).WaitForFence(fence);
    }

    /** ExecuteComputeShaders as written: the fence is never reset.  Copy-in
        is valid and its wait observes it; pass 1, pass 2 and copy-out are
        submitted with a signaled fence, so their waits return at once and
        the host observes none of them complete.  The fence is destroyed with
        the three batches still pending on it, which breaks the valid usage
        of vkDestroyFence.  Those batches may run at any time, so what a
        later read of the staging output memory sees is not determined: its
        old cells if the device has not yet run copy-out, the two passes'
        result if it has run all three. */
    method ExecuteComputeShaders(vk: Vk, ghost before: seq<Object>, ghost c: Setup) returns (vk': Vk, fenceDestroyValid: bool)
      requires Ready(vk, before, c)
      ensures Laid(vk', before, instance, c, AllLive(), [Object(FenceInfo, device, false)])
      ensures vk'.contents == vk.contents[deviceOnlyInputBufferMemory := vk.contents[inputBufferMemory]]
      ensures vk'.submissions == vk.submissions
        + [Submission(copyInputBufferToDeviceCommand, true)] + [Submission(smaPass1CommandBuffer, false)]
        + [Submission(smaPass2CommandBuffer, false)] + [Submission(copyFromDeviceOutputCommand, false)]
      ensures vk'.completed == vk.completed + [copyInputBufferToDeviceCommand]
      ensures vk'.fences == vk.fences[vk.NextHandle() :=
        FenceState(true, [smaPass1CommandBuffer, smaPass2CommandBuffer, copyFromDeviceOutputCommand])]
      ensures vk' == vk.(objects := vk'.objects, contents := vk'.contents, fences := vk'.fences,
                         submissions := vk'.submissions, completed := vk'.completed)
      ensures !fenceDestroyValid && !vk'.QueueIdle()
      ensures var stale := vk.contents[outputBufferMemory];
        && vk'.Executed([smaPass1CommandBuffer]).contents[outputBufferMemory] == stale
        && vk'.Executed([smaPass1CommandBuffer, smaPass2CommandBuffer]).contents[outputBufferMemory] == stale
        && vk'.Executed([smaPass1CommandBuffer, smaPass2CommandBuffer, copyFromDeviceOutputCommand]).contents[outputBufferMemory]
           == SmaCells(c.shaders, vk.contents[inputBufferMemory], vk.contents[deviceOnlyOutputBufferMemory])
    {
      var fence := vk.NextHandle();
      FenceCreated(vk, before, c);
      var start := vk.CreateFence(device);
      CopyInPhase(start, start, before, c);
      var v1 := start.Submit(copyInputBufferToDeviceCommand, fence).WaitForFence(fence);
      var v4 := SubmitOnSignaledFence(start, v1);
      assert v4.fences == vk.fences[fence := FenceState(true, [smaPass1CommandBuffer, smaPass2CommandBuffer, copyFromDeviceOutputCommand])];
      FenceDestroyed(start, v4, before, c);
      PendingAfterDestroy(start, v4, before, c);
      fenceDestroyValid := v4.MayDestroyFence(fence);
      vk' := v4.Destroy(fence);
    }

    /** The part of ComputeResult after the Initialize steps: the candlesticks
        are copied into the mapped staging input memory, ExecuteComputeShaders
        (with the fence reset, see ExecuteComputeShadersWithReset) runs the
        two passes, the staging output memory is copied into `output`, and
        CleanUpVulkan destroys the 23 objects. */
    method ComputeOnInitialized(vk: Vk, ghost before: seq<Object>, ghost c: Setup, ghost prior: map<Handle, seq<Quad>>,
                                kline: array<Candlestick>, output: array<Indicator>) returns (vk': Vk)
      requires Ready(vk, before, c) && vk.contents == ZeroedAt(instance, inputDataElementsCount, prior) && vk.QueueIdle()
      requires inputDataElementsCount <= kline.Length && inputDataElementsCount <= output.Length
      modifies output
      ensures output[..inputDataElementsCount] == SmaPipeline(c.shaders, kline[..inputDataElementsCount])
      ensures output[inputDataElementsCount..] == old(output[inputDataElementsCount..])
      ensures Laid(vk', before, instance, c, NoneLive(), [Object(FenceInfo, device, false)]) && vk'.QueueIdle()
      ensures vk'.submissions == vk.submissions
        + [Submission(copyInputBufferToDeviceCommand, true)] + [Submission(smaPass1CommandBuffer, true)]
        + [Submission(smaPass2CommandBuffer, true)] + [Submission(copyFromDeviceOutputCommand, true)]
      ensures vk'.completed == vk.completed
        + [copyInputBufferToDeviceCommand] + [smaPass1CommandBuffer] + [smaPass2CommandBuffer] + [copyFromDeviceOutputCommand]
    {
      var n := inputDataElementsCount;
      var input := CandlestickArray(kline[..n]);
      var staged := vk.HostWrite(inputBufferMemory, input);
      assert staged.contents[inputBufferMemory] == input;
      assert staged.contents[deviceOnlyOutputBufferMemory] == ZeroCells(n);
      var done, _ := ExecuteComputeShadersWithReset(staged, before, c);
      var result := done.contents[outputBufferMemory];
      assert result == SmaCells(c.shaders, input, ZeroCells(n));
      forall i | 0 <= i < n {
        output[i] := IndicatorAt(result[i]);
      }
      ghost var indicators := IndicatorArray(result);
      forall i | 0 <= i < n
        ensures output[i] == indicators[i]
      {
        assert IndicatorBytes(indicators[i]) == result[i];
      }
      assert kline[..n] == old(kline[..n]);
      assert output[..n] == indicators;
      vk' := CleanUpVulkan(done, before, c, [Object(FenceInfo, device, false)]);
    }

    /** CleanUpVulkan: the eight memory objects and buffers, the shader
        modules, the descriptor pool (which frees the descriptor set), the
        set layout, the pipeline layout, the pipelines, the command pool
        (which frees the four command buffers), the device and last the
        instance.  Every call is valid usage: its object is live and, unless
        it is a pool, nothing live was created from it.  Afterwards none of
        the 23 objects is live, and nothing but liveness has changed. */
    method CleanUpVulkan(vk: Vk, ghost before: seq<Object>, ghost c: Setup, ghost after: seq<Object>) returns (vk': Vk)
      requires Placed() && Laid(vk, before, instance, c, AllLive(), after) && vk.QueueIdle()
      ensures Laid(vk', before, instance, c, NoneLive(), after)
      ensures vk' == vk.(objects := vk'.objects)
    {
      vk' := DestroyBuffers(vk, before, c, after);
      vk' := DestroyPipelineObjects(vk', before, c, after);
      vk' := DestroyDeviceAndInstance(vk', before, c, after);
    }

    /** CleanUpVulkan, first part: the four memory objects, then the four buffers. */
    method DestroyBuffers(vk: Vk, ghost before: seq<Object>, ghost c: Setup, ghost after: seq<Object>) returns (vk': Vk)
      requires Placed() && Laid(vk, before, instance, c, AllLive(), after) && vk.QueueIdle()
      ensures Laid(vk', before, instance, c, BuffersEnded(), after)
      ensures vk' == vk.(objects := vk'.objects)
    {
      ghost var live := AllLive();
      vk' := vk;
      vk' := DestroyAt(vk', inputBufferMemory, before, instance, c, live, after);
      live := Ended(live, InputMemoryAt);
      vk' := DestroyAt(vk', outputBufferMemory, before, instance, c, live, after);
      live := Ended(live, OutputMemoryAt);
      vk' := DestroyAt(vk', deviceOnlyInputBufferMemory, before, instance, c, live, after);
      live := Ended(live, DeviceInputMemoryAt);
      vk' := DestroyAt(vk', deviceOnlyOutputBufferMemory, before, instance, c, live, after);
      live := Ended(live, DeviceOutputMemoryAt);
      vk' := DestroyAt(vk', inputBuffer, before, instance, c, live, after);
      live := Ended(live, InputBufferAt);
      vk' := DestroyAt(vk', outputBuffer, before, instance, c, live, after);
      live := Ended(live, OutputBufferAt);
      vk' := DestroyAt(vk', deviceOnlyInputBuffer, before, instance, c, live, after);
      live := Ended(live, DeviceInputBufferAt);
      vk' := DestroyAt(vk', deviceOnlyOutputBuffer, before, instance, c, live, after);
      live := Ended(live, DeviceOutputBufferAt);
      assert live == BuffersEnded();
    }

    /** CleanUpVulkan, second part: the shader modules, the descriptor pool with its set, the set layout, the pipeline layout, the pipelines and the command pool with its command buffers. */
    method DestroyPipelineObjects(vk: Vk, ghost before: seq<Object>, ghost c: Setup, ghost after: seq<Object>) returns (vk': Vk)
      requires Placed() && Laid(vk, before, instance, c, BuffersEnded(), after) && vk.QueueIdle()
      ensures Laid(vk', before, instance, c, DeviceLevelEnded(), after)
      ensures vk' == vk.(objects := vk'.objects)
    {
      ghost var live := BuffersEnded();
      vk' := vk;
      vk' := DestroyAt(vk', smaFirstPassShaderModule, before, instance, c, live, after);
      live := Ended(live, FirstModuleAt);
      vk' := DestroyAt(vk', smaSecondPassShaderModule, before, instance, c, live, after);
      live := Ended(live, SecondModuleAt);
      vk' := DestroyAt(vk', descriptorPool, before, instance, c, live, after);
      live := Ended(live, DescriptorPoolAt);
      vk' := DestroyAt(vk', descriptorSetLayout, before, instance, c, live, after);
      live := Ended(live, SetLayoutAt);
      vk' := DestroyAt(vk', pipelineLayout, before, instance, c, live, after);
      live := Ended(live, PipelineLayoutAt);
      vk' := DestroyAt(vk', smaFirstPassPipeline, before, instance, c, live, after);
      live := Ended(live, FirstPipelineAt);
      vk' := DestroyAt(vk', smaSecondPassPipeline, before, instance, c, live, after);
      live := Ended(live, SecondPipelineAt);
      vk' := DestroyAt(vk', commandPool, before, instance, c, live, after);
      live := Ended(live, CommandPoolAt);
      assert live == DeviceLevelEnded();
    }

    /** CleanUpVulkan, last part: the device, then the instance. */
    method DestroyDeviceAndInstance(vk: Vk, ghost before: seq<Object>, ghost c: Setup, ghost after: seq<Object>) returns (vk': Vk)
      requires Placed() && Laid(vk, before, instance, c, DeviceLevelEnded(), after) && vk.QueueIdle()
      ensures Laid(vk', before, instance, c, NoneLive(), after)
      ensures vk' == vk.(objects := vk'.objects)
    {
      ghost var live := DeviceLevelEnded();
      vk' := vk;
      vk' := DestroyAt(vk', device, before, instance, c, live, after);
      live := Ended(live, DeviceAt);
      vk' := DestroyAt(vk', instance, before, instance, c, live, after);
      live := Ended(live, InstanceAt);
      assert live == NoneLive();
    }

    /** The rest of ExecuteComputeShaders as written: pass 1, pass 2 and
        copy-out, each submitted with the fence that copy-in's wait left
        signaled.  Every wait returns at once, so the host observes no
        completion and no change to memory; the three batches stay pending
        on the fence, in submission order, and may run later (see
        PendingBatches). */
    method SubmitOnSignaledFence(start: Vk, vk: Vk) returns (vk': Vk)
      requires During(vk, start) && vk.fences[instance + LayoutSize] == FenceState(true, [])
      ensures During(vk', start) && vk'.contents == vk.contents && vk'.completed == vk.completed
      ensures vk'.fences == vk.fences[instance + LayoutSize :=
        FenceState(true, [smaPass1CommandBuffer, smaPass2CommandBuffer, copyFromDeviceOutputCommand])]
      ensures vk'.submissions == vk.submissions
        + [Submission(smaPass1CommandBuffer, false)] + [Submission(smaPass2CommandBuffer, false)]
        + [Submission(copyFromDeviceOutputCommand, false)]
    {
      var fence := instance + LayoutSize;
      SubmitThenWaitOnSignaled(vk, smaPass1CommandBuffer, fence);
      var v2 := vk.Submit(smaPass1CommandBuffer, fence).WaitForFence(fence);
      assert v2.fences[fence].outstanding == [smaPass1CommandBuffer];
      SubmitThenWaitOnSignaled(v2, smaPass2CommandBuffer, fence);
      var v3 := v2.Submit(smaPass2CommandBuffer, fence).WaitForFence(fence);
      assert v3.fences[fence].outstanding == [smaPass1CommandBuffer, smaPass2CommandBuffer];
      SubmitThenWaitOnSignaled(v3, copyFromDeviceOutputCommand, fence);
      vk' := v3.Submit(copyFromDeviceOutputCommand, fence).WaitForFence(fence);
      assert vk'.fences[fence].outstanding == [smaPass1CommandBuffer, smaPass2CommandBuffer, copyFromDeviceOutputCommand];
    }
  }

  /** What ComputeResult writes to `output` when it returns 0: the two
      passes over the candlesticks, starting from the zeroed device-only
      output memory, read back as Indicator records. */
  function SmaPipeline(shaders: Shaders, kline: seq<Candlestick>): (r: seq<Indicator>)
    ensures |r| == |kline|
  {
    IndicatorArray(SmaCells(shaders, CandlestickArray(kline), ZeroCells(|kline|)))
  }

  /** How a call of ComputeResult ends: it returns a status, or the process
      ends with exit(code) inside InitializeVulkanDevice. */
  datatype Outcome = Returned(status: int) | Exited(code: int)

  /** The command buffers of a run of submissions, in order. */
  function Batches(s: seq<Submission>): (r: seq<Handle>)
    ensures |r| == |s| && forall i :: 0 <= i < |s| ==> r[i] == s[i].commandBuffer
  {
    if s == [] then [] else [s[0].commandBuffer] + Batches(s[1..])
  }

  /** `vk'` extends `vk` by objects that are all destroyed again, and every
      queue submission made in between was valid and observed complete. */
  ghost predicate Released(vk: Vk, vk': Vk)
  {
    && vk'.Valid()
    && |vk.objects| <= |vk'.objects| && vk'.objects[..|vk.objects|] == vk.objects
    && (forall i :: |vk.objects| <= i < |vk'.objects| ==> !vk'.objects[i].live)
    && |vk.submissions| <= |vk'.submissions| && vk'.submissions[..|vk.submissions|] == vk.submissions
    && (forall i :: |vk.submissions| <= i < |vk'.submissions| ==> vk'.submissions[i].fenceUsable)
    && vk'.completed == vk.completed + Batches(vk'.submissions[|vk.submissions|..])
  }

  /** ComputeResult: 1 for a NULL pointer or no elements; otherwise a fresh
      ComputeApplication over the `count` candlesticks is initialized, the
      input is copied in, the shaders run, `count` Indicator records are
      copied out to `output`, every object is destroyed again, and the
      result is 0.  The process exits with 1 when the first physical device
      has no compute queue family. */
  method ComputeResult(vk: Vk, shaders: Shaders, kline: array?<Candlestick>, count: nat, output: array?<Indicator>)
    returns (outcome: Outcome, vk': Vk)
    requires vk.Valid()
    requires output != null && kline != null && count > 0 ==>
      && vk.QueueIdle() && |vk.physicalDevices| > 0 && vk.physicalDevices[0].WellFormed()
      && count < MaxElements
    requires kline != null ==> count <= kline.Length
    requires output != null ==> count <= output.Length
    modifies output
    ensures outcome == Returned(1) <==> output == null || kline == null || count == 0
    ensures outcome == Returned(1) ==> vk' == vk
    ensures outcome.Exited? <==> output != null && kline != null && count > 0
                                 && FirstComputeFamilyFrom(vk.physicalDevices[0].queueFamilies, 0).None?
    ensures outcome == Returned(1) || outcome == Returned(0) || outcome == Exited(1)
    ensures outcome != Returned(0) && output != null ==> output[..] == old(output[..])
    ensures outcome == Returned(0) ==>
      && output != null && kline != null
      && output[..count] == SmaPipeline(shaders, kline[..count])
      && output[count..] == old(output[count..])
    ensures outcome == Returned(0) ==> Released(vk, vk') && |vk'.submissions| == |vk.submissions| + 4
    ensures outcome == Returned(0) ==> vk'.QueueIdle()
  {
    if output == null || kline == null || count == 0 {
      return Returned(1), vk;
    }
    var app := new ComputeApplication();
    app.inputData := kline;
    app.inputBufferSize := InputBufferSize(count);
    app.inputDataElementsCount := ElementsCount(count);
    SizesExact(count);
    var v, exited := app.Initialize(vk, shaders);
    if exited {
      return Exited(1), v;
    }
    ghost var c := app.SetupOf(shaders);
    assert c.shaders == shaders;
    vk' := app.ComputeOnInitialized(v, vk.objects, c, vk.contents, kline, output);
    outcome := Returned(0);
    ComputedIsReleased(vk, vk', app.instance, c, app.device, app.copyInputBufferToDeviceCommand,
      app.smaPass1CommandBuffer, app.smaPass2CommandBuffer, app.copyFromDeviceOutputCommand);
  }

  /** A run that lays out the 23 objects after those of `vk` and destroys
      them all again, making four valid submissions that each complete,
      releases everything it took. */
  lemma ComputedIsReleased(vk: Vk, vk': Vk, base: Handle, c: Setup, device: Handle, a: Handle, b: Handle, d: Handle, e: Handle)
    requires Laid(vk', vk.objects, base, c, NoneLive(), [Object(FenceInfo, device, false)])
    requires vk'.submissions == vk.submissions
      + [Submission(a, true)] + [Submission(b, true)] + [Submission(d, true)] + [Submission(e, true)]
    requires vk'.completed == vk.completed + [a] + [b] + [d] + [e]
    ensures Released(vk, vk') && |vk'.submissions| == |vk.submissions| + 4
  {
    var n := |vk.objects|;
    var layout := Layout(base, c, NoneLive());
    assert vk'.objects[..n] == vk.objects;
    forall i | n <= i < |vk'.objects|
      ensures !vk'.objects[i].live
    {
      if i < n + LayoutSize {
        assert vk'.objects[i] == layout[i - n];
      } else {
        assert vk'.objects[i] == Object(FenceInfo, device, false);
      }
    }
    var added := vk'.submissions[|vk.submissions|..];
    assert added == [Submission(a, true), Submission(b, true), Submission(d, true), Submission(e, true)];
    assert Batches(added) == [a, b, d, e];
  }

  /** `r` is `vk` after `commandBuffer` was validly submitted with `fence`
      and the wait observed it complete, leaving memory `contents`. */
  ghost predicate Observed(r: Vk, vk: Vk, fence: Handle, commandBuffer: Handle, contents: map<Handle, seq<Quad>>)
  {
    && r == vk.(contents := r.contents, fences := r.fences, submissions := r.submissions, completed := r.completed)
    && r.contents == contents
    && fence in vk.fences
    && r.fences == vk.fences[fence := FenceState(true, [])]
    && r.submissions == vk.submissions + [Submission(commandBuffer, true)]
    && r.completed == vk.completed + [commandBuffer]
  }

  /** One vkCreate or vkAllocate call from a live parent, keeping the driver
      valid. */
  method CreateChild(vk: Vk, info: ObjectInfo, parent: Handle) returns (h: Handle, vk': Vk)
    requires vk.Valid() && vk.Live(parent)
    ensures h == vk.NextHandle() && vk'.Live(h)
    ensures vk'.Valid()
    ensures vk' == vk.(objects := vk.objects + [Object(info, parent, true)])
  {
    CreateKeepsValid(vk, info, parent);
    h := vk.NextHandle();
    vk' := vk.Create(info, parent);
  }

  /** One buffer of InitializeBuffers: vkCreateBuffer, then memory of the
      type RetrieveMemoryType picks for `properties`, then vkBindBufferMemory
      at offset 0. */
  method CreateBoundBuffer(vk: Vk, pd: PhysicalDevice, device: Handle, size: nat, properties: Flags)
    returns (vk': Vk, buffer: Handle, bufferMemory: Handle)
    requires vk.Valid() && vk.Live(device) && pd.WellFormed()
    ensures buffer == vk.NextHandle() && bufferMemory == buffer + 1
    ensures vk'.Valid() && vk'.Live(device)
    ensures vk'.objects == vk.objects + [
        Object(BufferInfo(size), device, true),
        Object(MemoryInfo(size, MemoryTypeIndex(pd.memoryTypes, pd.storageBufferTypeBits, properties)), device, true)]
    ensures vk'.boundMemory == vk.boundMemory[buffer := bufferMemory]
    ensures vk'.contents == vk.contents[bufferMemory := ZeroCells(size / RecordSize)]
    ensures vk' == vk.(objects := vk'.objects, boundMemory := vk'.boundMemory, contents := vk'.contents)
  {
    var vk1, vk2;
    buffer, vk1 := CreateChild(vk, BufferInfo(size), device);
    var memoryTypeIndex := RetrieveMemoryType(pd.memoryTypes, pd.storageBufferTypeBits, properties);
    bufferMemory := vk1.NextHandle();
    CreateKeepsValid(vk1, MemoryInfo(size, memoryTypeIndex), device);
    vk2 := vk1.AllocateMemory(size, memoryTypeIndex, device);
    vk' := vk2.BindBufferMemory(buffer, bufferMemory);
  }
}
