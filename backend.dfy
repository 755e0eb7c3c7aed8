/** An abstract Vulkan 1.1 implementation, as far as the native driver uses
    it.  Its state is a value (`Vk`) that every call takes and gives back: the
    objects created so far with the object each was created from, which of
    them are still live, the memory bound to each buffer, the contents of each
    memory object, the commands recorded into each command buffer, the
    descriptor writes, the fences, and the queue's submission log.

    Handles are positive numbers handed out in increasing order; handle `h`
    names `objects[h - 1]`, and 0 is VK_NULL_HANDLE.  Memory is a sequence of
    16-byte cells.  Work submitted to the queue changes memory when the host
    sees it complete through a fence wait. */
module Backend {
  import opened Records
  import opened Vulkan

  type Handle = nat

  /** VK_NULL_HANDLE */
  const NullHandle: Handle := 0

  /** VK_API_VERSION_1_1 */
  const ApiVersion11: nat := 0x40_1000

  /** What a compute shader does, seen from the host: given the contents of
      binding 0 (input) and binding 1 (output), the new value of output cell i. */
  type Kernel = (seq<Quad>, seq<Quad>, nat) -> Quad

  /** One dispatch of a kernel over the whole output binding. */
  function RunKernel(k: Kernel, input: seq<Quad>, output: seq<Quad>): (r: seq<Quad>)
    ensures |r| == |output|
    ensures forall i :: 0 <= i < |output| ==> r[i] == k(input, output, i)
  {
    seq(|output|, i requires 0 <= i < |output| => k(input, output, i))
  }

  /** A copy of the first `cells` cells of `src` over the front of `dst`. */
  function CopyCells(src: seq<Quad>, dst: seq<Quad>, cells: nat): (r: seq<Quad>)
    requires cells <= |src| && cells <= |dst|
    ensures |r| == |dst|
    ensures forall i :: 0 <= i < |dst| ==> r[i] == if i < cells then src[i] else dst[i]
  {
    src[..cells] + dst[cells..]
  }

  /** `n` zero cells. */
  function ZeroCells(n: nat): (z: seq<Quad>)
    ensures |z| == n && forall i :: 0 <= i < n ==> z[i] == ZeroQuad
  {
    seq(n, _ => ZeroQuad)
  }

  /** VkDescriptorBufferInfo */
  datatype BufferRange = BufferRange(buffer: Handle, offset: nat, range: nat)

  /** The commands the driver records. */
  datatype Command =
    | CopyBuffer(src: Handle, dst: Handle, srcOffset: nat, dstOffset: nat, size: nat)
    | BindPipeline(pipeline: Handle)
    | BindDescriptorSet(layout: Handle, descriptorSet: Handle)
    | Dispatch(x: nat, y: nat, z: nat)

  /** The create-info of each kind of object, as far as the model keeps it. */
  datatype ObjectInfo =
    | InstanceInfo(apiVersion: nat)
    | DeviceInfo(queueFamilyIndex: nat, queueCount: nat)
    | BufferInfo(size: nat)
    | MemoryInfo(allocationSize: nat, memoryTypeIndex: nat)
    | DescriptorSetLayoutInfo(bindings: seq<nat>)
    | DescriptorPoolInfo(maxSets: nat, storageBufferDescriptors: nat)
    | DescriptorSetInfo(layout: Handle)
    | ShaderModuleInfo(codeSize: nat, kernel: Kernel)
    | PipelineLayoutInfo(setLayouts: seq<Handle>)
    | ComputePipelineInfo(shaderModule: Handle, entryPoint: string, layout: Handle)
    | CommandPoolInfo(queueFamilyIndex: nat)
    | CommandBufferInfo
    | FenceInfo
  {
    /** Pools free what was allocated from them when they are destroyed. */
    predicate IsPool()
    {
      DescriptorPoolInfo? || CommandPoolInfo?
    }
  }

  /** An object, the object it was created from, and whether it is still live. */
  datatype Object = Object(info: ObjectInfo, parent: Handle, live: bool)

  /** Object `o` is a live object created from `p`. */
  predicate LiveChildOf(o: Object, p: Handle)
  {
    o.live && o.parent == p
  }

  /** A fence: signaled or not, and the batches submitted with it whose
      completion the host has not yet observed. */
  datatype FenceState = FenceState(signaled: bool, outstanding: seq<Handle>)

  /** One vkQueueSubmit of one command buffer, with whether it met the valid
      usage rules of section 5.5 of the Vulkan 1.1 specification for its
      fence: unsignaled, and not tied to other work that has not completed. */
  datatype Submission = Submission(commandBuffer: Handle, fenceUsable: bool)

  /** vkGetDeviceQueue(device, familyIndex, index) */
  datatype QueueRef = QueueRef(device: Handle, familyIndex: nat, index: nat)

  /** The pipeline and descriptor set bound while a command buffer executes. */
  datatype Bound = Bound(pipeline: Handle, descriptorSet: Handle)

  datatype Vk = Vk(
    physicalDevices: seq<PhysicalDevice>,
    objects: seq<Object>,
    boundMemory: map<Handle, Handle>,
    contents: map<Handle, seq<Quad>>,
    recorded: map<Handle, seq<Command>>,
    descriptorWrites: map<Handle, seq<BufferRange>>,
    fences: map<Handle, FenceState>,
    submissions: seq<Submission>,
    completed: seq<Handle>)
  {
    /** The handle the next create call returns. */
    function NextHandle(): Handle
    {
      |objects| + 1
    }

    predicate Has(h: Handle)
    {
      0 < h <= |objects|
    }

    predicate Live(h: Handle)
    {
      Has(h) && objects[h - 1].live
    }

    /** Every object was created after the object it was created from. */
    ghost predicate Valid()
    {
      ValidObjects(objects)
    }

    /** Valid usage of the vkDestroy and vkFree calls: `h` is live and, unless
        it is a pool, nothing live was created from it. */
    predicate MayDestroy(h: Handle)
    {
      Live(h) && (objects[h - 1].info.IsPool() || LiveChildren(objects, h) == 0)
    }

    /** The vkCreate and vkAllocate calls: a new live object created from
        `parent`, under handle NextHandle(). */
    function Create(info: ObjectInfo, parent: Handle): (r: Vk)
      requires parent == NullHandle || Live(parent)
      ensures r.objects == objects + [Object(info, parent, true)]
    {
      this.(objects := objects + [Object(info, parent, true)])
    }

    /** The vkDestroy and vkFree calls: `h`, and for a pool everything
        allocated from it, stop being live. */
    function Destroy(h: Handle): (r: Vk)
      requires MayDestroy(h)
      ensures |r.objects| == |objects| && !r.Live(h)
    {
      this.(objects := Killed(objects, h))
    }

    /** vkBindBufferMemory at offset 0. */
    function BindBufferMemory(buffer: Handle, memory: Handle): Vk
      requires Live(buffer) && Live(memory)
    {
      this.(boundMemory := boundMemory[buffer := memory])
    }

    /** vkAllocateMemory also gives the new object its contents, modelled as
        zero cells. */
    function AllocateMemory(allocationSize: nat, memoryTypeIndex: nat, device: Handle): (r: Vk)
      requires Live(device)
      ensures r.objects == objects + [Object(MemoryInfo(allocationSize, memoryTypeIndex), device, true)]
    {
      Create(MemoryInfo(allocationSize, memoryTypeIndex), device)
        .(contents := contents[NextHandle() := ZeroCells(allocationSize / RecordSize)])
    }

    /** vkMapMemory, a memcpy of `data` to the start of the mapping,
        vkUnmapMemory. */
    function HostWrite(memory: Handle, data: seq<Quad>): (r: Vk)
      requires memory in contents && |data| <= |contents[memory]|
      ensures memory in r.contents && |r.contents[memory]| == |contents[memory]|
      ensures r.contents[memory][..|data|] == data
    {
      this.(contents := contents[memory := data + contents[memory][|data|..]])
    }

    /** vkBeginCommandBuffer, the recorded vkCmd calls, vkEndCommandBuffer. */
    function Record(commandBuffer: Handle, commands: seq<Command>): Vk
      requires Live(commandBuffer)
    {
      this.(recorded := recorded[commandBuffer := commands])
    }

    /** vkUpdateDescriptorSets with one write of consecutive bindings from 0. */
    function UpdateDescriptorSet(descriptorSet: Handle, ranges: seq<BufferRange>): Vk
      requires Live(descriptorSet)
    {
      this.(descriptorWrites := descriptorWrites[descriptorSet := ranges])
    }

    /** vkCreateFence with no flags: a new unsignaled fence. */
    function CreateFence(device: Handle): (r: Vk)
      requires Live(device)
      ensures r.objects == objects + [Object(FenceInfo, device, true)]
    {
      Create(FenceInfo, device).(fences := fences[NextHandle() := FenceState(false, [])])
    }

    /** vkResetFences on one fence: back to unsignaled.  Valid usage: no batch
        submitted with it is still outstanding. */
    function ResetFence(fence: Handle): (r: Vk)
      requires fence in fences && fences[fence].outstanding == []
      ensures fence in r.fences && !r.fences[fence].signaled
    {
      this.(fences := fences[fence := FenceState(false, [])])
    }

    /** vkQueueSubmit of one command buffer that will signal `fence`. */
    function Submit(commandBuffer: Handle, fence: Handle): (r: Vk)
      requires fence in fences
      ensures fence in r.fences
      ensures r.submissions == submissions + [Submission(commandBuffer,
        !fences[fence].signaled && fences[fence].outstanding == [])]
      ensures r.fences[fence] == fences[fence].(outstanding := fences[fence].outstanding + [commandBuffer])
    {
      var f := fences[fence];
      this.(submissions := submissions + [Submission(commandBuffer, !f.signaled && f.outstanding == [])],
            fences := fences[fence := f.(outstanding := f.outstanding + [commandBuffer])])
    }

    /** vkWaitForFences on one fence.  A signaled fence returns at once and
        tells the host nothing.  An unsignaled fence with work outstanding
        returns when the oldest such batch has executed and signaled it; that
        batch's effect on memory becomes visible.  An unsignaled fence with
        nothing outstanding times out and changes nothing. */
    function WaitForFence(fence: Handle): (r: Vk)
      requires fence in fences
      ensures fence in r.fences
    {
      var f := fences[fence];
      if f.signaled || f.outstanding == [] then this
      else
        var batch := f.outstanding[0];
        this.(contents := Execute(batch).contents,
              fences := fences[fence := FenceState(true, f.outstanding[1..])],
              completed := completed + [batch])
    }

    /** No batch is pending on any fence.  Destroying or freeing an object
        that submitted work refers to (memory, a buffer, a descriptor pool, a
        pipeline, a command pool, the device) is valid only once that work
        has completed; the model asks for this stronger condition. */
    predicate QueueIdle()
    {
      forall f :: f in fences ==> fences[f].outstanding == []
    }

    /** Valid usage of vkDestroyFence (section 6.3 of the Vulkan 1.1
        specification): besides MayDestroy, every batch submitted with the
        fence has completed, which the host knows only of batches whose
        completion a wait has observed. */
    predicate MayDestroyFence(fence: Handle)
    {
      MayDestroy(fence) && fence in fences && fences[fence].outstanding == []
    }

    /** The device executing the recording of `batch`: only memory changes. */
    function Execute(batch: Handle): (r: Vk)
      ensures r == this.(contents := r.contents) && r.contents.Keys == contents.Keys
    {
      if batch in recorded
      then this.(contents := View().Run(recorded[batch], Bound(NullHandle, NullHandle)).contents)
      else this
    }

    /** The device executing `batches` in order.  `contents` is memory as of
        the last completion the host observed; a batch that was submitted but
        whose completion no wait observed may run at any time, so a later
        host read of memory sees Executed(p) for some prefix p of the
        batches still pending. */
    function Executed(batches: seq<Handle>): (r: Vk)
      ensures r == this.(contents := r.contents) && r.contents.Keys == contents.Keys
      decreases |batches|
    {
      if batches == [] then this else Execute(batches[0]).Executed(batches[1..])
    }

    /** What executing commands reads and writes. */
    function View(): ExecutionState
    {
      ExecutionState(objects, boundMemory, descriptorWrites, contents)
    }
  }

  /** What the device sees while it executes a command buffer: the objects
      (for the pipelines and shader modules), the memory bound to each buffer,
      the descriptor writes, and the contents of memory, which is all that
      execution changes. */
  datatype ExecutionState = ExecutionState(
    objects: seq<Object>,
    boundMemory: map<Handle, Handle>,
    descriptorWrites: map<Handle, seq<BufferRange>>,
    contents: map<Handle, seq<Quad>>)
  {
    predicate Has(h: Handle)
    {
      0 < h <= |objects|
    }

    /** Buffer `buffer` is bound to memory that has contents. */
    predicate Backed(buffer: Handle)
    {
      buffer in boundMemory && boundMemory[buffer] in contents
    }

    /** The cells of the memory bound to `buffer`. */
    function Cells(buffer: Handle): seq<Quad>
      requires Backed(buffer)
    {
      contents[boundMemory[buffer]]
    }

    /** vkCmdCopyBuffer with one region at offset 0 on both sides; the
        driver records no other kind of copy. */
    function Copy(src: Handle, dst: Handle, size: nat): (r: ExecutionState)
      ensures r == this.(contents := r.contents)
      ensures r.contents.Keys == contents.Keys
      ensures forall m :: m in contents ==> |r.contents[m]| == |contents[m]|
    {
      if Backed(src) && Backed(dst) && size / RecordSize <= |Cells(src)| && size / RecordSize <= |Cells(dst)| then
        this.(contents := contents[boundMemory[dst] := CopyCells(Cells(src), Cells(dst), size / RecordSize)])
      else this
    }

    /** `pipeline` is a compute pipeline whose shader module exists. */
    predicate HasKernel(pipeline: Handle)
    {
      && Has(pipeline) && objects[pipeline - 1].info.ComputePipelineInfo?
      && Has(objects[pipeline - 1].info.shaderModule)
      && objects[objects[pipeline - 1].info.shaderModule - 1].info.ShaderModuleInfo?
    }

    /** The kernel of a compute pipeline's shader module. */
    function KernelOf(pipeline: Handle): Kernel
      requires HasKernel(pipeline)
    {
      objects[objects[pipeline - 1].info.shaderModule - 1].info.kernel
    }

    /** Descriptor bindings 0 and 1 of `descriptorSet` name buffers with memory. */
    predicate HasBindings(descriptorSet: Handle)
    {
      && descriptorSet in descriptorWrites && |descriptorWrites[descriptorSet]| >= 2
      && Backed(descriptorWrites[descriptorSet][0].buffer)
      && Backed(descriptorWrites[descriptorSet][1].buffer)
    }

    /** vkCmdDispatch of at least one work-group with `bound` in effect: the
        kernel of the bound pipeline, run over descriptor binding 0 (input)
        and binding 1 (output) of the bound set. */
    function DispatchBound(bound: Bound): (r: ExecutionState)
      ensures r == this.(contents := r.contents)
      ensures r.contents.Keys == contents.Keys
      ensures forall m :: m in contents ==> |r.contents[m]| == |contents[m]|
    {
      if HasKernel(bound.pipeline) && HasBindings(bound.descriptorSet) then
        var input := descriptorWrites[bound.descriptorSet][0].buffer;
        var output := descriptorWrites[bound.descriptorSet][1].buffer;
        this.(contents := contents[boundMemory[output] := RunKernel(KernelOf(bound.pipeline), Cells(input), Cells(output))])
      else this
    }

    /** The effect of executing `commands` in order: only memory contents
        change, and no memory object changes size. */
    function Run(commands: seq<Command>, bound: Bound): (r: ExecutionState)
      ensures r == this.(contents := r.contents)
      ensures r.contents.Keys == contents.Keys
      ensures forall m :: m in contents ==> |r.contents[m]| == |contents[m]|
      decreases |commands|
    {
      if commands == [] then this
      else match commands[0]
        case CopyBuffer(src, dst, srcOffset, dstOffset, size) =>
          (if srcOffset == 0 && dstOffset == 0 then Copy(src, dst, size) else this).Run(commands[1..], bound)
        case BindPipeline(p) => Run(commands[1..], bound.(pipeline := p))
        case BindDescriptorSet(_, s) => Run(commands[1..], bound.(descriptorSet := s))
        case Dispatch(x, y, z) =>
          (if x > 0 && y > 0 && z > 0 then DispatchBound(bound) else this).Run(commands[1..], bound)
    }
  }

  /** `s` after `h` stops being live; destroying a pool also frees what was
      allocated from it. */
  function Killed(s: seq<Object>, h: Handle): (r: seq<Object>)
    requires 0 < h <= |s|
    ensures |r| == |s|
  {
    if s[h - 1].info.IsPool() then
      seq(|s|, i requires 0 <= i < |s| =>
        if i == h - 1 || s[i].parent == h then s[i].(live := false) else s[i])
    else s[h - 1 := s[h - 1].(live := false)]
  }

  /** `s` and `t` hold objects of the same kinds, created from the same
      parents, whatever their liveness. */
  ghost predicate SameObjects(s: seq<Object>, t: seq<Object>)
  {
    |s| == |t| && forall i :: 0 <= i < |s| ==> s[i].info == t[i].info && s[i].parent == t[i].parent
  }

  /** A dispatch reads objects for the pipeline's kernel only. */
  lemma DispatchIgnoresLiveness(e: ExecutionState, objects: seq<Object>, bound: Bound)
    requires SameObjects(objects, e.objects)
    ensures e.(objects := objects).DispatchBound(bound) == e.DispatchBound(bound).(objects := objects)
  {
    assert e.(objects := objects).HasKernel(bound.pipeline) == e.HasKernel(bound.pipeline);
  }

  /** Executing commands reads objects for their kinds and kernels only,
      never for their liveness. */
  lemma {:induction false} RunIgnoresLiveness(e: ExecutionState, objects: seq<Object>, commands: seq<Command>, bound: Bound)
    requires SameObjects(objects, e.objects)
    ensures e.(objects := objects).Run(commands, bound).contents == e.Run(commands, bound).contents
    decreases |commands|
  {
    if commands != [] {
      var e' := e.(objects := objects);
      var rest := commands[1..];
      match commands[0]
      case CopyBuffer(src, dst, srcOffset, dstOffset, size) =>
        var next := if srcOffset == 0 && dstOffset == 0 then e.Copy(src, dst, size) else e;
        var next' := if srcOffset == 0 && dstOffset == 0 then e'.Copy(src, dst, size) else e';
        assert next' == next.(objects := objects);
        RunIgnoresLiveness(next, objects, rest, bound);
      case BindPipeline(p) =>
        RunIgnoresLiveness(e, objects, rest, bound.(pipeline := p));
      case BindDescriptorSet(_, d) =>
        RunIgnoresLiveness(e, objects, rest, bound.(descriptorSet := d));
      case Dispatch(x, y, z) =>
        var next := if x > 0 && y > 0 && z > 0 then e.DispatchBound(bound) else e;
        var next' := if x > 0 && y > 0 && z > 0 then e'.DispatchBound(bound) else e';
        DispatchIgnoresLiveness(e, objects, bound);
        assert next' == next.(objects := objects);
        RunIgnoresLiveness(next, objects, rest, bound);
    }
  }

  /** Destroying an object does not change what pending batches do to
      memory: the model lets work that refers to a destroyed object run as
      if it were live. */
  lemma {:induction false} DestroyKeepsPendingWork(vk: Vk, h: Handle, batches: seq<Handle>)
    requires vk.MayDestroy(h)
    ensures vk.Destroy(h).Executed(batches).contents == vk.Executed(batches).contents
    decreases |batches|
  {
    DestroyEffect(vk, h);
    ExecutedIgnoresLiveness(vk, vk.Destroy(h).objects, batches);
  }

  /** Executing a further batch after `batches`. */
  lemma {:induction false} ExecutedAppend(vk: Vk, batches: seq<Handle>, batch: Handle)
    ensures vk.Executed(batches + [batch]) == vk.Executed(batches).Execute(batch)
    decreases |batches|
  {
    if batches == [] {
      assert ([] + [batch])[1..] == [];
    } else {
      assert (batches + [batch])[1..] == batches[1..] + [batch];
      ExecutedAppend(vk.Execute(batches[0]), batches[1..], batch);
    }
  }

  /** Executed, over objects that differ from the state's only in liveness. */
  lemma {:induction false} ExecutedIgnoresLiveness(vk: Vk, objects: seq<Object>, batches: seq<Handle>)
    requires SameObjects(objects, vk.objects)
    ensures vk.(objects := objects).Executed(batches) == vk.Executed(batches).(objects := objects)
    decreases |batches|
  {
    if batches != [] {
      var b := batches[0];
      if b in vk.recorded {
        assert vk.(objects := objects).View() == vk.View().(objects := objects);
        RunIgnoresLiveness(vk.View(), objects, vk.recorded[b], Bound(NullHandle, NullHandle));
      }
      assert vk.(objects := objects).Execute(b) == vk.Execute(b).(objects := objects);
      ExecutedIgnoresLiveness(vk.Execute(b), objects, batches[1..]);
    }
  }

  /** Every object was created after the object it was created from. */
  ghost predicate ValidObjects(s: seq<Object>)
  {
    forall i :: 0 <= i < |s| ==> ValidEntry(s, i)
  }

  /** Entry `i` was created after its parent. */
  ghost predicate ValidEntry(s: seq<Object>, i: nat)
    requires i < |s|
  {
    s[i].parent <= i
  }

  /** A new driver: no objects, nothing recorded or submitted. */
  function NewVk(physicalDevices: seq<PhysicalDevice>): (vk: Vk)
    ensures vk.Valid() && vk.NextHandle() == 1 && vk.physicalDevices == physicalDevices
  {
    Vk(physicalDevices, [], map[], map[], map[], map[], map[], [], [])
  }

  /** The number of live objects in `s` created from `p`. */
  function LiveChildren(s: seq<Object>, p: Handle): nat
  {
    if s == [] then 0
    else LiveChildren(s[..|s| - 1], p) + (if LiveChildOf(s[|s| - 1], p) then 1 else 0)
  }

  /** The count is zero exactly when no entry is a live child of `p`. */
  lemma {:induction false} LiveChildrenZero(s: seq<Object>, p: Handle)
    ensures LiveChildren(s, p) == 0 <==> forall k :: 0 <= k < |s| ==> !LiveChildOf(s[k], p)
    decreases |s|
  {
    if s != [] {
      var init := s[..|s| - 1];
      LiveChildrenZero(init, p);
      if LiveChildren(s, p) == 0 {
        forall k | 0 <= k < |s|
          ensures !LiveChildOf(s[k], p)
        {
          if k < |s| - 1 {
            assert s[k] == init[k];
          }
        }
      } else if LiveChildren(init, p) > 0 {
        var k :| 0 <= k < |init| && LiveChildOf(init[k], p);
        assert s[k] == init[k];
      }
    }
  }

  /** Creating an object from a parent that exists keeps every object after
      its parent. */
  lemma CreateKeepsValid(vk: Vk, info: ObjectInfo, parent: Handle)
    requires vk.Valid() && (parent == NullHandle || vk.Live(parent))
    ensures vk.Create(info, parent).Valid()
  {
    var r := vk.Create(info, parent).objects;
    forall i | 0 <= i < |r|
      ensures ValidEntry(r, i)
    {
      if i < |vk.objects| {
        assert ValidEntry(vk.objects, i);
      }
    }
  }

  /** Destroying `h` ends `h` and, for a pool, everything allocated from it,
      and changes nothing else: no object is created, revived or re-parented. */
  lemma DestroyEffect(vk: Vk, h: Handle)
    requires vk.MayDestroy(h)
    ensures var r := vk.Destroy(h);
      && r == vk.(objects := r.objects)
      && (forall i :: 0 <= i < |r.objects| ==>
            r.objects[i] == if i == h - 1 || (vk.objects[h - 1].info.IsPool() && vk.objects[i].parent == h)
                            then vk.objects[i].(live := false) else vk.objects[i])
      && LiveChildren(r.objects, h) == 0
  {
    var r := vk.Destroy(h);
    if !vk.objects[h - 1].info.IsPool() {
      LiveChildrenZero(vk.objects, h);
      forall k | 0 <= k < |r.objects|
        ensures !LiveChildOf(r.objects[k], h)
      {
        assert !LiveChildOf(vk.objects[k], h);
      }
    }
    LiveChildrenZero(r.objects, h);
  }

  /** Destroying keeps every object after its parent. */
  lemma DestroyKeepsValid(vk: Vk, h: Handle)
    requires vk.Valid() && vk.MayDestroy(h)
    ensures vk.Destroy(h).Valid()
  {
    var r := vk.Destroy(h).objects;
    forall i | 0 <= i < |r|
      ensures ValidEntry(r, i)
    {
      assert ValidEntry(vk.objects, i);
    }
  }

  /** In a valid state nothing has been created yet from the handle the next
      create call returns, so a new object has no live child.  Whether a
      fence's destruction is valid usage also depends on the batches pending
      on it (MayDestroyFence). */
  lemma NoChildrenYet(vk: Vk)
    requires vk.Valid()
    ensures LiveChildren(vk.objects, vk.NextHandle()) == 0
  {
    forall k | 0 <= k < |vk.objects|
      ensures !LiveChildOf(vk.objects[k], vk.NextHandle())
    {
      assert ValidEntry(vk.objects, k);
    }
    LiveChildrenZero(vk.objects, vk.NextHandle());
  }

  /** An object destroyed before anything is created from it: its
      destruction is valid, and all that remains of it is a dead entry. */
  lemma CreateThenDestroy(vk: Vk, info: ObjectInfo, parent: Handle)
    requires vk.Valid() && (parent == NullHandle || vk.Live(parent))
    ensures vk.Create(info, parent).MayDestroy(vk.NextHandle())
    ensures vk.Create(info, parent).Destroy(vk.NextHandle()).objects == vk.objects + [Object(info, parent, false)]
  {
    var r := vk.Create(info, parent);
    var h := vk.NextHandle();
    NoChildrenYet(vk);
    LiveChildrenZero(vk.objects, h);
    forall k | 0 <= k < |r.objects|
      ensures !LiveChildOf(r.objects[k], h)
    {
      if k < |vk.objects| {
        assert r.objects[k] == vk.objects[k];
      } else {
        assert ValidEntry(vk.objects + [Object(info, parent, true)], k) by {
          CreateKeepsValid(vk, info, parent);
        }
      }
    }
    LiveChildrenZero(r.objects, h);
    if info.IsPool() {
      assert r.Destroy(h).objects == vk.objects + [Object(info, parent, false)];
    }
  }
}
