/** What the four command buffers of the native driver do when they execute,
    and what one submission followed by one fence wait does to the driver
    state (sections 5.5 "Command Buffer Submission" and 6.3 "Fences" of the
    Vulkan 1.1 specification). */
module Phases {
  import opened Records
  import opened Backend

  /** The recording of the copy-in and copy-out command buffers: one region,
      offset 0 on both sides. */
  function CopyCommands(src: Handle, dst: Handle, size: nat): seq<Command>
  {
    [CopyBuffer(src, dst, 0, 0, size)]
  }

  /** The recording of smaPass1CommandBuffer and smaPass2CommandBuffer: bind
      the pass's compute pipeline and the one descriptor set, then dispatch
      `groups` work-groups along x. */
  function PassCommands(pipeline: Handle, layout: Handle, descriptorSet: Handle, groups: nat): seq<Command>
  {
    [BindPipeline(pipeline), BindDescriptorSet(layout, descriptorSet), Dispatch(groups, 1, 1)]
  }

  /** A copy command buffer whose two buffers each hold exactly `size` bytes
      of memory replaces the destination's memory with the source's cells. */
  lemma CopyPhase(e: ExecutionState, src: Handle, dst: Handle, size: nat, bound: Bound)
    requires e.Backed(src) && e.Backed(dst)
    requires |e.Cells(src)| == size / RecordSize && |e.Cells(dst)| == size / RecordSize
    ensures e.Run(CopyCommands(src, dst, size), bound)
         == e.(contents := e.contents[e.boundMemory[dst] := e.Cells(src)])
  {
    var n := size / RecordSize;
    assert CopyCells(e.Cells(src), e.Cells(dst), n) == e.Cells(src);
    var commands := CopyCommands(src, dst, size);
    var copied := e.Copy(src, dst, size);
    assert commands[1..] == [];
    assert e.Run(commands, bound) == copied.Run([], bound);
  }

  /** A pass command buffer that dispatches at least one work-group runs the
      pipeline's kernel once over the set's binding 0 as input and binding 1
      as output, and changes nothing else. */
  lemma PassPhase(e: ExecutionState, pipeline: Handle, layout: Handle, descriptorSet: Handle, groups: nat, bound: Bound)
    requires e.HasKernel(pipeline) && e.HasBindings(descriptorSet) && groups > 0
    ensures var input := e.descriptorWrites[descriptorSet][0].buffer;
      var output := e.descriptorWrites[descriptorSet][1].buffer;
      e.Run(PassCommands(pipeline, layout, descriptorSet, groups), bound)
        == e.(contents := e.contents[e.boundMemory[output] := RunKernel(e.KernelOf(pipeline), e.Cells(input), e.Cells(output))])
  {
    var commands := PassCommands(pipeline, layout, descriptorSet, groups);
    var b1 := bound.(pipeline := pipeline);
    var b2 := b1.(descriptorSet := descriptorSet);
    assert commands[1..][1..][1..] == [];
    calc {
      e.Run(commands, bound);
      e.Run(commands[1..], b1);
      e.Run(commands[1..][1..], b2);
      e.DispatchBound(b2).Run(commands[1..][1..][1..], b2);
    }
  }

  /** A submission with a fence that is unsignaled and has nothing pending is
      valid, and the wait that follows returns once the command buffer has
      executed: its effect on memory is visible, the fence is signaled and
      has nothing pending. */
  lemma SubmitThenWaitOnUnsignaled(vk: Vk, commandBuffer: Handle, fence: Handle)
    requires fence in vk.fences && vk.fences[fence] == FenceState(false, [])
    requires commandBuffer in vk.recorded
    ensures vk.Submit(commandBuffer, fence).WaitForFence(fence) == vk.(
      contents := vk.View().Run(vk.recorded[commandBuffer], Bound(NullHandle, NullHandle)).contents,
      fences := vk.fences[fence := FenceState(true, [])],
      submissions := vk.submissions + [Submission(commandBuffer, true)],
      completed := vk.completed + [commandBuffer])
  {
    var s := vk.Submit(commandBuffer, fence);
    assert s.fences[fence].outstanding == [commandBuffer];
    assert s.fences[fence].outstanding[1..] == [];
    assert s.fences[fence := FenceState(true, [])] == vk.fences[fence := FenceState(true, [])];
    assert s.View() == vk.View();
  }

  /** A submission with a fence that is already signaled breaks the valid
      usage rule, and the wait that follows returns at once: the host
      observes no completion and no change to memory, and the command buffer
      stays pending on the fence, where the device may still run it later
      (Vk.Executed). */
  lemma SubmitThenWaitOnSignaled(vk: Vk, commandBuffer: Handle, fence: Handle)
    requires fence in vk.fences && vk.fences[fence].signaled
    ensures vk.Submit(commandBuffer, fence).WaitForFence(fence) == vk.(
      fences := vk.fences[fence := vk.fences[fence].(outstanding := vk.fences[fence].outstanding + [commandBuffer])],
      submissions := vk.submissions + [Submission(commandBuffer, false)])
  {
  }
}
