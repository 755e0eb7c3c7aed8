# ComputeSample: the Vulkan SMA driver, modelled in Dafny

The repository computes a simple moving average (SMA) over candlestick data on
a GPU. A native Vulkan 1.1 compute driver does the GPU work
(`Sample.native/main.c`). The exported entry point `ComputeResult` takes an
array of `Candlestick` records and fills an array of `Indicator` records. A
managed wrapper, `LibComputeSample.Compute`, pins an array of `PricePoint`s,
passes it to `ComputeResult` as candlesticks, and returns the `sma` channel of
each output record.

This project models that host-side control logic and proves properties of it:

- `records.dfy`: the three 16-byte record layouts. Floats are carried as 32-bit
  patterns, because the host never does arithmetic on them. A pointer cast is
  a read of the same cell through another view.
- `sizing.dfy`: the `uint32_t` size arithmetic, the dispatch counts and
  `readFile`'s padding.
- `selection.dfy`: the two first-match searches, `RetrieveMemoryType` and
  `getComputeQueueFamilyIndex`.
- `samplefile.dfy`: `readFile`, given the file contents.
- `vulkan.dfy` and `backend.dfy`: an abstract Vulkan implementation.
  - Its state is a value `Vk`.
  - Objects get increasing handles and remember their parent and whether they
    are live.
  - It tracks memory contents, recorded command buffers, descriptor writes,
    fences and the queue's submission log.
  - vkQueueSubmit is valid only with an unsignaled fence that has no
    outstanding work. A wait on a signaled fence returns at once, and a
    command buffer's effect on memory becomes visible when a wait observes it
    complete.
  - `contents` is memory as of the last completion the host observed. A batch
    whose completion no wait observed may run at any time, so a later host
    read sees `Executed(p)` for some prefix `p` of the pending batches.
  - vkDestroyFence is valid only when no batch is pending on the fence
    (`MayDestroyFence`).
  - The other destroy calls of the teardown are valid only when no batch is
    pending at all (`QueueIdle`).
- `phases.dfy`: the four recorded command buffers, and one submit followed by
  one wait.
- `lifecycle.dfy`: the 23 objects a `ComputeApplication` creates, in creation
  order, and their destruction.
- `application.dfy`: the `ComputeApplication` record as a class whose methods
  fill its handle fields. It covers the Initialize steps,
  `ExecuteComputeShaders`, `CleanUpVulkan` and `ComputeResult`.
- `interop.dfy`: `LibComputeSample.Compute`.

The shaders are opaque. Each pass is a kernel parameter: a function from the
input and output bindings to each new output cell. So the model proves what
reaches which buffer in which order, not what the moving average is.

## Model

| member | source | states |
|---|---|---|
| Records.CandlestickBytes | Sample.native/main.c:25-31 | the four fields sit at offsets 0, 4, 8 and 12; reading the cell back as a Candlestick gives the record again |
| Records.IndicatorBytes | Sample.native/main.c:33-39 | an Indicator is one 16-byte cell; reading the cell back as an Indicator gives the record again |
| Records.PricePointAsCandlestick | Sample/Native/LibComputeSample.cs:15 | the cast reads the PricePoint's bytes unchanged; `close` lands in `close`, but `open`, `high` and `low` receive `High`, `Low` and `Open` |
| Records.CandlestickArray | Sample.native/main.c:593 | the memcpy'd input is one cell per candlestick, and each cell reads back as its candlestick |
| Records.IndicatorArray | Sample.native/main.c:598 | the copied-out cells, read as Indicators, have the same count and the same bytes |
| Sizing.Uint32 | Sample.native/main.c:66 | a store into a `uint32_t` is below 2^32 and is the identity on values that fit |
| Sizing.CeilDiv | Sample.native/main.c:444 | `ceil(a / b)` is the least q with q * b >= a |
| Sizing.SizesExact | Sample.native/main.c:581-582 | below 2^28 elements, the element count survives the `uint32_t` store; the input size is 16 bytes per element and equals the output size |
| Sizing.InputBufferSizeWraps | Sample.native/main.c:581 | at 2^28 elements the `uint32_t` input size wraps to 0, while the output size is 2^32 |
| Sizing.DispatchCounts | Sample.native/main.c:444-450 | pass 1 dispatches exactly one work-group more than pass 2; pass 2 dispatches the fewest 256-invocation groups covering every input byte |
| Sizing.DispatchPerElement | Sample.native/main.c:444-450 | the group count comes from bytes, not elements: pass 2 runs ceil(n / 16) groups for n elements, at least 16 invocations per element |
| Sizing.PaddedLength | Sample.native/main.c:331 | the padded length is a multiple of 4, at least the file size and less than 4 more |
| Sizing.PaddedLengthIsLeast | Sample.native/main.c:331 | no smaller multiple of 4 covers the file size |
| SampleFile.ReadFile | Sample.native/main.c:317-344 | an unopenable file gives NULL and `*outlength` untouched; otherwise a fresh buffer of the padded length holding the file then zero bytes, and `*outlength` is the padded length, not the file size |
| Selection.FirstAcceptableFromIsLeast | Sample.native/main.c:179-186 | the search from `from` finds an acceptable index with none acceptable before it, or the sentinel |
| Selection.MemoryTypeIndexIsLeast | Sample.native/main.c:179-186 | the chosen memory type is the sentinel exactly when no index is acceptable; otherwise it is the least index whose type bit is set and whose flags contain every requested property; the sentinel is never an index |
| Selection.RetrieveMemoryType | Sample.native/main.c:173-187 | the loop returns exactly that least acceptable index, or `(uint32_t)-1` |
| Selection.FirstComputeFamilyFrom | Sample.native/main.c:129-146 | the first family with a queue and the compute bit, with none before it qualifying; or none at all |
| Selection.GetComputeQueueFamilyIndex | Sample.native/main.c:120-147 | the loop returns the first compute-capable family; an index it returns is below queueFamilyCount; no family means the `exit(1)` path |
| Backend.LiveChildrenZero | Sample.native/main.c:505-525 | the live-children count used by the destroy rule is zero exactly when no object is a live child |
| Backend.CreateKeepsValid | Sample.native/main.c:83-462 | each vkCreate/vkAllocate call from a live parent keeps every object after its parent |
| Backend.DestroyEffect | Sample.native/main.c:505-525 | a vkDestroy/vkFree call ends the object, and for a pool what was allocated from it, and changes nothing else |
| Backend.DestroyKeepsValid | Sample.native/main.c:505-525 | destroying keeps every object after its parent |
| Backend.NoChildrenYet | Sample.native/main.c:486-502 | nothing has been created from the next handle yet, so a new object has no live child; whether the fence's destruction is valid also depends on its pending batches (FenceDestroyed) |
| Backend.CreateThenDestroy | Sample.native/main.c:486-502 | an object created and then destroyed before anything is created from it is live with no live child (MayDestroy), and Destroy leaves only a dead entry; whether a fence's destruction is valid usage also depends on its pending batches (FenceDestroyed) |
| Phases.CopyPhase | Sample.native/main.c:430-438 | a one-region copy at offsets 0 → 0 of exactly the buffers' size replaces the destination memory with the source cells |
| Phases.PassPhase | Sample.native/main.c:440-450 | binding the pipeline and the set, then dispatching at least one group, runs the kernel once with binding 0 as input and binding 1 as output; nothing else changes |
| Phases.SubmitThenWaitOnUnsignaled | Sample.native/main.c:493-494 | a submission with an unsignaled, idle fence is valid, and the wait observes it complete: its effect on memory is visible and the fence is signaled and idle |
| Phases.SubmitThenWaitOnSignaled | Sample.native/main.c:495-500 | a submission with an already signaled fence breaks the valid-usage rule; the wait returns at once and observes nothing, so memory as the host has observed it is unchanged, and the batch stays pending on the fence, where the device may still run it (see PendingBatches) |
| Lifecycle.DestroyAt | Sample.native/main.c:505-525 | each destroy call in CleanUpVulkan is valid: no batch is pending, the object is live, and it has no live child unless it is a pool; the call ends that layout position and its pool's children, nothing else |
| Lifecycle.KilledInLayout | Sample.native/main.c:505-525 | destroying layout position j turns the liveness vector into Ended(live, j) and touches no other object |
| Application.ComputeApplication.constructor | Sample.native/main.c:579 | calloc: each of the 23 handle fields is VK_NULL_HANDLE, no physical device or queue, queue family 0, NULL input and zero counts |
| Application.ComputeApplication.InitializeVulkanInstance | Sample.native/main.c:83-103 | one Vulkan 1.1 instance, created with no parent at the next handle |
| Application.ComputeApplication.SelectPhysicalDevice | Sample.native/main.c:105-118 | the first physical device is chosen; with none, the field is left as it was |
| Application.ComputeApplication.InitializeVulkanDevice | Sample.native/main.c:149-171 | the device has one queue of the first compute family, and the queue is queue 0 of that family; it exits exactly when no family qualifies |
| Application.CreateBoundBuffer | Sample.native/main.c:197-212 | a buffer, then memory of the type RetrieveMemoryType picks, bound to it at offset 0, both from the device |
| Application.ComputeApplication.InitializeBuffers | Sample.native/main.c:189-253 | staging buffers get HOST_VISIBLE\|HOST_COHERENT memory and device-only buffers DEVICE_LOCAL; each input pair is 16·n bytes and each output pair sizeof(Indicator)·n; each buffer is bound to its own new memory |
| Application.ComputeApplication.InitializeDescriptorSetLayout | Sample.native/main.c:255-273 | a set layout with bindings 0 and 1 |
| Application.ComputeApplication.InitializeDescriptorSets | Sample.native/main.c:275-315 | a pool for one set of two descriptors, the set allocated from it, with binding 0 = whole device-only input and binding 1 = whole device-only output |
| Application.ComputeApplication.InitializeComputePipelines | Sample.native/main.c:346-407 | two shader modules from the embedded code, a pipeline layout over the set layout, and one pipeline per module with entry "main" |
| Application.ComputeApplication.InitializeCommandBuffers | Sample.native/main.c:409-462 | a pool on the compute family and four command buffers from it; copy-in, pass 1, pass 2 and copy-out hold the recordings with their sizes and group counts |
| Application.ComputeApplication.Initialize | Sample.native/main.c:583-590 | exits exactly when no compute family exists; otherwise the 23 objects are live right after earlier objects, wired together, with every memory object zeroed at n cells |
| Application.ComputeApplication.InitializeObjects | Sample.native/main.c:586-590 | the steps after the device leave the Ready state, with the four memories zeroed |
| Application.ComputeApplication.InitializeBuffersAndDescriptors | Sample.native/main.c:586-588 | buffers, set layout and descriptor set occupy the next eleven handles; bindings and writes as the layout says |
| Application.ComputeApplication.FinishObjects | Sample.native/main.c:589-590 | the pipelines and command buffers complete the layout; nothing before them changes |
| Application.ComputeApplication.InitializePipelinesAndCommands | Sample.native/main.c:589-590 | the shader modules, pipelines, pool and command buffers occupy the next ten handles, with their recordings |
| Application.ComputeApplication.InitializedIsReady | Sample.native/main.c:583-590 | the state the Initialize steps build is Ready: laid out, wired and sized |
| Application.ComputeApplication.InitializedIsWired | Sample.native/main.c:189-462 | each buffer is bound to its own memory, the set points at the device-only buffers, the four recordings are in place, and each memory holds n cells |
| Application.ComputeApplication.CopyInPhase | Sample.native/main.c:493-494 | copy-in with the idle fence is valid; after the wait, device-only input memory holds the staging input |
| Application.ComputeApplication.Pass1Phase | Sample.native/main.c:495-496 | pass 1 with an idle fence is valid; after the wait, device-only output holds the first kernel's run |
| Application.ComputeApplication.Pass2Phase | Sample.native/main.c:497-498 | pass 2, likewise, with the second kernel |
| Application.ComputeApplication.CopyOutPhase | Sample.native/main.c:499-500 | copy-out with the idle fence is valid; after the wait, staging output memory holds the device-only output |
| Application.ComputeApplication.ResetAfterWait | Sample.native/main.c:493-500 | resetting the fence after a wait that observed its batch makes it unsignaled and idle again, with nothing else changed |
| Application.ComputeApplication.FenceCreated | Sample.native/main.c:486-491 | the fence is created unsignaled from the live device, right after the layout |
| Application.ComputeApplication.FenceDestroyed | Sample.native/main.c:502 | the fence is live with no live child, and destroying it is valid usage of vkDestroyFence exactly when no batch is pending on it; the layout stays live, followed by the dead fence |
| Application.ComputeApplication.ExecuteComputeShadersWithReset | Sample.native/main.c:464-503 | with the fence reset between waits, all four submissions are valid and each is observed complete, in order; staging output ends as pass 2 over pass 1 over the input; nothing is pending and the fence's destruction is valid; an idle queue stays idle |
| Application.ComputeApplication.CopyInThenPass1 | Sample.native/main.c:493-496 | copy-in then pass 1, both valid and observed; device-only memory as the two phases leave it |
| Application.ComputeApplication.Pass2ThenCopyOut | Sample.native/main.c:497-500 | pass 2 then copy-out, both valid and observed; both output memories hold the second kernel's result |
| Application.ComputeApplication.ExecuteComputeShaders | Sample.native/main.c:464-503 | as written: only copy-in is valid and observed; passes 1, 2 and copy-out are submitted on a signaled fence and none is observed; the fence is destroyed with those three batches pending, which is invalid usage; a later read of the staging output sees its old cells unless the device has run all three, and then the two passes' result; the queue is left with work pending, so the state fails CleanUpVulkan's precondition |
| Application.ComputeApplication.SubmitOnSignaledFence | Sample.native/main.c:495-500 | the three later submissions are all invalid, each wait returns at once and observes no completion, and the three batches stay pending on the fence in submission order |
| Application.ComputeApplication.PendingBatches | Sample.native/main.c:495-500 | of the batches left pending, pass 1 and pass 2 touch only device-only output memory, so the staging output keeps its old cells until copy-out has also run, and then holds pass 2 over pass 1 |
| Application.ComputeApplication.PendingPasses | Sample.native/main.c:495-498 | the two pending passes, run in order, leave the first kernel's and then both kernels' result in device-only output memory and change nothing else |
| Application.ComputeApplication.PendingAfterDestroy | Sample.native/main.c:495-502 | the same holds after the fence is destroyed |
| Application.ComputeApplication.Pass1Runs | Sample.native/main.c:441-445 | executing pass 1's recording replaces device-only output with the first kernel over device-only input and output, and changes nothing else |
| Application.ComputeApplication.Pass2Runs | Sample.native/main.c:447-451 | executing pass 2's recording, likewise, with the second kernel |
| Application.ComputeApplication.CopyOutRuns | Sample.native/main.c:453-461 | executing copy-out's recording replaces staging output memory with the device-only output, and changes nothing else |
| Backend.DestroyKeepsPendingWork | Sample.native/main.c:502 | destroying an object leaves unchanged what the pending batches do to memory |
| Application.ComputeApplication.CleanUpVulkan | Sample.native/main.c:505-525 | with no batch pending, every destroy call is valid usage, with the device after its children and the instance last; afterwards none of the 23 objects is live and only liveness changed |
| Application.ComputeApplication.DestroyBuffers | Sample.native/main.c:507-514 | with no batch pending, the four memories and then the four buffers are each validly destroyed |
| Application.ComputeApplication.DestroyPipelineObjects | Sample.native/main.c:515-522 | with no batch pending: modules, descriptor pool (freeing its set), set layout, pipeline layout, pipelines, and command pool (freeing its buffers) |
| Application.ComputeApplication.DestroyDeviceAndInstance | Sample.native/main.c:523-524 | with no batch pending, the device once it has no live child, then the instance |
| Application.ComputeApplication.ComputeOnInitialized | Sample.native/main.c:591-601 | the first n output records become the Indicator reading of pass 2 over pass 1 over the candlesticks; the rest of `output` is untouched; all four submissions are valid and observed; every object is destroyed; no batch is pending before or after |
| Application.ComputeResult | Sample.native/main.c:575-603 | 1 exactly for a NULL pointer or no elements, on any driver state, with no state created and `output` untouched; `exit(1)` exactly when no compute family exists; otherwise 0, with exactly the first n records written to `output` and everything created released; given no pending batch, none is pending afterwards |
| Application.ComputedIsReleased | Sample.native/main.c:595-601 | after CleanUpVulkan, the earlier objects are kept, every new object is dead, and every submission was valid and observed complete |
| Interop.AsCandlesticks | Sample/Native/LibComputeSample.cs:15 | the cast over the array reinterprets each PricePoint in place, one Candlestick per element |
| Interop.CastKeepsBytes | Sample/Native/LibComputeSample.cs:15 | the native side reads exactly the bytes the managed array lays out, cell for cell |
| Interop.Compute | Sample/Native/LibComputeSample.cs:9-19 | the output array and the native count are the input length; null exactly when the native call is nonzero, which is exactly for an empty input, on any driver state; otherwise one value per price point, each the `sma` of its output record; given no pending batch, none is pending afterwards |

## Left out

- Floating point: the shaders' moving-average arithmetic sits in the embedded SPIR-V. Each pass is an opaque kernel, so no windowed-mean property is stated.
- VK_CHECK_RESULT failure handling: every Vulkan call is modelled as succeeding, because the macro only prints and asserts.
- Vulkan API behaviour beyond handles, parents, liveness, bound memory, recordings, descriptor writes, fences and the submission log: the abstract driver stands in for the implementation.
  - Memory is modelled as zero when allocated. Vulkan leaves it undefined, and the shaders' reliance on it cannot be judged here.
  - Allocation sizes are taken to be the requested buffer sizes. `memoryRequirements.size` may be larger.
- The wait timeout (100 s): every wait is modelled as returning once its batch completes.
- Backend.Vk.Destroy: destroying a fence with batches pending is modelled as a dead fence whose pending batches may still run, not as undefined behaviour. MayDestroyFence says whether the call was valid usage.
- Backend.Vk.QueueIdle: Vulkan forbids destroying an object only while pending submitted work refers to it. CleanUpVulkan and DestroyAt instead require that no batch is pending at all, which is stronger.
- Backend.Vk.Executed: the device is modelled as running whole batches in submission order. A host read that races a copy in progress, and so sees part of its cells, is not modelled.
- Backend.ExecutionState.DispatchBound: a dispatch is modelled as covering every cell, whatever its group count. Sizing.DispatchCounts is the separate coverage argument: pass 2 runs enough 256-invocation groups to cover every input byte.
- File and console I/O: the `fopen`/`fread` part of `readFile` is left out, along with `LoadSampleFile`, `CopySampleDataIntoInputBuffer`, `PrintAllResults` and `run`. ReadFile takes the file contents as a parameter instead.
- The process-global `app` and `free(app)`: the model uses a fresh local object.
- `exit(1)` is modelled as an outcome (`exited` / `Exited(1)`), not as process termination.
- Application.ComputeResult: with both pointers non-NULL and at least one element, requires fewer than 2^28 elements. Beyond that, the `uint32_t` input size wraps (Sizing.InputBufferSizeWraps), and the memcpy of 16·n bytes overruns a smaller mapped buffer, which is undefined behaviour.
- Application.ComputeResult: with both pointers non-NULL and at least one element, requires that no batch is pending when it is called. A call that returns 0 leaves no batch pending, so one call may follow another.
- Application.ComputeResult: with both pointers non-NULL and at least one element, requires at least one physical device. With none, SelectPhysicalDevice leaves a NULL physical device that later calls dereference.
- Application.ComputeResult: uses the corrected ExecuteComputeShadersWithReset (see Findings), which resets the fence after each of the first three waits. With the code as written, what `output` receives is not determined: the zeroed staging output if the device has not yet run copy-out when the memcpy at main.c:598 reads it, the passes' result if it has run all three pending batches (ExecuteComputeShaders states both).
- Application.ComputeApplication.ComputeOnInitialized: calls the corrected ExecuteComputeShadersWithReset, with vkResetFences after each of the first three waits, not the code as written.
- Application.ComputeApplication.InitializeBuffers: when no memory type qualifies, the `(uint32_t)-1` sentinel is passed to vkAllocateMemory unchecked, as in the source. The abstract driver accepts that call, although Vulkan makes it invalid usage; Selection.MemoryTypeIndexIsLeast states when it happens.
- Application.ComputeApplication.InitializeBuffers: the memoryTypeBits that vkGetBufferMemoryRequirements reports is modelled as one value per physical device for storage buffers, not one per buffer.
- Interop.Compute: for a non-empty array, requires fewer than 2^28 price points, for the same reason as ComputeResult.
- Interop.Compute: for a non-empty array, requires that no batch is pending when it is called, as ComputeResult does.
- Interop.Compute: for a non-empty array, requires at least one physical device whose description is well formed, as ComputeResult does. An empty array needs neither, and gives null.
- Interop.Compute: its result is that of ComputeResult with the corrected ExecuteComputeShadersWithReset (vkResetFences after each of the first three waits), not the code as written.
- Interop.Compute: the pinned arrays are modelled as fresh Dafny arrays. `(Candlestick*)ptr` is a read-only reinterpretation, because ComputeResult never writes `kline`.
- Sample/Processor/SMAIndicatorProcessor.cs (a background worker over a concurrent queue), the ASP.NET controller, host wiring and DTOs: concurrency and framework code, not part of this model.

## Findings

| source | as written | input that shows it | evidently intended | confidence | as-written member | corrected member |
|---|---|---|---|---|---|---|
| Sample.native/main.c:491-502 | One fence is created unsignaled and passed to all four vkQueueSubmit calls, with no vkResetFences between the waits. After copy-in's wait the fence is signaled, so submissions 2-4 break the valid-usage rule of section 5.5 of the Vulkan 1.1 specification (the fence must be unsignaled). Their waits return at once, and nothing guarantees the passes or copy-out have run before `output` is read. The fence is then destroyed with three batches pending, which breaks the valid usage of vkDestroyFence (section 6.3). CleanUpVulkan (main.c:600) then frees the memories and buffers, and destroys the descriptor pool, pipelines, command pool and device, that those pending batches use (main.c:507-523), which is also invalid usage. | Any call of ComputeResult with at least one element on a device with a compute queue; if the device has not run copy-out by the memcpy, `output` receives zero cells. | Reset the fence after each of the first three waits, so every submission is valid and each wait observes its batch; `output` then holds pass 2 over pass 1 over the input. | high; not executed | Application.ComputeApplication.ExecuteComputeShaders | Application.ComputeApplication.ExecuteComputeShadersWithReset |
