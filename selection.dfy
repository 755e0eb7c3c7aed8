/** The two first-match searches of the native driver: the memory type for a
    buffer (the selection rule of section 10.2 "Device Memory" of the Vulkan
    1.1 specification) and the compute-capable queue family. */
module Selection {
  import opened Wrappers
  import opened Vulkan

  /** Memory type `i` may back the buffer: bit `i` of the buffer's
      memoryTypeBits is set and the type has every requested property. */
  predicate Acceptable(memoryTypes: seq<Flags>, typeBits: Flags, properties: Flags, i: nat)
    requires i < |memoryTypes| <= MaxMemoryTypes
  {
    HasBit(typeBits, i) && Contains(memoryTypes[i], properties)
  }

  /** Specification of the memory-type search: the least acceptable index at
      or after `from`, or NoMemoryType when there is none. */
  function FirstAcceptableFrom(memoryTypes: seq<Flags>, typeBits: Flags, properties: Flags, from: nat): nat
    requires from <= |memoryTypes| <= MaxMemoryTypes
    decreases |memoryTypes| - from
  {
    if from == |memoryTypes| then NoMemoryType
    else if Acceptable(memoryTypes, typeBits, properties, from) then from
    else FirstAcceptableFrom(memoryTypes, typeBits, properties, from + 1)
  }

  /** The memory type RetrieveMemoryType settles on. */
  function MemoryTypeIndex(memoryTypes: seq<Flags>, typeBits: Flags, properties: Flags): nat
    requires |memoryTypes| <= MaxMemoryTypes
  {
    FirstAcceptableFrom(memoryTypes, typeBits, properties, 0)
  }

  lemma {:induction false} FirstAcceptableFromIsLeast(memoryTypes: seq<Flags>, typeBits: Flags, properties: Flags, from: nat)
    requires from <= |memoryTypes| <= MaxMemoryTypes
    ensures var r := FirstAcceptableFrom(memoryTypes, typeBits, properties, from);
      && (r == NoMemoryType || (from <= r < |memoryTypes| && Acceptable(memoryTypes, typeBits, properties, r)))
      && (forall j :: from <= j < |memoryTypes| && j < r ==> !Acceptable(memoryTypes, typeBits, properties, j))
    decreases |memoryTypes| - from
  {
    if from < |memoryTypes| && !Acceptable(memoryTypes, typeBits, properties, from) {
      FirstAcceptableFromIsLeast(memoryTypes, typeBits, properties, from + 1);
    }
  }

  /** The memory type chosen is NoMemoryType exactly when no index is
      acceptable, and otherwise the least acceptable index; NoMemoryType can
      never be taken for an index. */
  lemma MemoryTypeIndexIsLeast(memoryTypes: seq<Flags>, typeBits: Flags, properties: Flags)
    requires |memoryTypes| <= MaxMemoryTypes
    ensures var r := MemoryTypeIndex(memoryTypes, typeBits, properties);
      && (r == NoMemoryType <==> forall j :: 0 <= j < |memoryTypes| ==> !Acceptable(memoryTypes, typeBits, properties, j))
      && (r != NoMemoryType ==> r < |memoryTypes| && Acceptable(memoryTypes, typeBits, properties, r))
      && (forall j :: 0 <= j < |memoryTypes| && j < r ==> !Acceptable(memoryTypes, typeBits, properties, j))
  {
    FirstAcceptableFromIsLeast(memoryTypes, typeBits, properties, 0);
  }

  /** RetrieveMemoryType: scans the memory-type table in order and returns the
      first index whose bit is set in `typeBits` and whose flags contain
      `properties`; falls through to `(uint32_t)-1`. */
  method RetrieveMemoryType(memoryTypes: seq<Flags>, typeBits: Flags, properties: Flags) returns (index: nat)
    requires |memoryTypes| <= MaxMemoryTypes
    ensures index == MemoryTypeIndex(memoryTypes, typeBits, properties)
  {
    var i := 0;
    while i < |memoryTypes|
      invariant 0 <= i <= |memoryTypes|
      invariant FirstAcceptableFrom(memoryTypes, typeBits, properties, i) == MemoryTypeIndex(memoryTypes, typeBits, properties)
    {
      if HasBit(typeBits, i) && memoryTypes[i] & properties == properties {
        return i;
      }
      i := i + 1;
    }
    return NoMemoryType;
  }

  /** A queue family the driver may use: at least one queue, compute bit set. */
  predicate SupportsCompute(family: QueueFamilyProperties)
  {
    family.queueCount > 0 && family.queueFlags & QueueCompute != 0
  }

  /** Specification of the queue-family search: the first compute-capable
      family at or after `from`, or None. */
  function FirstComputeFamilyFrom(families: seq<QueueFamilyProperties>, from: nat): (r: Option<nat>)
    requires from <= |families|
    ensures r.Some? ==> from <= r.value < |families| && SupportsCompute(families[r.value])
    ensures forall j :: from <= j < |families| && (r.None? || j < r.value) ==> !SupportsCompute(families[j])
    decreases |families| - from
  {
    if from == |families| then None
    else if SupportsCompute(families[from]) then Some(from)
    else FirstComputeFamilyFrom(families, from + 1)
  }

  /** getComputeQueueFamilyIndex: a None answer stands for the `exit(1)` the
      source takes when no family qualifies, so an index it does return is
      always below queueFamilyCount. */
  method GetComputeQueueFamilyIndex(families: seq<QueueFamilyProperties>) returns (r: Option<nat>)
    ensures r == FirstComputeFamilyFrom(families, 0)
    ensures r.Some? ==> r.value < |families|
  {
    var i := 0;
    while i < |families|
      invariant 0 <= i <= |families|
      invariant FirstComputeFamilyFrom(families, i) == FirstComputeFamilyFrom(families, 0)
    {
      var props := families[i];
      if props.queueCount > 0 && props.queueFlags & QueueCompute != 0 {
        break;
      }
      i := i + 1;
    }
    if i == |families| {
      return None;
    }
    return Some(i);
  }
}
