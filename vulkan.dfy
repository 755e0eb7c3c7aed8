/** The parts of the Vulkan 1.1 interface that the driver's choices depend
    on: property bit masks and what a physical device reports about its
    queue families and memory types. */
module Vulkan {

  type Flags = bv32

  /** VK_MEMORY_PROPERTY_DEVICE_LOCAL_BIT */
  const DeviceLocal: Flags := 0x1
  /** VK_MEMORY_PROPERTY_HOST_VISIBLE_BIT */
  const HostVisible: Flags := 0x2
  /** VK_MEMORY_PROPERTY_HOST_COHERENT_BIT */
  const HostCoherent: Flags := 0x4
  /** VK_QUEUE_COMPUTE_BIT */
  const QueueCompute: Flags := 0x2

  /** VK_MAX_MEMORY_TYPES: the fixed size of the memory-type table. */
  const MaxMemoryTypes: nat := 32

  /** `(uint32_t)-1`, the "no memory type" answer. */
  const NoMemoryType: nat := 0xFFFF_FFFF

  /** Bit `i` of a 32-bit mask, as `mask & (1 << i)` tests it. */
  predicate HasBit(mask: Flags, i: nat)
    requires i < 32
  {
    mask & (1 << i) != 0
  }

  /** `(flags & wanted) == wanted`: every wanted bit is present. */
  predicate Contains(flags: Flags, wanted: Flags)
  {
    flags & wanted == wanted
  }

  datatype QueueFamilyProperties = QueueFamilyProperties(queueFlags: Flags, queueCount: nat)

  /** What the driver reports about one physical device: its queue families,
      the property flags of each memory type, and the memoryTypeBits that
      vkGetBufferMemoryRequirements reports for a storage buffer. */
  datatype PhysicalDevice = PhysicalDevice(
    queueFamilies: seq<QueueFamilyProperties>,
    memoryTypes: seq<Flags>,
    storageBufferTypeBits: Flags)
  {
    /** The memory-type table has at most VK_MAX_MEMORY_TYPES entries. */
    predicate WellFormed()
    {
      |memoryTypes| <= MaxMemoryTypes
    }
  }
}
