/**
 * IMappable: the part shared by buffers and images that own device memory.
 * It picks a memory type for a resource, allocates the memory, and frees it
 * when the owner goes away.  The owning classes (Buffer, Image) hold the
 * memory handle themselves and call these operations on it.
 */
module MappableVK {
  import opened Vulkan

  function Pow2(n: nat): (r: nat)
    ensures r >= 1
  {
    if n == 0 then 1 else 2 * Pow2(n - 1)
  }

  /** memoryTypeBits & (1 << i) is non-zero: bit i of the mask is set. */
  predicate HasTypeBit(memoryTypeBits: nat, i: nat) {
    (memoryTypeBits / Pow2(i)) % 2 == 1
  }

  /** Memory type i may back the resource and has every wanted property. */
  predicate Qualifies(properties: MemoryProperties, memoryTypeBits: nat, wanted: set<MemoryProperty>, i: nat)
    requires i < |properties.memoryTypes|
  {
    HasTypeBit(memoryTypeBits, i) && wanted <= properties.memoryTypes[i].propertyFlags
  }

  /** The first qualifying memory type at or after `from`, or 0 when there is none. */
  function MemoryTypeIndexFrom(properties: MemoryProperties, memoryTypeBits: nat, wanted: set<MemoryProperty>, from: nat): nat
    requires from <= |properties.memoryTypes|
    decreases |properties.memoryTypes| - from
  {
    if from == |properties.memoryTypes| then 0
    else if Qualifies(properties, memoryTypeBits, wanted, from) then from
    else MemoryTypeIndexFrom(properties, memoryTypeBits, wanted, from + 1)
  }

  /** The memory type index GetMemoryTypeIndex settles on. */
  function MemoryTypeIndex(properties: MemoryProperties, memoryTypeBits: nat, wanted: set<MemoryProperty>): nat {
    MemoryTypeIndexFrom(properties, memoryTypeBits, wanted, 0)
  }

  lemma {:induction false} MemoryTypeIndexFromIsFirst(properties: MemoryProperties, memoryTypeBits: nat, wanted: set<MemoryProperty>, from: nat)
    requires from <= |properties.memoryTypes|
    ensures var index := MemoryTypeIndexFrom(properties, memoryTypeBits, wanted, from);
            (exists k :: from <= k < |properties.memoryTypes| && Qualifies(properties, memoryTypeBits, wanted, k))
            ==> from <= index < |properties.memoryTypes|
                && Qualifies(properties, memoryTypeBits, wanted, index)
                && forall j :: from <= j < index ==> !Qualifies(properties, memoryTypeBits, wanted, j)
    ensures (forall k :: from <= k < |properties.memoryTypes| ==> !Qualifies(properties, memoryTypeBits, wanted, k))
            ==> MemoryTypeIndexFrom(properties, memoryTypeBits, wanted, from) == 0
    decreases |properties.memoryTypes| - from
  {
    if from < |properties.memoryTypes| && !Qualifies(properties, memoryTypeBits, wanted, from) {
      MemoryTypeIndexFromIsFirst(properties, memoryTypeBits, wanted, from + 1);
    }
  }

  /**
   * The memory type chosen is the smallest index whose bit is set in the
   * mask and whose property flags contain every wanted flag; when no type
   * qualifies it is 0, whether or not type 0 qualifies.
   */
  lemma MemoryTypeIndexIsFirstQualifying(properties: MemoryProperties, memoryTypeBits: nat, wanted: set<MemoryProperty>)
    ensures var index := MemoryTypeIndex(properties, memoryTypeBits, wanted);
            (exists k :: 0 <= k < |properties.memoryTypes| && Qualifies(properties, memoryTypeBits, wanted, k))
            ==> index < |properties.memoryTypes|
                && Qualifies(properties, memoryTypeBits, wanted, index)
                && forall j :: 0 <= j < index ==> !Qualifies(properties, memoryTypeBits, wanted, j)
    ensures (forall k :: 0 <= k < |properties.memoryTypes| ==> !Qualifies(properties, memoryTypeBits, wanted, k))
            ==> MemoryTypeIndex(properties, memoryTypeBits, wanted) == 0
  {
    MemoryTypeIndexFromIsFirst(properties, memoryTypeBits, wanted, 0);
  }

  /**
   * When nothing qualifies the engine still allocates from type 0, even one
   * without the wanted properties: host-visible memory asked of a device
   * whose only type is device-local.
   */
  lemma MemoryTypeFallbackIgnoresProperties()
    ensures var properties := MemoryProperties([MemoryType({DeviceLocal}, 0)]);
            !Qualifies(properties, 1, {HostVisible}, 0)
            && MemoryTypeIndex(properties, 1, {HostVisible}) == 0
  {
  }

  /**
   * GetMemoryTypeIndex: scan the device's memory types in order.  The mask
   * is a uint32_t and at most 32 types exist, so every bit examined is one of
   * its 32 bits.
   */
  method GetMemoryTypeIndex(properties: MemoryProperties, memoryTypeBits: Uint32, wanted: set<MemoryProperty>)
    returns (index: nat)
    ensures index == MemoryTypeIndex(properties, memoryTypeBits, wanted)
  {
    var i := 0;
    while i < |properties.memoryTypes|
      invariant 0 <= i <= |properties.memoryTypes|
      invariant MemoryTypeIndexFrom(properties, memoryTypeBits, wanted, i) == MemoryTypeIndex(properties, memoryTypeBits, wanted)
    {
      if HasTypeBit(memoryTypeBits, i) && wanted <= properties.memoryTypes[i].propertyFlags {
        return i;
      }
      i := i + 1;
    }
    return 0;
  }

  /**
   * MapDeviceMemory: allocate requirements.size bytes from the chosen memory
   * type; the new handle is what the owner records as its device memory.
   */
  method MapDeviceMemory(device: Device, requirements: MemoryRequirements, wanted: set<MemoryProperty>)
    returns (memory: LiveHandle)
    modifies device
    ensures memory == old(device.nextHandle)
    ensures device.nextHandle == memory + 1
    ensures device.log == old(device.log)
              + [AllocateMemory(memory, MemoryAllocateInfo(requirements.size,
                   MemoryTypeIndex(device.memoryProperties, requirements.memoryTypeBits, wanted)))]
  {
    var typeIndex := GetMemoryTypeIndex(device.memoryProperties, requirements.memoryTypeBits, wanted);
    memory := device.NewHandle();
    device.Issue(AllocateMemory(memory, MemoryAllocateInfo(requirements.size, typeIndex)));
  }

  /** The calls ~IMappable makes: free the recorded memory, if any. */
  function ReleaseCalls(memory: Handle): (calls: seq<DeviceCall>)
    ensures calls != [] <==> memory != NULL_HANDLE
    ensures forall c :: c in calls ==> c == FreeMemory(memory)
  {
    if memory != NULL_HANDLE then [FreeMemory(memory)] else []
  }

  /** ~IMappable. */
  method ReleaseDeviceMemory(device: Device, memory: Handle)
    modifies device
    ensures device.nextHandle == old(device.nextHandle)
    ensures device.log == old(device.log) + ReleaseCalls(memory)
  {
    if memory != NULL_HANDLE {
      device.Issue(FreeMemory(memory));
    }
  }
}
