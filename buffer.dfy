/**
 * Buffer (BufferVK.cpp): a VkBuffer, the device memory bound to it, and the
 * disposed flag that keeps the destructor from destroying the buffer twice.
 */
module BufferVK {
  import opened Vulkan
  import opened MappableVK
  import opened UtilsVK

  class Buffer {
    const device: Device
    /** m_buffer. */
    var buffer: Handle
    /** m_deviceMemory (from IMappable); NULL_HANDLE until AllocateMemory. */
    var deviceMemory: Handle
    /** m_isDisposed (from IDisposable). */
    var disposed: bool

    /** The creation info of the constructor: the size and usage given, exclusive, no queue family list. */
    static function CreateInfo(usage: set<BufferUsage>, size: nat): (info: BufferCreateInfo)
      ensures info.size == size && info.usage == usage
      ensures info.sharingMode == Exclusive && info.queueFamilyIndices == []
    {
      BufferCreateInfo(size, usage, Exclusive, [])
    }

    /** Buffer(device, usage, size): creates one buffer; no memory yet, not disposed. */
    constructor (device: Device, usage: set<BufferUsage>, size: nat)
      modifies device
      ensures this.device == device
      ensures buffer == old(device.nextHandle) && device.nextHandle == buffer + 1
      ensures deviceMemory == NULL_HANDLE && !disposed
      ensures device.log == old(device.log) + [CreateBuffer(buffer, CreateInfo(usage, size))]
    {
      this.device := device;
      var handle := device.NewHandle();
      device.Issue(CreateBuffer(handle, CreateInfo(usage, size)));
      buffer := handle;
      deviceMemory := NULL_HANDLE;
      disposed := false;
    }

    /**
     * AllocateMemory: query the buffer's requirements, allocate memory of a
     * qualifying type, bind it at offset 0, and return the same handle that
     * is now recorded.
     */
    method AllocateMemory(wanted: set<MemoryProperty>) returns (memory: LiveHandle)
      modifies this, device
      ensures memory == deviceMemory && memory == old(device.nextHandle)
      ensures device.nextHandle == memory + 1
      ensures buffer == old(buffer) && disposed == old(disposed)
      ensures var requirements := device.bufferRequirements(buffer);
              device.log == old(device.log)
                + [ DeviceCall.AllocateMemory(memory, MemoryAllocateInfo(requirements.size,
                      MemoryTypeIndex(device.memoryProperties, requirements.memoryTypeBits, wanted))),
                    BindBufferMemory(buffer, memory, 0) ]
    {
      var requirements := device.bufferRequirements(buffer);
      memory := MapDeviceMemory(device, requirements, wanted);
      deviceMemory := memory;
      device.Issue(BindBufferMemory(buffer, deviceMemory, 0));
    }

    /** Dispose: destroy the buffer and mark it disposed.  It has no guard of its own, so it may run once. */
    method Dispose()
      requires !disposed
      modifies this, device
      ensures disposed
      ensures buffer == old(buffer) && deviceMemory == old(deviceMemory)
      ensures device.nextHandle == old(device.nextHandle)
      ensures device.log == old(device.log) + [DestroyBuffer(buffer)]
    {
      device.Issue(DestroyBuffer(buffer));
      disposed := true;
    }

    /** The calls of ~Buffer followed by ~IMappable. */
    function TeardownCalls(): (calls: seq<DeviceCall>)
      reads this
      ensures DestroyBuffer(buffer) in calls <==> !disposed
      ensures FreeMemory(deviceMemory) in calls <==> deviceMemory != NULL_HANDLE
      ensures |calls| <= 2
      ensures deviceMemory != NULL_HANDLE ==> calls[|calls| - 1] == FreeMemory(deviceMemory)
    {
      (if !disposed then [DestroyBuffer(buffer)] else []) + ReleaseCalls(deviceMemory)
    }

    /**
     * Destruction: Dispose unless already disposed, then the base class frees
     * the memory if any was recorded.  So the buffer is destroyed exactly
     * once overall and before its memory is freed.
     */
    method Destroy()
      modifies this, device
      ensures disposed
      ensures device.nextHandle == old(device.nextHandle)
      ensures device.log == old(device.log) + old(TeardownCalls())
    {
      if !disposed {
        Dispose();
      }
      ReleaseDeviceMemory(device, deviceMemory);
    }

    /** The region CopyBufferToBuffer records: size bytes from offset 0 to offset 0. */
    static function BufferCopyRegion(size: nat): (region: BufferCopy)
      ensures region.srcOffset == 0 && region.dstOffset == 0 && region.size == size
    {
      BufferCopy(0, 0, size)
    }

    /** CopyBufferToBuffer: copy size bytes of the source into this buffer through a one-shot command buffer. */
    method CopyBufferToBuffer(srcBuffer: Handle, size: nat, commandPool: Handle, queue: Handle)
      modifies device
      ensures device.nextHandle == old(device.nextHandle) + 1
      ensures device.log == old(device.log)
                + SingleTimeCommands(commandPool, queue, old(device.nextHandle),
                    [CmdCopyBuffer(old(device.nextHandle), srcBuffer, buffer, BufferCopyRegion(size))])
    {
      var commandBuffer := CreateSingleTimeBuffer(device, commandPool);
      device.Issue(CmdCopyBuffer(commandBuffer, srcBuffer, buffer, BufferCopyRegion(size)));
      ExecuteCommandBuffer(device, commandBuffer, commandPool, queue);
    }

    /**
     * The region CopyBufferToImage records: tightly packed rows from offset
     * 0, into mip 0, layer 0 of one layer, the whole width x height x 1.
     */
    static function BufferImageRegion(height: Uint32, width: Uint32, aspectMask: set<ImageAspect>): (region: BufferImageCopy)
      ensures region.bufferOffset == 0 && region.bufferRowLength == 0 && region.bufferImageHeight == 0
      ensures region.imageSubresource == ImageSubresourceLayers(aspectMask, 0, 0, 1)
      ensures region.imageOffset == Offset3D(0, 0, 0)
      ensures region.imageExtent == Extent3D(width, height, 1)
    {
      BufferImageCopy(0, 0, 0, ImageSubresourceLayers(aspectMask, 0, 0, 1), Offset3D(0, 0, 0), Extent3D(width, height, 1))
    }

    /** CopyBufferToImage: copy this buffer into an image in the transfer-destination layout; the size argument is not used. */
    method CopyBufferToImage(targetImage: Handle, height: Uint32, width: Uint32, size: nat,
                             aspectMask: set<ImageAspect>, commandPool: Handle, queue: Handle)
      modifies device
      ensures device.nextHandle == old(device.nextHandle) + 1
      ensures device.log == old(device.log)
                + SingleTimeCommands(commandPool, queue, old(device.nextHandle),
                    [CmdCopyBufferToImage(old(device.nextHandle), buffer, targetImage, TransferDstOptimal,
                                          BufferImageRegion(height, width, aspectMask))])
    {
      var commandBuffer := CreateSingleTimeBuffer(device, commandPool);
      device.Issue(CmdCopyBufferToImage(commandBuffer, buffer, targetImage, TransferDstOptimal,
                                        BufferImageRegion(height, width, aspectMask)));
      ExecuteCommandBuffer(device, commandBuffer, commandPool, queue);
    }
  }

  /**
   * The whole life of a buffer that gets memory: create, allocate and bind,
   * then destroy.  The buffer is destroyed once, after which its memory is
   * freed once.
   */
  method BufferLifecycle(device: Device, usage: set<BufferUsage>, size: nat, wanted: set<MemoryProperty>)
    modifies device
    ensures var b, m := old(device.nextHandle), old(device.nextHandle) + 1;
            var requirements := device.bufferRequirements(b);
            device.log == old(device.log)
              + [ CreateBuffer(b, Buffer.CreateInfo(usage, size)),
                  AllocateMemory(m, MemoryAllocateInfo(requirements.size,
                    MemoryTypeIndex(device.memoryProperties, requirements.memoryTypeBits, wanted))),
                  BindBufferMemory(b, m, 0),
                  DestroyBuffer(b),
                  FreeMemory(m) ]
  {
    var b := new Buffer(device, usage, size);
    var m := b.AllocateMemory(wanted);
    b.Destroy();
  }
}
