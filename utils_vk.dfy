/**
 * Helpers of the Vulkan back end (UtilsVK.h): queue family indices, the
 * vertex layout the pipeline reads, the result check that throws, and the
 * one-shot command buffer protocol used for every transfer.
 */
module UtilsVK {
  import opened Wrappers
  import opened Vulkan
  import opened UtilsCommon

  /** The queue families the engine needs: each is absent until a capable family is found. */
  datatype QueueIndices = QueueIndices(graphicsQueue: Option<nat>, presentQueue: Option<nat>)
  {
    /** IsCompleted: both families are known. */
    predicate IsCompleted() {
      graphicsQueue.Some? && presentQueue.Some?
    }
  }

  /** A VkResult: success or an error code. */
  datatype VkResult = VkSuccess | VkError(code: int)

  /** ThrowIfFailed(result, message): throws the message exactly when the call did not succeed. */
  function ThrowIfFailedResult(result: VkResult, message: string): (o: Outcome)
    ensures o.Pass? <==> result.VkSuccess?
    ensures o.Throw? ==> o.message == message
  {
    if result != VkSuccess then Throw(message) else Pass
  }

  /** Size in bytes of one element of the vertex attribute formats the engine uses. */
  function FormatSize(format: Format): nat {
    match format
    case R32G32B32Sfloat => 12
    case R32G32Sfloat => 8
    case _ => 0
  }

  /**
   * The Vertex struct: Position and Normal are three floats, TexCoord two;
   * with four-byte alignment they sit at offsets 0, 12 and 24 and the struct
   * is 32 bytes long.
   */
  const POSITION_OFFSET: nat := 0
  const NORMAL_OFFSET: nat := 12
  const TEX_COORD_OFFSET: nat := 24
  const VERTEX_SIZE: nat := 32

  datatype VertexInputRate = PerVertex | PerInstance

  datatype VertexInputAttributeDescription = VertexInputAttributeDescription(
    location: nat, binding: nat, format: Format, offset: nat)

  datatype VertexInputBindingDescription = VertexInputBindingDescription(
    binding: nat, stride: nat, inputRate: VertexInputRate)

  /**
   * Vertex::GetVertexInputAttributeDescription: one attribute per member, at
   * consecutive locations from 0, all inside one vertex and not overlapping.
   */
  function GetVertexInputAttributeDescription(binding: nat): (descs: seq<VertexInputAttributeDescription>)
    ensures |descs| == 3
    ensures forall i :: 0 <= i < |descs| ==> descs[i].location == i && descs[i].binding == binding
    ensures forall i :: 0 <= i < |descs| ==> descs[i].offset + FormatSize(descs[i].format) <= VERTEX_SIZE
    ensures forall i :: 0 <= i < |descs| ==> FormatSize(descs[i].format) > 0
    ensures forall i, j :: 0 <= i < j < |descs| ==> descs[i].offset + FormatSize(descs[i].format) <= descs[j].offset
    ensures descs[0].format == R32G32B32Sfloat && descs[1].format == R32G32B32Sfloat && descs[2].format == R32G32Sfloat
  {
    [ VertexInputAttributeDescription(0, binding, R32G32B32Sfloat, POSITION_OFFSET),
      VertexInputAttributeDescription(1, binding, R32G32B32Sfloat, NORMAL_OFFSET),
      VertexInputAttributeDescription(2, binding, R32G32Sfloat, TEX_COORD_OFFSET) ]
  }

  /** Vertex::GetVertexInputBindingDescription: the stride is the size of one whole vertex. */
  function GetVertexInputBindingDescription(binding: nat, inputRate: VertexInputRate): (desc: VertexInputBindingDescription)
    ensures desc.binding == binding && desc.inputRate == inputRate
    ensures forall a :: a in GetVertexInputAttributeDescription(binding) ==> a.offset + FormatSize(a.format) <= desc.stride
  {
    VertexInputBindingDescription(binding, VERTEX_SIZE, inputRate)
  }

  /** The calls of one transfer: allocate and begin a one-shot command buffer, record, then end, submit, wait and free. */
  function SingleTimeCommands(commandPool: Handle, queue: Handle, commandBuffer: Handle, commands: seq<DeviceCall>): seq<DeviceCall> {
    [ AllocateCommandBuffers(commandBuffer, CommandBufferAllocateInfo(commandPool, Primary, 1)),
      BeginCommandBuffer(commandBuffer, {OneTimeSubmit}) ]
    + commands
    + [ EndCommandBuffer(commandBuffer),
        QueueSubmit(queue, SubmitInfo([], [commandBuffer], []), NULL_HANDLE),
        QueueWaitIdle(queue),
        FreeCommandBuffers(commandPool, commandBuffer) ]
  }

  /** The command buffer of a one-shot transfer is freed only after the queue has drained the submission. */
  lemma {:induction false} SingleTimeCommandsFreeAfterIdle(commandPool: Handle, queue: Handle, commandBuffer: Handle, commands: seq<DeviceCall>)
    ensures var calls := SingleTimeCommands(commandPool, queue, commandBuffer, commands);
            |calls| == |commands| + 6
            && calls[|calls| - 3] == QueueSubmit(queue, SubmitInfo([], [commandBuffer], []), NULL_HANDLE)
            && calls[|calls| - 2] == QueueWaitIdle(queue)
            && calls[|calls| - 1] == FreeCommandBuffers(commandPool, commandBuffer)
            && calls[2..|calls| - 4] == commands
  {
  }

  /** CreateSingleTimeBuffer: allocate one primary command buffer from the pool and begin it for one submission. */
  method CreateSingleTimeBuffer(device: Device, commandPool: Handle) returns (commandBuffer: LiveHandle)
    modifies device
    ensures commandBuffer == old(device.nextHandle)
    ensures device.nextHandle == commandBuffer + 1
    ensures device.log == old(device.log)
              + [ AllocateCommandBuffers(commandBuffer, CommandBufferAllocateInfo(commandPool, Primary, 1)),
                  BeginCommandBuffer(commandBuffer, {OneTimeSubmit}) ]
  {
    commandBuffer := device.NewHandle();
    device.Issue(AllocateCommandBuffers(commandBuffer, CommandBufferAllocateInfo(commandPool, Primary, 1)));
    device.Issue(BeginCommandBuffer(commandBuffer, {OneTimeSubmit}));
  }

  /** ExecuteCommandBuffer: end recording, submit without semaphores or fence, wait for the queue, free the buffer. */
  method ExecuteCommandBuffer(device: Device, commandBuffer: Handle, commandPool: Handle, queue: Handle)
    modifies device
    ensures device.nextHandle == old(device.nextHandle)
    ensures device.log == old(device.log)
              + [ EndCommandBuffer(commandBuffer),
                  QueueSubmit(queue, SubmitInfo([], [commandBuffer], []), NULL_HANDLE),
                  QueueWaitIdle(queue),
                  FreeCommandBuffers(commandPool, commandBuffer) ]
  {
    device.Issue(EndCommandBuffer(commandBuffer));
    device.Issue(QueueSubmit(queue, SubmitInfo([], [commandBuffer], []), NULL_HANDLE));
    device.Issue(QueueWaitIdle(queue));
    device.Issue(FreeCommandBuffers(commandPool, commandBuffer));
  }
}
