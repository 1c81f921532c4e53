/**
 * Pipeline (PipelineVK.h, PipelineVK.cpp): the render pass the engine draws
 * with, whether the pipeline object owns it, and the per-shader tables of
 * pipelines (one per blend mode) and pipeline layouts.
 */
module PipelineVK {
  import opened Wrappers
  import opened Vulkan
  import opened UtilsCommon

  /** The three attachments of the render pass: multisampled colour, depth, and the single-sample resolve target that is presented. */
  const COLOR_ATTACHMENT: nat := 0
  const DEPTH_ATTACHMENT: nat := 1
  const RESOLVE_ATTACHMENT: nat := 2

  /** The render pass CreateRenderPass describes for a colour format, a depth format and a sample count. */
  function RenderPassDescription(graphicsFormat: Format, depthFormat: Format, sampleCount: nat): (info: RenderPassCreateInfo)
    ensures |info.attachments| == 3 && |info.subpasses| == 1 && |info.dependencies| == 1
    ensures info.attachments[COLOR_ATTACHMENT]
            == AttachmentDescription(graphicsFormat, sampleCount, LoadOpClear, StoreOpStore, LoadOpDontCare, StoreOpDontCare,
                                     LayoutUndefined, ColorAttachmentOptimal)
    ensures info.attachments[DEPTH_ATTACHMENT]
            == AttachmentDescription(depthFormat, sampleCount, LoadOpClear, StoreOpStore, LoadOpDontCare, StoreOpDontCare,
                                     LayoutUndefined, DepthStencilAttachmentOptimal)
    ensures info.attachments[RESOLVE_ATTACHMENT]
            == AttachmentDescription(graphicsFormat, 1, LoadOpDontCare, StoreOpStore, LoadOpDontCare, StoreOpDontCare,
                                     LayoutUndefined, PresentSrc)
    ensures info.subpasses[0]
            == SubpassDescription(BindGraphics, [],
                                  [AttachmentReference(COLOR_ATTACHMENT, ColorAttachmentOptimal)],
                                  [AttachmentReference(RESOLVE_ATTACHMENT, ColorAttachmentOptimal)],
                                  [AttachmentReference(DEPTH_ATTACHMENT, DepthStencilAttachmentOptimal)])
    ensures info.dependencies[0]
            == SubpassDependency(External, Subpass(0), {ColorAttachmentOutput}, {ColorAttachmentOutput},
                                 {ColorAttachmentRead, ColorAttachmentWrite}, {ColorAttachmentRead, ColorAttachmentWrite})
  {
    var attachments := [
      AttachmentDescription(graphicsFormat, sampleCount, LoadOpClear, StoreOpStore, LoadOpDontCare, StoreOpDontCare,
                            LayoutUndefined, ColorAttachmentOptimal),
      AttachmentDescription(depthFormat, sampleCount, LoadOpClear, StoreOpStore, LoadOpDontCare, StoreOpDontCare,
                            LayoutUndefined, DepthStencilAttachmentOptimal),
      AttachmentDescription(graphicsFormat, 1, LoadOpDontCare, StoreOpStore, LoadOpDontCare, StoreOpDontCare,
                            LayoutUndefined, PresentSrc)];
    var dependency := SubpassDependency(External, Subpass(0), {ColorAttachmentOutput}, {ColorAttachmentOutput},
                                        {ColorAttachmentRead, ColorAttachmentWrite}, {ColorAttachmentRead, ColorAttachmentWrite});
    var subpass := SubpassDescription(BindGraphics, [],
                                      [AttachmentReference(COLOR_ATTACHMENT, ColorAttachmentOptimal)],
                                      [AttachmentReference(RESOLVE_ATTACHMENT, ColorAttachmentOptimal)],
                                      [AttachmentReference(DEPTH_ATTACHMENT, DepthStencilAttachmentOptimal)]);
    RenderPassCreateInfo(attachments, [subpass], [dependency])
  }

  /** Every attachment a subpass refers to exists. */
  predicate ReferencesInRange(info: RenderPassCreateInfo, refs: seq<AttachmentReference>) {
    forall k :: 0 <= k < |refs| ==> refs[k].attachment < |info.attachments|
  }

  /**
   * The VkRenderPassCreateInfo validity rules this render pass is subject
   * to: references in range, at most one depth attachment, one resolve per
   * colour attachment when resolving, each resolve attachment single-sample
   * with its colour attachment's format, each resolved colour attachment
   * multisampled, colour and depth attachments with the same sample count,
   * and dependencies between existing subpasses or the outside.
   */
  predicate WellFormedSubpass(info: RenderPassCreateInfo, subpass: SubpassDescription) {
    && ReferencesInRange(info, subpass.inputAttachments)
    && ReferencesInRange(info, subpass.colorAttachments)
    && ReferencesInRange(info, subpass.resolveAttachments)
    && ReferencesInRange(info, subpass.depthStencilAttachment)
    && |subpass.depthStencilAttachment| <= 1
    && (subpass.resolveAttachments != [] ==> |subpass.resolveAttachments| == |subpass.colorAttachments|)
    && (forall k :: 0 <= k < |subpass.resolveAttachments| && k < |subpass.colorAttachments| ==>
          var resolve := info.attachments[subpass.resolveAttachments[k].attachment];
          var color := info.attachments[subpass.colorAttachments[k].attachment];
          resolve.samples == 1 && color.samples != 1 && resolve.format == color.format)
    && (forall k, d :: 0 <= k < |subpass.colorAttachments| && 0 <= d < |subpass.depthStencilAttachment| ==>
          info.attachments[subpass.colorAttachments[k].attachment].samples
          == info.attachments[subpass.depthStencilAttachment[d].attachment].samples)
  }

  predicate WellFormedRenderPass(info: RenderPassCreateInfo) {
    && (forall s :: 0 <= s < |info.subpasses| ==> WellFormedSubpass(info, info.subpasses[s]))
    && (forall d :: 0 <= d < |info.dependencies| ==>
          (info.dependencies[d].srcSubpass.Subpass? ==> info.dependencies[d].srcSubpass.index < |info.subpasses|)
          && (info.dependencies[d].dstSubpass.Subpass? ==> info.dependencies[d].dstSubpass.index < |info.subpasses|))
  }

  /**
   * The render pass is valid exactly when the sample count is not 1: with a
   * single sample the colour attachment would be resolved into an attachment
   * with the same sample count, which Vulkan forbids.
   */
  lemma {:induction false} RenderPassValidIffMultisampled(graphicsFormat: Format, depthFormat: Format, sampleCount: nat)
    ensures WellFormedRenderPass(RenderPassDescription(graphicsFormat, depthFormat, sampleCount)) <==> sampleCount != 1
  {
    var info := RenderPassDescription(graphicsFormat, depthFormat, sampleCount);
    var subpass := info.subpasses[0];
    if sampleCount != 1 {
      assert WellFormedSubpass(info, subpass);
      forall s | 0 <= s < |info.subpasses|
        ensures WellFormedSubpass(info, info.subpasses[s])
      {
        assert s == 0;
      }
    } else {
      assert info.attachments[subpass.colorAttachments[0].attachment].samples == 1;
      assert !WellFormedSubpass(info, subpass);
    }
  }

  class Pipeline {
    const device: Device
    /** m_renderPass. */
    var renderPass: Handle
    /** m_ownedRenderPass: whether destruction must destroy the render pass. */
    var ownedRenderPass: bool
    /** m_graphicsPipelines: per shader type, one pipeline per blend mode, indexed by the mode's position. */
    var graphicsPipelines: map<ShaderType, seq<Handle>>
    /** m_pipelineLayouts. */
    var pipelineLayouts: map<ShaderType, Handle>

    /** Pipeline(device): no render pass, owned by nobody, no pipelines. */
    constructor (device: Device)
      ensures this.device == device
      ensures renderPass == NULL_HANDLE && !ownedRenderPass
      ensures graphicsPipelines == map[] && pipelineLayouts == map[]
    {
      this.device := device;
      renderPass := NULL_HANDLE;
      ownedRenderPass := false;
      graphicsPipelines := map[];
      pipelineLayouts := map[];
    }

    /** CreateRenderPass: create the render pass described above and take ownership of it. */
    method CreateRenderPass(graphicsFormat: Format, depthFormat: Format, sampleCount: nat)
      modifies this, device
      ensures renderPass == old(device.nextHandle) && device.nextHandle == renderPass + 1
      ensures ownedRenderPass
      ensures graphicsPipelines == old(graphicsPipelines) && pipelineLayouts == old(pipelineLayouts)
      ensures device.log == old(device.log)
                + [DeviceCall.CreateRenderPass(renderPass, RenderPassDescription(graphicsFormat, depthFormat, sampleCount))]
    {
      var handle := device.NewHandle();
      device.Issue(DeviceCall.CreateRenderPass(handle, RenderPassDescription(graphicsFormat, depthFormat, sampleCount)));
      renderPass := handle;
      ownedRenderPass := true;
    }

    /** ~Pipeline: destroy the render pass exactly when this object owns one. */
    method Destroy()
      modifies device
      ensures device.nextHandle == old(device.nextHandle)
      ensures ownedRenderPass ==> device.log == old(device.log) + [DestroyRenderPass(renderPass)]
      ensures !ownedRenderPass ==> device.log == old(device.log)
    {
      if ownedRenderPass {
        device.Issue(DestroyRenderPass(renderPass));
      }
    }

    /**
     * GetPipeline: the pipeline registered for the shader type at the blend
     * mode's position.  map::at throws for an unregistered shader type inside
     * a noexcept function, which terminates the program: None.  The position
     * is not checked, so it must lie within the list.
     */
    function GetPipeline(blendMode: BlendMode, shaderType: ShaderType): (pipeline: Option<Handle>)
      reads this
      requires shaderType in graphicsPipelines ==> BlendIndex(blendMode) < |graphicsPipelines[shaderType]|
      ensures pipeline.None? <==> shaderType !in graphicsPipelines
      ensures pipeline.Some? ==> pipeline.value in graphicsPipelines[shaderType]
      ensures pipeline.Some? ==> pipeline.value == graphicsPipelines[shaderType][BlendIndex(blendMode)]
    {
      if shaderType in graphicsPipelines then Some(graphicsPipelines[shaderType][BlendIndex(blendMode)]) else None
    }

    /** GetPipelineLayout: the layout registered for the shader type; None where map::at would throw. */
    function GetPipelineLayout(shaderType: ShaderType): (layout: Option<Handle>)
      reads this
      ensures layout.None? <==> shaderType !in pipelineLayouts
      ensures layout.Some? ==> layout.value == pipelineLayouts[shaderType]
    {
      if shaderType in pipelineLayouts then Some(pipelineLayouts[shaderType]) else None
    }
  }

  /**
   * With one pipeline per real blend mode registered for a shader type,
   * distinct blend modes select distinct slots, so each mode gets its own
   * pipeline; the End sentinel has no slot.
   */
  lemma {:induction false} BlendModesSelectDistinctSlots(pipelines: seq<Handle>, a: BlendMode, b: BlendMode)
    requires |pipelines| == BLEND_MODE_COUNT
    requires forall i, j :: 0 <= i < j < |pipelines| ==> pipelines[i] != pipelines[j]
    requires a != End && b != End
    ensures BlendIndex(a) < |pipelines| && BlendIndex(b) < |pipelines|
    ensures pipelines[BlendIndex(a)] == pipelines[BlendIndex(b)] <==> a == b
  {
    BlendIndexInjective(a, b);
  }
}
