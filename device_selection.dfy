/**
 * How GraphicsEngine picks a physical device and builds the logical one:
 * queue family discovery, extension and layer checks, the suitability test,
 * the choice among the enumerated devices, and the queue create infos and
 * queue lookups of CreateLogicalDevice.  What the driver reports about a
 * physical device is a value of PhysicalDeviceInfo.
 */
module DeviceSelection {
  import opened Wrappers
  import opened Vulkan
  import opened UtilsVK
  import opened SwapchainPolicy

  /** One entry of getQueueFamilyProperties, with getSurfaceSupportKHR's answer for the engine's surface. */
  datatype QueueFamily = QueueFamily(queueCount: nat, graphics: bool, surfaceSupport: bool)

  predicate IsGraphicsFamily(family: QueueFamily) {
    family.queueCount > 0 && family.graphics
  }

  predicate IsPresentFamily(family: QueueFamily) {
    family.queueCount > 0 && family.surfaceSupport
  }

  /** Some of the first n families can do graphics (resp. present). */
  predicate HasGraphicsFamily(families: seq<QueueFamily>, n: nat)
    requires n <= |families|
  {
    exists j :: 0 <= j < n && IsGraphicsFamily(families[j])
  }

  predicate HasPresentFamily(families: seq<QueueFamily>, n: nat)
    requires n <= |families|
  {
    exists j :: 0 <= j < n && IsPresentFamily(families[j])
  }

  /**
   * GetQueueIndices.  The scan keeps overwriting each index with the latest
   * capable family and stops at the first family after which both are
   * known; when it never gets there the result is empty.  So the result is
   * complete exactly when some family can do graphics and some family can
   * present, and then: both are capable, the scan stopped at the larger of
   * the two, no earlier prefix had both, and each index is the last capable
   * family up to the stopping point.
   */
  method GetQueueIndices(families: seq<QueueFamily>) returns (indices: QueueIndices)
    ensures indices.IsCompleted() <==> HasGraphicsFamily(families, |families|) && HasPresentFamily(families, |families|)
    ensures !indices.IsCompleted() ==> indices == QueueIndices(None, None)
    ensures indices.IsCompleted() ==>
              var g, p := indices.graphicsQueue.value, indices.presentQueue.value;
              var stop := if g < p then p else g;
              && g < |families| && p < |families|
              && IsGraphicsFamily(families[g]) && IsPresentFamily(families[p])
              && (forall n :: 0 <= n <= stop ==> !(HasGraphicsFamily(families, n) && HasPresentFamily(families, n)))
              && (forall j :: g < j <= stop ==> !IsGraphicsFamily(families[j]))
              && (forall j :: p < j <= stop ==> !IsPresentFamily(families[j]))
  {
    var graphics: Option<nat> := None;
    var present: Option<nat> := None;
    var i := 0;
    while i < |families|
      invariant 0 <= i <= |families|
      invariant graphics.None? <==> !HasGraphicsFamily(families, i)
      invariant present.None? <==> !HasPresentFamily(families, i)
      invariant graphics.Some? ==> graphics.value < i && IsGraphicsFamily(families[graphics.value])
      invariant graphics.Some? ==> forall j :: graphics.value < j < i ==> !IsGraphicsFamily(families[j])
      invariant present.Some? ==> present.value < i && IsPresentFamily(families[present.value])
      invariant present.Some? ==> forall j :: present.value < j < i ==> !IsPresentFamily(families[j])
      invariant forall n :: 0 <= n <= i ==> !(HasGraphicsFamily(families, n) && HasPresentFamily(families, n))
    {
      if families[i].queueCount > 0 && families[i].graphics {
        graphics := Some(i);
      }
      if families[i].queueCount > 0 && families[i].surfaceSupport {
        present := Some(i);
      }
      if graphics.Some? && present.Some? {
        indices := QueueIndices(graphics, present);
        assert i == (if graphics.value < present.value then present.value else graphics.value);
        return;
      }
      i := i + 1;
    }
    indices := QueueIndices(None, None);
  }

  /** The features of getFeatures the engine needs. */
  datatype DeviceFeatures = DeviceFeatures(
    samplerAnisotropy: bool,
    sampleRateShading: bool,
    shaderSampledImageArrayDynamicIndexing: bool)

  /** The descriptor indexing features of getFeatures2 the engine needs. */
  datatype IndexingFeatures = IndexingFeatures(
    descriptorBindingPartiallyBound: bool,
    runtimeDescriptorArray: bool)

  /** What the driver reports about one physical device and the engine's surface. */
  datatype PhysicalDeviceInfo = PhysicalDeviceInfo(
    queueFamilies: seq<QueueFamily>,
    features: DeviceFeatures,
    indexingFeatures: IndexingFeatures,
    extensions: seq<string>,
    surfaceFormats: seq<SurfaceFormat>,
    presentModes: seq<PresentMode>,
    colorSampleCounts: SampleCountFlags,
    depthSampleCounts: SampleCountFlags)

  /** m_enabledExtensions: the swapchain extension. */
  const ENABLED_EXTENSIONS: seq<string> := ["VK_KHR_swapchain"]

  /** m_enabledLayerNames: the Khronos validation layer. */
  const ENABLED_LAYER_NAMES: seq<string> := ["VK_LAYER_KHRONOS_validation"]

  /**
   * CheckExtensionSupport: start from the set of required names, erase every
   * name the device offers, and succeed when nothing is left.
   */
  method CheckExtensionSupport(required: seq<string>, offered: seq<string>) returns (supported: bool)
    ensures supported <==> forall r :: r in required ==> r in offered
  {
    var remaining := set r | r in required;
    var i := 0;
    while i < |offered|
      invariant 0 <= i <= |offered|
      invariant remaining == (set r | r in required) - (set o | o in offered[..i])
    {
      remaining := remaining - {offered[i]};
      assert offered[..i + 1] == offered[..i] + [offered[i]];
      i := i + 1;
    }
    assert offered[..i] == offered;
    supported := |remaining| == 0;
    if supported {
      forall r | r in required
        ensures r in offered
      {
        assert r in (set x | x in required);
        assert r !in remaining;
      }
    } else {
      var r :| r in remaining;
      assert r in required && r !in offered;
    }
  }

  /**
   * CheckLayerSupport: true as soon as one requested layer is among the
   * available ones.
   */
  method CheckLayerSupport(requested: seq<string>, available: seq<string>) returns (supported: bool)
    ensures supported <==> exists i :: 0 <= i < |requested| && requested[i] in available
  {
    var i := 0;
    while i < |requested|
      invariant 0 <= i <= |requested|
      invariant forall k :: 0 <= k < i ==> requested[k] !in available
    {
      var j := 0;
      while j < |available|
        invariant 0 <= j <= |available|
        invariant forall l :: 0 <= l < j ==> available[l] != requested[i]
      {
        if available[j] == requested[i] {
          return true;
        }
        j := j + 1;
      }
      i := i + 1;
    }
    return false;
  }

  /**
   * CheckLayerSupport asks whether ANY requested layer is available; with
   * the engine's single requested layer that is the same as asking whether
   * all of them are.
   */
  lemma {:induction false} LayerCheckAnyIsAll(available: seq<string>)
    ensures (exists i :: 0 <= i < |ENABLED_LAYER_NAMES| && ENABLED_LAYER_NAMES[i] in available)
            <==> (forall i :: 0 <= i < |ENABLED_LAYER_NAMES| ==> ENABLED_LAYER_NAMES[i] in available)
  {
    var layers := ENABLED_LAYER_NAMES;
    assert |layers| == 1;
    if layers[0] in available {
      forall i | 0 <= i < |layers|
        ensures layers[i] in available
      {
        assert i == 0;
      }
    } else {
      forall i | 0 <= i < |layers|
        ensures layers[i] !in available
      {
        assert i == 0;
      }
    }
  }

  /** What IsDeviceSuitable promises: all the conditions the engine relies on later. */
  predicate Suitable(device: PhysicalDeviceInfo) {
    && HasGraphicsFamily(device.queueFamilies, |device.queueFamilies|)
    && HasPresentFamily(device.queueFamilies, |device.queueFamilies|)
    && device.features.samplerAnisotropy
    && device.features.sampleRateShading
    && device.features.shaderSampledImageArrayDynamicIndexing
    && (forall e :: e in ENABLED_EXTENSIONS ==> e in device.extensions)
    && |device.surfaceFormats| > 0
    && |device.presentModes| > 0
    && device.indexingFeatures.descriptorBindingPartiallyBound
    && device.indexingFeatures.runtimeDescriptorArray
  }

  /** IsDeviceSuitable: complete queue families, the features, the extensions, and a usable swapchain. */
  method IsDeviceSuitable(device: PhysicalDeviceInfo) returns (suitable: bool)
    ensures suitable <==> Suitable(device)
  {
    var queueIndices := GetQueueIndices(device.queueFamilies);
    if !queueIndices.IsCompleted() {
      return false;
    }
    var featureSupports := device.features.samplerAnisotropy && device.features.sampleRateShading
                           && device.features.shaderSampledImageArrayDynamicIndexing;
    var isSwapchainAdequate := |device.surfaceFormats| > 0 && |device.presentModes| > 0;
    var extensionsSupported := CheckExtensionSupport(ENABLED_EXTENSIONS, device.extensions);
    suitable := featureSupports && extensionsSupported && isSwapchainAdequate
                && device.indexingFeatures.descriptorBindingPartiallyBound
                && device.indexingFeatures.runtimeDescriptorArray;
  }

  /** The physical device GetPhysicalDevice settles on, and the MSAA sample count it records. */
  datatype SelectedDevice = SelectedDevice(index: nat, msaaSampleCount: bv32)

  /**
   * GetPhysicalDevice: the first suitable device in enumeration order, with
   * the sample count GetMsaaSampleCounts picks for it as written (std::min
   * of the two masks); None when no device is suitable (the engine then
   * keeps a null physical device).
   */
  method GetPhysicalDevice(devices: seq<PhysicalDeviceInfo>) returns (selected: Option<SelectedDevice>)
    ensures selected.None? <==> forall j :: 0 <= j < |devices| ==> !Suitable(devices[j])
    ensures selected.Some? ==>
              && selected.value.index < |devices|
              && Suitable(devices[selected.value.index])
              && (forall j :: 0 <= j < selected.value.index ==> !Suitable(devices[j]))
              && selected.value.msaaSampleCount
                 == GetMsaaSampleCountsAsWritten(devices[selected.value.index].colorSampleCounts,
                                                 devices[selected.value.index].depthSampleCounts)
  {
    var i := 0;
    while i < |devices|
      invariant 0 <= i <= |devices|
      invariant forall j :: 0 <= j < i ==> !Suitable(devices[j])
    {
      var suitable := IsDeviceSuitable(devices[i]);
      if suitable {
        return Some(SelectedDevice(i, GetMsaaSampleCountsAsWritten(devices[i].colorSampleCounts, devices[i].depthSampleCounts)));
      }
      i := i + 1;
    }
    return None;
  }

  /** VkDeviceQueueCreateInfo: one queue of the family, at priority 1.0. */
  datatype DeviceQueueCreateInfo = DeviceQueueCreateInfo(queueFamilyIndex: nat, queueCount: nat, priority: real)

  /** The families a list of queue create infos names. */
  function CreatedFamilies(infos: seq<DeviceQueueCreateInfo>): set<nat> {
    set k | 0 <= k < |infos| :: infos[k].queueFamilyIndex
  }

  lemma CreatedFamiliesAppend(infos: seq<DeviceQueueCreateInfo>, info: DeviceQueueCreateInfo)
    ensures CreatedFamilies(infos + [info]) == CreatedFamilies(infos) + {info.queueFamilyIndex}
  {
    var extended := infos + [info];
    assert forall k :: 0 <= k < |infos| ==> extended[k] == infos[k];
    assert extended[|infos|] == info;
  }

  /**
   * The queue create infos of CreateLogicalDevice: one per distinct family
   * among the graphics and the present family.  The families are read with
   * optional::value(), which throws when either is missing.  The order in
   * which an unordered_set yields its elements is unspecified, so it is a
   * nondeterministic choice here.
   */
  method QueueCreateInfos(indices: QueueIndices) returns (result: Result<seq<DeviceQueueCreateInfo>, string>)
    ensures result.Failure? <==> !indices.IsCompleted()
    ensures result.Success? ==>
              var infos := result.value;
              && CreatedFamilies(infos)
                 == {indices.graphicsQueue.value, indices.presentQueue.value}
              && (forall k, l :: 0 <= k < l < |infos| ==> infos[k].queueFamilyIndex != infos[l].queueFamilyIndex)
              && (forall k :: 0 <= k < |infos| ==> infos[k].queueCount == 1 && infos[k].priority == 1.0)
  {
    if !indices.IsCompleted() {
      return Failure("bad optional access");
    }
    var uniqueIndices := {indices.graphicsQueue.value, indices.presentQueue.value};
    var remaining := uniqueIndices;
    var infos: seq<DeviceQueueCreateInfo> := [];
    while remaining != {}
      invariant remaining <= uniqueIndices
      invariant CreatedFamilies(infos) == uniqueIndices - remaining
      invariant forall k, l :: 0 <= k < l < |infos| ==> infos[k].queueFamilyIndex != infos[l].queueFamilyIndex
      invariant forall k :: 0 <= k < |infos| ==> infos[k].queueCount == 1 && infos[k].priority == 1.0
      decreases remaining
    {
      var index :| index in remaining;
      CreatedFamiliesAppend(infos, DeviceQueueCreateInfo(index, 1, 1.0));
      infos := infos + [DeviceQueueCreateInfo(index, 1, 1.0)];
      remaining := remaining - {index};
    }
    return Success(infos);
  }

  /** A device queue lookup: vkGetDeviceQueue(device, queueFamilyIndex, queueIndex). */
  datatype QueueLookup = QueueLookup(queueFamilyIndex: nat, queueIndex: nat)

  /** A lookup is valid when the device was created with more than queueIndex queues of that family. */
  predicate ValidQueueLookup(lookup: QueueLookup, infos: seq<DeviceQueueCreateInfo>) {
    exists k :: 0 <= k < |infos| && infos[k].queueFamilyIndex == lookup.queueFamilyIndex
                && lookup.queueIndex < infos[k].queueCount
  }

  /**
   * The graphics and present queue lookups as written: getQueue(0, index)
   * passes 0 as the FAMILY and the family index as the queue index.
   */
  function DeviceQueueLookupsAsWritten(graphics: nat, present: nat): (lookups: seq<QueueLookup>)
    ensures |lookups| == 2
    ensures forall k :: 0 <= k < 2 ==> lookups[k].queueFamilyIndex == 0
    ensures lookups[0].queueIndex == graphics && lookups[1].queueIndex == present
  {
    [QueueLookup(0, graphics), QueueLookup(0, present)]
  }

  /**
   * With graphics on family 0 and presentation on family 1, the code as
   * written asks for queue 1 of family 0, but the device was created with
   * one queue of family 0.
   */
  lemma DeviceQueueLookupsAsWrittenInvalid(infos: seq<DeviceQueueCreateInfo>)
    requires CreatedFamilies(infos) == {0, 1}
    requires forall k :: 0 <= k < |infos| ==> infos[k].queueCount == 1
    ensures !ValidQueueLookup(DeviceQueueLookupsAsWritten(0, 1)[1], infos)
  {
  }

  /** The queue lookups as intended: queue 0 of the graphics family and queue 0 of the present family. */
  function DeviceQueueLookups(graphics: nat, present: nat): (lookups: seq<QueueLookup>)
    ensures |lookups| == 2
    ensures lookups[0].queueFamilyIndex == graphics && lookups[1].queueFamilyIndex == present
    ensures forall k :: 0 <= k < 2 ==> lookups[k].queueIndex == 0
  {
    [QueueLookup(graphics, 0), QueueLookup(present, 0)]
  }

  /** Every corrected lookup names a queue the logical device was created with. */
  lemma {:induction false} DeviceQueueLookupsValid(indices: QueueIndices, infos: seq<DeviceQueueCreateInfo>)
    requires indices.IsCompleted()
    requires CreatedFamilies(infos)
             == {indices.graphicsQueue.value, indices.presentQueue.value}
    requires forall k :: 0 <= k < |infos| ==> infos[k].queueCount == 1
    ensures forall l :: l in DeviceQueueLookups(indices.graphicsQueue.value, indices.presentQueue.value)
              ==> ValidQueueLookup(l, infos)
  {
    var g, p := indices.graphicsQueue.value, indices.presentQueue.value;
    assert g in CreatedFamilies(infos);
    var kg :| 0 <= kg < |infos| && infos[kg].queueFamilyIndex == g;
    assert p in CreatedFamilies(infos);
    var kp :| 0 <= kp < |infos| && infos[kp].queueFamilyIndex == p;
    assert ValidQueueLookup(QueueLookup(g, 0), infos);
    assert ValidQueueLookup(QueueLookup(p, 0), infos);
  }
}
