/**
 * The Vulkan graphics engine's bookkeeping (GLVK/VK/GraphicsEngineVK.cpp):
 * loading textures and models into the resource registry and into the
 * engine's own lists, uploading mesh geometry into fresh GPU buffers, the
 * dynamic uniform buffer that holds one world matrix per model, and the
 * per-frame submission loop with its fences.
 *
 * Model::Load, ProcessNode and ProcessMesh (Structures/Model.h) are here as
 * well, because ProcessMesh loads its textures through the engine.
 */
module GraphicsEngineVK {
  import opened Wrappers
  import opened Vulkan
  import opened Geometry
  import opened UtilsCommon
  import opened MappableVK
  import opened UtilsVK
  import opened BufferVK
  import opened DynamicBuffer
  import opened ResourceRegistry
  import opened ModelImport

  /** A texture image, known by the file it was decoded from. */
  datatype Texture = Texture(fileName: string)

  /** What the engine registers: textures (under random names) and models (under their file names). */
  datatype Resource = TextureResource(texture: Texture) | ModelResource(model: Model<Texture, Handle>)

  /** The textures loaded from a list of files, in order. */
  function TexturesOf(files: seq<string>): (textures: seq<Texture>)
    ensures |textures| == |files|
    ensures forall i :: 0 <= i < |files| ==> textures[i] == Texture(files[i])
  {
    if files == [] then [] else TexturesOf(files[..|files| - 1]) + [Texture(files[|files| - 1])]
  }

  /**
   * The mesh was built from mesh `meshIndex` of the scene: its vertices,
   * its concatenated face indices, its material's textures loaded from the
   * model file's directory (one index per texture), and slot 0.  Its
   * placement is the given one, or the default one when the mesh vector
   * has since relocated it.
   */
  predicate MeshFrom(mesh: Mesh<Texture, Handle>, scene: AiScene, meshIndex: nat, fileName: string, placement: Placement) {
    && meshIndex < |scene.meshes|
    && var source := scene.meshes[meshIndex];
       && WellFormedMesh(source) && source.materialIndex < |scene.materials|
       && |mesh.vertices| == |source.vertices|
       && (forall i :: 0 <= i < |mesh.vertices| ==> mesh.vertices[i] == MeshVertex(source, i))
       && mesh.indices == FaceIndexList(source.faces)
       && mesh.textures == TexturesOf(TextureFileNames(scene.materials[source.materialIndex], DirectoryOf(fileName)))
       && |mesh.textureIndices| == |mesh.textures|
       && (mesh.placement == placement || mesh.placement == DEFAULT_PLACEMENT) && mesh.modelIndex == 0
  }

  /**
   * What later emplace_back calls leave of the meshes a vector held: the
   * vector is at least as long, and each of those meshes is where it was,
   * either untouched or relocated by Mesh's move constructor.
   */
  predicate KeptOrRelocated(before: seq<Mesh<Texture, Handle>>, after: seq<Mesh<Texture, Handle>>) {
    && |before| <= |after|
    && forall i :: 0 <= i < |before| ==> after[i] == before[i] || after[i] == MoveMesh(before[i]).0
  }

  /** Relocating a relocated mesh changes nothing more, so two rounds of growth are one. */
  lemma KeptOrRelocatedTransitive(a: seq<Mesh<Texture, Handle>>, b: seq<Mesh<Texture, Handle>>, c: seq<Mesh<Texture, Handle>>)
    requires KeptOrRelocated(a, b) && KeptOrRelocated(b, c)
    ensures KeptOrRelocated(a, c)
  {
    forall i | 0 <= i < |a|
      ensures c[i] == a[i] || c[i] == MoveMesh(a[i]).0
    {
      assert b[i] == a[i] || b[i] == MoveMesh(a[i]).0;
      assert c[i] == b[i] || c[i] == MoveMesh(b[i]).0;
      assert MoveMesh(MoveMesh(a[i]).0).0 == MoveMesh(a[i]).0;
    }
  }

  /**
   * emplace_back of a mesh followed by giving it a placement: the meshes
   * already there are kept or relocated, and the new last mesh is the
   * emplaced one with that placement.
   */
  lemma EmplacedThenPlaced(before: seq<Mesh<Texture, Handle>>, capacity: nat, mesh: Mesh<Texture, Handle>, placement: Placement)
    ensures var grown := EmplaceBack(before, capacity, mesh);
            var placed := grown[|before| := grown[|before|].(placement := placement)];
            && KeptOrRelocated(before, placed) && |placed| == |before| + 1
            && placed[|before|] == mesh.(placement := placement)
            && (|before| < capacity ==> placed[..|before|] == before)
            && (|before| >= capacity ==> forall i :: 0 <= i < |before| ==>
                  placed[i] == before[i].(placement := DEFAULT_PLACEMENT, modelIndex := 0))
  {
    var grown := EmplaceBack(before, capacity, mesh);
    var placed := grown[|before| := grown[|before|].(placement := placement)];
    assert placed[..|before|] == grown[..|before|];
    forall i | 0 <= i < |before|
      ensures placed[i] == before[i] || placed[i] == MoveMesh(before[i]).0
    {
      assert placed[i] == grown[i];
    }
  }

  /** A mesh built from a scene mesh is still built from it once relocated. */
  lemma RelocatedMeshLoaded(mesh: Mesh<Texture, Handle>, scene: AiScene, meshIndex: nat, fileName: string,
                            placement: Placement, textures: seq<Texture>)
    requires LoadedMesh(mesh, scene, meshIndex, fileName, placement, textures)
    ensures LoadedMesh(MoveMesh(mesh).0, scene, meshIndex, fileName, placement, textures)
  {
    var moved := MoveMesh(mesh).0;
    assert moved.vertices == mesh.vertices && moved.indices == mesh.indices;
    assert moved.textures == mesh.textures && moved.textureIndices == mesh.textureIndices;
  }

  /** Meshes loaded from a scene are still loaded from it after the vector relocated any of them. */
  lemma LoadedInOrderRelocated(before: seq<Mesh<Texture, Handle>>, after: seq<Mesh<Texture, Handle>>, start: nat,
                               order: seq<nat>, scene: AiScene, fileName: string, placement: Placement,
                               textures: seq<Texture>)
    requires KeptOrRelocated(before, after) && start <= |before|
    requires LoadedInOrder(before[start..], order, scene, fileName, placement, textures)
    ensures LoadedInOrder(after[start..|before|], order, scene, fileName, placement, textures)
  {
    forall k | 0 <= k < |order|
      ensures LoadedMesh(after[start..|before|][k], scene, order[k], fileName, placement, textures)
    {
      var mesh := before[start + k];
      assert LoadedMesh(before[start..][k], scene, order[k], fileName, placement, textures);
      assert after[start..|before|][k] == after[start + k];
      if after[start + k] != mesh {
        RelocatedMeshLoaded(mesh, scene, order[k], fileName, placement, textures);
      }
    }
  }

  /** Each texture index of the mesh names the engine's entry for that very texture. */
  predicate TexturesRegistered(mesh: Mesh<Texture, Handle>, textures: seq<Texture>) {
    && |mesh.textureIndices| == |mesh.textures|
    && forall j :: 0 <= j < |mesh.textureIndices| ==>
         mesh.textureIndices[j] < |textures| && textures[mesh.textureIndices[j]] == mesh.textures[j]
  }

  /** The mesh was built from scene mesh `meshIndex` (placed, or relocated to the default placement), and its textures are registered. */
  predicate LoadedMesh(mesh: Mesh<Texture, Handle>, scene: AiScene, meshIndex: nat, fileName: string,
                       placement: Placement, textures: seq<Texture>)
  {
    MeshFrom(mesh, scene, meshIndex, fileName, placement) && TexturesRegistered(mesh, textures)
  }

  /** The meshes were built, in order, from the scene meshes `order` names, and their textures are registered. */
  predicate LoadedInOrder(meshes: seq<Mesh<Texture, Handle>>, order: seq<nat>, scene: AiScene, fileName: string,
                          placement: Placement, textures: seq<Texture>)
  {
    && |meshes| == |order|
    && forall k {:trigger LoadedMesh(meshes[k], scene, order[k], fileName, placement, textures)} :: 0 <= k < |order| ==>
         LoadedMesh(meshes[k], scene, order[k], fileName, placement, textures)
  }

  /** Loading more textures keeps every earlier texture index valid. */
  lemma LoadedInOrderAfterMoreTextures(meshes: seq<Mesh<Texture, Handle>>, order: seq<nat>, scene: AiScene,
                                       fileName: string, placement: Placement, textures: seq<Texture>, grown: seq<Texture>)
    requires textures <= grown
    requires LoadedInOrder(meshes, order, scene, fileName, placement, textures)
    ensures LoadedInOrder(meshes, order, scene, fileName, placement, grown)
  {
    forall k | 0 <= k < |order|
      ensures LoadedMesh(meshes[k], scene, order[k], fileName, placement, grown)
    {
      var mesh := meshes[k];
      assert LoadedMesh(mesh, scene, order[k], fileName, placement, textures);
      forall j | 0 <= j < |mesh.textureIndices|
        ensures mesh.textureIndices[j] < |grown| && grown[mesh.textureIndices[j]] == mesh.textures[j]
      {
        assert textures[mesh.textureIndices[j]] == mesh.textures[j];
      }
    }
  }

  /** Meshes loaded for one order followed by meshes loaded for another were loaded for the concatenated order. */
  lemma LoadedInOrderAppend(first: seq<Mesh<Texture, Handle>>, firstOrder: seq<nat>,
                            second: seq<Mesh<Texture, Handle>>, secondOrder: seq<nat>,
                            scene: AiScene, fileName: string, placement: Placement, textures: seq<Texture>)
    requires LoadedInOrder(first, firstOrder, scene, fileName, placement, textures)
    requires LoadedInOrder(second, secondOrder, scene, fileName, placement, textures)
    ensures LoadedInOrder(first + second, firstOrder + secondOrder, scene, fileName, placement, textures)
  {
    var meshes, order := first + second, firstOrder + secondOrder;
    forall k | 0 <= k < |order|
      ensures LoadedMesh(meshes[k], scene, order[k], fileName, placement, textures)
    {
      if k < |first| {
        assert meshes[k] == first[k] && order[k] == firstOrder[k];
        assert LoadedMesh(first[k], scene, firstOrder[k], fileName, placement, textures);
      } else {
        var j := k - |first|;
        assert meshes[k] == second[j] && order[k] == secondOrder[j];
        assert LoadedMesh(second[j], scene, secondOrder[j], fileName, placement, textures);
      }
    }
  }

  /** Textures loaded for a material's diffuse names and then its specular names are the material's textures. */
  lemma LoadedTexturesOfMaterial(material: AiMaterial, directory: string, diffuse: seq<Texture>, specular: seq<Texture>)
    requires |diffuse| == |material.diffuse| && |specular| == |material.specular|
    requires forall i :: 0 <= i < |diffuse| ==> diffuse[i] == Texture(directory + material.diffuse[i])
    requires forall i :: 0 <= i < |specular| ==> specular[i] == Texture(directory + material.specular[i])
    ensures diffuse + specular == TexturesOf(TextureFileNames(material, directory))
  {
    var files := TextureFileNames(material, directory);
    var loaded := diffuse + specular;
    var expected := TexturesOf(files);
    assert |loaded| == |expected|;
    forall i | 0 <= i < |loaded|
      ensures loaded[i] == expected[i]
    {
      if i < |diffuse| {
        assert loaded[i] == diffuse[i] && files[i] == directory + material.diffuse[i];
      } else {
        var k := i - |diffuse|;
        assert loaded[i] == specular[k] && files[|material.diffuse| + k] == directory + material.specular[k];
      }
    }
  }

  /** Indices handed out consecutively after `before`, for two batches of textures, name those very textures. */
  lemma LoadedTexturesRegistered(before: seq<Texture>, first: seq<Texture>, firstIndices: seq<nat>,
                                 second: seq<Texture>, secondIndices: seq<nat>)
    requires |firstIndices| == |first| && forall i :: 0 <= i < |first| ==> firstIndices[i] == |before| + i
    requires |secondIndices| == |second| && forall i :: 0 <= i < |second| ==> secondIndices[i] == |before + first| + i
    ensures before + first + second == before + (first + second)
    ensures forall j :: 0 <= j < |first + second| ==>
              (firstIndices + secondIndices)[j] < |before + first + second|
              && (before + first + second)[(firstIndices + secondIndices)[j]] == (first + second)[j]
  {
    var all := before + first + second;
    forall j | 0 <= j < |first + second|
      ensures (firstIndices + secondIndices)[j] < |all| && all[(firstIndices + secondIndices)[j]] == (first + second)[j]
    {
      if j < |first| {
        assert (firstIndices + secondIndices)[j] == |before| + j;
      } else {
        assert (firstIndices + secondIndices)[j] == |before| + j;
      }
    }
  }

  /** A processed mesh, moved and given the model's placement, is still the mesh built from the scene mesh. */
  lemma MovedMeshPlaced(mesh: Mesh<Texture, Handle>, scene: AiScene, meshIndex: nat, fileName: string,
                        placement: Placement, textures: seq<Texture>)
    requires MeshFrom(mesh, scene, meshIndex, fileName, DEFAULT_PLACEMENT) && TexturesRegistered(mesh, textures)
    ensures var placed := MoveMesh(mesh).0.(placement := placement);
            MeshFrom(placed, scene, meshIndex, fileName, placement) && TexturesRegistered(placed, textures)
  {
    var placed := MoveMesh(mesh).0.(placement := placement);
    assert placed.vertices == mesh.vertices && placed.indices == mesh.indices;
    assert placed.textures == mesh.textures && placed.textureIndices == mesh.textureIndices;
  }

  /** One mesh appended for scene mesh `meshIndex` extends what was loaded before by that index. */
  lemma MeshAppended(before: seq<Mesh<Texture, Handle>>, after: seq<Mesh<Texture, Handle>>, start: nat,
                     order: seq<nat>, meshIndex: nat, scene: AiScene, fileName: string, placement: Placement,
                     textures: seq<Texture>, grown: seq<Texture>)
    requires textures <= grown
    requires KeptOrRelocated(before, after) && |after| == |before| + 1 && start <= |before|
    requires LoadedInOrder(before[start..], order, scene, fileName, placement, textures)
    requires MeshFrom(after[|before|], scene, meshIndex, fileName, placement) && TexturesRegistered(after[|before|], grown)
    ensures LoadedInOrder(after[start..], order + [meshIndex], scene, fileName, placement, grown)
  {
    LoadedInOrderAfterMoreTextures(before[start..], order, scene, fileName, placement, textures, grown);
    LoadedInOrderRelocated(before, after, start, order, scene, fileName, placement, grown);
    assert after[start..] == after[start..|before|] + [after[|before|]];
    assert LoadedMesh([after[|before|]][0], scene, [meshIndex][0], fileName, placement, grown);
    LoadedInOrderAppend(after[start..|before|], order, [after[|before|]], [meshIndex], scene, fileName, placement, grown);
  }

  /** The meshes a child's subtree appends extend what was loaded before by that subtree's order. */
  lemma ChildAppended(before: seq<Mesh<Texture, Handle>>, after: seq<Mesh<Texture, Handle>>, start: nat,
                      order: seq<nat>, childOrder: seq<nat>, scene: AiScene, fileName: string, placement: Placement,
                      textures: seq<Texture>, grown: seq<Texture>)
    requires textures <= grown && KeptOrRelocated(before, after) && start <= |before|
    requires LoadedInOrder(before[start..], order, scene, fileName, placement, textures)
    requires LoadedInOrder(after[|before|..], childOrder, scene, fileName, placement, grown)
    ensures LoadedInOrder(after[start..], order + childOrder, scene, fileName, placement, grown)
  {
    LoadedInOrderAfterMoreTextures(before[start..], order, scene, fileName, placement, textures, grown);
    LoadedInOrderRelocated(before, after, start, order, scene, fileName, placement, grown);
    assert after[start..] == after[start..|before|] + after[|before|..];
    LoadedInOrderAppend(after[start..|before|], order, after[|before|..], childOrder, scene, fileName, placement, grown);
  }

  /** The order after c + 1 children is the order after c children followed by child c's subtree. */
  lemma ChildrenOrderStep(node: AiNode, c: nat)
    requires c < |node.children|
    ensures node.meshes + ChildrenOrder(node.children[..c]) + MeshOrder(node.children[c])
         == node.meshes + ChildrenOrder(node.children[..c + 1])
  {
    var prefix := node.children[..c + 1];
    assert prefix[..|prefix| - 1] == node.children[..c];
    assert ChildrenOrder(prefix) == ChildrenOrder(node.children[..c]) + MeshOrder(node.children[c]);
  }

  /** The memory flags of a staging buffer. */
  const HOST_COHERENT_VISIBLE: set<MemoryProperty> := {HostCoherent, HostVisible}

  /** Buffer::AllocateMemory on the buffer: allocate memory of a qualifying type for its requirements and bind it. */
  function AllocationCalls(device: Device, buffer: Handle, memory: Handle, wanted: set<MemoryProperty>): (calls: seq<DeviceCall>)
    ensures |calls| == 2
  {
    var requirements := device.bufferRequirements(buffer);
    [ DeviceCall.AllocateMemory(memory, MemoryAllocateInfo(requirements.size,
        MemoryTypeIndex(device.memoryProperties, requirements.memoryTypeBits, wanted))),
      BindBufferMemory(buffer, memory, 0) ]
  }

  /**
   * The calls of staging `size` bytes when the driver's next handle is n:
   * the new staging buffer n, the previous one's teardown, memory n + 1
   * bound to it, mapped and unmapped.
   */
  function StagingCalls(device: Device, n: Handle, size: nat, teardown: seq<DeviceCall>): (calls: seq<DeviceCall>)
    ensures |calls| == |teardown| + 5
  {
    [CreateBuffer(n, Buffer.CreateInfo({TransferSrc}, size))] + teardown
      + AllocationCalls(device, n, n + 1, HOST_COHERENT_VISIBLE) + [MapMemory(n + 1, 0, size), UnmapMemory(n + 1)]
  }

  /** Appending four batches of calls to a log one after another appends their concatenation. */
  lemma AppendedInTurn(log: seq<DeviceCall>, a: seq<DeviceCall>, b: seq<DeviceCall>, c: seq<DeviceCall>, d: seq<DeviceCall>)
    ensures log + a + b + c + d == log + (a + b + c + d)
  {
    assert log + a + b == log + (a + b);
    assert log + (a + b) + c == log + (a + b + c);
  }

  /** sizeof(uint32_t). */
  const INDEX_SIZE: nat := 4

  /** Mesh i of LoadModel's buffer loop, given buffers when the driver's next handle was `first` at the loop's start. */
  function WithBuffers(mesh: Mesh<Texture, Handle>, first: nat, i: nat): (withBuffers: Mesh<Texture, Handle>)
    ensures withBuffers.vertexBuffer == Some(first + 10 * i + 2) && withBuffers.indexBuffer == Some(first + 10 * i + 7)
  {
    mesh.(vertexBuffer := Some(first + 10 * i + 2), indexBuffer := Some(first + 10 * i + 7))
  }

  /** The meshes hold the same vertices, indices, textures and texture indices, one for one. */
  predicate SameGeometry(meshes: seq<Mesh<Texture, Handle>>, source: seq<Mesh<Texture, Handle>>) {
    && |meshes| == |source|
    && forall i :: 0 <= i < |meshes| ==>
         && meshes[i].vertices == source[i].vertices && meshes[i].indices == source[i].indices
         && meshes[i].textures == source[i].textures && meshes[i].textureIndices == source[i].textureIndices
  }

  /** Giving every mesh buffers changes neither its geometry nor its placement. */
  lemma BuffersKeepGeometry(meshes: seq<Mesh<Texture, Handle>>, withBuffers: seq<Mesh<Texture, Handle>>, first: nat)
    requires |withBuffers| == |meshes|
    requires forall i :: 0 <= i < |meshes| ==> withBuffers[i] == WithBuffers(meshes[i], first, i)
    ensures SameGeometry(withBuffers, meshes)
    ensures forall i :: 0 <= i < |meshes| ==> withBuffers[i].placement == meshes[i].placement
  {
    forall i | 0 <= i < |meshes|
      ensures withBuffers[i].vertices == meshes[i].vertices && withBuffers[i].indices == meshes[i].indices
      ensures withBuffers[i].textures == meshes[i].textures && withBuffers[i].textureIndices == meshes[i].textureIndices
      ensures withBuffers[i].placement == meshes[i].placement
    {
      assert withBuffers[i] == WithBuffers(meshes[i], first, i);
    }
  }

  /** Giving every mesh buffers keeps it what it was loaded from. */
  lemma BuffersKeepLoaded(meshes: seq<Mesh<Texture, Handle>>, withBuffers: seq<Mesh<Texture, Handle>>, first: nat,
                          order: seq<nat>, scene: AiScene, fileName: string, placement: Placement, textures: seq<Texture>)
    requires |withBuffers| == |meshes|
    requires forall i :: 0 <= i < |meshes| ==> withBuffers[i] == WithBuffers(meshes[i], first, i)
    requires LoadedInOrder(meshes, order, scene, fileName, placement, textures)
    ensures LoadedInOrder(withBuffers, order, scene, fileName, placement, textures)
  {
    forall k | 0 <= k < |order|
      ensures LoadedMesh(withBuffers[k], scene, order[k], fileName, placement, textures)
    {
      assert withBuffers[k] == WithBuffers(meshes[k], first, k);
      assert LoadedMesh(meshes[k], scene, order[k], fileName, placement, textures);
    }
  }

  /**
   * The buffers given from handle `first` on are handles the driver had not
   * handed out before, and no two meshes share one.
   */
  lemma BuffersFreshAndDistinct(meshes: seq<Mesh<Texture, Handle>>, withBuffers: seq<Mesh<Texture, Handle>>, first: nat)
    requires |withBuffers| == |meshes|
    requires forall i :: 0 <= i < |meshes| ==> withBuffers[i] == WithBuffers(meshes[i], first, i)
    ensures forall i :: 0 <= i < |meshes| ==>
              && withBuffers[i].vertexBuffer.Some? && first <= withBuffers[i].vertexBuffer.value < first + 10 * |meshes|
              && withBuffers[i].indexBuffer.Some? && first <= withBuffers[i].indexBuffer.value < first + 10 * |meshes|
    ensures forall i, j :: 0 <= i < |meshes| && 0 <= j < |meshes| ==>
              withBuffers[i].vertexBuffer != withBuffers[j].indexBuffer
              && (i != j ==> withBuffers[i].vertexBuffer != withBuffers[j].vertexBuffer
                             && withBuffers[i].indexBuffer != withBuffers[j].indexBuffer)
  {
  }

  /** Geometry shared with geometry shared with a source is shared with the source. */
  lemma SameGeometryTransitive(a: seq<Mesh<Texture, Handle>>, b: seq<Mesh<Texture, Handle>>, c: seq<Mesh<Texture, Handle>>)
    requires SameGeometry(a, b) && SameGeometry(b, c)
    ensures SameGeometry(a, c)
  {
  }

  /** A call of the per-frame loop, on the queues and the swapchain. */
  datatype FrameCall =
    | AcquireNextImage(swapchain: Handle, semaphore: Handle)
    | ResetFence(fence: Handle)
    | Submit(queue: Handle, submitInfo: SubmitInfo, fence: Handle)
    | Present(queue: Handle, swapchain: Handle, waitSemaphore: Handle, imageIndex: nat)
    | WaitForFence(fence: Handle)

  /**
   * Fences are used safely: every submission is signalled on a fence that
   * was reset just before it and that is waited on before anything else
   * touches that fence (only the present lies in between).
   */
  predicate FenceDiscipline(log: seq<FrameCall>) {
    forall p :: 0 <= p < |log| && log[p].Submit? ==>
      && 1 <= p && p + 2 < |log|
      && log[p - 1] == ResetFence(log[p].fence)
      && log[p + 1].Present?
      && log[p + 2] == WaitForFence(log[p].fence)
  }

  /**
   * Render's calls for one frame: acquire an image signalling the slot's
   * acquired semaphore, reset the slot's fence, submit the slot's command
   * buffer waiting on that semaphore and signalling the completed semaphore
   * and the fence, present the acquired image once rendering completed,
   * then wait on the fence.
   */
  function FrameCalls(swapchain: Handle, graphicsQueue: Handle, presentQueue: Handle, acquiredSemaphore: Handle,
                      commandBuffer: Handle, completedSemaphore: Handle, fence: Handle, image: nat): (calls: seq<FrameCall>)
    ensures |calls| == 5 && FenceDiscipline(calls)
    ensures calls[0] == AcquireNextImage(swapchain, acquiredSemaphore) && calls[2].Submit? && calls[3].Present?
    ensures calls[2].submitInfo.waitSemaphores == [calls[0].semaphore]
    ensures calls[2].submitInfo.commandBuffers == [commandBuffer] && calls[2].fence == fence
    ensures calls[3].waitSemaphore in calls[2].submitInfo.signalSemaphores && calls[3].imageIndex == image
  {
    [ AcquireNextImage(swapchain, acquiredSemaphore),
      ResetFence(fence),
      Submit(graphicsQueue, SubmitInfo([acquiredSemaphore], [commandBuffer], [completedSemaphore]), fence),
      Present(presentQueue, swapchain, completedSemaphore, image),
      WaitForFence(fence) ]
  }

  /** Two logs that each use their fences safely still do so one after the other. */
  lemma FenceDisciplineAppend(first: seq<FrameCall>, second: seq<FrameCall>)
    requires FenceDiscipline(first) && FenceDiscipline(second)
    ensures FenceDiscipline(first + second)
  {
    var log := first + second;
    forall p | 0 <= p < |log| && log[p].Submit?
      ensures 1 <= p && p + 2 < |log| && log[p - 1] == ResetFence(log[p].fence)
              && log[p + 1].Present? && log[p + 2] == WaitForFence(log[p].fence)
    {
      if p < |first| {
        assert log[p] == first[p] && log[p - 1] == first[p - 1];
        assert log[p + 1] == first[p + 1] && log[p + 2] == first[p + 2];
      } else {
        var q := p - |first|;
        assert log[p] == second[q] && second[q].Submit?;
        assert log[p - 1] == second[q - 1];
        assert log[p + 1] == second[q + 1] && log[p + 2] == second[q + 2];
      }
    }
  }

  class GraphicsEngine {
    const device: Device
    /** m_resourceManager. */
    const registry: ResourceManager<Resource>
    const commandPool: Handle
    const graphicsQueue: Handle
    const presentQueue: Handle
    const swapchain: Handle
    /** One of each per swapchain image: m_commandBuffers, m_framebuffers, the two semaphore lists and m_fences. */
    const imageCount: nat
    const commandBuffers: seq<Handle>
    const framebuffers: seq<Handle>
    const imageAcquiredSemaphores: seq<Handle>
    const renderCompletedSemaphores: seq<Handle>
    const fences: seq<Handle>
    /** The size stbi_load's decoded RGBA image of each file has: width * height * 4 bytes. */
    const imageBytes: string -> nat

    /** m_intermediateBuffer: the staging buffer of the latest upload. */
    var intermediateBuffer: Buffer?
    /** m_textures. */
    var textures: seq<Texture>
    /** m_models, with the dynamic buffer's ModelIndices and Models (world matrices as bytes). */
    var models: seq<Model<Texture, Handle>>
    var modelIndices: seq<nat>
    var worldMatrices: seq<MatrixBytes>
    /** DynamicAlignment and the host copy of the dynamic uniform buffer. */
    var stride: nat
    var hostBuffer: array<Byte>
    /** The framebuffer each command buffer was last recorded against. */
    var recordedTargets: seq<Handle>
    /** m_currentImageIndex: the frame slot choosing command buffer, semaphores and fence. */
    var currentImageIndex: nat
    /** The calls of the frame loop, in order. */
    var frameLog: seq<FrameCall>

    predicate Valid()
      reads this, intermediateBuffer
    {
      && StagingOwned()
      && |modelIndices| == |models| && |worldMatrices| == |models|
      && (forall i :: 0 <= i < |modelIndices| ==> modelIndices[i] == i)
      && imageCount > 0
      && |commandBuffers| == imageCount && |framebuffers| == imageCount
      && |imageAcquiredSemaphores| == imageCount && |renderCompletedSemaphores| == imageCount
      && |fences| == imageCount && |recordedTargets| == imageCount
      && currentImageIndex < imageCount
      && FenceDiscipline(frameLog)
    }

    /** Nothing of the model slots, the dynamic buffer or the frame loop changed. */
    twostate predicate SlotsUnchanged()
      reads this
    {
      && models == old(models) && modelIndices == old(modelIndices) && worldMatrices == old(worldMatrices)
      && stride == old(stride) && hostBuffer == old(hostBuffer) && recordedTargets == old(recordedTargets)
      && currentImageIndex == old(currentImageIndex) && frameLog == old(frameLog)
    }

    /**
     * The state once the device, queues, swapchain and per-image objects
     * exist (the initialisation code creating them is not modelled): no
     * textures, no models, frame slot 0.
     */
    constructor (device: Device, registry: ResourceManager<Resource>, commandPool: Handle,
                 graphicsQueue: Handle, presentQueue: Handle, swapchain: Handle,
                 commandBuffers: seq<Handle>, framebuffers: seq<Handle>, imageAcquiredSemaphores: seq<Handle>,
                 renderCompletedSemaphores: seq<Handle>, fences: seq<Handle>, imageBytes: string -> nat)
      requires |commandBuffers| > 0 && |framebuffers| == |commandBuffers|
      requires |imageAcquiredSemaphores| == |commandBuffers| && |renderCompletedSemaphores| == |commandBuffers|
      requires |fences| == |commandBuffers|
      ensures Valid()
      ensures this.device == device && this.registry == registry && imageCount == |commandBuffers|
      ensures this.commandBuffers == commandBuffers && this.framebuffers == framebuffers && this.fences == fences
      ensures this.imageAcquiredSemaphores == imageAcquiredSemaphores
      ensures this.renderCompletedSemaphores == renderCompletedSemaphores
      ensures this.commandPool == commandPool && this.graphicsQueue == graphicsQueue
      ensures this.presentQueue == presentQueue && this.swapchain == swapchain
      ensures intermediateBuffer == null && textures == [] && models == []
      ensures stride == MAT4_SIZE && hostBuffer.Length == 0
      ensures |recordedTargets| == imageCount && forall i :: 0 <= i < imageCount ==> recordedTargets[i] == NULL_HANDLE
      ensures currentImageIndex == 0 && frameLog == []
    {
      this.device := device;
      this.registry := registry;
      this.commandPool := commandPool;
      this.graphicsQueue := graphicsQueue;
      this.presentQueue := presentQueue;
      this.swapchain := swapchain;
      imageCount := |commandBuffers|;
      this.commandBuffers := commandBuffers;
      this.framebuffers := framebuffers;
      this.imageAcquiredSemaphores := imageAcquiredSemaphores;
      this.renderCompletedSemaphores := renderCompletedSemaphores;
      this.fences := fences;
      this.imageBytes := imageBytes;
      intermediateBuffer := null;
      textures := [];
      models := [];
      modelIndices := [];
      worldMatrices := [];
      stride := MAT4_SIZE;
      hostBuffer := new Byte[0];
      recordedTargets := seq(|commandBuffers|, _ => NULL_HANDLE);
      currentImageIndex := 0;
      frameLog := [];
    }

    // ------------------------------------------------------------ textures

    /** The staging buffer, when there is one, lives on the engine's device. */
    predicate StagingOwned()
      reads this, intermediateBuffer
    {
      intermediateBuffer != null ==> intermediateBuffer.device == device
    }

    /** What destroying the current staging buffer issues: nothing when there is none. */
    function StagingTeardown(): (calls: seq<DeviceCall>)
      reads this, intermediateBuffer
      ensures intermediateBuffer == null ==> calls == []
    {
      if intermediateBuffer == null then [] else intermediateBuffer.TeardownCalls()
    }

    /**
     * The staging half of an upload (LoadTexture, CreateVertexBuffer,
     * CreateIndexBuffer): create a transfer-source buffer of the size,
     * let it replace the previous staging buffer, which is destroyed, give
     * it host-visible coherent memory, and map and unmap that memory for
     * the copy.
     */
    method Stage(size: nat) returns (memory: LiveHandle)
      requires StagingOwned()
      modifies this, device, intermediateBuffer
      ensures fresh(intermediateBuffer) && StagingOwned() && intermediateBuffer != null
      ensures intermediateBuffer.buffer == old(device.nextHandle) && !intermediateBuffer.disposed
      ensures memory == intermediateBuffer.deviceMemory && memory == old(device.nextHandle) + 1
      ensures device.nextHandle == old(device.nextHandle) + 2
      ensures device.log == old(device.log) + StagingCalls(device, old(device.nextHandle), size, old(StagingTeardown()))
      ensures textures == old(textures) && SlotsUnchanged()
    {
      ghost var n, teardown := device.nextHandle, StagingTeardown();
      var staging := new Buffer(device, {TransferSrc}, size);
      ghost var created := device.log;
      if intermediateBuffer != null {
        intermediateBuffer.Destroy();
      }
      assert device.log == created + teardown && device.nextHandle == n + 1;
      intermediateBuffer := staging;
      ghost var staged := device.log;
      memory := staging.AllocateMemory(HOST_COHERENT_VISIBLE);
      assert device.log == staged + AllocationCalls(device, n, n + 1, HOST_COHERENT_VISIBLE);
      device.Issue(MapMemory(memory, 0, size));
      device.Issue(UnmapMemory(memory));
    }

    /**
     * LoadTexture: the decoded image is staged, then registered under a
     * random name and appended to m_textures; the index returned is its
     * position there, the number of textures loaded before.
     */
    method LoadTexture(fileName: string) returns (texture: Texture, index: nat)
      requires StagingOwned()
      modifies this, registry, device, intermediateBuffer
      ensures texture == Texture(fileName)
      ensures index == |old(textures)| && textures == old(textures) + [texture] && textures[index] == texture
      ensures |registry.resources| == |old(registry.resources)| + 1 && old(registry.resources) <= registry.resources
      ensures registry.resources[|old(registry.resources)|].resource == TextureResource(texture)
      ensures registry.disposed == old(registry.disposed)
      ensures fresh(intermediateBuffer) && StagingOwned()
      ensures device.nextHandle == old(device.nextHandle) + 2
      ensures device.log == old(device.log)
                + StagingCalls(device, old(device.nextHandle), imageBytes(fileName), old(StagingTeardown()))
      ensures SlotsUnchanged()
    {
      var memory := Stage(imageBytes(fileName));
      texture := Texture(fileName);
      var stored := registry.AddUnnamedResource(TextureResource(texture));
      index := |textures|;
      textures := textures + [texture];
    }

    /** One texture loop of ProcessMesh: load directory + name for each name, keeping textures and their indices. */
    method LoadMaterialTextures(directory: string, names: seq<string>) returns (loaded: seq<Texture>, indices: seq<nat>)
      requires StagingOwned()
      modifies this, registry, device, intermediateBuffer
      ensures |loaded| == |names| && forall i :: 0 <= i < |names| ==> loaded[i] == Texture(directory + names[i])
      ensures textures == old(textures) + loaded
      ensures |indices| == |names| && forall i :: 0 <= i < |names| ==> indices[i] == |old(textures)| + i
      ensures old(registry.resources) <= registry.resources
      ensures registry.disposed == old(registry.disposed)
      ensures StagingOwned() && SlotsUnchanged()
      ensures intermediateBuffer == old(intermediateBuffer) || fresh(intermediateBuffer)
      ensures old(device.nextHandle) <= device.nextHandle
    {
      loaded, indices := [], [];
      var i := 0;
      while i < |names|
        invariant 0 <= i <= |names|
        invariant |loaded| == i && forall j :: 0 <= j < i ==> loaded[j] == Texture(directory + names[j])
        invariant textures == old(textures) + loaded
        invariant |indices| == i && forall j :: 0 <= j < i ==> indices[j] == |old(textures)| + j
        invariant old(registry.resources) <= registry.resources
        invariant registry.disposed == old(registry.disposed)
        invariant StagingOwned() && SlotsUnchanged()
        invariant intermediateBuffer == old(intermediateBuffer) || fresh(intermediateBuffer)
        invariant old(device.nextHandle) <= device.nextHandle
      {
        var texture, index := LoadTexture(directory + names[i]);
        loaded := loaded + [texture];
        indices := indices + [index];
        i := i + 1;
      }
    }

    // ---------------------------------------------------- model import

    /**
     * ProcessMesh: the mesh's vertices and face indices, then its
     * material's diffuse and specular textures loaded from the model
     * file's directory.  The material index is unsigned, so the material
     * branch is always taken.
     */
    method ProcessMesh(scene: AiScene, meshIndex: nat, fileName: string) returns (mesh: Mesh<Texture, Handle>)
      requires WellFormedScene(scene) && meshIndex < |scene.meshes| && StagingOwned()
      modifies this, registry, device, intermediateBuffer
      ensures MeshFrom(mesh, scene, meshIndex, fileName, DEFAULT_PLACEMENT)
      ensures mesh.vertexBuffer.None? && mesh.indexBuffer.None? && mesh.placement == DEFAULT_PLACEMENT
      ensures textures == old(textures) + mesh.textures
      ensures TexturesRegistered(mesh, textures)
      ensures old(registry.resources) <= registry.resources
      ensures registry.disposed == old(registry.disposed)
      ensures StagingOwned() && SlotsUnchanged()
      ensures intermediateBuffer == old(intermediateBuffer) || fresh(intermediateBuffer)
      ensures old(device.nextHandle) <= device.nextHandle
    {
      var source := scene.meshes[meshIndex];
      var vertices := ProcessVertices(source);
      var indices := ProcessFaces(source.faces);
      var material := scene.materials[source.materialIndex];
      var directory := DirectoryOf(fileName);
      var diffuse, diffuseIndices := LoadMaterialTextures(directory, material.diffuse);
      var specular, specularIndices := LoadMaterialTextures(directory, material.specular);
      mesh := DefaultMesh().(vertices := vertices, indices := indices,
                             textures := diffuse + specular, textureIndices := diffuseIndices + specularIndices);
      LoadedTexturesOfMaterial(material, directory, diffuse, specular);
      LoadedTexturesRegistered(old(textures), diffuse, diffuseIndices, specular, specularIndices);
      assert textures == old(textures) + diffuse + specular;
    }

    /**
     * What importing may change: textures and registry entries are only
     * added, and nothing is disposed.  Of the model only the mesh vector
     * changes: it grows, the meshes it held stay in place (relocated or
     * not), and when it grew, its last mesh carries the model's placement.
     */
    twostate predicate ImportStep(model: Model<Texture, Handle>)
      reads this, registry, model, intermediateBuffer, device
    {
      && old(textures) <= textures && old(device.nextHandle) <= device.nextHandle
      && old(registry.resources) <= registry.resources && registry.disposed == old(registry.disposed)
      && StagingOwned() && (intermediateBuffer == old(intermediateBuffer) || fresh(intermediateBuffer))
      && SlotsUnchanged()
      && model.Valid() && KeptOrRelocated(old(model.meshes), model.meshes)
      && (|model.meshes| == |old(model.meshes)| ==> model.meshes == old(model.meshes))
      && (|model.meshes| > |old(model.meshes)| ==> model.meshes[|model.meshes| - 1].placement == model.placement)
      && model.placement == old(model.placement) && model.modelIndex == old(model.modelIndex)
      && model.name == old(model.name) && model.userData == old(model.userData) && model.disposed == old(model.disposed)
    }

    /**
     * One iteration of ProcessNode's mesh loop: the processed mesh is
     * emplaced into the model's vector (moved, so with the default
     * placement) and then takes the model's placement, extending what the
     * loop has loaded since `start` for the scene meshes `order`.  When the
     * vector was full, the meshes already there were relocated and lost
     * their placement.
     */
    method AppendMesh(scene: AiScene, meshIndex: nat, model: Model<Texture, Handle>, fileName: string,
                      ghost start: nat, ghost order: seq<nat>)
      requires WellFormedScene(scene) && meshIndex < |scene.meshes| && StagingOwned() && model.Valid()
      requires start <= |model.meshes|
      requires LoadedInOrder(model.meshes[start..], order, scene, fileName, model.placement, textures)
      modifies this, registry, model, device, intermediateBuffer
      ensures ImportStep(model)
      ensures |model.meshes| == |old(model.meshes)| + 1
      ensures model.meshes[|old(model.meshes)|].placement == model.placement
      ensures |old(model.meshes)| < old(model.meshCapacity) ==> model.meshes[..|old(model.meshes)|] == old(model.meshes)
      ensures |old(model.meshes)| == old(model.meshCapacity) ==> forall i :: 0 <= i < |old(model.meshes)| ==>
                model.meshes[i] == old(model.meshes)[i].(placement := DEFAULT_PLACEMENT, modelIndex := 0)
      ensures LoadedInOrder(model.meshes[start..], order + [meshIndex], scene, fileName, model.placement, textures)
    {
      var mesh := ProcessMesh(scene, meshIndex, fileName);
      var (moved, _) := MoveMesh(mesh);
      MovedMeshPlaced(mesh, scene, meshIndex, fileName, model.placement, textures);
      ghost var before := model.meshes;
      EmplacedThenPlaced(before, model.meshCapacity, moved, model.placement);
      model.EmplaceMesh(moved);
      model.PlaceLast();
      assert model.meshes == EmplaceBack(before, old(model.meshCapacity), moved)[|before| := moved.(placement := model.placement)];
      MeshAppended(before, model.meshes, start, order, meshIndex, scene, fileName, model.placement, old(textures), textures);
    }

    /** ProcessNode's mesh loop: the listed scene meshes, in order, appended to the model. */
    method AppendMeshes(scene: AiScene, meshIndices: seq<nat>, model: Model<Texture, Handle>, fileName: string)
      requires WellFormedScene(scene) && forall i :: 0 <= i < |meshIndices| ==> meshIndices[i] < |scene.meshes|
      requires StagingOwned() && model.Valid()
      modifies this, registry, model, device, intermediateBuffer
      ensures ImportStep(model)
      ensures |model.meshes| == |old(model.meshes)| + |meshIndices|
      ensures LoadedInOrder(model.meshes[|old(model.meshes)|..], meshIndices, scene, fileName, model.placement, textures)
    {
      ghost var start := |model.meshes|;
      var i := 0;
      assert model.meshes[start..] == [];
      while i < |meshIndices|
        invariant 0 <= i <= |meshIndices|
        invariant ImportStep(model) && |model.meshes| == start + i
        invariant LoadedInOrder(model.meshes[start..], meshIndices[..i], scene, fileName, model.placement, textures)
      {
        ghost var meshesBefore := model.meshes;
        AppendMesh(scene, meshIndices[i], model, fileName, start, meshIndices[..i]);
        KeptOrRelocatedTransitive(old(model.meshes), meshesBefore, model.meshes);
        assert meshIndices[..i] + [meshIndices[i]] == meshIndices[..i + 1];
        i := i + 1;
      }
      assert meshIndices[..i] == meshIndices;
    }

    /**
     * ProcessNode: the node's meshes in mMeshes order, each moved into the
     * model and given the model's placement (which a later relocation of the
     * vector takes away again), then every child in order.
     */
    method ProcessNode(scene: AiScene, node: AiNode, model: Model<Texture, Handle>, fileName: string)
      requires WellFormedScene(scene) && NodeInScene(node, |scene.meshes|) && StagingOwned() && model.Valid()
      modifies this, registry, model, device, intermediateBuffer
      ensures ImportStep(model)
      ensures LoadedInOrder(model.meshes[|old(model.meshes)|..], MeshOrder(node), scene, fileName, model.placement, textures)
      decreases node
    {
      ghost var start := |model.meshes|;
      AppendMeshes(scene, node.meshes, model, fileName);
      var c := 0;
      while c < |node.children|
        invariant 0 <= c <= |node.children|
        invariant ImportStep(model) && |old(model.meshes)| == start
        invariant LoadedInOrder(model.meshes[start..], node.meshes + ChildrenOrder(node.children[..c]),
                                scene, fileName, model.placement, textures)
      {
        ghost var texturesBefore, meshesBefore := textures, model.meshes;
        ghost var order := node.meshes + ChildrenOrder(node.children[..c]);
        ProcessNode(scene, node.children[c], model, fileName);
        KeptOrRelocatedTransitive(old(model.meshes), meshesBefore, model.meshes);
        ChildAppended(meshesBefore, model.meshes, start, order, MeshOrder(node.children[c]),
                      scene, fileName, model.placement, texturesBefore, textures);
        ChildrenOrderStep(node, c);
        c := c + 1;
      }
      assert node.children[..c] == node.children;
    }

    /**
     * Model::Load: take the placement (rotation converted to radians), then
     * throw the importer's error when there is no scene, the scene is
     * incomplete or it has no root node; otherwise flatten the tree.
     */
    method LoadInto(model: Model<Texture, Handle>, fileName: string, scene: Option<AiScene>, importerError: string,
                    position: Vector3, scale: Vector3, rotation: Vector3, color: Vector4) returns (outcome: Outcome)
      requires (scene.Some? ==> WellFormedScene(scene.value)) && StagingOwned() && model.Valid()
      modifies this, registry, model, device, intermediateBuffer
      ensures model.placement == PlacementOf(position, scale, rotation, color)
      ensures outcome.Throw? <==> scene.None? || scene.value.incomplete || scene.value.root.None?
      ensures outcome.Throw? ==> outcome.message == importerError && model.meshes == old(model.meshes)
                                 && textures == old(textures) && registry.resources == old(registry.resources)
      ensures model.Valid() && KeptOrRelocated(old(model.meshes), model.meshes) && old(textures) <= textures
      ensures outcome.Pass? ==>
                LoadedInOrder(model.meshes[|old(model.meshes)|..], MeshOrder(scene.value.root.value),
                                 scene.value, fileName, model.placement, textures)
      ensures |model.meshes| > |old(model.meshes)| ==> model.meshes[|model.meshes| - 1].placement == model.placement
      ensures model.modelIndex == old(model.modelIndex) && model.name == old(model.name)
      ensures model.userData == old(model.userData) && model.disposed == old(model.disposed)
      ensures old(registry.resources) <= registry.resources
      ensures registry.disposed == old(registry.disposed)
      ensures StagingOwned() && (intermediateBuffer == old(intermediateBuffer) || fresh(intermediateBuffer))
      ensures SlotsUnchanged() && old(device.nextHandle) <= device.nextHandle
    {
      model.placement := PlacementOf(position, scale, rotation, color);
      if scene.None? || scene.value.incomplete || scene.value.root.None? {
        return Throw(importerError);
      }
      ProcessNode(scene.value, scene.value.root.value, model, fileName);
      outcome := Pass;
    }

    // ------------------------------------------------------- GPU buffers

    /**
     * The calls of uploading `size` bytes into a new buffer of the usage
     * when the driver's next handle is n: staging buffer n (memory n + 1),
     * target buffer n + 2 (device-local memory n + 3), and a one-shot
     * command buffer n + 4 that copies all bytes from the staging buffer
     * into the target.
     */
    function UploadCalls(n: Handle, size: nat, usage: BufferUsage, teardown: seq<DeviceCall>): (calls: seq<DeviceCall>)
      ensures |calls| == |teardown| + 15
    {
      StagingCalls(device, n, size, teardown)
        + [CreateBuffer(n + 2, Buffer.CreateInfo({TransferDst, usage}, size))]
        + AllocationCalls(device, n + 2, n + 3, {DeviceLocal})
        + SingleTimeCommands(commandPool, graphicsQueue, n + 4, [CmdCopyBuffer(n + 4, n, n + 2, Buffer.BufferCopyRegion(size))])
    }

    /** The device log gained exactly the calls of uploading `size` bytes into a new buffer of the usage. */
    twostate predicate UploadLogged(size: nat, usage: BufferUsage)
      reads this, device, intermediateBuffer
    {
      device.log == old(device.log) + UploadCalls(old(device.nextHandle), size, usage, old(StagingTeardown()))
    }

    /**
     * The body shared by CreateVertexBuffer and CreateIndexBuffer: stage
     * the bytes, create a device-local target buffer of the same size and
     * copy the staging buffer into it.  The staging buffer stays in
     * m_intermediateBuffer.
     */
    method UploadBuffer(size: nat, usage: BufferUsage) returns (buffer: LiveHandle)
      requires StagingOwned()
      modifies this, device, intermediateBuffer
      ensures buffer == old(device.nextHandle) + 2 && device.nextHandle == old(device.nextHandle) + 5
      ensures device.log == old(device.log) + UploadCalls(old(device.nextHandle), size, usage, old(StagingTeardown()))
      ensures fresh(intermediateBuffer) && StagingOwned() && intermediateBuffer.buffer == old(device.nextHandle)
      ensures textures == old(textures) && SlotsUnchanged()
    {
      ghost var n := device.nextHandle;
      var memory := Stage(size);
      ghost var staged := device.log;
      var target := new Buffer(device, {TransferDst, usage}, size);
      var targetMemory := target.AllocateMemory({DeviceLocal});
      assert device.log == staged + [CreateBuffer(n + 2, Buffer.CreateInfo({TransferDst, usage}, size))]
                           + AllocationCalls(device, n + 2, n + 3, {DeviceLocal});
      target.CopyBufferToBuffer(intermediateBuffer.buffer, size, commandPool, graphicsQueue);
      buffer := target.buffer;
      AppendedInTurn(old(device.log), StagingCalls(device, n, size, old(StagingTeardown())),
                     [CreateBuffer(n + 2, Buffer.CreateInfo({TransferDst, usage}, size))],
                     AllocationCalls(device, n + 2, n + 3, {DeviceLocal}),
                     SingleTimeCommands(commandPool, graphicsQueue, n + 4, [CmdCopyBuffer(n + 4, n, n + 2, Buffer.BufferCopyRegion(size))]));
    }

    /** CreateVertexBuffer: sizeof(Vertex) bytes per vertex, into a vertex buffer. */
    method CreateVertexBuffer(vertices: seq<Vertex>) returns (buffer: LiveHandle)
      requires StagingOwned()
      modifies this, device, intermediateBuffer
      ensures buffer == old(device.nextHandle) + 2 && device.nextHandle == old(device.nextHandle) + 5
      ensures UploadLogged(VERTEX_SIZE * |vertices|, VertexBuffer)
      ensures fresh(intermediateBuffer) && StagingOwned()
      ensures textures == old(textures) && SlotsUnchanged()
    {
      buffer := UploadBuffer(VERTEX_SIZE * |vertices|, VertexBuffer);
    }

    /** CreateIndexBuffer: sizeof(uint32_t) bytes per index, into an index buffer. */
    method CreateIndexBuffer(indices: seq<nat>) returns (buffer: LiveHandle)
      requires StagingOwned()
      modifies this, device, intermediateBuffer
      ensures buffer == old(device.nextHandle) + 2 && device.nextHandle == old(device.nextHandle) + 5
      ensures UploadLogged(INDEX_SIZE * |indices|, IndexBuffer)
      ensures fresh(intermediateBuffer) && StagingOwned()
      ensures textures == old(textures) && SlotsUnchanged()
    {
      buffer := UploadBuffer(INDEX_SIZE * |indices|, IndexBuffer);
    }

    /**
     * What giving a model's meshes their buffers may change besides the
     * meshes: the device and the staging buffer, and nothing else of the
     * model or of the engine's lists.
     */
    twostate predicate BufferStep(model: Model<Texture, Handle>)
      reads this, model, intermediateBuffer
    {
      && model.placement == old(model.placement) && model.modelIndex == old(model.modelIndex)
      && model.name == old(model.name) && model.userData == old(model.userData) && model.disposed == old(model.disposed)
      && model.meshCapacity == old(model.meshCapacity)
      && StagingOwned() && (intermediateBuffer == old(intermediateBuffer) || fresh(intermediateBuffer))
      && textures == old(textures) && SlotsUnchanged()
    }

    /**
     * One iteration of LoadModel's buffer loop: mesh i gets a new vertex
     * buffer and then a new index buffer, the i-th pair since handle `first`.
     */
    method AttachMeshBuffers(model: Model<Texture, Handle>, i: nat, ghost first: nat)
      requires StagingOwned() && i < |model.meshes| && device.nextHandle == first + 10 * i
      modifies this, device, intermediateBuffer, model
      ensures BufferStep(model)
      ensures model.meshes == old(model.meshes)[i := WithBuffers(old(model.meshes[i]), first, i)]
      ensures device.nextHandle == first + 10 * (i + 1)
    {
      AttachVertexBuffer(model, i, first);
      AttachIndexBuffer(model, i, first);
    }

    /** mesh.VertexBuffer = CreateVertexBuffer(mesh.Vertices) for mesh i. */
    method AttachVertexBuffer(model: Model<Texture, Handle>, i: nat, ghost first: nat)
      requires StagingOwned() && i < |model.meshes| && device.nextHandle == first + 10 * i
      modifies this, device, intermediateBuffer, model
      ensures BufferStep(model)
      ensures model.meshes == old(model.meshes)[i := old(model.meshes[i]).(vertexBuffer := Some(first + 10 * i + 2))]
      ensures device.nextHandle == first + 10 * i + 5
    {
      var vertexBuffer := CreateVertexBuffer(model.meshes[i].vertices);
      model.meshes := model.meshes[i := model.meshes[i].(vertexBuffer := Some(vertexBuffer))];
    }

    /** mesh.IndexBuffer = CreateIndexBuffer(mesh.Indices) for mesh i, after its vertex buffer. */
    method AttachIndexBuffer(model: Model<Texture, Handle>, i: nat, ghost first: nat)
      requires StagingOwned() && i < |model.meshes| && device.nextHandle == first + 10 * i + 5
      modifies this, device, intermediateBuffer, model
      ensures BufferStep(model)
      ensures model.meshes == old(model.meshes)[i := old(model.meshes[i]).(indexBuffer := Some(first + 10 * i + 7))]
      ensures device.nextHandle == first + 10 * (i + 1)
    {
      var indexBuffer := CreateIndexBuffer(model.meshes[i].indices);
      model.meshes := model.meshes[i := model.meshes[i].(indexBuffer := Some(indexBuffer))];
    }

    /**
     * LoadModel's buffer loop: every mesh of the model gets a vertex buffer
     * and an index buffer of its own, created in mesh order, vertex buffer
     * first; nothing else about the meshes changes.
     */
    method AttachBuffers(model: Model<Texture, Handle>)
      requires StagingOwned()
      modifies this, device, intermediateBuffer, model
      ensures BufferStep(model) && |model.meshes| == |old(model.meshes)|
      ensures forall i :: 0 <= i < |model.meshes| ==> model.meshes[i] == WithBuffers(old(model.meshes[i]), old(device.nextHandle), i)
      ensures device.nextHandle == old(device.nextHandle) + 10 * |model.meshes|
    {
      ghost var original, first := model.meshes, device.nextHandle;
      var i := 0;
      while i < |model.meshes|
        invariant 0 <= i <= |model.meshes| && |model.meshes| == |original|
        invariant forall j :: 0 <= j < i ==> model.meshes[j] == WithBuffers(original[j], first, j)
        invariant forall j :: i <= j < |model.meshes| ==> model.meshes[j] == original[j]
        invariant device.nextHandle == first + 10 * i
        invariant BufferStep(model)
      {
        AttachMeshBuffers(model, i, first);
        i := i + 1;
      }
    }

    // ------------------------------------------------------------ models

    /** The model a name finds in the registry, if the first entry with the name is a model. */
    function CachedModel(name: string): (cached: Option<Model<Texture, Handle>>)
      reads this, registry
      ensures cached.Some? <==> registry.GetResource(name).Some? && registry.GetResource(name).value.ModelResource?
      ensures cached.Some? ==> registry.GetResource(name) == Some(ModelResource(cached.value))
    {
      match registry.GetResource(name)
      case Some(ModelResource(model)) => Some(model)
      case _ => None
    }

    /**
     * LoadModel: a model already registered under the name lends its
     * meshes (copied, so without buffers); otherwise the file is imported.
     * The new model is registered under the name, every mesh gets fresh
     * vertex and index buffers, and the model takes the next dynamic-buffer
     * slot, whose index is returned.  An import failure propagates before
     * anything is registered.
     */
    method LoadModel(modelName: string, scene: Option<AiScene>, importerError: string, position: Vector3, scale: Vector3,
                     rotation: Vector3, color: Vector4, world: MatrixBytes)
      returns (model: Model<Texture, Handle>, index: nat, outcome: Outcome)
      requires Valid() && (scene.Some? ==> WellFormedScene(scene.value))
      modifies this, registry, device, intermediateBuffer
      ensures Valid() && fresh(model)
      ensures outcome.Throw? <==> old(CachedModel(modelName)).None?
                                  && (scene.None? || scene.value.incomplete || scene.value.root.None?)
      ensures outcome.Throw? ==> && models == old(models) && modelIndices == old(modelIndices)
                                 && worldMatrices == old(worldMatrices) && registry.resources == old(registry.resources)
                                 && textures == old(textures)
      ensures outcome.Pass? ==>
                && index == |old(models)|
                && models == old(models) + [model] && modelIndices == old(modelIndices) + [index]
                && worldMatrices == old(worldMatrices) + [world]
                && old(registry.resources) <= registry.resources && |registry.resources| > 0
                && registry.resources[|registry.resources| - 1] == Entry(modelName, ModelResource(model))
                && model.name == modelName && model.placement == PlacementOf(position, scale, rotation, color)
      ensures outcome.Pass? && old(CachedModel(modelName)).Some? ==>
                SameGeometry(model.meshes, old(CachedModel(modelName).value.meshes))
                && forall i :: 0 <= i < |model.meshes| ==> model.meshes[i].placement == DEFAULT_PLACEMENT
      ensures outcome.Pass? && old(CachedModel(modelName)).None? ==>
                && LoadedInOrder(model.meshes, MeshOrder(scene.value.root.value), scene.value, modelName, model.placement, textures)
                && (|model.meshes| > 0 ==> model.meshes[|model.meshes| - 1].placement == model.placement)
      ensures outcome.Pass? ==> forall i :: 0 <= i < |model.meshes| ==>
                && model.meshes[i].vertexBuffer.Some? && model.meshes[i].indexBuffer.Some?
                && old(device.nextHandle) <= model.meshes[i].vertexBuffer.value < device.nextHandle
                && old(device.nextHandle) <= model.meshes[i].indexBuffer.value < device.nextHandle
      ensures old(textures) <= textures && stride == old(stride) && hostBuffer == old(hostBuffer)
      ensures currentImageIndex == old(currentImageIndex) && frameLog == old(frameLog)
    {
      var cached := CachedModel(modelName);
      model := new Model();
      var cachedMeshes := if cached.Some? then Some(cached.value.meshes) else None;
      outcome := ImportMeshes(model, modelName, cachedMeshes, scene, importerError, position, scale, rotation, color);
      if outcome.Throw? {
        return model, 0, outcome;
      }
      ghost var imported, firstHandle := model.meshes, device.nextHandle;
      index := RegisterModel(model, modelName, world);
      BuffersFreshAndDistinct(imported, model.meshes, firstHandle);
      if cached.Some? {
        BuffersKeepGeometry(imported, model.meshes, firstHandle);
        SameGeometryTransitive(model.meshes, imported, cachedMeshes.value);
      } else {
        BuffersKeepLoaded(imported, model.meshes, firstHandle, MeshOrder(scene.value.root.value),
                          scene.value, modelName, model.placement, textures);
      }
    }

    /**
     * The two ways LoadModel fills the new model: the meshes of a model
     * registered under the name are copy-assigned (which leaves their buffers
     * and transforms behind) and the model takes the placement; otherwise
     * Model::Load imports the file, and its failure is the outcome.
     */
    method ImportMeshes(model: Model<Texture, Handle>, modelName: string, cachedMeshes: Option<seq<Mesh<Texture, Handle>>>,
                        scene: Option<AiScene>, importerError: string, position: Vector3, scale: Vector3,
                        rotation: Vector3, color: Vector4) returns (outcome: Outcome)
      requires (scene.Some? ==> WellFormedScene(scene.value)) && StagingOwned() && model.meshes == [] && model.Valid()
      modifies this, registry, model, device, intermediateBuffer
      ensures model.placement == PlacementOf(position, scale, rotation, color) && model.Valid()
      ensures outcome.Throw? <==> cachedMeshes.None? && (scene.None? || scene.value.incomplete || scene.value.root.None?)
      ensures outcome.Throw? ==> outcome.message == importerError && textures == old(textures)
                                 && registry.resources == old(registry.resources)
      ensures cachedMeshes.Some? ==>
                && SameGeometry(model.meshes, cachedMeshes.value)
                && (forall i :: 0 <= i < |model.meshes| ==> model.meshes[i].placement == DEFAULT_PLACEMENT)
                && textures == old(textures) && registry.resources == old(registry.resources)
      ensures outcome.Pass? && cachedMeshes.None? ==>
                LoadedInOrder(model.meshes, MeshOrder(scene.value.root.value), scene.value, modelName, model.placement, textures)
      ensures cachedMeshes.None? && |model.meshes| > 0 ==> model.meshes[|model.meshes| - 1].placement == model.placement
      ensures model.modelIndex == old(model.modelIndex) && model.name == old(model.name)
      ensures model.userData == old(model.userData) && model.disposed == old(model.disposed)
      ensures old(textures) <= textures && old(registry.resources) <= registry.resources
      ensures registry.disposed == old(registry.disposed)
      ensures StagingOwned() && (intermediateBuffer == old(intermediateBuffer) || fresh(intermediateBuffer))
      ensures SlotsUnchanged() && old(device.nextHandle) <= device.nextHandle
    {
      if cachedMeshes.Some? {
        model.placement := PlacementOf(position, scale, rotation, color);
        model.AssignMeshVector(cachedMeshes.value);
        AssignedMeshesHaveSourceContents([], cachedMeshes.value);
        assert SameGeometry(model.meshes, cachedMeshes.value);
        outcome := Pass;
      } else {
        outcome := LoadInto(model, modelName, scene, importerError, position, scale, rotation, color);
        assert model.meshes[0..] == model.meshes;
      }
    }

    /**
     * The tail of LoadModel once the meshes are there: register the model
     * under its name, give every mesh its buffers, and give the model the
     * next dynamic-buffer slot.
     */
    method RegisterModel(model: Model<Texture, Handle>, modelName: string, world: MatrixBytes) returns (index: nat)
      requires Valid()
      modifies this, registry, device, intermediateBuffer, model
      ensures Valid()
      ensures index == |old(models)| && models == old(models) + [model]
      ensures modelIndices == old(modelIndices) + [index] && worldMatrices == old(worldMatrices) + [world]
      ensures registry.resources == old(registry.resources) + [Entry(modelName, ModelResource(model))]
      ensures model.name == modelName && model.placement == old(model.placement)
      ensures |model.meshes| == |old(model.meshes)|
      ensures forall i :: 0 <= i < |model.meshes| ==> model.meshes[i] == WithBuffers(old(model.meshes[i]), old(device.nextHandle), i)
      ensures device.nextHandle == old(device.nextHandle) + 10 * |model.meshes|
      ensures textures == old(textures) && stride == old(stride) && hostBuffer == old(hostBuffer)
      ensures currentImageIndex == old(currentImageIndex) && frameLog == old(frameLog)
    {
      var stored := registry.AddResource(ModelResource(model), modelName);
      model.name := modelName;
      AttachBuffers(model);
      index := |modelIndices|;
      modelIndices := modelIndices + [index];
      models := models + [model];
      worldMatrices := worldMatrices + [world];
    }

    // ---------------------------------------------------- dynamic buffer

    /** The host copy of the dynamic buffer holds, in slot i, the world matrix of slot i's model. */
    predicate SlotsWritten()
      reads this, hostBuffer
    {
      && MAT4_SIZE <= stride && hostBuffer.Length == stride * |models|
      && |modelIndices| == |models| && |worldMatrices| == |models|
      && (forall i :: 0 <= i < |modelIndices| ==> modelIndices[i] < |models|)
      && forall i :: 0 <= i < |models| ==> SlotHolds(hostBuffer[..], stride, i, worldMatrices[modelIndices[i]])
    }

    /**
     * The dynamic-buffer half of CreateUniformBuffers: the stride from the
     * device's minimum uniform-buffer offset alignment (at most 256, a limit
     * Vulkan requires of every device), a host buffer of one stride per
     * model, and every model's world matrix written into its slot.
     */
    method CreateUniformBuffers(minAlign: Uint64)
      requires Valid() && minAlign <= 256
      modifies this
      ensures Valid() && SlotsWritten() && fresh(hostBuffer)
      ensures stride == Stride(minAlign) && hostBuffer.Length == stride * |models|
      ensures models == old(models) && modelIndices == old(modelIndices) && worldMatrices == old(worldMatrices)
      ensures textures == old(textures) && intermediateBuffer == old(intermediateBuffer)
      ensures recordedTargets == old(recordedTargets) && currentImageIndex == old(currentImageIndex)
      ensures frameLog == old(frameLog)
    {
      stride := Stride(minAlign);
      hostBuffer := new Byte[stride * |models|];
      WriteSlots(hostBuffer, stride, worldMatrices, modelIndices);
    }

    /**
     * Update's slot loop, with each model's new world matrix given (the
     * rotation it accumulates is floating point): slot i's matrix becomes
     * the model's world matrix and is written into slot i of the host
     * buffer; the padding between slots keeps its bytes.
     */
    method Update(worlds: seq<MatrixBytes>)
      requires Valid() && SlotsWritten() && |worlds| == |models|
      modifies this, hostBuffer
      ensures models == old(models) && modelIndices == old(modelIndices) && stride == old(stride) && hostBuffer == old(hostBuffer)
      ensures Valid() && SlotsWritten() && worldMatrices == worlds
      ensures forall i :: 0 <= i < |models| ==> SlotHolds(hostBuffer[..], stride, i, worlds[i])
      ensures forall b :: 0 <= b < hostBuffer.Length && !InSomeSlot(b, |models|, stride) ==> hostBuffer[b] == old(hostBuffer[b])
      ensures textures == old(textures) && intermediateBuffer == old(intermediateBuffer)
      ensures recordedTargets == old(recordedTargets) && currentImageIndex == old(currentImageIndex)
      ensures frameLog == old(frameLog)
    {
      var i := 0;
      while i < |models|
        invariant models == old(models) && modelIndices == old(modelIndices) && stride == old(stride)
        invariant hostBuffer == old(hostBuffer) && textures == old(textures) && intermediateBuffer == old(intermediateBuffer)
        invariant recordedTargets == old(recordedTargets) && currentImageIndex == old(currentImageIndex)
        invariant frameLog == old(frameLog)
        invariant 0 <= i <= |models| && |worldMatrices| == |models|
        invariant forall j :: 0 <= j < i ==> worldMatrices[j] == worlds[j]
        invariant forall j :: i <= j < |models| ==> worldMatrices[j] == old(worldMatrices[j])
        invariant forall j :: 0 <= j < i ==> SlotHolds(hostBuffer[..], stride, j, worlds[j])
        invariant forall b :: 0 <= b < hostBuffer.Length && !InSomeSlot(b, i, stride) ==> hostBuffer[b] == old(hostBuffer[b])
      {
        worldMatrices := worldMatrices[modelIndices[i] := worlds[i]];
        SlotInBuffer(i, |models|, stride);
        ghost var before := hostBuffer[..];
        WriteSlot(hostBuffer, stride, i, worldMatrices[modelIndices[i]]);
        assert SlotHolds(hostBuffer[..], stride, i, worlds[i]);
        forall j | 0 <= j < i
          ensures SlotHolds(hostBuffer[..], stride, j, worlds[j])
        {
          SlotsDisjoint(j, i, stride);
          assert SlotHolds(before, stride, j, worlds[j]);
          assert hostBuffer[SlotStart(j, stride)..SlotStart(j, stride) + MAT4_SIZE]
              == before[SlotStart(j, stride)..SlotStart(j, stride) + MAT4_SIZE];
        }
        forall b | 0 <= b < hostBuffer.Length && !InSomeSlot(b, i + 1, stride)
          ensures hostBuffer[b] == old(hostBuffer[b])
        {
          assert !(SlotStart(i, stride) <= b < SlotStart(i, stride) + MAT4_SIZE);
          assert !InSomeSlot(b, i, stride);
        }
        i := i + 1;
      }
    }

    // ------------------------------------------------------- frame loop

    /**
     * BeginDraw's loop: command buffer i is recorded against framebuffer i
     * for every i (the commands themselves are not modelled).
     */
    method BeginDraw()
      requires Valid()
      modifies this
      ensures Valid() && recordedTargets == framebuffers
      ensures models == old(models) && modelIndices == old(modelIndices) && worldMatrices == old(worldMatrices)
      ensures stride == old(stride) && hostBuffer == old(hostBuffer)
      ensures textures == old(textures) && intermediateBuffer == old(intermediateBuffer)
      ensures currentImageIndex == old(currentImageIndex) && frameLog == old(frameLog)
    {
      var i := 0;
      while i < |commandBuffers|
        invariant 0 <= i <= |commandBuffers| && |recordedTargets| == imageCount
        invariant forall j :: 0 <= j < i ==> recordedTargets[j] == framebuffers[j]
        invariant models == old(models) && modelIndices == old(modelIndices) && worldMatrices == old(worldMatrices)
        invariant stride == old(stride) && hostBuffer == old(hostBuffer)
        invariant textures == old(textures) && intermediateBuffer == old(intermediateBuffer)
        invariant currentImageIndex == old(currentImageIndex) && frameLog == old(frameLog)
      {
        recordedTargets := recordedTargets[i := framebuffers[i]];
        i := i + 1;
      }
    }

    /**
     * Render: the frame slot k = m_currentImageIndex picks the semaphores,
     * the command buffer and the fence; the image presented is the one the
     * swapchain handed out (`acquired`), a separate index.  The slot then
     * advances round-robin over the swapchain images.
     */
    method Render(acquired: nat)
      requires Valid()
      modifies this
      ensures Valid()
      ensures var k := old(currentImageIndex);
              frameLog == old(frameLog) + FrameCalls(swapchain, graphicsQueue, presentQueue, imageAcquiredSemaphores[k],
                                                     commandBuffers[k], renderCompletedSemaphores[k], fences[k], acquired)
      ensures currentImageIndex == (old(currentImageIndex) + 1) % imageCount
      ensures models == old(models) && modelIndices == old(modelIndices) && worldMatrices == old(worldMatrices)
      ensures stride == old(stride) && hostBuffer == old(hostBuffer) && recordedTargets == old(recordedTargets)
      ensures textures == old(textures) && intermediateBuffer == old(intermediateBuffer)
    {
      var k := currentImageIndex;
      var frame := FrameCalls(swapchain, graphicsQueue, presentQueue, imageAcquiredSemaphores[k],
                              commandBuffers[k], renderCompletedSemaphores[k], fences[k], acquired);
      FenceDisciplineAppend(frameLog, frame);
      frameLog := frameLog + frame;
      currentImageIndex := (currentImageIndex + 1) % imageCount;
    }
  }
}
