/**
 * Meshes and models (Structures/Model.h): the flattening of an imported
 * scene into a model's list of meshes, the deliberately partial copy and
 * move semantics of Mesh and Model, and the commands a model records to
 * draw itself.
 *
 * The imported scene is the tree Assimp hands back, as a datatype.  The
 * texture loading that ProcessMesh delegates to the graphics engine lives
 * with the engine (GraphicsEngine.ProcessMesh); what the scene alone
 * decides, the geometry and the texture file names, is here.
 */
module ModelImport {
  import opened Wrappers
  import opened Vulkan
  import opened Geometry
  import opened UtilsCommon
  import opened PipelineVK
  import opened DynamicBuffer

  /** aiFace: the vertex indices of one face. */
  datatype AiFace = AiFace(indices: seq<nat>)

  /** aiMesh: positions, normals (always generated), the first texture-coordinate set if any, faces, material. */
  datatype AiMesh = AiMesh(vertices: seq<Vector3>, normals: seq<Vector3>, textureCoords: Option<seq<Vector3>>,
                           faces: seq<AiFace>, materialIndex: nat)

  /** aiMaterial: the file names of its diffuse and specular textures, in order. */
  datatype AiMaterial = AiMaterial(diffuse: seq<string>, specular: seq<string>)

  /** aiNode: the meshes it holds, by index into the scene, and its children. */
  datatype AiNode = AiNode(meshes: seq<nat>, children: seq<AiNode>)

  /** aiScene: its meshes and materials, whether the import was incomplete, and its root node if any. */
  datatype AiScene = AiScene(meshes: seq<AiMesh>, materials: seq<AiMaterial>, incomplete: bool, root: Option<AiNode>)

  /** What Assimp guarantees of a mesh: one normal (and one texture coordinate, when present) per vertex. */
  predicate WellFormedMesh(mesh: AiMesh) {
    && |mesh.normals| == |mesh.vertices|
    && (mesh.textureCoords.Some? ==> |mesh.textureCoords.value| == |mesh.vertices|)
  }

  /** Every mesh index of the node and of its descendants names a mesh of the scene. */
  predicate NodeInScene(node: AiNode, meshCount: nat)
    decreases node
  {
    && (forall i :: 0 <= i < |node.meshes| ==> node.meshes[i] < meshCount)
    && (forall c :: 0 <= c < |node.children| ==> NodeInScene(node.children[c], meshCount))
  }

  /** What Assimp guarantees of a scene: well-formed meshes with existing materials, and nodes naming existing meshes. */
  predicate WellFormedScene(scene: AiScene) {
    && (forall m :: 0 <= m < |scene.meshes| ==>
          WellFormedMesh(scene.meshes[m]) && scene.meshes[m].materialIndex < |scene.materials|)
    && (scene.root.Some? ==> NodeInScene(scene.root.value, |scene.meshes|))
  }

  // ---------------------------------------------------------------- geometry

  /** Vertex i of the mesh: its position and normal, and the first texture-coordinate set's x and y or (0, 0) without one. */
  function MeshVertex(mesh: AiMesh, i: nat): (vertex: Vertex)
    requires WellFormedMesh(mesh) && i < |mesh.vertices|
    ensures vertex.position == mesh.vertices[i] && vertex.normal == mesh.normals[i]
    ensures mesh.textureCoords.None? ==> vertex.texCoord == ZERO2
    ensures mesh.textureCoords.Some? ==>
              vertex.texCoord == Vector2(mesh.textureCoords.value[i].x, mesh.textureCoords.value[i].y)
  {
    var texCoord := match mesh.textureCoords
      case Some(coords) => Vector2(coords[i].x, coords[i].y)
      case None => ZERO2;
    Vertex(mesh.vertices[i], mesh.normals[i], texCoord)
  }

  /** The vertex loop of ProcessMesh: one vertex per mNumVertices, in order. */
  method ProcessVertices(mesh: AiMesh) returns (vertices: seq<Vertex>)
    requires WellFormedMesh(mesh)
    ensures |vertices| == |mesh.vertices|
    ensures forall i :: 0 <= i < |vertices| ==> vertices[i] == MeshVertex(mesh, i)
  {
    vertices := [];
    var i := 0;
    while i < |mesh.vertices|
      invariant 0 <= i <= |mesh.vertices|
      invariant |vertices| == i
      invariant forall j :: 0 <= j < i ==> vertices[j] == MeshVertex(mesh, j)
    {
      vertices := vertices + [MeshVertex(mesh, i)];
      i := i + 1;
    }
  }

  /** The index lists of the faces, concatenated in face order. */
  function FaceIndexList(faces: seq<AiFace>): (indices: seq<nat>)
  {
    if faces == [] then []
    else FaceIndexList(faces[..|faces| - 1]) + faces[|faces| - 1].indices
  }

  /** The face loop of ProcessMesh: each face's indices appended in order. */
  method ProcessFaces(faces: seq<AiFace>) returns (indices: seq<nat>)
    ensures indices == FaceIndexList(faces)
  {
    indices := [];
    var i := 0;
    while i < |faces|
      invariant 0 <= i <= |faces|
      invariant indices == FaceIndexList(faces[..i])
    {
      var face := faces[i];
      var j := 0;
      while j < |face.indices|
        invariant 0 <= j <= |face.indices|
        invariant indices == FaceIndexList(faces[..i]) + face.indices[..j]
      {
        indices := indices + [face.indices[j]];
        j := j + 1;
      }
      assert faces[..i + 1][..i] == faces[..i];
      i := i + 1;
    }
    assert faces[..i] == faces;
  }

  /** Every face is a triangle, as the Triangulate import flag guarantees. */
  predicate Triangulated(faces: seq<AiFace>) {
    forall f :: 0 <= f < |faces| ==> |faces[f].indices| == 3
  }

  /** A triangulated mesh has three indices per face: index k is corner k % 3 of face k / 3. */
  lemma {:induction false} TriangulatedIndices(faces: seq<AiFace>)
    requires Triangulated(faces)
    ensures |FaceIndexList(faces)| == 3 * |faces|
    ensures forall k :: 0 <= k < |FaceIndexList(faces)| ==> FaceIndexList(faces)[k] == faces[k / 3].indices[k % 3]
  {
    if faces != [] {
      var init := faces[..|faces| - 1];
      TriangulatedIndices(init);
      var list := FaceIndexList(faces);
      forall k | 0 <= k < |list|
        ensures list[k] == faces[k / 3].indices[k % 3]
      {
        if k < 3 * |init| {
          assert list[k] == FaceIndexList(init)[k];
          assert init[k / 3] == faces[k / 3];
        }
      }
    }
  }

  /** Indices that name vertices of the mesh keep doing so after concatenation. */
  lemma {:induction false} FaceIndicesBounded(faces: seq<AiFace>, vertexCount: nat)
    requires forall f, c :: 0 <= f < |faces| && 0 <= c < |faces[f].indices| ==> faces[f].indices[c] < vertexCount
    ensures forall k :: 0 <= k < |FaceIndexList(faces)| ==> FaceIndexList(faces)[k] < vertexCount
  {
    if faces != [] {
      var init := faces[..|faces| - 1];
      assert forall f :: 0 <= f < |init| ==> init[f] == faces[f];
      FaceIndicesBounded(init, vertexCount);
    }
  }

  // ------------------------------------------------------- texture file names

  /** The position of the last '/' (string::find_last_of), None for npos. */
  function LastSlash(s: string): (index: Option<nat>)
    ensures index.None? <==> forall i :: 0 <= i < |s| ==> s[i] != '/'
    ensures index.Some? ==> index.value < |s| && s[index.value] == '/'
                            && forall j :: index.value < j < |s| ==> s[j] != '/'
  {
    if s == [] then None
    else if s[|s| - 1] == '/' then Some(|s| - 1)
    else LastSlash(s[..|s| - 1])
  }

  /** The directory textures are looked up in: fileName.substr(0, find_last_of('/')) + '/'. */
  function DirectoryOf(fileName: string): (directory: string)
    ensures |directory| >= 1 && directory[|directory| - 1] == '/'
  {
    match LastSlash(fileName)
    case Some(i) => fileName[..i] + "/"
    case None => fileName + "/"
  }

  /** A path d/name with no '/' in name has directory d/. */
  lemma DirectoryOfPath(directory: string, name: string)
    requires forall i :: 0 <= i < |name| ==> name[i] != '/'
    ensures DirectoryOf(directory + "/" + name) == directory + "/"
  {
    var path := directory + "/" + name;
    assert path[|directory|] == '/';
    assert forall j :: |directory| < j < |path| ==> path[j] == name[j - |directory| - 1];
    assert path[..|directory|] == directory;
  }

  /** Without any '/', substr(0, npos) keeps the whole name: the directory is the name itself plus '/'. */
  lemma DirectoryOfBareName(name: string)
    requires forall i :: 0 <= i < |name| ==> name[i] != '/'
    ensures DirectoryOf(name) == name + "/"
  {
  }

  /** directory + name for every name, in order. */
  function InDirectory(directory: string, names: seq<string>): (paths: seq<string>)
    ensures |paths| == |names|
    ensures forall i :: 0 <= i < |names| ==> paths[i] == directory + names[i]
  {
    if names == [] then [] else InDirectory(directory, names[..|names| - 1]) + [directory + names[|names| - 1]]
  }

  /** The files ProcessMesh loads textures from: every diffuse texture, then every specular one. */
  function TextureFileNames(material: AiMaterial, directory: string): (files: seq<string>)
    ensures |files| == |material.diffuse| + |material.specular|
    ensures forall i :: 0 <= i < |material.diffuse| ==> files[i] == directory + material.diffuse[i]
    ensures forall i :: 0 <= i < |material.specular| ==>
              files[|material.diffuse| + i] == directory + material.specular[i]
  {
    InDirectory(directory, material.diffuse) + InDirectory(directory, material.specular)
  }

  // -------------------------------------------------------------- node order

  /** The meshes ProcessNode appends for a node: its own in mMeshes order, then each child's subtree in order. */
  function MeshOrder(node: AiNode): (order: seq<nat>)
    decreases node, 1
  {
    node.meshes + ChildrenOrder(node.children)
  }

  function ChildrenOrder(children: seq<AiNode>): (order: seq<nat>)
    decreases children, 0
  {
    if children == [] then []
    else ChildrenOrder(children[..|children| - 1]) + MeshOrder(children[|children| - 1])
  }

  /** The number of meshes held by a node and all its descendants. */
  function MeshCount(node: AiNode): nat
    decreases node, 1
  {
    |node.meshes| + ChildrenMeshCount(node.children)
  }

  function ChildrenMeshCount(children: seq<AiNode>): nat
    decreases children, 0
  {
    if children == [] then 0
    else ChildrenMeshCount(children[..|children| - 1]) + MeshCount(children[|children| - 1])
  }

  /** The pre-order visits every mesh reference of the subtree exactly once: its length is the sum of mNumMeshes. */
  lemma {:induction false} MeshOrderLength(node: AiNode)
    ensures |MeshOrder(node)| == MeshCount(node)
    decreases node, 1
  {
    ChildrenOrderLength(node.children);
  }

  lemma {:induction false} ChildrenOrderLength(children: seq<AiNode>)
    ensures |ChildrenOrder(children)| == ChildrenMeshCount(children)
    decreases children, 0
  {
    if children != [] {
      ChildrenOrderLength(children[..|children| - 1]);
      MeshOrderLength(children[|children| - 1]);
    }
  }

  /** Every mesh index the pre-order yields names a mesh of the scene. */
  lemma {:induction false} MeshOrderInScene(node: AiNode, meshCount: nat)
    requires NodeInScene(node, meshCount)
    ensures forall k :: 0 <= k < |MeshOrder(node)| ==> MeshOrder(node)[k] < meshCount
    decreases node, 1
  {
    ChildrenOrderInScene(node.children, meshCount);
  }

  lemma {:induction false} ChildrenOrderInScene(children: seq<AiNode>, meshCount: nat)
    requires forall c :: 0 <= c < |children| ==> NodeInScene(children[c], meshCount)
    ensures forall k :: 0 <= k < |ChildrenOrder(children)| ==> ChildrenOrder(children)[k] < meshCount
    decreases children, 0
  {
    if children != [] {
      ChildrenOrderInScene(children[..|children| - 1], meshCount);
      MeshOrderInScene(children[|children| - 1], meshCount);
    }
  }

  // ------------------------------------------------------------------ meshes

  /** Position, ScaleX/Y/Z, RotationX/Y/Z (radians) and Color of a mesh or model; all zero by default. */
  datatype Placement = Placement(position: Vector3, scale: Vector3, rotation: Vector3, color: Vector4)

  const DEFAULT_PLACEMENT: Placement := Placement(ZERO3, ZERO3, ZERO3, ZERO4)

  /** pi / 180, to the 32 digits glm::radians writes it with. */
  const DEGREES_TO_RADIANS: real := 0.01745329251994329576923690768489

  /**
   * glm::radians on each component: degrees times pi / 180.  The result
   * has each component's sign, and 180 degrees is pi to 32 digits.
   */
  function Radians(degrees: Vector3): (radians: Vector3)
    ensures radians.x == degrees.x * DEGREES_TO_RADIANS
    ensures radians.y == degrees.y * DEGREES_TO_RADIANS
    ensures radians.z == degrees.z * DEGREES_TO_RADIANS
    ensures degrees == ZERO3 ==> radians == ZERO3
    ensures (radians.x < 0.0 <==> degrees.x < 0.0) && (radians.y < 0.0 <==> degrees.y < 0.0)
    ensures (radians.z < 0.0 <==> degrees.z < 0.0)
    ensures 3.14159265358979 < 180.0 * DEGREES_TO_RADIANS < 3.14159265358980
  {
    Vector3(degrees.x * DEGREES_TO_RADIANS, degrees.y * DEGREES_TO_RADIANS, degrees.z * DEGREES_TO_RADIANS)
  }

  /** The placement Load and LoadModel give a model: rotation converted from degrees. */
  function PlacementOf(position: Vector3, scale: Vector3, rotationDegrees: Vector3, color: Vector4): (placement: Placement)
    ensures placement.position == position && placement.scale == scale && placement.color == color
    ensures placement.rotation == Radians(rotationDegrees)
  {
    Placement(position, scale, Radians(rotationDegrees), color)
  }

  /**
   * Mesh<Texture, Buffer>: geometry, the textures and their engine-wide
   * indices, the shared vertex and index buffers (None for a null
   * shared_ptr), the placement and the dynamic-buffer slot.
   */
  datatype Mesh<T, B> = Mesh(vertices: seq<Vertex>, indices: seq<nat>, textures: seq<T>, textureIndices: seq<nat>,
                             vertexBuffer: Option<B>, indexBuffer: Option<B>, placement: Placement, modelIndex: Uint32)

  /** Mesh(): everything empty, null buffers, default placement, slot 0. */
  function DefaultMesh<T, B>(): (mesh: Mesh<T, B>)
    ensures mesh.vertices == [] && mesh.indices == [] && mesh.textures == [] && mesh.textureIndices == []
    ensures mesh.vertexBuffer.None? && mesh.indexBuffer.None?
    ensures mesh.placement == DEFAULT_PLACEMENT && mesh.modelIndex == 0
  {
    Mesh([], [], [], [], None, None, DEFAULT_PLACEMENT, 0)
  }

  /** The copy constructor: only the four vectors are copied; buffers, placement and slot start out default. */
  function CopyMesh<T, B>(mesh: Mesh<T, B>): (copy: Mesh<T, B>)
    ensures copy.vertices == mesh.vertices && copy.indices == mesh.indices
    ensures copy.textures == mesh.textures && copy.textureIndices == mesh.textureIndices
    ensures copy.vertexBuffer.None? && copy.indexBuffer.None?
    ensures copy.placement == DEFAULT_PLACEMENT && copy.modelIndex == 0
  {
    Mesh(mesh.vertices, mesh.indices, mesh.textures, mesh.textureIndices, None, None, DEFAULT_PLACEMENT, 0)
  }

  /** Copy assignment: the four vectors are taken from the source, everything else is the target's own. */
  function AssignMesh<T, B>(target: Mesh<T, B>, source: Mesh<T, B>): (result: Mesh<T, B>)
    ensures result.vertices == source.vertices && result.indices == source.indices
    ensures result.textures == source.textures && result.textureIndices == source.textureIndices
    ensures result.vertexBuffer == target.vertexBuffer && result.indexBuffer == target.indexBuffer
    ensures result.placement == target.placement && result.modelIndex == target.modelIndex
  {
    target.(vertices := source.vertices, indices := source.indices,
            textures := source.textures, textureIndices := source.textureIndices)
  }

  /**
   * A copy never carries GPU buffers, so a copied mesh cannot be drawn
   * until new buffers are made; copying twice is copying once, and
   * copy-assigning into a fresh mesh is copy construction.  Self-assignment
   * leaves a mesh as it was.
   */
  lemma CopySemantics<T, B>(mesh: Mesh<T, B>, other: Mesh<T, B>)
    ensures CopyMesh(CopyMesh(mesh)) == CopyMesh(mesh)
    ensures AssignMesh(DefaultMesh(), mesh) == CopyMesh(mesh)
    ensures AssignMesh(mesh, mesh) == mesh
    ensures AssignMesh(AssignMesh(mesh, other), mesh) == mesh
  {
  }

  /**
   * The move constructor: the four vectors and both buffers move into the
   * new mesh, which keeps a default placement and slot; the moved-from
   * mesh is left with empty vectors and null buffers (std::vector and
   * std::shared_ptr leave their source empty) and its own placement.
   */
  function MoveMesh<T, B>(mesh: Mesh<T, B>): (result: (Mesh<T, B>, Mesh<T, B>))
    ensures var (moved, rest) := result;
            && moved.vertices == mesh.vertices && moved.indices == mesh.indices
            && moved.textures == mesh.textures && moved.textureIndices == mesh.textureIndices
            && moved.vertexBuffer == mesh.vertexBuffer && moved.indexBuffer == mesh.indexBuffer
            && moved.placement == DEFAULT_PLACEMENT && moved.modelIndex == 0
            && rest == DefaultMesh().(placement := mesh.placement, modelIndex := mesh.modelIndex)
  {
    (Mesh(mesh.vertices, mesh.indices, mesh.textures, mesh.textureIndices, mesh.vertexBuffer, mesh.indexBuffer,
          DEFAULT_PLACEMENT, 0),
     Mesh([], [], [], [], None, None, mesh.placement, mesh.modelIndex))
  }

  /** Move assignment: the four vectors and both buffers are swapped; placements and slots stay put. */
  function MoveAssignMesh<T, B>(target: Mesh<T, B>, source: Mesh<T, B>): (result: (Mesh<T, B>, Mesh<T, B>))
    ensures var (newTarget, newSource) := result;
            && newTarget == AssignMesh(target, source).(vertexBuffer := source.vertexBuffer, indexBuffer := source.indexBuffer)
            && newSource == AssignMesh(source, target).(vertexBuffer := target.vertexBuffer, indexBuffer := target.indexBuffer)
  {
    (target.(vertices := source.vertices, indices := source.indices, textures := source.textures,
             textureIndices := source.textureIndices, vertexBuffer := source.vertexBuffer, indexBuffer := source.indexBuffer),
     source.(vertices := target.vertices, indices := target.indices, textures := target.textures,
             textureIndices := target.textureIndices, vertexBuffer := target.vertexBuffer, indexBuffer := target.indexBuffer))
  }

  /** Moving back restores both meshes, and a mesh moved onto itself is unchanged. */
  lemma MoveAssignSwaps<T, B>(target: Mesh<T, B>, source: Mesh<T, B>)
    ensures var (t, s) := MoveAssignMesh(target, source);
            MoveAssignMesh(t, s) == (target, source)
    ensures MoveAssignMesh(target, target) == (target, target)
  {
  }

  /**
   * Meshes.emplace_back(mesh) on a vector of the given capacity.  With room
   * left, the meshes already there stay where they are.  A full vector
   * first moves every mesh into larger storage through Mesh's move
   * constructor (it is noexcept, so std::vector prefers it), and that
   * constructor leaves the placement and the slot behind.
   */
  function EmplaceBack<T, B>(meshes: seq<Mesh<T, B>>, capacity: nat, mesh: Mesh<T, B>): (grown: seq<Mesh<T, B>>)
    ensures |grown| == |meshes| + 1 && grown[|meshes|] == mesh
    ensures |meshes| < capacity ==> grown[..|meshes|] == meshes
    ensures |meshes| >= capacity ==> forall i :: 0 <= i < |meshes| ==>
              grown[i] == meshes[i].(placement := DEFAULT_PLACEMENT, modelIndex := 0)
  {
    (if |meshes| < capacity then meshes else seq(|meshes|, i requires 0 <= i < |meshes| => MoveMesh(meshes[i]).0)) + [mesh]
  }

  /**
   * What ProcessNode does with a node of two meshes in a model whose vector
   * is empty: the first emplace_back allocates room for one mesh (as both
   * libstdc++ and the Microsoft library grow an empty vector), the first
   * mesh takes the model's placement, and the second emplace_back finds
   * the vector full and relocates the first mesh, which loses it.
   */
  lemma EmplaceBackDropsPlacement<T, B>(first: Mesh<T, B>, second: Mesh<T, B>, placement: Placement)
    requires placement != DEFAULT_PLACEMENT
    ensures var one := EmplaceBack([], 0, first);
            var placed := one[0 := one[0].(placement := placement)];
            var two := EmplaceBack(placed, 1, second);
            placed[0].placement == placement && two[0].placement == DEFAULT_PLACEMENT
  {
    var one := EmplaceBack([], 0, first);
    var placed := one[0 := one[0].(placement := placement)];
    var two := EmplaceBack(placed, 1, second);
    assert two[0] == placed[0].(placement := DEFAULT_PLACEMENT, modelIndex := 0);
  }

  /** The move constructor as evidently intended: every member moves, the placement and the slot included. */
  function MoveMeshWhole<T, B>(mesh: Mesh<T, B>): (result: (Mesh<T, B>, Mesh<T, B>))
    ensures result.0 == mesh
    ensures result.1.vertices == [] && result.1.indices == [] && result.1.textures == [] && result.1.textureIndices == []
    ensures result.1.vertexBuffer.None? && result.1.indexBuffer.None?
  {
    (mesh, MoveMesh(mesh).1)
  }

  /** emplace_back with the intended move constructor: relocation keeps every mesh whole. */
  function EmplaceBackIntended<T, B>(meshes: seq<Mesh<T, B>>, capacity: nat, mesh: Mesh<T, B>): (grown: seq<Mesh<T, B>>)
    ensures |grown| == |meshes| + 1
  {
    (if |meshes| < capacity then meshes else seq(|meshes|, i requires 0 <= i < |meshes| => MoveMeshWhole(meshes[i]).0)) + [mesh]
  }

  /**
   * With the intended move constructor, emplace_back only appends, whatever
   * the capacity; so when every mesh of a model carries its placement and
   * the new mesh is given it too, every mesh still carries it.
   */
  lemma {:induction false} EmplaceBackIntendedKeepsPlacements<T, B>(meshes: seq<Mesh<T, B>>, capacity: nat,
                                                                    mesh: Mesh<T, B>, placement: Placement)
    requires forall i :: 0 <= i < |meshes| ==> meshes[i].placement == placement
    ensures EmplaceBackIntended(meshes, capacity, mesh) == meshes + [mesh]
    ensures var grown := EmplaceBackIntended(meshes, capacity, mesh);
            var placed := grown[|meshes| := grown[|meshes|].(placement := placement)];
            forall i :: 0 <= i < |placed| ==> placed[i].placement == placement
  {
    var grown := EmplaceBackIntended(meshes, capacity, mesh);
    if |meshes| >= capacity {
      var relocated := seq(|meshes|, i requires 0 <= i < |meshes| => MoveMeshWhole(meshes[i]).0);
      forall i | 0 <= i < |meshes|
        ensures relocated[i] == meshes[i]
      {
        assert MoveMeshWhole(meshes[i]).0 == meshes[i];
      }
      assert relocated == meshes;
    }
    assert grown == meshes + [mesh];
  }

  /** Copy construction of a whole vector: every mesh through the copy constructor. */
  function CopyMeshes<T, B>(meshes: seq<Mesh<T, B>>): (copies: seq<Mesh<T, B>>)
    ensures |copies| == |meshes|
    ensures forall i :: 0 <= i < |meshes| ==> copies[i] == CopyMesh(meshes[i])
  {
    if meshes == [] then [] else CopyMeshes(meshes[..|meshes| - 1]) + [CopyMesh(meshes[|meshes| - 1])]
  }

  /**
   * Copy assignment of a whole vector whose source fits the target's
   * capacity: the meshes the target already has are copy-assigned over,
   * the rest are copy-constructed, surplus target meshes are destroyed.
   * (A source that does not fit is copied into new storage: CopyMeshes.)
   */
  function AssignMeshes<T, B>(target: seq<Mesh<T, B>>, source: seq<Mesh<T, B>>): (result: seq<Mesh<T, B>>)
    ensures |result| == |source|
    ensures forall i :: 0 <= i < |source| ==>
              result[i] == if i < |target| then AssignMesh(target[i], source[i]) else CopyMesh(source[i])
  {
    if source == [] then []
    else
      var i := |source| - 1;
      AssignMeshes(target, source[..i]) + [if i < |target| then AssignMesh(target[i], source[i]) else CopyMesh(source[i])]
  }

  /** Whatever the target held, an assigned vector has the source's geometry and textures, mesh by mesh. */
  lemma AssignedMeshesHaveSourceContents<T, B>(target: seq<Mesh<T, B>>, source: seq<Mesh<T, B>>)
    ensures forall i :: 0 <= i < |source| ==>
              var r := AssignMeshes(target, source)[i];
              r.vertices == source[i].vertices && r.indices == source[i].indices
              && r.textures == source[i].textures && r.textureIndices == source[i].textureIndices
    ensures AssignMeshes([], source) == CopyMeshes(source)
  {
  }

  // ----------------------------------------------------------------- drawing

  /** A command Render records into the command buffer. */
  datatype DrawCommand<B> =
    | BindPipeline(pipeline: Handle)
    | BindDescriptorSets(layout: Handle, descriptorSet: Handle, dynamicOffsets: seq<Uint32>)
    | PushColor(layout: Handle, color: Vector4)
    | BindVertexBuffer(buffer: B)
    | BindIndexBuffer(buffer: B)
    | DrawIndexed(indexCount: Uint32)

  /** ModelIndex * dynamicOffset in uint32_t arithmetic. */
  function DynamicOffset(modelIndex: Uint32, stride: Uint32): (offset: Uint32)
    ensures modelIndex * stride < UINT32_MODULUS ==> offset == modelIndex * stride
  {
    ToUint32(modelIndex * stride)
  }

  /** Without wrap-around, the offset a model binds is the start of its own slot of the dynamic buffer. */
  lemma DynamicOffsetIsSlotStart(modelIndex: Uint32, stride: Uint32)
    requires modelIndex * stride < UINT32_MODULUS
    ensures DynamicOffset(modelIndex, stride) == SlotStart(modelIndex, stride)
  {
  }

  /** Every mesh has both buffers, which Render dereferences. */
  predicate Drawable<T, B>(meshes: seq<Mesh<T, B>>) {
    forall i :: 0 <= i < |meshes| ==> meshes[i].vertexBuffer.Some? && meshes[i].indexBuffer.Some?
  }

  /** The four commands recorded for one mesh: colour, buffers, and one indexed draw of all its indices. */
  function MeshCommands<T, B>(mesh: Mesh<T, B>, layout: Handle, color: Vector4): (commands: seq<DrawCommand<B>>)
    requires mesh.vertexBuffer.Some? && mesh.indexBuffer.Some?
  {
    [ PushColor(layout, color), BindVertexBuffer(mesh.vertexBuffer.value), BindIndexBuffer(mesh.indexBuffer.value),
      DrawIndexed(ToUint32(|mesh.indices|)) ]
  }

  /** The commands of the mesh loop, mesh after mesh. */
  function MeshLoopCommands<T, B>(meshes: seq<Mesh<T, B>>, layout: Handle, color: Vector4): (commands: seq<DrawCommand<B>>)
    requires Drawable(meshes)
    ensures |commands| == 4 * |meshes|
  {
    if meshes == [] then []
    else MeshLoopCommands(meshes[..|meshes| - 1], layout, color) + MeshCommands(meshes[|meshes| - 1], layout, color)
  }

  /** Mesh i's draw is command 4i + 3 of the loop, and it draws all of mesh i's indices. */
  lemma {:induction false} MeshLoopDraws<T, B>(meshes: seq<Mesh<T, B>>, layout: Handle, color: Vector4)
    requires Drawable(meshes)
    ensures forall i :: 0 <= i < |meshes| ==>
              MeshLoopCommands(meshes, layout, color)[4 * i + 3] == DrawIndexed(ToUint32(|meshes[i].indices|))
    ensures forall i :: 0 <= i < |meshes| ==>
              MeshLoopCommands(meshes, layout, color)[4 * i] == PushColor(layout, color)
  {
    if meshes != [] {
      var init := meshes[..|meshes| - 1];
      assert Drawable(init) by {
        assert forall i :: 0 <= i < |init| ==> init[i] == meshes[i];
      }
      MeshLoopDraws(init, layout, color);
      forall i | 0 <= i < |init|
        ensures MeshLoopCommands(meshes, layout, color)[4 * i + 3] == DrawIndexed(ToUint32(|meshes[i].indices|))
        ensures MeshLoopCommands(meshes, layout, color)[4 * i] == PushColor(layout, color)
      {
        assert init[i] == meshes[i];
      }
    }
  }

  class Model<T, B> {
    /** Meshes, and Meshes.capacity(): how many meshes fit before the vector must move them. */
    var meshes: seq<Mesh<T, B>>
    var meshCapacity: nat
    /** Position, Scale, Rotation and Color. */
    var placement: Placement
    /** ModelIndex: the model's slot in the dynamic uniform buffer. */
    var modelIndex: Uint32
    /** Name, m_handle and m_isDisposed inherited from IDisposable. */
    var name: string
    var userData: nat
    var disposed: bool

    /** The mesh vector never holds more than its capacity. */
    predicate Valid()
      reads this
    {
      |meshes| <= meshCapacity
    }

    /** Model(): no meshes (and no room for any), default placement, slot 0, unnamed. */
    constructor ()
      ensures Valid() && meshes == [] && meshCapacity == 0
      ensures placement == DEFAULT_PLACEMENT && modelIndex == 0
      ensures name == "" && userData == 0 && !disposed
    {
      meshes := [];
      meshCapacity := 0;
      placement := DEFAULT_PLACEMENT;
      modelIndex := 0;
      name := "";
      userData := 0;
      disposed := false;
    }

    /** The copy constructor: every field, with each mesh through Mesh's copy constructor. */
    constructor Copy(other: Model<T, B>)
      ensures Valid() && meshes == CopyMeshes(other.meshes)
      ensures placement == other.placement && modelIndex == other.modelIndex
      ensures name == other.name && userData == other.userData && disposed == other.disposed
    {
      meshes := CopyMeshes(other.meshes);
      // The new vector has room for at least the copied meshes; how much more is the library's choice.
      var capacity: nat :| capacity >= |other.meshes|;
      meshCapacity := capacity;
      placement := other.placement;
      modelIndex := other.modelIndex;
      name := other.name;
      userData := other.userData;
      disposed := other.disposed;
    }

    /**
     * The move constructor: only the meshes move, with their storage (the
     * source is left without any); everything else is default.
     */
    constructor Move(other: Model<T, B>)
      modifies other
      ensures meshes == old(other.meshes) && meshCapacity == old(other.meshCapacity)
      ensures other.meshes == [] && other.meshCapacity == 0
      ensures placement == DEFAULT_PLACEMENT && modelIndex == 0 && name == "" && userData == 0 && !disposed
      ensures other.placement == old(other.placement) && other.modelIndex == old(other.modelIndex)
      ensures other.name == old(other.name) && other.userData == old(other.userData) && other.disposed == old(other.disposed)
    {
      meshes := other.meshes;
      meshCapacity := other.meshCapacity;
      placement := DEFAULT_PLACEMENT;
      modelIndex := 0;
      name := "";
      userData := 0;
      disposed := false;
      new;
      other.meshes := [];
      other.meshCapacity := 0;
    }

    /**
     * Meshes = source, std::vector copy assignment: a source that fits the
     * capacity is copy-assigned over the meshes already there; a longer one
     * is copy-constructed into new storage (as large as the library
     * chooses), so no earlier mesh survives.
     */
    method AssignMeshVector(source: seq<Mesh<T, B>>)
      modifies this
      ensures Valid()
      ensures |source| <= old(meshCapacity) ==> meshes == AssignMeshes(old(meshes), source) && meshCapacity == old(meshCapacity)
      ensures |source| > old(meshCapacity) ==> meshes == CopyMeshes(source)
      ensures placement == old(placement) && modelIndex == old(modelIndex)
      ensures name == old(name) && userData == old(userData) && disposed == old(disposed)
    {
      if |source| <= meshCapacity {
        meshes := AssignMeshes(meshes, source);
      } else {
        meshes := CopyMeshes(source);
        var capacity: nat :| capacity >= |source|;
        meshCapacity := capacity;
      }
    }

    /** Copy assignment: every field, the meshes by vector copy assignment; assigning a model to itself changes nothing. */
    method CopyAssign(other: Model<T, B>)
      modifies this
      ensures other == this ==> meshes == old(meshes) && meshCapacity == old(meshCapacity) && placement == old(placement)
                                && modelIndex == old(modelIndex) && name == old(name) && userData == old(userData)
                                && disposed == old(disposed)
      ensures other != this && |other.meshes| <= old(meshCapacity) ==>
                meshes == AssignMeshes(old(meshes), other.meshes) && meshCapacity == old(meshCapacity)
      ensures other != this && |other.meshes| > old(meshCapacity) ==> meshes == CopyMeshes(other.meshes)
      ensures other != this ==> Valid()
      ensures placement == other.placement && modelIndex == other.modelIndex
      ensures name == other.name && userData == other.userData && disposed == other.disposed
    {
      if other == this {
        return;
      }
      AssignMeshVector(other.meshes);
      placement := other.placement;
      modelIndex := other.modelIndex;
      name := other.name;
      userData := other.userData;
      disposed := other.disposed;
    }

    /** Move assignment: only the mesh vectors are swapped, storage and all. */
    method MoveAssign(other: Model<T, B>)
      modifies this, other
      ensures other != this ==> meshes == old(other.meshes) && other.meshes == old(meshes)
      ensures other != this ==> meshCapacity == old(other.meshCapacity) && other.meshCapacity == old(meshCapacity)
      ensures other == this ==> meshes == old(meshes) && meshCapacity == old(meshCapacity)
      ensures placement == old(placement) && modelIndex == old(modelIndex)
      ensures name == old(name) && userData == old(userData) && disposed == old(disposed)
      ensures other.placement == old(other.placement) && other.modelIndex == old(other.modelIndex)
      ensures other.name == old(other.name) && other.userData == old(other.userData)
      ensures other.disposed == old(other.disposed)
    {
      if other == this {
        return;
      }
      var mine, room := meshes, meshCapacity;
      meshes, meshCapacity := other.meshes, other.meshCapacity;
      other.meshes, other.meshCapacity := mine, room;
    }

    /**
     * Meshes.emplace_back(mesh): a full vector first moves to storage with
     * room for more (how much more is the library's choice), relocating the
     * meshes already there; then the mesh is appended.
     */
    method EmplaceMesh(mesh: Mesh<T, B>)
      requires Valid()
      modifies this
      ensures Valid() && meshes == EmplaceBack(old(meshes), old(meshCapacity), mesh)
      ensures |old(meshes)| < old(meshCapacity) ==> meshCapacity == old(meshCapacity)
      ensures |old(meshes)| == old(meshCapacity) ==> meshCapacity > old(meshCapacity)
      ensures placement == old(placement) && modelIndex == old(modelIndex)
      ensures name == old(name) && userData == old(userData) && disposed == old(disposed)
    {
      meshes := EmplaceBack(meshes, meshCapacity, mesh);
      if |meshes| > meshCapacity {
        var capacity: nat :| capacity > meshCapacity;
        meshCapacity := capacity;
      }
    }

    /**
     * The assignments after ProcessNode's emplace_back: the mesh just
     * emplaced (the back of the vector) takes the model's colour, position,
     * scale and rotation.
     */
    method PlaceLast()
      requires Valid() && |meshes| > 0
      modifies this
      ensures Valid() && meshCapacity == old(meshCapacity)
      ensures |meshes| == |old(meshes)| && meshes[..|meshes| - 1] == old(meshes)[..|meshes| - 1]
      ensures meshes[|meshes| - 1] == old(meshes)[|meshes| - 1].(placement := placement)
      ensures placement == old(placement) && modelIndex == old(modelIndex)
      ensures name == old(name) && userData == old(userData) && disposed == old(disposed)
    {
      meshes := meshes[|meshes| - 1 := meshes[|meshes| - 1].(placement := placement)];
    }

    /**
     * Render: bind the BasicShader pipeline for BlendMode::None, bind the
     * descriptor set with this model's dynamic offset for both dynamic
     * bindings, then per mesh push the model's colour, bind its buffers
     * and draw all its indices.  A shader type without a pipeline or a
     * layout makes map::at throw: None.
     */
    method Render(stride: Uint32, pipeline: Pipeline, descriptorSet: Handle) returns (commands: Option<seq<DrawCommand<B>>>)
      requires Drawable(meshes)
      requires BasicShader in pipeline.graphicsPipelines ==>
                 BlendIndex(BlendNone) < |pipeline.graphicsPipelines[BasicShader]|
      ensures commands.None? <==> pipeline.GetPipeline(BlendNone, BasicShader).None?
                                  || pipeline.GetPipelineLayout(BasicShader).None?
      ensures commands.Some? ==>
                var layout := pipeline.GetPipelineLayout(BasicShader).value;
                var offset := DynamicOffset(modelIndex, stride);
                commands.value
                == [ BindPipeline(pipeline.GetPipeline(BlendNone, BasicShader).value),
                     BindDescriptorSets(layout, descriptorSet, [offset, offset]) ]
                   + MeshLoopCommands(meshes, layout, placement.color)
    {
      var boundPipeline := pipeline.GetPipeline(BlendNone, BasicShader);
      var layout := pipeline.GetPipelineLayout(BasicShader);
      if boundPipeline.None? || layout.None? {
        return None;
      }
      var offset := DynamicOffset(modelIndex, stride);
      var recorded := [BindPipeline(boundPipeline.value), BindDescriptorSets(layout.value, descriptorSet, [offset, offset])];
      var i := 0;
      while i < |meshes|
        invariant 0 <= i <= |meshes|
        invariant Drawable(meshes[..i])
        invariant recorded == [BindPipeline(boundPipeline.value), BindDescriptorSets(layout.value, descriptorSet, [offset, offset])]
                              + MeshLoopCommands(meshes[..i], layout.value, placement.color)
      {
        assert meshes[..i + 1][..i] == meshes[..i];
        recorded := recorded + MeshCommands(meshes[i], layout.value, placement.color);
        i := i + 1;
      }
      assert meshes[..i] == meshes;
      commands := Some(recorded);
    }
  }
}
