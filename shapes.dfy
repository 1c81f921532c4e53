/**
 * The primitive shape tables of Interfaces/IGraphics.h: vertex and index
 * data generated once per primitive type and kept in a table keyed by the
 * type.
 */
module Shapes {
  import opened Geometry
  import opened UtilsCommon

  /** ShapeData: the vertices and the triangle list indexing them. */
  datatype ShapeData = ShapeData(vertices: seq<Vertex>, indices: seq<nat>)

  /** A cube vertex: position, normal, and a zero texture coordinate. */
  function FaceVertex(px: real, py: real, pz: real, nx: real, ny: real, nz: real): Vertex {
    Vertex(Vector3(px, py, pz), Vector3(nx, ny, nz), ZERO2)
  }

  /** The unit cube's 24 vertices, four per face, when the y axis is not flipped. */
  const CUBE_VERTICES: seq<Vertex> :=
    // Front face
    [ FaceVertex(-0.5, -0.5, -0.5, 0.0, 0.0, -1.0),
      FaceVertex(-0.5, 0.5, -0.5, 0.0, 0.0, -1.0),
      FaceVertex(0.5, 0.5, -0.5, 0.0, 0.0, -1.0),
      FaceVertex(0.5, -0.5, -0.5, 0.0, 0.0, -1.0) ] +
    // Top face
    [ FaceVertex(-0.5, 0.5, -0.5, 0.0, 1.0, 0.0),
      FaceVertex(-0.5, 0.5, 0.5, 0.0, 1.0, 0.0),
      FaceVertex(0.5, 0.5, 0.5, 0.0, 1.0, 0.0),
      FaceVertex(0.5, 0.5, -0.5, 0.0, 1.0, 0.0) ] +
    // Back face
    [ FaceVertex(0.5, -0.5, 0.5, 0.0, 0.0, 1.0),
      FaceVertex(0.5, 0.5, 0.5, 0.0, 0.0, 1.0),
      FaceVertex(-0.5, 0.5, 0.5, 0.0, 0.0, 1.0),
      FaceVertex(-0.5, -0.5, 0.5, 0.0, 0.0, 1.0) ] +
    // Bottom face
    [ FaceVertex(-0.5, -0.5, 0.5, 0.0, -1.0, 0.0),
      FaceVertex(-0.5, -0.5, -0.5, 0.0, -1.0, 0.0),
      FaceVertex(0.5, -0.5, -0.5, 0.0, -1.0, 0.0),
      FaceVertex(0.5, -0.5, 0.5, 0.0, -1.0, 0.0) ] +
    // Left face
    [ FaceVertex(-0.5, -0.5, 0.5, -1.0, 0.0, 0.0),
      FaceVertex(-0.5, 0.5, 0.5, -1.0, 0.0, 0.0),
      FaceVertex(-0.5, 0.5, -0.5, -1.0, 0.0, 0.0),
      FaceVertex(-0.5, -0.5, -0.5, -1.0, 0.0, 0.0) ] +
    // Right face
    [ FaceVertex(0.5, -0.5, -0.5, 1.0, 0.0, 0.0),
      FaceVertex(0.5, 0.5, -0.5, 1.0, 0.0, 0.0),
      FaceVertex(0.5, 0.5, 0.5, 1.0, 0.0, 0.0),
      FaceVertex(0.5, -0.5, 0.5, 1.0, 0.0, 0.0) ]

  /** The cube's vertices when the y axis is flipped. */
  const FLIPPED_CUBE_VERTICES: seq<Vertex> :=
    // Front face
    [ FaceVertex(-0.5, 0.5, -0.5, 0.0, 0.0, -1.0),
      FaceVertex(-0.5, -0.5, -0.5, 0.0, 0.0, -1.0),
      FaceVertex(0.5, -0.5, -0.5, 0.0, 0.0, -1.0),
      FaceVertex(0.5, 0.5, -0.5, 0.0, 0.0, -1.0) ] +
    // Top face
    [ FaceVertex(-0.5, -0.5, -0.5, 0.0, -1.0, 0.0),
      FaceVertex(-0.5, -0.5, 0.5, 0.0, -1.0, 0.0),
      FaceVertex(0.5, -0.5, 0.5, 0.0, -1.0, 0.0),
      FaceVertex(0.5, -0.5, -0.5, 0.0, -1.0, 0.0) ] +
    // Back face
    [ FaceVertex(0.5, 0.5, 0.5, 0.0, 0.0, 1.0),
      FaceVertex(0.5, -0.5, 0.5, 0.0, 0.0, 1.0),
      FaceVertex(-0.5, -0.5, 0.5, 0.0, 0.0, 1.0),
      FaceVertex(-0.5, 0.5, 0.5, 0.0, 0.0, 1.0) ] +
    // Bottom face
    [ FaceVertex(-0.5, 0.5, 0.5, 0.0, 1.0, 0.0),
      FaceVertex(-0.5, 0.5, -0.5, 0.0, 1.0, 0.0),
      FaceVertex(0.5, 0.5, -0.5, 0.0, 1.0, 0.0),
      FaceVertex(0.5, 0.5, 0.5, 0.0, 1.0, 0.0) ] +
    // Left face
    [ FaceVertex(-0.5, 0.5, 0.5, -1.0, 0.0, 0.0),
      FaceVertex(-0.5, -0.5, 0.5, -1.0, 0.0, 0.0),
      FaceVertex(-0.5, -0.5, -0.5, -1.0, 0.0, 0.0),
      FaceVertex(-0.5, 0.5, -0.5, -1.0, 0.0, 0.0) ] +
    // Right face
    [ FaceVertex(0.5, 0.5, -0.5, 1.0, 0.0, 0.0),
      FaceVertex(0.5, -0.5, -0.5, 1.0, 0.0, 0.0),
      FaceVertex(0.5, -0.5, 0.5, 1.0, 0.0, 0.0),
      FaceVertex(0.5, 0.5, 0.5, 1.0, 0.0, 0.0) ]

  /** The cube's 36 indices: two triangles per face, one row of six per face. */
  const CUBE_INDICES: seq<nat> :=
    [0, 1, 2, 2, 3, 0] +
    [4, 5, 6, 6, 7, 4] +
    [8, 9, 10, 10, 11, 8] +
    [12, 13, 14, 14, 15, 12] +
    [16, 17, 18, 18, 19, 16] +
    [20, 21, 22, 22, 23, 20]

  /** A vertex mirrored in the y axis: the y of its position and of its normal negated. */
  function FlipY(v: Vertex): (w: Vertex)
    ensures w.position.x == v.position.x && w.position.z == v.position.z && w.position.y == -v.position.y
    ensures w.normal.x == v.normal.x && w.normal.z == v.normal.z && w.normal.y == -v.normal.y
    ensures w.texCoord == v.texCoord
  {
    Vertex(Vector3(v.position.x, -v.position.y, v.position.z), Vector3(v.normal.x, -v.normal.y, v.normal.z), v.texCoord)
  }

  /** The cube GenerateCubeData builds for a flipY setting. */
  function CubeData(flipY: bool): (shape: ShapeData)
    ensures |shape.vertices| == 24 && |shape.indices| == 36
    ensures shape.indices == CUBE_INDICES
  {
    ShapeData(if flipY then FLIPPED_CUBE_VERTICES else CUBE_VERTICES, CUBE_INDICES)
  }

  /**
   * The flipped cube is the unflipped cube mirrored in the y axis, vertex
   * by vertex, and every texture coordinate is zero.
   */
  lemma FlippedCubeIsMirrored()
    ensures |CubeData(true).vertices| == |CubeData(false).vertices|
    ensures forall i :: 0 <= i < 24 ==> CubeData(true).vertices[i] == FlipY(CubeData(false).vertices[i])
    ensures forall flipY: bool, i :: 0 <= i < 24 ==> CubeData(flipY).vertices[i].texCoord == ZERO2
  {
    forall i | 0 <= i < 24
      ensures FLIPPED_CUBE_VERTICES[i] == FlipY(CUBE_VERTICES[i])
      ensures FLIPPED_CUBE_VERTICES[i].texCoord == ZERO2 && CUBE_VERTICES[i].texCoord == ZERO2
    {
      if i < 4 {
      } else if i < 8 {
      } else if i < 12 {
      } else if i < 16 {
      } else if i < 20 {
      } else {
      }
    }
  }

  /** The six indices of face f: the triangles (4f, 4f+1, 4f+2) and (4f+2, 4f+3, 4f). */
  function FaceIndices(f: nat): seq<nat> {
    [4 * f, 4 * f + 1, 4 * f + 2, 4 * f + 2, 4 * f + 3, 4 * f]
  }

  /** Face f of the cube is drawn with FaceIndices(f), and every index names one of the 24 vertices. */
  lemma CubeFacePattern(flipY: bool)
    ensures forall f :: 0 <= f < 6 ==> CubeData(flipY).indices[6 * f..6 * f + 6] == FaceIndices(f)
    ensures forall k :: 0 <= k < 36 ==> CubeData(flipY).indices[k] < |CubeData(flipY).vertices|
  {
    var indices := CubeData(flipY).indices;
    forall f | 0 <= f < 6
      ensures indices[6 * f..6 * f + 6] == FaceIndices(f)
    {
      if f == 0 {
        assert indices[0..6] == FaceIndices(0);
      } else if f == 1 {
        assert indices[6..12] == FaceIndices(1);
      } else if f == 2 {
        assert indices[12..18] == FaceIndices(2);
      } else if f == 3 {
        assert indices[18..24] == FaceIndices(3);
      } else if f == 4 {
        assert indices[24..30] == FaceIndices(4);
      } else {
        assert indices[30..36] == FaceIndices(5);
      }
    }
    forall k | 0 <= k < 36
      ensures indices[k] < 24
    {
      var f := k / 6;
      assert 6 * f <= k < 6 * f + 6;
      assert indices[k] == indices[6 * f..6 * f + 6][k - 6 * f];
    }
  }

  /** The rect GenerateRectData builds: a unit square in the y = 0 plane facing up. */
  function RectData(flipY: bool): (shape: ShapeData)
    ensures |shape.vertices| == 4 && shape.indices == [0, 1, 2, 2, 3, 0]
    ensures forall i :: 0 <= i < 4 ==>
              shape.vertices[i].normal == Vector3(0.0, 1.0, 0.0) && shape.vertices[i].position.y == 0.0
              && shape.vertices[i].texCoord == ZERO2
  {
    var up := Vector3(0.0, 1.0, 0.0);
    ShapeData(
      [ Vertex(Vector3(-0.5, 0.0, 0.5), up, ZERO2),
        Vertex(Vector3(0.5, 0.0, 0.5), up, ZERO2),
        Vertex(Vector3(0.5, 0.0, -0.5), up, ZERO2),
        Vertex(Vector3(-0.5, 0.0, -0.5), up, ZERO2) ],
      [0, 1, 2, 2, 3, 0])
  }

  /** GenerateRectData ignores flipY. */
  lemma RectIgnoresFlipY()
    ensures RectData(true) == RectData(false)
  {
  }

  /** IGraphics::m_shapeData: the shape of each primitive type generated so far. */
  class ShapeTable {
    var shapeData: map<PrimitiveType, ShapeData>

    constructor ()
      ensures shapeData == map[]
    {
      shapeData := map[];
    }

    /** unordered_map::emplace: insert only when the type has no shape yet. */
    method Emplace(primitiveType: PrimitiveType, shape: ShapeData)
      modifies this
      ensures primitiveType in old(shapeData) ==> shapeData == old(shapeData)
      ensures primitiveType !in old(shapeData) ==> shapeData == old(shapeData)[primitiveType := shape]
    {
      if primitiveType !in shapeData {
        shapeData := shapeData[primitiveType := shape];
      }
    }

    method GenerateCubeData(flipY: bool)
      modifies this
      ensures shapeData == if Cube in old(shapeData) then old(shapeData) else old(shapeData)[Cube := CubeData(flipY)]
    {
      Emplace(Cube, CubeData(flipY));
    }

    method GenerateRectData(flipY: bool)
      modifies this
      ensures shapeData == if Rect in old(shapeData) then old(shapeData) else old(shapeData)[Rect := RectData(flipY)]
    {
      Emplace(Rect, RectData(flipY));
    }

    /**
     * GeneratePrimitiveData: the Board, Cube, Rect, Sphere and Cylinder
     * generators; only Cube and Rect add anything, and an entry that exists
     * is kept.
     */
    method GeneratePrimitiveData(flipY: bool)
      modifies this
      ensures forall t :: t in old(shapeData) ==> t in shapeData && shapeData[t] == old(shapeData)[t]
      ensures Cube in shapeData && Rect in shapeData
      ensures Cube !in old(shapeData) ==> shapeData[Cube] == CubeData(flipY)
      ensures Rect !in old(shapeData) ==> shapeData[Rect] == RectData(flipY)
      ensures shapeData.Keys == old(shapeData).Keys + {Cube, Rect}
    {
      GenerateCubeData(flipY);
      GenerateRectData(flipY);
    }
  }
}
