/**
 * The engine's own 3x3 and 4x4 matrix records (Matrix.h) and their
 * conversions to and from the DirectXMath and glm matrix types.
 *
 * Elements are generic: the conversions only move values between
 * positions, so the element type does not matter.  A glm matrix is a
 * sequence of columns indexed as in C++, m[i][j]; a DirectXMath matrix has
 * one-based fields _11.._44.
 */
module Matrix {
  import opened Wrappers

  /** Matrix3x3: fields _00.._22, row-major. */
  datatype Matrix3x3<T> = Matrix3x3(
    m00: T, m01: T, m02: T,
    m10: T, m11: T, m12: T,
    m20: T, m21: T, m22: T)

  /** Matrix4x4: fields _00.._33, row-major. */
  datatype Matrix4x4<T> = Matrix4x4(
    m00: T, m01: T, m02: T, m03: T,
    m10: T, m11: T, m12: T, m13: T,
    m20: T, m21: T, m22: T, m23: T,
    m30: T, m31: T, m32: T, m33: T)

  /** DirectX::XMFLOAT3X3: fields _11.._33. */
  datatype XMFloat3x3<T> = XMFloat3x3(
    e11: T, e12: T, e13: T,
    e21: T, e22: T, e23: T,
    e31: T, e32: T, e33: T)

  /** DirectX::XMFLOAT4X4: fields _11.._44. */
  datatype XMFloat4x4<T> = XMFloat4x4(
    e11: T, e12: T, e13: T, e14: T,
    e21: T, e22: T, e23: T, e24: T,
    e31: T, e32: T, e33: T, e34: T,
    e41: T, e42: T, e43: T, e44: T)

  /** A glm::mat3 or glm::mat4: n vectors of n elements. */
  predicate IsGlm<T>(g: seq<seq<T>>, n: nat) {
    |g| == n && forall i :: 0 <= i < n ==> |g[i]| == n
  }

  /** Field _ij of a Matrix3x3. */
  function At3<T>(m: Matrix3x3<T>, i: nat, j: nat): T
    requires i < 3 && j < 3
  {
    match (i, j)
    case (0, 0) => m.m00 case (0, 1) => m.m01 case (0, 2) => m.m02
    case (1, 0) => m.m10 case (1, 1) => m.m11 case (1, 2) => m.m12
    case (2, 0) => m.m20 case (2, 1) => m.m21 case (_, _) => m.m22
  }

  /** Field _ij of a Matrix4x4. */
  function At4<T>(m: Matrix4x4<T>, i: nat, j: nat): T
    requires i < 4 && j < 4
  {
    match (i, j)
    case (0, 0) => m.m00 case (0, 1) => m.m01 case (0, 2) => m.m02 case (0, 3) => m.m03
    case (1, 0) => m.m10 case (1, 1) => m.m11 case (1, 2) => m.m12 case (1, 3) => m.m13
    case (2, 0) => m.m20 case (2, 1) => m.m21 case (2, 2) => m.m22 case (2, 3) => m.m23
    case (3, 0) => m.m30 case (3, 1) => m.m31 case (3, 2) => m.m32 case (_, _) => m.m33
  }

  /** Field _(i+1)(j+1) of an XMFLOAT3X3. */
  function XAt3<T>(x: XMFloat3x3<T>, i: nat, j: nat): T
    requires i < 3 && j < 3
  {
    match (i, j)
    case (0, 0) => x.e11 case (0, 1) => x.e12 case (0, 2) => x.e13
    case (1, 0) => x.e21 case (1, 1) => x.e22 case (1, 2) => x.e23
    case (2, 0) => x.e31 case (2, 1) => x.e32 case (_, _) => x.e33
  }

  /** Field _(i+1)(j+1) of an XMFLOAT4X4. */
  function XAt4<T>(x: XMFloat4x4<T>, i: nat, j: nat): T
    requires i < 4 && j < 4
  {
    match (i, j)
    case (0, 0) => x.e11 case (0, 1) => x.e12 case (0, 2) => x.e13 case (0, 3) => x.e14
    case (1, 0) => x.e21 case (1, 1) => x.e22 case (1, 2) => x.e23 case (1, 3) => x.e24
    case (2, 0) => x.e31 case (2, 1) => x.e32 case (2, 2) => x.e33 case (2, 3) => x.e34
    case (3, 0) => x.e41 case (3, 1) => x.e42 case (3, 2) => x.e43 case (_, _) => x.e44
  }

  /** The element constructor keeps its nine arguments in row-major order: argument 3i+j is _ij. */
  lemma Matrix3x3ElementsRowMajor<T>(args: seq<T>, i: nat, j: nat)
    requires |args| == 9 && i < 3 && j < 3
    ensures At3(Matrix3x3(args[0], args[1], args[2], args[3], args[4], args[5], args[6], args[7], args[8]), i, j)
            == args[3 * i + j]
  {
  }

  /** The element constructor of Matrix4x4 keeps its sixteen arguments row-major: argument 4i+j is _ij. */
  lemma Matrix4x4ElementsRowMajor<T>(args: seq<T>, i: nat, j: nat)
    requires |args| == 16 && i < 4 && j < 4
    ensures At4(Matrix4x4(args[0], args[1], args[2], args[3], args[4], args[5], args[6], args[7],
                          args[8], args[9], args[10], args[11], args[12], args[13], args[14], args[15]), i, j)
            == args[4 * i + j]
  {
  }

  /** Matrix3x3(const XMFLOAT3X3&): _ij takes _(i+1)(j+1). */
  function FromXMFloat3x3<T>(x: XMFloat3x3<T>): (m: Matrix3x3<T>)
    ensures forall i, j :: 0 <= i < 3 && 0 <= j < 3 ==> At3(m, i, j) == XAt3(x, i, j)
  {
    Matrix3x3(x.e11, x.e12, x.e13, x.e21, x.e22, x.e23, x.e31, x.e32, x.e33)
  }

  /** operator XMFLOAT3X3: the nine fields in row-major order. */
  function ToXMFloat3x3<T>(m: Matrix3x3<T>): (x: XMFloat3x3<T>)
    ensures forall i, j :: 0 <= i < 3 && 0 <= j < 3 ==> XAt3(x, i, j) == At3(m, i, j)
  {
    XMFloat3x3(m.m00, m.m01, m.m02, m.m10, m.m11, m.m12, m.m20, m.m21, m.m22)
  }

  /** XMFLOAT3X3 -> Matrix3x3 -> XMFLOAT3X3 and Matrix3x3 -> XMFLOAT3X3 -> Matrix3x3 are identities. */
  lemma XMFloat3x3RoundTrip<T>(x: XMFloat3x3<T>, m: Matrix3x3<T>)
    ensures ToXMFloat3x3(FromXMFloat3x3(x)) == x
    ensures FromXMFloat3x3(ToXMFloat3x3(m)) == m
  {
  }

  /** Matrix3x3(const glm::mat3&): _ij takes matrix[i][j]. */
  function FromGlmMat3<T>(g: seq<seq<T>>): (m: Matrix3x3<T>)
    requires IsGlm(g, 3)
    ensures forall i, j :: 0 <= i < 3 && 0 <= j < 3 ==> At3(m, i, j) == g[i][j]
  {
    Matrix3x3(g[0][0], g[0][1], g[0][2], g[1][0], g[1][1], g[1][2], g[2][0], g[2][1], g[2][2])
  }

  /** operator glm::mat3: matrix[i][j] takes _ij; all nine elements of the default matrix are overwritten. */
  function ToGlmMat3<T>(m: Matrix3x3<T>): (g: seq<seq<T>>)
    ensures IsGlm(g, 3)
    ensures forall i, j :: 0 <= i < 3 && 0 <= j < 3 ==> g[i][j] == At3(m, i, j)
  {
    [[m.m00, m.m01, m.m02], [m.m10, m.m11, m.m12], [m.m20, m.m21, m.m22]]
  }

  /** glm::mat3 -> Matrix3x3 -> glm::mat3 is the identity, and so is the other direction. */
  lemma GlmMat3RoundTrip<T>(g: seq<seq<T>>, m: Matrix3x3<T>)
    requires IsGlm(g, 3)
    ensures ToGlmMat3(FromGlmMat3(g)) == g
    ensures FromGlmMat3(ToGlmMat3(m)) == m
  {
    var back := ToGlmMat3(FromGlmMat3(g));
    forall i | 0 <= i < 3
      ensures back[i] == g[i]
    {
      assert |back[i]| == |g[i]| == 3;
      assert back[i][0] == g[i][0] && back[i][1] == g[i][1] && back[i][2] == g[i][2];
    }
  }

  /** Matrix4x4(const XMFLOAT4X4&): _ij takes _(i+1)(j+1). */
  function FromXMFloat4x4<T>(x: XMFloat4x4<T>): (m: Matrix4x4<T>)
    ensures forall i, j :: 0 <= i < 4 && 0 <= j < 4 ==> At4(m, i, j) == XAt4(x, i, j)
  {
    Matrix4x4(x.e11, x.e12, x.e13, x.e14, x.e21, x.e22, x.e23, x.e24,
              x.e31, x.e32, x.e33, x.e34, x.e41, x.e42, x.e43, x.e44)
  }

  /** operator XMFLOAT4X4: the sixteen fields in row-major order. */
  function ToXMFloat4x4<T>(m: Matrix4x4<T>): (x: XMFloat4x4<T>)
    ensures forall i, j :: 0 <= i < 4 && 0 <= j < 4 ==> XAt4(x, i, j) == At4(m, i, j)
  {
    XMFloat4x4(m.m00, m.m01, m.m02, m.m03, m.m10, m.m11, m.m12, m.m13,
               m.m20, m.m21, m.m22, m.m23, m.m30, m.m31, m.m32, m.m33)
  }

  /** XMFLOAT4X4 -> Matrix4x4 -> XMFLOAT4X4 and the other direction are identities. */
  lemma XMFloat4x4RoundTrip<T>(x: XMFloat4x4<T>, m: Matrix4x4<T>)
    ensures ToXMFloat4x4(FromXMFloat4x4(x)) == x
    ensures FromXMFloat4x4(ToXMFloat4x4(m)) == m
  {
  }

  /** Matrix4x4(const glm::mat4&): _ij takes matrix[i][j]. */
  function FromGlmMat4<T>(g: seq<seq<T>>): (m: Matrix4x4<T>)
    requires IsGlm(g, 4)
    ensures forall i, j :: 0 <= i < 4 && 0 <= j < 4 ==> At4(m, i, j) == g[i][j]
  {
    Matrix4x4(g[0][0], g[0][1], g[0][2], g[0][3], g[1][0], g[1][1], g[1][2], g[1][3],
              g[2][0], g[2][1], g[2][2], g[2][3], g[3][0], g[3][1], g[3][2], g[3][3])
  }

  /** One element assignment matrix[column][row] = value. */
  datatype ElementWrite<T> = ElementWrite(column: nat, row: nat, value: T)

  /** The sixteen assignments Matrix4x4's operator glm::mat3 performs, in source order. */
  function Matrix4x4ToGlmMat3Writes<T>(m: Matrix4x4<T>): (writes: seq<ElementWrite<T>>)
    ensures |writes| == 16
    ensures forall k :: 0 <= k < 16 ==>
              writes[k].column == k / 4 && writes[k].row == k % 4 && writes[k].value == At4(m, k / 4, k % 4)
  {
    [ElementWrite(0, 0, m.m00), ElementWrite(0, 1, m.m01), ElementWrite(0, 2, m.m02), ElementWrite(0, 3, m.m03),
     ElementWrite(1, 0, m.m10), ElementWrite(1, 1, m.m11), ElementWrite(1, 2, m.m12), ElementWrite(1, 3, m.m13),
     ElementWrite(2, 0, m.m20), ElementWrite(2, 1, m.m21), ElementWrite(2, 2, m.m22), ElementWrite(2, 3, m.m23),
     ElementWrite(3, 0, m.m30), ElementWrite(3, 1, m.m31), ElementWrite(3, 2, m.m32), ElementWrite(3, 3, m.m33)]
  }

  /**
   * Performs element assignments on a glm::mat3 in order, with glm's
   * index check: the first assignment outside the 3x3 range stops the
   * conversion, reported as Failure(its position in the list).
   */
  function ApplyWrites<T>(g: seq<seq<T>>, writes: seq<ElementWrite<T>>): (r: Result<seq<seq<T>>, nat>)
    requires IsGlm(g, 3)
    ensures r.Success? ==> IsGlm(r.value, 3)
    ensures r.Failure? ==> r.error < |writes| && (writes[r.error].column >= 3 || writes[r.error].row >= 3)
    ensures r.Failure? ==> forall k :: 0 <= k < r.error ==> writes[k].column < 3 && writes[k].row < 3
    ensures r.Success? <==> forall k :: 0 <= k < |writes| ==> writes[k].column < 3 && writes[k].row < 3
    decreases |writes|
  {
    if writes == [] then Success(g)
    else
      var w := writes[0];
      if w.column < 3 && w.row < 3 then
        match ApplyWrites(g[w.column := g[w.column][w.row := w.value]], writes[1..])
        case Success(h) => Success(h)
        case Failure(k) => Failure(k + 1)
      else
        Failure(0)
  }

  /**
   * Matrix4x4's operator glm::mat3 as written: starting from any glm::mat3,
   * the conversion performs the sixteen assignments of a 4x4 matrix.
   */
  function Matrix4x4ToGlmMat3AsWritten<T>(m: Matrix4x4<T>, initial: seq<seq<T>>): (r: Result<seq<seq<T>>, nat>)
    requires IsGlm(initial, 3)
    ensures r.Failure? ==> r.error < 16
  {
    ApplyWrites(initial, Matrix4x4ToGlmMat3Writes(m))
  }

  /** The as-written conversion never completes: its fourth assignment, matrix[0][3] = _03, is out of range. */
  lemma {:induction false} Matrix4x4ToGlmMat3AsWrittenFails<T>(m: Matrix4x4<T>, initial: seq<seq<T>>)
    requires IsGlm(initial, 3)
    ensures Matrix4x4ToGlmMat3AsWritten(m, initial) == Failure(3)
  {
    var writes := Matrix4x4ToGlmMat3Writes(m);
    assert writes[3] == ElementWrite(0, 3, m.m03);
    var r := Matrix4x4ToGlmMat3AsWritten(m, initial);
    assert r.Failure? by {
      assert !(writes[3].column < 3 && writes[3].row < 3);
    }
    assert r.error == 3 by {
      assert writes[0].row < 3 && writes[1].row < 3 && writes[2].row < 3;
    }
  }

  /** The intended conversion: the upper-left 3x3 block, matrix[i][j] = _ij for i, j < 3. */
  function Matrix4x4ToGlmMat3<T>(m: Matrix4x4<T>): (g: seq<seq<T>>)
    ensures IsGlm(g, 3)
    ensures forall i, j :: 0 <= i < 3 && 0 <= j < 3 ==> g[i][j] == At4(m, i, j)
  {
    [[m.m00, m.m01, m.m02], [m.m10, m.m11, m.m12], [m.m20, m.m21, m.m22]]
  }

  /**
   * The intended conversion is what the in-range assignments of the
   * as-written one produce: every element of the 3x3 result receives the
   * value of the one in-range assignment aimed at it.
   */
  lemma InRangeWritesGiveUpperLeftBlock<T>(m: Matrix4x4<T>)
    ensures forall k :: 0 <= k < 16 && Matrix4x4ToGlmMat3Writes(m)[k].column < 3 && Matrix4x4ToGlmMat3Writes(m)[k].row < 3 ==>
              Matrix4x4ToGlmMat3(m)[Matrix4x4ToGlmMat3Writes(m)[k].column][Matrix4x4ToGlmMat3Writes(m)[k].row]
                == Matrix4x4ToGlmMat3Writes(m)[k].value
  {
  }
}
