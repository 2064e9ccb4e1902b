/** Asymmetric-frustum projection math of VRViewerEffect.js: a field of view
    given as four half-angle tangents becomes a normalized-device-coordinate
    (NDC) scale/offset pair and then a 4x4 projection matrix.

    Matrices are stored as three.js stores them: 16 reals in column-major
    order, so the entry in row `r` and column `c` is `elements[c * 4 + r]`. */
module Projection {
  import opened Wrappers

  /** The tangent of a half-angle strictly between 0 and 90 degrees. */
  type Tangent = t: real | t > 0.0 witness 1.0

  /** A field of view in tangent space (the source's "fov port"). */
  datatype FovPort = FovPort(upTan: Tangent, downTan: Tangent, leftTan: Tangent, rightTan: Tangent)

  /** The source's two-element arrays `[x, y]`. */
  datatype Pair = Pair(x: real, y: real)

  datatype NdcScaleOffset = NdcScaleOffset(scale: Pair, offset: Pair)

  /** The NDC scale and offset of a field of view. The X map
      `t |-> scale.x * t + offset.x` sends the tangent range
      `[-leftTan, rightTan]` exactly onto `[-1, 1]`; the Y map uses the offset
      negated (`t |-> scale.y * t - offset.y`) and sends `[-downTan, upTan]`
      onto `[-1, 1]`. These four equations determine scale and offset. */
  function FovToNdcScaleOffset(fov: FovPort): (r: NdcScaleOffset)
    ensures r.scale.x > 0.0 && r.scale.y > 0.0
    ensures r.scale.x * fov.rightTan + r.offset.x == 1.0
    ensures r.scale.x * -(fov.leftTan as real) + r.offset.x == -1.0
    ensures r.scale.y * fov.upTan - r.offset.y == 1.0
    ensures r.scale.y * -(fov.downTan as real) - r.offset.y == -1.0
    ensures fov.leftTan == fov.rightTan ==> r.offset.x == 0.0
    ensures fov.upTan == fov.downTan ==> r.offset.y == 0.0
  {
    var pxscale := 2.0 / (fov.leftTan + fov.rightTan);
    var pxoffset := (fov.leftTan - fov.rightTan) * pxscale * 0.5;
    var pyscale := 2.0 / (fov.upTan + fov.downTan);
    var pyoffset := (fov.upTan - fov.downTan) * pyscale * 0.5;
    assert pxscale * (fov.leftTan + fov.rightTan) == 2.0;
    assert pyscale * (fov.upTan + fov.downTan) == 2.0;
    NdcScaleOffset(Pair(pxscale, pyscale), Pair(pxoffset, pyoffset))
  }

  /** The optional arguments of `fovPortToProjection` once resolved. */
  datatype ProjectionParams = ProjectionParams(rightHanded: bool, zNear: real, zFar: real)

  const DEFAULT_Z_NEAR: real := 0.01
  const DEFAULT_Z_FAR: real := 10000.0

  /** An omitted argument takes its default: right-handed, near plane 0.01,
      far plane 10000; a given argument is used as it is. */
  function ResolveParams(rightHanded: Option<bool>, zNear: Option<real>, zFar: Option<real>): (p: ProjectionParams)
    ensures p.rightHanded == (rightHanded.None? || rightHanded.value)
    ensures zNear.None? ==> p.zNear == DEFAULT_Z_NEAR
    ensures zNear.Some? ==> p.zNear == zNear.value
    ensures zFar.None? ==> p.zFar == DEFAULT_Z_FAR
    ensures zFar.Some? ==> p.zFar == zFar.value
  {
    ProjectionParams(rightHanded.GetOr(true), zNear.GetOr(DEFAULT_Z_NEAR), zFar.GetOr(DEFAULT_Z_FAR))
  }

  /** -1 for a right-handed view space (the camera looks down -Z), +1 otherwise. */
  function HandednessScale(rightHanded: bool): (h: real)
    ensures h * h == 1.0
    ensures rightHanded <==> h < 0.0
  {
    if rightHanded then -1.0 else 1.0
  }

  /** A homogeneous point, a clip-space vector, or one row of a matrix. */
  datatype Vec4 = Vec4(x: real, y: real, z: real, w: real)

  /** A 4x4 matrix given by its rows. */
  datatype Mat4 = Mat4(x: Vec4, y: Vec4, z: Vec4, w: Vec4)

  function Dot(r: Vec4, v: Vec4): real {
    r.x * v.x + r.y * v.y + r.z * v.z + r.w * v.w
  }

  /** The matrix applied to a column vector. */
  function Transform(m: Mat4, v: Vec4): Vec4 {
    Vec4(Dot(m.x, v), Dot(m.y, v), Dot(m.z, v), Dot(m.w, v))
  }

  /** The rows written one after the other: the order in which the source
      fills the elements before it transposes them. */
  function RowMajor(m: Mat4): (s: seq<real>)
    ensures |s| == 16
  {
    [m.x.x, m.x.y, m.x.z, m.x.w,
     m.y.x, m.y.y, m.y.z, m.y.w,
     m.z.x, m.z.y, m.z.z, m.z.w,
     m.w.x, m.w.y, m.w.z, m.w.w]
  }

  /** The columns written one after the other: three.js's element order. */
  function ColumnMajor(m: Mat4): (s: seq<real>)
    ensures |s| == 16
  {
    [m.x.x, m.y.x, m.z.x, m.w.x,
     m.x.y, m.y.y, m.z.y, m.w.y,
     m.x.z, m.y.z, m.z.z, m.w.z,
     m.x.w, m.y.w, m.z.w, m.w.w]
  }

  function Component(v: Vec4, i: nat): real
    requires i < 4
  {
    if i == 0 then v.x else if i == 1 then v.y else if i == 2 then v.z else v.w
  }

  function Row(m: Mat4, i: nat): Vec4
    requires i < 4
  {
    if i == 0 then m.x else if i == 1 then m.y else if i == 2 then m.z else m.w
  }

  /** Entry in row `row`, column `col` of a matrix stored as three.js
      stores it (column-major). */
  function Entry(elements: seq<real>, row: nat, col: nat): real
    requires |elements| == 16 && row < 4 && col < 4
  {
    elements[col * 4 + row]
  }

  /** Read through three.js's element layout, the column-major elements give
      back every entry of every row. */
  lemma ColumnMajorEntries(m: Mat4)
    ensures forall r: nat, c: nat | r < 4 && c < 4 :: Entry(ColumnMajor(m), r, c) == Component(Row(m, r), c)
  {
    forall r: nat, c: nat | r < 4 && c < 4
      ensures Entry(ColumnMajor(m), r, c) == Component(Row(m, r), c)
    {
      var s := ColumnMajor(m);
      if c == 0 { assert Entry(s, r, c) == s[r]; }
      else if c == 1 { assert Entry(s, r, c) == s[4 + r]; }
      else if c == 2 { assert Entry(s, r, c) == s[8 + r]; }
      else { assert Entry(s, r, c) == s[12 + r]; }
    }
  }

  /** The transpose of a 4x4 matrix given by its 16 elements. */
  function Transposed(s: seq<real>): (t: seq<real>)
    requires |s| == 16
    ensures |t| == 16
  {
    [s[0], s[4], s[8], s[12],
     s[1], s[5], s[9], s[13],
     s[2], s[6], s[10], s[14],
     s[3], s[7], s[11], s[15]]
  }

  /** Transposing a row-by-row layout gives the column-by-column layout. */
  lemma TransposedRowMajor(m: Mat4)
    ensures Transposed(RowMajor(m)) == ColumnMajor(m)
  {
  }

  /** `s` with the elements at `i` and `j` exchanged. */
  function SwapAt(s: seq<real>, i: nat, j: nat): seq<real>
    requires i < |s| && j < |s|
  {
    s[i := s[j]][j := s[i]]
  }

  method Swap(m: array<real>, i: nat, j: nat)
    requires i < m.Length && j < m.Length
    modifies m
    ensures m[..] == SwapAt(old(m[..]), i, j)
  {
    m[i], m[j] := m[j], m[i];
  }

  /** The six exchanges across the diagonal transpose a 4x4 matrix. */
  lemma SixSwapsTranspose(s: seq<real>)
    requires |s| == 16
    ensures SwapAt(SwapAt(SwapAt(SwapAt(SwapAt(SwapAt(s, 1, 4), 2, 8), 6, 9), 3, 12), 7, 13), 11, 14)
            == Transposed(s)
  {
    var u := SwapAt(SwapAt(SwapAt(SwapAt(SwapAt(SwapAt(s, 1, 4), 2, 8), 6, 9), 3, 12), 7, 13), 11, 14);
    var t := Transposed(s);
    assert u[0] == t[0] && u[1] == t[1] && u[2] == t[2] && u[3] == t[3];
    assert u[4] == t[4] && u[5] == t[5] && u[6] == t[6] && u[7] == t[7];
    assert u[8] == t[8] && u[9] == t[9] && u[10] == t[10] && u[11] == t[11];
    assert u[12] == t[12] && u[13] == t[13] && u[14] == t[14] && u[15] == t[15];
  }

  /** Transposes a matrix in place, exchanging the six pairs of elements
      that lie on opposite sides of the diagonal (as three.js's
      `Matrix4.transpose` does). */
  method Transpose(m: array<real>)
    requires m.Length == 16
    modifies m
    ensures m[..] == Transposed(old(m[..]))
  {
    SixSwapsTranspose(m[..]);
    Swap(m, 1, 4);
    Swap(m, 2, 8);
    Swap(m, 6, 9);
    Swap(m, 3, 12);
    Swap(m, 7, 13);
    Swap(m, 11, 14);
  }

  /** `s` with row `row` of its row-by-row layout replaced by `v`. */
  function WriteRow(s: seq<real>, row: nat, v: Vec4): seq<real>
    requires |s| == 16 && row < 4
  {
    s[row * 4 := v.x][row * 4 + 1 := v.y][row * 4 + 2 := v.z][row * 4 + 3 := v.w]
  }

  /** Writing a row replaces its four elements and keeps the others. */
  lemma WriteRowElements(s: seq<real>, row: nat, v: Vec4)
    requires |s| == 16 && row < 4
    ensures |WriteRow(s, row, v)| == 16
    ensures WriteRow(s, row, v)[row * 4] == v.x && WriteRow(s, row, v)[row * 4 + 1] == v.y
    ensures WriteRow(s, row, v)[row * 4 + 2] == v.z && WriteRow(s, row, v)[row * 4 + 3] == v.w
    ensures forall i | 0 <= i < 16 && (i < row * 4 || row * 4 + 4 <= i) :: WriteRow(s, row, v)[i] == s[i]
  {
  }

  /** Writing all four rows leaves nothing of what was there before. */
  lemma WriteAllRows(s: seq<real>, m: Mat4)
    requires |s| == 16
    ensures WriteRow(WriteRow(WriteRow(WriteRow(s, 0, m.x), 1, m.y), 2, m.z), 3, m.w) == RowMajor(m)
  {
    var u0 := WriteRow(s, 0, m.x);
    WriteRowElements(s, 0, m.x);
    var u1 := WriteRow(u0, 1, m.y);
    WriteRowElements(u0, 1, m.y);
    var u2 := WriteRow(u1, 2, m.z);
    WriteRowElements(u1, 2, m.z);
    var u := WriteRow(u2, 3, m.w);
    WriteRowElements(u2, 3, m.w);
    var t := RowMajor(m);
    assert u[..4] == t[..4];
    assert u[4..8] == t[4..8];
    assert u[8..12] == t[8..12];
    assert u[12..] == t[12..];
    assert u == u[..4] + u[4..8] + u[8..12] + u[12..];
    assert t == t[..4] + t[4..8] + t[8..12] + t[12..];
  }

  /** Writes the four elements `row * 4 + 0 .. row * 4 + 3`, one at a time. */
  method SetRow(m: array<real>, row: nat, x: real, y: real, z: real, w: real)
    requires m.Length == 16 && row < 4
    modifies m
    ensures m[..] == WriteRow(old(m[..]), row, Vec4(x, y, z, w))
  {
    m[row * 4 + 0] := x;
    m[row * 4 + 1] := y;
    m[row * 4 + 2] := z;
    m[row * 4 + 3] := w;
  }

  /** The projection matrix built on a given NDC scale/offset, by rows:
      row X is `[sx, 0, ox*h, 0]`, row Y is `[0, sy, -oy*h, 0]` (the Y
      offset negated), row Z holds `zFar/(zNear-zFar)*-h` and
      `zFar*zNear/(zNear-zFar)`, and row W is `[0, 0, h, 0]`, with `h` the
      handedness scale. */
  function ProjectionFromNdc(so: NdcScaleOffset, p: ProjectionParams): Mat4
    requires p.zNear != p.zFar
  {
    var h := HandednessScale(p.rightHanded);
    Mat4(Vec4(so.scale.x, 0.0, so.offset.x * h, 0.0),
         Vec4(0.0, so.scale.y, -so.offset.y * h, 0.0),
         Vec4(0.0, 0.0, p.zFar / (p.zNear - p.zFar) * -h, (p.zFar * p.zNear) / (p.zNear - p.zFar)),
         Vec4(0.0, 0.0, h, 0.0))
  }

  /** The projection matrix of a field of view, by rows. */
  function ProjectionMatrix(fov: FovPort, p: ProjectionParams): Mat4
    requires p.zNear != p.zFar
  {
    ProjectionFromNdc(FovToNdcScaleOffset(fov), p)
  }

  /** Writes the four rows of the projection matrix into the elements of
      `m`, as if they were stored row by row. */
  method WriteProjectionRows(m: array<real>, so: NdcScaleOffset, p: ProjectionParams)
    requires m.Length == 16 && p.zNear != p.zFar
    modifies m
    ensures m[..] == RowMajor(ProjectionFromNdc(so, p))
  {
    var rows := ProjectionFromNdc(so, p);
    WriteAllRows(m[..], rows);
    // X result, map clip edges to [-w, +w]
    SetRow(m, 0, rows.x.x, rows.x.y, rows.x.z, rows.x.w);
    // Y result, map clip edges to [-w, +w]; the Y offset is negated
    SetRow(m, 1, rows.y.x, rows.y.y, rows.y.z, rows.y.w);
    // Z result
    SetRow(m, 2, rows.z.x, rows.z.y, rows.z.z, rows.z.w);
    // W result (= Z in)
    SetRow(m, 3, rows.w.x, rows.w.y, rows.w.z, rows.w.w);
  }

  /** Builds the projection matrix as the source does: start from the
      identity, write the rows into the elements as if they were row-major,
      then transpose in place, so that three.js reads back the rows. */
  method FovPortToProjection(fov: FovPort, rightHanded: Option<bool>, zNear: Option<real>, zFar: Option<real>)
    returns (mobj: array<real>)
    requires ResolveParams(rightHanded, zNear, zFar).zNear != ResolveParams(rightHanded, zNear, zFar).zFar
    ensures fresh(mobj) && mobj.Length == 16
    ensures mobj[..] == ColumnMajor(ProjectionMatrix(fov, ResolveParams(rightHanded, zNear, zFar)))
  {
    var p := ResolveParams(rightHanded, zNear, zFar);
    mobj := new real[16](i => if i == 0 || i == 5 || i == 10 || i == 15 then 1.0 else 0.0);
    var scaleAndOffset := FovToNdcScaleOffset(fov);
    WriteProjectionRows(mobj, scaleAndOffset, p);
    TransposedRowMajor(ProjectionFromNdc(scaleAndOffset, p));
    Transpose(mobj);
  }

  /** The view-space point at distance `d` in front of the camera whose
      horizontal and vertical tangents (x/d and y/d) are `tx` and `ty`: the
      camera looks down -Z when right-handed and down +Z otherwise. */
  function ViewPoint(p: ProjectionParams, tx: real, ty: real, d: real): Vec4 {
    Vec4(tx * d, ty * d, HandednessScale(p.rightHanded) * d, 1.0)
  }

  /** On any scale/offset, a view-space point in front of the camera projects
      to clip `w` equal to its distance, to clip x and y equal to `w` times
      the affine scale/offset maps of its tangents (so NDC x and y are those
      maps), and to a clip z with `z * (zNear - zFar) == zFar * (zNear - d)`. */
  lemma ProjectViewPoint(so: NdcScaleOffset, p: ProjectionParams, tx: real, ty: real, d: real)
    requires p.zNear != p.zFar
    ensures var c := Transform(ProjectionFromNdc(so, p), ViewPoint(p, tx, ty, d));
            && c.w == d
            && c.x == d * (so.scale.x * tx + so.offset.x)
            && c.y == d * (so.scale.y * ty - so.offset.y)
            && c.z * (p.zNear - p.zFar) == p.zFar * (p.zNear - d)
  {
    var h := HandednessScale(p.rightHanded);
    var n, f := p.zNear, p.zFar;
    var c := Transform(ProjectionFromNdc(so, p), ViewPoint(p, tx, ty, d));
    var hh := h * (h * d);
    assert hh == d by { assert h * h == 1.0; }
    assert c.w == hh;
    assert c.x == so.scale.x * (tx * d) + so.offset.x * hh;
    assert c.y == so.scale.y * (ty * d) - so.offset.y * hh;
    assert c.z == f / (n - f) * -hh + (f * n) / (n - f);
    DepthNumerator(n, f, d, c.z);
  }

  /** `f / (n - f) * -d + f * n / (n - f)`, times `n - f`, is `f * (n - d)`. */
  lemma DepthNumerator(n: real, f: real, d: real, z: real)
    requires n != f && z == f / (n - f) * -d + (f * n) / (n - f)
    ensures z * (n - f) == f * (n - d)
  {
    var q := 1.0 / (n - f);
    assert f / (n - f) == f * q && (f * n) / (n - f) == (f * n) * q;
    assert q * (n - f) == 1.0;
    calc {
      z * (n - f);
      (f * q * -d + f * n * q) * (n - f);
      f * (n - d) * (q * (n - f));
    }
  }

  /** The frustum edges map to the clip edges `x = +w`, `x = -w`, `y = +w`,
      `y = -w` (NDC +1 and -1 on their axis): the right edge (x/d = rightTan),
      the left edge (x/d = -leftTan), the top edge (y/d = upTan) and the
      bottom edge (y/d = -downTan), at every distance and either handedness. */
  lemma FrustumEdgesMapToUnit(fov: FovPort, p: ProjectionParams, d: real)
    requires p.zNear != p.zFar
    ensures var c := Transform(ProjectionMatrix(fov, p), ViewPoint(p, fov.rightTan, 0.0, d));
            c.w == d && c.x == c.w
    ensures var c := Transform(ProjectionMatrix(fov, p), ViewPoint(p, -(fov.leftTan as real), 0.0, d));
            c.w == d && c.x == -c.w
    ensures var c := Transform(ProjectionMatrix(fov, p), ViewPoint(p, 0.0, fov.upTan, d));
            c.w == d && c.y == c.w
    ensures var c := Transform(ProjectionMatrix(fov, p), ViewPoint(p, 0.0, -(fov.downTan as real), d));
            c.w == d && c.y == -c.w
  {
    var so := FovToNdcScaleOffset(fov);
    EdgeX(so, p, fov.rightTan, d, 1.0);
    EdgeX(so, p, -(fov.leftTan as real), d, -1.0);
    EdgeY(so, p, fov.upTan, d, 1.0);
    EdgeY(so, p, -(fov.downTan as real), d, -1.0);
  }

  /** A horizontal tangent that the scale/offset maps to `e` projects to clip x = e * w. */
  lemma EdgeX(so: NdcScaleOffset, p: ProjectionParams, tx: real, d: real, e: real)
    requires p.zNear != p.zFar && so.scale.x * tx + so.offset.x == e
    ensures var c := Transform(ProjectionFromNdc(so, p), ViewPoint(p, tx, 0.0, d));
            c.w == d && c.x == e * c.w
  {
    ProjectViewPoint(so, p, tx, 0.0, d);
  }

  /** A vertical tangent that the scale/offset maps to `e` projects to clip y = e * w. */
  lemma EdgeY(so: NdcScaleOffset, p: ProjectionParams, ty: real, d: real, e: real)
    requires p.zNear != p.zFar && so.scale.y * ty - so.offset.y == e
    ensures var c := Transform(ProjectionFromNdc(so, p), ViewPoint(p, 0.0, ty, d));
            c.w == d && c.y == e * c.w
  {
    ProjectViewPoint(so, p, 0.0, ty, d);
  }

  /** Depth maps the near plane to clip z = 0 (NDC z = 0) and the far plane to
      clip z = w (NDC z = 1). */
  lemma DepthRange(fov: FovPort, p: ProjectionParams, tx: real, ty: real)
    requires p.zNear != p.zFar
    ensures var c := Transform(ProjectionMatrix(fov, p), ViewPoint(p, tx, ty, p.zNear));
            c.w == p.zNear && c.z == 0.0
    ensures var c := Transform(ProjectionMatrix(fov, p), ViewPoint(p, tx, ty, p.zFar));
            c.w == p.zFar && c.z == c.w
  {
    var so := FovToNdcScaleOffset(fov);
    var n, f := p.zNear, p.zFar;
    ProjectViewPoint(so, p, tx, ty, n);
    ProjectViewPoint(so, p, tx, ty, f);
    var cn := Transform(ProjectionMatrix(fov, p), ViewPoint(p, tx, ty, n));
    var cf := Transform(ProjectionMatrix(fov, p), ViewPoint(p, tx, ty, f));
    CancelNonZero(cn.z, 0.0, n - f);
    CancelNonZero(cf.z, f, n - f);
  }

  lemma CancelNonZero(a: real, b: real, k: real)
    requires k != 0.0 && a * k == b * k
    ensures a == b
  {
  }

  /** A symmetric field of view (up = down, left = right) has no X or Y
      offset terms: the matrix is a standard symmetric perspective one. */
  lemma SymmetricHasNoOffset(fov: FovPort, p: ProjectionParams)
    requires p.zNear != p.zFar
    requires fov.leftTan == fov.rightTan && fov.upTan == fov.downTan
    ensures ProjectionMatrix(fov, p).x.z == 0.0 && ProjectionMatrix(fov, p).y.z == 0.0
  {
  }
}
