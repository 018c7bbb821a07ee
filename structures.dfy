/** Plain records shared by the renderer: the constant-buffer payload, mesh
    handles, key-indicator states, a camera as a value, and the byte-image
    ordering that `SimpleVertex` uses to de-duplicate vertices.

    Matrices are kept symbolic: a world matrix is the list of primitive
    transforms it is the product of (row-vector convention, so the first
    factor is applied first), and view and projection matrices are named by
    the camera values they are derived from. */
module Structures {

  /** `uint32_t` */
  type u32 = x: int | 0 <= x < 0x1_0000_0000

  /** `unsigned char` */
  type byte = x: int | 0 <= x < 256

  datatype Vec3 = Vec3(x: real, y: real, z: real)

  const Origin := Vec3(0.0, 0.0, 0.0)

  function Add(a: Vec3, b: Vec3): Vec3
  {
    Vec3(a.x + b.x, a.y + b.y, a.z + b.z)
  }

  function Scale(a: Vec3, k: real): Vec3
  {
    Vec3(a.x * k, a.y * k, a.z * k)
  }

  /** One primitive factor of a DirectXMath matrix product. */
  datatype Transform =
    | Translate(offset: Vec3)
    | RotateX(ax: real)
    | RotateY(ay: real)
    | RotateZ(az: real)
    | Scaling(factor: Vec3)

  /** Projection parameters of a camera (field of view, aspect, near, far). */
  datatype Projection = Projection(fov: real, aspect: real, near: real, far: real)

  datatype Matrix =
    | Product(factors: seq<Transform>)         // Identity is Product([])
    | ViewOf(eye: Vec3, angles: Vec3)          // a camera's view matrix
    | ProjectionOf(projection: Projection)     // a camera's projection matrix
    | Transposed(m: Matrix)                    // XMMatrixTranspose
    | ZeroMatrix                               // `XMFLOAT4X4 m = {}`: every entry 0

  const Identity := Product([])

  /** A camera as a value: what the framework reads and writes of it. */
  datatype Camera = Camera(position: Vec3, rotation: Vec3, projection: Projection)

  /** The six uint32 mode flags of `ConstantBuffer`. */
  datatype Shading = Shading(
    hasTexture: u32, waveFilter: u32, lightOn: u32,
    waveFilterX: u32, pixelateFilter: u32, goochShading: u32)

  /** Every mode flag is 0 or 1. */
  predicate Binary(m: Shading)
  {
    m.hasTexture <= 1 && m.waveFilter <= 1 && m.lightOn <= 1 &&
    m.waveFilterX <= 1 && m.pixelateFilter <= 1 && m.goochShading <= 1
  }

  /** The per-draw payload (lighting fields are loaded once at start-up and
      are not part of this model). */
  datatype ConstantBuffer = ConstantBuffer(
    projection: Matrix, view: Matrix, world: Matrix,
    count: real, cameraPosition: Vec3,
    shading: Shading, pixelationAmount: real)

  /** `ConstantBuffer m_cbData = {}`: everything zero. */
  const ZeroBuffer := ConstantBuffer(
    ZeroMatrix, ZeroMatrix, ZeroMatrix, 0.0, Origin,
    Shading(0, 0, 0, 0, 0, 0), 0.0)

  /** A GPU object handle (texture view or buffer); `None` is `nullptr`. */
  datatype Handle = Handle(id: nat)

  datatype MeshData = MeshData(
    vertexBuffer: Option<Handle>, indexBuffer: Option<Handle>,
    vbStride: u32, vbOffset: u32, indexCount: u32)

  /** `MeshData m_meshData = {}` */
  const EmptyMesh := MeshData(None, None, 0, 0, 0)

  datatype Option<T> = None | Some(value: T)

  /** The two states of a key indicator (Structures.h `KeyState`). */
  datatype KeyState = KeyUp | KeyDown

  /** The ten on-screen key indicators of the debug camera. */
  datatype Indicators = Indicators(
    w: KeyState, a: KeyState, s: KeyState, d: KeyState, q: KeyState, e: KeyState,
    up: KeyState, left: KeyState, down: KeyState, right: KeyState)

  const AllUp := Indicators(KeyUp, KeyUp, KeyUp, KeyUp, KeyUp, KeyUp, KeyUp, KeyUp, KeyUp, KeyUp)

  // ---------------------------------------------------------------------
  // SimpleVertex::operator<  —  memcmp(this, &other, sizeof) > 0

  /** sizeof(SimpleVertex): three, three and two 4-byte floats. */
  const VertexBytes := 32

  /** The object representation of one `SimpleVertex`. */
  type VertexImage = s: seq<byte> | |s| == VertexBytes witness seq(VertexBytes, _ => 0)

  /** `memcmp`: the difference of the first pair of differing bytes, as
      unsigned char, or 0 when the images are equal. */
  function MemCmp(a: seq<byte>, b: seq<byte>): (r: int)
    requires |a| == |b|
    ensures -255 <= r <= 255
    decreases |a|
  {
    if |a| == 0 then 0
    else if a[0] != b[0] then a[0] - b[0]
    else MemCmp(a[1..], b[1..])
  }

  /** `SimpleVertex::operator<`: this sorts vertices by DESCENDING bytes. */
  predicate VertexLess(a: VertexImage, b: VertexImage)
  {
    MemCmp(a, b) > 0
  }

  lemma {:induction false} MemCmpZeroIffEqual(a: seq<byte>, b: seq<byte>)
    requires |a| == |b|
    ensures MemCmp(a, b) == 0 <==> a == b
    decreases |a|
  {
    if |a| != 0 && a[0] == b[0] {
      MemCmpZeroIffEqual(a[1..], b[1..]);
      assert a == [a[0]] + a[1..] && b == [b[0]] + b[1..];
    }
  }

  lemma {:induction false} MemCmpAntisymmetric(a: seq<byte>, b: seq<byte>)
    requires |a| == |b|
    ensures MemCmp(a, b) == -MemCmp(b, a)
    decreases |a|
  {
    if |a| != 0 && a[0] == b[0] {
      MemCmpAntisymmetric(a[1..], b[1..]);
    }
  }

  lemma {:induction false} MemCmpTransitive(a: seq<byte>, b: seq<byte>, c: seq<byte>)
    requires |a| == |b| == |c|
    requires MemCmp(a, b) > 0 && MemCmp(b, c) > 0
    ensures MemCmp(a, c) > 0
    decreases |a|
  {
    if a[0] == b[0] && b[0] == c[0] {
      MemCmpTransitive(a[1..], b[1..], c[1..]);
    }
  }

  /** No vertex is less than itself. */
  lemma VertexLessIrreflexive(a: VertexImage)
    ensures !VertexLess(a, a)
  {
    MemCmpZeroIffEqual(a, a);
  }

  /** Of two vertices at most one is less than the other. */
  lemma VertexLessAsymmetric(a: VertexImage, b: VertexImage)
    ensures VertexLess(a, b) ==> !VertexLess(b, a)
  {
    MemCmpAntisymmetric(a, b);
  }

  lemma VertexLessTransitive(a: VertexImage, b: VertexImage, c: VertexImage)
    ensures VertexLess(a, b) && VertexLess(b, c) ==> VertexLess(a, c)
  {
    if VertexLess(a, b) && VertexLess(b, c) {
      MemCmpTransitive(a, b, c);
    }
  }

  /** Two distinct byte images are always ordered one way or the other, so
      `operator<` is a strict total order on byte images. */
  lemma VertexLessConnected(a: VertexImage, b: VertexImage)
    ensures a != b ==> VertexLess(a, b) || VertexLess(b, a)
  {
    MemCmpZeroIffEqual(a, b);
    MemCmpAntisymmetric(a, b);
  }
}
