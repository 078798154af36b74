/** GPU buffer bookkeeping: the shader data type tables, vertex buffer
    layouts and their stride, the attribute offsets a vertex array sets up,
    and the size fields of vertex and index buffers. GL objects are opaque
    ids. */
module Buffer {

  datatype ShaderDataType = None | Float | Float2 | Float3 | Float4 | Mat3 | Mat4 | Int | Int2 | Int3 | Int4 | Bool

  const GL_INT := 0x1404
  const GL_FLOAT := 0x1406
  const GL_BOOL := 0x8B56
  const GL_STATIC_DRAW := 0x88E4
  const GL_DYNAMIC_DRAW := 0x88E8

  /** Size of a data type in bytes. */
  function ShaderDataTypeToSize(t: ShaderDataType): nat
  {
    match t
    case Float => 4
    case Float2 => 4 * 2
    case Float3 => 4 * 3
    case Float4 => 4 * 4
    case Mat3 => 4 * 3 * 3
    case Mat4 => 4 * 4 * 4
    case Int => 4
    case Int2 => 4 * 2
    case Int3 => 4 * 3
    case Int4 => 4 * 4
    case Bool => 1
    case None => 0
  }

  /** Number of components of a data type. */
  function ShaderDataTypeToCount(t: ShaderDataType): nat
  {
    match t
    case Float => 1
    case Float2 => 2
    case Float3 => 3
    case Float4 => 4
    case Mat3 => 9
    case Mat4 => 16
    case Int => 1
    case Int2 => 2
    case Int3 => 3
    case Int4 => 4
    case Bool => 1
    case None => 0
  }

  /** The GL component type of a data type. */
  function ShaderDataTypeToOpenGLBaseType(t: ShaderDataType): nat
  {
    match t
    case Float => GL_FLOAT
    case Float2 => GL_FLOAT
    case Float3 => GL_FLOAT
    case Float4 => GL_FLOAT
    case Mat3 => GL_FLOAT
    case Mat4 => GL_FLOAT
    case Int => GL_INT
    case Int2 => GL_INT
    case Int3 => GL_INT
    case Int4 => GL_INT
    case Bool => GL_BOOL
    case None => 0
  }

  /** Bytes of one component of a GL component type, as the size table
      assumes them. */
  function ComponentBytes(baseType: nat): nat
  {
    if baseType == GL_FLOAT || baseType == GL_INT then 4 else if baseType == GL_BOOL then 1 else 0
  }

  /** The three tables agree: a type's size is its component count times the
      bytes of its component type; every type but Bool and None is four bytes
      per component. */
  lemma TablesAgree(t: ShaderDataType)
    ensures ShaderDataTypeToSize(t) == ComponentBytes(ShaderDataTypeToOpenGLBaseType(t)) * ShaderDataTypeToCount(t)
    ensures t != Bool && t != None ==> ShaderDataTypeToSize(t) == 4 * ShaderDataTypeToCount(t)
    ensures t == Bool ==> ShaderDataTypeToSize(t) == 1 && ShaderDataTypeToCount(t) == 1
    ensures ShaderDataTypeToSize(t) == 0 <==> t == None
    ensures ShaderDataTypeToCount(t) == 0 <==> t == None
    ensures ShaderDataTypeToOpenGLBaseType(t) == 0 <==> t == None
  {
  }

  /** The GL component type: floats for Float* and Mat*, ints for Int*. */
  lemma BaseTypeClasses(t: ShaderDataType)
    ensures ShaderDataTypeToOpenGLBaseType(t) == GL_FLOAT <==> t in {Float, Float2, Float3, Float4, Mat3, Mat4}
    ensures ShaderDataTypeToOpenGLBaseType(t) == GL_INT <==> t in {Int, Int2, Int3, Int4}
    ensures ShaderDataTypeToOpenGLBaseType(t) == GL_BOOL <==> t == Bool
  {
  }

  datatype VertexBufferElement = VertexBufferElement(name: string, kind: ShaderDataType)

  /** A layout: its elements in order and the stride of one vertex. */
  datatype VertexBufferLayout = VertexBufferLayout(elements: seq<VertexBufferElement>, stride: nat)

  /** Total size of a run of elements, defined from the last element so that
      a summing loop matches it. */
  function SumSizes(elements: seq<VertexBufferElement>): nat
  {
    if elements == [] then 0
    else SumSizes(elements[..|elements| - 1]) + ShaderDataTypeToSize(elements[|elements| - 1].kind)
  }

  lemma {:induction false} SumSizesAppend(a: seq<VertexBufferElement>, b: seq<VertexBufferElement>)
    ensures SumSizes(a + b) == SumSizes(a) + SumSizes(b)
    decreases |b|
  {
    if b == [] {
      assert a + b == a;
    } else {
      assert (a + b)[..|a + b| - 1] == a + b[..|b| - 1];
      SumSizesAppend(a, b[..|b| - 1]);
    }
  }

  /** The layout that the element-list constructor builds. */
  function LayoutOf(elements: seq<VertexBufferElement>): VertexBufferLayout
  {
    VertexBufferLayout(elements, SumSizes(elements))
  }

  /** The default constructor: no elements, stride 0. */
  const DefaultLayout := VertexBufferLayout([], 0)

  lemma DefaultLayoutIsEmptyLayout()
    ensures DefaultLayout == LayoutOf([])
  {
  }

  /** The element-list constructor: sums the element sizes into the stride
      and keeps the elements in the given order. */
  method NewVertexBufferLayout(elements: seq<VertexBufferElement>) returns (layout: VertexBufferLayout)
    ensures layout == LayoutOf(elements)
    ensures layout.elements == elements
    ensures layout.stride == SumSizes(elements)
  {
    var stride := 0;
    for i := 0 to |elements|
      invariant stride == SumSizes(elements[..i])
    {
      assert elements[..i + 1][..i] == elements[..i];
      stride := stride + ShaderDataTypeToSize(elements[i].kind);
    }
    assert elements[..|elements|] == elements;
    layout := VertexBufferLayout(elements, stride);
  }

  /** One `glVertexAttribPointer` call (non-normalised). */
  datatype VertexAttribute = VertexAttribute(index: nat, count: nat, baseType: nat, stride: nat, offset: nat)

  /** Byte offset of attribute `i`: the sizes of the elements before it. */
  function AttributeOffset(elements: seq<VertexBufferElement>, i: nat): nat
    requires i <= |elements|
  {
    SumSizes(elements[..i])
  }

  /** Offsets grow by each element's size, so attribute i occupies
      [offset i, offset i + size i) and these ranges follow each other without
      gaps or overlap; the last one ends at the total size. */
  lemma {:induction false} AttributeOffsetsTile(elements: seq<VertexBufferElement>, i: nat)
    requires i < |elements|
    ensures AttributeOffset(elements, i + 1) == AttributeOffset(elements, i) + ShaderDataTypeToSize(elements[i].kind)
    ensures AttributeOffset(elements, i) + ShaderDataTypeToSize(elements[i].kind) <= SumSizes(elements)
  {
    assert elements[..i + 1][..i] == elements[..i];
    assert elements == elements[..i + 1] + elements[i + 1..];
    SumSizesAppend(elements[..i + 1], elements[i + 1..]);
  }

  /** The attribute setup loop of the vertex array constructor: attribute i
      gets the component count and type of element i, the layout's stride and
      the running offset. The final offset is the sum of all sizes, which is
      the stride for a layout built from its elements. */
  method SetVertexAttributes(layout: VertexBufferLayout) returns (attributes: seq<VertexAttribute>, offset: nat)
    ensures |attributes| == |layout.elements|
    ensures forall i :: 0 <= i < |attributes| ==>
              attributes[i] == VertexAttribute(i,
                ShaderDataTypeToCount(layout.elements[i].kind),
                ShaderDataTypeToOpenGLBaseType(layout.elements[i].kind),
                layout.stride,
                AttributeOffset(layout.elements, i))
    ensures offset == SumSizes(layout.elements)
    ensures layout == LayoutOf(layout.elements) ==> offset == layout.stride
  {
    var elements := layout.elements;
    var stride := layout.stride;
    attributes := [];
    offset := 0;
    for i := 0 to |elements|
      invariant |attributes| == i
      invariant offset == SumSizes(elements[..i])
      invariant forall j :: 0 <= j < i ==>
                  attributes[j] == VertexAttribute(j,
                    ShaderDataTypeToCount(elements[j].kind),
                    ShaderDataTypeToOpenGLBaseType(elements[j].kind),
                    stride,
                    AttributeOffset(elements, j))
    {
      var e := elements[i];
      var count := ShaderDataTypeToCount(e.kind);
      var size := ShaderDataTypeToSize(e.kind);
      var typeGL := ShaderDataTypeToOpenGLBaseType(e.kind);
      attributes := attributes + [VertexAttribute(i, count, typeGL, stride, offset)];
      assert elements[..i + 1][..i] == elements[..i];
      offset := offset + size;
    }
    assert elements[..|elements|] == elements;
  }

  /** The two layouts the 2D renderer declares. */
  const QuadLayout := LayoutOf([
    VertexBufferElement("position", Float3),
    VertexBufferElement("texture_id", Float),
    VertexBufferElement("uv", Float2),
    VertexBufferElement("color", Float4)])

  const CircleLayout := LayoutOf([
    VertexBufferElement("position", Float3),
    VertexBufferElement("uv", Float2),
    VertexBufferElement("thickness", Float),
    VertexBufferElement("color", Float4)])

  /** Both renderer vertices are 40 bytes; the quad's attributes start at
      0, 12, 16 and 24 and the circle's at 0, 12, 20 and 24. */
  lemma RendererLayouts()
    ensures QuadLayout.stride == 40 && CircleLayout.stride == 40
    ensures |QuadLayout.elements| == 4 && |CircleLayout.elements| == 4
    ensures AttributeOffset(QuadLayout.elements, 0) == 0
    ensures AttributeOffset(QuadLayout.elements, 1) == 12
    ensures AttributeOffset(QuadLayout.elements, 2) == 16
    ensures AttributeOffset(QuadLayout.elements, 3) == 24
    ensures AttributeOffset(CircleLayout.elements, 0) == 0
    ensures AttributeOffset(CircleLayout.elements, 1) == 12
    ensures AttributeOffset(CircleLayout.elements, 2) == 20
    ensures AttributeOffset(CircleLayout.elements, 3) == 24
  {
    var q := QuadLayout.elements;
    var c := CircleLayout.elements;
    assert q[..1] == [q[0]] && q[..2] == q[..1] + [q[1]] && q[..3] == q[..2] + [q[2]] && q[..4] == q;
    assert c[..1] == [c[0]] && c[..2] == c[..1] + [c[1]] && c[..3] == c[..2] + [c[2]] && c[..4] == c;
    AttributeOffsetsTile(q, 0);
    AttributeOffsetsTile(q, 1);
    AttributeOffsetsTile(q, 2);
    AttributeOffsetsTile(q, 3);
    AttributeOffsetsTile(c, 0);
    AttributeOffsetsTile(c, 1);
    AttributeOffsetsTile(c, 2);
    AttributeOffsetsTile(c, 3);
  }

  /** A vertex buffer: its GL id, the byte size given at creation, the usage
      hint (dynamic when created without data) and the layout set later. */
  class VertexBuffer {
    const id: nat
    const size: nat
    const usage: nat
    var layout: VertexBufferLayout

    constructor (hasData: bool, size: nat, id: nat)
      ensures this.id == id && this.size == size
      ensures usage == (if hasData then GL_STATIC_DRAW else GL_DYNAMIC_DRAW)
      ensures layout == DefaultLayout
    {
      this.size := size;
      this.id := id;
      usage := if hasData then GL_STATIC_DRAW else GL_DYNAMIC_DRAW;
      layout := DefaultLayout;
    }

    method SetLayout(l: VertexBufferLayout)
      modifies this`layout
      ensures layout == l
    {
      layout := l;
    }
  }

  /** An index buffer: its GL id, the number of indices and their byte size,
      four bytes per `uint32_t` index. */
  class IndexBuffer {
    const id: nat
    const count: nat
    const size: nat
    const data: seq<nat>

    constructor (count: nat, data: seq<nat>, id: nat)
      requires count < 0x1_0000_0000 && |data| == count
      ensures this.id == id && this.count == count && this.data == data
      ensures size == 4 * count
    {
      this.id := id;
      this.count := count;
      this.data := data;
      size := count * 4;
    }
  }
}
