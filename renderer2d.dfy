/** The 2D batch renderer's integer bookkeeping: the generated index
    pattern, the quad, texture and circle counters, texture slot allocation,
    flushing and the statistics. Vertex positions (matrix arithmetic on
    floats) are not modelled; each flush is recorded as a draw call holding
    what would be uploaded and drawn. */
module Renderer2D {
  import opened Buffer

  type UInt32 = x: int | 0 <= x < 0x1_0000_0000

  /** Arithmetic on a `uint32_t` field. */
  function Wrap(x: int): UInt32
  {
    x % 0x1_0000_0000
  }

  const MAX_QUADS := 10000
  const MAX_CIRCLES := 10000
  /** Size of the `int m_samplers[32]` and `m_usedTextures[32]` arrays. */
  const MAX_TEXTURE_SLOTS := 32

  /** `sizeof(QuadVertex)` and `sizeof(CircleVertex)`: ten floats each. */
  const QuadVertexSize := 40
  const CircleVertexSize := 40

  /** A `shared_ptr<Texture>`: null or a texture object, compared by
      identity. */
  datatype TextureRef = Null | Texture(id: nat)

  datatype Rgba = Rgba(r: real, g: real, b: real, a: real)

  /** Texture coordinates of a corner; both components are 0 or 1. */
  datatype Uv = Uv(u: int, v: int)

  const Uvs: seq<Uv> := [Uv(0, 0), Uv(1, 0), Uv(1, 1), Uv(0, 1)]

  /** The vertex fields the renderer fills without float arithmetic. */
  datatype QuadVertex = QuadVertex(textureId: int, uv: Uv, color: Rgba)
  datatype CircleVertex = CircleVertex(uv: Uv, thickness: real, color: Rgba)

  datatype Renderer2DStats = Renderer2DStats(drawCalls: UInt32, numQuads: UInt32, numCircles: UInt32)

  /** One flush: the textures bound to units 0.., the sampler array uploaded,
      the vertex data and its byte size, and the number of indices drawn. */
  datatype DrawCall =
    | QuadBatch(textures: seq<TextureRef>, samplers: seq<int>, vertices: seq<QuadVertex>, vertexBytes: nat, indexCount: nat)
    | CircleBatch(circleVertices: seq<CircleVertex>, vertexBytes: nat, indexCount: nat)

  /** The vertex structs match the layouts declared for them. */
  lemma VertexSizesMatchLayouts()
    ensures QuadVertexSize == QuadLayout.stride
    ensures CircleVertexSize == CircleLayout.stride
  {
    RendererLayouts();
  }

  // ---------------------------------------------------------------------
  // Index pattern

  /** Two triangles per shape: corners 0, 1, 2 and 2, 3, 0. */
  function Corner(m: int): nat
    requires 0 <= m < 6
  {
    [0, 1, 2, 2, 3, 0][m]
  }

  /** Index `k` of the index buffer: corner `k % 6` of shape `k / 6`, whose
      four vertices start at `4 * (k / 6)`. */
  function IndexPattern(k: nat): nat
  {
    4 * (k / 6) + Corner(k % 6)
  }

  lemma IndexPatternAt(q: nat, m: nat)
    requires m < 6
    ensures IndexPattern(6 * q + m) == 4 * q + Corner(m)
  {
    assert (6 * q + m) / 6 == q && (6 * q + m) % 6 == m;
  }

  /** The six indices of shape q are 4q, 4q+1, 4q+2, 4q+2, 4q+3, 4q. */
  lemma ShapeIndices(q: nat)
    ensures IndexPattern(6 * q) == 4 * q
    ensures IndexPattern(6 * q + 1) == 4 * q + 1
    ensures IndexPattern(6 * q + 2) == 4 * q + 2
    ensures IndexPattern(6 * q + 3) == 4 * q + 2
    ensures IndexPattern(6 * q + 4) == 4 * q + 3
    ensures IndexPattern(6 * q + 5) == 4 * q
  {
    IndexPatternAt(q, 0);
    IndexPatternAt(q, 1);
    IndexPatternAt(q, 2);
    IndexPatternAt(q, 3);
    IndexPatternAt(q, 4);
    IndexPatternAt(q, 5);
  }

  /** A draw of the first 6n indices only refers to the first 4n vertices,
      the ones the batch uploaded. */
  lemma DrawnIndicesInRange(n: nat, k: nat)
    requires k < 6 * n
    ensures IndexPattern(k) < 4 * n
  {
    IndexPatternAt(k / 6, k % 6);
    assert k == 6 * (k / 6) + k % 6;
  }

  /** The six indices of shape `q`, written at `i == 6q` from its first
      vertex `n == 4q`. */
  method WriteShapeIndices(data: array<nat>, i: nat, n: nat, ghost q: nat)
    requires i == 6 * q && n == 4 * q && i + 6 <= data.Length
    modifies data
    ensures forall k :: i <= k < i + 6 ==> data[k] == IndexPattern(k)
    ensures forall k :: 0 <= k < data.Length && !(i <= k < i + 6) ==> data[k] == old(data[k])
  {
    data[i] := n;
    data[i + 1] := n + 1;
    data[i + 2] := n + 2;
    data[i + 3] := n + 2;
    data[i + 4] := n + 3;
    data[i + 5] := n;
    forall k | i <= k < i + 6
      ensures data[k] == IndexPattern(k)
    {
      IndexPatternAt(q, k - i);
      assert data[k] == n + Corner(k - i);
    }
  }

  /** The index generation loop of the constructor, run once for quads and
      once for circles. */
  method GenerateIndices(maxShapes: nat) returns (data: array<nat>)
    ensures fresh(data) && data.Length == 6 * maxShapes
    ensures forall k :: 0 <= k < data.Length ==> data[k] == IndexPattern(k)
  {
    data := new nat[6 * maxShapes];
    var n := 0;
    var i := 0;
    ghost var q := 0;
    while i < 6 * maxShapes
      invariant i == 6 * q && n == 4 * q && q <= maxShapes
      invariant forall k :: 0 <= k < i ==> data[k] == IndexPattern(k)
    {
      WriteShapeIndices(data, i, n, q);
      n := n + 4;
      i := i + 6;
      q := q + 1;
    }
  }

  // ---------------------------------------------------------------------
  // Texture slots

  /** The first position of `t` in `s`, or -1 when it is not there. */
  function IndexOf(s: seq<TextureRef>, t: TextureRef): (r: int)
    ensures -1 <= r < |s|
    ensures r == -1 <==> t !in s
    ensures 0 <= r ==> s[r] == t && t !in s[..r]
  {
    if s == [] then -1
    else if s[0] == t then 0
    else
      var r := IndexOf(s[1..], t);
      if r == -1 then -1
      else
        assert s[..r + 1] == [s[0]] + s[1..][..r];
        r + 1
  }

  /** Only the first occurrence has no earlier one. */
  lemma IndexOfUnique(s: seq<TextureRef>, t: TextureRef, i: nat)
    requires i < |s| && s[i] == t && t !in s[..i]
    ensures IndexOf(s, t) == i
  {
  }

  predicate Distinct(s: seq<TextureRef>)
  {
    forall i, j :: 0 <= i < j < |s| ==> s[i] != s[j]
  }

  /** The slot a texture is drawn with, given the textures of the batch: its
      existing slot, or the next one. */
  function SlotFor(used: seq<TextureRef>, t: TextureRef): nat
  {
    if t in used then IndexOf(used, t) else |used|
  }

  /** The batch's textures after one more is drawn with it. */
  function WithTexture(used: seq<TextureRef>, t: TextureRef): seq<TextureRef>
  {
    if t in used then used else used + [t]
  }

  /** Slot allocation keeps the used textures duplicate-free and non-null,
      and the slot holds the texture. */
  lemma SlotAllocation(used: seq<TextureRef>, t: TextureRef)
    requires Distinct(used) && Null !in used && t != Null
    ensures Distinct(WithTexture(used, t)) && Null !in WithTexture(used, t)
    ensures SlotFor(used, t) < |WithTexture(used, t)| && WithTexture(used, t)[SlotFor(used, t)] == t
    ensures |WithTexture(used, t)| <= |used| + 1
    ensures used <= WithTexture(used, t)
  {
  }

  function QuadBatchOf(textures: seq<TextureRef>, samplers: seq<int>, vertices: seq<QuadVertex>): DrawCall
  {
    QuadBatch(textures, samplers, vertices, |vertices| * QuadVertexSize, 6 * (|vertices| / 4))
  }

  function CircleBatchOf(vertices: seq<CircleVertex>): DrawCall
  {
    CircleBatch(vertices, |vertices| * CircleVertexSize, 6 * (|vertices| / 4))
  }

  /** The sampler array (unit i for slot i) and the used-texture array (all
      null) for the texture units the driver offers. */
  method MakeTextureTables(textureSlots: int) returns (samplers: array<int>, used: array<TextureRef>)
    requires 1 <= textureSlots <= MAX_TEXTURE_SLOTS
    ensures fresh(samplers) && fresh(used)
    ensures samplers.Length == MAX_TEXTURE_SLOTS && used.Length == MAX_TEXTURE_SLOTS
    ensures forall i :: 0 <= i < textureSlots ==> samplers[i] == i
    ensures forall i :: 0 <= i < MAX_TEXTURE_SLOTS ==> used[i] == Null
  {
    samplers := new int[MAX_TEXTURE_SLOTS](_ => 0);
    used := new TextureRef[MAX_TEXTURE_SLOTS](_ => Null);
    for i := 0 to textureSlots
      invariant forall j :: 0 <= j < i ==> samplers[j] == j
      invariant forall j :: 0 <= j < MAX_TEXTURE_SLOTS ==> used[j] == Null
    {
      samplers[i] := i;
      used[i] := Null;
    }
  }

  /** The GL buffers of one shape kind: a dynamic vertex buffer for four
      vertices per shape with the given layout, an index buffer holding the
      index pattern for every shape, and the vertex array's attributes. */
  method MakeShapeBuffers(layout: VertexBufferLayout, vertexSize: nat, maxShapes: nat, vbId: nat, ibId: nat)
    returns (vb: VertexBuffer, ib: IndexBuffer, attributes: seq<VertexAttribute>)
    requires 6 * maxShapes < 0x1_0000_0000
    ensures fresh(vb) && fresh(ib)
    ensures vb.size == 4 * maxShapes * vertexSize && vb.layout == layout && vb.id == vbId
    ensures ib.count == 6 * maxShapes && ib.id == ibId && |ib.data| == ib.count
    ensures forall k :: 0 <= k < |ib.data| ==> ib.data[k] == IndexPattern(k)
    ensures |attributes| == |layout.elements|
    ensures forall i :: 0 <= i < |attributes| ==> attributes[i].offset == AttributeOffset(layout.elements, i)
  {
    vb := new VertexBuffer(false, 4 * maxShapes * vertexSize, vbId);
    vb.SetLayout(layout);
    var indices := GenerateIndices(maxShapes);
    ib := new IndexBuffer(6 * maxShapes, indices[..], ibId);
    var finalOffset;
    attributes, finalOffset := SetVertexAttributes(layout);
  }

  class Renderer2D {
    /** `GL_MAX_TEXTURE_IMAGE_UNITS`, queried once. */
    const textureSlots: int
    const samplers: array<int>
    const usedTextures: array<TextureRef>
    const quadsVD: array<QuadVertex>
    const circlesVD: array<CircleVertex>
    const quadsVB: VertexBuffer
    const circlesVB: VertexBuffer
    const quadsIB: IndexBuffer
    const circlesIB: IndexBuffer
    const quadsAttributes: seq<VertexAttribute>
    const circlesAttributes: seq<VertexAttribute>

    var quadsCount: nat
    var texturesCount: nat
    var circlesCount: nat
    var stats: Renderer2DStats
    /** The draw calls issued so far. */
    var trace: seq<DrawCall>

    ghost predicate Valid()
      reads this, samplers, usedTextures, quadsVD
    {
      && 1 <= textureSlots <= MAX_TEXTURE_SLOTS
      && samplers.Length == MAX_TEXTURE_SLOTS && usedTextures.Length == MAX_TEXTURE_SLOTS
      && quadsVD.Length == 4 * MAX_QUADS && circlesVD.Length == 4 * MAX_CIRCLES
      && (forall i :: 0 <= i < textureSlots ==> samplers[i] == i)
      && texturesCount <= quadsCount <= MAX_QUADS
      && texturesCount <= textureSlots
      && circlesCount <= MAX_CIRCLES
      && Distinct(usedTextures[..texturesCount])
      && Null !in usedTextures[..texturesCount]
      && (forall v :: 0 <= v < 4 * quadsCount ==> 0 <= quadsVD[v].textureId < texturesCount)
    }

    /** The quad batch that a flush would draw now. */
    ghost function PendingQuads(): DrawCall
      reads this, samplers, usedTextures, quadsVD
      requires Valid()
    {
      QuadBatchOf(usedTextures[..texturesCount], samplers[..textureSlots], quadsVD[..4 * quadsCount])
    }

    ghost function PendingCircles(): DrawCall
      reads this, circlesVD
      requires circlesVD.Length == 4 * MAX_CIRCLES && circlesCount <= MAX_CIRCLES
    {
      CircleBatchOf(circlesVD[..4 * circlesCount])
    }

    /** Empty batches, zero statistics, samplers 0.. for every texture unit,
        the index buffers filled with the index pattern and the vertex buffers
        sized for the maximum batch. The GL object ids are parameters. */
    constructor (textureSlots: int, quadsVbId: nat, quadsIbId: nat, circlesVbId: nat, circlesIbId: nat)
      requires 1 <= textureSlots <= MAX_TEXTURE_SLOTS
      ensures Valid()
      ensures this.textureSlots == textureSlots
      ensures quadsCount == 0 && texturesCount == 0 && circlesCount == 0
      ensures stats == Renderer2DStats(0, 0, 0) && trace == []
      ensures forall i :: 0 <= i < MAX_TEXTURE_SLOTS ==> usedTextures[i] == Null
      ensures quadsIB.count == 6 * MAX_QUADS && circlesIB.count == 6 * MAX_CIRCLES
      ensures forall k :: 0 <= k < |quadsIB.data| ==> quadsIB.data[k] == IndexPattern(k)
      ensures forall k :: 0 <= k < |circlesIB.data| ==> circlesIB.data[k] == IndexPattern(k)
      ensures quadsVB.size == 4 * MAX_QUADS * QuadVertexSize && quadsVB.layout == QuadLayout
      ensures circlesVB.size == 4 * MAX_CIRCLES * CircleVertexSize && circlesVB.layout == CircleLayout
      ensures |quadsAttributes| == 4 && |circlesAttributes| == 4
      ensures forall i :: 0 <= i < 4 ==> quadsAttributes[i].offset == AttributeOffset(QuadLayout.elements, i)
      ensures forall i :: 0 <= i < 4 ==> circlesAttributes[i].offset == AttributeOffset(CircleLayout.elements, i)
    {
      var samplersData, used := MakeTextureTables(textureSlots);
      var vb, ib, attributes := MakeShapeBuffers(QuadLayout, QuadVertexSize, MAX_QUADS, quadsVbId, quadsIbId);
      var cvb, cib, circleAttributes := MakeShapeBuffers(CircleLayout, CircleVertexSize, MAX_CIRCLES, circlesVbId, circlesIbId);
      RendererLayouts();

      this.textureSlots := textureSlots;
      samplers := samplersData;
      usedTextures := used;
      quadsVD := new QuadVertex[4 * MAX_QUADS](_ => QuadVertex(0, Uv(0, 0), Rgba(0.0, 0.0, 0.0, 0.0)));
      circlesVD := new CircleVertex[4 * MAX_CIRCLES](_ => CircleVertex(Uv(0, 0), 0.0, Rgba(0.0, 0.0, 0.0, 0.0)));
      quadsVB := vb;
      circlesVB := cvb;
      quadsIB := ib;
      circlesIB := cib;
      quadsAttributes := attributes;
      circlesAttributes := circleAttributes;
      quadsCount := 0;
      texturesCount := 0;
      circlesCount := 0;
      stats := Renderer2DStats(0, 0, 0);
      trace := [];
    }

    /** Zeroes the three statistics. */
    method ResetStats()
      modifies this`stats
      ensures stats == Renderer2DStats(0, 0, 0)
    {
      stats := stats.(drawCalls := 0);
      stats := stats.(numQuads := 0);
      stats := stats.(numCircles := 0);
    }

    /** Starts a batch: all three counters to zero, statistics untouched. The
        camera's view projection is not modelled. */
    method BeginBatch()
      requires Valid()
      modifies this`quadsCount, this`texturesCount, this`circlesCount
      ensures Valid()
      ensures quadsCount == 0 && texturesCount == 0 && circlesCount == 0
    {
      quadsCount := 0;
      texturesCount := 0;
      circlesCount := 0;
    }

    /** Draws the pending quads, if any: binds the used textures to units 0..
        and clears their entries, uploads the vertices, draws 6 indices per
        quad, counts one draw call and the quads, and empties the batch. */
    method FlushQuads()
      requires Valid()
      modifies this`stats, this`trace, this`quadsCount, this`texturesCount, usedTextures
      ensures Valid()
      ensures old(quadsCount) == 0 ==>
                trace == old(trace) && stats == old(stats) && texturesCount == old(texturesCount) &&
                usedTextures[..] == old(usedTextures[..])
      ensures old(quadsCount) > 0 ==>
                && trace == old(trace) + [old(PendingQuads())]
                && quadsCount == 0 && texturesCount == 0
                && stats == old(stats).(drawCalls := Wrap(old(stats.drawCalls) + 1),
                                        numQuads := Wrap(old(stats.numQuads) + old(quadsCount)))
                && (forall i :: 0 <= i < old(texturesCount) ==> usedTextures[i] == Null)
                && (forall i :: old(texturesCount) <= i < MAX_TEXTURE_SLOTS ==> usedTextures[i] == old(usedTextures[i]))
      ensures old(quadsCount) == 0 ==> quadsCount == 0
    {
      if quadsCount > 0 {
        ghost var pending := PendingQuads();
        var bound: seq<TextureRef> := [];
        for i := 0 to texturesCount
          invariant unchanged(this)
          invariant bound == old(usedTextures[..i])
          invariant forall j :: 0 <= j < i ==> usedTextures[j] == Null
          invariant forall j :: i <= j < MAX_TEXTURE_SLOTS ==> usedTextures[j] == old(usedTextures[j])
        {
          bound := bound + [usedTextures[i]];
          usedTextures[i] := Null;
        }
        var vertices := quadsVD[..4 * quadsCount];
        trace := trace + [QuadBatch(bound, samplers[..textureSlots], vertices, 4 * quadsCount * QuadVertexSize, 6 * quadsCount)];
        stats := stats.(drawCalls := Wrap(stats.drawCalls + 1));
        stats := stats.(numQuads := Wrap(stats.numQuads + quadsCount));
        assert trace[|trace| - 1] == pending;
        quadsCount := 0;
        texturesCount := 0;
      }
    }

    /** Draws the pending circles, if any, counting one draw call and the
        circles, and empties the circle batch. */
    method FlushCircles()
      requires Valid()
      modifies this`stats, this`trace, this`circlesCount
      ensures Valid()
      ensures old(circlesCount) == 0 ==> trace == old(trace) && stats == old(stats) && circlesCount == 0
      ensures old(circlesCount) > 0 ==>
                && trace == old(trace) + [old(PendingCircles())]
                && circlesCount == 0
                && stats == old(stats).(drawCalls := Wrap(old(stats.drawCalls) + 1),
                                        numCircles := Wrap(old(stats.numCircles) + old(circlesCount)))
    {
      if circlesCount > 0 {
        var vertices := circlesVD[..4 * circlesCount];
        trace := trace + [CircleBatch(vertices, 4 * circlesCount * CircleVertexSize, 6 * circlesCount)];
        stats := stats.(drawCalls := Wrap(stats.drawCalls + 1));
        stats := stats.(numCircles := Wrap(stats.numCircles + circlesCount));
        circlesCount := 0;
      }
    }

    /** Both flushes, quads first. */
    method Flush()
      requires Valid()
      modifies this`stats, this`trace, this`quadsCount, this`texturesCount, this`circlesCount, usedTextures
      ensures Valid()
      ensures quadsCount == 0 && circlesCount == 0
      ensures trace == old(trace)
                       + (if old(quadsCount) > 0 then [old(PendingQuads())] else [])
                       + (if old(circlesCount) > 0 then [old(PendingCircles())] else [])
      ensures stats.drawCalls == Wrap(old(stats.drawCalls) + (if old(quadsCount) > 0 then 1 else 0) + (if old(circlesCount) > 0 then 1 else 0))
      ensures stats.numQuads == Wrap(old(stats.numQuads) + old(quadsCount))
      ensures stats.numCircles == Wrap(old(stats.numCircles) + old(circlesCount))
    {
      ghost var circles := PendingCircles();
      FlushQuads();
      assert PendingCircles() == circles;
      FlushCircles();
    }

    /** Looks a texture up among the batch's textures: its first slot, or -1. */
    method FindTextureSlot(texture: TextureRef) returns (slot: int)
      requires Valid()
      ensures slot == IndexOf(usedTextures[..texturesCount], texture)
    {
      slot := -1;
      var i := 0;
      while i < texturesCount
        invariant 0 <= i <= texturesCount
        invariant texture !in usedTextures[..i]
      {
        if texture == usedTextures[i] {
          slot := i;
          IndexOfUnique(usedTextures[..texturesCount], texture, i);
          return;
        }
        assert usedTextures[..i + 1] == usedTextures[..i] + [usedTextures[i]];
        i := i + 1;
      }
      assert usedTextures[..i] == usedTextures[..texturesCount];
    }

    /** Adds a textured quad to the batch. A null texture draws nothing. The
        batch is flushed first when it is full or every texture slot is in use;
        the texture then gets its existing slot or the next free one, and the
        quad's four vertices, at 4 * quadsCount, carry that slot. */
    method DrawQuad(texture: TextureRef, color: Rgba)
      requires Valid()
      modifies this`stats, this`trace, this`quadsCount, this`texturesCount, usedTextures, quadsVD
      ensures Valid()
      ensures texture == Null ==>
                && quadsCount == old(quadsCount) && texturesCount == old(texturesCount)
                && trace == old(trace) && stats == old(stats)
                && usedTextures[..] == old(usedTextures[..]) && quadsVD[..] == old(quadsVD[..])
      ensures texture != Null ==>
                var flushed := old(quadsCount) >= MAX_QUADS || old(texturesCount) >= textureSlots;
                var kept := if flushed then [] else old(usedTextures[..texturesCount]);
                var q := if flushed then 0 else old(quadsCount);
                && trace == old(trace) + (if flushed then [old(PendingQuads())] else [])
                && stats == (if flushed then old(stats).(drawCalls := Wrap(old(stats.drawCalls) + 1),
                                                         numQuads := Wrap(old(stats.numQuads) + old(quadsCount)))
                             else old(stats))
                && usedTextures[..texturesCount] == WithTexture(kept, texture)
                && quadsCount == q + 1
                && (forall j :: 0 <= j < 4 ==> quadsVD[4 * q + j] == QuadVertex(SlotFor(kept, texture), Uvs[j], color))
                && (forall k :: 0 <= k < 4 * q ==> quadsVD[k] == old(quadsVD[k]))
    {
      if texture == Null {
        return;
      }
      if quadsCount >= MAX_QUADS || texturesCount >= textureSlots {
        FlushQuads();
        assert usedTextures[..texturesCount] == [];
      }
      AddQuad(texture, color);
    }

    /** DrawQuad once the batch has room: the texture's slot is allocated and
        the quad's four vertices are written after the pending ones. */
    method AddQuad(texture: TextureRef, color: Rgba)
      requires Valid() && texture != Null
      requires quadsCount < MAX_QUADS && texturesCount < textureSlots
      modifies this`quadsCount, this`texturesCount, usedTextures, quadsVD
      ensures Valid()
      ensures usedTextures[..texturesCount] == WithTexture(old(usedTextures[..texturesCount]), texture)
      ensures quadsCount == old(quadsCount) + 1
      ensures forall j :: 0 <= j < 4 ==>
                quadsVD[4 * old(quadsCount) + j] == QuadVertex(SlotFor(old(usedTextures[..texturesCount]), texture), Uvs[j], color)
      ensures forall k :: 0 <= k < 4 * old(quadsCount) ==> quadsVD[k] == old(quadsVD[k])
    {
      ghost var kept := usedTextures[..texturesCount];
      ghost var q := quadsCount;
      ghost var before := quadsVD[..];
      assert forall v :: 0 <= v < 4 * q ==> 0 <= before[v].textureId < |kept|;
      var slot := AllocateTextureSlot(texture);
      WriteQuadVertices(quadsCount * 4, slot, color);
      assert forall v :: 0 <= v < 4 * (q + 1) ==> 0 <= quadsVD[v].textureId < texturesCount by {
        forall v | 0 <= v < 4 * (q + 1)
          ensures 0 <= quadsVD[v].textureId < texturesCount
        {
          if v < 4 * q {
            assert quadsVD[v] == before[v];
          } else {
            assert quadsVD[q * 4 + (v - 4 * q)] == QuadVertex(slot, Uvs[v - 4 * q], color);
          }
        }
      }
      quadsCount := quadsCount + 1;
    }

    /** The slot lookup of DrawQuad: the texture's existing slot, or the next
        one, where the texture is then stored. */
    method AllocateTextureSlot(texture: TextureRef) returns (slot: nat)
      requires Valid() && texture != Null && texturesCount < textureSlots
      modifies this`texturesCount, usedTextures
      ensures old(texturesCount) <= texturesCount <= old(texturesCount) + 1
      ensures slot < texturesCount <= textureSlots
      ensures slot == SlotFor(old(usedTextures[..texturesCount]), texture)
      ensures usedTextures[..texturesCount] == WithTexture(old(usedTextures[..texturesCount]), texture)
      ensures Distinct(usedTextures[..texturesCount]) && Null !in usedTextures[..texturesCount]
    {
      ghost var kept := usedTextures[..texturesCount];
      SlotAllocation(kept, texture);
      var found := FindTextureSlot(texture);
      if found == -1 {
        usedTextures[texturesCount] := texture;
        slot := texturesCount;
        texturesCount := texturesCount + 1;
        assert usedTextures[..texturesCount] == kept + [texture];
      } else {
        slot := found;
      }
    }

    /** The four vertices of quad number `i / 4`, all with the same slot. */
    method WriteQuadVertices(i: nat, slot: nat, color: Rgba)
      requires i + 4 <= quadsVD.Length
      modifies quadsVD
      ensures forall j :: 0 <= j < 4 ==> quadsVD[i + j] == QuadVertex(slot, Uvs[j], color)
      ensures forall k :: 0 <= k < quadsVD.Length && !(i <= k < i + 4) ==> quadsVD[k] == old(quadsVD[k])
    {
      for j := 0 to 4
        invariant forall m :: 0 <= m < j ==> quadsVD[i + m] == QuadVertex(slot, Uvs[m], color)
        invariant forall k :: 0 <= k < quadsVD.Length && !(i <= k < i + j) ==> quadsVD[k] == old(quadsVD[k])
      {
        quadsVD[i + j] := QuadVertex(slot, Uvs[j], color);
      }
    }

    /** Adds a circle to the batch, flushing the circles first when the batch
        is full. */
    method DrawCircle(thickness: real, color: Rgba)
      requires Valid()
      modifies this`stats, this`trace, this`circlesCount, circlesVD
      ensures Valid()
      ensures var flushed := old(circlesCount) >= MAX_CIRCLES;
              var c := if flushed then 0 else old(circlesCount);
              && trace == old(trace) + (if flushed then [old(PendingCircles())] else [])
              && stats == (if flushed then old(stats).(drawCalls := Wrap(old(stats.drawCalls) + 1),
                                                       numCircles := Wrap(old(stats.numCircles) + old(circlesCount)))
                           else old(stats))
              && circlesCount == c + 1
              && (forall j :: 0 <= j < 4 ==> circlesVD[4 * c + j] == CircleVertex(Uvs[j], thickness, color))
              && (forall k :: 0 <= k < 4 * c ==> circlesVD[k] == old(circlesVD[k]))
    {
      if circlesCount >= MAX_CIRCLES {
        FlushCircles();
      }
      ghost var before := circlesVD[..];
      var i := circlesCount * 4;
      label Fill:
      for j := 0 to 4
        invariant unchanged@Fill(this)
        invariant forall m :: 0 <= m < j ==> circlesVD[i + m] == CircleVertex(Uvs[m], thickness, color)
        invariant forall k :: 0 <= k < circlesVD.Length && !(i <= k < i + j) ==> circlesVD[k] == before[k]
      {
        circlesVD[i + j] := CircleVertex(Uvs[j], thickness, color);
      }
      circlesCount := circlesCount + 1;
    }
  }

  /** A quad batch's draw call never reads past the uploaded vertices nor past
      the index buffer: its indices are within the first 4n vertices and its
      index count is at most 6 * MAX_QUADS. */
  lemma QuadBatchInRange(textures: seq<TextureRef>, samplers: seq<int>, vertices: seq<QuadVertex>, k: nat)
    requires |vertices| % 4 == 0 && |vertices| <= 4 * MAX_QUADS
    requires k < QuadBatchOf(textures, samplers, vertices).indexCount
    ensures IndexPattern(k) < |vertices|
    ensures QuadBatchOf(textures, samplers, vertices).indexCount <= 6 * MAX_QUADS
  {
    DrawnIndicesInRange(|vertices| / 4, k);
  }
}
