/** The framebuffer: how `Create` splits a specification's attachments into
    colour attachments and one depth attachment, which GL internal formats
    and draw buffers it selects, the bounds-checked colour-attachment getter,
    and move semantics. Ids that GL generates are parameters. */
module Framebuffer {

  const GL_NONE: nat := 0
  const GL_RGBA8: nat := 0x8058
  const GL_RGBA32F: nat := 0x8814
  const GL_COLOR_ATTACHMENT0: nat := 0x8CE0

  /** The size of the table of draw buffers `Create` passes to GL. */
  const MAX_DRAW_BUFFERS: nat := 16

  type UInt32 = x: int | 0 <= x < 0x1_0000_0000

  /** `FramebufferTextureFormat`; an attachment specification holds only a
      format. */
  datatype TextureFormat = None | RGBA32F | RGBA8 | Depth

  datatype Specification = Specification(width: UInt32, height: UInt32, attachments: seq<TextureFormat>)

  /** The attachments that become colour attachments, in order: every one
      that is not Depth, None included. */
  function ColorSpecs(attachments: seq<TextureFormat>): seq<TextureFormat>
  {
    if attachments == [] then []
    else
      var init, a := attachments[..|attachments| - 1], attachments[|attachments| - 1];
      if a == Depth then ColorSpecs(init) else ColorSpecs(init) + [a]
  }

  /** The Depth entries of a list of attachments. */
  function DepthSpecs(attachments: seq<TextureFormat>): seq<TextureFormat>
  {
    if attachments == [] then []
    else
      var init, a := attachments[..|attachments| - 1], attachments[|attachments| - 1];
      if a == Depth then DepthSpecs(init) + [a] else DepthSpecs(init)
  }

  /** The depth attachment specification after the partition: the last
      Depth entry, or the default (None) when there is none. */
  function DepthSpec(attachments: seq<TextureFormat>): TextureFormat
  {
    if attachments == [] then None
    else if attachments[|attachments| - 1] == Depth then Depth
    else DepthSpec(attachments[..|attachments| - 1])
  }

  /** The partition loses and invents nothing: colour and depth entries
      together are the attachments; no colour entry is Depth; there is a
      depth attachment exactly when some entry is Depth. */
  lemma {:induction false} AttachmentPartition(attachments: seq<TextureFormat>)
    ensures multiset(ColorSpecs(attachments)) + multiset(DepthSpecs(attachments)) == multiset(attachments)
    ensures Depth !in ColorSpecs(attachments)
    ensures DepthSpec(attachments) == Depth <==> Depth in attachments
    ensures DepthSpec(attachments) != Depth ==> ColorSpecs(attachments) == attachments
  {
    if attachments != [] {
      var init := attachments[..|attachments| - 1];
      AttachmentPartition(init);
      assert attachments == init + [attachments[|attachments| - 1]];
    }
  }

  /** The internal format of a colour attachment: RGBA32F for RGBA32F and
      RGBA8 for anything else. */
  function InternalFormat(format: TextureFormat): nat
  {
    if format == RGBA32F then GL_RGBA32F else GL_RGBA8
  }

  /** One colour attachment as created: where it is attached, its internal
      format and its texture id. */
  datatype ColorTarget = ColorTarget(attachmentPoint: nat, internalFormat: nat, textureId: nat)

  /** The draw-buffer call `Create` makes, if any. */
  datatype DrawBufferCall = NoDrawBufferCall | DrawBuffers(buffers: seq<nat>) | DrawBuffer(buffer: nat)

  /** Which draw buffers `Create` selects for `count` colour attachments. */
  function DrawBufferChoice(count: nat): DrawBufferCall
    requires count <= MAX_DRAW_BUFFERS
  {
    if count > 1 then DrawBuffers(seq(count, i => GL_COLOR_ATTACHMENT0 + i))
    else if count == 0 then DrawBuffer(GL_NONE)
    else NoDrawBufferCall
  }

  /** Several colour attachments are all drawn to, each at its own
      attachment point in order; a depth-only framebuffer draws no colour;
      a single colour attachment keeps GL's default. */
  lemma DrawBufferChoiceFacts(count: nat)
    requires count <= MAX_DRAW_BUFFERS
    ensures count > 1 ==> DrawBufferChoice(count).DrawBuffers? && |DrawBufferChoice(count).buffers| == count
    ensures count > 1 ==> forall i :: 0 <= i < count ==> DrawBufferChoice(count).buffers[i] == GL_COLOR_ATTACHMENT0 + i
    ensures DrawBufferChoice(count) == DrawBuffer(GL_NONE) <==> count == 0
    ensures DrawBufferChoice(count) == NoDrawBufferCall <==> count == 1
  {
  }

  /** What `Create` asks GL to delete before rebuilding. */
  datatype Deleted = Deleted(framebuffer: nat, textures: seq<nat>)

  class Framebuffer {
    var id: nat
    var specification: Specification
    var colorAttachmentSpecifications: seq<TextureFormat>
    var depthAttachmentSpecification: TextureFormat
    var colorAttachments: seq<nat>
    var depthAttachment: nat

    /** The default framebuffer: ids 0, size 0 by 0, no attachments. */
    constructor ()
      ensures id == 0 && depthAttachment == 0
      ensures specification == Specification(0, 0, [])
      ensures colorAttachmentSpecifications == [] && depthAttachmentSpecification == None && colorAttachments == []
    {
      id := 0;
      depthAttachment := 0;
      specification := Specification(0, 0, []);
      colorAttachmentSpecifications := [];
      depthAttachmentSpecification := None;
      colorAttachments := [];
    }

    /** `Framebuffer(specification)`: a default framebuffer, then `Create`. */
    constructor FromSpecification(spec: Specification, framebufferId: nat, colorIds: seq<nat>, depthId: nat, statusOf: nat -> bool)
      requires |ColorSpecs(spec.attachments)| <= MAX_DRAW_BUFFERS
      requires |colorIds| == |ColorSpecs(spec.attachments)|
      ensures Built(spec, framebufferId, colorIds, depthId)
    {
      id := 0;
      depthAttachment := 0;
      specification := Specification(0, 0, []);
      colorAttachmentSpecifications := [];
      depthAttachmentSpecification := None;
      colorAttachments := [];
      new;
      var complete, targets, drawCall, deleted := Create(spec, framebufferId, colorIds, depthId, statusOf);
    }

    /** The state `Create` leaves behind for a specification, given the ids
        GL generated. */
    ghost predicate Built(spec: Specification, framebufferId: nat, colorIds: seq<nat>, depthId: nat)
      reads this
    {
      && specification == spec
      && id == framebufferId
      && colorAttachmentSpecifications == ColorSpecs(spec.attachments)
      && depthAttachmentSpecification == DepthSpec(spec.attachments)
      && colorAttachments == colorIds
      && depthAttachment == (if DepthSpec(spec.attachments) != None then depthId else 0)
    }

    /** What `Destroy` deletes: the framebuffer, the colour attachments and
        the depth attachment. The fields keep their values. */
    method Destroy() returns (deleted: Deleted)
      ensures deleted == Deleted(id, colorAttachments + [depthAttachment])
    {
      deleted := Deleted(id, colorAttachments + [depthAttachment]);
    }

    /** The building steps of `Create`. It deletes what it held, partitions
        the attachments, creates one colour attachment per colour
        specification (at attachment point i, with texture `colorIds[i]`) and
        a depth attachment when the depth specification is not None, and
        selects the draw buffers; the framebuffer is still bound. */
    method Build(spec: Specification, framebufferId: nat, colorIds: seq<nat>, depthId: nat)
      returns (targets: seq<ColorTarget>, drawCall: DrawBufferCall, deleted: Deleted)
      requires |ColorSpecs(spec.attachments)| <= MAX_DRAW_BUFFERS
      requires |colorIds| == |ColorSpecs(spec.attachments)|
      modifies this
      ensures deleted == Deleted(old(id), old(colorAttachments) + [old(depthAttachment)])
      ensures Built(spec, framebufferId, colorIds, depthId)
      ensures |targets| == |colorIds|
      ensures forall i :: 0 <= i < |targets| ==>
                targets[i] == ColorTarget(GL_COLOR_ATTACHMENT0 + i, InternalFormat(ColorSpecs(spec.attachments)[i]), colorIds[i])
      ensures drawCall == DrawBufferChoice(|colorIds|)
    {
      deleted := Destroy();
      colorAttachmentSpecifications := [];
      colorAttachments := [];
      depthAttachmentSpecification := None;
      depthAttachment := 0;
      specification := spec;
      var attachments := spec.attachments;
      for i := 0 to |attachments|
        invariant colorAttachmentSpecifications == ColorSpecs(attachments[..i])
        invariant depthAttachmentSpecification == DepthSpec(attachments[..i])
        invariant specification == spec && colorAttachments == [] && depthAttachment == 0
      {
        assert attachments[..i + 1][..i] == attachments[..i];
        if attachments[i] == Depth {
          depthAttachmentSpecification := attachments[i];
        } else {
          colorAttachmentSpecifications := colorAttachmentSpecifications + [attachments[i]];
        }
      }
      assert attachments[..|attachments|] == attachments;
      id := framebufferId;
      targets := [];
      if |colorAttachmentSpecifications| > 0 {
        colorAttachments := colorIds;
        label Filling:
        for i := 0 to |colorAttachments|
          invariant unchanged@Filling(this)
          invariant |targets| == i
          invariant forall k :: 0 <= k < i ==>
                      targets[k] == ColorTarget(GL_COLOR_ATTACHMENT0 + k, InternalFormat(colorAttachmentSpecifications[k]), colorIds[k])
        {
          var format := if colorAttachmentSpecifications[i] == RGBA32F then GL_RGBA32F else GL_RGBA8;
          targets := targets + [ColorTarget(GL_COLOR_ATTACHMENT0 + i, format, colorAttachments[i])];
        }
      }
      if depthAttachmentSpecification != None {
        depthAttachment := depthId;
      }
      drawCall := NoDrawBufferCall;
      if |colorAttachments| > 1 {
        var colorBuffers := new nat[MAX_DRAW_BUFFERS];
        label Listing:
        for i := 0 to MAX_DRAW_BUFFERS
          invariant unchanged@Listing(this)
          invariant forall k :: 0 <= k < i ==> colorBuffers[k] == GL_COLOR_ATTACHMENT0 + k
        {
          colorBuffers[i] := GL_COLOR_ATTACHMENT0 + i;
        }
        drawCall := DrawBuffers(colorBuffers[..|colorAttachments|]);
      } else if |colorAttachments| == 0 {
        drawCall := DrawBuffer(GL_NONE);
      }
    }

    /** `Create` as the source has it: after building, the default
        framebuffer 0 is bound again before the completeness query, so the
        answer (`statusOf` gives it per bound framebuffer) is framebuffer 0's,
        not the new framebuffer's. */
    method CreateAsWritten(spec: Specification, framebufferId: nat, colorIds: seq<nat>, depthId: nat, statusOf: nat -> bool)
      returns (complete: bool, targets: seq<ColorTarget>, drawCall: DrawBufferCall, deleted: Deleted)
      requires |ColorSpecs(spec.attachments)| <= MAX_DRAW_BUFFERS
      requires |colorIds| == |ColorSpecs(spec.attachments)|
      modifies this
      ensures deleted == Deleted(old(id), old(colorAttachments) + [old(depthAttachment)])
      ensures Built(spec, framebufferId, colorIds, depthId)
      ensures |targets| == |colorIds|
      ensures forall i :: 0 <= i < |targets| ==>
                targets[i] == ColorTarget(GL_COLOR_ATTACHMENT0 + i, InternalFormat(ColorSpecs(spec.attachments)[i]), colorIds[i])
      ensures drawCall == DrawBufferChoice(|colorIds|)
      ensures complete == statusOf(0)
    {
      targets, drawCall, deleted := Build(spec, framebufferId, colorIds, depthId);
      var bound := 0;
      complete := statusOf(bound);
    }

    /** (Re)builds the framebuffer and reports whether the new framebuffer is
        complete: the completeness query runs while it is still bound, and
        the default framebuffer is bound afterwards. */
    method Create(spec: Specification, framebufferId: nat, colorIds: seq<nat>, depthId: nat, statusOf: nat -> bool)
      returns (complete: bool, targets: seq<ColorTarget>, drawCall: DrawBufferCall, deleted: Deleted)
      requires |ColorSpecs(spec.attachments)| <= MAX_DRAW_BUFFERS
      requires |colorIds| == |ColorSpecs(spec.attachments)|
      modifies this
      ensures deleted == Deleted(old(id), old(colorAttachments) + [old(depthAttachment)])
      ensures Built(spec, framebufferId, colorIds, depthId)
      ensures |targets| == |colorIds|
      ensures forall i :: 0 <= i < |targets| ==>
                targets[i] == ColorTarget(GL_COLOR_ATTACHMENT0 + i, InternalFormat(ColorSpecs(spec.attachments)[i]), colorIds[i])
      ensures drawCall == DrawBufferChoice(|colorIds|)
      ensures complete == statusOf(framebufferId)
    {
      targets, drawCall, deleted := Build(spec, framebufferId, colorIds, depthId);
      complete := statusOf(id);
    }

    /** The id of colour attachment `index`, or 0 for an index out of
        range. */
    function GetColorAttachmentId(index: int): (r: nat)
      reads this
      ensures 0 <= index < |colorAttachments| ==> r == colorAttachments[index]
      ensures !(0 <= index < |colorAttachments|) ==> r == 0
    {
      if 0 <= index < |colorAttachments| then colorAttachments[index] else 0
    }

    /** The move constructor as the source has it: id, depth attachment and
        specifications move over and the other framebuffer's id and depth
        fields are zeroed, but the colour-attachment ids stay behind. */
    constructor MoveAsWritten(other: Framebuffer)
      modifies other
      ensures id == old(other.id) && depthAttachment == old(other.depthAttachment)
      ensures specification == old(other.specification)
      ensures colorAttachmentSpecifications == old(other.colorAttachmentSpecifications)
      ensures depthAttachmentSpecification == old(other.depthAttachmentSpecification)
      ensures colorAttachments == []
      ensures other.id == 0 && other.depthAttachment == 0 && other.depthAttachmentSpecification == None
      ensures other.colorAttachments == old(other.colorAttachments)
    {
      id := other.id;
      depthAttachment := other.depthAttachment;
      specification := other.specification;
      colorAttachmentSpecifications := other.colorAttachmentSpecifications;
      depthAttachmentSpecification := other.depthAttachmentSpecification;
      colorAttachments := [];
      new;
      other.specification := Specification(other.specification.width, other.specification.height, []);
      other.colorAttachmentSpecifications := [];
      other.id := 0;
      other.depthAttachment := 0;
      other.depthAttachmentSpecification := None;
    }

    /** The move constructor with the colour-attachment ids moved as well:
        everything the other framebuffer owned is now owned here, and it keeps
        no id of its own. */
    constructor Move(other: Framebuffer)
      modifies other
      ensures id == old(other.id) && depthAttachment == old(other.depthAttachment)
      ensures specification == old(other.specification)
      ensures colorAttachmentSpecifications == old(other.colorAttachmentSpecifications)
      ensures depthAttachmentSpecification == old(other.depthAttachmentSpecification)
      ensures colorAttachments == old(other.colorAttachments)
      ensures other.id == 0 && other.depthAttachment == 0 && other.depthAttachmentSpecification == None
      ensures other.colorAttachments == []
    {
      id := other.id;
      depthAttachment := other.depthAttachment;
      specification := other.specification;
      colorAttachmentSpecifications := other.colorAttachmentSpecifications;
      depthAttachmentSpecification := other.depthAttachmentSpecification;
      colorAttachments := other.colorAttachments;
      new;
      other.specification := Specification(other.specification.width, other.specification.height, []);
      other.colorAttachmentSpecifications := [];
      other.colorAttachments := [];
      other.id := 0;
      other.depthAttachment := 0;
      other.depthAttachmentSpecification := None;
    }

    /** Move assignment as the source has it: unless assigned to itself, it
        deletes what it held and takes over as `MoveAsWritten` does, so it
        keeps its own colour-attachment ids, whose textures it has just
        deleted. */
    method MoveAssignAsWritten(other: Framebuffer) returns (deleted: seq<Deleted>)
      modifies this, other
      ensures other == this ==> deleted == [] && unchanged(this)
      ensures other != this ==>
                && deleted == [Deleted(old(id), old(colorAttachments) + [old(depthAttachment)])]
                && id == old(other.id) && depthAttachment == old(other.depthAttachment)
                && specification == old(other.specification)
                && colorAttachmentSpecifications == old(other.colorAttachmentSpecifications)
                && depthAttachmentSpecification == old(other.depthAttachmentSpecification)
                && colorAttachments == old(colorAttachments)
                && other.id == 0 && other.depthAttachment == 0 && other.depthAttachmentSpecification == None
                && other.colorAttachments == old(other.colorAttachments)
    {
      deleted := [];
      if this != other {
        var d := Destroy();
        deleted := [d];
        id := other.id;
        depthAttachment := other.depthAttachment;
        specification := other.specification;
        colorAttachmentSpecifications := other.colorAttachmentSpecifications;
        depthAttachmentSpecification := other.depthAttachmentSpecification;
        other.specification := Specification(other.specification.width, other.specification.height, []);
        other.colorAttachmentSpecifications := [];
        other.id := 0;
        other.depthAttachment := 0;
        other.depthAttachmentSpecification := None;
      }
    }

    /** Move assignment with the colour-attachment ids moved as well. */
    method MoveAssign(other: Framebuffer) returns (deleted: seq<Deleted>)
      modifies this, other
      ensures other == this ==> deleted == [] && unchanged(this)
      ensures other != this ==>
                && deleted == [Deleted(old(id), old(colorAttachments) + [old(depthAttachment)])]
                && id == old(other.id) && depthAttachment == old(other.depthAttachment)
                && specification == old(other.specification)
                && colorAttachmentSpecifications == old(other.colorAttachmentSpecifications)
                && depthAttachmentSpecification == old(other.depthAttachmentSpecification)
                && colorAttachments == old(other.colorAttachments)
                && other.id == 0 && other.depthAttachment == 0 && other.depthAttachmentSpecification == None
                && other.colorAttachments == []
    {
      deleted := [];
      if this != other {
        var d := Destroy();
        deleted := [d];
        id := other.id;
        depthAttachment := other.depthAttachment;
        specification := other.specification;
        colorAttachmentSpecifications := other.colorAttachmentSpecifications;
        depthAttachmentSpecification := other.depthAttachmentSpecification;
        colorAttachments := other.colorAttachments;
        other.specification := Specification(other.specification.width, other.specification.height, []);
        other.colorAttachmentSpecifications := [];
        other.colorAttachments := [];
        other.id := 0;
        other.depthAttachment := 0;
        other.depthAttachmentSpecification := None;
      }
    }
  }

  /** The static `Bind`: the framebuffer bound is the given one's, or the
      default framebuffer 0 for a null pointer. */
  method Bind(framebuffer: Framebuffer?) returns (bound: nat)
    ensures framebuffer == null ==> bound == 0
    ensures framebuffer != null ==> bound == framebuffer.id
  {
    if framebuffer != null {
      bound := framebuffer.id;
    } else {
      bound := 0;
    }
  }

  /** Building a framebuffer that the driver finds incomplete while the
      default framebuffer is complete: the source's `Create` reports success. */
  method CreateAsWrittenReportsDefaultFramebuffer() returns (reported: bool, newFramebufferComplete: bool)
    ensures reported && !newFramebufferComplete
  {
    var fb := new Framebuffer();
    var statusOf := (bound: nat) => bound == 0;
    assert ColorSpecs([RGBA8]) == [RGBA8];
    var targets, drawCall, deleted;
    reported, targets, drawCall, deleted := fb.CreateAsWritten(Specification(1, 1, [RGBA8]), 1, [7], 2, statusOf);
    newFramebufferComplete := statusOf(fb.id);
  }

  /** The corrected `Create` on the same driver reports the failure. */
  method CreateReportsNewFramebuffer() returns (reported: bool, newFramebufferComplete: bool)
    ensures !reported && !newFramebufferComplete
  {
    var fb := new Framebuffer();
    var statusOf := (bound: nat) => bound == 0;
    assert ColorSpecs([RGBA8]) == [RGBA8];
    var targets, drawCall, deleted;
    reported, targets, drawCall, deleted := fb.Create(Specification(1, 1, [RGBA8]), 1, [7], 2, statusOf);
    newFramebufferComplete := statusOf(fb.id);
  }

  /** A framebuffer with one RGBA8 colour attachment (texture 7), moved with
      the source's move constructor: before the move its attachment id is 7,
      after it the new framebuffer reports 0, while the moved-from one still
      holds 7 and deletes that texture when it is destroyed. */
  method MoveAsWrittenLosesColorAttachment() returns (before: nat, after: nat, stillOwned: seq<nat>)
    ensures before == 7 && after == 0 && stillOwned == [7]
  {
    var fb := new Framebuffer();
    assert ColorSpecs([RGBA8]) == [RGBA8];
    var complete, targets, drawCall, deleted := fb.Create(Specification(1, 1, [RGBA8]), 1, [7], 2, _ => true);
    before := fb.GetColorAttachmentId(0);
    var moved := new Framebuffer.MoveAsWritten(fb);
    after := moved.GetColorAttachmentId(0);
    stillOwned := fb.colorAttachments;
  }

  /** The same framebuffer moved with the corrected move constructor keeps
      its attachment, and the moved-from one no longer owns it. */
  method MoveKeepsColorAttachment() returns (before: nat, after: nat, stillOwned: seq<nat>)
    ensures before == 7 && after == 7 && stillOwned == []
  {
    var fb := new Framebuffer();
    assert ColorSpecs([RGBA8]) == [RGBA8];
    var complete, targets, drawCall, deleted := fb.Create(Specification(1, 1, [RGBA8]), 1, [7], 2, _ => true);
    before := fb.GetColorAttachmentId(0);
    var moved := new Framebuffer.Move(fb);
    after := moved.GetColorAttachmentId(0);
    stillOwned := fb.colorAttachments;
  }
  /** Move assignment as the source has it, from a framebuffer with texture 9
      into one with texture 7: the target deletes texture 7 and still reports
      it as its attachment, and texture 9 is reachable only through the
      moved-from framebuffer. */
  method MoveAssignAsWrittenKeepsDeletedId() returns (after: nat, deletedTextures: seq<nat>, stillOwned: seq<nat>)
    ensures after == 7 && 7 in deletedTextures && stillOwned == [9]
  {
    var target := new Framebuffer();
    var source := new Framebuffer();
    assert ColorSpecs([RGBA8]) == [RGBA8];
    var c1, t1, d1, x1 := target.Create(Specification(1, 1, [RGBA8]), 1, [7], 2, _ => true);
    var c2, t2, d2, x2 := source.Create(Specification(1, 1, [RGBA8]), 3, [9], 4, _ => true);
    var deleted := target.MoveAssignAsWritten(source);
    after := target.GetColorAttachmentId(0);
    deletedTextures := deleted[0].textures;
    stillOwned := source.colorAttachments;
  }

  /** The corrected move assignment on the same framebuffers: the target now
      reports texture 9 and the moved-from framebuffer owns nothing. */
  method MoveAssignTransfersColorAttachment() returns (after: nat, deletedTextures: seq<nat>, stillOwned: seq<nat>)
    ensures after == 9 && 7 in deletedTextures && stillOwned == []
  {
    var target := new Framebuffer();
    var source := new Framebuffer();
    assert ColorSpecs([RGBA8]) == [RGBA8];
    var c1, t1, d1, x1 := target.Create(Specification(1, 1, [RGBA8]), 1, [7], 2, _ => true);
    var c2, t2, d2, x2 := source.Create(Specification(1, 1, [RGBA8]), 3, [9], 4, _ => true);
    var deleted := target.MoveAssign(source);
    after := target.GetColorAttachmentId(0);
    deletedTextures := deleted[0].textures;
    stillOwned := source.colorAttachments;
  }
}
