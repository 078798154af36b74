/** The compute shader: the whole file is one compute stage; loading,
    the uniform cache and setters (without a texture setter), binding through
    a possibly null pointer, and move semantics. The GL driver's answers are
    parameters. */
module ComputeShader {
  import opened Lines
  import opened UniformCache

  /** The code of a compute shader file: every line followed by a newline; a
      file that does not open gives the empty string. */
  function ComputeCode(file: SourceFile): string
  {
    match file
    case Unopenable => ""
    case Lines(lines) => JoinLines(lines)
  }

  /** The line loop of ParseComputeShader. */
  method ParseComputeShader(file: SourceFile) returns (code: string)
    ensures code == ComputeCode(file)
  {
    code := "";
    if file.Lines? {
      var lines := file.lines;
      for i := 0 to |lines|
        invariant code == JoinLines(lines[..i])
      {
        assert lines[..i + 1][..i] == lines[..i];
        code := code + lines[i] + "\n";
      }
      assert lines[..|lines|] == lines;
    }
  }

  /** The code is empty exactly when the file does not open or has no lines,
      and the lines read back from it are the file's lines. */
  lemma ComputeCodeFacts(file: SourceFile)
    ensures ComputeCode(file) == "" <==> file.Unopenable? || file.lines == []
    ensures file.Lines? && AllNoNewline(file.lines) ==> SplitLines(ComputeCode(file)) == (file.lines, "")
  {
    if file.Lines? {
      JoinLinesEmpty(file.lines);
      if AllNoNewline(file.lines) {
        JoinLinesSplit(file.lines, "");
        assert JoinLines(file.lines) + "" == JoinLines(file.lines);
      }
    }
  }

  /** Whether `Load` creates a program: the code is not empty and compiles
      (a compile result of 0 is a failure). */
  predicate ComputeLoadSucceeds(file: SourceFile, computeShaderId: nat)
  {
    ComputeCode(file) != "" && computeShaderId != 0
  }

  /** The program id after `Load`, starting from `priorId`: unlike the render
      shader, a failed load does not reset the id. */
  function IdAfterLoad(priorId: nat, file: SourceFile, computeShaderId: nat, programId: nat): nat
  {
    if ComputeLoadSucceeds(file, computeShaderId) then programId else priorId
  }

  /** Constructing from a path runs `Load` on a member id that nothing has
      initialised. With a file that does not open, the shader then keeps
      whatever value was there, so a shader whose load failed can report a
      program id other than 0. */
  lemma UninitialisedIdSurvivesFailedLoad(uninitialisedId: nat, computeShaderId: nat, programId: nat)
    requires uninitialisedId != 0
    ensures !ComputeLoadSucceeds(Unopenable, computeShaderId)
    ensures IdAfterLoad(uninitialisedId, Unopenable, computeShaderId, programId) == uninitialisedId
    ensures IdAfterLoad(uninitialisedId, Unopenable, computeShaderId, programId) != 0
  {
  }

  /** Once the member id starts at 0, as the default constructor has it,
      the id after a load is 0 exactly when no program was created (given that
      the driver never hands out program 0). */
  lemma InitialisedIdAfterLoad(file: SourceFile, computeShaderId: nat, programId: nat)
    requires programId != 0
    ensures IdAfterLoad(0, file, computeShaderId, programId) == 0 <==> !ComputeLoadSucceeds(file, computeShaderId)
    ensures ComputeLoadSucceeds(file, computeShaderId) ==> IdAfterLoad(0, file, computeShaderId, programId) == programId
  {
  }

  /** A failed load keeps the earlier program: loading a file that does not
      open, or whose code does not compile, changes nothing. */
  lemma FailedLoadKeepsId(priorId: nat, file: SourceFile, programId: nat)
    ensures IdAfterLoad(priorId, Unopenable, 1, programId) == priorId
    ensures IdAfterLoad(priorId, file, 0, programId) == priorId
  {
  }

  class ComputeShader {
    /** The program id; 0 means no program. */
    var id: nat
    var path: string
    var uniformCache: map<string, int>

    constructor ()
      ensures id == 0 && path == "" && uniformCache == map[]
    {
      id := 0;
      path := "";
      uniformCache := map[];
    }

    /** `ComputeShader(path)` as the source has it: the id holds an
        unspecified value, here `uninitialisedId`, when `Load` runs. */
    constructor FromFileAsWritten(p: string, file: SourceFile, computeShaderId: nat, programId: nat, uninitialisedId: nat)
      ensures id == IdAfterLoad(uninitialisedId, file, computeShaderId, programId)
      ensures ComputeLoadSucceeds(file, computeShaderId) ==> path == p
      ensures uniformCache == map[]
    {
      id := uninitialisedId;
      path := "";
      uniformCache := map[];
      new;
      var ok := Load(p, file, computeShaderId, programId);
    }

    /** `ComputeShader(path)` with the id initialised to 0 before loading,
        as the default constructor does: a failed load leaves no program. */
    constructor FromFile(p: string, file: SourceFile, computeShaderId: nat, programId: nat)
      ensures id == IdAfterLoad(0, file, computeShaderId, programId)
      ensures ComputeLoadSucceeds(file, computeShaderId) ==> id == programId && path == p
      ensures !ComputeLoadSucceeds(file, computeShaderId) ==> id == 0 && path == ""
      ensures uniformCache == map[]
    {
      id := 0;
      path := "";
      uniformCache := map[];
      new;
      var ok := Load(p, file, computeShaderId, programId);
    }

    /** Loads a file: the program is created, and the id and the path set,
        only when the code is not empty and compiles. */
    method Load(p: string, file: SourceFile, computeShaderId: nat, programId: nat) returns (ok: bool)
      modifies this`id, this`path
      ensures ok == ComputeLoadSucceeds(file, computeShaderId)
      ensures id == IdAfterLoad(old(id), file, computeShaderId, programId)
      ensures path == if ok then p else old(path)
    {
      var code := ParseComputeShader(file);
      if code == [] {
        return false;
      }
      if computeShaderId == 0 {
        return false;
      }
      id := programId;
      path := p;
      return true;
    }

    /** The cached location of a uniform, asking the driver (whose answer is
        `driverLocation`) only for a name not cached yet. */
    method GetUniformLocation(name: string, driverLocation: int) returns (location: int)
      modifies this`uniformCache
      ensures location == CacheLookup(old(uniformCache), name, driverLocation).location
      ensures uniformCache == CacheLookup(old(uniformCache), name, driverLocation).cache
    {
      if name in uniformCache {
        return uniformCache[name];
      }
      location := driverLocation;
      uniformCache := uniformCache[name := location];
    }

    /** Any of the setters; the compute shader has no texture setter. */
    method SetUniform(name: string, value: UniformValue, driverLocation: int) returns (calls: seq<GlCall>)
      requires !value.TextureValue?
      modifies this`uniformCache
      ensures uniformCache == CacheLookup(old(uniformCache), name, driverLocation).cache
      ensures calls == SetterCalls(CacheLookup(old(uniformCache), name, driverLocation).location, value)
    {
      var uniformId := GetUniformLocation(name, driverLocation);
      calls := [];
      if uniformId != -1 {
        calls := [Uniform(uniformId, value)];
      }
    }

    /** The move constructor: takes the other shader's id, path and cache;
        the other shader's id becomes 0. */
    constructor Move(other: ComputeShader)
      modifies other
      ensures id == old(other.id) && path == old(other.path) && uniformCache == old(other.uniformCache)
      ensures other.id == 0
    {
      id := other.id;
      path := other.path;
      uniformCache := other.uniformCache;
      new;
      other.path := "";
      other.uniformCache := map[];
      other.id := 0;
    }

    /** Move assignment; assigning a shader to itself changes nothing. */
    method MoveAssign(other: ComputeShader)
      modifies this, other
      ensures other == this ==> id == old(id) && path == old(path) && uniformCache == old(uniformCache)
      ensures other != this ==>
                && id == old(other.id) && path == old(other.path) && uniformCache == old(other.uniformCache)
                && other.id == 0
    {
      if this != other {
        id := other.id;
        path := other.path;
        uniformCache := other.uniformCache;
        other.path := "";
        other.uniformCache := map[];
        other.id := 0;
      }
    }
  }

  /** The static `Bind`: the program made current is the shader's, or 0 for
      a null pointer. */
  method Bind(computeShader: ComputeShader?) returns (program: nat)
    ensures computeShader == null ==> program == 0
    ensures computeShader != null ==> program == computeShader.id
  {
    if computeShader != null {
      program := computeShader.id;
    } else {
      program := 0;
    }
  }
}
