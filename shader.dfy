/** The render shader: splitting one source file into a vertex and a
    fragment section at `#type` lines, the checks `Load` makes before creating
    a program, the uniform cache and setters, and move semantics. The GL
    driver's answers (compiled shader ids, the program id, uniform locations)
    are parameters. */
module Shader {
  import opened Lines
  import opened UniformCache

  /** `s.find(pattern) != std::string::npos`. */
  function Contains(s: string, pattern: string): bool
    decreases |s|
  {
    if |pattern| > |s| then false
    else if s[..|pattern|] == pattern then true
    else Contains(s[1..], pattern)
  }

  /** `pattern` occurs in `s` starting at index `i`. */
  predicate OccursAt(s: string, pattern: string, i: int)
  {
    0 <= i && i + |pattern| <= |s| && s[i..i + |pattern|] == pattern
  }

  /** Containment means occurring at some position. */
  lemma {:induction false} ContainsAt(s: string, pattern: string)
    ensures Contains(s, pattern) <==> exists i :: OccursAt(s, pattern, i)
    decreases |s|
  {
    if |pattern| > |s| {
    } else if s[..|pattern|] == pattern {
      assert OccursAt(s, pattern, 0);
    } else {
      ContainsAt(s[1..], pattern);
      if exists i :: OccursAt(s, pattern, i) {
        var i :| OccursAt(s, pattern, i);
        assert i != 0;
        assert s[1..][i - 1..i - 1 + |pattern|] == s[i..i + |pattern|];
        assert OccursAt(s[1..], pattern, i - 1);
      }
      if Contains(s[1..], pattern) {
        var j :| OccursAt(s[1..], pattern, j);
        assert s[j + 1..j + 1 + |pattern|] == s[1..][j..j + |pattern|];
        assert OccursAt(s, pattern, j + 1);
      }
    }
  }

  /** A pattern whose first character does not occur in `s` is not
      contained in it. */
  lemma {:induction false} FirstCharAbsent(s: string, pattern: string)
    requires pattern != [] && pattern[0] !in s
    ensures !Contains(s, pattern)
    decreases |s|
  {
    if |pattern| <= |s| {
      assert s[..|pattern|][0] == s[0];
      FirstCharAbsent(s[1..], pattern);
    }
  }

  datatype ShaderType = Vertex | Fragment

  datatype ShaderCode = ShaderCode(vertexShaderCode: string, fragmentShaderCode: string)

  /** A line that selects a section instead of being shader source. */
  predicate IsDirective(line: string)
  {
    Contains(line, "#type")
  }

  /** The section in force after a run of lines: VERTEX at the start; a
      directive naming "vertex" selects VERTEX, otherwise one naming
      "fragment" selects FRAGMENT, and any other directive keeps the current
      section. */
  function TypeAfter(lines: seq<string>): ShaderType
  {
    if lines == [] then Vertex
    else
      var line := lines[|lines| - 1];
      if IsDirective(line) then
        if Contains(line, "vertex") then Vertex
        else if Contains(line, "fragment") then Fragment
        else TypeAfter(lines[..|lines| - 1])
      else TypeAfter(lines[..|lines| - 1])
  }

  /** The source lines that go to section `t`, in file order: every line that
      is not a directive, in the section in force when it is read. */
  function SectionLines(lines: seq<string>, t: ShaderType): seq<string>
  {
    if lines == [] then []
    else
      var init, line := lines[..|lines| - 1], lines[|lines| - 1];
      if !IsDirective(line) && TypeAfter(init) == t then SectionLines(init, t) + [line]
      else SectionLines(init, t)
  }

  /** The lines that are not directives, in file order. */
  function BodyLines(lines: seq<string>): seq<string>
  {
    if lines == [] then []
    else
      var init, line := lines[..|lines| - 1], lines[|lines| - 1];
      if IsDirective(line) then BodyLines(init) else BodyLines(init) + [line]
  }

  /** The two sections of a file; a file that does not open gives two empty
      sections. */
  function ParsedShaderCode(file: SourceFile): ShaderCode
  {
    match file
    case Unopenable => ShaderCode("", "")
    case Lines(lines) => ShaderCode(JoinLines(SectionLines(lines, Vertex)), JoinLines(SectionLines(lines, Fragment)))
  }

  /** The line loop of ParseShader: directives switch the section, every
      other line is appended with a newline to the current one. */
  method ParseShader(file: SourceFile) returns (code: ShaderCode)
    ensures code == ParsedShaderCode(file)
    ensures file.Unopenable? ==> code == ShaderCode("", "")
  {
    var vertex := "";
    var fragment := "";
    if file.Lines? {
      var lines := file.lines;
      var kind := Vertex;
      for i := 0 to |lines|
        invariant kind == TypeAfter(lines[..i])
        invariant vertex == JoinLines(SectionLines(lines[..i], Vertex))
        invariant fragment == JoinLines(SectionLines(lines[..i], Fragment))
      {
        var line := lines[i];
        assert lines[..i + 1][..i] == lines[..i];
        if Contains(line, "#type") {
          if Contains(line, "vertex") {
            kind := Vertex;
          } else if Contains(line, "fragment") {
            kind := Fragment;
          }
        } else {
          ghost var s := SectionLines(lines[..i], kind);
          assert (s + [line])[..|s|] == s;
          if kind == Vertex {
            vertex := vertex + line + "\n";
          } else {
            fragment := fragment + line + "\n";
          }
        }
      }
      assert lines[..|lines|] == lines;
    }
    code := ShaderCode(vertex, fragment);
  }

  /** The two sections split the body lines between them: every line that is
      not a directive goes to exactly one section, and no directive goes to
      either. */
  lemma {:induction false} SectionsPartitionBody(lines: seq<string>)
    ensures multiset(SectionLines(lines, Vertex)) + multiset(SectionLines(lines, Fragment)) == multiset(BodyLines(lines))
    ensures forall l :: l in BodyLines(lines) ==> l in lines && !IsDirective(l)
  {
    if lines != [] {
      SectionsPartitionBody(lines[..|lines| - 1]);
    }
  }

  /** Without any directive everything is vertex code. */
  lemma {:induction false} NoDirectiveAllVertex(lines: seq<string>)
    requires forall i :: 0 <= i < |lines| ==> !IsDirective(lines[i])
    ensures TypeAfter(lines) == Vertex
    ensures SectionLines(lines, Vertex) == lines
    ensures SectionLines(lines, Fragment) == []
  {
    if lines != [] {
      var init := lines[..|lines| - 1];
      NoDirectiveAllVertex(init);
      assert init + [lines[|lines| - 1]] == lines;
    }
  }

  /** Lines without directives appended to a file go to the section in force
      at its end, and leave the other section as it was. */
  lemma {:induction false} AppendBody(a: seq<string>, b: seq<string>)
    requires forall i :: 0 <= i < |b| ==> !IsDirective(b[i])
    ensures TypeAfter(a + b) == TypeAfter(a)
    ensures SectionLines(a + b, TypeAfter(a)) == SectionLines(a, TypeAfter(a)) + b
    ensures forall t :: t != TypeAfter(a) ==> SectionLines(a + b, t) == SectionLines(a, t)
    decreases |b|
  {
    if b == [] {
      assert a + b == a;
    } else {
      var b', l := b[..|b| - 1], b[|b| - 1];
      assert (a + b)[..|a + b| - 1] == a + b';
      AppendBody(a, b');
      assert b' + [l] == b;
    }
  }

  /** A directive appended to a file adds no code to either section and
      selects the section it names. */
  lemma AppendDirective(a: seq<string>, d: string)
    requires IsDirective(d)
    ensures forall t :: SectionLines(a + [d], t) == SectionLines(a, t)
    ensures Contains(d, "vertex") ==> TypeAfter(a + [d]) == Vertex
    ensures !Contains(d, "vertex") && Contains(d, "fragment") ==> TypeAfter(a + [d]) == Fragment
  {
    assert (a + [d])[..|a|] == a;
  }

  /** A directive naming "vertex" followed by code without directives: all
      of it is vertex code. */
  lemma VertexSection(vd: string, v: seq<string>)
    requires IsDirective(vd) && Contains(vd, "vertex")
    requires forall i :: 0 <= i < |v| ==> !IsDirective(v[i])
    ensures TypeAfter([vd] + v) == Vertex
    ensures SectionLines([vd] + v, Vertex) == v
    ensures SectionLines([vd] + v, Fragment) == []
  {
    var e: seq<string> := [];
    AppendDirective(e, vd);
    assert e + [vd] == [vd];
    AppendBody([vd], v);
  }

  /** A file laid out as a vertex directive, vertex code, a fragment
      directive, fragment code splits into exactly those two codes. */
  lemma TwoSectionFile(vd: string, v: seq<string>, fd: string, f: seq<string>)
    requires IsDirective(vd) && Contains(vd, "vertex")
    requires IsDirective(fd) && !Contains(fd, "vertex") && Contains(fd, "fragment")
    requires forall i :: 0 <= i < |v| ==> !IsDirective(v[i])
    requires forall i :: 0 <= i < |f| ==> !IsDirective(f[i])
    ensures SectionLines([vd] + v + [fd] + f, Vertex) == v
    ensures SectionLines([vd] + v + [fd] + f, Fragment) == f
  {
    VertexSection(vd, v);
    var a := [vd] + v;
    AppendDirective(a, fd);
    var b := a + [fd];
    AppendBody(b, f);
  }

  /** The directives the engine's shader files use select what they say. */
  lemma StandardDirectives()
    ensures IsDirective("#type vertex") && Contains("#type vertex", "vertex")
    ensures IsDirective("#type fragment") && !Contains("#type fragment", "vertex") && Contains("#type fragment", "fragment")
  {
    var v, f := "#type vertex", "#type fragment";
    assert v[..5] == "#type" && f[..5] == "#type";
    assert OccursAt(v, "vertex", 6);
    ContainsAt(v, "vertex");
    assert OccursAt(f, "fragment", 6);
    ContainsAt(f, "fragment");
    assert 'v' !in f;
    FirstCharAbsent(f, "vertex");
  }

  class Shader {
    /** The program id; 0 means no program. */
    var id: nat
    var path: string
    var uniformCache: map<string, int>

    constructor ()
      ensures id == 0 && path == "" && uniformCache == map[]
    {
      id := 0;
      path := "";
      uniformCache := map[];
    }

    /** `Shader(path)`: loads at construction; a failed load leaves id
        0. */
    constructor FromFile(p: string, file: SourceFile, vertexShaderId: nat, fragmentShaderId: nat, programId: nat)
      ensures LoadSucceeds(file, vertexShaderId, fragmentShaderId) ==> id == programId && path == p
      ensures !LoadSucceeds(file, vertexShaderId, fragmentShaderId) ==> id == 0 && path == ""
      ensures uniformCache == map[]
    {
      id := 0;
      path := "";
      uniformCache := map[];
      new;
      var ok := Load(p, file, vertexShaderId, fragmentShaderId, programId);
    }

    /** Loads a file. The id is reset to 0 first; the program is created only
        when both sections are non-empty and both compile (a compile result of
        0 is a failure), and only then are the id and the path set. */
    method Load(p: string, file: SourceFile, vertexShaderId: nat, fragmentShaderId: nat, programId: nat)
      returns (ok: bool)
      modifies this`id, this`path
      ensures ok == LoadSucceeds(file, vertexShaderId, fragmentShaderId)
      ensures ok ==> id == programId && path == p
      ensures !ok ==> id == 0 && path == old(path)
    {
      id := 0;
      var code := ParseShader(file);
      if code.vertexShaderCode == [] || code.fragmentShaderCode == [] {
        return false;
      }
      if vertexShaderId == 0 || fragmentShaderId == 0 {
        return false;
      }
      id := programId;
      path := p;
      return true;
    }

    /** The cached location of a uniform, asking the driver (whose answer is
        `driverLocation`) only for a name not cached yet. */
    method GetUniformLocation(name: string, driverLocation: int) returns (location: int)
      modifies this`uniformCache
      ensures location == CacheLookup(old(uniformCache), name, driverLocation).location
      ensures uniformCache == CacheLookup(old(uniformCache), name, driverLocation).cache
    {
      if name in uniformCache {
        return uniformCache[name];
      }
      location := driverLocation;
      uniformCache := uniformCache[name := location];
    }

    /** Any of the setters: look the location up, then upload only when it is
        not -1. */
    method SetUniform(name: string, value: UniformValue, driverLocation: int) returns (calls: seq<GlCall>)
      modifies this`uniformCache
      ensures uniformCache == CacheLookup(old(uniformCache), name, driverLocation).cache
      ensures calls == SetterCalls(CacheLookup(old(uniformCache), name, driverLocation).location, value)
    {
      var uniformId := GetUniformLocation(name, driverLocation);
      calls := [];
      if uniformId != -1 {
        if value.TextureValue? {
          calls := [Uniform(uniformId, IntValue(value.slot)), BindTexture(value.textureId, value.slot)];
        } else {
          calls := [Uniform(uniformId, value)];
        }
      }
    }

    /** The move constructor: takes the other shader's id, path and cache;
        the other shader's id becomes 0. */
    constructor Move(other: Shader)
      modifies other
      ensures id == old(other.id) && path == old(other.path) && uniformCache == old(other.uniformCache)
      ensures other.id == 0
    {
      id := other.id;
      path := other.path;
      uniformCache := other.uniformCache;
      new;
      other.path := "";
      other.uniformCache := map[];
      other.id := 0;
    }

    /** Move assignment; assigning a shader to itself changes nothing. */
    method MoveAssign(other: Shader)
      modifies this, other
      ensures other == this ==> id == old(id) && path == old(path) && uniformCache == old(uniformCache)
      ensures other != this ==>
                && id == old(other.id) && path == old(other.path) && uniformCache == old(other.uniformCache)
                && other.id == 0
    {
      if this != other {
        id := other.id;
        path := other.path;
        uniformCache := other.uniformCache;
        other.path := "";
        other.uniformCache := map[];
        other.id := 0;
      }
    }
  }

  /** Whether `Load` creates a program. */
  predicate LoadSucceeds(file: SourceFile, vertexShaderId: nat, fragmentShaderId: nat)
  {
    var code := ParsedShaderCode(file);
    code.vertexShaderCode != "" && code.fragmentShaderCode != "" && vertexShaderId != 0 && fragmentShaderId != 0
  }

  /** A file that does not open, or one without any fragment section, never
      loads; a file with code in both sections loads when both compile. */
  lemma LoadOutcomes(file: SourceFile, vertexShaderId: nat, fragmentShaderId: nat)
    ensures file.Unopenable? ==> !LoadSucceeds(file, vertexShaderId, fragmentShaderId)
    ensures file.Lines? && (forall i :: 0 <= i < |file.lines| ==> !IsDirective(file.lines[i])) ==>
              !LoadSucceeds(file, vertexShaderId, fragmentShaderId)
    ensures file.Lines? && SectionLines(file.lines, Vertex) != [] && SectionLines(file.lines, Fragment) != [] ==>
              (LoadSucceeds(file, vertexShaderId, fragmentShaderId) <==> vertexShaderId != 0 && fragmentShaderId != 0)
  {
    if file.Lines? {
      JoinLinesEmpty(SectionLines(file.lines, Vertex));
      JoinLinesEmpty(SectionLines(file.lines, Fragment));
      if forall i :: 0 <= i < |file.lines| ==> !IsDirective(file.lines[i]) {
        NoDirectiveAllVertex(file.lines);
      }
    }
  }
}
