/** The GLSL program wrapper: shader file-extension parsing, the extension table that
    picks a shader stage, and the compile / link / validate / use life cycle of a
    program object. OpenGL driver calls and file-system access are parameters: each
    call site receives the driver's answer (a new handle, a status, an info log) and
    the file's existence and contents as inputs. An exception thrown by the source is
    a `Thrown(message)` outcome. */
module GlslProgram {

  datatype Option<T> = None | Some(value: T)

  /** The result of an operation that may throw a GLSLProgramException. */
  datatype Outcome = Done | Thrown(message: string)

  datatype ShaderType = Vertex | Fragment | Geometry | TessControl | TessEvaluation | Compute

  /** The seventeen file suffixes the program recognizes and the stage each selects. */
  const Extensions: map<string, ShaderType> := map[
    ".vs" := Vertex,
    ".vert" := Vertex,
    "_vert.glsl" := Vertex,
    ".vert.glsl" := Vertex,
    ".gs" := Geometry,
    ".geom" := Geometry,
    ".geom.glsl" := Geometry,
    ".tcs" := TessControl,
    ".tcs.glsl" := TessControl,
    ".tes" := TessEvaluation,
    ".tes.glsl" := TessEvaluation,
    ".fs" := Fragment,
    ".frag" := Fragment,
    "_frag.glsl" := Fragment,
    ".frag.glsl" := Fragment,
    ".cs" := Compute,
    ".cs.glsl" := Compute
  ]

  /** Every stage is reached from the table. */
  lemma ExtensionsCoverStages()
    ensures forall t: ShaderType :: t in Extensions.Values
  {
    forall t: ShaderType
      ensures t in Extensions.Values
    {
      var k := match t
        case Vertex => ".vs"
        case Fragment => ".fs"
        case Geometry => ".gs"
        case TessControl => ".tcs"
        case TessEvaluation => ".tes"
        case Compute => ".cs";
      assert k in Extensions && Extensions[k] == t;
    }
  }

  /** Each suffix starts with '.', except the two that start with '_', which end in ".glsl". */
  lemma ExtensionsKeyShapes(k: string)
    requires k in Extensions
    ensures 3 <= |k|
    ensures k[0] == '.' || (k[0] == '_' && k[|k| - 5..] == ".glsl")
  {
  }

  // ---------------------------------------------------------------------------
  // std::string::find_last_of and the extension parser
  // ---------------------------------------------------------------------------

  /** A `size_t` search bound: an index, or `npos` (the largest value, which is also
      what `0 - 1` wraps to). */
  datatype Bound = Index(i: nat) | NPos

  /** `pos - 1` computed in `size_t`. */
  function Before(pos: nat): (b: Bound)
    ensures b == NPos <==> pos == 0
  {
    if pos == 0 then NPos else Index(pos - 1)
  }

  /** `c` does not occur in `s` at any index `j` with `lo <= j < hi`. */
  predicate Absent(s: string, c: char, lo: int, hi: int) {
    forall j :: 0 <= lo <= j < hi <= |s| ==> s[j] != c
  }

  /** The last index below `end` holding `c`. */
  function LastBelow(s: string, c: char, end: nat): (r: Option<nat>)
    requires end <= |s|
    ensures r.Some? ==> r.value < end && s[r.value] == c && Absent(s, c, r.value + 1, end)
    ensures r.None? ==> Absent(s, c, 0, end)
    decreases end
  {
    if end == 0 then None
    else if s[end - 1] == c then Some(end - 1)
    else LastBelow(s, c, end - 1)
  }

  /** The number of leading characters of `s` that `find_last_of(c, pos)` searches. */
  function SearchEnd(s: string, pos: Bound): (end: nat)
    ensures end <= |s|
    ensures pos.Index? && pos.i < |s| ==> end == pos.i + 1
  {
    if pos.Index? && pos.i < |s| then pos.i + 1 else |s|
  }

  /** std::string::find_last_of(c, pos): the last index at or before `pos` holding `c`;
      `None` stands for `npos`. */
  function FindLastOf(s: string, c: char, pos: Bound): (r: Option<nat>)
    ensures r.Some? ==> r.value < SearchEnd(s, pos) && s[r.value] == c
                        && Absent(s, c, r.value + 1, SearchEnd(s, pos))
    ensures r.None? ==> Absent(s, c, 0, SearchEnd(s, pos))
  {
    LastBelow(s, c, SearchEnd(s, pos))
  }

  /** The search answer is pinned down by where `c` occurs. */
  lemma FindLastOfAt(s: string, c: char, pos: Bound, i: nat)
    requires i < SearchEnd(s, pos) && s[i] == c && Absent(s, c, i + 1, SearchEnd(s, pos))
    ensures FindLastOf(s, c, pos) == Some(i)
  {
  }

  /** GLSLUtils::get_file_extension. The suffix from the last '.'; when that suffix is
      ".glsl", the suffix from the '.' before it instead, or failing that from the last
      '_' before it, or "" when there is neither. */
  function GetFileExtension(name: string): (r: string)
    ensures |r| <= |name| && r == name[|name| - |r|..]
    ensures Absent(name, '.', 0, |name|) ==> r == ""
  {
    match FindLastOf(name, '.', NPos)
    case None => ""
    case Some(dot) =>
      var ext := name[dot..];
      if ext == ".glsl" then
        var prev := FindLastOf(name, '.', Before(dot));
        var loc := if prev.None? then FindLastOf(name, '_', Before(dot)) else prev;
        if loc.Some? then name[loc.value..] else ""
      else
        ext
  }

  /** The last '.' of `name` is at `dot`. */
  predicate LastDotAt(name: string, dot: nat) {
    dot < |name| && name[dot] == '.' && Absent(name, '.', dot + 1, |name|)
  }

  /** When the suffix from the last '.' is not ".glsl", it is the extension. */
  lemma GetFileExtensionPlain(name: string, dot: nat)
    requires LastDotAt(name, dot) && name[dot..] != ".glsl"
    ensures GetFileExtension(name) == name[dot..]
  {
    FindLastOfAt(name, '.', NPos, dot);
  }

  /** A ".glsl" suffix preceded by another '.': the extension starts at that '.'. */
  lemma GetFileExtensionGlslDot(name: string, dot: nat, prev: nat)
    requires LastDotAt(name, dot) && name[dot..] == ".glsl"
    requires prev < dot && name[prev] == '.' && Absent(name, '.', prev + 1, dot)
    ensures GetFileExtension(name) == name[prev..]
  {
    FindLastOfAt(name, '.', NPos, dot);
    FindLastOfAt(name, '.', Before(dot), prev);
  }

  /** A ".glsl" suffix with no '.' before it but a '_': the extension starts at the last '_'. */
  lemma GetFileExtensionGlslUnderscore(name: string, dot: nat, under: nat)
    requires LastDotAt(name, dot) && name[dot..] == ".glsl"
    requires Absent(name, '.', 0, dot)
    requires under < dot && name[under] == '_' && Absent(name, '_', under + 1, dot)
    ensures GetFileExtension(name) == name[under..]
  {
    FindLastOfAt(name, '.', NPos, dot);
    FindLastOfAt(name, '_', Before(dot), under);
  }

  /** A ".glsl" suffix with neither '.' nor '_' before it (and not at the very start)
      has no extension. */
  lemma GetFileExtensionGlslBare(name: string, dot: nat)
    requires LastDotAt(name, dot) && name[dot..] == ".glsl" && 0 < dot
    requires Absent(name, '.', 0, dot) && Absent(name, '_', 0, dot)
    ensures GetFileExtension(name) == ""
  {
    FindLastOfAt(name, '.', NPos, dot);
  }

  /** A name that is exactly ".glsl": `dot - 1` wraps to `npos`, the second search finds
      the same '.', and the whole name comes back. */
  lemma GetFileExtensionWrap()
    ensures GetFileExtension(".glsl") == ".glsl"
  {
    FindLastOfAt(".glsl", '.', NPos, 0);
    FindLastOfAt(".glsl", '.', Before(0), 0);
  }

  lemma GetFileExtensionDottedGlsl()
    ensures GetFileExtension("a.vert.glsl") == ".vert.glsl"
  {
    GetFileExtensionGlslDot("a.vert.glsl", 6, 1);
  }

  lemma GetFileExtensionUnderscoredGlsl()
    ensures GetFileExtension("a_frag.glsl") == "_frag.glsl"
  {
    GetFileExtensionGlslUnderscore("a_frag.glsl", 6, 1);
  }

  lemma GetFileExtensionBareGlsl()
    ensures GetFileExtension("x.glsl") == ""
  {
    GetFileExtensionGlslBare("x.glsl", 1);
  }

  // Table keys come in three shapes; each round-trips through the parser.

  /** `base + "." + w`, where neither part has a '.' and the suffix is not ".glsl". */
  lemma RoundTripDotWord(base: string, w: string)
    requires Absent(base, '.', 0, |base|) && Absent(w, '.', 0, |w|)
    requires w != "glsl"
    ensures GetFileExtension(base + ("." + w)) == "." + w
  {
    assert ("." + w)[1..] == w;
    var name := base + ("." + w);
    assert name[|base|..] == "." + w;
    assert forall j :: |base| < j < |name| ==> name[j] == w[j - |base| - 1];
    GetFileExtensionPlain(name, |base|);
  }

  /** `base + "." + w + ".glsl"`, where neither `base` nor `w` has a '.'. */
  lemma RoundTripDotGlsl(base: string, w: string)
    requires Absent(base, '.', 0, |base|) && Absent(w, '.', 0, |w|)
    ensures GetFileExtension(base + ("." + w + ".glsl")) == "." + w + ".glsl"
  {
    var k := "." + w + ".glsl";
    var name := base + k;
    var dot := |base| + 1 + |w|;
    assert name[dot..] == ".glsl";
    assert forall j :: |base| < j < dot ==> name[j] == w[j - |base| - 1];
    assert forall j :: 0 <= j < |base| ==> name[j] == base[j];
    assert name[|base|..] == k;
    GetFileExtensionGlslDot(name, dot, |base|);
  }

  /** `base + "_" + w + ".glsl"`, where `base` has no '.' and `w` has neither '.' nor '_'. */
  lemma RoundTripUnderscoreGlsl(base: string, w: string)
    requires Absent(base, '.', 0, |base|)
    requires Absent(w, '.', 0, |w|) && Absent(w, '_', 0, |w|)
    ensures GetFileExtension(base + ("_" + w + ".glsl")) == "_" + w + ".glsl"
  {
    var k := "_" + w + ".glsl";
    var name := base + k;
    var dot := |base| + 1 + |w|;
    assert name[dot..] == ".glsl";
    assert forall j :: |base| < j < dot ==> name[j] == w[j - |base| - 1];
    assert forall j :: 0 <= j < |base| ==> name[j] == base[j];
    assert name[|base|] == '_';
    assert name[|base|..] == k;
    GetFileExtensionGlslUnderscore(name, dot, |base|);
  }

  /** Every table key, appended to a base name without '.', is parsed back to itself, so
      the dispatching compile selects exactly the stage the table lists. */
  lemma ExtensionsRoundTrip(base: string, k: string)
    requires Absent(base, '.', 0, |base|)
    requires k in Extensions
    ensures GetFileExtension(base + k) == k
  {
    if k in {".vs", ".vert", ".gs", ".geom", ".tcs"} {
      PlainKeysRoundTrip(base, k);
    } else if k in {".tes", ".fs", ".frag", ".cs"} {
      MorePlainKeysRoundTrip(base, k);
    } else if k in {"_vert.glsl", "_frag.glsl"} {
      UnderscoreKeysRoundTrip(base, k);
    } else {
      DotGlslKeysRoundTrip(base, k);
    }
  }

  lemma PlainKeysRoundTrip(base: string, k: string)
    requires Absent(base, '.', 0, |base|)
    requires k in {".vs", ".vert", ".gs", ".geom", ".tcs"}
    ensures GetFileExtension(base + k) == k
  {
    var w := k[1..];
    assert k == "." + w;
    assert w in {"vs", "vert", "gs", "geom", "tcs"};
    RoundTripDotWord(base, w);
  }

  lemma MorePlainKeysRoundTrip(base: string, k: string)
    requires Absent(base, '.', 0, |base|)
    requires k in {".tes", ".fs", ".frag", ".cs"}
    ensures GetFileExtension(base + k) == k
  {
    var w := k[1..];
    assert k == "." + w;
    assert w in {"tes", "fs", "frag", "cs"};
    RoundTripDotWord(base, w);
  }

  lemma UnderscoreKeysRoundTrip(base: string, k: string)
    requires Absent(base, '.', 0, |base|)
    requires k in {"_vert.glsl", "_frag.glsl"}
    ensures GetFileExtension(base + k) == k
  {
    if k == "_vert.glsl" {
      assert k == "_" + "vert" + ".glsl";
      RoundTripUnderscoreGlsl(base, "vert");
    } else {
      assert k == "_" + "frag" + ".glsl";
      RoundTripUnderscoreGlsl(base, "frag");
    }
  }

  lemma DotGlslKeysRoundTrip(base: string, k: string)
    requires Absent(base, '.', 0, |base|)
    requires k in {".vert.glsl", ".geom.glsl", ".tcs.glsl", ".tes.glsl", ".frag.glsl", ".cs.glsl"}
    ensures GetFileExtension(base + k) == k
  {
    if k == ".vert.glsl" {
      assert k == "." + "vert" + ".glsl";
      RoundTripDotGlsl(base, "vert");
    } else if k == ".geom.glsl" {
      assert k == "." + "geom" + ".glsl";
      RoundTripDotGlsl(base, "geom");
    } else if k == ".tcs.glsl" {
      assert k == "." + "tcs" + ".glsl";
      RoundTripDotGlsl(base, "tcs");
    } else if k == ".tes.glsl" {
      assert k == "." + "tes" + ".glsl";
      RoundTripDotGlsl(base, "tes");
    } else if k == ".frag.glsl" {
      assert k == "." + "frag" + ".glsl";
      RoundTripDotGlsl(base, "frag");
    } else {
      assert k == "." + "cs" + ".glsl";
      RoundTripDotGlsl(base, "cs");
    }
  }

  // ---------------------------------------------------------------------------
  // get_attrib_type_string_form
  // ---------------------------------------------------------------------------

  const GL_FLOAT := 0x1406
  const GL_FLOAT_VEC2 := 0x8B50
  const GL_FLOAT_VEC3 := 0x8B51
  const GL_FLOAT_VEC4 := 0x8B52
  const GL_DOUBLE := 0x140A
  const GL_INT := 0x1404
  const GL_UNSIGNED_INT := 0x1405
  const GL_BOOL := 0x8B56
  const GL_FLOAT_MAT2 := 0x8B5A
  const GL_FLOAT_MAT3 := 0x8B5B
  const GL_FLOAT_MAT4 := 0x8B5C

  /** The enumerants get_attrib_type_string_form has a name for. */
  const NamedAttribTypes: set<int> := {
    GL_FLOAT, GL_FLOAT_VEC2, GL_FLOAT_VEC3, GL_FLOAT_VEC4, GL_DOUBLE, GL_INT,
    GL_UNSIGNED_INT, GL_BOOL, GL_FLOAT_MAT2, GL_FLOAT_MAT3, GL_FLOAT_MAT4
  }

  /** glsl_program_t::get_attrib_type_string_form: a switch with "?" as the default. */
  function AttribTypeName(t: int): (r: string)
    ensures r == "?" <==> t !in NamedAttribTypes
  {
    if t == GL_FLOAT then "float"
    else if t == GL_FLOAT_VEC2 then "vec2"
    else if t == GL_FLOAT_VEC3 then "vec3"
    else if t == GL_FLOAT_VEC4 then "vec4"
    else if t == GL_DOUBLE then "double"
    else if t == GL_INT then "int"
    else if t == GL_UNSIGNED_INT then "unsigned int"
    else if t == GL_BOOL then "bool"
    else if t == GL_FLOAT_MAT2 then "mat2"
    else if t == GL_FLOAT_MAT3 then "mat3"
    else if t == GL_FLOAT_MAT4 then "mat4"
    else "?"
  }

  /** The enumerant a printed type name stands for: the reverse reading of the switch. */
  function AttribTypeCode(name: string): (r: Option<int>)
    ensures r.Some? ==> r.value in NamedAttribTypes
    ensures name == "?" ==> r == None
  {
    if name == "float" then Some(GL_FLOAT)
    else if name == "vec2" then Some(GL_FLOAT_VEC2)
    else if name == "vec3" then Some(GL_FLOAT_VEC3)
    else if name == "vec4" then Some(GL_FLOAT_VEC4)
    else if name == "double" then Some(GL_DOUBLE)
    else if name == "int" then Some(GL_INT)
    else if name == "unsigned int" then Some(GL_UNSIGNED_INT)
    else if name == "bool" then Some(GL_BOOL)
    else if name == "mat2" then Some(GL_FLOAT_MAT2)
    else if name == "mat3" then Some(GL_FLOAT_MAT3)
    else if name == "mat4" then Some(GL_FLOAT_MAT4)
    else None
  }

  /** Every named enumerant has its own name: reading the name back gives the enumerant. */
  lemma AttribTypeRoundTrip(t: int)
    ensures t in NamedAttribTypes ==> AttribTypeCode(AttribTypeName(t)) == Some(t)
    ensures t !in NamedAttribTypes ==> AttribTypeCode(AttribTypeName(t)) == None
  {
  }

  /** Every name the reverse reading accepts is printed for exactly that enumerant. */
  lemma AttribTypeNameInverse(name: string)
    ensures AttribTypeCode(name).Some? ==> AttribTypeName(AttribTypeCode(name).value) == name
  {
  }

  // ---------------------------------------------------------------------------
  // Uniform reflection
  // ---------------------------------------------------------------------------

  /** One active uniform as the driver reports it: name, location, and the index of the
      uniform block it belongs to (-1 for none). */
  datatype UniformResource = UniformResource(name: string, location: int, blockIndex: int)

  /** The name-to-location table find_uniform_locations builds from the driver's list:
      uniforms inside a block are skipped, and a later entry overwrites an earlier one. */
  function UniformTable(resources: seq<UniformResource>): map<string, int>
  {
    if |resources| == 0 then map[]
    else
      var last := resources[|resources| - 1];
      var t := UniformTable(resources[..|resources| - 1]);
      if last.blockIndex != -1 then t else t[last.name := last.location]
  }

  /** The table maps exactly the names of uniforms outside any block, each to the location
      of the last such entry with that name. */
  lemma {:induction false} UniformTableContents(resources: seq<UniformResource>, name: string)
    ensures name in UniformTable(resources) <==>
            exists i :: 0 <= i < |resources| && resources[i].blockIndex == -1 && resources[i].name == name
    ensures forall i :: 0 <= i < |resources| && resources[i].blockIndex == -1 && resources[i].name == name
                        && (forall j :: i < j < |resources| ==> resources[j].blockIndex != -1 || resources[j].name != name)
                        ==> name in UniformTable(resources) && UniformTable(resources)[name] == resources[i].location
  {
    if |resources| > 0 {
      var n := |resources| - 1;
      var init := resources[..n];
      UniformTableContents(init, name);
      assert forall i :: 0 <= i < n ==> init[i] == resources[i];
    }
  }

  // ---------------------------------------------------------------------------
  // The program object
  // ---------------------------------------------------------------------------

  /** A shader object: the name the driver gave it and the stage it was created for. */
  datatype Shader = Shader(name: nat, stage: ShaderType)

  /** A source file as the file system presents it. */
  datatype ShaderFile = ShaderFile(exists_: bool, readable: bool, contents: string)

  /** The driver's answers to one shader compilation. */
  datatype Compilation = Compilation(shader: nat, compiled: bool, log: string)

  /** glsl_program_t. `handle` and `linked` are the object's own fields; `attached` and
      `deleted` are the driver-side shader objects of this program, the state that
      glAttachShader, glDetachShader and glDeleteShader change. */
  class Program {
    var handle: nat
    var linked: bool
    var uniformLocations: map<string, int>
    var attached: seq<Shader>
    var deleted: seq<Shader>

    /** A program is never linked without a handle. */
    predicate Valid()
      reads this
    {
      linked ==> handle != 0
    }

    constructor ()
      ensures handle == 0 && !linked && uniformLocations == map[]
      ensures attached == [] && deleted == []
      ensures Valid()
    {
      handle := 0;
      linked := false;
      uniformLocations := map[];
      attached := [];
      deleted := [];
    }

    /** compile_shader(file_name): look the parsed extension up in the table and compile
        as that stage; an unknown extension throws before anything else happens. */
    method CompileShader(fileName: string, file: ShaderFile, newProgram: nat, c: Compilation)
      returns (o: Outcome)
      requires Valid()
      modifies this
      ensures Valid()
      ensures GetFileExtension(fileName) !in Extensions ==>
                o == Thrown("Unrecognized extension: " + GetFileExtension(fileName))
                && handle == old(handle) && attached == old(attached)
      ensures GetFileExtension(fileName) in Extensions ==>
                CompileFileEffect(old(handle), old(attached), fileName, Extensions[GetFileExtension(fileName)],
                                  file, newProgram, c, o, handle, attached)
      ensures linked == old(linked) && uniformLocations == old(uniformLocations) && deleted == old(deleted)
    {
      var ext := GetFileExtension(fileName);
      if ext !in Extensions {
        return Thrown("Unrecognized extension: " + ext);
      }
      o := CompileShaderFile(fileName, Extensions[ext], file, newProgram, c);
    }

    /** What compiling a file does to the handle and the attached shaders. */
    ghost predicate CompileFileEffect(handle0: nat, attached0: seq<Shader>, fileName: string,
                                      stage: ShaderType, file: ShaderFile, newProgram: nat,
                                      c: Compilation, o: Outcome, handle1: nat, attached1: seq<Shader>)
    {
      if !file.exists_ then
        o == Thrown("Shader: " + fileName + " not found.") && handle1 == handle0 && attached1 == attached0
      else if handle0 == 0 && newProgram == 0 then
        o == Thrown("Unable to create shader program.") && handle1 == 0 && attached1 == attached0
      else
        handle1 == (if handle0 == 0 then newProgram else handle0)
        && if !file.readable then
             o == Thrown("Unable to open: " + fileName) && attached1 == attached0
           else
             CompileSourceEffect(attached0, Some(fileName), stage, c, o, attached1)
    }

    /** What compiling source text does to the attached shaders, once the handle exists. */
    ghost predicate CompileSourceEffect(attached0: seq<Shader>, fileName: Option<string>,
                                        stage: ShaderType, c: Compilation, o: Outcome,
                                        attached1: seq<Shader>)
    {
      if c.compiled then
        o == Done && attached1 == attached0 + [Shader(c.shader, stage)]
      else
        attached1 == attached0
        && o == Thrown((if fileName.Some? then fileName.value + ": shader compilation failed.\n"
                        else "Shader compilation failed.\n") + c.log)
    }

    /** compile_shader(file_name, type): the file must exist, the program handle is created
        if there is none yet, the file must open, then its contents are compiled. */
    method CompileShaderFile(fileName: string, stage: ShaderType, file: ShaderFile,
                             newProgram: nat, c: Compilation)
      returns (o: Outcome)
      requires Valid()
      modifies this
      ensures Valid()
      ensures CompileFileEffect(old(handle), old(attached), fileName, stage, file, newProgram, c,
                                o, handle, attached)
      ensures linked == old(linked) && uniformLocations == old(uniformLocations) && deleted == old(deleted)
    {
      if !file.exists_ {
        return Thrown("Shader: " + fileName + " not found.");
      }
      if handle == 0 {
        handle := newProgram;
        if handle == 0 {
          return Thrown("Unable to create shader program.");
        }
      }
      if !file.readable {
        return Thrown("Unable to open: " + fileName);
      }
      o := CompileShaderSource(file.contents, stage, Some(fileName), newProgram, c);
    }

    /** compile_shader(source, type, file_name): create the handle if there is none yet,
        compile, and attach the shader on success; on failure the message names the file
        when there is one and carries the compile log. */
    method CompileShaderSource(source: string, stage: ShaderType, fileName: Option<string>,
                               newProgram: nat, c: Compilation)
      returns (o: Outcome)
      requires Valid()
      modifies this
      ensures Valid()
      ensures old(handle) == 0 && newProgram == 0 ==>
                o == Thrown("Unable to create shader program.") && handle == 0 && attached == old(attached)
      ensures old(handle) != 0 || newProgram != 0 ==>
                handle == (if old(handle) == 0 then newProgram else old(handle))
                && CompileSourceEffect(old(attached), fileName, stage, c, o, attached)
      ensures linked == old(linked) && uniformLocations == old(uniformLocations) && deleted == old(deleted)
    {
      if handle == 0 {
        handle := newProgram;
        if handle == 0 {
          return Thrown("Unable to create shader program.");
        }
      }
      if !c.compiled {
        var msg := if fileName.Some? then fileName.value + ": shader compilation failed.\n"
                   else "Shader compilation failed.\n";
        return Thrown(msg + c.log);
      }
      attached := attached + [Shader(c.shader, stage)];
      o := Done;
    }

    /** link: nothing to do when already linked; an error without a handle; otherwise the
        driver's link status decides. Uniform locations are gathered and `linked` set only
        on success, and the attached shaders are detached and deleted either way. */
    method Link(linkOk: bool, log: string, resources: seq<UniformResource>) returns (o: Outcome)
      requires Valid()
      modifies this
      ensures Valid()
      ensures old(linked) ==> o == Done && unchanged(this)
      ensures !old(linked) && old(handle) == 0 ==>
                o == Thrown("Program has not been compiled.") && unchanged(this)
      ensures !old(linked) && old(handle) != 0 ==>
                handle == old(handle)
                && attached == [] && deleted == old(deleted) + old(attached)
                && (linkOk ==> o == Done && linked && uniformLocations == UniformTable(resources))
                && (!linkOk ==> o == Thrown("Program link failed:\n" + log) && !linked
                                && uniformLocations == old(uniformLocations))
    {
      if linked {
        return Done;
      }
      if handle == 0 {
        return Thrown("Program has not been compiled.");
      }
      if linkOk {
        FindUniformLocations(resources);
        linked := true;
      }
      DetachDeleteShaderObjects();
      if !linkOk {
        return Thrown("Program link failed:\n" + log);
      }
      o := Done;
    }

    /** validate: an error unless linked, and an error carrying the log when the driver
        reports the program invalid. */
    method Validate(validateOk: bool, log: string) returns (o: Outcome)
      ensures o == Done <==> linked && validateOk
      ensures !linked ==> o == Thrown("Program is not linked")
      ensures linked && !validateOk ==> o == Thrown("Program failed to validate\n" + log)
    {
      if !linked {
        return Thrown("Program is not linked");
      }
      if !validateOk {
        return Thrown("Program failed to validate\n" + log);
      }
      o := Done;
    }

    /** use: an error unless there is a handle and it is linked. */
    method Use() returns (o: Outcome)
      requires Valid()
      ensures linked ==> o == Done
      ensures o == Done <==> handle != 0 && linked
      ensures o != Done ==> o == Thrown("Shader has not been linked")
    {
      if handle == 0 || !linked {
        return Thrown("Shader has not been linked");
      }
      o := Done;
    }

    /** get_uniform_location: `uniform_locations[name]`, which inserts location 0 for a
        name the table does not hold. */
    method GetUniformLocation(name: string) returns (loc: int)
      modifies this`uniformLocations
      ensures loc == (if name in old(uniformLocations) then old(uniformLocations)[name] else 0)
      ensures uniformLocations == old(uniformLocations)[name := loc]
    {
      if name !in uniformLocations {
        uniformLocations := uniformLocations[name := 0];
      }
      loc := uniformLocations[name];
    }

    /** find_uniform_locations: clear the table, then record every active uniform outside
        a block under its name. */
    method FindUniformLocations(resources: seq<UniformResource>)
      modifies this`uniformLocations
      ensures uniformLocations == UniformTable(resources)
    {
      uniformLocations := map[];
      var i := 0;
      while i < |resources|
        invariant 0 <= i <= |resources|
        invariant uniformLocations == UniformTable(resources[..i])
      {
        var r := resources[i];
        assert resources[..i + 1][..i] == resources[..i];
        if r.blockIndex == -1 {
          uniformLocations := uniformLocations[r.name := r.location];
        }
        i := i + 1;
      }
      assert resources[..i] == resources;
    }

    /** detach_delete_shader_objects: every shader attached when the call starts is
        detached from the program and deleted, in order. */
    method DetachDeleteShaderObjects()
      modifies this`attached, this`deleted
      ensures attached == [] && deleted == old(deleted) + old(attached)
    {
      var names := attached;
      var i := 0;
      while i < |names|
        invariant 0 <= i <= |names|
        invariant attached == names[i..]
        invariant deleted == old(deleted) + names[..i]
      {
        attached := attached[1..];
        deleted := deleted + [names[i]];
        assert names[..i + 1] == names[..i] + [names[i]];
        i := i + 1;
      }
    }
  }
}
