/**
 The shader program compiler and its cache (compile_program.cpp).

 Each operation appears twice: as a function that says which backend calls it
 makes and what it returns (the reference definition, about which the lemmas in
 cache_properties.dfy are proved), and as the imperative code that makes those
 calls on a `Backend` one after another, proved to agree with the function.
 */
module ProgramCompiler {
  import opened GlBackend

  /** One entry of a vertex program's attribute locations: a vertex-buffer byte offset and an attribute name. */
  datatype AttributeLocation = AttributeLocation(offset: nat, name: string)

  /** The parts of the renderer's fragment and vertex programs that the compiler reads. */
  datatype FragmentProgram = FragmentProgram(glsl: string)
  datatype VertexProgram = VertexProgram(glsl: string, attributeLocations: seq<AttributeLocation>)

  /** The cache key: the ordered pair (fragment GLSL, vertex GLSL), compared structurally. */
  datatype ProgramGlsls = ProgramGlsls(fragment: string, vertex: string)

  type Cache = map<ProgramGlsls, Handle>

  /** A compiled stage (0 when compilation failed) and the backend trace after compiling it. */
  datatype Stage = Stage(shader: Handle, trace: seq<Event>)

  /** A linked program (0 when allocation or linking failed) and the backend trace after linking. */
  datatype Linkage = Linkage(program: Handle, trace: seq<Event>)

  /** The result of one cache request: the program (0 for a null result), the new cache and trace. */
  datatype Outcome = Outcome(program: Handle, cache: Cache, trace: seq<Event>)

  /** Every cached program is a non-null program whose link the backend reported successful. */
  ghost predicate CacheValid(cache: Cache, trace: seq<Event>)
  {
    forall glsls :: glsls in cache ==> cache[glsls] != NULL_HANDLE && LinkAttempted(cache[glsls], true) in trace
  }

  /** The input slot an attribute at byte offset `offset` is bound to: one slot per 32-bit word. */
  function AttributeSlot(offset: nat): (slot: nat)
    ensures 4 * slot <= offset < 4 * slot + 4
  {
    offset / 4
  }

  /** The backend calls made by binding `attributes` to `program`, in iteration order. */
  function BindEvents(program: Handle, attributes: seq<AttributeLocation>): (events: seq<Event>)
    ensures |events| == |attributes|
    ensures forall i :: 0 <= i < |attributes| ==>
      events[i] == AttribLocationBound(program, AttributeSlot(attributes[i].offset), attributes[i].name)
  {
    if attributes == [] then []
    else
      var last := attributes[|attributes| - 1];
      BindEvents(program, attributes[..|attributes| - 1])
        + [AttribLocationBound(program, AttributeSlot(last.offset), last.name)]
  }

  /**
   Compiling one stage: the shader is returned exactly when the backend created a
   non-null shader of that kind and reported it compiled; otherwise the result is null.
   */
  function CompileGlslSpec(d: Driver, trace: seq<Event>, kind: StageKind, source: string): (r: Stage)
    ensures |trace| < |r.trace| <= |trace| + 2 && r.trace[..|trace|] == trace
    ensures var name := d.shaderName(trace, kind);
            var created := trace + [ShaderCreated(kind, name)];
            && r.trace[|trace|] == ShaderCreated(kind, name)
            && (name == NULL_HANDLE ==> r.trace == created)
            && (name != NULL_HANDLE ==> r.trace == created + [CompileAttempted(name, source, d.compiles(created, name, source))])
            && (r.shader != NULL_HANDLE <==> name != NULL_HANDLE && d.compiles(created, name, source))
    ensures r.shader != NULL_HANDLE <==>
      r.trace[|trace|..] == [ShaderCreated(kind, r.shader), CompileAttempted(r.shader, source, true)]
    ensures r.shader == NULL_HANDLE <==>
      r.trace[|trace|] == ShaderCreated(kind, NULL_HANDLE) || r.trace[|r.trace| - 1] == CompileAttempted(r.trace[|trace|].shader, source, false)
  {
    var shader := d.shaderName(trace, kind);
    var created := trace + [ShaderCreated(kind, shader)];
    if shader == NULL_HANDLE then Stage(NULL_HANDLE, created)
    else
      var compiled := d.compiles(created, shader, source);
      Stage(if compiled then shader else NULL_HANDLE, created + [CompileAttempted(shader, source, compiled)])
  }

  /** The trace at the moment of linking: the program created, both stages attached, every attribute bound. */
  function BoundTrace(trace: seq<Event>, program: Handle, fragmentShader: Handle, vertexShader: Handle,
                      attributes: seq<AttributeLocation>): (bound: seq<Event>)
    ensures |bound| == |trace| + 3 + |attributes| && bound[..|trace|] == trace
    ensures bound[|trace|..|trace| + 3]
         == [ProgramCreated(program), ShaderAttached(program, fragmentShader), ShaderAttached(program, vertexShader)]
    ensures bound[|trace| + 3..] == BindEvents(program, attributes)
  {
    trace + [ProgramCreated(program), ShaderAttached(program, fragmentShader), ShaderAttached(program, vertexShader)]
    + BindEvents(program, attributes)
  }

  /**
   Linking two compiled stages: allocate a program, attach the fragment then the vertex
   shader, bind the attributes and link. A program is returned only if the backend reported
   its link successful, and then both stages are detached from it.
   */
  function LinkStagesSpec(d: Driver, trace: seq<Event>, fragmentShader: Handle, vertexShader: Handle,
                          attributes: seq<AttributeLocation>): (r: Linkage)
    ensures |trace| < |r.trace| && r.trace[..|trace|] == trace
    ensures r.trace[|trace|] == ProgramCreated(d.programName(trace))
    ensures r.program != NULL_HANDLE ==>
      && |trace| + 6 <= |r.trace|
      && r.program == d.programName(trace)
      && r.trace[|r.trace| - 3] == LinkAttempted(r.program, true)
      && r.trace[|r.trace| - 2..] == [ShaderDetached(r.program, fragmentShader), ShaderDetached(r.program, vertexShader)]
    ensures var program := d.programName(trace);
            var bound := BoundTrace(trace, program, fragmentShader, vertexShader, attributes);
            && (program == NULL_HANDLE ==> r == Linkage(NULL_HANDLE, trace + [ProgramCreated(NULL_HANDLE)]))
            && (program != NULL_HANDLE ==>
                  && |bound| < |r.trace| && r.trace[..|bound|] == bound
                  && r.trace[|bound|] == LinkAttempted(program, d.links(bound, program))
                  && (r.program != NULL_HANDLE <==> d.links(bound, program)))
  {
    var program := d.programName(trace);
    var created := trace + [ProgramCreated(program)];
    if program == NULL_HANDLE then Linkage(NULL_HANDLE, created)
    else
      var bound := BoundTrace(trace, program, fragmentShader, vertexShader, attributes);
      var linked := d.links(bound, program);
      var afterLink := bound + [LinkAttempted(program, linked)];
      if !linked then Linkage(NULL_HANDLE, afterLink)
      else Linkage(program, afterLink + [ShaderDetached(program, fragmentShader), ShaderDetached(program, vertexShader)])
  }

  /**
   One request for the program built from `glsls`: a hit returns the cached program;
   a miss compiles the fragment then the vertex stage, links them, and caches the program
   only on success.
   */
  function CompileProgramSpec(d: Driver, cache: Cache, trace: seq<Event>, glsls: ProgramGlsls,
                              attributes: seq<AttributeLocation>): (o: Outcome)
    ensures |trace| <= |o.trace| && o.trace[..|trace|] == trace
    ensures glsls in cache ==> o == Outcome(cache[glsls], cache, trace)
    ensures o.program == NULL_HANDLE ==> o.cache == cache
    ensures o.program != NULL_HANDLE ==> glsls in o.cache && o.cache[glsls] == o.program
    ensures o.cache == cache || (glsls !in cache && o.cache == cache[glsls := o.program])
    ensures CacheValid(cache, trace) ==> CacheValid(o.cache, o.trace)
  {
    if glsls in cache then Outcome(cache[glsls], cache, trace)
    else
      var fragment := CompileGlslSpec(d, trace, Fragment, glsls.fragment);
      if fragment.shader == NULL_HANDLE then
        Outcome(NULL_HANDLE, cache, fragment.trace + [CriticalLogged(Fragment, glsls.fragment)])
      else
        var vertex := CompileGlslSpec(d, fragment.trace, Vertex, glsls.vertex);
        if vertex.shader == NULL_HANDLE then
          Outcome(NULL_HANDLE, cache, vertex.trace + [CriticalLogged(Vertex, glsls.vertex)])
        else
          var linkage := LinkStagesSpec(d, vertex.trace, fragment.shader, vertex.shader, attributes);
          if linkage.program == NULL_HANDLE then Outcome(NULL_HANDLE, cache, linkage.trace)
          else Outcome(linkage.program, cache[glsls := linkage.program], linkage.trace)
  }

  /** compile_glsl: create a shader of the given kind, compile it and check its status. */
  method CompileGlsl(gl: Backend, kind: StageKind, source: string) returns (shader: Handle)
    modifies gl
    ensures Stage(shader, gl.trace) == CompileGlslSpec(gl.driver, old(gl.trace), kind, source)
  {
    shader := gl.CreateShader(kind);
    if shader == NULL_HANDLE {
      return NULL_HANDLE;
    }
    var compiled := gl.CompileShader(shader, source);
    if !compiled {
      return NULL_HANDLE;
    }
  }

  /** bind_attribute_locations: one glBindAttribLocation per entry, at slot offset / 4. */
  method BindAttributeLocations(gl: Backend, program: Handle, attributes: seq<AttributeLocation>)
    modifies gl
    ensures gl.trace == old(gl.trace) + BindEvents(program, attributes)
  {
    for i := 0 to |attributes|
      invariant gl.trace == old(gl.trace) + BindEvents(program, attributes[..i])
    {
      gl.BindAttribLocation(program, AttributeSlot(attributes[i].offset), attributes[i].name);
      assert attributes[..i + 1][..i] == attributes[..i];
    }
    assert attributes[..|attributes|] == attributes;
  }

  /**
   The linking steps of compile_program: create the program, attach both stages, bind the
   attribute locations, link, check the link status and, on success, detach both stages.
   */
  method LinkStages(gl: Backend, fragmentShader: Handle, vertexShader: Handle,
                    attributes: seq<AttributeLocation>) returns (program: Handle)
    modifies gl
    ensures Linkage(program, gl.trace) == LinkStagesSpec(gl.driver, old(gl.trace), fragmentShader, vertexShader, attributes)
  {
    program := gl.CreateProgram();
    ghost var start := old(gl.trace);
    if program == NULL_HANDLE {
      return NULL_HANDLE;
    }
    gl.AttachShader(program, fragmentShader);
    gl.AttachShader(program, vertexShader);
    BindAttributeLocations(gl, program, attributes);
    assert gl.trace == BoundTrace(start, program, fragmentShader, vertexShader, attributes);

    var linked := gl.LinkProgram(program);
    if !linked {
      return NULL_HANDLE;
    }
    gl.DetachShader(program, fragmentShader);
    gl.DetachShader(program, vertexShader);
    assert gl.trace == BoundTrace(start, program, fragmentShader, vertexShader, attributes)
                       + [LinkAttempted(program, true), ShaderDetached(program, fragmentShader), ShaderDetached(program, vertexShader)];
  }

  /** The renderer's program cache, keyed by the pair of GLSL sources. */
  class ProgramCache {
    var programs: Cache

    constructor ()
      ensures programs == map[]
    {
      programs := map[];
    }

    ghost predicate Valid(gl: Backend)
      reads this, gl
    {
      CacheValid(programs, gl.trace)
    }

    /** compile_program: return the cached program for the pair, or build, link and cache it. */
    method CompileProgram(gl: Backend, fragment: FragmentProgram, vertex: VertexProgram) returns (program: Handle)
      modifies this, gl
      ensures Outcome(program, programs, gl.trace)
           == CompileProgramSpec(gl.driver, old(programs), old(gl.trace),
                                 ProgramGlsls(fragment.glsl, vertex.glsl), vertex.attributeLocations)
      ensures old(Valid(gl)) ==> Valid(gl)
    {
      var glsls := ProgramGlsls(fragment.glsl, vertex.glsl);
      ghost var spec := CompileProgramSpec(gl.driver, programs, gl.trace, glsls, vertex.attributeLocations);
      if glsls in programs {
        return programs[glsls];
      }

      var fragmentShader := CompileGlsl(gl, Fragment, fragment.glsl);
      if fragmentShader == NULL_HANDLE {
        gl.LogCritical(Fragment, fragment.glsl);
        assert spec == Outcome(NULL_HANDLE, programs, gl.trace);
        return NULL_HANDLE;
      }
      var vertexShader := CompileGlsl(gl, Vertex, vertex.glsl);
      if vertexShader == NULL_HANDLE {
        gl.LogCritical(Vertex, vertex.glsl);
        assert spec == Outcome(NULL_HANDLE, programs, gl.trace);
        return NULL_HANDLE;
      }

      program := LinkStages(gl, fragmentShader, vertexShader, vertex.attributeLocations);
      if program == NULL_HANDLE {
        return NULL_HANDLE;
      }
      programs := programs[glsls := program];
      assert spec == Outcome(program, programs, gl.trace);
    }
  }
}
