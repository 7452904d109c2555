/**
 The graphics backend seen by the program compiler: the OpenGL entry points that
 compile_program.cpp calls, and the critical-severity log it writes to.

 The driver itself is foreign code, so it is an oracle. Every reply it gives
 (a new object name, a compile status, a link status) is a function of the
 history of calls it has received so far and of the call's own arguments; any
 concrete driver behaviour, failures included, is one choice of `Driver`.
 Object names are natural numbers and the name 0 is the null object: a
 creation call that returns 0 has failed.
 */
module GlBackend {

  /** An OpenGL object name; 0 stands for "no object". */
  type Handle = nat

  const NULL_HANDLE: Handle := 0

  datatype StageKind = Fragment | Vertex

  /** One call made to the backend, together with the reply it produced. */
  datatype Event =
    | ShaderCreated(kind: StageKind, shader: Handle)                      // glCreateShader
    | CompileAttempted(shader: Handle, source: string, compiled: bool)    // glShaderSource, glCompileShader, GL_COMPILE_STATUS
    | ProgramCreated(program: Handle)                                     // glCreateProgram
    | ShaderAttached(program: Handle, shader: Handle)                     // glAttachShader
    | AttribLocationBound(program: Handle, slot: nat, name: string)       // glBindAttribLocation
    | LinkAttempted(program: Handle, linked: bool)                        // glLinkProgram, GL_LINK_STATUS
    | ShaderDetached(program: Handle, shader: Handle)                     // glDetachShader
    | CriticalLogged(kind: StageKind, source: string)                     // LOG_CRITICAL with the failing stage's source

  /** The driver's replies, each decided by the calls made before it. */
  datatype Driver = Driver(
    shaderName: (seq<Event>, StageKind) -> Handle,
    compiles: (seq<Event>, Handle, string) -> bool,
    programName: seq<Event> -> Handle,
    links: (seq<Event>, Handle) -> bool)

  /** The current graphics context and log, recording in order every call the model keeps. */
  class Backend {
    const driver: Driver
    var trace: seq<Event>

    constructor (driver: Driver)
      ensures this.driver == driver && trace == []
    {
      this.driver := driver;
      trace := [];
    }

    method CreateShader(kind: StageKind) returns (shader: Handle)
      modifies this
      ensures shader == driver.shaderName(old(trace), kind)
      ensures trace == old(trace) + [ShaderCreated(kind, shader)]
    {
      shader := driver.shaderName(trace, kind);
      trace := trace + [ShaderCreated(kind, shader)];
    }

    /** Sets the shader's source, compiles it and reports its compile status. */
    method CompileShader(shader: Handle, source: string) returns (compiled: bool)
      modifies this
      ensures compiled == driver.compiles(old(trace), shader, source)
      ensures trace == old(trace) + [CompileAttempted(shader, source, compiled)]
    {
      compiled := driver.compiles(trace, shader, source);
      trace := trace + [CompileAttempted(shader, source, compiled)];
    }

    method CreateProgram() returns (program: Handle)
      modifies this
      ensures program == driver.programName(old(trace))
      ensures trace == old(trace) + [ProgramCreated(program)]
    {
      program := driver.programName(trace);
      trace := trace + [ProgramCreated(program)];
    }

    method AttachShader(program: Handle, shader: Handle)
      modifies this
      ensures trace == old(trace) + [ShaderAttached(program, shader)]
    {
      trace := trace + [ShaderAttached(program, shader)];
    }

    method BindAttribLocation(program: Handle, slot: nat, name: string)
      modifies this
      ensures trace == old(trace) + [AttribLocationBound(program, slot, name)]
    {
      trace := trace + [AttribLocationBound(program, slot, name)];
    }

    /** Links the program and reports its link status. */
    method LinkProgram(program: Handle) returns (linked: bool)
      modifies this
      ensures linked == driver.links(old(trace), program)
      ensures trace == old(trace) + [LinkAttempted(program, linked)]
    {
      linked := driver.links(trace, program);
      trace := trace + [LinkAttempted(program, linked)];
    }

    method DetachShader(program: Handle, shader: Handle)
      modifies this
      ensures trace == old(trace) + [ShaderDetached(program, shader)]
    {
      trace := trace + [ShaderDetached(program, shader)];
    }

    method LogCritical(kind: StageKind, source: string)
      modifies this
      ensures trace == old(trace) + [CriticalLogged(kind, source)]
    {
      trace := trace + [CriticalLogged(kind, source)];
    }
  }
}
