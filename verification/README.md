# Shader program cache — a Dafny model

This project models the shader-program cache of the Vita3K OpenGL renderer,
`renderer::compile_program` in `src/emulator/renderer/src/compile_program.cpp`, and its two
helpers, `compile_glsl` and `bind_attribute_locations`.

`compile_program` takes the GLSL text of the current fragment program and vertex program. It
looks up the ordered pair (fragment GLSL, vertex GLSL) in the renderer's `ProgramCache`. On a
hit it returns the stored program. On a miss it does the following:

1. It compiles the fragment stage, then the vertex stage. If a stage fails, it logs that
   stage's source and returns null.
2. It creates a program object and attaches the fragment shader, then the vertex shader.
3. It binds every attribute of the vertex program to slot `offset / 4`.
4. It links the program and checks the link status. A failed link returns null.
5. Only after a successful link does it detach both shaders, insert the pair into the cache
   and return the program.

## How the model is built

- `gl_backend.dfy` (module `GlBackend`) stands for the OpenGL driver and the log.
  - The driver is an oracle, a `Driver` value. Each reply is a function of the calls made
    so far and of the call's arguments. The replies are the name from `glCreateShader`, the
    compile status, the name from `glCreateProgram` and the link status.
  - Every call the model keeps is recorded with its reply in `Backend.trace`, and so are the
    `LOG_CRITICAL` messages. The calls it leaves out are listed under "Left out".
  - Object names are natural numbers, and 0 is the null object. A creation that returns 0
    has failed.
- `compile_program.dfy` (module `ProgramCompiler`) defines each operation twice:
  - a function that says which calls it makes and what it returns (`CompileGlslSpec`,
    `BindEvents`, `LinkStagesSpec`, `CompileProgramSpec`);
  - the imperative code that makes those calls one after another on a `Backend`
    (`CompileGlsl`, `BindAttributeLocations` with its loop, `LinkStages`, and
    `ProgramCache.CompileProgram`).

  Each method is proved to leave exactly the trace, result and cache that its function
  gives. The cache is a class whose field `programs` is a map from `ProgramGlsls` to a
  program name. `CompileProgram` updates that map in place.
- `cache_properties.dfy` (module `CacheProperties`) proves the cache's promises about
  `CompileProgramSpec`, and so about every run of `CompileProgram`:
  - what a hit does;
  - what each failure leaves behind;
  - the order of the backend calls;
  - the invariant that the cache holds only linked programs;
  - that entries persist across any sequence of requests.

In the source, the linking steps (lines 81-112) are inline in `compile_program`. The model
gives them their own function and method, `LinkStagesSpec` and `LinkStages`, and
`CompileProgram` calls the method at the point where those lines stand. The calls made and
their order are unchanged.

The cache key holds only the two GLSL strings. A failed request caches nothing, so a hit
returns the program that was linked with the attribute locations of the first *successful*
request for that pair.
`SuccessIsCachedAndReused` states this for any later attribute list.

## Model

| member | source | states |
|---|---|---|
| GlBackend.Backend.CreateShader | src/emulator/renderer/src/compile_program.cpp:17 | the shader name is the driver's reply and the call is recorded with it |
| GlBackend.Backend.CompileShader | src/emulator/renderer/src/compile_program.cpp:21-25 | setting the source and compiling records the source and the compile status read at line 39 |
| GlBackend.Backend.CreateProgram | src/emulator/renderer/src/compile_program.cpp:82 | the program name is the driver's reply and the call is recorded with it |
| GlBackend.Backend.AttachShader | src/emulator/renderer/src/compile_program.cpp:86-87 | attaching a shader appends exactly that call to the trace |
| GlBackend.Backend.BindAttribLocation | src/emulator/renderer/src/compile_program.cpp:52 | binding appends exactly that call, with its slot and name |
| GlBackend.Backend.LinkProgram | src/emulator/renderer/src/compile_program.cpp:91 | linking records the link status the driver reports, which is read at line 105 |
| GlBackend.Backend.DetachShader | src/emulator/renderer/src/compile_program.cpp:111-112 | detaching a shader appends exactly that call to the trace |
| GlBackend.Backend.LogCritical | src/emulator/renderer/src/compile_program.cpp:72 | the failing stage's kind and full source are logged |
| ProgramCompiler.AttributeSlot | src/emulator/renderer/src/compile_program.cpp:52 | the slot is the byte offset divided by sizeof(uint32_t): 4*slot <= offset < 4*slot + 4 |
| ProgramCompiler.BindEvents | src/emulator/renderer/src/compile_program.cpp:51-53 | one bind per attribute entry, in iteration order; entry i goes to slot offset/4 under its own name |
| ProgramCompiler.BindAttributeLocations | src/emulator/renderer/src/compile_program.cpp:48-54 | the loop appends exactly BindEvents(program, attributes) to the trace |
| ProgramCompiler.CompileGlslSpec | src/emulator/renderer/src/compile_program.cpp:13-46 | the first call creates a shader of that kind and records the driver's name for it; a null name ends the stage; otherwise the source is compiled and the driver's compile status recorded; a shader is returned exactly when the driver's name is non-null and its compile status is true, and it is that name; otherwise null |
| ProgramCompiler.CompileGlsl | src/emulator/renderer/src/compile_program.cpp:16-45 | the create/compile/check steps return and record exactly what CompileGlslSpec gives |
| ProgramCompiler.LinkStagesSpec | src/emulator/renderer/src/compile_program.cpp:81-112 | the first call creates the program under the driver's name; a null name ends linking with a null result; otherwise, once the program is created, both stages attached and every attribute bound, the recorded link status is the driver's, the program is returned exactly when the driver reports it linked, and a returned program's link is followed by detaching the fragment then the vertex shader |
| ProgramCompiler.LinkStages | src/emulator/renderer/src/compile_program.cpp:81-112 | the create/attach/bind/link/check/detach steps return and record exactly what LinkStagesSpec gives |
| ProgramCompiler.CompileProgramSpec | src/emulator/renderer/src/compile_program.cpp:56-117 | the trace only grows; a hit returns the stored program with no change; a null result leaves the cache as it was; a non-null result is the program now cached under the pair; the only possible cache change is inserting the pair on a miss; the cache invariant is kept |
| ProgramCompiler.ProgramCache.CompileProgram | src/emulator/renderer/src/compile_program.cpp:56-117 | the result, the new cache and the backend trace are those of CompileProgramSpec; the cache stays valid |
| CacheProperties.CacheHitDoesNoWork | src/emulator/renderer/src/compile_program.cpp:64-68 | on a hit the result is exactly the stored program; no backend call is made and the cache is unchanged |
| CacheProperties.OtherPairsUnaffected | src/emulator/renderer/src/compile_program.cpp:64-65 | a pair that differs in either string keeps its presence and its value, whatever the request does |
| CacheProperties.FragmentFailureStopsEarly | src/emulator/renderer/src/compile_program.cpp:70-74 | a failed fragment stage gives null and an unchanged cache; the new calls are exactly the fragment stage's calls and then one critical log of the fragment source, the only log of the request; no vertex shader is created and no program is created or linked |
| CacheProperties.VertexFailureSkipsLink | src/emulator/renderer/src/compile_program.cpp:75-79 | a failed vertex stage after a good fragment stage gives null and an unchanged cache; the new calls are exactly the two stages' calls and then one critical log of the vertex source, the only log of the request; no program is created or linked |
| CacheProperties.FailureIsRetried | src/emulator/renderer/src/compile_program.cpp:81-84 | after any null result on a miss the pair is still absent, and the next request for it starts again by creating a fragment shader |
| CacheProperties.SuccessIsCachedAndReused | src/emulator/renderer/src/compile_program.cpp:114-116 | a successful miss adds exactly pair -> program; a second request for the pair returns the same program with no backend work, whatever its attributes |
| CacheProperties.EarlyExitTouchesNoProgram | src/emulator/renderer/src/compile_program.cpp:70-79 | a miss that stops at a stage makes only shader-creation, compile and log calls, returns null and leaves the cache unchanged |
| CacheProperties.LinkStagesCallOrder | src/emulator/renderer/src/compile_program.cpp:81-112 | linking makes exactly these calls: create; then, if the program exists, attach fragment, attach vertex, the binds, link; then detach both only when the link succeeded; the result is the created program exactly when it is non-null and the driver reports it linked, and null otherwise |
| CacheProperties.MissCallOrder | src/emulator/renderer/src/compile_program.cpp:70-91 | when both stages compile, the calls are the fragment stage, then the vertex stage, then the linking calls, in that order; a non-null result is the created program |
| CacheProperties.AttributesBoundBeforeLink | src/emulator/renderer/src/compile_program.cpp:89-91 | every attribute is bound, in order and at slot offset/4, right before the link (after two compiles, the create and two attaches), and nothing is bound after the link |
| CacheProperties.LinkedCallsBindBeforeLink | src/emulator/renderer/src/compile_program.cpp:51-53 | in the call layout of a miss that reaches linking, the binds come right before the only link, and no bind follows it |
| CacheProperties.DetachOnlyAfterSuccessfulLink | src/emulator/renderer/src/compile_program.cpp:104-112 | every detach in a request comes after that program's link was reported successful; a failed link is never followed by a detach |
| CacheProperties.LinkedCallsDetachAfterLink | src/emulator/renderer/src/compile_program.cpp:107-112 | in the call layout of a miss that reaches linking, every detach follows a successful link of the same program |
| CacheProperties.EntriesPersist | src/emulator/renderer/src/compile_program.cpp:65-68 | a cached pair keeps its program across any sequence of later requests, because there is no eviction |
| CacheProperties.SessionKeepsCacheValid | src/emulator/renderer/src/compile_program.cpp:104-114 | across any sequence of requests, every cached program is non-null and its link was reported successful |
| CacheProperties.CachedRequestsDoNoWork | src/emulator/renderer/src/compile_program.cpp:65-67 | requests whose pairs are all cached make no backend call and change nothing |
| CacheProperties.OnlyLinkFollowsBinds | src/emulator/renderer/src/compile_program.cpp:89-91 | in head + binds + link + tail, where only the link is a link, the binds sit right before it and none follow it |
| CacheProperties.ScenarioValidPairIsCached | src/emulator/renderer/src/compile_program.cpp:70-116 | with a driver that accepts both sources, ("void main(){gl_Position=vec4(0);}", "void main(){}") with no attributes gives program 5, cached under exactly that pair, after exactly the ten calls create/compile fragment, create/compile vertex, create program, attach both, link, detach both |
| CacheProperties.ScenarioSyntaxError | src/emulator/renderer/src/compile_program.cpp:70-74 | a fragment source "syntax error" that fails to compile gives null and leaves the cache empty; the calls are exactly the fragment shader's creation, its failed compile and one critical log of that text |
| CacheProperties.StagesCompileExactlyWhenDriverAccepts | src/emulator/renderer/src/compile_program.cpp:70-79 | both stages of a miss compile exactly when the driver creates a non-null fragment shader that compiles and then a non-null vertex shader that compiles; the stages then carry the driver's names and leave exactly those four calls |
| CacheProperties.MissSucceedsExactlyWhenDriverAccepts | src/emulator/renderer/src/compile_program.cpp:70-116 | a miss returns a program exactly when the driver accepts every step (both shaders created and compiled, the program created and linked after the attaches and binds); then the program is the driver's program name and the cache gains exactly pair -> program |

## Left out

- The OpenGL calls themselves. They are foreign code, so the `Driver` oracle stands in for
  them and may reply anything.
- The info-log queries and `LOG_ERROR` (lines 27-36 and 93-102). They only read and print
  driver diagnostics and never change the result. The critical log of the failing stage's
  source (lines 72 and 77) is modelled.
- `R_PROFILE` and the includes.
- The debug-build `assert`s at lines 40, 59-60 and 106. Lines 40 and 106 would stop a
  debug build on the very failures that the release build handles, so the model follows
  the release build, which returns null. Lines 59-60 hold by construction, because the model
  takes the two programs as values.
- Reference counting and deletion. This covers `shared_ptr` and the deleters given to
  `GLObject::init`, including the `glDeleteShader`/`glDeleteProgram` calls when an object
  is dropped. Their effects cannot be seen in the results. `GLObject::init` is not part of
  this model: an initialised object is taken to be one whose name is non-zero.
- Reading the two programs from guest memory through `MemState` (lines 62-63). The GLSL
  strings and the attribute locations are direct inputs.
- Thread safety. The source has no synchronisation and the model assumes a single caller.
- Fixed-width integers in the attribute binder. Offsets are natural numbers. The map's
  entries are taken in its iteration order. A negative offset cannot be expressed, and
  neither can the truncation of `offset / 4` to a 32-bit `GLuint`.
- Separate `glShaderSource` and `glCompileShader` events. They are merged with the
  compile-status query into one `CompileAttempted` event. Likewise `glLinkProgram` and the
  link-status query are one `LinkAttempted` event.
- Deadlines and cancellation, which the source does not have.
