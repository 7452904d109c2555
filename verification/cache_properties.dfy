/**
 Properties of the program cache and its compile/link pipeline, proved about the
 reference definitions in ProgramCompiler (which ProgramCache.CompileProgram is
 proved to follow call for call).
 */
module CacheProperties {
  import opened GlBackend
  import opened ProgramCompiler

  /** The backend calls one request made, after the calls made before it. */
  function NewEvents(trace: seq<Event>, o: Outcome): seq<Event>
    requires |trace| <= |o.trace|
  {
    o.trace[|trace|..]
  }

  /**
   A hit returns exactly the stored program, and makes no backend call and no cache change.
   CompileProgramSpec's own contract already carries this fact; the lemma gives it a name.
   */
  lemma CacheHitDoesNoWork(d: Driver, cache: Cache, trace: seq<Event>, glsls: ProgramGlsls,
                           attributes: seq<AttributeLocation>)
    requires glsls in cache
    ensures var o := CompileProgramSpec(d, cache, trace, glsls, attributes);
            o.program == cache[glsls] && o.cache == cache && o.trace == trace
  {
  }

  /** Keys are compared as whole pairs: a request for one pair never changes the entry of another. */
  lemma OtherPairsUnaffected(d: Driver, cache: Cache, trace: seq<Event>, glsls: ProgramGlsls,
                             attributes: seq<AttributeLocation>, other: ProgramGlsls)
    requires other.fragment != glsls.fragment || other.vertex != glsls.vertex
    ensures var o := CompileProgramSpec(d, cache, trace, glsls, attributes);
            (other in o.cache <==> other in cache) && (other in cache ==> o.cache[other] == cache[other])
  {
  }

  /**
   A fragment stage that fails to compile ends the request: the result is null, the cache is
   unchanged, and the new calls are the fragment stage's calls followed by one critical log of
   the fragment source; no vertex shader or program is created and nothing is linked.
   */
  lemma FragmentFailureStopsEarly(d: Driver, cache: Cache, trace: seq<Event>, glsls: ProgramGlsls,
                                  attributes: seq<AttributeLocation>)
    requires glsls !in cache
    requires CompileGlslSpec(d, trace, Fragment, glsls.fragment).shader == NULL_HANDLE
    ensures var o := CompileProgramSpec(d, cache, trace, glsls, attributes);
            var events := NewEvents(trace, o);
            && o.program == NULL_HANDLE && o.cache == cache
            && o.trace == CompileGlslSpec(d, trace, Fragment, glsls.fragment).trace + [CriticalLogged(Fragment, glsls.fragment)]
            && (forall e :: e in events ==> !(e.ShaderCreated? && e.kind == Vertex))
            && (forall e :: e in events ==> !e.ProgramCreated? && !e.LinkAttempted?)
            && events[|events| - 1] == CriticalLogged(Fragment, glsls.fragment)
            && (forall i :: 0 <= i < |events| - 1 ==> !events[i].CriticalLogged?)
  {
  }

  /**
   A vertex stage that fails to compile after the fragment stage compiled ends the request:
   null result, cache unchanged, and the new calls are the two stages' calls followed by one
   critical log of the vertex source; no program is created or linked.
   */
  lemma VertexFailureSkipsLink(d: Driver, cache: Cache, trace: seq<Event>, glsls: ProgramGlsls,
                               attributes: seq<AttributeLocation>)
    requires glsls !in cache
    requires CompileGlslSpec(d, trace, Fragment, glsls.fragment).shader != NULL_HANDLE
    requires var fragment := CompileGlslSpec(d, trace, Fragment, glsls.fragment);
             CompileGlslSpec(d, fragment.trace, Vertex, glsls.vertex).shader == NULL_HANDLE
    ensures var o := CompileProgramSpec(d, cache, trace, glsls, attributes);
            var fragment := CompileGlslSpec(d, trace, Fragment, glsls.fragment);
            var events := NewEvents(trace, o);
            && o.program == NULL_HANDLE && o.cache == cache
            && o.trace == CompileGlslSpec(d, fragment.trace, Vertex, glsls.vertex).trace + [CriticalLogged(Vertex, glsls.vertex)]
            && (forall e :: e in events ==> !e.ProgramCreated? && !e.LinkAttempted?)
            && events[|events| - 1] == CriticalLogged(Vertex, glsls.vertex)
            && (forall i :: 0 <= i < |events| - 1 ==> !events[i].CriticalLogged?)
  {
  }

  /**
   A miss that ends in a null result (a stage, the program allocation or the link failed)
   caches nothing, so the next request for the same pair compiles again from the fragment stage.
   */
  lemma FailureIsRetried(d: Driver, cache: Cache, trace: seq<Event>, glsls: ProgramGlsls,
                         attributes: seq<AttributeLocation>, laterAttributes: seq<AttributeLocation>)
    requires glsls !in cache
    requires CompileProgramSpec(d, cache, trace, glsls, attributes).program == NULL_HANDLE
    ensures var o := CompileProgramSpec(d, cache, trace, glsls, attributes);
            var retry := CompileProgramSpec(d, o.cache, o.trace, glsls, laterAttributes);
            && glsls !in o.cache
            && |o.trace| < |retry.trace|
            && retry.trace[|o.trace|].ShaderCreated? && retry.trace[|o.trace|].kind == Fragment
  {
    var o := CompileProgramSpec(d, cache, trace, glsls, attributes);
    var fragment := CompileGlslSpec(d, o.trace, Fragment, glsls.fragment);
    assert fragment.trace[|o.trace|].ShaderCreated?;
  }

  /**
   A successful miss caches exactly glsls -> program, and a second request for the same
   pair returns that same program with no backend work.
   */
  lemma SuccessIsCachedAndReused(d: Driver, cache: Cache, trace: seq<Event>, glsls: ProgramGlsls,
                                 attributes: seq<AttributeLocation>, laterAttributes: seq<AttributeLocation>)
    requires glsls !in cache
    requires CompileProgramSpec(d, cache, trace, glsls, attributes).program != NULL_HANDLE
    ensures var o := CompileProgramSpec(d, cache, trace, glsls, attributes);
            && o.cache == cache[glsls := o.program]
            && CompileProgramSpec(d, o.cache, o.trace, glsls, laterAttributes) == Outcome(o.program, o.cache, o.trace)
  {
  }

  /** The fragment stage a miss on `glsls` compiles first. */
  function FragmentStage(d: Driver, trace: seq<Event>, glsls: ProgramGlsls): Stage
  {
    CompileGlslSpec(d, trace, Fragment, glsls.fragment)
  }

  /** The vertex stage a miss on `glsls` compiles second, after the fragment stage's calls. */
  function VertexStage(d: Driver, trace: seq<Event>, glsls: ProgramGlsls): Stage
  {
    CompileGlslSpec(d, FragmentStage(d, trace, glsls).trace, Vertex, glsls.vertex)
  }

  /**
   A miss that stops at a stage makes only shader-creation, compile and log calls:
   nothing is created, attached, bound, linked or detached on a program.
   */
  lemma EarlyExitTouchesNoProgram(d: Driver, cache: Cache, trace: seq<Event>, glsls: ProgramGlsls,
                                  attributes: seq<AttributeLocation>)
    requires glsls !in cache
    requires FragmentStage(d, trace, glsls).shader == NULL_HANDLE || VertexStage(d, trace, glsls).shader == NULL_HANDLE
    ensures var o := CompileProgramSpec(d, cache, trace, glsls, attributes);
            && o.program == NULL_HANDLE && o.cache == cache
            && forall e :: e in NewEvents(trace, o) ==> e.ShaderCreated? || e.CompileAttempted? || e.CriticalLogged?
  {
  }

  /**
   The calls that compile the fragment and then the vertex stage, both successfully. This and
   LinkCalls lay out again the calls of CompileGlslSpec and LinkStagesSpec as plain sequences;
   StagesCompileExactlyWhenDriverAccepts and LinkStagesCallOrder prove that they agree.
   */
  function StageCalls(fs: Handle, vs: Handle, glsls: ProgramGlsls): seq<Event>
  {
    [ShaderCreated(Fragment, fs), CompileAttempted(fs, glsls.fragment, true),
     ShaderCreated(Vertex, vs), CompileAttempted(vs, glsls.vertex, true)]
  }

  /**
   The calls that link two stages into program `p`: create it; if it exists, attach the
   fragment then the vertex shader, bind every attribute, link; and only if the link
   succeeded, detach the fragment then the vertex shader.
   */
  function LinkCalls(p: Handle, fs: Handle, vs: Handle, linked: bool, attributes: seq<AttributeLocation>): seq<Event>
  {
    if p == NULL_HANDLE then [ProgramCreated(p)]
    else [ProgramCreated(p), ShaderAttached(p, fs), ShaderAttached(p, vs)] + BindEvents(p, attributes)
         + [LinkAttempted(p, linked)]
         + (if linked then [ShaderDetached(p, fs), ShaderDetached(p, vs)] else [])
  }

  /**
   Linking makes exactly the calls of LinkCalls, and the driver's link status decides the
   result: the created program is returned exactly when it is non-null and the driver reports
   it linked once both stages are attached and every attribute is bound.
   */
  lemma LinkStagesCallOrder(d: Driver, trace: seq<Event>, fs: Handle, vs: Handle, attributes: seq<AttributeLocation>)
    ensures var r := LinkStagesSpec(d, trace, fs, vs, attributes);
            var p := d.programName(trace);
            var linked := p != NULL_HANDLE && d.links(BoundTrace(trace, p, fs, vs, attributes), p);
            && r.program == (if linked then p else NULL_HANDLE)
            && r.trace == trace + LinkCalls(p, fs, vs, linked, attributes)
  {
    var r := LinkStagesSpec(d, trace, fs, vs, attributes);
    var p := d.programName(trace);
    if p != NULL_HANDLE {
      var bound := BoundTrace(trace, p, fs, vs, attributes);
      var linked := d.links(bound, p);
      var tail := if linked then [ShaderDetached(p, fs), ShaderDetached(p, vs)] else [];
      assert r.trace == bound + [LinkAttempted(p, linked)] + tail;
      LinkCallsFollowBoundTrace(trace, p, fs, vs, linked, attributes);
    }
  }

  /** The linking calls of a non-null program, laid out around the trace at the moment of linking. */
  lemma LinkCallsFollowBoundTrace(trace: seq<Event>, p: Handle, fs: Handle, vs: Handle, linked: bool,
                                  attributes: seq<AttributeLocation>)
    requires p != NULL_HANDLE
    ensures trace + LinkCalls(p, fs, vs, linked, attributes)
         == BoundTrace(trace, p, fs, vs, attributes) + [LinkAttempted(p, linked)]
            + (if linked then [ShaderDetached(p, fs), ShaderDetached(p, vs)] else [])
  {
  }

  /**
   The calls of a miss whose two stages compile, in order: the fragment stage, then the vertex
   stage, then the linking calls of LinkCalls; a program is returned only if its link succeeded.
   */
  lemma MissCallOrder(d: Driver, cache: Cache, trace: seq<Event>, glsls: ProgramGlsls,
                      attributes: seq<AttributeLocation>)
    requires glsls !in cache
    requires FragmentStage(d, trace, glsls).shader != NULL_HANDLE && VertexStage(d, trace, glsls).shader != NULL_HANDLE
    ensures var o := CompileProgramSpec(d, cache, trace, glsls, attributes);
            var fs := FragmentStage(d, trace, glsls).shader;
            var vs := VertexStage(d, trace, glsls).shader;
            var p := d.programName(VertexStage(d, trace, glsls).trace);
            && (o.program != NULL_HANDLE ==> o.program == p)
            && NewEvents(trace, o) == StageCalls(fs, vs, glsls) + LinkCalls(p, fs, vs, o.program != NULL_HANDLE, attributes)
  {
    var fragment := FragmentStage(d, trace, glsls);
    var vertex := VertexStage(d, trace, glsls);
    var linkage := LinkStagesSpec(d, vertex.trace, fragment.shader, vertex.shader, attributes);
    LinkStagesCallOrder(d, vertex.trace, fragment.shader, vertex.shader, attributes);
    assert fragment.trace == trace + fragment.trace[|trace|..];
    assert vertex.trace == fragment.trace + vertex.trace[|fragment.trace|..];
    assert vertex.trace == trace + StageCalls(fragment.shader, vertex.shader, glsls);
  }

  /** The fragment shader name the driver gives a miss at `trace`, whether or not it is null. */
  function DriverFragmentName(d: Driver, trace: seq<Event>): Handle
  {
    d.shaderName(trace, Fragment)
  }

  /** The vertex shader name the driver would give once the fragment stage has compiled. */
  function DriverVertexName(d: Driver, trace: seq<Event>, glsls: ProgramGlsls): Handle
  {
    var fs := DriverFragmentName(d, trace);
    d.shaderName(trace + [ShaderCreated(Fragment, fs), CompileAttempted(fs, glsls.fragment, true)], Vertex)
  }

  /** The program name the driver would give once both stages have compiled. */
  function DriverProgramName(d: Driver, trace: seq<Event>, glsls: ProgramGlsls): Handle
  {
    d.programName(trace + StageCalls(DriverFragmentName(d, trace), DriverVertexName(d, trace, glsls), glsls))
  }

  /** The driver creates and compiles both stages of a miss. */
  ghost predicate DriverAcceptsStages(d: Driver, trace: seq<Event>, glsls: ProgramGlsls)
  {
    var fs := DriverFragmentName(d, trace);
    var vs := DriverVertexName(d, trace, glsls);
    && fs != NULL_HANDLE && d.compiles(trace + [ShaderCreated(Fragment, fs)], fs, glsls.fragment)
    && vs != NULL_HANDLE
    && d.compiles(trace + [ShaderCreated(Fragment, fs), CompileAttempted(fs, glsls.fragment, true), ShaderCreated(Vertex, vs)],
                  vs, glsls.vertex)
  }

  /**
   The driver's replies to a miss all succeed: both stages are accepted, and the program is
   created non-null and links once both stages are attached and every attribute is bound.
   */
  ghost predicate DriverAcceptsAll(d: Driver, trace: seq<Event>, glsls: ProgramGlsls, attributes: seq<AttributeLocation>)
  {
    var fs := DriverFragmentName(d, trace);
    var vs := DriverVertexName(d, trace, glsls);
    var p := DriverProgramName(d, trace, glsls);
    && DriverAcceptsStages(d, trace, glsls)
    && p != NULL_HANDLE && d.links(BoundTrace(trace + StageCalls(fs, vs, glsls), p, fs, vs, attributes), p)
  }

  /** Both stages compile exactly when the driver accepts them, and then they carry the driver's names. */
  lemma StagesCompileExactlyWhenDriverAccepts(d: Driver, trace: seq<Event>, glsls: ProgramGlsls)
    ensures (FragmentStage(d, trace, glsls).shader != NULL_HANDLE && VertexStage(d, trace, glsls).shader != NULL_HANDLE)
            <==> DriverAcceptsStages(d, trace, glsls)
    ensures DriverAcceptsStages(d, trace, glsls) ==>
              && FragmentStage(d, trace, glsls).shader == DriverFragmentName(d, trace)
              && VertexStage(d, trace, glsls).shader == DriverVertexName(d, trace, glsls)
              && VertexStage(d, trace, glsls).trace
                 == trace + StageCalls(DriverFragmentName(d, trace), DriverVertexName(d, trace, glsls), glsls)
  {
    var fragment := FragmentStage(d, trace, glsls);
    var fs := DriverFragmentName(d, trace);
    if fragment.shader != NULL_HANDLE {
      var afterFs := trace + [ShaderCreated(Fragment, fs), CompileAttempted(fs, glsls.fragment, true)];
      assert fragment.trace == afterFs;
      var vertex := VertexStage(d, trace, glsls);
      var vs := DriverVertexName(d, trace, glsls);
      assert afterFs + [ShaderCreated(Vertex, vs)]
          == trace + [ShaderCreated(Fragment, fs), CompileAttempted(fs, glsls.fragment, true), ShaderCreated(Vertex, vs)];
      if vertex.shader != NULL_HANDLE {
        assert vertex.trace == afterFs + [ShaderCreated(Vertex, vertex.shader), CompileAttempted(vertex.shader, glsls.vertex, true)];
      }
    }
  }

  /**
   A miss returns a program exactly when the driver accepts every step, and then the program
   is the one the driver created and the cache gains exactly glsls -> program.
   */
  lemma MissSucceedsExactlyWhenDriverAccepts(d: Driver, cache: Cache, trace: seq<Event>, glsls: ProgramGlsls,
                                             attributes: seq<AttributeLocation>)
    requires glsls !in cache
    ensures var o := CompileProgramSpec(d, cache, trace, glsls, attributes);
            && (o.program != NULL_HANDLE <==> DriverAcceptsAll(d, trace, glsls, attributes))
            && (DriverAcceptsAll(d, trace, glsls, attributes) ==>
                  o.program == DriverProgramName(d, trace, glsls) && o.cache == cache[glsls := o.program])
  {
    StagesCompileExactlyWhenDriverAccepts(d, trace, glsls);
    if DriverAcceptsStages(d, trace, glsls) {
      var vertex := VertexStage(d, trace, glsls);
      LinkStagesCallOrder(d, vertex.trace, FragmentStage(d, trace, glsls).shader, vertex.shader, attributes);
    }
  }

  /** The ordering of binds and link as a property of a request's new calls. */
  ghost predicate BindsRightBeforeLink(events: seq<Event>, attributes: seq<AttributeLocation>)
  {
    forall i :: 0 <= i < |events| && events[i].LinkAttempted? ==>
      && 7 + |attributes| == i
      && events[7..i] == BindEvents(events[i].program, attributes)
      && (forall j :: i < j < |events| ==> !events[j].AttribLocationBound?)
  }

  /**
   Every attribute entry is bound, at slot offset / 4 and in iteration order, immediately
   before the program is linked (after the two compiles, the program creation and the two
   attaches), and nothing is bound after the link.
   */
  lemma AttributesBoundBeforeLink(d: Driver, cache: Cache, trace: seq<Event>, glsls: ProgramGlsls,
                                  attributes: seq<AttributeLocation>)
    ensures var o := CompileProgramSpec(d, cache, trace, glsls, attributes);
            BindsRightBeforeLink(NewEvents(trace, o), attributes)
  {
    var o := CompileProgramSpec(d, cache, trace, glsls, attributes);
    var events := NewEvents(trace, o);
    if glsls in cache {
      assert events == [];
    } else if FragmentStage(d, trace, glsls).shader == NULL_HANDLE || VertexStage(d, trace, glsls).shader == NULL_HANDLE {
      EarlyExitTouchesNoProgram(d, cache, trace, glsls, attributes);
      assert forall i :: 0 <= i < |events| ==> events[i] in events;
    } else {
      MissCallOrder(d, cache, trace, glsls, attributes);
      var fs := FragmentStage(d, trace, glsls).shader;
      var vs := VertexStage(d, trace, glsls).shader;
      var p := d.programName(VertexStage(d, trace, glsls).trace);
      LinkedCallsBindBeforeLink(fs, vs, p, o.program != NULL_HANDLE, glsls, attributes);
    }
  }

  lemma LinkedCallsBindBeforeLink(fs: Handle, vs: Handle, p: Handle, linked: bool, glsls: ProgramGlsls,
                                  attributes: seq<AttributeLocation>)
    ensures BindsRightBeforeLink(StageCalls(fs, vs, glsls) + LinkCalls(p, fs, vs, linked, attributes), attributes)
  {
    var events := StageCalls(fs, vs, glsls) + LinkCalls(p, fs, vs, linked, attributes);
    if p == NULL_HANDLE {
      assert forall i :: 0 <= i < |events| ==> events[i] in events;
    } else {
      var head := StageCalls(fs, vs, glsls) + [ProgramCreated(p), ShaderAttached(p, fs), ShaderAttached(p, vs)];
      var binds := BindEvents(p, attributes);
      var tail := if linked then [ShaderDetached(p, fs), ShaderDetached(p, vs)] else [];
      assert events == head + binds + [LinkAttempted(p, linked)] + tail;
      forall e | e in binds
        ensures e.AttribLocationBound?
      {
        var k :| 0 <= k < |binds| && binds[k] == e;
      }
      OnlyLinkFollowsBinds(head, binds, LinkAttempted(p, linked), tail);
    }
  }

  /** In head + binds + [link] + tail, where only `link` is a link and `tail` binds nothing, the binds sit right before the link. */
  lemma OnlyLinkFollowsBinds(head: seq<Event>, binds: seq<Event>, link: Event, tail: seq<Event>)
    requires link.LinkAttempted?
    requires forall e :: e in head ==> !e.LinkAttempted?
    requires forall e :: e in binds ==> e.AttribLocationBound?
    requires forall e :: e in tail ==> !e.LinkAttempted? && !e.AttribLocationBound?
    ensures var events := head + binds + [link] + tail;
            forall i :: 0 <= i < |events| && events[i].LinkAttempted? ==>
              && i == |head| + |binds|
              && events[|head|..i] == binds
              && (forall j :: i < j < |events| ==> !events[j].AttribLocationBound?)
  {
    var events := head + binds + [link] + tail;
    var at := |head| + |binds|;
    forall i | 0 <= i < |events| && i != at
      ensures !events[i].LinkAttempted?
    {
      if i < |head| {
        assert events[i] == head[i] && head[i] in head;
      } else if i < at {
        assert events[i] == binds[i - |head|] && binds[i - |head|] in binds;
      } else {
        assert events[i] == tail[i - at - 1] && tail[i - at - 1] in tail;
      }
    }
    assert events[|head|..at] == binds;
    forall j | at < j < |events|
      ensures !events[j].AttribLocationBound?
    {
      assert events[j] == tail[j - at - 1] && tail[j - at - 1] in tail;
    }
  }

  /** Detaching as a property of a request's new calls: only after a successful link of that program. */
  ghost predicate DetachFollowsSuccessfulLink(events: seq<Event>)
  {
    forall i :: 0 <= i < |events| && events[i].ShaderDetached? ==>
      exists j :: 0 <= j < i && events[j] == LinkAttempted(events[i].program, true)
  }

  /**
   Stages are detached only from a program whose link the backend has reported
   successful: a failed link is never followed by a detach.
   */
  lemma DetachOnlyAfterSuccessfulLink(d: Driver, cache: Cache, trace: seq<Event>, glsls: ProgramGlsls,
                                      attributes: seq<AttributeLocation>)
    ensures var o := CompileProgramSpec(d, cache, trace, glsls, attributes);
            DetachFollowsSuccessfulLink(NewEvents(trace, o))
  {
    var o := CompileProgramSpec(d, cache, trace, glsls, attributes);
    var events := NewEvents(trace, o);
    if glsls in cache {
      assert events == [];
    } else if FragmentStage(d, trace, glsls).shader == NULL_HANDLE || VertexStage(d, trace, glsls).shader == NULL_HANDLE {
      EarlyExitTouchesNoProgram(d, cache, trace, glsls, attributes);
      assert forall i :: 0 <= i < |events| ==> events[i] in events;
    } else {
      MissCallOrder(d, cache, trace, glsls, attributes);
      var fs := FragmentStage(d, trace, glsls).shader;
      var vs := VertexStage(d, trace, glsls).shader;
      var p := d.programName(VertexStage(d, trace, glsls).trace);
      LinkedCallsDetachAfterLink(fs, vs, p, o.program != NULL_HANDLE, glsls, attributes);
    }
  }

  lemma LinkedCallsDetachAfterLink(fs: Handle, vs: Handle, p: Handle, linked: bool, glsls: ProgramGlsls,
                                   attributes: seq<AttributeLocation>)
    ensures DetachFollowsSuccessfulLink(StageCalls(fs, vs, glsls) + LinkCalls(p, fs, vs, linked, attributes))
  {
    var events := StageCalls(fs, vs, glsls) + LinkCalls(p, fs, vs, linked, attributes);
    if p == NULL_HANDLE {
      assert forall i :: 0 <= i < |events| ==> events[i] in events;
    } else {
      var binds := BindEvents(p, attributes);
      var at := 7 + |binds|;
      forall i | 0 <= i < |events| && i <= at
        ensures !events[i].ShaderDetached?
      {
        if 7 <= i < at {
          assert events[i] == binds[i - 7];
        }
      }
      forall i | 0 <= i < |events| && events[i].ShaderDetached?
        ensures at < i && events[at] == LinkAttempted(events[i].program, true)
      {
      }
    }
  }

  /** A request as the renderer issues it: the current fragment and vertex programs. */
  datatype Request = Request(fragment: FragmentProgram, vertex: VertexProgram)

  function GlslsOf(r: Request): ProgramGlsls
  {
    ProgramGlsls(r.fragment.glsl, r.vertex.glsl)
  }

  /** The cache and backend trace after serving `requests` one after another. */
  datatype Session = Session(cache: Cache, trace: seq<Event>)

  function Serve(d: Driver, cache: Cache, trace: seq<Event>, requests: seq<Request>): Session
    decreases |requests|
  {
    if requests == [] then Session(cache, trace)
    else
      var first := CompileProgramSpec(d, cache, trace, GlslsOf(requests[0]), requests[0].vertex.attributeLocations);
      Serve(d, first.cache, first.trace, requests[1..])
  }

  /** There is no eviction: once a pair is cached, every later request leaves its entry as it is. */
  lemma {:induction false} EntriesPersist(d: Driver, cache: Cache, trace: seq<Event>, requests: seq<Request>,
                                          glsls: ProgramGlsls)
    requires glsls in cache
    ensures var s := Serve(d, cache, trace, requests);
            glsls in s.cache && s.cache[glsls] == cache[glsls]
    decreases |requests|
  {
    if requests != [] {
      var first := CompileProgramSpec(d, cache, trace, GlslsOf(requests[0]), requests[0].vertex.attributeLocations);
      EntriesPersist(d, first.cache, first.trace, requests[1..], glsls);
    }
  }

  /** Across any run of requests the cache holds only non-null, successfully linked programs. */
  lemma {:induction false} SessionKeepsCacheValid(d: Driver, cache: Cache, trace: seq<Event>, requests: seq<Request>)
    requires CacheValid(cache, trace)
    ensures var s := Serve(d, cache, trace, requests);
            CacheValid(s.cache, s.trace)
    decreases |requests|
  {
    if requests != [] {
      var first := CompileProgramSpec(d, cache, trace, GlslsOf(requests[0]), requests[0].vertex.attributeLocations);
      SessionKeepsCacheValid(d, first.cache, first.trace, requests[1..]);
    }
  }

  /** Requests whose pairs are all cached make no backend call at all. */
  lemma {:induction false} CachedRequestsDoNoWork(d: Driver, cache: Cache, trace: seq<Event>, requests: seq<Request>)
    requires forall i :: 0 <= i < |requests| ==> GlslsOf(requests[i]) in cache
    ensures Serve(d, cache, trace, requests) == Session(cache, trace)
    decreases |requests|
  {
    if requests != [] {
      CachedRequestsDoNoWork(d, cache, trace, requests[1..]);
    }
  }

  /** A driver that names objects after the length of the history, and fails only to compile the text "syntax error". */
  function ScenarioDriver(): Driver
  {
    Driver((h: seq<Event>, k: StageKind) => |h| + 1,
           (h: seq<Event>, s: Handle, src: string) => src != "syntax error",
           (h: seq<Event>) => |h| + 1,
           (h: seq<Event>, p: Handle) => true)
  }

  /**
   A pair that compiles and links, with no attribute bindings, yields the program created after
   the two stages, cached under exactly that pair, with both stages detached after the link.
   */
  lemma ScenarioValidPairIsCached()
    ensures var glsls := ProgramGlsls("void main(){gl_Position=vec4(0);}", "void main(){}");
            var o := CompileProgramSpec(ScenarioDriver(), map[], [], glsls, []);
            && o.program == 5 && o.cache == map[glsls := 5]
            && o.trace == [ShaderCreated(Fragment, 1), CompileAttempted(1, glsls.fragment, true),
                           ShaderCreated(Vertex, 3), CompileAttempted(3, glsls.vertex, true),
                           ProgramCreated(5), ShaderAttached(5, 1), ShaderAttached(5, 3),
                           LinkAttempted(5, true), ShaderDetached(5, 1), ShaderDetached(5, 3)]
  {
    var d := ScenarioDriver();
    var glsls := ProgramGlsls("void main(){gl_Position=vec4(0);}", "void main(){}");
    var fragment := CompileGlslSpec(d, [], Fragment, glsls.fragment);
    assert fragment == Stage(1, [ShaderCreated(Fragment, 1), CompileAttempted(1, glsls.fragment, true)]);
    var vertex := CompileGlslSpec(d, fragment.trace, Vertex, glsls.vertex);
    assert vertex == Stage(3, fragment.trace + [ShaderCreated(Vertex, 3), CompileAttempted(3, glsls.vertex, true)]);
    LinkStagesCallOrder(d, vertex.trace, 1, 3, []);
  }

  /**
   A fragment source "syntax error" yields null and caches nothing; the calls are the creation
   and failed compile of the fragment shader and one critical log of that text, and nothing else.
   */
  lemma ScenarioSyntaxError()
    ensures var glsls := ProgramGlsls("syntax error", "void main(){}");
            var o := CompileProgramSpec(ScenarioDriver(), map[], [], glsls, []);
            && o.program == NULL_HANDLE && o.cache == map[]
            && o.trace == [ShaderCreated(Fragment, 1), CompileAttempted(1, "syntax error", false),
                           CriticalLogged(Fragment, "syntax error")]
  {
  }
}
