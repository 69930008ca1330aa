/** CompileTraversal: the walk that asks every resource-owning node to compile
    itself, threading a context whose render pass and pipeline-state lists are
    scoped by the command-graph and render-graph boundary nodes.

    A node's own `compile(context)` is opaque; here it appends an event, carrying
    the context it was handed, to a trace. */
module CompileTraversal {
  import opened Vk

  datatype Extent2D = Extent2D(width: u32, height: u32)

  /** Pipeline-state fragments pushed onto the context's lists. */
  datatype PipelineState =
    | ViewportState(extent: Extent2D)       // `ViewportState::create(extent)`
    | MultisampleState(samples: u32)        // `MultisampleState::create(samples)`
    | CameraViewportState(id: int)          // a camera's own `ViewportState`

  datatype Window = Window(renderPass: int, extent: Extent2D, framebufferSamples: u32)

  /** `camera->getViewportState()`: the id of the camera's `ViewportState`, if any.
      Its viewports and scissors are not looked at. */
  datatype Camera = Camera(viewportState: Option<int>)

  /** The part of the compile context that the traversal itself changes. */
  datatype Context = Context(
    renderPass: Option<int>,
    defaultPipelineStates: seq<PipelineState>,
    overridePipelineStates: seq<PipelineState>)

  /** `node.compile(context)` was called with this context. */
  datatype Event = Compiled(node: int, context: Context)

  /** Scene nodes by the `apply` overload they land in. */
  datatype Node =
    | Group(children: seq<Node>)            // anything else: traversed only
    | Command(id: int)
    | Commands(id: int, children: seq<Node>)
    | StateGroup(id: int, children: seq<Node>)
    | Geometry(id: int, children: seq<Node>)
    | CommandGraph(window: Option<Window>, children: seq<Node>)
    | RenderGraph(renderPass: int, camera: Option<Camera>, window: Option<Window>, children: seq<Node>)

  /** A render graph needing its window's extent has no window: a null dereference. */
  datatype Error = NullWindow

  datatype Run = Run(context: Context, trace: seq<Event>)

  /** Where the command graph takes its snapshot of the two lists: after its own
      pushes (the code) or before them (what its comment says it does). */
  datatype SnapshotPoint = AfterPush | BeforePush

  function Compile(r: Run, id: int): Run
  {
    Run(r.context, r.trace + [Compiled(id, r.context)])
  }

  /** The multisample override a window asks for, if any. */
  function MultisampleOverride(w: Window): seq<PipelineState>
  {
    if w.framebufferSamples != SAMPLE_COUNT_1 then [MultisampleState(w.framebufferSamples)] else []
  }

  function Restore(c: Context, saved: Context): Context
  {
    c.(defaultPipelineStates := saved.defaultPipelineStates,
       overridePipelineStates := saved.overridePipelineStates)
  }

  /** Traverses `children` from `c`, then puts back `saved`'s two lists. */
  function Scoped(p: SnapshotPoint, r: Run, c: Context, saved: Context, children: seq<Node>): Result<Run, Error>
    decreases children, 1
  {
    match TraverseAll(p, Run(c, r.trace), children)
    case Err(e) => Err(e)
    case Ok(after) => Ok(Run(Restore(after.context, saved), after.trace))
  }

  function Traverse(p: SnapshotPoint, r: Run, n: Node): Result<Run, Error>
    decreases n, 2
  {
    match n
    case Group(children) => TraverseAll(p, r, children)
    case Command(id) => Ok(Compile(r, id))
    case Commands(id, _) => Ok(Compile(r, id))
    case StateGroup(id, children) => TraverseAll(p, Compile(r, id), children)
    case Geometry(id, children) => TraverseAll(p, Compile(r, id), children)
    case CommandGraph(window, children) =>
      if window.None? then
        TraverseAll(p, r, children)
      else
        var w := window.value;
        var c := r.context.(renderPass := Some(w.renderPass));
        var pushed := c.(defaultPipelineStates := c.defaultPipelineStates + [ViewportState(w.extent)],
                         overridePipelineStates := c.overridePipelineStates + MultisampleOverride(w));
        Scoped(p, r, pushed, if p == AfterPush then pushed else c, children)
    case RenderGraph(renderPass, camera, window, children) =>
      var c := r.context.(renderPass := Some(renderPass));
      var viewport :=
        if camera.Some? && camera.value.viewportState.Some? then Some(CameraViewportState(camera.value.viewportState.value))
        else if window.Some? then Some(ViewportState(window.value.extent))
        else None;
      if viewport.None? then
        Err(NullWindow)
      else
        var overrides := if window.Some? then MultisampleOverride(window.value) else [];
        var pushed := c.(defaultPipelineStates := c.defaultPipelineStates + [viewport.value],
                         overridePipelineStates := c.overridePipelineStates + overrides);
        Scoped(p, r, pushed, c, children)
  }

  function TraverseAll(p: SnapshotPoint, r: Run, ns: seq<Node>): Result<Run, Error>
    decreases ns, 0
  {
    if |ns| == 0 then Ok(r)
    else
      match Traverse(p, r, ns[0])
      case Err(e) => Err(e)
      case Ok(r') => TraverseAll(p, r', ns[1..])
  }

  // ---------------------------------------------------------------------------
  // Reference: what a traversal does, defined node by node

  /** A render graph without a camera viewport and without a window is reached.
      The children of a Command or Commands node are never reached. */
  ghost predicate Crashes(n: Node)
    decreases n, 1
  {
    match n
    case Group(children) => CrashesAll(children)
    case Command(_) => false
    case Commands(_, _) => false
    case StateGroup(_, children) => CrashesAll(children)
    case Geometry(_, children) => CrashesAll(children)
    case CommandGraph(_, children) => CrashesAll(children)
    case RenderGraph(_, camera, window, children) =>
      || ((camera.None? || camera.value.viewportState.None?) && window.None?)
      || CrashesAll(children)
  }

  ghost predicate CrashesAll(ns: seq<Node>)
    decreases ns, 0
  {
    exists i :: 0 <= i < |ns| && Crashes(ns[i])
  }

  /** What a node does to a run that completes: the render pass it leaves, the
      ids compiled in order, and what it leaves appended to the two lists. */
  datatype Effect = Effect(
    renderPass: Option<int>,
    compiled: seq<int>,
    leftDefaults: seq<PipelineState>,
    leftOverrides: seq<PipelineState>)

  function Then(a: Effect, b: Effect): Effect
  {
    Effect(b.renderPass, a.compiled + b.compiled, a.leftDefaults + b.leftDefaults, a.leftOverrides + b.leftOverrides)
  }

  /** A boundary keeps its children's compiled ids and final render pass, and
      leaves `defaults`/`overrides` behind in place of whatever they left. */
  function Bounded(inner: Effect, defaults: seq<PipelineState>, overrides: seq<PipelineState>): Effect
  {
    Effect(inner.renderPass, inner.compiled, defaults, overrides)
  }

  ghost function EffectOf(p: SnapshotPoint, rp: Option<int>, n: Node): Effect
    decreases n, 1
  {
    match n
    case Group(children) => EffectAll(p, rp, children)
    case Command(id) => Effect(rp, [id], [], [])
    case Commands(id, _) => Effect(rp, [id], [], [])
    case StateGroup(id, children) => Then(Effect(rp, [id], [], []), EffectAll(p, rp, children))
    case Geometry(id, children) => Then(Effect(rp, [id], [], []), EffectAll(p, rp, children))
    case CommandGraph(window, children) =>
      if window.None? then EffectAll(p, rp, children)
      else
        var inner := EffectAll(p, Some(window.value.renderPass), children);
        if p == AfterPush then Bounded(inner, [ViewportState(window.value.extent)], MultisampleOverride(window.value))
        else Bounded(inner, [], [])
    case RenderGraph(renderPass, _, _, children) =>
      Bounded(EffectAll(p, Some(renderPass), children), [], [])
  }

  ghost function EffectAll(p: SnapshotPoint, rp: Option<int>, ns: seq<Node>): Effect
    decreases ns, 0
  {
    if |ns| == 0 then Effect(rp, [], [], [])
    else
      var a := EffectOf(p, rp, ns[0]);
      Then(a, EffectAll(p, a.renderPass, ns[1..]))
  }

  function Nodes(es: seq<Event>): seq<int>
  {
    seq(|es|, i requires 0 <= i < |es| => es[i].node)
  }

  /** `res` extends `r`'s trace by events for exactly `e.compiled`, and its context
      is `r`'s with `e`'s render pass and `e`'s leftovers appended. */
  ghost predicate Produces(r: Run, e: Effect, res: Run)
  {
    && |r.trace| <= |res.trace|
    && res.trace[..|r.trace|] == r.trace
    && Nodes(res.trace[|r.trace|..]) == e.compiled
    && res.context == Context(e.renderPass,
                              r.context.defaultPipelineStates + e.leftDefaults,
                              r.context.overridePipelineStates + e.leftOverrides)
  }

  lemma ProducesThen(r: Run, a: Effect, m: Run, b: Effect, res: Run)
    requires Produces(r, a, m) && Produces(m, b, res)
    ensures Produces(r, Then(a, b), res)
  {
    var n := |r.trace|;
    assert res.trace[..n] == res.trace[..|m.trace|][..n];
    assert res.trace[n..] == m.trace[n..] + res.trace[|m.trace|..];
  }

  /** Running a boundary's children from `c` and restoring `saved`'s lists, which
      extend the entry lists by `keepDefaults` and `keepOverrides`. */
  lemma {:induction false} ScopedProduces(p: SnapshotPoint, r: Run, c: Context, saved: Context, children: seq<Node>,
                                          keepDefaults: seq<PipelineState>, keepOverrides: seq<PipelineState>)
    requires Scoped(p, r, c, saved, children).Ok?
    requires saved.defaultPipelineStates == r.context.defaultPipelineStates + keepDefaults
    requires saved.overridePipelineStates == r.context.overridePipelineStates + keepOverrides
    ensures Produces(r, Bounded(EffectAll(p, c.renderPass, children), keepDefaults, keepOverrides),
                     Scoped(p, r, c, saved, children).value)
    decreases children, 2
  {
    TraverseAllProduces(p, Run(c, r.trace), children);
  }

  /** A traversal fails exactly when it reaches a render graph with neither a
      camera viewport nor a window, and otherwise does what `EffectOf` says. */
  lemma {:induction false} TraverseProduces(p: SnapshotPoint, r: Run, n: Node)
    ensures Traverse(p, r, n).Err? <==> Crashes(n)
    ensures Traverse(p, r, n).Ok? ==> Produces(r, EffectOf(p, r.context.renderPass, n), Traverse(p, r, n).value)
    decreases n, 3
  {
    match n
    case Group(children) => TraverseAllProduces(p, r, children);
    case Command(id) =>
    case Commands(id, _) =>
    case StateGroup(id, children) =>
      TraverseAllProduces(p, Compile(r, id), children);
      if Traverse(p, r, n).Ok? {
        ProducesThen(r, Effect(r.context.renderPass, [id], [], []), Compile(r, id),
                     EffectAll(p, r.context.renderPass, children), Traverse(p, r, n).value);
      }
    case Geometry(id, children) =>
      TraverseAllProduces(p, Compile(r, id), children);
      if Traverse(p, r, n).Ok? {
        ProducesThen(r, Effect(r.context.renderPass, [id], [], []), Compile(r, id),
                     EffectAll(p, r.context.renderPass, children), Traverse(p, r, n).value);
      }
    case CommandGraph(window, children) =>
      if window.None? {
        TraverseAllProduces(p, r, children);
      } else {
        var w := window.value;
        var c := r.context.(renderPass := Some(w.renderPass));
        var pushed := c.(defaultPipelineStates := c.defaultPipelineStates + [ViewportState(w.extent)],
                         overridePipelineStates := c.overridePipelineStates + MultisampleOverride(w));
        var saved := if p == AfterPush then pushed else c;
        TraverseAllProduces(p, Run(pushed, r.trace), children);
        if Traverse(p, r, n).Ok? {
          if p == AfterPush {
            ScopedProduces(p, r, pushed, saved, children, [ViewportState(w.extent)], MultisampleOverride(w));
          } else {
            ScopedProduces(p, r, pushed, saved, children, [], []);
          }
        }
      }
    case RenderGraph(renderPass, camera, window, children) =>
      var c := r.context.(renderPass := Some(renderPass));
      var viewport :=
        if camera.Some? && camera.value.viewportState.Some? then Some(CameraViewportState(camera.value.viewportState.value))
        else if window.Some? then Some(ViewportState(window.value.extent))
        else None;
      if viewport.Some? {
        var overrides := if window.Some? then MultisampleOverride(window.value) else [];
        var pushed := c.(defaultPipelineStates := c.defaultPipelineStates + [viewport.value],
                         overridePipelineStates := c.overridePipelineStates + overrides);
        TraverseAllProduces(p, Run(pushed, r.trace), children);
        if Traverse(p, r, n).Ok? {
          ScopedProduces(p, r, pushed, c, children, [], []);
        }
      }
  }

  lemma {:induction false} TraverseAllProduces(p: SnapshotPoint, r: Run, ns: seq<Node>)
    ensures TraverseAll(p, r, ns).Err? <==> CrashesAll(ns)
    ensures TraverseAll(p, r, ns).Ok? ==> Produces(r, EffectAll(p, r.context.renderPass, ns), TraverseAll(p, r, ns).value)
    decreases ns, 1
  {
    if |ns| == 0 {
      assert r.trace[|r.trace|..] == [];
    } else {
      TraverseProduces(p, r, ns[0]);
      assert CrashesAll(ns) <==> Crashes(ns[0]) || CrashesAll(ns[1..]) by {
        if CrashesAll(ns) && !Crashes(ns[0]) {
          var i :| 0 <= i < |ns| && Crashes(ns[i]);
          assert ns[1..][i - 1] == ns[i];
        }
        if CrashesAll(ns[1..]) {
          var i :| 0 <= i < |ns[1..]| && Crashes(ns[1..][i]);
          assert ns[i + 1] == ns[1..][i];
        }
      }
      if Traverse(p, r, ns[0]).Ok? {
        var m := Traverse(p, r, ns[0]).value;
        TraverseAllProduces(p, m, ns[1..]);
        if TraverseAll(p, r, ns).Ok? {
          ProducesThen(r, EffectOf(p, r.context.renderPass, ns[0]), m,
                       EffectAll(p, m.context.renderPass, ns[1..]), TraverseAll(p, r, ns).value);
        }
      }
    }
  }

  // ---------------------------------------------------------------------------
  // Properties of the traversal as written

  /** Command and Commands compile with the context they are handed and are not
      traversed: their children never matter. */
  lemma CommandsCompileWithoutTraversing(p: SnapshotPoint, r: Run, id: int, children: seq<Node>)
    ensures Traverse(p, r, Commands(id, children)) == Traverse(p, r, Command(id))
    ensures Traverse(p, r, Command(id)).Ok?
    ensures Traverse(p, r, Command(id)).value.context == r.context
    ensures Traverse(p, r, Command(id)).value.trace == r.trace + [Compiled(id, r.context)]
  {
  }

  /** A StateGroup or Geometry compiles, with the context it was handed, before any
      event of its children. */
  lemma {:induction false} CompilesBeforeChildren(p: SnapshotPoint, r: Run, id: int, children: seq<Node>)
    ensures Traverse(p, r, StateGroup(id, children)) == Traverse(p, r, Geometry(id, children))
    ensures var res := Traverse(p, r, StateGroup(id, children));
      res.Ok? ==>
        && |res.value.trace| > |r.trace|
        && res.value.trace[..|r.trace|] == r.trace
        && res.value.trace[|r.trace|] == Compiled(id, r.context)
  {
    var r' := Compile(r, id);
    TraverseAllProduces(p, r', children);
    var res := Traverse(p, r, StateGroup(id, children));
    if res.Ok? {
      assert res.value.trace[..|r'.trace|] == r'.trace;
      assert res.value.trace[|r.trace|] == r'.trace[|r.trace|];
      assert res.value.trace[..|r.trace|] == r'.trace[..|r.trace|];
    }
  }

  /** A command graph without a window is an ordinary group. */
  lemma CommandGraphWithoutWindowIsGroup(p: SnapshotPoint, r: Run, children: seq<Node>)
    ensures Traverse(p, r, CommandGraph(None, children)) == Traverse(p, r, Group(children))
  {
  }

  /** A render graph puts both lists back exactly as it found them, whatever its
      subtree pushed; it fails only when it needs its window's extent and has no
      window, or a render graph below fails. */
  lemma {:induction false} RenderGraphRestoresLists(p: SnapshotPoint, r: Run, renderPass: int, camera: Option<Camera>,
                                 window: Option<Window>, children: seq<Node>)
    ensures var res := Traverse(p, r, RenderGraph(renderPass, camera, window, children));
      && (res.Err? <==> ((camera.None? || camera.value.viewportState.None?) && window.None?) || CrashesAll(children))
      && (res.Ok? ==>
            && res.value.context.defaultPipelineStates == r.context.defaultPipelineStates
            && res.value.context.overridePipelineStates == r.context.overridePipelineStates
            && res.value.context.renderPass == EffectAll(p, Some(renderPass), children).renderPass)
  {
    TraverseProduces(p, r, RenderGraph(renderPass, camera, window, children));
  }

  /** As written, a command graph with a window keeps the states it pushed: after
      it, the defaults end with one viewport for the window's extent and the
      overrides with one multisample state unless the window is single-sampled. */
  lemma {:induction false} CommandGraphKeepsItsPushes(r: Run, w: Window, children: seq<Node>)
    ensures var res := Traverse(AfterPush, r, CommandGraph(Some(w), children));
      && (res.Err? <==> CrashesAll(children))
      && (res.Ok? ==>
            && res.value.context.defaultPipelineStates == r.context.defaultPipelineStates + [ViewportState(w.extent)]
            && res.value.context.overridePipelineStates
               == r.context.overridePipelineStates
                  + (if w.framebufferSamples != SAMPLE_COUNT_1 then [MultisampleState(w.framebufferSamples)] else []))
  {
    TraverseProduces(AfterPush, r, CommandGraph(Some(w), children));
  }

  /** No boundary node is reached, so nothing sets the render pass. */
  ghost predicate NoBoundary(n: Node)
    decreases n, 1
  {
    match n
    case Group(children) => NoBoundaryAll(children)
    case Command(_) => true
    case Commands(_, _) => true
    case StateGroup(_, children) => NoBoundaryAll(children)
    case Geometry(_, children) => NoBoundaryAll(children)
    case CommandGraph(window, children) => window.None? && NoBoundaryAll(children)
    case RenderGraph(_, _, _, _) => false
  }

  ghost predicate NoBoundaryAll(ns: seq<Node>)
    decreases ns, 0
  {
    forall i :: 0 <= i < |ns| ==> NoBoundary(ns[i])
  }

  lemma {:induction false} NoBoundaryKeepsRenderPass(p: SnapshotPoint, rp: Option<int>, n: Node)
    requires NoBoundary(n)
    ensures EffectOf(p, rp, n).renderPass == rp
    decreases n, 1
  {
    match n
    case Group(children) => NoBoundaryAllKeepsRenderPass(p, rp, children);
    case Command(_) =>
    case Commands(_, _) =>
    case StateGroup(_, children) => NoBoundaryAllKeepsRenderPass(p, rp, children);
    case Geometry(_, children) => NoBoundaryAllKeepsRenderPass(p, rp, children);
    case CommandGraph(_, children) => NoBoundaryAllKeepsRenderPass(p, rp, children);
  }

  lemma {:induction false} NoBoundaryAllKeepsRenderPass(p: SnapshotPoint, rp: Option<int>, ns: seq<Node>)
    requires NoBoundaryAll(ns)
    ensures EffectAll(p, rp, ns).renderPass == rp
    decreases ns, 1
  {
    if |ns| > 0 {
      NoBoundaryKeepsRenderPass(p, rp, ns[0]);
      NoBoundaryAllKeepsRenderPass(p, rp, ns[1..]);
    }
  }

  /** Neither boundary restores the render pass: after a render graph (or a command
      graph with a window) whose subtree holds no further boundary, the context
      keeps the boundary's render pass, not the one it had on entry. */
  lemma {:induction false} RenderPassNotRestored(p: SnapshotPoint, r: Run, renderPass: int, camera: Option<Camera>,
                              window: Option<Window>, w: Window, children: seq<Node>)
    requires NoBoundaryAll(children)
    ensures var res := Traverse(p, r, RenderGraph(renderPass, camera, window, children));
      res.Ok? ==> res.value.context.renderPass == Some(renderPass)
    ensures var res := Traverse(p, r, CommandGraph(Some(w), children));
      res.Ok? ==> res.value.context.renderPass == Some(w.renderPass)
  {
    NoBoundaryAllKeepsRenderPass(p, Some(renderPass), children);
    NoBoundaryAllKeepsRenderPass(p, Some(w.renderPass), children);
    TraverseProduces(p, r, RenderGraph(renderPass, camera, window, children));
    TraverseProduces(p, r, CommandGraph(Some(w), children));
  }

  /** `res` extends `r`'s trace, and every event it appends was compiled under `c`. */
  ghost predicate AppendsUnder(r: Run, res: Run, c: Context)
  {
    && |r.trace| <= |res.trace|
    && res.trace[..|r.trace|] == r.trace
    && (forall i :: |r.trace| <= i < |res.trace| ==> res.trace[i].context == c)
  }

  lemma AppendsUnderThen(r: Run, m: Run, res: Run, c: Context)
    requires AppendsUnder(r, m, c) && AppendsUnder(m, res, c)
    ensures AppendsUnder(r, res, c)
  {
    assert res.trace[..|r.trace|] == res.trace[..|m.trace|][..|r.trace|];
  }

  /** Below no boundary the context never changes: the subtree compiles every node
      under the context it was handed, and hands it back unchanged. */
  lemma {:induction false} NoBoundaryKeepsContext(p: SnapshotPoint, r: Run, n: Node)
    requires NoBoundary(n)
    ensures Traverse(p, r, n).Ok?
    ensures Traverse(p, r, n).value.context == r.context
    ensures AppendsUnder(r, Traverse(p, r, n).value, r.context)
    decreases n, 1
  {
    match n
    case Group(children) => NoBoundaryAllKeepsContext(p, r, children);
    case Command(id) =>
    case Commands(id, _) =>
    case StateGroup(id, children) =>
      NoBoundaryAllKeepsContext(p, Compile(r, id), children);
      AppendsUnderThen(r, Compile(r, id), Traverse(p, r, n).value, r.context);
    case Geometry(id, children) =>
      NoBoundaryAllKeepsContext(p, Compile(r, id), children);
      AppendsUnderThen(r, Compile(r, id), Traverse(p, r, n).value, r.context);
    case CommandGraph(_, children) => NoBoundaryAllKeepsContext(p, r, children);
  }

  lemma {:induction false} NoBoundaryAllKeepsContext(p: SnapshotPoint, r: Run, ns: seq<Node>)
    requires NoBoundaryAll(ns)
    ensures TraverseAll(p, r, ns).Ok?
    ensures TraverseAll(p, r, ns).value.context == r.context
    ensures AppendsUnder(r, TraverseAll(p, r, ns).value, r.context)
    decreases ns, 1
  {
    if |ns| > 0 {
      NoBoundaryKeepsContext(p, r, ns[0]);
      var m := Traverse(p, r, ns[0]).value;
      assert NoBoundaryAll(ns[1..]) by {
        forall i | 0 <= i < |ns[1..]| ensures NoBoundary(ns[1..][i]) {
          assert ns[1..][i] == ns[i + 1];
        }
      }
      NoBoundaryAllKeepsContext(p, m, ns[1..]);
      AppendsUnderThen(r, m, TraverseAll(p, r, ns).value, r.context);
    }
  }

  /** When no boundary lies anywhere below a command graph with a window, every
      node below it compiles under the window's render pass with the graph's viewport appended to
      the defaults and its multisample state (unless single-sampled) to the
      overrides. */
  lemma {:induction false} CommandGraphChildrenSeeWindowStates(p: SnapshotPoint, r: Run, w: Window, children: seq<Node>)
    requires NoBoundaryAll(children)
    ensures Traverse(p, r, CommandGraph(Some(w), children)).Ok?
    ensures AppendsUnder(r, Traverse(p, r, CommandGraph(Some(w), children)).value,
                         Context(Some(w.renderPass),
                                 r.context.defaultPipelineStates + [ViewportState(w.extent)],
                                 r.context.overridePipelineStates + MultisampleOverride(w)))
  {
    var c := r.context.(renderPass := Some(w.renderPass));
    var pushed := c.(defaultPipelineStates := c.defaultPipelineStates + [ViewportState(w.extent)],
                     overridePipelineStates := c.overridePipelineStates + MultisampleOverride(w));
    NoBoundaryAllKeepsContext(p, Run(pushed, r.trace), children);
  }

  /** When no boundary lies anywhere below a render graph, every node below it
      compiles under its render pass, with its camera's viewport (else one for its window's extent)
      appended to the defaults and its window's multisample state, if any, to the
      overrides. */
  lemma {:induction false} RenderGraphChildrenSeeViewport(p: SnapshotPoint, r: Run, renderPass: int, camera: Option<Camera>,
                                       window: Option<Window>, children: seq<Node>)
    requires (camera.Some? && camera.value.viewportState.Some?) || window.Some?
    requires NoBoundaryAll(children)
    ensures Traverse(p, r, RenderGraph(renderPass, camera, window, children)).Ok?
    ensures AppendsUnder(r, Traverse(p, r, RenderGraph(renderPass, camera, window, children)).value,
                         Context(Some(renderPass),
                                 r.context.defaultPipelineStates
                                 + [if camera.Some? && camera.value.viewportState.Some? then CameraViewportState(camera.value.viewportState.value)
                                    else ViewportState(window.value.extent)],
                                 r.context.overridePipelineStates
                                 + (if window.Some? then MultisampleOverride(window.value) else [])))
  {
    var c := r.context.(renderPass := Some(renderPass));
    var viewport :=
      if camera.Some? && camera.value.viewportState.Some? then CameraViewportState(camera.value.viewportState.value)
      else ViewportState(window.value.extent);
    var overrides := if window.Some? then MultisampleOverride(window.value) else [];
    var pushed := c.(defaultPipelineStates := c.defaultPipelineStates + [viewport],
                     overridePipelineStates := c.overridePipelineStates + overrides);
    NoBoundaryAllKeepsContext(p, Run(pushed, r.trace), children);
  }

  // ---------------------------------------------------------------------------
  // The command graph's snapshot point

  lemma SingleCommand(p: SnapshotPoint, r: Run, id: int)
    ensures TraverseAll(p, r, [Command(id)]) == Ok(Compile(r, id))
  {
    assert [Command(id)][1..] == [];
    assert Traverse(p, r, Command(id)) == Ok(Compile(r, id));
  }

  /** As written: a multisampled window's command graph with no children, followed
      by a command. The sibling command compiles under the graph's viewport and
      multisample state, which were meant to be scoped to the graph. */
  lemma CommandGraphStatesReachSibling()
    ensures var w := Window(1, Extent2D(800, 600), 4);
      var r := Run(Context(None, [], []), []);
      Traverse(AfterPush, r, Group([CommandGraph(Some(w), []), Command(7)]))
      == Ok(Run(Context(Some(1), [ViewportState(Extent2D(800, 600))], [MultisampleState(4)]),
                [Compiled(7, Context(Some(1), [ViewportState(Extent2D(800, 600))], [MultisampleState(4)]))]))
  {
    var w := Window(1, Extent2D(800, 600), 4);
    var r := Run(Context(None, [], []), []);
    var after := Run(Context(Some(1), [ViewportState(Extent2D(800, 600))], [MultisampleState(4)]), []);
    assert MultisampleOverride(w) == [MultisampleState(4)];
    assert [] + [ViewportState(Extent2D(800, 600))] == [ViewportState(Extent2D(800, 600))];
    assert [] + [MultisampleState(4)] == [MultisampleState(4)];
    assert TraverseAll(AfterPush, Run(after.context, []), []) == Ok(after);
    assert Traverse(AfterPush, r, CommandGraph(Some(w), [])) == Ok(after);
    var ns := [CommandGraph(Some(w), []), Command(7)];
    assert ns[1..] == [Command(7)];
    SingleCommand(AfterPush, after, 7);
    assert TraverseAll(AfterPush, r, ns) == TraverseAll(AfterPush, after, [Command(7)]);
    assert Compile(after, 7).trace == [Compiled(7, after.context)];
  }

  /** With the snapshot taken before the pushes, no node leaves anything on either
      list: every boundary scopes its states to its own subtree. */
  lemma {:induction false} IntendedLeavesNoStates(rp: Option<int>, n: Node)
    ensures EffectOf(BeforePush, rp, n).leftDefaults == []
    ensures EffectOf(BeforePush, rp, n).leftOverrides == []
    decreases n, 1
  {
    match n
    case Group(children) => IntendedAllLeaveNoStates(rp, children);
    case Command(_) =>
    case Commands(_, _) =>
    case StateGroup(id, children) => IntendedAllLeaveNoStates(rp, children);
    case Geometry(id, children) => IntendedAllLeaveNoStates(rp, children);
    case CommandGraph(window, children) =>
      if window.None? { IntendedAllLeaveNoStates(rp, children); }
    case RenderGraph(_, _, _, _) =>
  }

  lemma {:induction false} IntendedAllLeaveNoStates(rp: Option<int>, ns: seq<Node>)
    ensures EffectAll(BeforePush, rp, ns).leftDefaults == []
    ensures EffectAll(BeforePush, rp, ns).leftOverrides == []
    decreases ns, 1
  {
    if |ns| > 0 {
      IntendedLeavesNoStates(rp, ns[0]);
      IntendedAllLeaveNoStates(EffectOf(BeforePush, rp, ns[0]).renderPass, ns[1..]);
    }
  }

  /** With the intended snapshot, a completed traversal of any subtree leaves both
      lists exactly as they were on entry. */
  lemma {:induction false} IntendedTraversalRestoresLists(r: Run, n: Node)
    ensures var res := Traverse(BeforePush, r, n);
      res.Ok? ==>
        && res.value.context.defaultPipelineStates == r.context.defaultPipelineStates
        && res.value.context.overridePipelineStates == r.context.overridePipelineStates
  {
    TraverseProduces(BeforePush, r, n);
    IntendedLeavesNoStates(r.context.renderPass, n);
  }
}
