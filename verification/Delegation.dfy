/** Trees of delegations: children that run in sandboxes, delegate further, and
    hand back the tool root, the sandbox and a patch. */
module Delegation {

  /** A tier's name, or the empty one of a context that locked none. */
  datatype Tier = NoTier | Named(name: string)

  datatype Dir = Project | Sandbox(id: nat)

  datatype Root = Unset | Active(dir: Dir)

  datatype List<T> = Nil | Cons(head: T, tail: List<T>)

  const MAX_DELEGATION_DEPTH: nat := 2

  /** `stack` lists the tiers of all loops under way, outermost first; the
      engine keeps no such list and sees only `ancestors` and `tier`. */
  datatype Context = Context(depth: nat, ancestors: seq<Tier>, tier: Tier, activeRoot: Root, stack: seq<Tier>)

  // ── What happens in a tree ─────────────────────────────────────────

  /** Outcomes that the engine does not decide: whether the tier resolves,
      what the consumer's callbacks answer, what the sandbox manager manages. */
  datatype Outcomes = Outcomes(
    valid: bool, hookCancels: bool, startRejected: bool,
    creates: bool, diffs: bool, accepts: bool, saves: bool)

  /** A child's run: what its loop does, in order, and how it ended. */
  datatype Child = Child(steps: List<Step>, success: bool)

  datatype Step = Write(text: string) | Dispatch(request: Request)

  datatype Stage = Stage(tier: Tier, valid: bool, body: Child)

  /** A resume names `requested`, which storage resolves to `target`; `seeded`
      when the loaded history is not empty. */
  datatype Request =
    | Cold(target: Tier, body: Child, o: Outcomes)
    | Resume(requested: Tier, target: Tier, found: bool, seeded: bool, body: Child, o: Outcomes)
    | Pipeline(stages: List<Stage>, o: Outcomes)

  /** Whether isolation is configured, whether pending patches can always be
      written, and the names whose tools could write outside a sandbox. */
  datatype Setup = Setup(sandboxed: bool, swaps: bool, writable: bool, maxFailures: int, unsafe: set<Tier>)

  // ── The world that a tree changes ──────────────────────────────────

  /** `visited` holds the contexts of the children that ran, and `runs` counts
      their runs by the tiers under way, the child's own tier last. */
  datatype World = World(
    root: Dir, nextId: nat, live: set<nat>, created: multiset<nat>, discarded: multiset<nat>,
    produced: multiset<nat>, accepted: multiset<nat>, pending: multiset<nat>, lost: multiset<nat>,
    files: map<Dir, seq<string>>, visited: set<Context>, runs: multiset<seq<Tier>>)
  {
    function Files(d: Dir): seq<string> {
      if d in files then files[d] else []
    }
  }

  function WriteFile(w: World, text: string): World {
    w.(files := w.files[w.root := w.Files(w.root) + [text]])
  }

  function Create(w: World, id: nat): World {
    w.(live := w.live + {id}, created := w.created + multiset{id})
  }

  /** Where a successful child's patch goes. */
  function Deliver(s: Setup, w: World, id: nat, o: Outcomes): World {
    var w1 := w.(produced := w.produced + multiset{id});
    if o.accepts then w1.(accepted := w1.accepted + multiset{id})
    else if s.writable || o.saves then w1.(pending := w1.pending + multiset{id})
    else w1.(lost := w1.lost + multiset{id})
  }

  function Finalize(s: Setup, w: World, id: nat, success: bool, o: Outcomes): World {
    var w1 := if success && o.diffs then Deliver(s, w, id, o) else w;
    w1.(live := w1.live - {id}, discarded := w1.discarded + multiset{id})
  }

  // ── Guards and child contexts ──────────────────────────────────────

  /** The last target that failed, and how often in a row. */
  datatype Memory = Memory(target: Tier, failures: nat)

  function Remember(m: Memory, target: Tier, success: bool): Memory {
    if success then Memory(NoTier, 0)
    else if target == m.target then Memory(target, m.failures + 1)
    else Memory(target, 1)
  }

  predicate IsCycle(ctx: Context, target: Tier) {
    target == ctx.tier || target in ctx.ancestors
  }

  predicate Refused(s: Setup, ctx: Context, m: Memory, target: Tier) {
    || ctx.depth >= MAX_DELEGATION_DEPTH
    || IsCycle(ctx, target)
    || target in s.unsafe
    || (target == m.target && m.failures >= s.maxFailures)
  }

  predicate HasUnsafeStage(s: Setup, stages: List<Stage>) {
    stages.Cons? && (stages.head.tier in s.unsafe || HasUnsafeStage(s, stages.tail))
  }

  /** A pipeline has neither a cycle nor a repeat guard. */
  predicate PipelineRefused(s: Setup, ctx: Context, stages: List<Stage>) {
    ctx.depth >= MAX_DELEGATION_DEPTH || HasUnsafeStage(s, stages)
  }

  function Chain(ctx: Context): seq<Tier> {
    ctx.ancestors + if ctx.tier == NoTier then [] else [ctx.tier]
  }

  function ColdChild(ctx: Context, target: Tier): Context {
    Context(ctx.depth + 1, Chain(ctx), target, Unset, ctx.stack + [target])
  }

  function ResumedChild(ctx: Context, target: Tier): Context {
    Context(ctx.depth + 1, ctx.ancestors + [target], target, Unset, ctx.stack + [target])
  }

  function RestoreRoot(ctx: Context): Dir {
    if ctx.activeRoot.Active? then ctx.activeRoot.dir else Project
  }

  // ── Running a tree ─────────────────────────────────────────────────

  datatype Outcome = Outcome(world: World, success: bool)

  function RunSteps(s: Setup, w: World, ctx: Context, m: Memory, steps: List<Step>): World
    decreases steps
  {
    if steps.Nil? then w
    else
      match steps.head
      case Write(text) => RunSteps(s, WriteFile(w, text), ctx, m, steps.tail)
      case Dispatch(request) =>
        var r := RunRequest(s, w, ctx, m, request);
        RunSteps(s, r.world, ctx, Recall(s, ctx, m, request), steps.tail)
  }

  /** The memory after a request; a pipeline leaves it alone. */
  function Recall(s: Setup, ctx: Context, m: Memory, r: Request): Memory {
    match r
    case Cold(target, body, o) =>
      if Refused(s, ctx, m, target) || o.hookCancels then m else Remember(m, target, Starts(s, o) && body.success)
    case Resume(requested, target, found, seeded, body, o) =>
      if Refused(s, ctx, m, requested) || !found || o.hookCancels then m
      else Remember(m, target, Starts(s, o) && body.success)
    case Pipeline(stages, o) => m
  }

  function RunRequest(s: Setup, w: World, ctx: Context, m: Memory, r: Request): Outcome
    decreases r
  {
    match r
    case Cold(target, body, o) =>
      if Refused(s, ctx, m, target) || o.hookCancels then Outcome(w, false)
      else Execute(s, w, ctx, ColdChild(ctx, target), body, o)
    case Resume(requested, target, found, seeded, body, o) =>
      if Refused(s, ctx, m, requested) || !found || o.hookCancels then Outcome(w, false)
      else Execute(s, w, ctx, if seeded then ResumedChild(ctx, target) else ColdChild(ctx, target), body, o)
    case Pipeline(stages, o) =>
      if PipelineRefused(s, ctx, stages) then Outcome(w, false)
      else RunPipeline(s, w, ctx, stages, o)
  }

  /** The checks between the guards and the child. */
  predicate Starts(s: Setup, o: Outcomes) {
    o.valid && !o.startRejected && (s.sandboxed ==> o.creates)
  }

  /** execute_delegation and execute_resume_delegation. */
  function Execute(s: Setup, w: World, ctx: Context, child: Context, body: Child, o: Outcomes): Outcome
    decreases body, 2
  {
    if !s.sandboxed then
      if Starts(s, o) then Outcome(RunChild(s, w, child, body), body.success) else Outcome(w, false)
    else
      var id, minted := w.nextId, w.(nextId := w.nextId + 1);
      if !Starts(s, o) then Outcome(minted, false)
      else
        var ran := RunInside(s, Create(minted, id), ctx, child, id, body);
        Outcome(Finalize(s, ran, id, body.success, o), body.success)
  }

  function Enter(w: World, child: Context): World {
    w.(visited := w.visited + {child}, runs := w.runs + multiset{child.stack})
  }

  function RunChild(s: Setup, w: World, child: Context, body: Child): World
    decreases body, 0
  {
    RunSteps(s, Enter(w, child), child, Memory(NoTier, 0), body.steps)
  }

  /** The child's run between the two swaps of a scoped sandbox. */
  function RunInside(s: Setup, w: World, ctx: Context, child: Context, id: nat, body: Child): World
    decreases body, 1
  {
    if !s.swaps then RunChild(s, w, child, body)
    else
      var inside := RunChild(s, w.(root := Sandbox(id)), child.(activeRoot := Active(Sandbox(id))), body);
      inside.(root := RestoreRoot(ctx))
  }

  function RunPipeline(s: Setup, w: World, ctx: Context, stages: List<Stage>, o: Outcomes): Outcome
    decreases stages, 1
  {
    if o.startRejected then Outcome(w, false)
    else if !s.sandboxed then RunStages(s, w, ctx, 0, stages, false)
    else
      var id, minted := w.nextId, w.(nextId := w.nextId + 1);
      if !o.creates then Outcome(minted, false)
      else
        var r := RunStages(s, Create(minted, id), ctx, id, stages, false);
        Outcome(Finalize(s, r.world, id, r.success, o), r.success)
  }

  /** The stages share the sandbox `id`; `last` is the previous stage's fate. */
  function RunStages(s: Setup, w: World, ctx: Context, id: nat, stages: List<Stage>, last: bool): Outcome
    decreases stages, 0
  {
    if stages.Nil? then Outcome(w, last)
    else
      var stage := stages.head;
      if !stage.valid then Outcome(w, false)
      else
        var child := ColdChild(ctx, stage.tier);
        var ran :=
          if s.sandboxed then RunInside(s, w, ctx, child, id, stage.body) else RunChild(s, w, child, stage.body);
        if stage.body.success then RunStages(s, ran, ctx, id, stages.tail, true) else Outcome(ran, false)
  }
}
