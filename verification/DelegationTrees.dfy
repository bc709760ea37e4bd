/** What every tree of delegations keeps, and how deep it can get. */
module DelegationTrees {
  import opened Delegation

  // ── The books ──────────────────────────────────────────────────────

  /** Every sandbox was created once and is live or was discarded once; every
      patch went to one place and its sandbox is gone. */
  ghost predicate Ledger(w: World) {
    && (forall i :: w.created[i] <= 1)
    && (forall i :: i in w.created ==> i < w.nextId)
    && w.created == w.discarded + multiset(w.live)
    && w.produced == w.accepted + w.pending + w.lost
    && w.produced <= w.discarded
  }

  lemma {:induction false} CreateKeepsLedger(w: World, id: nat)
    requires Ledger(w) && id == w.nextId
    ensures id !in w.live && Ledger(Create(w.(nextId := id + 1), id))
  {
    assert id in w.live ==> id in w.created;
    assert multiset(w.live + {id}) == multiset(w.live) + multiset{id};
  }

  lemma {:induction false} FinalizeKeepsLedger(s: Setup, w: World, id: nat, success: bool, o: Outcomes)
    requires Ledger(w) && id in w.live
    ensures Ledger(Finalize(s, w, id, success, o))
    ensures s.writable ==> Finalize(s, w, id, success, o).lost == w.lost
  {
    assert multiset(w.live) == multiset(w.live - {id}) + multiset{id};
    assert w.created[id] == 1 && w.discarded[id] == 0 && w.produced[id] == 0;
  }

  // ── What a tree keeps ──────────────────────────────────────────────

  ghost predicate Keeps(s: Setup, w: World, w': World) {
    && w'.root == w.root && w'.live == w.live && w.nextId <= w'.nextId
    && Ledger(w')
    && (s.writable ==> w'.lost == w.lost)
    && (forall v :: v in w'.visited ==> v in w.visited || v.depth <= MAX_DELEGATION_DEPTH)
  }

  /** Directories that exist by the time `n` sandboxes have been numbered. */
  predicate Old(d: Dir, n: nat) {
    d.Project? || d.id < n
  }

  /** No directory older than `n` changed, except `own`. */
  ghost predicate Isolated(s: Setup, w: World, w': World, n: nat, own: Root) {
    s.sandboxed && s.swaps ==> forall d :: Old(d, n) && own != Active(d) ==> w'.Files(d) == w.Files(d)
  }

  /** The tools are where the loop that is running expects them. */
  predicate InPlace(s: Setup, w: World, ctx: Context) {
    s.sandboxed && s.swaps ==> w.root == RestoreRoot(ctx)
  }

  ghost predicate Ready(s: Setup, w: World, ctx: Context) {
    Ledger(w) && InPlace(s, w, ctx) && ctx.depth <= MAX_DELEGATION_DEPTH
  }

  /** A sandbox is created, something runs in it, and it is finalized. */
  lemma {:induction false} SandboxRoundTrip(s: Setup, w: World, w1: World, ran: World, id: nat, success: bool,
                                            o: Outcomes)
    requires Ledger(w) && id == w.nextId && w1 == Create(w.(nextId := id + 1), id)
    requires Keeps(s, w1, ran) && Isolated(s, w1, ran, w1.nextId, Active(Sandbox(id)))
    ensures Keeps(s, w, Finalize(s, ran, id, success, o))
    ensures Isolated(s, w, Finalize(s, ran, id, success, o), w.nextId, Unset)
  {
    CreateKeepsLedger(w, id);
    FinalizeKeepsLedger(s, ran, id, success, o);
    var end := Finalize(s, ran, id, success, o);
    FinalizeShape(s, ran, id, success, o);
    assert end.live == w.live;
    forall d | s.sandboxed && s.swaps && Old(d, w.nextId) ensures end.Files(d) == w.Files(d) {
      assert Old(d, w1.nextId) && Active(Sandbox(id)) != Active(d);
      assert ran.Files(d) == w1.Files(d);
    }
  }

  lemma {:induction false} FinalizeShape(s: Setup, w: World, id: nat, success: bool, o: Outcomes)
    ensures
      var w' := Finalize(s, w, id, success, o);
      && w'.root == w.root && w'.nextId == w.nextId && w'.live == w.live - {id}
      && w'.files == w.files && w'.visited == w.visited
  {
  }

  lemma {:induction false} StepsKeep(s: Setup, w: World, ctx: Context, m: Memory, steps: List<Step>)
    requires Ready(s, w, ctx)
    ensures Keeps(s, w, RunSteps(s, w, ctx, m, steps))
    ensures Isolated(s, w, RunSteps(s, w, ctx, m, steps), w.nextId, Active(w.root))
    decreases steps
  {
    match steps
    case Nil =>
    case Cons(Write(text), rest) =>
      StepsKeep(s, WriteFile(w, text), ctx, m, rest);
    case Cons(Dispatch(r), rest) =>
      RequestKeeps(s, w, ctx, m, r);
      StepsKeep(s, RunRequest(s, w, ctx, m, r).world, ctx, Recall(s, ctx, m, r), rest);
  }

  /** Whatever a delegation, resumed delegation or pipeline does below it. */
  lemma {:induction false} RequestKeeps(s: Setup, w: World, ctx: Context, m: Memory, r: Request)
    requires Ready(s, w, ctx)
    ensures Keeps(s, w, RunRequest(s, w, ctx, m, r).world)
    ensures Isolated(s, w, RunRequest(s, w, ctx, m, r).world, w.nextId, Unset)
    decreases r
  {
    match r
    case Cold(target, body, o) =>
      if !Refused(s, ctx, m, target) && !o.hookCancels {
        ExecuteKeeps(s, w, ctx, ColdChild(ctx, target), body, o);
      }
    case Resume(requested, target, found, seeded, body, o) =>
      if !Refused(s, ctx, m, requested) && found && !o.hookCancels {
        ExecuteKeeps(s, w, ctx, if seeded then ResumedChild(ctx, target) else ColdChild(ctx, target), body, o);
      }
    case Pipeline(stages, o) =>
      if !PipelineRefused(s, ctx, stages) { PipelineKeeps(s, w, ctx, stages, o); }
  }

  lemma {:induction false} ExecuteKeeps(s: Setup, w: World, ctx: Context, child: Context, body: Child, o: Outcomes)
    requires Ready(s, w, ctx) && child.depth <= MAX_DELEGATION_DEPTH
    ensures Keeps(s, w, Execute(s, w, ctx, child, body, o).world)
    ensures Isolated(s, w, Execute(s, w, ctx, child, body, o).world, w.nextId, Unset)
    decreases body, 2
  {
    if !s.sandboxed {
      if Starts(s, o) { ChildKeeps(s, w, child, body); }
    } else if Starts(s, o) {
      var id := w.nextId;
      var w1 := Create(w.(nextId := id + 1), id);
      CreateKeepsLedger(w, id);
      InsideKeeps(s, w1, ctx, child, id, body);
      SandboxRoundTrip(s, w, w1, RunInside(s, w1, ctx, child, id, body), id, body.success, o);
    }
  }

  lemma {:induction false} ChildKeeps(s: Setup, w: World, child: Context, body: Child)
    requires Ready(s, w, child)
    ensures Keeps(s, w, RunChild(s, w, child, body))
    ensures Isolated(s, w, RunChild(s, w, child, body), w.nextId, Active(w.root))
    decreases body, 0
  {
    StepsKeep(s, Enter(w, child), child, Memory(NoTier, 0), body.steps);
  }

  lemma {:induction false} InsideKeeps(s: Setup, w: World, ctx: Context, child: Context, id: nat, body: Child)
    requires s.sandboxed && Ready(s, w, ctx) && child.depth <= MAX_DELEGATION_DEPTH
    ensures Keeps(s, w, RunInside(s, w, ctx, child, id, body))
    ensures Isolated(s, w, RunInside(s, w, ctx, child, id, body), w.nextId, Active(Sandbox(id)))
    decreases body, 1
  {
    if !s.swaps {
      ChildKeeps(s, w, child, body);
    } else {
      ChildKeeps(s, w.(root := Sandbox(id)), child.(activeRoot := Active(Sandbox(id))), body);
    }
  }

  lemma {:induction false} PipelineKeeps(s: Setup, w: World, ctx: Context, stages: List<Stage>, o: Outcomes)
    requires Ready(s, w, ctx) && ctx.depth < MAX_DELEGATION_DEPTH
    ensures Keeps(s, w, RunPipeline(s, w, ctx, stages, o).world)
    ensures Isolated(s, w, RunPipeline(s, w, ctx, stages, o).world, w.nextId, Unset)
    decreases stages, 1
  {
    if !o.startRejected {
      if !s.sandboxed {
        StagesKeep(s, w, ctx, 0, stages, false);
      } else if o.creates {
        var id := w.nextId;
        var w1 := Create(w.(nextId := id + 1), id);
        CreateKeepsLedger(w, id);
        StagesKeep(s, w1, ctx, id, stages, false);
        var r := RunStages(s, w1, ctx, id, stages, false);
        SandboxRoundTrip(s, w, w1, r.world, id, r.success, o);
      }
    }
  }

  lemma {:induction false} StagesKeep(s: Setup, w: World, ctx: Context, id: nat, stages: List<Stage>, last: bool)
    requires Ready(s, w, ctx) && ctx.depth < MAX_DELEGATION_DEPTH
    ensures Keeps(s, w, RunStages(s, w, ctx, id, stages, last).world)
    ensures Isolated(s, w, RunStages(s, w, ctx, id, stages, last).world, w.nextId, Active(Sandbox(id)))
    decreases stages, 0
  {
    if stages.Cons? && stages.head.valid {
      var stage := stages.head;
      var child := ColdChild(ctx, stage.tier);
      if s.sandboxed { InsideKeeps(s, w, ctx, child, id, stage.body); } else { ChildKeeps(s, w, child, stage.body); }
      var ran := if s.sandboxed then RunInside(s, w, ctx, child, id, stage.body) else RunChild(s, w, child, stage.body);
      if stage.body.success { StagesKeep(s, ran, ctx, id, stages.tail, true); }
    }
  }

  /** When a delegation returns: the tools are back where they were, each
      sandbox created meanwhile was discarded exactly once, each patch produced
      meanwhile is in exactly one place, and every directory that existed before
      is as it was. */
  lemma {:induction false} DelegationReturns(s: Setup, w: World, ctx: Context, m: Memory, r: Request)
    requires Ready(s, w, ctx)
    ensures
      var w' := RunRequest(s, w, ctx, m, r).world;
      && w'.root == w.root && w'.live == w.live
      && (forall i :: w'.created[i] + w.discarded[i] == w.created[i] + w'.discarded[i] && w'.created[i] <= 1)
      && (forall i :: w'.produced[i] == w'.accepted[i] + w'.pending[i] + w'.lost[i] <= 1)
      && (s.writable ==> w'.lost == w.lost)
      && (s.sandboxed && s.swaps ==> forall d :: Old(d, w.nextId) ==> w'.Files(d) == w.Files(d))
  {
    RequestKeeps(s, w, ctx, m, r);
    var w' := RunRequest(s, w, ctx, m, r).world;
    forall i ensures w'.created[i] + w.discarded[i] == w.created[i] + w'.discarded[i] {
      assert w'.created[i] == w'.discarded[i] + multiset(w'.live)[i];
      assert w.created[i] == w.discarded[i] + multiset(w.live)[i];
    }
    forall i ensures w'.produced[i] == w'.accepted[i] + w'.pending[i] + w'.lost[i] <= 1 {
      assert w'.produced[i] <= w'.discarded[i] <= w'.created[i];
    }
  }

  function One(yes: bool): nat {
    if yes then 1 else 0
  }

  /** What has become of the sandbox `id` and of its patch, where one was `made`. */
  ghost predicate Patched(s: Setup, w: World, id: nat, made: bool, o: Outcomes) {
    && w.created[id] == w.discarded[id] == 1
    && w.produced[id] == One(made)
    && w.accepted[id] == One(made && o.accepts)
    && w.pending[id] == One(made && !o.accepts && (s.writable || o.saves))
    && w.lost[id] == One(made && !o.accepts && !s.writable && !o.saves)
  }

  lemma {:induction false} FinalizePatches(s: Setup, w: World, id: nat, success: bool, o: Outcomes)
    requires Ledger(w) && id in w.live
    ensures Patched(s, Finalize(s, w, id, success, o), id, success && o.diffs, o)
  {
    assert multiset(w.live)[id] == 1;
    assert w.created[id] == w.discarded[id] + multiset(w.live)[id];
    assert w.produced[id] == 0 == w.accepted[id] + w.pending[id] + w.lost[id];
  }

  /** A child's sandbox yields a patch exactly when the child succeeded and a
      difference could be made; it goes to the consumer that accepts it, else to
      the pending directory, and is lost only when it cannot be written. */
  lemma {:induction false} PatchOnSuccess(s: Setup, w: World, ctx: Context, child: Context, body: Child, o: Outcomes)
    requires Ready(s, w, ctx) && child.depth <= MAX_DELEGATION_DEPTH && s.sandboxed && Starts(s, o)
    ensures Patched(s, Execute(s, w, ctx, child, body, o).world, w.nextId, body.success && o.diffs, o)
  {
    var id := w.nextId;
    var w1 := Create(w.(nextId := id + 1), id);
    CreateKeepsLedger(w, id);
    InsideKeeps(s, w1, ctx, child, id, body);
    FinalizePatches(s, RunInside(s, w1, ctx, child, id, body), id, body.success, o);
  }

  // ── Where a loop's writes go ───────────────────────────────────────

  /** What a loop writes itself, in order. */
  function Written(steps: List<Step>): seq<string> {
    match steps
    case Nil => []
    case Cons(Write(text), rest) => [text] + Written(rest)
    case Cons(Dispatch(r), rest) => Written(rest)
  }

  /** With isolation on, a loop's directory gets exactly what the loop writes
      itself, in order, whatever its delegations do in between. */
  lemma {:induction false} OwnWritesInOrder(s: Setup, w: World, ctx: Context, m: Memory, steps: List<Step>)
    requires Ready(s, w, ctx) && s.sandboxed && s.swaps && Old(w.root, w.nextId)
    ensures RunSteps(s, w, ctx, m, steps).Files(w.root) == w.Files(w.root) + Written(steps)
    decreases steps
  {
    match steps
    case Nil =>
    case Cons(Write(text), rest) =>
      OwnWritesInOrder(s, WriteFile(w, text), ctx, m, rest);
      assert w.Files(w.root) + [text] + Written(rest) == w.Files(w.root) + ([text] + Written(rest));
    case Cons(Dispatch(r), rest) =>
      RequestKeeps(s, w, ctx, m, r);
      assert Unset != Active(w.root);
      OwnWritesInOrder(s, RunRequest(s, w, ctx, m, r).world, ctx, Recall(s, ctx, m, r), rest);
  }

  lemma {:induction false} InsideWrites(s: Setup, w: World, ctx: Context, child: Context, id: nat, body: Child)
    requires Ready(s, w, ctx) && s.sandboxed && s.swaps && id < w.nextId && child.depth <= MAX_DELEGATION_DEPTH
    ensures RunInside(s, w, ctx, child, id, body).Files(Sandbox(id)) == w.Files(Sandbox(id)) + Written(body.steps)
  {
    var inside := child.(activeRoot := Active(Sandbox(id)));
    OwnWritesInOrder(s, Enter(w.(root := Sandbox(id)), inside), inside, Memory(NoTier, 0), body.steps);
  }

  /** A child's sandbox holds what the child wrote, and that is what its patch is
      made from. */
  lemma {:induction false} SandboxHoldsWrites(s: Setup, w: World, ctx: Context, child: Context, body: Child,
                                              o: Outcomes)
    requires Ready(s, w, ctx) && s.sandboxed && s.swaps && Starts(s, o) && child.depth <= MAX_DELEGATION_DEPTH
    ensures
      var own := Sandbox(w.nextId);
      Execute(s, w, ctx, child, body, o).world.Files(own) == w.Files(own) + Written(body.steps)
  {
    var id := w.nextId;
    var w1 := Create(w.(nextId := id + 1), id);
    CreateKeepsLedger(w, id);
    InsideWrites(s, w1, ctx, child, id, body);
    FinalizeShape(s, RunInside(s, w1, ctx, child, id, body), id, body.success, o);
  }

  /** What the stages of a pipeline write, up to the first that fails. */
  function StagesWritten(stages: List<Stage>): seq<string> {
    if stages.Nil? || !stages.head.valid then []
    else
      var stage := stages.head;
      Written(stage.body.steps) + if stage.body.success then StagesWritten(stages.tail) else []
  }

  lemma {:induction false} StagesWrite(s: Setup, w: World, ctx: Context, id: nat, stages: List<Stage>, last: bool)
    requires Ready(s, w, ctx) && ctx.depth < MAX_DELEGATION_DEPTH && s.sandboxed && s.swaps && id < w.nextId
    ensures RunStages(s, w, ctx, id, stages, last).world.Files(Sandbox(id)) ==
            w.Files(Sandbox(id)) + StagesWritten(stages)
    decreases stages
  {
    if stages.Cons? && stages.head.valid {
      var stage := stages.head;
      var child := ColdChild(ctx, stage.tier);
      var ran := RunInside(s, w, ctx, child, id, stage.body);
      InsideWrites(s, w, ctx, child, id, stage.body);
      InsideKeeps(s, w, ctx, child, id, stage.body);
      var own := w.Files(Sandbox(id));
      if stage.body.success {
        StagesWrite(s, ran, ctx, id, stages.tail, true);
        Regrouped(own, Written(stage.body.steps), StagesWritten(stages.tail));
      } else {
        assert own + (Written(stage.body.steps) + []) == own + Written(stage.body.steps);
      }
    }
  }

  lemma {:induction false} Regrouped(a: seq<string>, b: seq<string>, c: seq<string>)
    ensures a + b + c == a + (b + c)
  {
  }

  /** The stages of a pipeline write into one sandbox, one after the other. */
  lemma {:induction false} PipelineWritesInOrder(s: Setup, w: World, ctx: Context, stages: List<Stage>, o: Outcomes)
    requires Ready(s, w, ctx) && ctx.depth < MAX_DELEGATION_DEPTH && s.sandboxed && s.swaps
    requires !o.startRejected && o.creates
    ensures
      var own := Sandbox(w.nextId);
      RunPipeline(s, w, ctx, stages, o).world.Files(own) == w.Files(own) + StagesWritten(stages)
  {
    var id := w.nextId;
    var w1 := Create(w.(nextId := id + 1), id);
    CreateKeepsLedger(w, id);
    StagesWrite(s, w1, ctx, id, stages, false);
    var r := RunStages(s, w1, ctx, id, stages, false);
    FinalizeShape(s, r.world, id, r.success, o);
  }

  // ── When a request succeeds ────────────────────────────────────────

  predicate AllSucceed(stages: List<Stage>) {
    stages.Cons? ==> stages.head.valid && stages.head.body.success && AllSucceed(stages.tail)
  }

  lemma {:induction false} StagesSucceedExactly(s: Setup, w: World, ctx: Context, id: nat, stages: List<Stage>,
                                                last: bool)
    ensures RunStages(s, w, ctx, id, stages, last).success <==> (stages.Cons? || last) && AllSucceed(stages)
    decreases stages
  {
    if stages.Cons? && stages.head.valid {
      var stage := stages.head;
      var child := ColdChild(ctx, stage.tier);
      var ran := if s.sandboxed then RunInside(s, w, ctx, child, id, stage.body) else RunChild(s, w, child, stage.body);
      StagesSucceedExactly(s, ran, ctx, id, stages.tail, true);
    }
  }

  /** A request succeeds if and only if nothing stops it and what it runs
      succeeds: its child, or every one of a pipeline's stages, of which there is
      at least one. */
  lemma {:induction false} RequestSucceedsExactly(s: Setup, w: World, ctx: Context, m: Memory, r: Request)
    ensures RunRequest(s, w, ctx, m, r).success <==>
            && ctx.depth < 2 && !r.o.startRejected && (s.sandboxed ==> r.o.creates)
            && match r
               case Cold(target, body, o) => !Refused(s, ctx, m, target) && !o.hookCancels && o.valid && body.success
               case Resume(requested, _, found, _, body, o) =>
                 !Refused(s, ctx, m, requested) && found && !o.hookCancels && o.valid && body.success
               case Pipeline(stages, _) => !HasUnsafeStage(s, stages) && stages.Cons? && AllSucceed(stages)
  {
    if r.Pipeline? {
      var id := w.nextId;
      StagesSucceedExactly(s, w, ctx, 0, r.stages, false);
      StagesSucceedExactly(s, Create(w.(nextId := id + 1), id), ctx, id, r.stages, false);
    }
  }

  /** The stages of a pipeline share one sandbox. It is created and discarded
      once, and yields a patch exactly when every stage succeeded and a difference
      could be made. */
  lemma {:induction false} PipelinePatchOnSuccess(s: Setup, w: World, ctx: Context, stages: List<Stage>, o: Outcomes)
    requires Ready(s, w, ctx) && ctx.depth < MAX_DELEGATION_DEPTH && s.sandboxed && !o.startRejected && o.creates
    ensures
      var r, id := RunPipeline(s, w, ctx, stages, o), w.nextId;
      && (r.success <==> stages.Cons? && AllSucceed(stages))
      && Patched(s, r.world, id, stages.Cons? && AllSucceed(stages) && o.diffs, o)
  {
    var id := w.nextId;
    var w1 := Create(w.(nextId := id + 1), id);
    CreateKeepsLedger(w, id);
    StagesKeep(s, w1, ctx, id, stages, false);
    StagesSucceedExactly(s, w1, ctx, id, stages, false);
    var r := RunStages(s, w1, ctx, id, stages, false);
    FinalizePatches(s, r.world, id, r.success, o);
  }

  /** Contexts that ran stay on record. */
  lemma {:induction false} ChildIsVisited(s: Setup, w: World, child: Context, body: Child)
    ensures child in RunChild(s, w, child, body).visited
  {
    StepsKeepVisited(s, Enter(w, child), child, Memory(NoTier, 0), body.steps);
  }

  lemma {:induction false} StepsKeepVisited(s: Setup, w: World, ctx: Context, m: Memory, steps: List<Step>)
    ensures w.visited <= RunSteps(s, w, ctx, m, steps).visited
    decreases steps
  {
    match steps
    case Nil =>
    case Cons(Write(text), rest) => StepsKeepVisited(s, WriteFile(w, text), ctx, m, rest);
    case Cons(Dispatch(r), rest) =>
      RequestKeepsVisited(s, w, ctx, m, r);
      StepsKeepVisited(s, RunRequest(s, w, ctx, m, r).world, ctx, Recall(s, ctx, m, r), rest);
  }

  lemma {:induction false} RequestKeepsVisited(s: Setup, w: World, ctx: Context, m: Memory, r: Request)
    ensures w.visited <= RunRequest(s, w, ctx, m, r).world.visited
    decreases r
  {
    match r
    case Cold(target, body, o) =>
      if !Refused(s, ctx, m, target) && !o.hookCancels {
        ExecuteKeepsVisited(s, w, ctx, ColdChild(ctx, target), body, o);
      }
    case Resume(requested, target, found, seeded, body, o) =>
      if !Refused(s, ctx, m, requested) && found && !o.hookCancels {
        ExecuteKeepsVisited(s, w, ctx, if seeded then ResumedChild(ctx, target) else ColdChild(ctx, target), body, o);
      }
    case Pipeline(stages, o) =>
      if !PipelineRefused(s, ctx, stages) && !o.startRejected {
        var id := w.nextId;
        StagesKeepVisited(s, w, ctx, 0, stages, false);
        StagesKeepVisited(s, Create(w.(nextId := id + 1), id), ctx, id, stages, false);
        var ran := RunStages(s, Create(w.(nextId := id + 1), id), ctx, id, stages, false);
        FinalizeShape(s, ran.world, id, ran.success, o);
      }
  }

  lemma {:induction false} ExecuteKeepsVisited(s: Setup, w: World, ctx: Context, child: Context, body: Child,
                                               o: Outcomes)
    ensures w.visited <= Execute(s, w, ctx, child, body, o).world.visited
    decreases body, 2
  {
    var id := w.nextId;
    var w1 := Create(w.(nextId := id + 1), id);
    RunKeepsVisited(s, w, ctx, child, id, body);
    RunKeepsVisited(s, w1, ctx, child, id, body);
    FinalizeShape(s, RunInside(s, w1, ctx, child, id, body), id, body.success, o);
  }

  /** A child's run, with or without the directory swap. */
  lemma {:induction false} RunKeepsVisited(s: Setup, w: World, ctx: Context, child: Context, id: nat, body: Child)
    ensures w.visited <= RunChild(s, w, child, body).visited
    ensures w.visited <= RunInside(s, w, ctx, child, id, body).visited
    decreases body, 0
  {
    StepsKeepVisited(s, Enter(w, child), child, Memory(NoTier, 0), body.steps);
    var inside := child.(activeRoot := Active(Sandbox(id)));
    StepsKeepVisited(s, Enter(w.(root := Sandbox(id)), inside), inside, Memory(NoTier, 0), body.steps);
  }

  lemma {:induction false} StagesKeepVisited(s: Setup, w: World, ctx: Context, id: nat, stages: List<Stage>, last: bool)
    ensures w.visited <= RunStages(s, w, ctx, id, stages, last).world.visited
    decreases stages, 0
  {
    if stages.Cons? && stages.head.valid {
      var stage := stages.head;
      var child := ColdChild(ctx, stage.tier);
      RunKeepsVisited(s, w, ctx, child, id, stage.body);
      var ran := if s.sandboxed then RunInside(s, w, ctx, child, id, stage.body) else RunChild(s, w, child, stage.body);
      if stage.body.success { StagesKeepVisited(s, ran, ctx, id, stages.tail, true); }
    }
  }

  /** The child's context, in the sandbox that it is given. */
  function Placed(s: Setup, child: Context, id: nat): Context {
    if s.sandboxed && s.swaps then child.(activeRoot := Active(Sandbox(id))) else child
  }

  /** A cold delegation runs its child if and only if the depth allows it, its
      tier is not under way as far as the context knows, its tools are safe, it
      did not just fail too often, and neither the hook, the tier table, the
      consumer nor the sandbox stops it. */
  lemma {:induction false} ColdRunsExactly(s: Setup, w: World, ctx: Context, m: Memory, target: Tier, body: Child,
                                           o: Outcomes)
    requires w.visited == {}
    ensures
      Placed(s, ColdChild(ctx, target), w.nextId) in RunRequest(s, w, ctx, m, Cold(target, body, o)).world.visited <==>
        && ctx.depth < 2
        && target != ctx.tier && target !in ctx.ancestors
        && target !in s.unsafe && (target == m.target ==> m.failures < s.maxFailures)
        && !o.hookCancels && o.valid && !o.startRejected && (s.sandboxed ==> o.creates)
  {
    var id, child := w.nextId, ColdChild(ctx, target);
    var w1 := Create(w.(nextId := id + 1), id);
    ChildIsVisited(s, w, child, body);
    ChildIsVisited(s, w1, child, body);
    ChildIsVisited(s, w1.(root := Sandbox(id)), child.(activeRoot := Active(Sandbox(id))), body);
    FinalizeShape(s, RunInside(s, w1, ctx, child, id, body), id, body.success, o);
  }

  /** Every context in a tree is at most two levels deep. */
  lemma {:induction false} DepthIsBounded(s: Setup, w: World, ctx: Context, m: Memory, steps: List<Step>)
    requires Ready(s, w, ctx) && w.visited == {}
    ensures forall v :: v in RunSteps(s, w, ctx, m, steps).visited ==> v.depth <= MAX_DELEGATION_DEPTH
  {
    StepsKeep(s, w, ctx, m, steps);
  }

  // ── Levels ─────────────────────────────────────────────────────────

  /** `v` is below `ctx`, and its depth says how far. */
  predicate Below(ctx: Context, v: Context) {
    ctx.stack < v.stack && v.depth - ctx.depth == |v.stack| - |ctx.stack|
  }

  ghost predicate AllBelow(w: World, w': World, ctx: Context) {
    forall v :: v in w'.visited ==> v in w.visited || Below(ctx, v)
  }

  /** A child that is entered, and what runs below it. */
  lemma {:induction false} BelowChild(w: World, w': World, ctx: Context, child: Context)
    requires Below(ctx, child) && AllBelow(Enter(w, child), w', child)
    ensures AllBelow(w, w', ctx)
  {
  }

  /** Of every context in a tree, the depth is the number of loops around it. */
  lemma {:induction false} DepthIsLevel(s: Setup, w: World, ctx: Context, m: Memory, steps: List<Step>)
    ensures AllBelow(w, RunSteps(s, w, ctx, m, steps), ctx)
    decreases steps
  {
    match steps
    case Nil =>
    case Cons(Write(text), rest) => DepthIsLevel(s, WriteFile(w, text), ctx, m, rest);
    case Cons(Dispatch(r), rest) =>
      RequestLevels(s, w, ctx, m, r);
      DepthIsLevel(s, RunRequest(s, w, ctx, m, r).world, ctx, Recall(s, ctx, m, r), rest);
  }

  lemma {:induction false} RequestLevels(s: Setup, w: World, ctx: Context, m: Memory, r: Request)
    ensures AllBelow(w, RunRequest(s, w, ctx, m, r).world, ctx)
    decreases r
  {
    match r
    case Cold(target, body, o) => ExecuteLevels(s, w, ctx, ColdChild(ctx, target), body, o);
    case Resume(requested, target, found, seeded, body, o) =>
      ExecuteLevels(s, w, ctx, if seeded then ResumedChild(ctx, target) else ColdChild(ctx, target), body, o);
    case Pipeline(stages, o) =>
      var id := w.nextId;
      var w1 := Create(w.(nextId := id + 1), id);
      StagesLevel(s, w, ctx, 0, stages, false);
      StagesLevel(s, w1, ctx, id, stages, false);
      var ran := RunStages(s, w1, ctx, id, stages, false);
      FinalizeShape(s, ran.world, id, ran.success, o);
  }

  lemma {:induction false} ExecuteLevels(s: Setup, w: World, ctx: Context, child: Context, body: Child, o: Outcomes)
    requires Below(ctx, child)
    ensures AllBelow(w, Execute(s, w, ctx, child, body, o).world, ctx)
    decreases body, 2
  {
    var id := w.nextId;
    var w1 := Create(w.(nextId := id + 1), id);
    RunLevels(s, w, ctx, child, id, body);
    RunLevels(s, w1, ctx, child, id, body);
    FinalizeShape(s, RunInside(s, w1, ctx, child, id, body), id, body.success, o);
  }

  lemma {:induction false} RunLevels(s: Setup, w: World, ctx: Context, child: Context, id: nat, body: Child)
    requires Below(ctx, child)
    ensures AllBelow(w, RunChild(s, w, child, body), ctx)
    ensures AllBelow(w, RunInside(s, w, ctx, child, id, body), ctx)
    decreases body, 0
  {
    DepthIsLevel(s, Enter(w, child), child, Memory(NoTier, 0), body.steps);
    BelowChild(w, RunChild(s, w, child, body), ctx, child);
    var inside, there := child.(activeRoot := Active(Sandbox(id))), w.(root := Sandbox(id));
    DepthIsLevel(s, Enter(there, inside), inside, Memory(NoTier, 0), body.steps);
    BelowChild(there, RunChild(s, there, inside, body), ctx, inside);
  }

  lemma {:induction false} StagesLevel(s: Setup, w: World, ctx: Context, id: nat, stages: List<Stage>, last: bool)
    ensures AllBelow(w, RunStages(s, w, ctx, id, stages, last).world, ctx)
    decreases stages, 0
  {
    if stages.Cons? && stages.head.valid {
      var stage := stages.head;
      var child := ColdChild(ctx, stage.tier);
      RunLevels(s, w, ctx, child, id, stage.body);
      var ran := if s.sandboxed then RunInside(s, w, ctx, child, id, stage.body) else RunChild(s, w, child, stage.body);
      if stage.body.success { StagesLevel(s, ran, ctx, id, stages.tail, true); }
    }
  }

  /** Which tiers a child may not delegate to: its own and its parent's ancestors,
      and its parent's tier, if it has one, unless the child was resumed with a
      history. */
  lemma {:induction false} ChildKnows(ctx: Context, target: Tier, t: Tier)
    ensures IsCycle(ColdChild(ctx, target), t) <==>
            t == target || t in ctx.ancestors || (t == ctx.tier && t != NoTier)
    ensures IsCycle(ResumedChild(ctx, target), t) <==> t == target || t in ctx.ancestors
  {
  }

  // ── Cold delegations do not repeat a tier ──────────────────────────

  /** Only cold delegations, and only to tiers among `tiers`. */
  predicate ColdTree(steps: List<Step>, tiers: set<Tier>) {
    match steps
    case Nil => true
    case Cons(Write(text), rest) => ColdTree(rest, tiers)
    case Cons(Dispatch(r), rest) =>
      && r.Cold? && (r.o.valid ==> r.target in tiers && r.target != NoTier)
      && ColdTree(r.body.steps, tiers) && ColdTree(rest, tiers)
  }

  ghost predicate Distinct(xs: seq<Tier>) {
    forall i, j :: 0 <= i < j < |xs| ==> xs[i] != xs[j]
  }

  /** The tiers under way are distinct, the context sees them all, and there
      is one for each level. */
  ghost predicate Linear(ctx: Context, tiers: set<Tier>) {
    && ctx.stack == Chain(ctx) && Distinct(ctx.stack) && ctx.depth <= |ctx.stack|
    && forall t :: t in ctx.stack ==> t in tiers
  }

  ghost predicate AllLinear(w: World, w': World, tiers: set<Tier>) {
    forall v :: v in w'.visited ==> v in w.visited || Linear(v, tiers)
  }

  lemma {:induction false} ColdChildIsLinear(ctx: Context, target: Tier, root: Root, tiers: set<Tier>)
    requires Linear(ctx, tiers) && !IsCycle(ctx, target) && target in tiers && target != NoTier
    ensures Linear(ColdChild(ctx, target).(activeRoot := root), tiers)
  {
    assert target !in Chain(ctx);
  }

  lemma {:induction false} ColdStepsAreLinear(s: Setup, w: World, ctx: Context, m: Memory, steps: List<Step>,
                                              tiers: set<Tier>)
    requires Linear(ctx, tiers) && ColdTree(steps, tiers)
    ensures AllLinear(w, RunSteps(s, w, ctx, m, steps), tiers)
    decreases steps
  {
    match steps
    case Nil =>
    case Cons(Write(text), rest) => ColdStepsAreLinear(s, WriteFile(w, text), ctx, m, rest, tiers);
    case Cons(Dispatch(r), rest) =>
      ColdRequestIsLinear(s, w, ctx, m, r, tiers);
      ColdStepsAreLinear(s, RunRequest(s, w, ctx, m, r).world, ctx, Recall(s, ctx, m, r), rest, tiers);
  }

  lemma {:induction false} ColdRequestIsLinear(s: Setup, w: World, ctx: Context, m: Memory, r: Request,
                                               tiers: set<Tier>)
    requires Linear(ctx, tiers) && r.Cold? && ColdTree(r.body.steps, tiers)
    requires r.o.valid ==> r.target in tiers && r.target != NoTier
    ensures AllLinear(w, RunRequest(s, w, ctx, m, r).world, tiers)
    decreases r
  {
    if !Refused(s, ctx, m, r.target) && !r.o.hookCancels && Starts(s, r.o) {
      var child := ColdChild(ctx, r.target);
      if !s.sandboxed {
        ColdChildIsLinear(ctx, r.target, Unset, tiers);
        assert child.(activeRoot := Unset) == child;
        ColdRunIsLinear(s, w, child, r.body, tiers);
      } else {
        var id := w.nextId;
        var w1 := Create(w.(nextId := id + 1), id);
        ColdInsideIsLinear(s, w1, ctx, r.target, id, r.body, tiers);
        FinalizeShape(s, RunInside(s, w1, ctx, child, id, r.body), id, r.body.success, r.o);
      }
    }
  }

  lemma {:induction false} ColdRunIsLinear(s: Setup, w: World, child: Context, body: Child, tiers: set<Tier>)
    requires Linear(child, tiers) && ColdTree(body.steps, tiers)
    ensures AllLinear(w, RunChild(s, w, child, body), tiers)
    decreases body, 0
  {
    ColdStepsAreLinear(s, Enter(w, child), child, Memory(NoTier, 0), body.steps, tiers);
  }

  lemma {:induction false} ColdInsideIsLinear(s: Setup, w: World, ctx: Context, target: Tier, id: nat, body: Child,
                                              tiers: set<Tier>)
    requires Linear(ctx, tiers) && !IsCycle(ctx, target) && target in tiers && target != NoTier
    requires ColdTree(body.steps, tiers)
    ensures AllLinear(w, RunInside(s, w, ctx, ColdChild(ctx, target), id, body), tiers)
    decreases body, 1
  {
    var child := ColdChild(ctx, target);
    if !s.swaps {
      ColdChildIsLinear(ctx, target, Unset, tiers);
      assert child.(activeRoot := Unset) == child;
      ColdRunIsLinear(s, w, child, body, tiers);
    } else {
      ColdChildIsLinear(ctx, target, Active(Sandbox(id)), tiers);
      ColdRunIsLinear(s, w.(root := Sandbox(id)), child.(activeRoot := Active(Sandbox(id))), body, tiers);
    }
  }

  lemma {:induction false} DistinctFit(xs: seq<Tier>, tiers: set<Tier>)
    requires Distinct(xs) && forall t :: t in xs ==> t in tiers
    ensures |xs| <= |tiers|
  {
    if xs != [] {
      var n := |xs| - 1;
      DistinctFit(xs[..n], tiers - {xs[n]});
    }
  }

  /** In a tree of cold delegations the tiers under way never repeat, so the
      depth is at most the number of tiers. */
  lemma {:induction false} ColdChainsNeverRepeat(s: Setup, w: World, ctx: Context, m: Memory, steps: List<Step>,
      tiers: set<Tier>)
    requires Linear(ctx, tiers) && ColdTree(steps, tiers) && w.visited == {}
    ensures forall v :: v in RunSteps(s, w, ctx, m, steps).visited ==> Distinct(v.stack) && v.depth <= |tiers|
  {
    ColdStepsAreLinear(s, w, ctx, m, steps, tiers);
    forall v | v in RunSteps(s, w, ctx, m, steps).visited ensures Distinct(v.stack) && v.depth <= |tiers| {
      DistinctFit(v.stack, tiers);
    }
  }

  // ── Resumed delegations and pipelines do ───────────────────────────

  function Plain(): Setup {
    Setup(false, false, true, 2, {})
  }

  function Granted(): Outcomes {
    Outcomes(true, false, false, true, true, true, true)
  }

  /** A resumed child forgets its parent's tier and can delegate back to it. */
  lemma {:induction false} ResumeCanRepeat(w: World, a: Tier, b: Tier)
    requires a != b && a != NoTier && b != NoTier
    ensures
      var ctx := Context(0, [], a, Unset, [a]);
      var back := Cold(a, Child(Nil, true), Granted());
      var r := Resume(NoTier, b, true, true, Child(Cons(Dispatch(back), Nil), true), Granted());
      exists v :: v in RunRequest(Plain(), w, ctx, Memory(NoTier, 0), r).world.visited && v.stack == [a, b, a]
  {
    var s, m := Plain(), Memory(NoTier, 0);
    var ctx := Context(0, [], a, Unset, [a]);
    var back := Cold(a, Child(Nil, true), Granted());
    var steps := Cons(Dispatch(back), Nil);
    var r := Resume(NoTier, b, true, true, Child(steps, true), Granted());
    var child := ResumedChild(ctx, b);
    var grandchild := ColdChild(child, a);
    var w1 := Enter(w, child);
    assert child.ancestors == [b];
    assert !Refused(s, child, m, a);
    assert RunRequest(s, w1, child, m, back).world == RunChild(s, w1, grandchild, Child(Nil, true));
    assert RunSteps(s, w1, child, m, steps) == RunRequest(s, w1, child, m, back).world;
    assert RunRequest(s, w, ctx, m, r).world == RunChild(s, w, child, Child(steps, true));
    assert grandchild.stack == [a, b, a];
  }

  /** A pipeline may run the tier that asked for it. */
  lemma {:induction false} PipelineCanRepeat(w: World, a: Tier)
    ensures
      var ctx := Context(0, [], a, Unset, [a]);
      var r := Pipeline(Cons(Stage(a, true, Child(Nil, true)), Nil), Granted());
      exists v :: v in RunRequest(Plain(), w, ctx, Memory(NoTier, 0), r).world.visited && v.stack == [a, a]
  {
    var s := Plain();
    var ctx := Context(0, [], a, Unset, [a]);
    var body := Child(Nil, true);
    var stages := Cons(Stage(a, true, body), Nil);
    var child := ColdChild(ctx, a);
    assert RunStages(s, w, ctx, 0, stages, false) == RunStages(s, RunChild(s, w, child, body), ctx, 0, Nil, true);
    assert child.stack == [a, a];
    var r := Pipeline(stages, Granted());
    assert !HasUnsafeStage(s, stages) by { assert !HasUnsafeStage(s, stages.tail); }
    assert RunRequest(s, w, ctx, Memory(NoTier, 0), r) == RunStages(s, w, ctx, 0, stages, false);
    assert RunChild(s, w, child, body).visited == w.visited + {child};
    assert child in RunRequest(s, w, ctx, Memory(NoTier, 0), r).world.visited;
  }
}
