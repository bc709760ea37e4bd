/** Which children a loop runs, counted: under the repeat guard, and under the
    tiers that are already under way. */
module DelegationRuns {
  import opened Delegation
  import opened DelegationTrees

  // ── Counting runs ──────────────────────────────────────────────────

  /** The tiers under way while a child of `ctx` on tier `t` runs. */
  function Under(ctx: Context, t: Tier): seq<Tier> {
    ctx.stack + [t]
  }

  lemma {:induction false} UnderIsInjective(ctx: Context, t: Tier, u: Tier)
    ensures Under(ctx, t) == Under(ctx, u) <==> t == u
  {
    assert Under(ctx, t)[|ctx.stack|] == t && Under(ctx, u)[|ctx.stack|] == u;
  }

  /** How often a pipeline's stages run on `t`: up to the first that is unknown
      or fails. */
  function StageRuns(stages: List<Stage>, t: Tier): nat {
    match stages
    case Nil => 0
    case Cons(stage, rest) =>
      if !stage.valid then 0
      else (if stage.tier == t then 1 else 0) + if stage.body.success then StageRuns(rest, t) else 0
  }

  /** How often a request of `ctx` itself runs a child on `t`. */
  function DirectRuns(s: Setup, ctx: Context, m: Memory, r: Request, t: Tier): nat {
    match r
    case Cold(target, body, o) =>
      if !Refused(s, ctx, m, target) && !o.hookCancels && Starts(s, o) && target == t then 1 else 0
    case Resume(requested, target, found, seeded, body, o) =>
      if !Refused(s, ctx, m, requested) && found && !o.hookCancels && Starts(s, o) && target == t then 1 else 0
    case Pipeline(stages, o) =>
      if !PipelineRefused(s, ctx, stages) && !o.startRejected && (s.sandboxed ==> o.creates)
      then StageRuns(stages, t) else 0
  }

  /** Nothing ran with at most `n` tiers under way. */
  ghost predicate Deeper(w: World, w': World, n: nat) {
    forall x :: |x| <= n ==> w'.runs[x] == w.runs[x]
  }

  /** Of the runs with at most as many tiers under way as `x`, only `x` itself
      was added, `k` times. */
  ghost predicate Adds(w: World, w': World, x: seq<Tier>, k: nat) {
    forall y :: |y| <= |x| ==> w'.runs[y] == w.runs[y] + if y == x then k else 0
  }

  lemma {:induction false} StepsRunDeeper(s: Setup, w: World, ctx: Context, m: Memory, steps: List<Step>)
    ensures Deeper(w, RunSteps(s, w, ctx, m, steps), |ctx.stack|)
    decreases steps
  {
    match steps
    case Nil =>
    case Cons(Write(text), rest) => StepsRunDeeper(s, WriteFile(w, text), ctx, m, rest);
    case Cons(Dispatch(r), rest) =>
      RequestRuns(s, w, ctx, m, r);
      StepsRunDeeper(s, RunRequest(s, w, ctx, m, r).world, ctx, Recall(s, ctx, m, r), rest);
  }

  lemma {:induction false} ChildRuns(s: Setup, w: World, child: Context, body: Child)
    ensures Adds(w, RunChild(s, w, child, body), child.stack, 1)
    decreases body, 0
  {
    StepsRunDeeper(s, Enter(w, child), child, Memory(NoTier, 0), body.steps);
  }

  lemma {:induction false} InsideRuns(s: Setup, w: World, ctx: Context, child: Context, id: nat, body: Child)
    ensures Adds(w, RunInside(s, w, ctx, child, id, body), child.stack, 1)
    decreases body, 1
  {
    ChildRuns(s, w, child, body);
    ChildRuns(s, w.(root := Sandbox(id)), child.(activeRoot := Active(Sandbox(id))), body);
  }

  lemma {:induction false} FinalizeKeepsRuns(s: Setup, w: World, id: nat, success: bool, o: Outcomes)
    ensures Finalize(s, w, id, success, o).runs == w.runs
  {
  }

  lemma {:induction false} ExecuteRuns(s: Setup, w: World, ctx: Context, child: Context, body: Child, o: Outcomes)
    ensures Adds(w, Execute(s, w, ctx, child, body, o).world, child.stack, if Starts(s, o) then 1 else 0)
    decreases body, 2
  {
    if Starts(s, o) {
      var id := w.nextId;
      var w1 := Create(w.(nextId := id + 1), id);
      ChildRuns(s, w, child, body);
      InsideRuns(s, w1, ctx, child, id, body);
      FinalizeKeepsRuns(s, RunInside(s, w1, ctx, child, id, body), id, body.success, o);
    }
  }

  lemma {:induction false} OneRun(ctx: Context, w: World, w': World, u: Tier, k: nat)
    requires Adds(w, w', Under(ctx, u), k)
    ensures Deeper(w, w', |ctx.stack|)
    ensures forall t :: w'.runs[Under(ctx, t)] == w.runs[Under(ctx, t)] + if t == u then k else 0
  {
    forall t ensures w'.runs[Under(ctx, t)] == w.runs[Under(ctx, t)] + if t == u then k else 0 {
      UnderIsInjective(ctx, t, u);
    }
  }

  lemma {:induction false} StagesRun(s: Setup, w: World, ctx: Context, id: nat, stages: List<Stage>, last: bool)
    ensures
      var w' := RunStages(s, w, ctx, id, stages, last).world;
      && Deeper(w, w', |ctx.stack|)
      && forall t :: w'.runs[Under(ctx, t)] == w.runs[Under(ctx, t)] + StageRuns(stages, t)
    decreases stages, 0
  {
    if stages.Cons? && stages.head.valid {
      var stage := stages.head;
      var child := ColdChild(ctx, stage.tier);
      var ran := if s.sandboxed then RunInside(s, w, ctx, child, id, stage.body) else RunChild(s, w, child, stage.body);
      if s.sandboxed { InsideRuns(s, w, ctx, child, id, stage.body); } else { ChildRuns(s, w, child, stage.body); }
      OneRun(ctx, w, ran, stage.tier, 1);
      if stage.body.success { StagesRun(s, ran, ctx, id, stages.tail, true); }
    }
  }

  lemma {:induction false} PipelineRuns(s: Setup, w: World, ctx: Context, stages: List<Stage>, o: Outcomes)
    requires !o.startRejected && (s.sandboxed ==> o.creates)
    ensures
      var w' := RunPipeline(s, w, ctx, stages, o).world;
      && Deeper(w, w', |ctx.stack|)
      && forall t :: w'.runs[Under(ctx, t)] == w.runs[Under(ctx, t)] + StageRuns(stages, t)
    decreases stages, 1
  {
    if s.sandboxed {
      var id := w.nextId;
      var w1 := Create(w.(nextId := id + 1), id);
      StagesRun(s, w1, ctx, id, stages, false);
      var ran := RunStages(s, w1, ctx, id, stages, false);
      FinalizeKeepsRuns(s, ran.world, id, ran.success, o);
    } else {
      StagesRun(s, w, ctx, 0, stages, false);
    }
  }

  /** A request adds exactly its direct runs to those of `ctx`'s children, and
      everything else it runs is deeper. */
  lemma {:induction false} RequestRuns(s: Setup, w: World, ctx: Context, m: Memory, r: Request)
    ensures
      var w' := RunRequest(s, w, ctx, m, r).world;
      && Deeper(w, w', |ctx.stack|)
      && forall t :: w'.runs[Under(ctx, t)] == w.runs[Under(ctx, t)] + DirectRuns(s, ctx, m, r, t)
    decreases r
  {
    var w' := RunRequest(s, w, ctx, m, r).world;
    match r
    case Cold(target, body, o) =>
      if !Refused(s, ctx, m, target) && !o.hookCancels {
        ExecuteRuns(s, w, ctx, ColdChild(ctx, target), body, o);
        OneRun(ctx, w, w', target, if Starts(s, o) then 1 else 0);
      }
    case Resume(requested, target, found, seeded, body, o) =>
      if !Refused(s, ctx, m, requested) && found && !o.hookCancels {
        ExecuteRuns(s, w, ctx, if seeded then ResumedChild(ctx, target) else ColdChild(ctx, target), body, o);
        OneRun(ctx, w, w', target, if Starts(s, o) then 1 else 0);
      }
    case Pipeline(stages, o) =>
      if !PipelineRefused(s, ctx, stages) && !o.startRejected && (s.sandboxed ==> o.creates) {
        PipelineRuns(s, w, ctx, stages, o);
      }
  }

  // ── What the repeat guard stops ────────────────────────────────────

  /** A stage on `t` is reached. */
  predicate Reaches(stages: List<Stage>, t: Tier) {
    && stages.Cons? && stages.head.valid
    && (stages.head.tier == t || (stages.head.body.success && Reaches(stages.tail, t)))
  }

  lemma {:induction false} ReachesExactly(stages: List<Stage>, t: Tier)
    ensures Reaches(stages, t) <==> StageRuns(stages, t) > 0
  {
    if stages.Cons? { ReachesExactly(stages.tail, t); }
  }

  /** The ways past the repeat guard on `t`: a resume under another name that
      resolves to `t`, or a pipeline with a stage on `t`; the other guards and
      checks apply to both. */
  predicate Escapes(s: Setup, ctx: Context, r: Request, t: Tier) {
    && ctx.depth < 2 && !r.o.startRejected && (s.sandboxed ==> r.o.creates)
    && match r
       case Cold(target, body, o) => false
       case Resume(requested, target, found, seeded, body, o) =>
         && target == t && requested != t && requested != ctx.tier && requested !in ctx.ancestors
         && requested !in s.unsafe && found && !o.hookCancels && o.valid
       case Pipeline(stages, o) => Reaches(stages, t) && !HasUnsafeStage(s, stages)
  }

  /** While a target is blocked, a request runs it if and only if it is one of
      those. */
  lemma {:induction false} BlockedTargetRunsExactly(s: Setup, w: World, ctx: Context, m: Memory, r: Request)
    requires m.failures >= s.maxFailures
    ensures
      var x := Under(ctx, m.target);
      RunRequest(s, w, ctx, m, r).world.runs[x] > w.runs[x] <==> Escapes(s, ctx, r, m.target)
  {
    RequestRuns(s, w, ctx, m, r);
    if r.Pipeline? { ReachesExactly(r.stages, m.target); }
  }

  /** A memory that blocks `t`. */
  function Blocking(s: Setup, t: Tier): Memory {
    Memory(t, if s.maxFailures < 0 then 0 else s.maxFailures)
  }

  /** A pipeline runs a blocked target, although no resume is involved. */
  lemma {:induction false} PipelineEscapesRepeatGuard(s: Setup, w: World, ctx: Context, t: Tier, body: Child)
    requires ctx.depth < MAX_DELEGATION_DEPTH && t !in s.unsafe
    ensures
      var m, r := Blocking(s, t), Pipeline(Cons(Stage(t, true, body), Nil), Granted());
      && Refused(s, ctx, m, t)
      && RunRequest(s, w, ctx, m, r).world.runs[Under(ctx, t)] > w.runs[Under(ctx, t)]
  {
    var m, r := Blocking(s, t), Pipeline(Cons(Stage(t, true, body), Nil), Granted());
    assert !HasUnsafeStage(s, r.stages) by { assert !HasUnsafeStage(s, r.stages.tail); }
    BlockedTargetRunsExactly(s, w, ctx, m, r);
  }

  /** So does a resume that is requested by its id alone. */
  lemma {:induction false} ResumeEscapesRepeatGuard(s: Setup, w: World, ctx: Context, t: Tier, body: Child)
    requires t != NoTier && ctx.depth < MAX_DELEGATION_DEPTH && ctx.tier != NoTier && NoTier !in ctx.ancestors
    requires NoTier !in s.unsafe
    ensures
      var m, r := Blocking(s, t), Resume(NoTier, t, true, true, body, Granted());
      && Refused(s, ctx, m, t)
      && RunRequest(s, w, ctx, m, r).world.runs[Under(ctx, t)] > w.runs[Under(ctx, t)]
  {
    var m, r := Blocking(s, t), Resume(NoTier, t, true, true, body, Granted());
    BlockedTargetRunsExactly(s, w, ctx, m, r);
  }

  // ── What the isolation guard stops ─────────────────────────────────

  lemma {:induction false} UnsafeStageIsFound(s: Setup, stages: List<Stage>, t: Tier)
    requires t in s.unsafe && Reaches(stages, t)
    ensures HasUnsafeStage(s, stages)
  {
    if stages.head.tier != t { UnsafeStageIsFound(s, stages.tail, t); }
  }

  /** A request runs a tier whose tools are not contained if and only if it is a
      resume whose requested name passes every guard and resolves to that
      tier. */
  lemma {:induction false} UnsafeTargetRunsExactly(s: Setup, w: World, ctx: Context, m: Memory, r: Request, t: Tier)
    requires t in s.unsafe
    ensures
      RunRequest(s, w, ctx, m, r).world.runs[Under(ctx, t)] > w.runs[Under(ctx, t)] <==>
        && r.Resume? && r.target == t
        && ctx.depth < 2 && r.requested != ctx.tier && r.requested !in ctx.ancestors
        && r.requested !in s.unsafe && (r.requested == m.target ==> m.failures < s.maxFailures)
        && r.found && !r.o.hookCancels && r.o.valid && !r.o.startRejected && (s.sandboxed ==> r.o.creates)
  {
    RequestRuns(s, w, ctx, m, r);
    if r.Pipeline? {
      ReachesExactly(r.stages, t);
      if Reaches(r.stages, t) { UnsafeStageIsFound(s, r.stages, t); }
    }
  }

  // ── Over a whole loop ──────────────────────────────────────────────

  /** How often a loop's own requests run a child on `t`. */
  function TotalRuns(s: Setup, ctx: Context, m: Memory, steps: List<Step>, t: Tier): nat
    decreases steps
  {
    match steps
    case Nil => 0
    case Cons(Write(text), rest) => TotalRuns(s, ctx, m, rest, t)
    case Cons(Dispatch(r), rest) => DirectRuns(s, ctx, m, r, t) + TotalRuns(s, ctx, Recall(s, ctx, m, r), rest, t)
  }

  lemma {:induction false} LoopRunsExactly(s: Setup, w: World, ctx: Context, m: Memory, steps: List<Step>, t: Tier)
    ensures RunSteps(s, w, ctx, m, steps).runs[Under(ctx, t)] == w.runs[Under(ctx, t)] + TotalRuns(s, ctx, m, steps, t)
    decreases steps
  {
    match steps
    case Nil =>
    case Cons(Write(text), rest) => LoopRunsExactly(s, WriteFile(w, text), ctx, m, rest, t);
    case Cons(Dispatch(r), rest) =>
      RequestRuns(s, w, ctx, m, r);
      LoopRunsExactly(s, RunRequest(s, w, ctx, m, r).world, ctx, Recall(s, ctx, m, r), rest, t);
  }

  /** A delegation that passed the guards: whether its child ran, and its
      result. */
  datatype Attempt = Attempt(target: Tier, ran: bool, success: bool)

  function AttemptOf(s: Setup, ctx: Context, m: Memory, r: Request): seq<Attempt> {
    match r
    case Cold(target, body, o) =>
      if Refused(s, ctx, m, target) || o.hookCancels then []
      else [Attempt(target, Starts(s, o), Starts(s, o) && body.success)]
    case Resume(requested, target, found, seeded, body, o) =>
      if Refused(s, ctx, m, requested) || !found || o.hookCancels then []
      else [Attempt(target, Starts(s, o), Starts(s, o) && body.success)]
    case Pipeline(stages, o) => []
  }

  /** The delegations of a loop that passed the guards, in order. */
  function Attempts(s: Setup, ctx: Context, m: Memory, steps: List<Step>): seq<Attempt>
    decreases steps
  {
    match steps
    case Nil => []
    case Cons(Write(text), rest) => Attempts(s, ctx, m, rest)
    case Cons(Dispatch(r), rest) => AttemptOf(s, ctx, m, r) + Attempts(s, ctx, Recall(s, ctx, m, r), rest)
  }

  function RanOn(log: seq<Attempt>, t: Tier): nat {
    if log == [] then 0 else (if log[0].ran && log[0].target == t then 1 else 0) + RanOn(log[1..], t)
  }

  lemma {:induction false} RanOnConcat(a: seq<Attempt>, b: seq<Attempt>, t: Tier)
    ensures RanOn(a + b, t) == RanOn(a, t) + RanOn(b, t)
  {
    if a == [] {
      assert a + b == b;
    } else {
      assert (a + b)[1..] == a[1..] + b;
      RanOnConcat(a[1..], b, t);
    }
  }

  predicate NoPipelines(steps: List<Step>) {
    match steps
    case Nil => true
    case Cons(step, rest) => (step.Dispatch? ==> !step.request.Pipeline?) && NoPipelines(rest)
  }

  /** Without pipelines the attempts account for every run of a child. */
  lemma {:induction false} AttemptsAreRuns(s: Setup, w: World, ctx: Context, m: Memory, steps: List<Step>, t: Tier)
    requires NoPipelines(steps)
    ensures RunSteps(s, w, ctx, m, steps).runs[Under(ctx, t)] ==
            w.runs[Under(ctx, t)] + RanOn(Attempts(s, ctx, m, steps), t)
  {
    LoopRunsExactly(s, w, ctx, m, steps, t);
    AttemptsMatchRuns(s, ctx, m, steps, t);
  }

  lemma {:induction false} AttemptsMatchRuns(s: Setup, ctx: Context, m: Memory, steps: List<Step>, t: Tier)
    requires NoPipelines(steps)
    ensures RanOn(Attempts(s, ctx, m, steps), t) == TotalRuns(s, ctx, m, steps, t)
    decreases steps
  {
    match steps
    case Nil =>
    case Cons(Write(text), rest) => AttemptsMatchRuns(s, ctx, m, rest, t);
    case Cons(Dispatch(r), rest) =>
      var m' := Recall(s, ctx, m, r);
      AttemptsMatchRuns(s, ctx, m', rest, t);
      RanOnConcat(AttemptOf(s, ctx, m, r), Attempts(s, ctx, m', rest), t);
      assert RanOn(AttemptOf(s, ctx, m, r), t) == DirectRuns(s, ctx, m, r, t);
  }

  /** How many of the last attempts were failures on `t`, in a row. */
  function Streak(log: seq<Attempt>, t: Tier): nat {
    if log == [] then 0
    else
      var last := log[|log| - 1];
      if last.success || last.target != t then 0 else 1 + Streak(log[..|log| - 1], t)
  }

  function Allowance(s: Setup): nat {
    if s.maxFailures < 1 then 1 else s.maxFailures
  }

  ghost predicate StreaksWithin(log: seq<Attempt>, n: nat) {
    forall i, t :: 0 <= i <= |log| ==> Streak(log[..i], t) <= n
  }

  /** The memory is the streak that ends the log. */
  ghost predicate Recalls(m: Memory, log: seq<Attempt>) {
    forall t :: Streak(log, t) == if t == m.target then m.failures else 0
  }

  /** Every resume names the tier that it resolves to. */
  predicate NamesTargets(steps: List<Step>) {
    match steps
    case Nil => true
    case Cons(step, rest) =>
      && (step.Dispatch? && step.request.Resume? ==> step.request.requested == step.request.target)
      && NamesTargets(rest)
  }

  lemma {:induction false} StreakSnoc(log: seq<Attempt>, a: Attempt, t: Tier)
    ensures Streak(log + [a], t) == if a.success || a.target != t then 0 else 1 + Streak(log, t)
  {
    assert (log + [a])[..|log|] == log;
  }

  lemma {:induction false} WithinSnoc(log: seq<Attempt>, a: Attempt, n: nat)
    requires StreaksWithin(log, n) && forall t :: Streak(log + [a], t) <= n
    ensures StreaksWithin(log + [a], n)
  {
    var all := log + [a];
    forall i, t | 0 <= i <= |all| ensures Streak(all[..i], t) <= n {
      if i <= |log| { assert all[..i] == log[..i]; } else { assert all[..i] == all; }
    }
  }

  lemma {:induction false} AttemptExtendsStreak(s: Setup, ctx: Context, m: Memory, r: Request, log: seq<Attempt>)
    requires Recalls(m, log) && StreaksWithin(log, Allowance(s)) && (r.Resume? ==> r.requested == r.target)
    ensures
      var log' := log + AttemptOf(s, ctx, m, r);
      Recalls(Recall(s, ctx, m, r), log') && StreaksWithin(log', Allowance(s))
  {
    var one := AttemptOf(s, ctx, m, r);
    if one == [] {
      assert log + one == log;
    } else {
      var a := one[0];
      assert one == [a];
      forall t ensures Streak(log + [a], t) == if a.success || a.target != t then 0 else 1 + Streak(log, t) {
        StreakSnoc(log, a, t);
      }
      assert Streak(log, a.target) == if a.target == m.target then m.failures else 0;
      WithinSnoc(log, a, Allowance(s));
    }
  }

  /** In a loop whose resumes name their targets, no target is delegated to again
      once its last delegations failed the configured number of times in a row. */
  lemma {:induction false} FailuresAreBounded(s: Setup, ctx: Context, m: Memory, steps: List<Step>, log: seq<Attempt>)
    requires Recalls(m, log) && StreaksWithin(log, Allowance(s)) && NamesTargets(steps)
    ensures StreaksWithin(log + Attempts(s, ctx, m, steps), Allowance(s))
    decreases steps
  {
    match steps
    case Nil => assert log + [] == log;
    case Cons(Write(text), rest) => FailuresAreBounded(s, ctx, m, rest, log);
    case Cons(Dispatch(r), rest) =>
      var m', one := Recall(s, ctx, m, r), AttemptOf(s, ctx, m, r);
      AttemptExtendsStreak(s, ctx, m, r, log);
      FailuresAreBounded(s, ctx, m', rest, log + one);
      assert log + one + Attempts(s, ctx, m', rest) == log + (one + Attempts(s, ctx, m', rest));
  }

  /** The same from the start of a loop. */
  lemma {:induction false} LoopFailuresAreBounded(s: Setup, ctx: Context, steps: List<Step>)
    requires NamesTargets(steps)
    ensures StreaksWithin(Attempts(s, ctx, Memory(NoTier, 0), steps), Allowance(s))
  {
    FailuresAreBounded(s, ctx, Memory(NoTier, 0), steps, []);
    assert [] + Attempts(s, ctx, Memory(NoTier, 0), steps) == Attempts(s, ctx, Memory(NoTier, 0), steps);
  }

  /** Cold delegations to `t` only, none of which is stopped by anything but the
      repeat guard, and all of which fail. */
  predicate AllFailOn(s: Setup, steps: List<Step>, t: Tier) {
    match steps
    case Nil => true
    case Cons(step, rest) =>
      && step.Dispatch? && step.request.Cold? && step.request.target == t && !step.request.body.success
      && !step.request.o.hookCancels && Starts(s, step.request.o)
      && AllFailOn(s, rest, t)
  }

  function Length(steps: List<Step>): nat {
    match steps
    case Nil => 0
    case Cons(step, rest) => 1 + Length(rest)
  }

  function Min(a: int, b: int): int {
    if a <= b then a else b
  }

  /** Of failing delegations to one target in a row, exactly the configured
      number run, those that failed before included; the rest are refused. */
  lemma {:induction false} FailuresAreCounted(s: Setup, w: World, ctx: Context, t: Tier, n: nat, steps: List<Step>)
    requires t != NoTier && s.maxFailures >= 1 && n <= s.maxFailures
    requires ctx.depth < MAX_DELEGATION_DEPTH && !IsCycle(ctx, t) && t !in s.unsafe && AllFailOn(s, steps, t)
    ensures
      var m, x := if n == 0 then Memory(NoTier, 0) else Memory(t, n), Under(ctx, t);
      RunSteps(s, w, ctx, m, steps).runs[x] == w.runs[x] + Min(Length(steps), s.maxFailures - n)
  {
    LoopRunsExactly(s, w, ctx, if n == 0 then Memory(NoTier, 0) else Memory(t, n), steps, t);
    FailingRuns(s, ctx, t, n, steps);
  }

  lemma {:induction false} FailingRuns(s: Setup, ctx: Context, t: Tier, n: nat, steps: List<Step>)
    requires t != NoTier && s.maxFailures >= 1 && n <= s.maxFailures
    requires ctx.depth < MAX_DELEGATION_DEPTH && !IsCycle(ctx, t) && t !in s.unsafe && AllFailOn(s, steps, t)
    ensures
      var m := if n == 0 then Memory(NoTier, 0) else Memory(t, n);
      TotalRuns(s, ctx, m, steps, t) == Min(Length(steps), s.maxFailures - n)
    decreases steps
  {
    if steps.Cons? { FailingRuns(s, ctx, t, Min(n + 1, s.maxFailures), steps.tail); }
  }

  // ── Tiers that are already under way ───────────────────────────────

  /** The request runs a child on a tier that is under way. */
  ghost predicate Repeats(s: Setup, w: World, ctx: Context, m: Memory, r: Request) {
    exists t :: t in ctx.stack && RunRequest(s, w, ctx, m, r).world.runs[Under(ctx, t)] > w.runs[Under(ctx, t)]
  }

  ghost predicate ReachesAny(stages: List<Stage>, tiers: seq<Tier>) {
    exists t :: t in tiers && Reaches(stages, t)
  }

  /** Which requests repeat a tier: a cold delegation that runs, if and only if
      its target is under way, and then the context's own chain misses it; a
      resume that runs, if and only if the tier it resolves to is; a pipeline,
      if and only if it reaches a stage on such a tier. */
  lemma {:induction false} RepeatsExactly(s: Setup, w: World, ctx: Context, m: Memory, r: Request)
    ensures r.Cold? ==>
      (Repeats(s, w, ctx, m, r) <==>
         r.target in ctx.stack && !Refused(s, ctx, m, r.target) && !r.o.hookCancels && Starts(s, r.o))
    ensures r.Cold? && Repeats(s, w, ctx, m, r) ==> r.target in ctx.stack && r.target !in Chain(ctx)
    ensures r.Resume? ==>
      (Repeats(s, w, ctx, m, r) <==>
         && r.target in ctx.stack
         && !Refused(s, ctx, m, r.requested) && r.found && !r.o.hookCancels && Starts(s, r.o))
    ensures r.Pipeline? ==>
      (Repeats(s, w, ctx, m, r) <==>
         && ctx.depth < 2 && !HasUnsafeStage(s, r.stages) && !r.o.startRejected && (s.sandboxed ==> r.o.creates)
         && ReachesAny(r.stages, ctx.stack))
  {
    RequestRuns(s, w, ctx, m, r);
    var w' := RunRequest(s, w, ctx, m, r).world;
    forall t ensures w'.runs[Under(ctx, t)] > w.runs[Under(ctx, t)] <==> DirectRuns(s, ctx, m, r, t) > 0 {
      assert w'.runs[Under(ctx, t)] == w.runs[Under(ctx, t)] + DirectRuns(s, ctx, m, r, t);
    }
    if r.Pipeline? {
      forall t ensures Reaches(r.stages, t) <==> StageRuns(r.stages, t) > 0 { ReachesExactly(r.stages, t); }
    }
  }
}
