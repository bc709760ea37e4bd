/** Delegations carried out on the session's tool root and its sandboxes. */
module DelegationEngine {
  import opened Delegation

  class DelegationManager {
    const setup: Setup
    var root: Dir
    var nextId: nat
    var live: set<nat>
    var files: map<Dir, seq<string>>
    var accepted: multiset<nat>
    var pending: multiset<nat>
    ghost var created: multiset<nat>
    ghost var discarded: multiset<nat>
    ghost var produced: multiset<nat>
    ghost var lost: multiset<nat>
    ghost var visited: set<Context>
    ghost var runs: multiset<seq<Tier>>

    constructor (setup: Setup)
      ensures this.setup == setup
      ensures View() == World(Project, 0, {}, multiset{}, multiset{}, multiset{}, multiset{}, multiset{}, multiset{},
                              map[], {}, multiset{})
    {
      this.setup := setup;
      root, nextId, live, files := Project, 0, {}, map[];
      accepted, pending := multiset{}, multiset{};
      created, discarded, produced, lost := multiset{}, multiset{}, multiset{}, multiset{};
      visited, runs := {}, multiset{};
    }

    ghost function View(): World
      reads this
    {
      World(root, nextId, live, created, discarded, produced, accepted, pending, lost, files, visited, runs)
    }

    method MintId() returns (id: nat)
      modifies this`nextId
      ensures id == old(nextId) && View() == old(View()).(nextId := id + 1)
    {
      id := nextId;
      nextId := nextId + 1;
    }

    method CreateSandbox(id: nat)
      modifies this`live, this`created
      ensures View() == Create(old(View()), id)
    {
      live := live + {id};
      created := created + multiset{id};
    }

    method DeliverSandboxResult(id: nat, o: Outcomes)
      modifies this`produced, this`accepted, this`pending, this`lost
      ensures View() == Deliver(setup, old(View()), id, o)
    {
      produced := produced + multiset{id};
      if o.accepts {
        accepted := accepted + multiset{id};
      } else if setup.writable || o.saves {
        pending := pending + multiset{id};
      } else {
        lost := lost + multiset{id};
      }
    }

    method FinalizeSandbox(id: nat, success: bool, o: Outcomes)
      modifies this
      ensures View() == Finalize(setup, old(View()), id, success, o)
    {
      if success && o.diffs { DeliverSandboxResult(id, o); }
      live := live - {id};
      discarded := discarded + multiset{id};
    }

    /** A child's loop: it writes under the tool root and dispatches. */
    method RunLoop(ctx: Context, steps: List<Step>)
      modifies this
      ensures View() == RunSteps(setup, old(View()), ctx, Memory(NoTier, 0), steps)
      decreases steps
    {
      var left, m := steps, Memory(NoTier, 0);
      while left.Cons?
        invariant left == steps || left < steps
        invariant RunSteps(setup, View(), ctx, m, left) == RunSteps(setup, old(View()), ctx, Memory(NoTier, 0), steps)
        decreases left
      {
        if left.head.Write? {
          files := files[root := (if root in files then files[root] else []) + [left.head.text]];
        } else {
          DispatchRequest(ctx, m, left.head.request);
          m := Recall(setup, ctx, m, left.head.request);
        }
        left := left.tail;
      }
    }

    method DispatchRequest(ctx: Context, m: Memory, r: Request)
      modifies this
      ensures View() == RunRequest(setup, old(View()), ctx, m, r).world
      decreases r
    {
      match r
      case Cold(target, body, o) =>
        if !Refused(setup, ctx, m, target) && !o.hookCancels {
          var success := ExecuteDelegation(ctx, ColdChild(ctx, target), body, o);
        }
      case Resume(requested, target, found, seeded, body, o) =>
        if !Refused(setup, ctx, m, requested) && found && !o.hookCancels {
          var child := if seeded then ResumedChild(ctx, target) else ColdChild(ctx, target);
          var success := ExecuteDelegation(ctx, child, body, o);
        }
      case Pipeline(stages, o) =>
        var unsafe := FindUnsafeStage(stages);
        if ctx.depth < MAX_DELEGATION_DEPTH && !unsafe {
          var success := ExecutePipeline(ctx, stages, o);
        }
    }

    /** Every stage is checked before any of them starts. */
    method FindUnsafeStage(stages: List<Stage>) returns (found: bool)
      ensures found == HasUnsafeStage(setup, stages)
    {
      var left := stages;
      while left.Cons?
        invariant HasUnsafeStage(setup, left) == HasUnsafeStage(setup, stages)
        decreases left
      {
        if left.head.tier in setup.unsafe { return true; }
        left := left.tail;
      }
      found := false;
    }

    method ExecuteDelegation(ctx: Context, child: Context, body: Child, o: Outcomes) returns (success: bool)
      modifies this
      ensures Outcome(View(), success) == Execute(setup, old(View()), ctx, child, body, o)
      decreases body, 2
    {
      if !setup.sandboxed {
        if !Starts(setup, o) { return false; }
        RunChildLoop(child, body);
        return body.success;
      }
      var id := MintId();
      if !Starts(setup, o) { return false; }
      CreateSandbox(id);
      RunInSandbox(ctx, child, id, body);
      FinalizeSandbox(id, body.success, o);
      success := body.success;
    }

    method RunChildLoop(child: Context, body: Child)
      modifies this
      ensures View() == RunChild(setup, old(View()), child, body)
      decreases body, 0
    {
      visited, runs := visited + {child}, runs + multiset{child.stack};
      RunLoop(child, body.steps);
    }

    method RunInSandbox(ctx: Context, child: Context, id: nat, body: Child)
      modifies this
      ensures View() == RunInside(setup, old(View()), ctx, child, id, body)
      decreases body, 1
    {
      if !setup.swaps {
        RunChildLoop(child, body);
        return;
      }
      root := Sandbox(id);
      RunChildLoop(child.(activeRoot := Active(Sandbox(id))), body);
      root := RestoreRoot(ctx);
    }

    method ExecutePipeline(ctx: Context, stages: List<Stage>, o: Outcomes) returns (success: bool)
      modifies this
      ensures Outcome(View(), success) == RunPipeline(setup, old(View()), ctx, stages, o)
      decreases stages, 2
    {
      if o.startRejected { return false; }
      if !setup.sandboxed {
        success := RunAllStages(ctx, 0, stages);
        return;
      }
      var id := MintId();
      if !o.creates { return false; }
      success := RunSharedSandbox(ctx, id, stages, o);
    }

    /** The stages of a pipeline in a sandbox of their own. */
    method RunSharedSandbox(ctx: Context, id: nat, stages: List<Stage>, o: Outcomes) returns (success: bool)
      modifies this
      ensures
        var r := RunStages(setup, Create(old(View()), id), ctx, id, stages, false);
        success == r.success && View() == Finalize(setup, r.world, id, r.success, o)
      decreases stages, 1
    {
      CreateSandbox(id);
      success := RunAllStages(ctx, id, stages);
      FinalizeSandbox(id, success, o);
    }

    method RunAllStages(ctx: Context, id: nat, stages: List<Stage>) returns (last: bool)
      modifies this
      ensures Outcome(View(), last) == RunStages(setup, old(View()), ctx, id, stages, false)
      decreases stages, 0
    {
      last := false;
      var left := stages;
      while left.Cons?
        invariant left == stages || left < stages
        invariant RunStages(setup, View(), ctx, id, left, last) == RunStages(setup, old(View()), ctx, id, stages, false)
        decreases left
      {
        var stage := left.head;
        if !stage.valid { return false; }
        var child := ColdChild(ctx, stage.tier);
        if setup.sandboxed {
          RunInSandbox(ctx, child, id, stage.body);
        } else {
          RunChildLoop(child, stage.body);
        }
        if !stage.body.success { return false; }
        last, left := true, left.tail;
      }
    }
  }
}
