/** The engine's side of the turn registry: its fields and the operations on
    them, each taking the steps of the registry with nothing in between. */
module TurnEngine {
  import opened Messages
  import opened TurnRegistry

  class AgentEngine {
    var activeRuns: map<Key, RunId>
    var runs: seq<RunState>
    var interruptFlag: bool
    var runningFlag: bool
    var concurrentSessions: bool
    var locals: map<Tid, Thread>
    ghost var shared: bool

    constructor ()
      ensures View() == Initial()
    {
      activeRuns, runs, interruptFlag, runningFlag := map[], [], false, false;
      concurrentSessions, locals, shared := false, map[], false;
    }

    ghost function View(): State
      reads this
    {
      State(activeRuns, runs, interruptFlag, runningFlag, concurrentSessions, shared, locals)
    }

    function Local(t: Tid): Thread
      reads this`locals
    {
      if t in locals then locals[t] else Thread(None, [], Ready)
    }

    method TryBeginTurn(t: Tid, key: Key) returns (granted: bool)
      requires Local(t).pc == Ready
      modifies this
      ensures Enabled(old(View()), Step(t, TryBegin(key)))
      ensures View() == Next(old(View()), Step(t, TryBegin(key)))
      ensures granted == !Blocked(old(View()), key)
    {
      var blocked := key in activeRuns || (!concurrentSessions && activeRuns != map[]);
      if blocked {
        locals := locals[t := Local(t)];
        shared := concurrentSessions || (shared && activeRuns != map[]);
        return false;
      }
      activeRuns := activeRuns[key := |runs|];
      runs := runs + [RunState(key, false)];
      runningFlag := true;
      locals := locals[t := Local(t).(claim := Some(key))];
      shared := concurrentSessions || (shared && activeRuns != map[]);
      granted := true;
    }

    method EndTurn(t: Tid, key: Key)
      requires Local(t).pc == Ready
      modifies this
      ensures Enabled(old(View()), Step(t, End(key)))
      ensures View() == Next(old(View()), Step(t, End(key)))
    {
      activeRuns := activeRuns - {key};
      runningFlag := activeRuns != map[];
      shared := concurrentSessions || (shared && activeRuns != map[]);
      var local := Local(t);
      locals := locals[t := if local.claim == Some(key) then local.(claim := None) else local];
    }

    method ThisThreadRun(t: Tid) returns (run: Option<RunId>)
      ensures run == RunOf(View(), t)
    {
      var claim := Local(t).claim;
      if claim.None? || claim.value !in activeRuns { return None; }
      return Some(activeRuns[claim.value]);
    }

    /** The critical section of interrupt(): every active run's token. */
    method FlagActiveRuns()
      requires Registered(View())
      modifies this`runs
      ensures runs == FanOut(old(View()))
    {
      var before := runs;
      var left := activeRuns.Keys;
      while left != {}
        invariant left <= activeRuns.Keys && |runs| == |before|
        invariant forall r :: 0 <= r < |before| ==>
          runs[r] ==
            if r in activeRuns.Values && before[r].key !in left then before[r].(interrupt := true) else before[r]
        decreases left
      {
        var key :| key in left;
        var r := activeRuns[key];
        assert before[r].key == key;
        runs := runs[r := runs[r].(interrupt := true)];
        left := left - {key};
      }
    }

    method Interrupt(t: Tid)
      requires Registered(View()) && Local(t).pc == Ready
      modifies this
      ensures Enabled(old(View()), Step(t, InterruptFanOut))
      ensures
        var s := Next(old(View()), Step(t, InterruptFanOut));
        Enabled(s, Step(t, InterruptSetFlag)) && View() == Next(s, Step(t, InterruptSetFlag))
    {
      FlagActiveRuns();
      shared := concurrentSessions || (shared && activeRuns != map[]);
      locals := locals[t := Local(t).(pc := InterruptFannedOut)];
      interruptFlag := true;
      locals := locals[t := Local(t).(pc := Ready)];
    }

    method InterruptSession(t: Tid, key: Key) returns (found: bool)
      requires Registered(View()) && Local(t).pc == Ready
      modifies this
      ensures Enabled(old(View()), Step(t, SessionLookUp(key)))
      ensures found == (key in old(activeRuns))
      ensures
        var s := Next(old(View()), Step(t, SessionLookUp(key)));
        if found then Enabled(s, Step(t, SessionSetToken)) && View() == Next(s, Step(t, SessionSetToken))
        else View() == s
    {
      shared := concurrentSessions || (shared && activeRuns != map[]);
      if key !in activeRuns {
        locals := locals[t := Local(t)];
        return false;
      }
      var run := activeRuns[key];
      locals := locals[t := Local(t).(pc := SessionFound(run))];
      runs := runs[run := runs[run].(interrupt := true)];
      locals := locals[t := Local(t).(pc := Ready)];
      found := true;
    }

    method ClearHandleFlag(t: Tid)
      requires Local(t).pc == Ready
      modifies this
      ensures Enabled(old(View()), Step(t, ResetClearFlag)) && View() == Next(old(View()), Step(t, ResetClearFlag))
    {
      interruptFlag := false;
      shared := concurrentSessions || (shared && activeRuns != map[]);
      locals := locals[t := Local(t).(pc := ResetFlagCleared)];
    }

    method FindOwnRun(t: Tid)
      requires Local(t).pc == ResetFlagCleared
      modifies this
      ensures Enabled(old(View()), Step(t, ResetLookUp)) && View() == Next(old(View()), Step(t, ResetLookUp))
    {
      var run := ThisThreadRun(t);
      shared := concurrentSessions || (shared && activeRuns != map[]);
      locals := locals[t := Local(t).(pc := if run.Some? then ResetFound(run.value) else Ready)];
    }

    method ClearToken(t: Tid)
      requires Local(t).pc.ResetFound?
      modifies this
      ensures Enabled(old(View()), Step(t, ResetClearToken)) && View() == Next(old(View()), Step(t, ResetClearToken))
    {
      var run := Local(t).pc.run;
      if run < |runs| { runs := runs[run := runs[run].(interrupt := false)]; }
      shared := concurrentSessions || (shared && activeRuns != map[]);
      locals := locals[t := Local(t).(pc := Ready)];
    }

    method ResetInterrupt(t: Tid)
      requires Local(t).pc == Ready
      modifies this
      ensures Enabled(old(View()), Step(t, ResetClearFlag))
      ensures
        var s1 := Next(old(View()), Step(t, ResetClearFlag));
        && Enabled(s1, Step(t, ResetLookUp))
        && var s2 := Next(s1, Step(t, ResetLookUp));
        if s2.At(t).pc == Ready then View() == s2
        else Enabled(s2, Step(t, ResetClearToken)) && View() == Next(s2, Step(t, ResetClearToken))
    {
      ClearHandleFlag(t);
      assert View().At(t) == Local(t);
      FindOwnRun(t);
      assert View().At(t) == Local(t);
      if Local(t).pc.ResetFound? { ClearToken(t); }
    }
  }
}
