/** The registry of running turns and the interrupt tokens, as steps that any
    number of threads take in any order. A step is one critical section or one
    atomic access; thread-local variables are changed in the same step. */
module TurnRegistry {
  import opened Messages

  datatype Key = Key(name: string)
  type Tid = nat
  type RunId = nat

  /** One claimed turn. Its identity is its position in `State.runs`. */
  datatype RunState = RunState(key: Key, interrupt: bool)

  /** The flag that a cancel scope publishes to its thread. */
  datatype Token = Handle | OfRun(run: RunId)

  /** Where a thread stands between the accesses of one operation. */
  datatype Pc =
    | Ready
    | ResetFlagCleared
    | ResetFound(run: RunId)
    | InterruptFannedOut
    | SessionFound(run: RunId)

  datatype Thread = Thread(claim: Option<Key>, scopes: seq<Token>, pc: Pc)

  /** `shared` records whether concurrency was on at any time since the
      registry was last idle; no operation reads it. */
  datatype State = State(
    active: map<Key, RunId>, runs: seq<RunState>, handleFlag: bool, running: bool,
    concurrent: bool, shared: bool, threads: map<Tid, Thread>)
  {
    function At(t: Tid): Thread {
      if t in threads then threads[t] else Thread(None, [], Ready)
    }
  }

  function Initial(): State {
    State(map[], [], false, false, false, false, map[])
  }

  datatype Action =
    | TryBegin(key: Key)
    | End(key: Key)
    | SetConcurrent(enabled: bool)
    | EnterScope
    | LeaveScope
    | ResetClearFlag
    | ResetLookUp
    | ResetClearToken
    | InterruptFanOut
    | InterruptSetFlag
    | SessionLookUp(key: Key)
    | SessionSetToken

  datatype Step = Step(tid: Tid, action: Action)

  // ── What each step does ────────────────────────────────────────────

  predicate Blocked(s: State, key: Key) {
    key in s.active || (!s.concurrent && s.active != map[])
  }

  /** The run that `t` owns: what this_thread_run returns. */
  function RunOf(s: State, t: Tid): Option<RunId> {
    var claim := s.At(t).claim;
    if claim.Some? && claim.value in s.active then Some(s.active[claim.value]) else None
  }

  function Marked(runs: seq<RunState>, r: RunId, value: bool): seq<RunState> {
    if r < |runs| then runs[r := runs[r].(interrupt := value)] else runs
  }

  function FanOut(s: State): seq<RunState> {
    seq(|s.runs|, r requires 0 <= r < |s.runs| =>
      if r in s.active.Values then s.runs[r].(interrupt := true) else s.runs[r])
  }

  /** The order of accesses within an operation. */
  predicate Enabled(s: State, st: Step) {
    var th := s.At(st.tid);
    match st.action
    case ResetLookUp => th.pc == ResetFlagCleared
    case ResetClearToken => th.pc.ResetFound?
    case InterruptSetFlag => th.pc == InterruptFannedOut
    case SessionSetToken => th.pc.SessionFound?
    case LeaveScope => th.pc == Ready && th.scopes != []
    case _ => th.pc == Ready
  }

  function NextActive(s: State, a: Action): map<Key, RunId> {
    match a
    case TryBegin(key) => if Blocked(s, key) then s.active else s.active[key := |s.runs|]
    case End(key) => s.active - {key}
    case _ => s.active
  }

  function NextRuns(s: State, st: Step): seq<RunState>
    requires Enabled(s, st)
  {
    match st.action
    case TryBegin(key) => if Blocked(s, key) then s.runs else s.runs + [RunState(key, false)]
    case InterruptFanOut => FanOut(s)
    case ResetClearToken => Marked(s.runs, s.At(st.tid).pc.run, false)
    case SessionSetToken => Marked(s.runs, s.At(st.tid).pc.run, true)
    case _ => s.runs
  }

  function NextFlag(flag: bool, a: Action): bool {
    if a.ResetClearFlag? then false else if a.InterruptSetFlag? then true else flag
  }

  function NextRunning(s: State, a: Action): bool {
    if a.TryBegin? && !Blocked(s, a.key) then true
    else if a.End? then NextActive(s, a) != map[]
    else s.running
  }

  function NextConcurrent(concurrent: bool, a: Action): bool {
    if a.SetConcurrent? then a.enabled else concurrent
  }

  /** The step as its own thread sees it. */
  function NextThread(s: State, st: Step): Thread
    requires Enabled(s, st)
  {
    var th, r := s.At(st.tid), RunOf(s, st.tid);
    match st.action
    case TryBegin(key) => if Blocked(s, key) then th else th.(claim := Some(key))
    case End(key) => if th.claim == Some(key) then th.(claim := None) else th
    case SetConcurrent(enabled) => th
    case EnterScope => th.(scopes := th.scopes + [if r.Some? then OfRun(r.value) else Handle])
    case LeaveScope => th.(scopes := th.scopes[..|th.scopes| - 1])
    case ResetClearFlag => th.(pc := ResetFlagCleared)
    case ResetLookUp => th.(pc := if r.Some? then ResetFound(r.value) else Ready)
    case ResetClearToken => th.(pc := Ready)
    case InterruptFanOut => th.(pc := InterruptFannedOut)
    case InterruptSetFlag => th.(pc := Ready)
    case SessionLookUp(key) => if key in s.active then th.(pc := SessionFound(s.active[key])) else th
    case SessionSetToken => th.(pc := Ready)
  }

  function Next(s: State, st: Step): State
    requires Enabled(s, st)
  {
    var active, concurrent := NextActive(s, st.action), NextConcurrent(s.concurrent, st.action);
    State(active, NextRuns(s, st), NextFlag(s.handleFlag, st.action), NextRunning(s, st.action),
          concurrent, concurrent || (s.shared && active != map[]),
          s.threads[st.tid := NextThread(s, st)])
  }

  /** What callers promise: a thread that holds a turn claims no other, and a
      thread releases only the turn it holds, outside its cancel scopes. */
  predicate Disciplined(s: State, st: Step) {
    var th := s.At(st.tid);
    match st.action
    case TryBegin(key) => th.claim == None || th.claim == Some(key)
    case End(key) => th.claim == Some(key) && th.scopes == []
    case _ => true
  }

  predicate Allowed(s: State, st: Step) {
    Enabled(s, st) && Disciplined(s, st)
  }

  predicate AllAllowed(s: State, steps: seq<Step>)
    decreases steps
  {
    steps == [] || (Allowed(s, steps[0]) && AllAllowed(Next(s, steps[0]), steps[1..]))
  }

  function After(s: State, steps: seq<Step>): State
    requires AllAllowed(s, steps)
    decreases steps
  {
    if steps == [] then s else After(Next(s, steps[0]), steps[1..])
  }

  // ── The invariant ──────────────────────────────────────────────────

  predicate Owns(s: State, t: Tid, r: RunId) {
    RunOf(s, t) == Some(r)
  }

  ghost predicate Registered(s: State) {
    forall k :: k in s.active ==> s.active[k] < |s.runs| && s.runs[s.active[k]].key == k
  }

  /** What `t` claims is active, and the tokens it points to are its run's. */
  ghost predicate ThreadOk(s: State, t: Tid) {
    var th := s.At(t);
    && (th.claim.Some? ==> th.claim.value in s.active)
    && (th.pc.ResetFound? ==> Owns(s, t, th.pc.run))
    && (th.pc.SessionFound? ==> th.pc.run < |s.runs|)
    && (forall x :: x in th.scopes && x.OfRun? ==> Owns(s, t, x.run))
  }

  ghost predicate Exclusive(s: State) {
    forall t, u :: s.At(t).claim.Some? && s.At(t).claim == s.At(u).claim ==> t == u
  }

  ghost predicate HasHolder(s: State, k: Key) {
    exists t :: s.At(t).claim == Some(k)
  }

  ghost predicate Held(s: State) {
    forall k :: k in s.active ==> HasHolder(s, k)
  }

  ghost predicate Counted(s: State) {
    && (s.running <==> s.active != map[])
    && (s.concurrent ==> s.shared)
    && (!s.shared ==> |s.active| <= 1)
  }

  ghost predicate Inv(s: State) {
    Registered(s) && (forall t :: ThreadOk(s, t)) && Exclusive(s) && Held(s) && Counted(s)
  }

  lemma {:induction false} InitialInv()
    ensures Inv(Initial())
  {
  }

  lemma {:induction false} StillHeld(s: State, s': State, t: Tid, k: Key)
    requires HasHolder(s, k) && forall u :: u != t ==> s'.At(u).claim == s.At(u).claim
    requires s.At(t).claim == Some(k) ==> s'.At(t).claim == Some(k)
    ensures HasHolder(s', k)
  {
    var u :| s.At(u).claim == Some(k);
    assert s'.At(u).claim == Some(k);
  }

  lemma {:induction false} BeginKeepsInv(s: State, t: Tid, key: Key)
    requires Inv(s) && Allowed(s, Step(t, TryBegin(key))) && !Blocked(s, key)
    ensures Inv(Next(s, Step(t, TryBegin(key))))
  {
    assert ThreadOk(s, t);
    var s' := Next(s, Step(t, TryBegin(key)));
    assert s'.At(t) == s.At(t).(claim := Some(key));
    assert forall u :: u != t ==> s'.At(u) == s.At(u);
    forall u ensures ThreadOk(s', u) {
      assert ThreadOk(s, u);
    }
    forall u, v | s'.At(u).claim.Some? && s'.At(u).claim == s'.At(v).claim ensures u == v {
      assert ThreadOk(s, u) && ThreadOk(s, v);
    }
    forall k | k in s'.active ensures HasHolder(s', k) {
      if k == key { assert s'.At(t).claim == Some(k); } else { StillHeld(s, s', t, k); }
    }
    assert !s.shared ==> s.active == map[];
  }

  lemma {:induction false} FinishKeepsInv(s: State, t: Tid, key: Key)
    requires Inv(s) && Allowed(s, Step(t, End(key)))
    ensures Inv(Next(s, Step(t, End(key))))
  {
    var s' := Next(s, Step(t, End(key)));
    assert s'.At(t) == s.At(t).(claim := None);
    assert forall u :: u != t ==> s'.At(u) == s.At(u);
    forall u ensures ThreadOk(s', u) {
      assert ThreadOk(s, u);
      if u != t { OtherThreadOk(s, s', u, key); }
    }
    forall k | k in s'.active ensures HasHolder(s', k) { StillHeld(s, s', t, k); }
    SmallerMap(s.active, key);
  }

  lemma {:induction false} OtherThreadOk(s: State, s': State, u: Tid, key: Key)
    requires ThreadOk(s, u) && s.At(u).claim != Some(key)
    requires s'.active == s.active - {key} && s'.runs == s.runs && s'.At(u) == s.At(u)
    ensures ThreadOk(s', u)
  {
    assert RunOf(s', u) == RunOf(s, u);
  }

  lemma {:induction false} SmallerMap(m: map<Key, RunId>, key: Key)
    ensures |m| <= 1 ==> |m - {key}| <= 1
  {
    assert (m - {key}).Keys <= m.Keys;
    SmallerSet((m - {key}).Keys, m.Keys);
  }

  lemma {:induction false} SmallerSet(a: set<Key>, b: set<Key>)
    requires a <= b
    ensures |a| <= |b|
  {
    assert b == a + (b - a);
  }

  /** A step of `t` that leaves the claims and the active table alone. */
  ghost predicate SameClaims(s: State, s': State, t: Tid) {
    && s'.active == s.active && s'.running == s.running && Counted(s')
    && |s'.runs| == |s.runs| && (forall r :: 0 <= r < |s.runs| ==> s'.runs[r].key == s.runs[r].key)
    && s'.At(t).claim == s.At(t).claim
    && (forall u :: u != t ==> s'.At(u) == s.At(u))
  }

  lemma {:induction false} SameClaimsKeepInv(s: State, s': State, t: Tid)
    requires Inv(s) && SameClaims(s, s', t)
    requires s'.At(t).pc.ResetFound? ==> Owns(s, t, s'.At(t).pc.run)
    requires s'.At(t).pc.SessionFound? ==> s'.At(t).pc.run < |s.runs|
    requires forall x :: x in s'.At(t).scopes && x.OfRun? ==> Owns(s, t, x.run)
    ensures Inv(s')
  {
    forall k | k in s'.active ensures HasHolder(s', k) { StillHeld(s, s', t, k); }
    forall u ensures ThreadOk(s', u) {
      assert ThreadOk(s, u);
      assert RunOf(s', u) == RunOf(s, u);
    }
  }

  lemma {:induction false} RunsAfter(s: State, st: Step)
    requires Enabled(s, st) && !st.action.TryBegin?
    ensures |NextRuns(s, st)| == |s.runs|
    ensures forall r :: 0 <= r < |s.runs| ==> NextRuns(s, st)[r].key == s.runs[r].key
  {
  }

  lemma {:induction false} ThreadAfter(s: State, st: Step)
    requires Registered(s) && ThreadOk(s, st.tid) && Enabled(s, st)
    requires !st.action.End? && (st.action.TryBegin? ==> Blocked(s, st.action.key))
    ensures
      var th := NextThread(s, st);
      && th.claim == s.At(st.tid).claim
      && (th.pc.ResetFound? ==> Owns(s, st.tid, th.pc.run))
      && (th.pc.SessionFound? ==> th.pc.run < |s.runs|)
      && (forall x :: x in th.scopes && x.OfRun? ==> Owns(s, st.tid, x.run))
  {
  }

  lemma {:induction false} StepKeepsInv(s: State, st: Step)
    requires Inv(s) && Allowed(s, st)
    ensures Inv(Next(s, st))
  {
    if st.action.TryBegin? && !Blocked(s, st.action.key) {
      BeginKeepsInv(s, st.tid, st.action.key);
    } else if st.action.End? {
      FinishKeepsInv(s, st.tid, st.action.key);
    } else {
      assert ThreadOk(s, st.tid);
      ThreadAfter(s, st);
      if !st.action.TryBegin? { RunsAfter(s, st); }
      SameClaimsKeepInv(s, Next(s, st), st.tid);
    }
  }

  /** Whatever disciplined threads do, in every state reached. */
  lemma {:induction false} RunKeepsInv(s: State, steps: seq<Step>)
    requires Inv(s) && AllAllowed(s, steps)
    ensures Inv(After(s, steps))
    decreases steps
  {
    if steps != [] {
      StepKeepsInv(s, steps[0]);
      RunKeepsInv(Next(s, steps[0]), steps[1..]);
    }
  }

  /** At most one owner per key, the running flag tells whether a run is
      active, and at most one run is while concurrency stays off. */
  lemma {:induction false} ReachableIsExclusive(steps: seq<Step>)
    requires AllAllowed(Initial(), steps)
    ensures
      var s := After(Initial(), steps);
      && (forall t, u, r :: Owns(s, t, r) && Owns(s, u, r) ==> t == u)
      && (forall k :: k in s.active <==> HasHolder(s, k))
      && (s.running <==> s.active != map[])
      && (!s.shared ==> |s.active| <= 1)
  {
    InitialInv();
    RunKeepsInv(Initial(), steps);
    var s := After(Initial(), steps);
    forall k | HasHolder(s, k) ensures k in s.active {
      var t :| s.At(t).claim == Some(k);
      assert ThreadOk(s, t);
    }
    forall t, u, r: nat | Owns(s, t, r) && Owns(s, u, r) ensures t == u {
      assert s.runs[r].key == s.At(t).claim.value;
      assert s.runs[r].key == s.At(u).claim.value;
    }
  }

  // ── Claims that are granted ────────────────────────────────────────

  /** `t` has a new run of its own on `k`, and nothing has interrupted it. */
  predicate Granted(s: State, s': State, t: Tid, k: Key) {
    s'.runs == s.runs + [RunState(k, false)] && s'.active == s.active[k := |s.runs|] && Owns(s', t, |s.runs|)
  }

  /** A thread that asks for a turn is granted one if and only if its session has
      none and sessions may run side by side or none is running; otherwise
      nothing changes. */
  lemma {:induction false} BeginGrantsExactly(s: State, t: Tid, k: Key)
    requires Enabled(s, Step(t, TryBegin(k)))
    ensures
      var s' := Next(s, Step(t, TryBegin(k)));
      && (Granted(s, s', t, k) <==> k !in s.active && (s.concurrent || s.active == map[]))
      && (!Granted(s, s', t, k) ==>
            s'.active == s.active && s'.runs == s.runs && s'.running == s.running && s'.At(t) == s.At(t))
  {
    assert (s.runs + [RunState(k, false)]) != s.runs by { assert |s.runs + [RunState(k, false)]| == |s.runs| + 1; }
  }

  lemma {:induction false} AfterSnoc(s: State, steps: seq<Step>, st: Step)
    requires AllAllowed(s, steps) && Allowed(After(s, steps), st)
    ensures AllAllowed(s, steps + [st]) && After(s, steps + [st]) == Next(After(s, steps), st)
    decreases steps
  {
    if steps == [] {
      assert (steps + [st])[1..] == [];
    } else {
      AfterSnoc(Next(s, steps[0]), steps[1..], st);
      assert (steps + [st])[1..] == steps[1..] + [st];
    }
  }

  /** Thread `i` has the claim on `k`, and run `i` stands for it, not interrupted. */
  predicate Runs(s: State, i: nat, k: Key) {
    s.At(i).claim == Some(k) && Owns(s, i, i) && i < |s.runs| && s.runs[i] == RunState(k, false)
  }

  predicate Unclaimed(s: State, t: Tid) {
    s.At(t) == Thread(None, [], Ready)
  }

  ghost predicate SideBySide(s: State, keys: seq<Key>) {
    && s.concurrent && |s.runs| == |keys| && (forall k :: k in s.active ==> k in keys)
    && (forall i :: 0 <= i < |keys| ==> Runs(s, i, keys[i]))
    && (forall t: Tid :: t >= |keys| ==> Unclaimed(s, t))
  }

  ghost predicate Reachable(s: State) {
    exists steps :: AllAllowed(Initial(), steps) && After(Initial(), steps) == s
  }

  lemma {:induction false} ReachableNext(s: State, st: Step)
    requires Reachable(s) && Allowed(s, st)
    ensures Reachable(Next(s, st))
  {
    var steps :| AllAllowed(Initial(), steps) && After(Initial(), steps) == s;
    AfterSnoc(Initial(), steps, st);
  }

  /** With concurrency on, any number of sessions run side by side, each with a
      thread and a run of its own. */
  lemma {:induction false} SessionsRunSideBySide(keys: seq<Key>) returns (s: State)
    requires forall i, j :: 0 <= i < j < |keys| ==> keys[i] != keys[j]
    ensures Reachable(s) && SideBySide(s, keys)
  {
    if keys == [] {
      var st := Step(0, SetConcurrent(true));
      assert AllAllowed(Initial(), []) && After(Initial(), []) == Initial();
      ReachableNext(Initial(), st);
      s := Next(Initial(), st);
    } else {
      var n := |keys| - 1;
      var before := SessionsRunSideBySide(keys[..n]);
      var st := Step(n, TryBegin(keys[n]));
      NextSession(before, keys, n);
      ReachableNext(before, st);
      s := Next(before, st);
    }
  }

  lemma {:induction false} NextSession(s: State, keys: seq<Key>, n: nat)
    requires n == |keys| - 1 && SideBySide(s, keys[..n]) && keys[n] !in keys[..n]
    ensures Allowed(s, Step(n, TryBegin(keys[n]))) && SideBySide(Next(s, Step(n, TryBegin(keys[n]))), keys)
  {
    assert Unclaimed(s, n);
    var k := keys[n];
    var s' := Next(s, Step(n, TryBegin(k)));
    assert keys == keys[..n] + [k];
    assert s'.active == s.active[k := n] && s'.runs == s.runs + [RunState(k, false)];
    forall i | 0 <= i < |keys| ensures Runs(s', i, keys[i]) {
      if i < n { assert Runs(s, i, keys[..n][i]); RunsStill(s, s', i, keys[i]); }
    }
    forall t: Tid | t >= |keys| ensures Unclaimed(s', t) { assert Unclaimed(s, t); }
  }

  lemma {:induction false} RunsStill(s: State, s': State, i: nat, k: Key)
    requires Runs(s, i, k) && s'.At(i) == s.At(i) && k in s'.active && s'.active[k] == s.active[k]
    requires s.runs <= s'.runs
    ensures Runs(s', i, k)
  {
  }
}
