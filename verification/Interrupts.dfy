/** Which interrupts a run goes on observing, whatever the other threads do. */
module Interrupts {
  import opened Messages
  import opened TurnRegistry

  predicate Flagged(s: State, r: RunId) {
    r < |s.runs| && s.runs[r].interrupt
  }

  /** What run_interrupted answers on thread `t`. */
  predicate Observes(s: State, t: Tid) {
    var scopes := s.At(t).scopes;
    s.handleFlag || (scopes != [] && scopes[|scopes| - 1].OfRun? && Flagged(s, scopes[|scopes| - 1].run))
  }

  /** `t` is inside a loop that it entered holding its turn. */
  predicate InRunScope(s: State, t: Tid) {
    var scopes := s.At(t).scopes;
    scopes != [] && scopes[|scopes| - 1].OfRun?
  }

  predicate Resetting(s: State, t: Tid) {
    s.At(t).pc == ResetFlagCleared || s.At(t).pc.ResetFound?
  }

  predicate Releases(st: Step, t: Tid) {
    st.tid == t && st.action.End?
  }

  predicate Resets(st: Step, t: Tid) {
    st.tid == t && st.action.ResetClearFlag?
  }

  /** Steps in which `t` neither resets nor releases. */
  predicate Leaves(steps: seq<Step>, t: Tid) {
    forall st :: st in steps ==> !Releases(st, t) && !Resets(st, t)
  }

  // ── A flagged run stays interrupted ────────────────────────────────

  lemma {:induction false} OtherThreads(s: State, st: Step, u: Tid)
    requires Enabled(s, st) && u != st.tid
    ensures Next(s, st).At(u) == s.At(u)
  {
  }

  lemma {:induction false} ActiveAfter(s: State, st: Step, key: Key)
    requires Enabled(s, st) && key in s.active && st.action != End(key)
    ensures key in Next(s, st).active && Next(s, st).active[key] == s.active[key]
  {
  }

  lemma {:induction false} ClaimAfter(s: State, st: Step, t: Tid, key: Key)
    requires Allowed(s, st) && s.At(t).claim == Some(key) && key in s.active && !Releases(st, t)
    ensures Next(s, st).At(t).claim == Some(key)
  {
  }

  lemma {:induction false} OwnershipStays(s: State, st: Step, t: Tid, r: RunId)
    requires Inv(s) && Allowed(s, st) && Owns(s, t, r) && !Releases(st, t)
    ensures Owns(Next(s, st), t, r)
  {
    var key := s.At(t).claim.value;
    assert st.action != End(key) by {
      assert s.At(st.tid).claim == Some(key) ==> st.tid == t;
    }
    ActiveAfter(s, st, key);
    ClaimAfter(s, st, t, key);
  }

  /** How one step changes one token. */
  lemma {:induction false} TokenAfter(s: State, st: Step, r: RunId)
    requires Enabled(s, st) && r < |s.runs|
    ensures
      var pc, a := s.At(st.tid).pc, st.action;
      && r < |Next(s, st).runs| && Next(s, st).runs[r].key == s.runs[r].key
      && Next(s, st).runs[r].interrupt ==
         if a.ResetClearToken? && pc.run == r then false
         else if a.SessionSetToken? && pc.run == r then true
         else s.runs[r].interrupt || (a.InterruptFanOut? && r in s.active.Values)
  {
  }

  lemma {:induction false} NotResettingAfter(s: State, st: Step, t: Tid)
    requires Enabled(s, st) && !Resetting(s, t) && !Resets(st, t)
    ensures !Resetting(Next(s, st), t)
  {
  }

  lemma {:induction false} FlagStays(s: State, st: Step, t: Tid, r: RunId)
    requires Inv(s) && Allowed(s, st) && Owns(s, t, r)
    requires Flagged(s, r) && !Resetting(s, t) && !Releases(st, t) && !Resets(st, t)
    ensures Flagged(Next(s, st), r) && !Resetting(Next(s, st), t)
  {
    TokenAfter(s, st, r);
    NotResettingAfter(s, st, t);
    if st.action.ResetClearToken? && s.At(st.tid).pc.run == r {
      OwnerIsUnique(s, t, st.tid, r);
    }
  }

  lemma {:induction false} OwnerIsUnique(s: State, t: Tid, u: Tid, r: RunId)
    requires Inv(s) && Owns(s, t, r) && s.At(u).pc == ResetFound(r)
    ensures t == u
  {
    assert ThreadOk(s, u);
    assert s.runs[r].key == s.At(t).claim.value;
    assert s.runs[r].key == s.At(u).claim.value;
  }

  /** Once its token is set, a run stays interrupted under every interleaving,
      until its own thread resets or releases. */
  lemma {:induction false} InterruptSticks(s: State, t: Tid, r: RunId, steps: seq<Step>)
    requires Inv(s) && AllAllowed(s, steps) && Leaves(steps, t)
    requires Owns(s, t, r) && Flagged(s, r) && !Resetting(s, t)
    ensures
      var s' := After(s, steps);
      Inv(s') && Owns(s', t, r) && Flagged(s', r) && (InRunScope(s', t) ==> Observes(s', t))
    decreases steps
  {
    if steps == [] {
      assert ThreadOk(s, t);
    } else {
      var s1 := Next(s, steps[0]);
      StepKeepsInv(s, steps[0]);
      OwnershipStays(s, steps[0], t, r);
      FlagStays(s, steps[0], t, r);
      InterruptSticks(s1, t, r, steps[1..]);
    }
  }

  /** interrupt(): every run that is active when it fans out. */
  lemma {:induction false} InterruptReachesEveryRun(s: State, u: Tid, t: Tid, r: RunId, steps: seq<Step>)
    requires Inv(s) && Owns(s, t, r) && !Resetting(s, t)
    requires Allowed(s, Step(u, InterruptFanOut))
    requires AllAllowed(Next(s, Step(u, InterruptFanOut)), steps) && Leaves(steps, t)
    ensures
      var s' := After(Next(s, Step(u, InterruptFanOut)), steps);
      Owns(s', t, r) && Flagged(s', r) && (InRunScope(s', t) ==> Observes(s', t))
  {
    var st := Step(u, InterruptFanOut);
    StepKeepsInv(s, st);
    OwnershipStays(s, st, t, r);
    assert s.active[s.At(t).claim.value] == r;
    TokenAfter(s, st, r);
    if u != t { OtherThreads(s, st, t); }
    InterruptSticks(Next(s, st), t, r, steps);
  }

  /** Between its two accesses, interrupt_session remembers the run it found,
      and a thread that does not release keeps its turn. */
  lemma {:induction false} Meanwhile(s: State, u: Tid, t: Tid, r: RunId, steps: seq<Step>)
    requires Inv(s) && AllAllowed(s, steps) && Owns(s, t, r)
    requires forall st :: st in steps ==> st.tid != u && !Releases(st, t)
    ensures Inv(After(s, steps)) && Owns(After(s, steps), t, r) && After(s, steps).At(u) == s.At(u)
    decreases steps
  {
    if steps != [] {
      StepKeepsInv(s, steps[0]);
      OwnershipStays(s, steps[0], t, r);
      OtherThreads(s, steps[0], u);
      Meanwhile(Next(s, steps[0]), u, t, r, steps[1..]);
    }
  }

  /** interrupt_session(k): the run that holds `k` when it looks, if that run
      is not released or being reset when the token is set. */
  lemma {:induction false} SessionInterruptReachesRun(s: State, u: Tid, t: Tid, r: RunId, between: seq<Step>,
      later: seq<Step>)
    requires Inv(s) && Owns(s, t, r) && t != u
    requires forall st :: st in between ==> st.tid != u && !Releases(st, t)
    requires
      var look := Step(u, SessionLookUp(s.At(t).claim.value));
      && Allowed(s, look) && AllAllowed(Next(s, look), between)
      && var s2 := After(Next(s, look), between);
      && Allowed(s2, Step(u, SessionSetToken)) && !Resetting(s2, t)
      && AllAllowed(Next(s2, Step(u, SessionSetToken)), later) && Leaves(later, t)
    ensures
      var s2 := After(Next(s, Step(u, SessionLookUp(s.At(t).claim.value))), between);
      var s' := After(Next(s2, Step(u, SessionSetToken)), later);
      Owns(s', t, r) && Flagged(s', r) && (InRunScope(s', t) ==> Observes(s', t))
  {
    var look, store := Step(u, SessionLookUp(s.At(t).claim.value)), Step(u, SessionSetToken);
    var s1 := Next(s, look);
    StepKeepsInv(s, look);
    OwnershipStays(s, look, t, r);
    assert s1.At(u).pc == SessionFound(r);
    Meanwhile(s1, u, t, r, between);
    var s2 := After(s1, between);
    StepKeepsInv(s2, store);
    OwnershipStays(s2, store, t, r);
    TokenAfter(s2, store, r);
    OtherThreads(s2, store, t);
    InterruptSticks(Next(s2, store), t, r, later);
  }

  // ── Interrupts of other sessions do not reach a run ────────────────

  /** `r` is not interrupted, and nothing under way is about to do so. */
  ghost predicate Undisturbed(s: State, r: RunId) {
    && r < |s.runs| && !s.runs[r].interrupt && !s.handleFlag
    && forall t :: s.At(t).pc != InterruptFannedOut && s.At(t).pc != SessionFound(r)
  }

  /** Anything but interrupt() and an interrupt_session of `key` itself. */
  predicate Spares(st: Step, key: Key) {
    !st.action.InterruptFanOut? && st.action != SessionLookUp(key)
  }

  lemma {:induction false} UndisturbedStep(s: State, st: Step, r: RunId)
    requires Inv(s) && Allowed(s, st) && Undisturbed(s, r) && Spares(st, s.runs[r].key)
    ensures Undisturbed(Next(s, st), r) && Next(s, st).runs[r].key == s.runs[r].key
  {
    TokenAfter(s, st, r);
    assert s.At(st.tid).pc != InterruptFannedOut && s.At(st.tid).pc != SessionFound(r);
    QuietAfter(s, st, r);
    forall t ensures Next(s, st).At(t).pc != InterruptFannedOut && Next(s, st).At(t).pc != SessionFound(r) {
      if t != st.tid { OtherThreads(s, st, t); }
    }
  }

  lemma {:induction false} QuietAfter(s: State, st: Step, r: RunId)
    requires Registered(s) && Enabled(s, st) && r < |s.runs| && Spares(st, s.runs[r].key) && !s.handleFlag
    requires s.At(st.tid).pc != InterruptFannedOut && s.At(st.tid).pc != SessionFound(r)
    ensures Next(s, st).At(st.tid).pc != InterruptFannedOut && Next(s, st).At(st.tid).pc != SessionFound(r)
    ensures !Next(s, st).handleFlag
  {
  }

  lemma {:induction false} OtherSessionsDoNotInterrupt(s: State, t: Tid, r: RunId, steps: seq<Step>)
    requires Inv(s) && AllAllowed(s, steps) && Undisturbed(s, r)
    requires forall st :: st in steps ==> Spares(st, s.runs[r].key)
    ensures
      var s' := After(s, steps);
      Undisturbed(s', r) && (Owns(s', t, r) ==> !Observes(s', t))
    decreases steps
  {
    if steps == [] {
      assert ThreadOk(s, t);
    } else {
      StepKeepsInv(s, steps[0]);
      UndisturbedStep(s, steps[0], r);
      OtherSessionsDoNotInterrupt(Next(s, steps[0]), t, r, steps[1..]);
    }
  }

  // ── The handle-wide flag alone is not enough ───────────────────────

  ghost predicate Durable(s: State, t: Tid) {
    forall steps :: AllAllowed(s, steps) && Leaves(steps, t) ==>
      InRunScope(After(s, steps), t) ==> Observes(After(s, steps), t)
  }

  ghost function Fresh(threads: map<Tid, Thread>): Tid {
    Bound(threads.Keys)
  }

  /** A thread number above all of `ts`. */
  ghost function Bound(ts: set<Tid>): (b: Tid)
    ensures forall t :: t in ts ==> t < b
  {
    if ts == {} then 0
    else
      var t :| t in ts;
      var b := Bound(ts - {t});
      assert forall u :: u in ts ==> u == t || u in ts - {t};
      if t < b then b else t + 1
  }

  lemma {:induction false} ResetByAnother(s: State, t: Tid, u: Tid)
    requires u != t && s.At(u) == Thread(None, [], Ready)
    ensures
      var steps := [Step(u, ResetClearFlag)];
      && AllAllowed(s, steps) && Leaves(steps, t)
      && !After(s, steps).handleFlag && After(s, steps).runs == s.runs && After(s, steps).At(t) == s.At(t)
  {
    var steps := [Step(u, ResetClearFlag)];
    var s1 := Next(s, steps[0]);
    assert steps[1..] == [];
    assert AllAllowed(s1, []);
    assert After(s, steps) == After(s1, steps[1..]);
    OtherThreads(s, steps[0], t);
  }

  /** A run is sure to go on observing an interrupt, if and only if its own
      token is set: a fresh turn elsewhere clears the handle-wide flag. */
  lemma {:induction false} DurableExactlyWhenFlagged(s: State, t: Tid, r: RunId)
    requires Inv(s) && Owns(s, t, r) && InRunScope(s, t) && !Resetting(s, t)
    ensures Durable(s, t) <==> Flagged(s, r)
  {
    if Flagged(s, r) {
      forall steps | AllAllowed(s, steps) && Leaves(steps, t)
        ensures InRunScope(After(s, steps), t) ==> Observes(After(s, steps), t)
      {
        InterruptSticks(s, t, r, steps);
      }
    } else {
      assert ThreadOk(s, t);
      var u := Fresh(s.threads) + t + 1;
      ResetByAnother(s, t, u);
      var steps := [Step(u, ResetClearFlag)];
      assert !Observes(After(s, steps), t) && InRunScope(After(s, steps), t);
    }
  }

  /** interrupt() fans out, a run is claimed, and only then is the flag set:
      that run observes the interrupt without its token being set. */
  lemma {:induction false} LateClaimIsNotFlagged() returns (s: State, t: Tid, r: RunId)
    ensures
      var fan, begin := Step(1, InterruptFanOut), Step(0, TryBegin(Key("a")));
      var enter, store := Step(0, EnterScope), Step(1, InterruptSetFlag);
      && Allowed(Initial(), fan)
      && var s1 := Next(Initial(), fan);
      && Allowed(s1, begin)
      && var s2 := Next(s1, begin);
      && Allowed(s2, enter)
      && var s3 := Next(s2, enter);
      && Allowed(s3, store) && s == Next(s3, store)
    ensures Owns(s, t, r) && InRunScope(s, t) && Observes(s, t) && !Resetting(s, t)
    ensures !Flagged(s, r) && !Durable(s, t)
  {
    InitialInv();
    var s0 := Initial();
    StepKeepsInv(s0, Step(1, InterruptFanOut));
    var s1 := Next(s0, Step(1, InterruptFanOut));
    StepKeepsInv(s1, Step(0, TryBegin(Key("a"))));
    var s2 := Next(s1, Step(0, TryBegin(Key("a"))));
    StepKeepsInv(s2, Step(0, EnterScope));
    var s3 := Next(s2, Step(0, EnterScope));
    StepKeepsInv(s3, Step(1, InterruptSetFlag));
    s, t, r := Next(s3, Step(1, InterruptSetFlag)), 0, 0;
    DurableExactlyWhenFlagged(s, t, r);
  }

  /** A release by a thread that does not hold the turn lets two threads own
      one key. */
  lemma {:induction false} UndisciplinedReleaseSharesAKey(key: Key) returns (s: State)
    ensures
      var s1 := Next(Initial(), Step(0, TryBegin(key)));
      && Allowed(Initial(), Step(0, TryBegin(key)))
      && Enabled(s1, Step(1, End(key))) && !Disciplined(s1, Step(1, End(key)))
      && var s2 := Next(s1, Step(1, End(key)));
      && Allowed(s2, Step(2, TryBegin(key)))
      && s == Next(s2, Step(2, TryBegin(key)))
    ensures Owns(s, 0, 1) && Owns(s, 2, 1)
  {
    var s1 := Next(Initial(), Step(0, TryBegin(key)));
    var s2 := Next(s1, Step(1, End(key)));
    assert s2.active == map[];
    s := Next(s2, Step(2, TryBegin(key)));
  }
}
