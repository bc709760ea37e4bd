/** What each operation on the turn registry does when nothing comes between its
    steps, and how many turns there can be while concurrency stays off. */
module TurnOperations {
  import opened Messages
  import opened TurnRegistry

  /** The two states differ at most in tokens, the handle's flag and the record of
      concurrency since idle. */
  predicate SameTurns(s: State, s': State) {
    && s'.active == s.active && s'.running == s.running && s'.concurrent == s.concurrent
    && |s'.runs| == |s.runs|
  }

  ghost predicate SameThreads(s: State, s': State) {
    forall u :: s'.At(u) == s.At(u)
  }

  /** Every run is as it was, but that those in `changed` have `value` in their
      token. */
  ghost predicate TokensSet(s: State, s': State, changed: set<RunId>, value: bool) {
    forall r :: 0 <= r < |s.runs| && |s'.runs| == |s.runs| ==>
      s'.runs[r] == if r in changed then RunState(s.runs[r].key, value) else s.runs[r]
  }

  /** An interrupt sets the handle's flag and the token of every active run, and
      nothing else. */
  lemma {:induction false} InterruptTakes(s: State, t: Tid)
    requires s.At(t).pc == Ready
    ensures Enabled(s, Step(t, InterruptFanOut))
    ensures
      var s1 := Next(s, Step(t, InterruptFanOut));
      && Enabled(s1, Step(t, InterruptSetFlag))
      && var s2 := Next(s1, Step(t, InterruptSetFlag));
      && s2.handleFlag && SameTurns(s, s2) && SameThreads(s, s2) && TokensSet(s, s2, s.active.Values, true)
  {
    var s1 := Next(s, Step(t, InterruptFanOut));
    assert s1.At(t) == s.At(t).(pc := InterruptFannedOut);
    assert forall u :: u != t ==> s1.At(u) == s.At(u);
  }

  function OwnRun(s: State, t: Tid): set<RunId> {
    var claim := s.At(t).claim;
    if claim.Some? && claim.value in s.active then {s.active[claim.value]} else {}
  }

  /** A session's interrupt sets the token of its run, if it has one, and nothing
      else. */
  lemma {:induction false} SessionInterruptTakes(s: State, t: Tid, k: Key)
    requires s.At(t).pc == Ready
    ensures Enabled(s, Step(t, SessionLookUp(k)))
    ensures
      var s1 := Next(s, Step(t, SessionLookUp(k)));
      if k in s.active then
        && Enabled(s1, Step(t, SessionSetToken))
        && var s2 := Next(s1, Step(t, SessionSetToken));
        && s2.handleFlag == s.handleFlag && SameTurns(s, s2) && SameThreads(s, s2)
        && TokensSet(s, s2, {s.active[k]}, true)
      else
        s1.handleFlag == s.handleFlag && SameTurns(s, s1) && SameThreads(s, s1) && s1.runs == s.runs
  {
    var s1 := Next(s, Step(t, SessionLookUp(k)));
    assert forall u :: u != t ==> s1.At(u) == s.At(u);
  }

  /** A reset clears the handle's flag and the token of the thread's own run, if it
      has one, and nothing else. */
  lemma {:induction false} ResetTakes(s: State, t: Tid)
    requires s.At(t).pc == Ready
    ensures Enabled(s, Step(t, ResetClearFlag))
    ensures
      var s1 := Next(s, Step(t, ResetClearFlag));
      && Enabled(s1, Step(t, ResetLookUp))
      && var s2 := Next(s1, Step(t, ResetLookUp));
      && if OwnRun(s, t) == {} then
           !s2.handleFlag && SameTurns(s, s2) && SameThreads(s, s2) && s2.runs == s.runs
         else
           && Enabled(s2, Step(t, ResetClearToken))
           && var s3 := Next(s2, Step(t, ResetClearToken));
           && !s3.handleFlag && SameTurns(s, s3) && SameThreads(s, s3) && TokensSet(s, s3, OwnRun(s, t), false)
  {
    var s1 := Next(s, Step(t, ResetClearFlag));
    assert s1.At(t) == s.At(t).(pc := ResetFlagCleared);
    var s2 := Next(s1, Step(t, ResetLookUp));
    assert forall u :: u != t ==> s2.At(u) == s.At(u);
  }

  /** The end of a turn removes its session's run from the active ones, whoever
      calls it, and takes the claim from the calling thread alone. */
  lemma {:induction false} EndTakes(s: State, t: Tid, k: Key)
    requires s.At(t).pc == Ready
    ensures Enabled(s, Step(t, End(k)))
    ensures
      var s' := Next(s, Step(t, End(k)));
      && (forall x :: x in s'.active <==> x in s.active && x != k)
      && (forall x :: x in s'.active ==> s'.active[x] == s.active[x])
      && s'.runs == s.runs && s'.handleFlag == s.handleFlag && s'.concurrent == s.concurrent
      && (s'.running <==> exists x :: x in s.active && x != k)
      && (forall u :: s'.At(u) == if u == t && s.At(t).claim == Some(k) then s.At(t).(claim := None) else s.At(u))
  {
    var s' := Next(s, Step(t, End(k)));
    assert s'.active != map[] ==> exists x :: x in s'.active;
  }

  function OwnToken(s: State, t: Tid): Token {
    var claim := s.At(t).claim;
    if claim.Some? && claim.value in s.active then OfRun(s.active[claim.value]) else Handle
  }

  /** Only the scopes of `t` change. */
  ghost predicate ScopesOnly(s: State, s': State, t: Tid, scopes: seq<Token>) {
    && SameTurns(s, s') && s'.runs == s.runs && s'.handleFlag == s.handleFlag
    && (forall u :: s'.At(u) == if u == t then s.At(t).(scopes := scopes) else s.At(u))
  }

  lemma {:induction false} EnterTakes(s: State, t: Tid)
    requires s.At(t).pc == Ready
    ensures Enabled(s, Step(t, EnterScope))
    ensures ScopesOnly(s, Next(s, Step(t, EnterScope)), t, s.At(t).scopes + [OwnToken(s, t)])
  {
  }

  lemma {:induction false} LeaveTakes(s: State, t: Tid, scopes: seq<Token>, token: Token)
    requires s.At(t).pc == Ready && s.At(t).scopes == scopes + [token]
    ensures Enabled(s, Step(t, LeaveScope))
    ensures ScopesOnly(s, Next(s, Step(t, LeaveScope)), t, scopes)
  {
    assert (scopes + [token])[..|scopes|] == scopes;
  }

  /** A cancel scope publishes the thread's own run, or else the handle, on top of
      the scopes it is in; leaving it brings the last one back. */
  lemma {:induction false} ScopesNest(s: State, t: Tid)
    requires s.At(t).pc == Ready
    ensures Enabled(s, Step(t, EnterScope))
    ensures
      var s1 := Next(s, Step(t, EnterScope));
      && ScopesOnly(s, s1, t, s.At(t).scopes + [OwnToken(s, t)])
      && Enabled(s1, Step(t, LeaveScope))
      && ScopesOnly(s, Next(s1, Step(t, LeaveScope)), t, s.At(t).scopes)
  {
    EnterTakes(s, t);
    LeaveTakes(Next(s, Step(t, EnterScope)), t, s.At(t).scopes, OwnToken(s, t));
  }

  // ── One turn at a time ─────────────────────────────────────────────

  predicate KeepsOff(steps: seq<Step>) {
    forall st :: st in steps ==> st.action != SetConcurrent(true)
  }

  /** From an idle registry with concurrency off, at most one turn is running as
      long as nobody turns it on. */
  lemma {:induction false} OneTurnAtATime(s: State, steps: seq<Step>)
    requires !s.concurrent && |s.active| <= 1 && AllAllowed(s, steps) && KeepsOff(steps)
    ensures |After(s, steps).active| <= 1 && !After(s, steps).concurrent
    decreases steps
  {
    if steps != [] {
      assert steps[0] in steps;
      match steps[0].action {
        case TryBegin(key) => assert |map[][key := |s.runs|]| == 1;
        case End(key) => SmallerMap(s.active, key);
        case _ =>
      }
      OneTurnAtATime(Next(s, steps[0]), steps[1..]);
    }
  }

  /** `shared` tells whether concurrency was on since the registry was last idle: it
      comes on with it, stays off without it, and goes off when the registry is
      idle with concurrency off. */
  lemma {:induction false} SharedSinceIdle(s: State, st: Step)
    requires Enabled(s, st)
    ensures
      var s' := Next(s, st);
      && (s'.concurrent ==> s'.shared)
      && (!s.shared && !s'.concurrent ==> !s'.shared)
      && (s'.active == map[] && !s'.concurrent ==> !s'.shared)
      && (s.shared && s'.active != map[] ==> s'.shared)
  {
  }

  /** Setting the switch does that and nothing else. */
  lemma {:induction false} SwitchTakes(s: State, t: Tid, enabled: bool)
    requires s.At(t).pc == Ready
    ensures
      var s' := Next(s, Step(t, SetConcurrent(enabled)));
      && s'.concurrent == enabled && s'.active == s.active && s'.runs == s.runs && s'.handleFlag == s.handleFlag
      && s'.running == s.running && SameThreads(s, s')
  {
  }
}
