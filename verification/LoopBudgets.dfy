/** The thinking budget, the allowance of empty turns and forced stops, over
    whole runs of the agent loop. */
module LoopBudgets {
  import opened Messages
  import opened AgentLoop

  /** Since the last productive tool call: units spent, budget nudges pushed,
      and empty turns taken. */
  datatype Tally = Tally(spent: nat, nudges: nat, empties: nat)

  predicate Generates(p: PassInput) {
    !p.interruptedAtHead && !p.cancelled
  }

  function NudgeMessage(cfg: Config): Message {
    Message("user", cfg.texts.nudge, map[])
  }

  /** The budget's part of the pass appends the nudge. */
  predicate PushesNudge(cfg: Config, c: Context, p: PassInput) {
    Generates(p) && Charged(cfg, Counted(c), p).messages == Answered(Counted(c), p).messages + [NudgeMessage(cfg)]
  }

  function Observe(cfg: Config, c: Context, p: PassInput, t: Tally): Tally {
    if MadeProgress(p) then Tally(0, 0, 0)
    else Tally(t.spent + (if Generates(p) then Units(p) else 0),
               t.nudges + (if PushesNudge(cfg, c, p) then 1 else 0),
               t.empties + (if IsEmptyTurn(p) then 1 else 0))
  }

  function TallyOf(cfg: Config, c: Context, inputs: seq<PassInput>, t: Tally): Tally
    decreases inputs
  {
    if inputs == [] || ShouldStop(cfg, c) then t
    else TallyOf(cfg, Pass(cfg, c, inputs[0]), inputs[1..], Observe(cfg, c, inputs[0], t))
  }

  // ── The thinking budget ────────────────────────────────────────────

  /** How the budget's own fields relate to what was spent. */
  predicate Accounted(cfg: Config, c: Context, t: Tally, m: nat) {
    && 0 <= c.spent < cfg.budgetLimit
    && (if c.nudged then t.spent < cfg.budgetLimit + m + c.spent && t.nudges == 1
        else t.spent == c.spent && t.nudges == 0)
  }

  /** The pass uses up its window, in tokens or in time. */
  predicate Exhausts(cfg: Config, c: Context, p: PassInput) {
    !cfg.budgetMode.Off? && Generates(p) && !MadeProgress(p) && Used(cfg, c, p) >= cfg.budgetLimit
  }

  lemma {:induction false} UsedAfterAnswer(cfg: Config, c: Context, p: PassInput)
    ensures Used(cfg, Answered(Counted(c), p), p) == Used(cfg, c, p)
  {
  }

  /** What charging does to the token budget, and which message it appends. */
  lemma {:induction false} ChargeCases(cfg: Config, c: Context, p: PassInput)
    requires cfg.budgetMode.Tokens?
    ensures
      var c' := Charge(cfg, c, p);
      if MadeProgress(p) then c'.spent == 0 && !c'.nudged && c'.messages == c.messages
      else if c.spent + Units(p) < cfg.budgetLimit then
        c'.spent == c.spent + Units(p) && c'.nudged == c.nudged && c'.messages == c.messages
      else if !c.nudged then
        c'.spent == 0 && c'.nudged && c'.messages == c.messages + [NudgeMessage(cfg)]
      else c'.state == Complete && c'.terminalReason == Cut
  {
  }

  /** The budget ends a run exactly when its window is used up after a nudge. */
  lemma {:induction false} ChargedState(cfg: Config, c: Context, p: PassInput)
    ensures
      var c' := Charge(cfg, c, p);
      var cut := !cfg.budgetMode.Off? && !MadeProgress(p) && c.nudged && Used(cfg, c, p) >= cfg.budgetLimit;
      && c'.state == (if cut then Complete else c.state)
      && c'.terminalReason == (if cut then Cut else c.terminalReason)
      && c'.delegation == c.delegation && c'.pipeline == c.pipeline
  {
  }

  lemma {:induction false} NotANudge(ms: seq<Message>, cfg: Config)
    ensures ms != ms + [NudgeMessage(cfg)]
  {
    assert |ms + [NudgeMessage(cfg)]| == |ms| + 1;
  }

  /** The next exhaustion after a nudge always ends the turn. */
  lemma {:induction false} SecondExhaustionEndsTurn(cfg: Config, c: Context, p: PassInput)
    requires c.nudged && Exhausts(cfg, c, p)
    ensures Pass(cfg, c, p).state == Complete && Pass(cfg, c, p).terminalReason == Cut
    ensures forall later :: Run(cfg, Pass(cfg, c, p), later) == Pass(cfg, c, p)
  {
    var a := Answered(Counted(c), p);
    UsedAfterAnswer(cfg, c, p);
    ChargedState(cfg, a, p);
    assert Pass(cfg, c, p) == DispatchPending(Charge(cfg, a, p), p) == Charge(cfg, a, p);
  }

  lemma {:induction false} PassIsAccounted(cfg: Config, c: Context, p: PassInput, t: Tally, m: nat)
    requires cfg.budgetMode.Tokens? && cfg.budgetLimit >= 1 && Units(p) <= m
    requires Accounted(cfg, c, t, m)
    ensures Terminal(Pass(cfg, c, p).state) || Accounted(cfg, Pass(cfg, c, p), Observe(cfg, c, p, t), m)
  {
    var a := Answered(Counted(c), p);
    ChargeCases(cfg, a, p);
    NotANudge(a.messages, cfg);
    if Generates(p) {
      assert Pass(cfg, c, p) == DispatchPending(Charge(cfg, a, p), p);
    }
  }

  /** In token mode a loop that is still running has spent fewer than 2L + m
      units since its last productive tool call, and was nudged at most once. */
  lemma {:induction false} ThinkingIsBounded(cfg: Config, c: Context, inputs: seq<PassInput>, t: Tally, m: nat)
    requires cfg.budgetMode.Tokens? && cfg.budgetLimit >= 1
    requires forall p :: p in inputs ==> Units(p) <= m
    requires Accounted(cfg, c, t, m)
    ensures
      var c', t' := Run(cfg, c, inputs), TallyOf(cfg, c, inputs, t);
      !Terminal(c'.state) ==> t'.spent < 2 * cfg.budgetLimit + m && t'.nudges <= 1
    decreases inputs
  {
    if inputs != [] && !ShouldStop(cfg, c) {
      var c1, t1 := Pass(cfg, c, inputs[0]), Observe(cfg, c, inputs[0], t);
      PassIsAccounted(cfg, c, inputs[0], t, m);
      if Terminal(c1.state) {
        assert Run(cfg, c1, inputs[1..]) == c1;
      } else {
        ThinkingIsBounded(cfg, c1, inputs[1..], t1, m);
      }
    }
  }

  // ── Empty turns ────────────────────────────────────────────────────

  lemma {:induction false} AnsweredRetries(c: Context, p: PassInput)
    requires Generates(p)
    ensures
      var a := Answered(c, p);
      if MadeProgress(p) then a.retries == 0
      else if IsEmptyTurn(p) then
        (if c.retries >= p.ceiling then a.state == Error else a.retries == c.retries + 1 && a.state == Executing)
      else a.retries == c.retries
  {
  }

  lemma {:induction false} PassCountsEmptyTurns(cfg: Config, c: Context, p: PassInput)
    ensures
      var c' := Pass(cfg, c, p);
      || Terminal(c'.state)
      || (c'.retries == (if MadeProgress(p) then 0 else c.retries + if IsEmptyTurn(p) then 1 else 0) &&
          (IsEmptyTurn(p) ==> c'.retries <= p.ceiling))
  {
    if Generates(p) {
      var a := Answered(Counted(c), p);
      AnsweredRetries(Counted(c), p);
      assert Pass(cfg, c, p) == DispatchPending(Charge(cfg, a, p), p);
    }
  }

  /** The retry counter is exactly the number of empty turns since the last
      productive tool call, and never exceeds the tiers' allowance. */
  lemma {:induction false} EmptyTurnsAreBounded(cfg: Config, c: Context, inputs: seq<PassInput>, t: Tally, most: nat)
    requires c.retries == t.empties <= most
    requires forall p :: p in inputs ==> p.ceiling <= most
    ensures
      var c', t' := Run(cfg, c, inputs), TallyOf(cfg, c, inputs, t);
      !Terminal(c'.state) ==> c'.retries == t'.empties <= most
    decreases inputs
  {
    if inputs != [] && !ShouldStop(cfg, c) {
      var c1, t1 := Pass(cfg, c, inputs[0]), Observe(cfg, c, inputs[0], t);
      PassCountsEmptyTurns(cfg, c, inputs[0]);
      if Terminal(c1.state) {
        assert Run(cfg, c1, inputs[1..]) == c1;
      } else {
        EmptyTurnsAreBounded(cfg, c1, inputs[1..], t1, most);
      }
    }
  }

  /** One empty turn too many fails the run, except that a budget cut in the
      same pass turns the failure into a completion. */
  lemma {:induction false} LastEmptyTurnFails(cfg: Config, c: Context, p: PassInput)
    requires IsEmptyTurn(p) && c.retries >= p.ceiling
    ensures Pass(cfg, c, p).state == if c.nudged && Exhausts(cfg, c, p) then Complete else Error
  {
    var a := Answered(Counted(c), p);
    AnsweredRetries(Counted(c), p);
    UsedAfterAnswer(cfg, c, p);
    ChargedState(cfg, a, p);
    assert Pass(cfg, c, p) == DispatchPending(Charge(cfg, a, p), p) == Charge(cfg, a, p);
  }

  /** `LastSubstantive` is the content of the last assistant message that is
      not blank, and empty exactly when there is none. */
  lemma {:induction false} LastSubstantiveIsLast(ms: seq<Message>)
    ensures LastSubstantive(ms) == "" <==> forall i :: 0 <= i < |ms| ==> !Substantive(ms[i])
    ensures LastSubstantive(ms) != "" ==>
      exists i :: && 0 <= i < |ms| && Substantive(ms[i]) && ms[i].content == LastSubstantive(ms)
                  && forall j :: i < j < |ms| ==> !Substantive(ms[j])
  {
    if ms != [] {
      var n := |ms| - 1;
      if Substantive(ms[n]) {
        assert Blank("");
      } else {
        LastSubstantiveIsLast(ms[..n]);
        if LastSubstantive(ms) != "" {
          var i :| && 0 <= i < n && Substantive(ms[..n][i]) && ms[..n][i].content == LastSubstantive(ms[..n])
                   && forall j :: i < j < n ==> !Substantive(ms[..n][j]);
          assert ms[i] == ms[..n][i];
          forall j | i < j < |ms| ensures !Substantive(ms[j]) {
            assert j < n ==> ms[j] == ms[..n][j];
          }
        }
      }
    }
  }

  // ── Forced stops and what the parent hears ─────────────────────────

  /** The last message is the engine's own, and begins with the last
      substantive output before it. */
  predicate EndsCarried(ms: seq<Message>) {
    && ms != [] && ms[|ms| - 1].role == "assistant" && ms[|ms| - 1].content != ""
    && StartsWith(ms[|ms| - 1].content, LastSubstantive(ms[..|ms| - 1]))
  }

  predicate Stopped(c: Context) {
    c.terminalReason != NoReason ==> c.state == Complete && EndsCarried(c.messages)
  }

  lemma {:induction false} ForcedEndsCarried(t: Texts, ms: seq<Message>, reason: string, noun: string)
    ensures EndsCarried(ms + [Forced(t, ms, reason, noun)])
  {
    var all := ms + [Forced(t, ms, reason, noun)];
    assert all[..|all| - 1] == ms;
  }

  lemma {:induction false} ChargeIsStopped(cfg: Config, c: Context, p: PassInput)
    requires c.terminalReason == NoReason
    ensures Stopped(Charge(cfg, c, p))
  {
    ForcedEndsCarried(cfg.texts, c.messages, cfg.texts.cutReason, cfg.texts.cut);
  }

  lemma {:induction false} DispatchIsStopped(c: Context, p: PassInput)
    requires Stopped(c)
    ensures Stopped(DispatchPending(c, p))
  {
  }

  lemma {:induction false} PassIsStopped(cfg: Config, c: Context, p: PassInput)
    requires c.terminalReason == NoReason
    ensures Stopped(Pass(cfg, c, p))
  {
    if Generates(p) {
      var a := Answered(Counted(c), p);
      ChargeIsStopped(cfg, a, p);
      DispatchIsStopped(Charge(cfg, a, p), p);
      assert Pass(cfg, c, p) == DispatchPending(Charge(cfg, a, p), p);
    }
  }

  lemma {:induction false} RunIsStopped(cfg: Config, c: Context, inputs: seq<PassInput>)
    requires Stopped(c)
    ensures Stopped(Run(cfg, c, inputs))
    decreases inputs
  {
    if inputs != [] && !ShouldStop(cfg, c) {
      PassIsStopped(cfg, c, inputs[0]);
      RunIsStopped(cfg, Pass(cfg, c, inputs[0]), inputs[1..]);
    }
  }

  /** A child that reached the iteration cap or the budget cut is never reported
      as successful, and unless it left a summary, its parent gets a text that
      begins with its last substantive output. */
  lemma {:induction false} ForcedStopIsReported(cfg: Config, c: Context, inputs: seq<PassInput>)
    requires c.terminalReason == NoReason
    ensures
      var c', r := Run(cfg, c, inputs), Settle(cfg, Run(cfg, c, inputs));
      && (!Terminal(c'.state) && c'.iterations >= Limit(cfg, c') ==> r.terminalReason == Capped)
      && (c'.terminalReason == Cut ==> r.terminalReason == Cut)
      && (r.terminalReason != NoReason ==>
            && !Success(r) && r.messages != []
            && (!Explained(r) ==> StartsWith(Summary(r), LastSubstantive(r.messages[..|r.messages| - 1]))))
  {
    var c' := Run(cfg, c, inputs);
    RunIsStopped(cfg, c, inputs);
    ForcedEndsCarried(cfg.texts, c'.messages, CapReason(cfg.texts, c'.iterations), cfg.texts.cap);
  }

  // ── How a pass can end a run ───────────────────────────────────────

  /** The answer itself completes the run: a tool says so, or the reply is
      complete and either nothing more is asked of the tier or a child hands
      back to its chain. */
  predicate AnswerCompletes(c: Context, p: PassInput) {
    if p.tools.Some? then p.tools.value.state.Complete?
    else
      && p.complete && (p.finish.Stop? || p.finish.OtherFinish?)
      && if p.autoChain && p.finish.Stop? then c.depth > 0 else !p.explicit
  }

  predicate AnswerFails(c: Context, p: PassInput) {
    if p.tools.Some? then p.tools.value.state.Error?
    else p.finish.ContextOverflow? || (IsEmptyTurn(p) && c.retries >= p.ceiling)
  }

  predicate AnswerInterrupts(p: PassInput) {
    if p.tools.Some? then p.tools.value.state.Interrupted? else p.finish.FinishInterrupted?
  }

  /** After the answer something is waiting to be dispatched. */
  predicate Waiting(c: Context, p: PassInput) {
    || c.delegation || c.pipeline
    || (p.tools.Some? && (p.tools.value.delegation || p.tools.value.pipeline))
  }

  lemma {:induction false} NoToolState(c: Context, p: PassInput)
    requires Generates(p) && p.tools.None? && c.state == Executing
    ensures
      var a := NoToolDecision(c, p);
      && (a.state == Complete <==> AnswerCompletes(c, p))
      && (a.state == Error <==> AnswerFails(c, p))
      && (a.state == Interrupted <==> AnswerInterrupts(p))
      && a.delegation == c.delegation && a.pipeline == c.pipeline && a.terminalReason == c.terminalReason
  {
  }

  lemma {:induction false} AnsweredState(c: Context, p: PassInput)
    requires Generates(p)
    ensures
      var a := Answered(c, p);
      && (a.state == Complete <==> AnswerCompletes(c, p))
      && (a.state == Error <==> AnswerFails(c, p))
      && (a.state == Interrupted <==> AnswerInterrupts(p))
      && ((a.delegation || a.pipeline) <==> Waiting(c, p))
  {
    var c1 := c.(state := Executing, messages := p.history + [Message("assistant", p.content, map[])]);
    if p.tools.None? { NoToolState(c1, p); }
  }

  /** A reply cut off at its length goes on whatever the tier chains to: the
      auto-chain of that finish reason is never reached. */
  lemma {:induction false} LengthNeverChains(c: Context, p: PassInput, chained: bool)
    requires p.finish.Length?
    ensures NoToolDecision(c, p) == c && Answered(c, p) == Answered(c, p.(autoChain := chained))
  {
  }

  predicate IsCut(cfg: Config, c: Context, p: PassInput) {
    c.nudged && Exhausts(cfg, c, p)
  }

  /** The pass gets as far as dispatching. */
  predicate GoesOn(cfg: Config, c: Context, p: PassInput) {
    Generates(p) && !IsCut(cfg, c, p) && !AnswerCompletes(c, p) && !AnswerFails(c, p) && !AnswerInterrupts(p)
  }

  /** Exactly how a pass makes a run succeed: a hook cancels the generation, the
      answer completes it before the budget cuts it, or a dispatched delegation
      or pipeline does. */
  lemma {:induction false} PassSucceedsExactly(cfg: Config, c: Context, p: PassInput)
    requires c.terminalReason == NoReason
    ensures
      Success(Pass(cfg, c, p)) <==>
        || (!p.interruptedAtHead && p.cancelled)
        || (Generates(p) && !IsCut(cfg, c, p) && AnswerCompletes(c, p))
        || (GoesOn(cfg, c, p) && !p.interruptedAtDispatch && Waiting(c, p) && p.dispatch.state == Complete)
  {
    if Generates(p) {
      var a := Answered(Counted(c), p);
      AnsweredState(Counted(c), p);
      UsedAfterAnswer(cfg, c, p);
      ChargedState(cfg, a, p);
      assert Pass(cfg, c, p) == DispatchPending(Charge(cfg, a, p), p);
    }
  }

  /** Exactly how a pass leaves a run interrupted. */
  lemma {:induction false} PassIsInterruptedExactly(cfg: Config, c: Context, p: PassInput)
    ensures
      Pass(cfg, c, p).state == Interrupted <==>
        || p.interruptedAtHead
        || (Generates(p) && !IsCut(cfg, c, p) && AnswerInterrupts(p))
        || (GoesOn(cfg, c, p) && (p.interruptedAtDispatch || (Waiting(c, p) && p.dispatch.state == Interrupted)))
  {
    if Generates(p) {
      var a := Answered(Counted(c), p);
      AnsweredState(Counted(c), p);
      UsedAfterAnswer(cfg, c, p);
      ChargedState(cfg, a, p);
      assert Pass(cfg, c, p) == DispatchPending(Charge(cfg, a, p), p);
    }
  }
}
