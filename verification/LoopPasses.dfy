/** What a pass of the agent loop leaves behind, and when the loop goes on, in
    the terms of its inputs. */
module LoopPasses {
  import opened Messages
  import opened AgentLoop

  // ── When the loop goes on ──────────────────────────────────────────

  /** The identity's own limit goes before the configured one; the turns that a
      parent asked for can only lower it. */
  predicate Below(cfg: Config, c: Context, n: int) {
    && (if c.effectiveMax >= 0 then n < c.effectiveMax else n < cfg.maxIterations)
    && (c.delegatedMaxTurns >= 1 ==> n < c.delegatedMaxTurns)
  }

  predicate GoesOn(cfg: Config, c: Context) {
    && c.state != Complete && c.state != Error && c.state != Interrupted
    && Below(cfg, c, c.iterations) && c.duplicates < 3
  }

  lemma {:induction false} StopsExactly(cfg: Config, c: Context)
    ensures ShouldStop(cfg, c) <==> !GoesOn(cfg, c)
  {
  }

  /** The loop takes one pass after another exactly as long as it may go on: it
      could before each pass taken, and cannot once it leaves any out. */
  lemma {:induction false} TakesPassesExactly(cfg: Config, c: Context, inputs: seq<PassInput>)
    ensures
      var n := Passes(cfg, c, inputs);
      && n <= |inputs|
      && (forall k :: 0 <= k < n ==> GoesOn(cfg, Run(cfg, c, inputs[..k])))
      && (forall k :: n <= k <= |inputs| ==> Run(cfg, c, inputs[..k]) == Run(cfg, c, inputs[..n]))
      && (n < |inputs| ==> !GoesOn(cfg, Run(cfg, c, inputs[..n])))
    decreases |inputs|
  {
    if inputs == [] || ShouldStop(cfg, c) {
      StopsExactly(cfg, c);
      forall k | 0 <= k <= |inputs| ensures Run(cfg, c, inputs[..k]) == c { }
    } else {
      StopsExactly(cfg, c);
      var c1, rest := Pass(cfg, c, inputs[0]), inputs[1..];
      TakesPassesExactly(cfg, c1, rest);
      forall k | 1 <= k <= |inputs| ensures Run(cfg, c, inputs[..k]) == Run(cfg, c1, rest[..k - 1]) {
        assert inputs[..k][1..] == rest[..k - 1];
      }
    }
  }

  // ── Tool results ───────────────────────────────────────────────────

  /** A tool really ran. */
  predicate Productive(p: PassInput) {
    p.tools.Some? && exists r :: r in p.tools.value.results && Ran(r.message)
  }

  predicate Ran(m: Message) {
    "result_kind" in m.metadata && m.metadata["result_kind"] in ["ok", "ok_empty"]
  }

  predicate Generates(p: PassInput) {
    !p.interruptedAtHead && !p.cancelled
  }

  lemma {:induction false} ProgressExactly(p: PassInput)
    requires Generates(p)
    ensures MadeProgress(p) <==> Productive(p)
  {
    if p.tools.Some? {
      var rs := p.tools.value.results;
      assert forall i :: 0 <= i < |rs| ==> rs[i] in rs && (IsProgress(rs[i].message) <==> Ran(rs[i].message));
      if Productive(p) {
        var r :| r in rs && Ran(r.message);
        var i :| 0 <= i < |rs| && rs[i] == r;
        assert IsProgress(rs[i].message);
      }
    }
  }

  // ── The answer ─────────────────────────────────────────────────────

  /** A complete reply that ends by itself, at a tier that hands on to another. */
  predicate Chains(p: PassInput) {
    p.autoChain && p.finish == Stop && p.complete
  }

  /** A reply without a tool call, at a tier that must end in one. */
  predicate LacksTool(p: PassInput) {
    p.tools.None? && p.explicit && (p.finish == Stop || p.finish == OtherFinish) && !Chains(p)
  }

  /** A correction is due, and the allowance is not used up. */
  predicate Corrects(c: Context, p: PassInput) {
    LacksTool(p) && c.retries < p.ceiling
  }

  /** The reply is recorded after the history, and a correction after it. */
  lemma {:induction false} ReplyIsRecorded(c: Context, p: PassInput)
    requires p.tools.None?
    ensures Answered(c, p).messages ==
            p.history + [Message("assistant", p.content, map[])] +
            if Corrects(c, p) then [Message("user", p.correction, map[])] else []
  {
    var ms := p.history + [Message("assistant", p.content, map[])];
    assert ms + [] == ms;
  }

  /** What the answer leaves of the other fields. */
  lemma {:induction false} AnswerLeaves(c: Context, p: PassInput)
    requires Generates(p)
    ensures
      var a := Answered(c, p);
      && a.duplicates == (if p.tools.Some? then p.tools.value.duplicates else c.duplicates)
      && a.summary == (if p.tools.Some? && p.tools.value.summary.Some? then p.tools.value.summary else c.summary)
      && (a.delegation <==> c.delegation || (p.tools.Some? && p.tools.value.delegation))
      && (a.pipeline <==> c.pipeline || (p.tools.Some? && p.tools.value.pipeline))
      && a.retries == (if Productive(p) then 0 else if Corrects(c, p) then c.retries + 1 else c.retries)
      && a.depth == c.depth
  {
    ProgressExactly(p);
  }

  /** The state that the answer leaves: what the tools left, unless they go on, or
      what the finish reason says, and for a reply that ended by itself: an error
      once the corrections are used up, completion when it is complete. */
  lemma {:induction false} AnswerDecides(c: Context, p: PassInput)
    ensures
      var state := Answered(c, p).state;
      if p.tools.Some? then
        var s := p.tools.value.state;
        state == if s == Complete || s == Error || s == Interrupted then s else Executing
      else
        && (state == Interrupted <==> p.finish == FinishInterrupted)
        && (state == Error <==> p.finish == ContextOverflow || (LacksTool(p) && c.retries >= p.ceiling))
        && (state == Complete <==>
              && (p.finish == Stop || p.finish == OtherFinish) && p.complete
              && if Chains(p) then c.depth > 0 else !p.explicit)
        && (state == Interrupted || state == Error || state == Complete || state == Executing)
  {
  }

  // ── The budget ─────────────────────────────────────────────────────

  /** The whole part of `x` is at least `limit`. */
  predicate Reached(x: real, limit: int) {
    if limit >= 1 then x >= limit as real else x > (limit - 1) as real
  }

  lemma {:induction false} ReachedExactly(x: real, limit: int)
    ensures Trunc(x) >= limit <==> Reached(x, limit)
  {
  }

  /** When the window of the wall-clock budget was opened. */
  function Opened(c: Context, p: PassInput): real {
    if c.windowStart == 0.0 then p.clock.opening else c.windowStart
  }

  /** The pass uses up its window: four bytes are a token, and seconds count since
      the window was opened. */
  predicate UsesUp(cfg: Config, c: Context, p: PassInput) {
    match cfg.budgetMode
    case Off => false
    case Tokens => c.spent + p.rawLength / 4 >= cfg.budgetLimit
    case WallClock => Reached(p.clock.reading - Opened(c, p), cfg.budgetLimit)
  }

  /** What the budget does after an answer. A productive one closes the window and
      forgets the nudge; an unproductive one is charged; the first window used up
      is followed by a nudge and another window, the second by the end. */
  lemma {:induction false} ChargeLeaves(cfg: Config, c: Context, p: PassInput)
    requires Generates(p) && cfg.budgetMode != Off
    ensures
      var c' := Charge(cfg, c, p);
      if Productive(p) then c' == c.(spent := 0, windowStart := 0.0, nudged := false)
      else if !UsesUp(cfg, c, p) then
        c' == if cfg.budgetMode == Tokens then c.(spent := c.spent + p.rawLength / 4)
              else c.(windowStart := Opened(c, p))
      else if !c.nudged then
        c' == c.(spent := 0, windowStart := if cfg.budgetMode == Tokens then 0.0 else p.clock.nudging,
                 nudged := true, messages := c.messages + [Message("user", cfg.texts.nudge, map[])])
      else
        && c'.state == Complete && c'.terminalReason == Cut && |c'.messages| == |c.messages| + 1
        && c.messages <= c'.messages && c'.messages[|c.messages|].role == "assistant"
  {
    ProgressExactly(p);
    ReachedExactly(p.clock.reading - Opened(c, p), cfg.budgetLimit);
  }

  lemma {:induction false} ChargeOff(cfg: Config, c: Context, p: PassInput)
    requires cfg.budgetMode == Off
    ensures Charge(cfg, c, p) == c
  {
  }

  /** Passes that are generated, run no tool, and end within the window. */
  predicate Idles(cfg: Config, start: real, p: PassInput) {
    Generates(p) && !Productive(p) && !Reached(p.clock.reading - start, cfg.budgetLimit)
  }

  /** Over any number of such passes the wall-clock window stays where it was
      opened, and nobody is nudged. */
  lemma {:induction false} WindowStaysOpen(cfg: Config, c: Context, inputs: seq<PassInput>)
    requires cfg.budgetMode == WallClock && c.windowStart != 0.0
    requires forall p :: p in inputs ==> Idles(cfg, c.windowStart, p)
    ensures
      var c' := Run(cfg, c, inputs);
      c'.windowStart == c.windowStart && c'.nudged == c.nudged && c'.terminalReason == c.terminalReason
    decreases inputs
  {
    if inputs != [] && !ShouldStop(cfg, c) {
      assert inputs[0] in inputs;
      IdlePass(cfg, c, inputs[0]);
      WindowStaysOpen(cfg, Pass(cfg, c, inputs[0]), inputs[1..]);
    }
  }

  lemma {:induction false} IdlePass(cfg: Config, c: Context, p: PassInput)
    requires cfg.budgetMode == WallClock && c.windowStart != 0.0 && Idles(cfg, c.windowStart, p)
    ensures
      var c' := Pass(cfg, c, p);
      c'.windowStart == c.windowStart && c'.nudged == c.nudged && c'.terminalReason == c.terminalReason
  {
    var a := Answered(Counted(c), p);
    ChargeLeaves(cfg, a, p);
    assert Charge(cfg, a, p) == a.(windowStart := a.windowStart);
    DispatchLeaves(Charge(cfg, a, p), p);
  }

  // ── Dispatching ────────────────────────────────────────────────────

  predicate IsOver(c: Context) {
    c.state == Complete || c.state == Error || c.state == Interrupted
  }

  /** What is left once what is pending has been dispatched. A delegation goes
      before a pipeline, which then waits for the next pass. */
  lemma {:induction false} DispatchLeaves(c: Context, p: PassInput)
    ensures
      var c' := DispatchPending(c, p);
      && c'.terminalReason == c.terminalReason && c'.windowStart == c.windowStart && c'.nudged == c.nudged
      && if IsOver(c) then c' == c
         else if p.interruptedAtDispatch then c' == c.(state := Interrupted)
         else if !c.delegation && !c.pipeline then c' == c
         else
           && c'.messages == p.dispatch.messages && c'.state == p.dispatch.state && c'.iterations == c.iterations - 1
           && c'.summary == (if p.dispatch.summary.Some? then p.dispatch.summary else c.summary)
           && !c'.delegation && (c'.pipeline <==> c.delegation && c.pipeline) && c'.duplicates == c.duplicates
  {
  }

  /** A pass that an interrupt cuts short leaves the messages alone, and one that
      a hook cancels completes with the history there was. */
  lemma {:induction false} HaltedPass(cfg: Config, c: Context, p: PassInput)
    requires !Generates(p)
    ensures Pass(cfg, c, p) == if p.interruptedAtHead then c.(iterations := c.iterations + 1, state := Interrupted)
                               else c.(iterations := c.iterations + 1, state := Complete, messages := p.history)
  {
  }

  // ── After the loop ─────────────────────────────────────────────────

  /** A message that says something: an assistant's, with a character that is
      neither a space nor a tab nor a line end. */
  predicate Says(m: Message) {
    m.role == "assistant" && exists i :: 0 <= i < |m.content| && m.content[i] !in [' ', '\t', '\r', '\n']
  }

  lemma {:induction false} SaysExactly(m: Message)
    ensures Substantive(m) <==> Says(m)
  {
    assert forall i :: 0 <= i < |m.content| ==>
      (m.content[i] !in [' ', '\t', '\r', '\n'] <==>
       m.content[i] != ' ' && m.content[i] != '\t' && m.content[i] != '\r' && m.content[i] != '\n');
  }

  /** The last message that says something is carried into a forced stop. */
  lemma {:induction false} CarriedIsLast(ms: seq<Message>, k: nat)
    requires k < |ms| && Says(ms[k]) && forall j :: k < j < |ms| ==> !Says(ms[j])
    ensures LastSubstantive(ms) == ms[k].content
  {
    var n := |ms| - 1;
    SaysExactly(ms[n]);
    if k < n { CarriedIsLast(ms[..n], k); }
  }

  lemma {:induction false} NothingCarried(ms: seq<Message>)
    requires forall m :: m in ms ==> !Says(m)
    ensures LastSubstantive(ms) == ""
  {
    if ms != [] {
      SaysExactly(ms[|ms| - 1]);
      NothingCarried(ms[..|ms| - 1]);
    }
  }

  /** A run that is not over when it has used up its iterations gets one message
      more, an assistant's, and is completed; any other is left as it is. */
  lemma {:induction false} SettleLeaves(cfg: Config, c: Context)
    ensures
      var c' := Settle(cfg, c);
      if IsOver(c) || Below(cfg, c, c.iterations) then c' == c
      else
        && c' == c.(state := Complete, terminalReason := Capped, messages := c'.messages)
        && |c'.messages| == |c.messages| + 1 && c.messages <= c'.messages
        && c'.messages[|c.messages|].role == "assistant" && c'.messages[|c.messages|].metadata == map[]
  {
  }

  ghost predicate Mentions(s: string, x: string) {
    exists a, b :: s == a + x + b
  }

  /** The message of a forced stop goes on from what is carried with the reason,
      and says whether anything was carried; if not, also what stopped the run. */
  lemma {:induction false} ForcedStopExplains(t: Texts, carried: string, reason: string, noun: string)
    ensures
      var text := Annotate(t, carried, reason, noun);
      && carried <= text && Mentions(text[|carried|..], reason)
      && (if carried == "" then Mentions(text, t.nothing + noun) else Mentions(text, reason + t.carried))
  {
    var text := Annotate(t, carried, reason, noun);
    if carried == "" {
      assert text[|carried|..] == "[" + reason + (t.nothing + noun + "]");
      assert text == ("[" + reason) + (t.nothing + noun) + "]";
    } else {
      assert text[|carried|..] == "\n\n[" + reason + t.carried;
      assert text == (carried + "\n\n[") + (reason + t.carried) + "";
    }
  }

  /** The cap's reason names the number of iterations. */
  lemma {:induction false} CapNamesIterations(t: Texts, n: nat)
    ensures CapReason(t, n) == t.capBefore + Decimal(n) + t.capAfter
    ensures CapReason(t, -1 - n) == t.capBefore + ("-" + Decimal(n + 1)) + t.capAfter
  {
  }

  // ── What the parent is told ────────────────────────────────────────

  predicate Replies(m: Message) {
    m.role == "assistant" && m.content != ""
  }

  /** The summary that the run left, unless it is empty; else its last reply that
      is not empty. */
  lemma {:induction false} SummaryIsLastReply(c: Context, k: nat)
    requires k < |c.messages| && Replies(c.messages[k]) && forall j :: k < j < |c.messages| ==> !Replies(c.messages[j])
    ensures Summary(c) == if c.summary.Some? && c.summary.value != "" then c.summary.value else c.messages[k].content
  {
    ReplyIsLast(c.messages, k);
  }

  lemma {:induction false} ReplyIsLast(ms: seq<Message>, k: nat)
    requires k < |ms| && Replies(ms[k]) && forall j :: k < j < |ms| ==> !Replies(ms[j])
    ensures LastReply(ms) == ms[k].content
  {
    if k < |ms| - 1 { ReplyIsLast(ms[..|ms| - 1], k); }
  }

  /** Without any reply the parent is told so. */
  lemma {:induction false} NoReply(ms: seq<Message>)
    requires forall m :: m in ms ==> !Replies(m)
    ensures LastReply(ms) == "(No response from delegate)"
  {
    if ms != [] {
      assert ms[|ms| - 1] in ms;
      NoReply(ms[..|ms| - 1]);
    }
  }
}
