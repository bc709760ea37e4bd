/** The agent loop on a mutable context. */
module LoopEngine {
  import opened Messages
  import opened AgentLoop

  class LoopContext {
    var state: AgentState
    var iterations: int
    var duplicates: int
    const depth: nat
    const effectiveMax: int
    const delegatedMaxTurns: int
    var messages: seq<Message>
    var summary: Option<string>
    var terminalReason: TerminalReason
    var retries: nat
    var spent: int
    var windowStart: real
    var nudged: bool
    var delegation: bool
    var pipeline: bool

    constructor (messages: seq<Message>, depth: nat, effectiveMax: int, delegatedMaxTurns: int)
      ensures View() == Context(Planning, 0, 0, depth, effectiveMax, delegatedMaxTurns,
                                messages, None, NoReason, 0, 0, 0.0, false, false, false)
    {
      state, iterations, duplicates := Planning, 0, 0;
      this.depth, this.effectiveMax, this.delegatedMaxTurns := depth, effectiveMax, delegatedMaxTurns;
      this.messages, summary, terminalReason := messages, None, NoReason;
      retries, spent, windowStart, nudged, delegation, pipeline := 0, 0, 0.0, false, false, false;
    }

    ghost function View(): Context
      reads this
    {
      Context(state, iterations, duplicates, depth, effectiveMax, delegatedMaxTurns,
              messages, summary, terminalReason, retries, spent, windowStart, nudged, delegation, pipeline)
    }

    method ResolveMaxIterations(cfg: Config) returns (limit: int)
      ensures limit == Limit(cfg, View())
    {
      limit := if effectiveMax >= 0 then effectiveMax else cfg.maxIterations;
      if delegatedMaxTurns >= 1 { limit := Min(limit, delegatedMaxTurns); }
    }

    method LastSubstantiveAssistant() returns (found: string)
      ensures found == LastSubstantive(messages)
    {
      var i := |messages|;
      assert messages[..i] == messages;
      while i > 0
        invariant 0 <= i <= |messages|
        invariant LastSubstantive(messages) == LastSubstantive(messages[..i])
      {
        i := i - 1;
        assert messages[..i + 1][..i] == messages[..i];
        if Substantive(messages[i]) { return messages[i].content; }
      }
      found := "";
    }

    method FinishWithCarriedOutput(t: Texts, reason: string, noun: string, why: TerminalReason)
      modifies this
      ensures View() == ForceStop(t, old(View()), reason, noun, why)
    {
      var carried := LastSubstantiveAssistant();
      messages := messages + [Message("assistant", Annotate(t, carried, reason, noun), map[])];
      terminalReason := why;
      state := Complete;
    }

    method BudgetUnitsConsumed(cfg: Config, p: PassInput) returns (units: int)
      modifies this`spent, this`windowStart
      ensures View() == Accumulate(cfg, old(View()), p) && units == Used(cfg, old(View()), p)
    {
      if cfg.budgetMode.Tokens? {
        spent := spent + p.rawLength / 4;
        return spent;
      }
      if windowStart == 0.0 { windowStart := p.clock.opening; }
      units := Trunc(p.clock.reading - windowStart);
    }

    method NudgeBudgetCompletion(cfg: Config, p: PassInput)
      modifies this
      ensures View() == Nudge(cfg, old(View()), p)
    {
      nudged, spent := true, 0;
      windowStart := if cfg.budgetMode.WallClock? then p.clock.nudging else 0.0;
      messages := messages + [Message("user", cfg.texts.nudge, map[])];
    }

    method ChargeThinkingBudget(cfg: Config, p: PassInput, progress: bool)
      requires progress == MadeProgress(p)
      modifies this
      ensures View() == Charge(cfg, old(View()), p)
    {
      if cfg.budgetMode.Off? { return; }
      if progress {
        spent, windowStart, nudged := 0, 0.0, false;
        return;
      }
      var units := BudgetUnitsConsumed(cfg, p);
      if units < cfg.budgetLimit { return; }
      if !nudged {
        NudgeBudgetCompletion(cfg, p);
      } else {
        FinishWithCarriedOutput(cfg.texts, cfg.texts.cutReason, cfg.texts.cut, Cut);
      }
    }

    method FoldCompleteIntoAssistant(msg: Message) returns (folded: bool)
      modifies this`messages
      ensures folded == Folds(old(messages), summary, msg)
      ensures
        var n := |old(messages)|;
        messages ==
          if folded then old(messages)[n - 1 := old(messages)[n - 1].(content := summary.value)] else old(messages)
    {
      if !HasValue(msg.metadata, "tool_name", "entropic.complete") || messages == [] { return false; }
      var last := messages[|messages| - 1];
      if last.role != "assistant" || last.content != "" || summary.None? { return false; }
      messages := messages[|messages| - 1 := last.(content := summary.value)];
      folded := true;
    }

    /** Each result is folded or pushed; whether any tool really ran. */
    method PushToolResults(results: seq<ToolResult>) returns (progress: bool)
      modifies this`messages
      ensures messages == PushResults(old(messages), summary, results)
      ensures progress == Progressed(results)
    {
      progress := false;
      for i := 0 to |results|
        invariant summary == old(summary)
        invariant PushResults(messages, summary, results[i..]) == PushResults(old(messages), summary, results)
        invariant progress <==> exists j :: 0 <= j < i && IsProgress(results[j].message)
      {
        var r := results[i];
        assert results[i..][1..] == results[i + 1..];
        if IsProgress(r.message) { progress := true; }
        var folded := FoldCompleteIntoAssistant(r.message);
        if folded { continue; }
        messages := messages + [Defang(r)];
      }
    }

    method TakeDirectives(b: ToolBatch)
      modifies this
      ensures View() == Directed(old(View()), b)
    {
      delegation, pipeline := delegation || b.delegation, pipeline || b.pipeline;
      if b.summary.Some? { summary := b.summary; }
    }

    method ProcessToolResults(b: ToolBatch) returns (progress: bool)
      modifies this
      ensures View() == RunTools(old(View()), b) && progress == Progressed(b.results)
    {
      TakeDirectives(b);
      messages, duplicates := b.messages, b.duplicates;
      progress := PushToolResults(b.results);
      state := if Terminal(b.state) then b.state else Executing;
      if progress { retries := 0; }
    }

    method RecordExplicitCompletionFailure(p: PassInput)
      modifies this
      ensures View() == EmptyTurn(old(View()), p)
    {
      if retries >= p.ceiling {
        state := Error;
        return;
      }
      messages := messages + [Message("user", p.correction, map[])];
      retries := retries + 1;
      state := Executing;
    }

    method EvaluateNoToolDecision(p: PassInput)
      modifies this
      ensures View() == NoToolDecision(old(View()), p)
    {
      if p.finish.FinishInterrupted? {
        state := Interrupted;
      } else if p.finish.ContextOverflow? {
        state := Error;
      } else if p.finish.Length? {
        return;
      } else if p.autoChain && p.finish.Stop? && p.complete {
        if depth > 0 { state := Complete; }
      } else if p.explicit {
        RecordExplicitCompletionFailure(p);
      } else if p.complete {
        state := Complete;
      }
    }

    method DispatchPendingOrHalt(p: PassInput)
      modifies this
      ensures View() == DispatchPending(old(View()), p)
    {
      if p.interruptedAtDispatch && !Terminal(state) {
        state := Interrupted;
        return;
      }
      if Terminal(state) { return; }
      if delegation {
        iterations := iterations - 1;
        delegation := false;
      } else if pipeline {
        iterations := iterations - 1;
        pipeline := false;
      } else {
        return;
      }
      messages, state := p.dispatch.messages, p.dispatch.state;
      if p.dispatch.summary.Some? { summary := p.dispatch.summary; }
    }

    method AnswerTurn(p: PassInput) returns (progress: bool)
      requires !p.cancelled && !p.interruptedAtHead
      modifies this
      ensures View() == Answered(old(View()), p) && progress == MadeProgress(p)
    {
      progress := false;
      state := Executing;
      messages := p.history + [Message("assistant", p.content, map[])];
      if p.tools.Some? {
        progress := ProcessToolResults(p.tools.value);
      } else {
        EvaluateNoToolDecision(p);
      }
    }

    method ExecuteIteration(cfg: Config, p: PassInput)
      requires !p.interruptedAtHead
      modifies this
      ensures View() == Body(cfg, old(View()), p)
    {
      if p.cancelled {
        state, messages := Complete, p.history;
        return;
      }
      var progress := AnswerTurn(p);
      ChargeThinkingBudget(cfg, p, progress);
      DispatchPendingOrHalt(p);
    }

    method CountIteration()
      modifies this`iterations
      ensures View() == Counted(old(View()))
    {
      iterations := iterations + 1;
    }

    method SetState(s: AgentState)
      modifies this`state
      ensures View() == old(View()).(state := s)
    {
      state := s;
    }

    /** What follows the count: an interrupt at the head, or an iteration. */
    method RunCounted(cfg: Config, p: PassInput)
      modifies this
      ensures View() == Body(cfg, old(View()), p)
    {
      if p.interruptedAtHead {
        SetState(Interrupted);
      } else {
        ExecuteIteration(cfg, p);
      }
    }

    method TakePass(cfg: Config, p: PassInput)
      modifies this
      ensures View() == Pass(cfg, old(View()), p)
    {
      CountIteration();
      RunCounted(cfg, p);
    }

    /** `inputs` is what the environment contributes, pass by pass; the loop is
        `done` when it stopped before they ran out. */
    method Loop(cfg: Config, inputs: seq<PassInput>) returns (passes: nat, done: bool)
      modifies this
      ensures passes == Passes(cfg, old(View()), inputs)
      ensures
        var c := Run(cfg, old(View()), inputs);
        done == ShouldStop(cfg, c) && View() == if done then Settle(cfg, c) else c
    {
      passes := 0;
      var limit := ResolveMaxIterations(cfg);
      while passes < |inputs| && !(Terminal(state) || iterations >= limit || duplicates >= 3)
        invariant passes <= |inputs| && limit == Limit(cfg, View())
        invariant Run(cfg, View(), inputs[passes..]) == Run(cfg, old(View()), inputs)
        invariant passes + Passes(cfg, View(), inputs[passes..]) == Passes(cfg, old(View()), inputs)
      {
        assert inputs[passes..][1..] == inputs[passes + 1..];
        PassCounts(cfg, View(), inputs[passes]);
        TakePass(cfg, inputs[passes]);
        passes := passes + 1;
      }
      done := Terminal(state) || iterations >= limit || duplicates >= 3;
      if done && iterations >= limit && !Terminal(state) {
        FinishWithCarriedOutput(cfg.texts, CapReason(cfg.texts, iterations), cfg.texts.cap, Capped);
      }
    }

    method ExtractSummary() returns (text: string)
      ensures text == Summary(View())
    {
      if summary.Some? && summary.value != "" { return summary.value; }
      var i := |messages|;
      assert messages[..i] == messages;
      while i > 0
        invariant 0 <= i <= |messages|
        invariant LastReply(messages) == LastReply(messages[..i])
      {
        i := i - 1;
        assert messages[..i + 1][..i] == messages[..i];
        if messages[i].role == "assistant" && messages[i].content != "" { return messages[i].content; }
      }
      text := LastReply([]);
    }
  }
}
