/** The agent loop: what one pass does to a run's context, the three budgets
    that bound it, and what a parent is told about a child that ran out. */
module AgentLoop {
  import opened Messages

  datatype AgentState =
    Idle | Planning | Executing | WaitingTool | Verifying | Delegating | Complete | Error | Interrupted | Paused

  datatype FinishReason = FinishInterrupted | ContextOverflow | Length | Stop | OtherFinish

  datatype BudgetMode = Off | Tokens | WallClock

  /** The terminal_reason a run's metadata may carry: none, "budget_exhausted"
      or "budget_exhausted_thinking". */
  datatype TerminalReason = NoReason | Capped | Cut

  /** The wording of the messages that the engine itself writes. */
  datatype Texts = Texts(capBefore: string, capAfter: string, cutReason: string,
                         nothing: string, carried: string, cap: string, cut: string, nudge: string)

  datatype Config = Config(maxIterations: int, budgetMode: BudgetMode, budgetLimit: int, texts: Texts)

  /** A run's context. `delegatedMaxTurns` is below 1 when none was asked for,
      `windowStart` zero when no window of the wall-clock budget is open. */
  datatype Context = Context(
    state: AgentState, iterations: int, duplicates: int, depth: nat,
    effectiveMax: int, delegatedMaxTurns: int,
    messages: seq<Message>, summary: Option<string>, terminalReason: TerminalReason,
    retries: nat, spent: int, windowStart: real, nudged: bool, delegation: bool, pipeline: bool)

  // ── What the environment contributes to a pass ─────────────────────

  /** A tool's result message, and what its text becomes when it is a directive
      of the engine's own: itself, or a note in place of a call-shaped text. */
  datatype ToolResult = ToolResult(message: Message, defanged: string)

  /** What the executor makes of a batch of tool calls: its results, and what the
      directives among them do to the context. */
  datatype ToolBatch = ToolBatch(
    results: seq<ToolResult>, messages: seq<Message>, state: AgentState, duplicates: int,
    delegation: bool, pipeline: bool, summary: Option<string>)

  /** What a dispatched delegation or pipeline leaves behind. */
  datatype Dispatch = Dispatch(messages: seq<Message>, state: AgentState, summary: Option<string>)

  /** The clock when a budget window opens, when it is read, and when a nudge
      starts the next one. */
  datatype Clock = Clock(opening: real, reading: real, nudging: real)

  /** `history` is what hooks, pruning, compaction and generation make of the
      messages; the middle fields are the model's answer and its tier's
      settings. */
  datatype PassInput = PassInput(
    interruptedAtHead: bool, history: seq<Message>, cancelled: bool,
    content: string, rawLength: nat, clock: Clock, tools: Option<ToolBatch>,
    finish: FinishReason, complete: bool, autoChain: bool, explicit: bool, ceiling: int, correction: string,
    interruptedAtDispatch: bool, dispatch: Dispatch)

  // ── Limits ─────────────────────────────────────────────────────────

  function Min(a: int, b: int): int {
    if a <= b then a else b
  }

  function Limit(cfg: Config, c: Context): int {
    var operator := if c.effectiveMax >= 0 then c.effectiveMax else cfg.maxIterations;
    if c.delegatedMaxTurns < 1 then operator else Min(operator, c.delegatedMaxTurns)
  }

  predicate Terminal(s: AgentState) {
    s.Complete? || s.Error? || s.Interrupted?
  }

  predicate ShouldStop(cfg: Config, c: Context) {
    Terminal(c.state) || c.iterations >= Limit(cfg, c) || c.duplicates >= 3
  }

  // ── Forced completion ──────────────────────────────────────────────

  predicate Blank(text: string) {
    forall i :: 0 <= i < |text| ==> text[i] == ' ' || text[i] == '\t' || text[i] == '\r' || text[i] == '\n'
  }

  predicate Substantive(m: Message) {
    m.role == "assistant" && !Blank(m.content)
  }

  function LastSubstantive(ms: seq<Message>): string {
    if ms == [] then ""
    else if Substantive(ms[|ms| - 1]) then ms[|ms| - 1].content
    else LastSubstantive(ms[..|ms| - 1])
  }

  function Annotate(t: Texts, carried: string, reason: string, noun: string): (r: string)
    ensures r != "" && StartsWith(r, carried)
  {
    if carried == "" then "[" + reason + t.nothing + noun + "]"
    else carried + ("\n\n[" + reason + t.carried)
  }

  function Forced(t: Texts, ms: seq<Message>, reason: string, noun: string): Message {
    Message("assistant", Annotate(t, LastSubstantive(ms), reason, noun), map[])
  }

  function ForceStop(t: Texts, c: Context, reason: string, noun: string, terminalReason: TerminalReason): Context {
    c.(messages := c.messages + [Forced(t, c.messages, reason, noun)],
       terminalReason := terminalReason, state := Complete)
  }

  // ── Thinking budget ────────────────────────────────────────────────

  function Units(p: PassInput): nat {
    p.rawLength / 4
  }

  /** The context with this pass charged to its window. */
  function Accumulate(cfg: Config, c: Context, p: PassInput): Context {
    if cfg.budgetMode.Tokens? then c.(spent := c.spent + Units(p))
    else if c.windowStart == 0.0 then c.(windowStart := p.clock.opening)
    else c
  }

  /** The units used in the window, this pass included. */
  function Used(cfg: Config, c: Context, p: PassInput): int {
    if cfg.budgetMode.Tokens? then c.spent + Units(p)
    else Trunc(p.clock.reading - if c.windowStart == 0.0 then p.clock.opening else c.windowStart)
  }

  function Nudge(cfg: Config, c: Context, p: PassInput): Context {
    c.(spent := 0, windowStart := if cfg.budgetMode.WallClock? then p.clock.nudging else 0.0, nudged := true,
       messages := c.messages + [Message("user", cfg.texts.nudge, map[])])
  }

  function Charge(cfg: Config, c: Context, p: PassInput): (r: Context)
    ensures SameLimits(r, c) && r.iterations == c.iterations && r.retries == c.retries
    ensures r.state == c.state || r.state == Complete
  {
    if cfg.budgetMode.Off? then c
    else if MadeProgress(p) then c.(spent := 0, windowStart := 0.0, nudged := false)
    else
      var c1 := Accumulate(cfg, c, p);
      if Used(cfg, c, p) < cfg.budgetLimit then c1
      else if !c.nudged then Nudge(cfg, c1, p)
      else ForceStop(cfg.texts, c1, cfg.texts.cutReason, cfg.texts.cut, Cut)
  }

  // ── One pass ───────────────────────────────────────────────────────

  predicate SameLimits(c: Context, d: Context) {
    c.effectiveMax == d.effectiveMax && c.delegatedMaxTurns == d.delegatedMaxTurns
  }

  /** A tool that really ran, as opposed to one refused. */
  predicate IsProgress(m: Message) {
    HasValue(m.metadata, "result_kind", "ok") || HasValue(m.metadata, "result_kind", "ok_empty")
  }

  predicate Progressed(results: seq<ToolResult>) {
    exists i :: 0 <= i < |results| && IsProgress(results[i].message)
  }

  /** The summary of a completion goes into the empty reply it came with. */
  predicate Folds(ms: seq<Message>, summary: Option<string>, m: Message) {
    && HasValue(m.metadata, "tool_name", "entropic.complete") && summary.Some?
    && ms != [] && ms[|ms| - 1].role == "assistant" && ms[|ms| - 1].content == ""
  }

  function Defang(r: ToolResult): Message {
    if "tool_name" in r.message.metadata && StartsWith(r.message.metadata["tool_name"], "entropic.")
    then r.message.(content := r.defanged) else r.message
  }

  function PushResult(ms: seq<Message>, summary: Option<string>, r: ToolResult): seq<Message> {
    if Folds(ms, summary, r.message) then ms[|ms| - 1 := ms[|ms| - 1].(content := summary.value)] else ms + [Defang(r)]
  }

  function PushResults(ms: seq<Message>, summary: Option<string>, rs: seq<ToolResult>): seq<Message>
    decreases rs
  {
    if rs == [] then ms else PushResults(PushResult(ms, summary, rs[0]), summary, rs[1..])
  }

  /** The directives among the results: what to dispatch, and the summary. */
  function Directed(c: Context, b: ToolBatch): Context {
    c.(delegation := c.delegation || b.delegation, pipeline := c.pipeline || b.pipeline,
       summary := if b.summary.Some? then b.summary else c.summary)
  }

  function RunTools(c: Context, b: ToolBatch): Context {
    var d := Directed(c, b);
    d.(messages := PushResults(b.messages, d.summary, b.results), duplicates := b.duplicates,
       state := if Terminal(b.state) then b.state else Executing,
       retries := if Progressed(b.results) then 0 else c.retries)
  }

  function EmptyTurn(c: Context, p: PassInput): Context {
    if c.retries >= p.ceiling then c.(state := Error)
    else c.(messages := c.messages + [Message("user", p.correction, map[])],
            retries := c.retries + 1, state := Executing)
  }

  /** The pass is an empty turn of a tier that must end in a tool call. */
  predicate IsEmptyTurn(p: PassInput) {
    && !p.cancelled && !p.interruptedAtHead && p.tools.None? && p.explicit
    && (p.finish.Stop? || p.finish.OtherFinish?) && !(p.autoChain && p.finish.Stop? && p.complete)
  }

  function NoToolDecision(c: Context, p: PassInput): Context {
    match p.finish
    case FinishInterrupted => c.(state := Interrupted)
    case ContextOverflow => c.(state := Error)
    case Length => c
    case _ =>
      if p.autoChain && p.finish.Stop? && p.complete then (if c.depth > 0 then c.(state := Complete) else c)
      else if p.explicit then EmptyTurn(c, p)
      else if p.complete then c.(state := Complete)
      else c
  }

  predicate MadeProgress(p: PassInput) {
    !p.cancelled && !p.interruptedAtHead && p.tools.Some? && Progressed(p.tools.value.results)
  }

  /** The context after the model's answer, before the budget is charged. */
  function Answered(c: Context, p: PassInput): (r: Context)
    ensures SameLimits(r, c) && r.iterations == c.iterations && r.terminalReason == c.terminalReason
    ensures r.spent == c.spent && r.windowStart == c.windowStart && r.nudged == c.nudged
  {
    var c1 := c.(state := Executing, messages := p.history + [Message("assistant", p.content, map[])]);
    if p.tools.Some? then RunTools(c1, p.tools.value) else NoToolDecision(c1, p)
  }

  /** The pass comes to dispatching a delegation or a pipeline. */
  predicate Dispatches(c: Context, p: PassInput) {
    !p.interruptedAtDispatch && !Terminal(c.state) && (c.delegation || c.pipeline)
  }

  function DispatchPending(c: Context, p: PassInput): (r: Context)
    ensures SameLimits(r, c) && r.iterations == c.iterations - if Dispatches(c, p) then 1 else 0
    ensures r.spent == c.spent && r.windowStart == c.windowStart && r.nudged == c.nudged && r.retries == c.retries
    ensures Terminal(c.state) ==> r == c
  {
    if p.interruptedAtDispatch && !Terminal(c.state) then c.(state := Interrupted)
    else if !Dispatches(c, p) then c
    else
      var d := p.dispatch;
      c.(iterations := c.iterations - 1, messages := d.messages, state := d.state,
         summary := if d.summary.Some? then d.summary else c.summary,
         delegation := false, pipeline := c.delegation && c.pipeline)
  }

  function Charged(cfg: Config, c: Context, p: PassInput): Context {
    Charge(cfg, Answered(c, p), p)
  }

  /** What a pass leaves once its iteration has been counted. */
  function Body(cfg: Config, c: Context, p: PassInput): Context {
    if p.interruptedAtHead then c.(state := Interrupted)
    else if p.cancelled then c.(state := Complete, messages := p.history)
    else DispatchPending(Charged(cfg, c, p), p)
  }

  function Counted(c: Context): Context {
    c.(iterations := c.iterations + 1)
  }

  function Pass(cfg: Config, c: Context, p: PassInput): Context {
    Body(cfg, Counted(c), p)
  }

  predicate PassDispatches(cfg: Config, c: Context, p: PassInput) {
    !p.interruptedAtHead && !p.cancelled && Dispatches(Charged(cfg, Counted(c), p), p)
  }

  // ── The loop ───────────────────────────────────────────────────────

  /** The context after as many of the passes as the loop takes. */
  function Run(cfg: Config, c: Context, inputs: seq<PassInput>): Context
    decreases inputs
  {
    if inputs == [] || ShouldStop(cfg, c) then c else Run(cfg, Pass(cfg, c, inputs[0]), inputs[1..])
  }

  function CapReason(t: Texts, iterations: int): string {
    t.capBefore + (if iterations < 0 then "-" + Decimal(-iterations) else Decimal(iterations)) + t.capAfter
  }

  /** What is done after the loop. */
  function Settle(cfg: Config, c: Context): Context {
    if c.iterations >= Limit(cfg, c) && !Terminal(c.state)
    then ForceStop(cfg.texts, c, CapReason(cfg.texts, c.iterations), cfg.texts.cap, Capped)
    else c
  }

  // ── What the parent is told ────────────────────────────────────────

  predicate Success(c: Context) {
    c.state.Complete? && c.terminalReason == NoReason
  }

  function LastReply(ms: seq<Message>): string {
    if ms == [] then "(No response from delegate)"
    else if ms[|ms| - 1].role == "assistant" && ms[|ms| - 1].content != "" then ms[|ms| - 1].content
    else LastReply(ms[..|ms| - 1])
  }

  predicate Explained(c: Context) {
    c.summary.Some? && c.summary.value != ""
  }

  function Summary(c: Context): string {
    if Explained(c) then c.summary.value else LastReply(c.messages)
  }

  // ── Counting passes ────────────────────────────────────────────────

  function Passes(cfg: Config, c: Context, inputs: seq<PassInput>): nat
    decreases inputs
  {
    if inputs == [] || ShouldStop(cfg, c) then 0 else 1 + Passes(cfg, Pass(cfg, c, inputs[0]), inputs[1..])
  }

  function Dispatched(cfg: Config, c: Context, inputs: seq<PassInput>): nat
    decreases inputs
  {
    if inputs == [] || ShouldStop(cfg, c) then 0
    else (if PassDispatches(cfg, c, inputs[0]) then 1 else 0) + Dispatched(cfg, Pass(cfg, c, inputs[0]), inputs[1..])
  }

  /** A pass costs one iteration, unless it dispatches. */
  lemma {:induction false} PassCounts(cfg: Config, c: Context, p: PassInput)
    ensures Pass(cfg, c, p).iterations == c.iterations + if PassDispatches(cfg, c, p) then 0 else 1
    ensures Limit(cfg, Pass(cfg, c, p)) == Limit(cfg, c)
  {
  }

  /** In every run, iterations are passes less dispatches and never exceed the
      limit, so the passes are at most the limit plus the dispatches. */
  lemma {:induction false} IterationsAreBounded(cfg: Config, c: Context, inputs: seq<PassInput>)
    requires c.iterations >= 0
    ensures
      var c', passes, dispatches := Run(cfg, c, inputs), Passes(cfg, c, inputs), Dispatched(cfg, c, inputs);
      && c'.iterations == c.iterations + passes - dispatches
      && 0 <= c'.iterations
      && (c'.iterations <= Limit(cfg, c) || c'.iterations == c.iterations)
      && (c.iterations <= Limit(cfg, c) ==> passes <= Limit(cfg, c) + dispatches)
    decreases inputs
  {
    if inputs != [] && !ShouldStop(cfg, c) {
      PassCounts(cfg, c, inputs[0]);
      IterationsAreBounded(cfg, Pass(cfg, c, inputs[0]), inputs[1..]);
    }
  }

  /** A child's requested number of turns can lower its limit, never raise it. */
  lemma {:induction false} MaxTurnsOnlyLowers(cfg: Config, c: Context, turns: int)
    ensures Limit(cfg, c.(delegatedMaxTurns := turns)) <= Limit(cfg, c.(delegatedMaxTurns := -1))
    ensures turns >= 1 ==> Limit(cfg, c.(delegatedMaxTurns := turns)) <= turns
    ensures Limit(cfg, c.(delegatedMaxTurns := -1)) <= turns ==>
              Limit(cfg, c.(delegatedMaxTurns := turns)) == Limit(cfg, c.(delegatedMaxTurns := -1))
  {
  }

  /** And it binds: a fresh child takes no more passes than requested, but for
      one for each dispatch. */
  lemma {:induction false} MaxTurnsBind(cfg: Config, c: Context, inputs: seq<PassInput>)
    requires c.iterations == 0 && c.delegatedMaxTurns >= 1
    ensures Passes(cfg, c, inputs) <= c.delegatedMaxTurns + Dispatched(cfg, c, inputs)
  {
    IterationsAreBounded(cfg, c, inputs);
    MaxTurnsOnlyLowers(cfg, c, c.delegatedMaxTurns);
  }

  /** The loop goes on until it should stop, and it is left only in a terminal
      state or for three duplicates. */
  lemma {:induction false} LoopExits(cfg: Config, c: Context, inputs: seq<PassInput>)
    ensures
      var c' := Run(cfg, c, inputs);
      && Passes(cfg, c, inputs) <= |inputs|
      && (Passes(cfg, c, inputs) < |inputs| ==> ShouldStop(cfg, c'))
      && (ShouldStop(cfg, c') ==>
            Terminal(Settle(cfg, c').state) || (c'.duplicates >= 3 && Settle(cfg, c') == c'))
    decreases inputs
  {
    if inputs != [] && !ShouldStop(cfg, c) {
      LoopExits(cfg, Pass(cfg, c, inputs[0]), inputs[1..]);
    }
  }
}
