/** What the model sees of a batch of tool results. */
module ToolBatches {
  import opened Messages
  import opened AgentLoop

  // ── One result ─────────────────────────────────────────────────────

  predicate NamesCompletion(r: ToolResult) {
    HasValue(r.message.metadata, "tool_name", "entropic.complete")
  }

  /** The result of a tool of the engine's own. */
  predicate IsEngineTool(m: Message) {
    "tool_name" in m.metadata && "entropic." <= m.metadata["tool_name"]
  }

  /** `m` is what the model is shown of `r`. */
  predicate Shows(m: Message, r: ToolResult) {
    && m.role == r.message.role && m.metadata == r.message.metadata
    && m.content == if IsEngineTool(r.message) then r.defanged else r.message.content
  }

  /** `ms` shows all of `rs`, in order, and nothing else. */
  ghost predicate ShowsAll(ms: seq<Message>, rs: seq<ToolResult>) {
    |ms| == |rs| && forall i :: 0 <= i < |rs| ==> Shows(ms[i], rs[i])
  }

  predicate EmptyReply(m: Message) {
    m.role == "assistant" && m.content == ""
  }

  predicate EndsEmpty(ms: seq<Message>) {
    ms != [] && EmptyReply(ms[|ms| - 1])
  }

  lemma {:induction false} OneShown(ms: seq<Message>, summary: Option<string>, r: ToolResult)
    ensures
      var next := PushResult(ms, summary, r);
      if NamesCompletion(r) && summary.Some? && EndsEmpty(ms)
      then next == ms[|ms| - 1 := ms[|ms| - 1].(content := summary.value)]
      else |next| == |ms| + 1 && next[..|ms|] == ms && Shows(next[|ms|], r)
  {
  }

  // ── Batches without a completion ───────────────────────────────────

  /** Nothing is folded from here on: no result names a completion, or there is no
      summary, or neither the last message nor any result is an empty reply. */
  ghost predicate NoFold(ms: seq<Message>, summary: Option<string>, rs: seq<ToolResult>) {
    || (forall r :: r in rs ==> !NamesCompletion(r))
    || summary.None?
    || (!EndsEmpty(ms) && forall r, m :: r in rs && Shows(m, r) ==> !EmptyReply(m))
  }

  /** Every result reaches the model, in order, after the messages there were. */
  lemma {:induction false} ResultsAreShown(ms: seq<Message>, summary: Option<string>, rs: seq<ToolResult>)
    requires NoFold(ms, summary, rs)
    ensures
      var out := PushResults(ms, summary, rs);
      ms <= out && ShowsAll(out[|ms|..], rs)
    decreases rs
  {
    if rs != [] {
      OneShown(ms, summary, rs[0]);
      var next := PushResult(ms, summary, rs[0]);
      assert NoFold(next, summary, rs[1..]) by { StillNoFold(ms, summary, rs, next); }
      ResultsAreShown(next, summary, rs[1..]);
      ShownThen(ms, next, PushResults(ms, summary, rs), rs);
    }
  }

  lemma {:induction false} StillNoFold(ms: seq<Message>, summary: Option<string>, rs: seq<ToolResult>,
                                       next: seq<Message>)
    requires NoFold(ms, summary, rs) && rs != [] && |next| == |ms| + 1 && Shows(next[|ms|], rs[0])
    ensures NoFold(next, summary, rs[1..])
  {
  }

  // ── Any batch ──────────────────────────────────────────────────────

  function One(yes: bool): nat {
    if yes then 1 else 0
  }

  /** How many results are folded into the reply they came with. */
  function Folded(ms: seq<Message>, summary: Option<string>, rs: seq<ToolResult>): nat
    decreases rs
  {
    if rs == [] then 0
    else One(NamesCompletion(rs[0]) && summary.Some? && EndsEmpty(ms)) +
         Folded(PushResult(ms, summary, rs[0]), summary, rs[1..])
  }

  /** Results that are themselves shown as empty replies. */
  function EmptyResults(rs: seq<ToolResult>): nat {
    if rs == [] then 0
    else
      var m := rs[0].message;
      One(m.role == "assistant" && "" == if IsEngineTool(m) then rs[0].defanged else m.content) + EmptyResults(rs[1..])
  }

  /** The messages before the last stay, and the last one does too, but for an
      empty reply that the summary has filled. */
  ghost predicate Extends(out: seq<Message>, ms: seq<Message>, summary: Option<string>) {
    && |ms| <= |out| && (forall i :: 0 <= i < |ms| - 1 ==> out[i] == ms[i])
    && (ms != [] ==>
          var last := ms[|ms| - 1];
          out[|ms| - 1] == last ||
          (EmptyReply(last) && summary.Some? && out[|ms| - 1] == last.(content := summary.value)))
  }

  /** A batch adds its results less those folded, and of the messages before it
      changes at most an empty last reply. Unless the summary is empty, a reply
      takes at most one result. */
  lemma {:induction false} BatchGrows(ms: seq<Message>, summary: Option<string>, rs: seq<ToolResult>)
    ensures
      var out := PushResults(ms, summary, rs);
      && |out| + Folded(ms, summary, rs) == |ms| + |rs|
      && Extends(out, ms, summary)
      && (summary != Some("") ==> Folded(ms, summary, rs) <= One(EndsEmpty(ms)) + EmptyResults(rs))
    decreases rs
  {
    if rs != [] {
      OneShown(ms, summary, rs[0]);
      var next := PushResult(ms, summary, rs[0]);
      BatchGrows(next, summary, rs[1..]);
      ExtendsStep(PushResults(ms, summary, rs), ms, next, summary);
    }
  }

  lemma {:induction false} ExtendsStep(out: seq<Message>, ms: seq<Message>, next: seq<Message>,
                                       summary: Option<string>)
    requires Extends(out, next, summary) && Extends(next, ms, summary)
    ensures Extends(out, ms, summary)
  {
    if ms != [] && |next| > |ms| { assert out[|ms| - 1] == next[|ms| - 1]; }
  }

  /** With an empty summary, completions vanish, however many there are. */
  lemma {:induction false} EmptySummarySwallows(ms: seq<Message>, rs: seq<ToolResult>)
    requires EndsEmpty(ms) && forall r :: r in rs ==> NamesCompletion(r)
    ensures PushResults(ms, Some(""), rs) == ms
    decreases rs
  {
    if rs != [] {
      OneShown(ms, Some(""), rs[0]);
      assert ms[|ms| - 1 := ms[|ms| - 1].(content := "")] == ms;
      EmptySummarySwallows(ms, rs[1..]);
    }
  }

  lemma {:induction false} NoneShownEmpty(rs: seq<ToolResult>)
    ensures EmptyResults(rs) == 0 ==> forall r, m :: r in rs && Shows(m, r) ==> !EmptyReply(m)
  {
    if rs != [] {
      NoneShownEmpty(rs[1..]);
      assert forall r :: r in rs ==> r == rs[0] || r in rs[1..];
    }
  }

  /** A batch whose first result completes the turn, after an empty reply: the
      reply gets the summary, and the other results follow. In every other batch
      all the results follow. */
  lemma {:induction false} BatchExactly(ms: seq<Message>, summary: Option<string>, rs: seq<ToolResult>)
    requires summary != Some("") && EmptyResults(rs) == 0
    ensures
      var out := PushResults(ms, summary, rs);
      if rs != [] && NamesCompletion(rs[0]) && summary.Some? && EndsEmpty(ms)
      then
        && |out| >= |ms| && out[..|ms| - 1] == ms[..|ms| - 1]
        && out[|ms| - 1] == ms[|ms| - 1].(content := summary.value)
        && ShowsAll(out[|ms|..], rs[1..])
      else ms <= out && ShowsAll(out[|ms|..], rs)
  {
    NoneShownEmpty(rs);
    if rs != [] && EndsEmpty(ms) {
      OneShown(ms, summary, rs[0]);
      var next := PushResult(ms, summary, rs[0]);
      assert NoFold(next, summary, rs[1..]);
      ResultsAreShown(next, summary, rs[1..]);
      if |next| > |ms| { ShownThen(ms, next, PushResults(ms, summary, rs), rs); }
    } else {
      ResultsAreShown(ms, summary, rs);
    }
  }

  /** One result and then the others. */
  lemma {:induction false} ShownThen(ms: seq<Message>, next: seq<Message>, out: seq<Message>, rs: seq<ToolResult>)
    requires rs != [] && |next| == |ms| + 1 && next[..|ms|] == ms && Shows(next[|ms|], rs[0])
    requires next <= out && ShowsAll(out[|next|..], rs[1..])
    ensures ms <= out && ShowsAll(out[|ms|..], rs)
  {
    assert out[|ms|] == next[|ms|];
    assert forall i :: 1 <= i < |rs| ==> out[|ms|..][i] == out[|next|..][i - 1];
  }

  // ── A pass ─────────────────────────────────────────────────────────

  /** The summary in force while a batch is pushed. */
  function SummaryIn(c: Context, b: ToolBatch): Option<string> {
    if b.summary.Some? then b.summary else c.summary
  }

  lemma {:induction false} AnsweredWithTools(c: Context, p: PassInput)
    requires p.tools.Some?
    ensures
      var b := p.tools.value;
      Answered(c, p).messages == PushResults(b.messages, SummaryIn(c, b), b.results)
  {
  }

  lemma {:induction false} ChargeAdds(cfg: Config, c: Context, p: PassInput)
    ensures c.messages <= Charge(cfg, c, p).messages && |Charge(cfg, c, p).messages| <= |c.messages| + 1
  {
  }

  /** After a pass with tools that dispatches nothing, the messages begin with
      what the executor left, the results pushed onto it; the budget may add one. */
  lemma {:induction false} PassShowsResults(cfg: Config, c: Context, p: PassInput)
    requires !p.interruptedAtHead && !p.cancelled && p.tools.Some? && !PassDispatches(cfg, c, p)
    ensures
      var b, out := p.tools.value, Pass(cfg, c, p).messages;
      var shown := PushResults(b.messages, SummaryIn(c, b), b.results);
      shown <= out && |out| <= |shown| + 1
  {
    AnsweredWithTools(Counted(c), p);
    ChargeAdds(cfg, Answered(Counted(c), p), p);
    assert Pass(cfg, c, p).messages == Charged(cfg, Counted(c), p).messages;
  }
}
