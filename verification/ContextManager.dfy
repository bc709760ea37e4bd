/** Pruning, context warnings, anchors and compaction of a run's messages, and
    the tool evidence that the validator is shown. */
module ContextManager {
  import opened Messages
  import opened Compaction

  // ── Numbers as text ────────────────────────────────────────────────

  function IntText(n: int): string {
    if n < 0 then "-" + Decimal(-n) else Decimal(n)
  }

  /** The value of the leading digits of `s`, after `acc`. */
  function DigitsValue(s: string, acc: nat): nat {
    if s == "" || !IsDigit(s[0]) then acc else DigitsValue(s[1..], 10 * acc + (s[0] - '0') as nat)
  }

  const INT_MAX: int := 0x7FFF_FFFF

  /** std::stoi; None where it throws. */
  function Stoi(s: string): Option<int> {
    if s != "" && IsSpace(s[0]) then Stoi(s[1..])
    else
      var negative := s != "" && s[0] == '-';
      var digits := if s != "" && (s[0] == '-' || s[0] == '+') then s[1..] else s;
      if digits == "" || !IsDigit(digits[0]) then None
      else
        var value: int := DigitsValue(digits, 0) * if negative then -1 else 1;
        if -INT_MAX - 1 <= value <= INT_MAX then Some(value) else None
  }

  // ── Configuration and state ────────────────────────────────────────

  datatype Config = Config(
    enabled: bool, compactAt: real, warnAt: real, toolResultTtl: int, maxTokens: int, wording: Wording)

  function Fraction(used: nat, maxTokens: int): real {
    if maxTokens == 0 then 0.0 else used as real / maxTokens as real
  }

  function Usage(cfg: Config, ms: seq<Message>): real {
    Fraction(CountMessages(ms), cfg.maxTokens)
  }

  /** The token count from which compaction is due. */
  function Threshold(cfg: Config): int {
    Trunc(cfg.maxTokens as real * cfg.compactAt)
  }

  /** A run's messages, its metadata and iteration count, and the anchors. */
  datatype State = State(messages: seq<Message>, metadata: Metadata, iterations: int, anchors: map<string, string>)

  // ── Stubs ──────────────────────────────────────────────────────────

  predicate IsTool(m: Message) {
    "tool_name" in m.metadata
  }

  predicate IsStub(m: Message) {
    StartsWith(m.content, PRUNED_MARK)
  }

  /** The three bytes are an em dash. */
  function Stub(name: string, size: nat): (s: string)
    ensures StartsWith(s, PRUNED_MARK)
  {
    PRUNED_MARK + (" " + name + " result \U{E2}\U{80}\U{94} " + Decimal(size) + " chars, pruned]")
  }

  function Stubbed(m: Message): Message
    requires IsTool(m)
  {
    m.(content := Stub(m.metadata["tool_name"], |m.content|))
  }

  // ── Pruning on request ─────────────────────────────────────────────

  function ToolCount(ms: seq<Message>): nat {
    if ms == [] then 0 else (if IsTool(ms[0]) then 1 else 0) + ToolCount(ms[1..])
  }

  /** The fate of `m` when `later` messages follow it. */
  function PruneOne(m: Message, later: seq<Message>, keep: int): Message {
    if IsTool(m) && !IsStub(m) && 0 < keep <= ToolCount(later) then Stubbed(m) else m
  }

  function Prune(ms: seq<Message>, keep: int): seq<Message> {
    if ms == [] then [] else [PruneOne(ms[0], ms[1..], keep)] + Prune(ms[1..], keep)
  }

  // ── Pruning by age ─────────────────────────────────────────────────

  predicate Expired(m: Message, iterations: int, ttl: int) {
    && IsTool(m) && !IsStub(m) && "added_at_iteration" in m.metadata
    && var added := Stoi(m.metadata["added_at_iteration"]);
       added.Some? && iterations - added.value >= ttl
  }

  function Expire(m: Message, iterations: int, ttl: int): Message {
    if Expired(m, iterations, ttl)
    then Message(m.role, Stub(m.metadata["tool_name"], |m.content|), m.metadata["original_content" := m.content])
    else m
  }

  function ExpireAll(ms: seq<Message>, iterations: int, ttl: int): seq<Message> {
    if ms == [] then [] else [Expire(ms[0], iterations, ttl)] + ExpireAll(ms[1..], iterations, ttl)
  }

  // ── Anchors ────────────────────────────────────────────────────────

  predicate Anchors(m: Message, key: string) {
    HasValue(m.metadata, "anchor_key", key)
  }

  function RemoveAnchor(ms: seq<Message>, key: string): seq<Message> {
    if ms == [] then []
    else if Anchors(ms[0], key) then RemoveAnchor(ms[1..], key)
    else [ms[0]] + RemoveAnchor(ms[1..], key)
  }

  function AnchorMessage(key: string, content: string): Message {
    Message("user", content, map["is_context_anchor" := "true", "anchor_key" := key])
  }

  function SetAnchor(st: State, key: string, content: string): State {
    var rest := RemoveAnchor(st.messages, key);
    if content == "" then st.(messages := rest, anchors := st.anchors - {key})
    else st.(messages := rest + [AnchorMessage(key, content)], anchors := st.anchors[key := content])
  }

  /** Set again, in the order `keys`, the anchors found in `snapshot`. */
  function Reinject(st: State, snapshot: map<string, string>, keys: seq<string>): State
    decreases keys
  {
    if keys == [] then st
    else
      var st' := if keys[0] in snapshot then SetAnchor(st, keys[0], snapshot[keys[0]]) else st;
      Reinject(st', snapshot, keys[1..])
  }

  // ── Warnings and compaction ────────────────────────────────────────

  function WarningText(pct: int, used: int, limit: int): string {
    "[CONTEXT WARNING] Context at " + IntText(pct) + "% capacity (" + IntText(used) + "/" + IntText(limit) +
    " tokens). Capture findings with entropic.todo if needed, then call entropic.prune_context."
  }

  function Warning(cfg: Config, ms: seq<Message>): Message {
    Message("user", WarningText(Trunc(Usage(cfg, ms) * 100.0), CountMessages(ms), cfg.maxTokens), map[])
  }

  function Warn(cfg: Config, st: State): State {
    if Usage(cfg, st.messages) < cfg.warnAt then st
    else if HasValue(st.metadata, "last_warning_iteration", IntText(st.iterations)) then st
    else st.(messages := st.messages + [Warning(cfg, st.messages)],
             metadata := st.metadata["last_warning_iteration" := IntText(st.iterations)])
  }

  predicate CompactionDue(cfg: Config, ms: seq<Message>, force: bool) {
    cfg.enabled && (force || CountMessages(ms) >= Threshold(cfg))
  }

  /** `keys` is the order in which the unordered anchor table is walked. */
  function CheckCompaction(cfg: Config, st: State, force: bool, cancelled: bool, keys: seq<string>): State {
    if cancelled || !CompactionDue(cfg, st.messages, force) then st
    else Reinject(st.(messages := Compact(cfg.wording, st.messages)), st.anchors, keys)
  }

  function PruneOld(cfg: Config, st: State): State {
    if Usage(cfg, st.messages) < cfg.warnAt then st
    else st.(messages := ExpireAll(st.messages, st.iterations, cfg.toolResultTtl))
  }

  // ── The operations on a run ────────────────────────────────────────

  class LoopContext {
    var messages: seq<Message>
    var metadata: Metadata
    var iterations: int

    constructor (messages: seq<Message>)
      ensures this.messages == messages && metadata == map[] && iterations == 0
    {
      this.messages, metadata, iterations := messages, map[], 0;
    }
  }

  class Manager {
    const config: Config
    var anchors: map<string, string>

    constructor (config: Config)
      ensures this.config == config && anchors == map[]
    {
      this.config, anchors := config, map[];
    }

    ghost function StateOf(ctx: LoopContext): State
      reads this, ctx
    {
      State(ctx.messages, ctx.metadata, ctx.iterations, anchors)
    }

    method PruneToolResults(ctx: LoopContext, keepRecent: int)
      modifies ctx`messages
      ensures ctx.messages == Prune(old(ctx.messages), keepRecent)
    {
      var before := ctx.messages;
      var indices := ToolIndices(before);
      if keepRecent <= 0 || |indices| <= keepRecent {
        CountFrom(before, indices, 0, 0);
        assert before[0..] == before;
        PruneKeepsAll(before, keepRecent);
        return;
      }
      var cut := |indices| - keepRecent;
      for j := 0 to cut
        invariant |ctx.messages| == |before|
        invariant forall p :: 0 <= p < |before| ==>
          ctx.messages[p] ==
            if p in indices[..j] && !IsStub(before[p]) && IsTool(before[p]) then Stubbed(before[p]) else before[p]
      {
        var p := indices[j];
        assert indices[..j + 1] == indices[..j] + [p];
        var msg := ctx.messages[p];
        NotYetIn(indices, j);
        if !IsStub(msg) {
          ctx.messages := ctx.messages[p := Stubbed(msg)];
        }
      }
      PruneLength(before, keepRecent);
      forall p | 0 <= p < |before| ensures Prune(before, keepRecent)[p] == ctx.messages[p] {
        PruneAt(before, keepRecent, p);
        if IsTool(before[p]) { EarlyExactly(before, indices, cut, p); }
      }
    }

    method PruneOldToolResults(ctx: LoopContext)
      modifies ctx`messages
      ensures StateOf(ctx) == PruneOld(config, old(StateOf(ctx)))
    {
      var used := CountAll(ctx.messages);
      var usage := Fraction(used, config.maxTokens);
      if usage < config.warnAt { return; }
      var before, iterations, ttl := ctx.messages, ctx.iterations, config.toolResultTtl;
      for i := 0 to |before|
        invariant |ctx.messages| == |before|
        invariant forall p :: 0 <= p < |before| ==>
          ctx.messages[p] == if p < i then Expire(before[p], iterations, ttl) else before[p]
      {
        var msg := ctx.messages[i];
        if !IsTool(msg) || IsStub(msg) || "added_at_iteration" !in msg.metadata { continue; }
        var added := Stoi(msg.metadata["added_at_iteration"]);
        if added.None? || iterations - added.value < ttl { continue; }
        ctx.messages := ctx.messages[i :=
          Message(msg.role, Stub(msg.metadata["tool_name"], |msg.content|),
                  msg.metadata["original_content" := msg.content])];
      }
      ExpireAllAt(before, iterations, ttl);
      assert ctx.messages == ExpireAll(before, iterations, ttl);
    }

    method InjectContextWarning(ctx: LoopContext)
      modifies ctx`messages, ctx`metadata
      ensures StateOf(ctx) == Warn(config, old(StateOf(ctx)))
    {
      var used := CountAll(ctx.messages);
      var usage := Fraction(used, config.maxTokens);
      if usage < config.warnAt { return; }
      var iteration := IntText(ctx.iterations);
      if HasValue(ctx.metadata, "last_warning_iteration", iteration) { return; }
      var text := WarningText(Trunc(usage * 100.0), used, config.maxTokens);
      ctx.messages := ctx.messages + [Message("user", text, map[])];
      ctx.metadata := ctx.metadata["last_warning_iteration" := iteration];
    }

    method DirAnchor(ctx: LoopContext, key: string, content: string)
      modifies ctx`messages, this`anchors
      ensures StateOf(ctx) == SetAnchor(old(StateOf(ctx)), key, content)
    {
      var rest := [];
      for i := 0 to |ctx.messages|
        invariant ctx.messages == old(ctx.messages)
        invariant rest + RemoveAnchor(ctx.messages[i..], key) == RemoveAnchor(ctx.messages, key)
      {
        assert ctx.messages[i..][1..] == ctx.messages[i + 1..];
        if !Anchors(ctx.messages[i], key) { rest := rest + [ctx.messages[i]]; }
      }
      if content == "" {
        anchors := anchors - {key};
        ctx.messages := rest;
      } else {
        anchors := anchors[key := content];
        ctx.messages := rest + [AnchorMessage(key, content)];
      }
    }

    method ReinjectContextAnchors(ctx: LoopContext, keys: seq<string>)
      modifies ctx`messages, this`anchors
      ensures StateOf(ctx) == Reinject(old(StateOf(ctx)), old(anchors), keys)
    {
      var snapshot := anchors;
      for i := 0 to |keys|
        invariant ctx.metadata == old(ctx.metadata) && ctx.iterations == old(ctx.iterations)
        invariant Reinject(StateOf(ctx), snapshot, keys[i..]) == Reinject(old(StateOf(ctx)), snapshot, keys)
      {
        assert keys[i..][1..] == keys[i + 1..];
        if keys[i] in snapshot { DirAnchor(ctx, keys[i], snapshot[keys[i]]); }
      }
    }

    method CheckCompactionOf(ctx: LoopContext, force: bool, cancelled: bool, keys: seq<string>)
      modifies ctx`messages, this`anchors
      ensures StateOf(ctx) == CheckCompaction(config, old(StateOf(ctx)), force, cancelled, keys)
    {
      if cancelled { return; }
      var compacted, messages := CheckAndCompact(config, ctx.messages, force);
      ctx.messages := messages;
      if compacted { ReinjectContextAnchors(ctx, keys); }
    }
  }

  method CheckAndCompact(cfg: Config, messages: seq<Message>, force: bool)
      returns (compacted: bool, result: seq<Message>)
    ensures compacted == CompactionDue(cfg, messages, force)
    ensures result == if compacted then Compact(cfg.wording, messages) else messages
  {
    var current := CountAll(messages);
    if !force && current < Threshold(cfg) { return false, messages; }
    if !cfg.enabled { return false, messages; }
    var stripped;
    result, stripped := CompactList(cfg.wording, messages);
    compacted := true;
  }

  // ── Lemmas behind the loops ────────────────────────────────────────

  ghost predicate Increasing(xs: seq<nat>) {
    forall a, b :: 0 <= a < b < |xs| ==> xs[a] < xs[b]
  }

  /** `xs` are the positions of the tool messages of `ms`, in order. */
  ghost predicate ToolPositions(ms: seq<Message>, xs: seq<nat>) {
    && Increasing(xs)
    && (forall a :: 0 <= a < |xs| ==> xs[a] < |ms| && IsTool(ms[xs[a]]))
    && (forall p :: 0 <= p < |ms| && IsTool(ms[p]) ==> p in xs)
  }

  method ToolIndices(ms: seq<Message>) returns (indices: seq<nat>)
    ensures ToolPositions(ms, indices)
  {
    indices := [];
    for i := 0 to |ms|
      invariant Increasing(indices)
      invariant forall a :: 0 <= a < |indices| ==> indices[a] < i && IsTool(ms[indices[a]])
      invariant forall p :: 0 <= p < i && IsTool(ms[p]) ==> p in indices
    {
      if IsTool(ms[i]) { indices := indices + [i]; }
    }
  }

  lemma {:induction false} StrictlyLater(xs: seq<nat>, a: nat, b: nat)
    requires Increasing(xs)
    ensures a < b < |xs| ==> xs[a] < xs[b]
  {
  }

  lemma {:induction false} NoneLeft(xs: seq<nat>, a: nat, p: nat)
    requires a <= |xs| && forall b :: 0 <= b < |xs| ==> xs[b] < p
    ensures (forall b :: a <= b < |xs| ==> p <= xs[b]) ==> a == |xs|
  {
    if a < |xs| { assert xs[a] < p; }
  }

  lemma {:induction false} NotYetIn(xs: seq<nat>, j: nat)
    requires Increasing(xs) && j < |xs|
    ensures xs[j] !in xs[..j]
  {
  }

  /** Tool messages from position `p` on, counted through their positions. */
  lemma {:induction false} CountFrom(ms: seq<Message>, xs: seq<nat>, p: nat, a: nat)
    requires ToolPositions(ms, xs) && p <= |ms| && a <= |xs|
    requires forall b :: 0 <= b < a ==> xs[b] < p
    requires forall b :: a <= b < |xs| ==> p <= xs[b]
    ensures ToolCount(ms[p..]) == |xs| - a
    decreases |ms| - p
  {
    if p < |ms| {
      assert ms[p..][1..] == ms[p + 1..];
      if IsTool(ms[p]) {
        var b :| 0 <= b < |xs| && xs[b] == p;
        StrictlyLater(xs, a, b);
        CountFrom(ms, xs, p + 1, a + 1);
      } else {
        CountFrom(ms, xs, p + 1, a);
      }
    } else {
      NoneLeft(xs, a, p);
    }
  }

  lemma {:induction false} EarlyExactly(ms: seq<Message>, xs: seq<nat>, cut: nat, p: nat)
    requires ToolPositions(ms, xs) && cut <= |xs| && p < |ms| && IsTool(ms[p])
    ensures p in xs[..cut] <==> ToolCount(ms[p + 1..]) >= |xs| - cut
  {
    var a :| 0 <= a < |xs| && xs[a] == p;
    CountFrom(ms, xs, p + 1, a + 1);
    if a < cut {
      assert xs[..cut][a] == p;
    } else {
      forall b | 0 <= b < cut ensures xs[..cut][b] != p { assert xs[b] < xs[a]; }
    }
  }

  lemma {:induction false} PruneLength(ms: seq<Message>, keep: int)
    ensures |Prune(ms, keep)| == |ms|
  {
    if ms != [] { PruneLength(ms[1..], keep); }
  }

  lemma {:induction false} PruneAt(ms: seq<Message>, keep: int, p: nat)
    requires p < |ms|
    ensures |Prune(ms, keep)| == |ms| && Prune(ms, keep)[p] == PruneOne(ms[p], ms[p + 1..], keep)
  {
    PruneLength(ms, keep);
    if p > 0 {
      PruneAt(ms[1..], keep, p - 1);
      assert ms[1..][p..] == ms[p + 1..];
    }
  }

  lemma {:induction false} PruneKeepsAll(ms: seq<Message>, keep: int)
    requires keep <= 0 || ToolCount(ms) <= keep
    ensures Prune(ms, keep) == ms
  {
    if ms != [] { PruneKeepsAll(ms[1..], keep); }
  }

  lemma {:induction false} ExpireAllAt(ms: seq<Message>, iterations: int, ttl: int)
    ensures |ExpireAll(ms, iterations, ttl)| == |ms|
    ensures forall p :: 0 <= p < |ms| ==> ExpireAll(ms, iterations, ttl)[p] == Expire(ms[p], iterations, ttl)
  {
    if ms != [] {
      ExpireAllAt(ms[1..], iterations, ttl);
      assert forall p :: 0 < p < |ms| ==> ms[p] == ms[1..][p - 1];
    }
  }
}
