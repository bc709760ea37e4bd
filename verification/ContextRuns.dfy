/** What whole runs of context operations keep: the messages tagged as the
    user's, and the evidence that the validator is shown. */
module ContextRuns {
  import opened Messages
  import opened Compaction
  import opened ContextManager

  // ── The operations, in any order ───────────────────────────────────

  datatype Op =
    | CompactIfDue(force: bool, cancelled: bool, keys: seq<string>)
    | PruneTo(keepRecent: int)
    | PruneExpired
    | WarnIfFull
    | Anchor(key: string, content: string)
    | Reanchor(keys: seq<string>)
    | Append(message: Message)
    | AdvanceTo(iterations: int)

  function Apply(cfg: Config, st: State, op: Op): State {
    match op
    case CompactIfDue(force, cancelled, keys) => CheckCompaction(cfg, st, force, cancelled, keys)
    case PruneTo(keep) => st.(messages := Prune(st.messages, keep))
    case PruneExpired => PruneOld(cfg, st)
    case WarnIfFull => Warn(cfg, st)
    case Anchor(key, content) => SetAnchor(st, key, content)
    case Reanchor(keys) => Reinject(st, st.anchors, keys)
    case Append(m) => st.(messages := st.messages + [m])
    case AdvanceTo(n) => st.(iterations := n)
  }

  function Run(cfg: Config, st: State, ops: seq<Op>): State
    decreases ops
  {
    if ops == [] then st else Run(cfg, Apply(cfg, st, ops[0]), ops[1..])
  }

  /** The messages that a run adds from outside. */
  function Appended(ops: seq<Op>): seq<Message> {
    if ops == [] then []
    else if ops[0].Append? then [ops[0].message] + Appended(ops[1..])
    else Appended(ops[1..])
  }

  // ── What pruning and anchors leave alone ───────────────────────────

  /** The messages that satisfy `p`, in order. */
  function Only(p: Message -> bool, ms: seq<Message>): seq<Message> {
    if ms == [] then []
    else if p(ms[0]) then [ms[0]] + Only(p, ms[1..])
    else Only(p, ms[1..])
  }

  /** `p` holds of no tool result and no anchor. */
  ghost predicate Unhandled(p: Message -> bool) {
    forall m :: p(m) ==> !IsTool(m) && "anchor_key" !in m.metadata
  }

  lemma {:induction false} OnlyConcat(p: Message -> bool, a: seq<Message>, b: seq<Message>)
    ensures Only(p, a + b) == Only(p, a) + Only(p, b)
    decreases a
  {
    if a == [] {
      assert a + b == b;
    } else {
      assert (a + b)[1..] == a[1..] + b;
      OnlyConcat(p, a[1..], b);
    }
  }

  lemma {:induction false} NothingOnly(p: Message -> bool, ms: seq<Message>)
    requires forall m :: m in ms ==> !p(m)
    ensures Only(p, ms) == []
    decreases ms
  {
    if ms != [] { NothingOnly(p, ms[1..]); }
  }

  lemma {:induction false} OnlyMembers(p: Message -> bool, ms: seq<Message>)
    ensures forall m :: m in Only(p, ms) <==> m in ms && p(m)
    decreases ms
  {
    if ms != [] { OnlyMembers(p, ms[1..]); }
  }

  /** Keeping the messages that satisfy `p` keeps all if and only if all do. */
  lemma {:induction false} OnlyExactly(p: Message -> bool, ms: seq<Message>)
    ensures |Only(p, ms)| <= |ms|
    ensures |Only(p, ms)| == |ms| <==> forall m :: m in ms ==> p(m)
    ensures Only(p, ms) == ms <==> forall m :: m in ms ==> p(m)
    decreases ms
  {
    if ms != [] {
      OnlyExactly(p, ms[1..]);
      assert ms == [ms[0]] + ms[1..];
    }
  }

  lemma {:induction false} OnlyCommutes(p: Message -> bool, q: Message -> bool, ms: seq<Message>)
    ensures Only(p, Only(q, ms)) == Only(q, Only(p, ms))
    decreases ms
  {
    if ms != [] {
      OnlyCommutes(p, q, ms[1..]);
      assert ([ms[0]] + Only(q, ms[1..]))[1..] == Only(q, ms[1..]);
      assert ([ms[0]] + Only(p, ms[1..]))[1..] == Only(p, ms[1..]);
    }
  }

  lemma {:induction false} PruneLeaves(p: Message -> bool, ms: seq<Message>, keep: int)
    requires Unhandled(p)
    ensures Only(p, Prune(ms, keep)) == Only(p, ms)
    decreases ms
  {
    if ms != [] {
      PruneLeaves(p, ms[1..], keep);
      assert Prune(ms, keep)[1..] == Prune(ms[1..], keep);
    }
  }

  lemma {:induction false} ExpireLeaves(p: Message -> bool, ms: seq<Message>, iterations: int, ttl: int)
    requires Unhandled(p)
    ensures Only(p, ExpireAll(ms, iterations, ttl)) == Only(p, ms)
    decreases ms
  {
    if ms != [] {
      ExpireLeaves(p, ms[1..], iterations, ttl);
      assert ExpireAll(ms, iterations, ttl)[1..] == ExpireAll(ms[1..], iterations, ttl);
    }
  }

  lemma {:induction false} RemoveAnchorLeaves(p: Message -> bool, ms: seq<Message>, key: string)
    requires Unhandled(p)
    ensures Only(p, RemoveAnchor(ms, key)) == Only(p, ms)
    decreases ms
  {
    if ms != [] {
      RemoveAnchorLeaves(p, ms[1..], key);
      if !Anchors(ms[0], key) {
        assert RemoveAnchor(ms, key)[1..] == RemoveAnchor(ms[1..], key);
      }
    }
  }

  lemma {:induction false} SetAnchorLeaves(p: Message -> bool, st: State, key: string, content: string)
    requires Unhandled(p)
    ensures Only(p, SetAnchor(st, key, content).messages) == Only(p, st.messages)
  {
    RemoveAnchorLeaves(p, st.messages, key);
    OnlyConcat(p, RemoveAnchor(st.messages, key), [AnchorMessage(key, content)]);
    NothingOnly(p, [AnchorMessage(key, content)]);
  }

  lemma {:induction false} ReinjectLeaves(p: Message -> bool, st: State, snapshot: map<string, string>,
                                          keys: seq<string>)
    requires Unhandled(p)
    ensures Only(p, Reinject(st, snapshot, keys).messages) == Only(p, st.messages)
    decreases keys
  {
    if keys != [] {
      var st' := if keys[0] in snapshot then SetAnchor(st, keys[0], snapshot[keys[0]]) else st;
      if keys[0] in snapshot { SetAnchorLeaves(p, st, keys[0], snapshot[keys[0]]); }
      ReinjectLeaves(p, st', snapshot, keys[1..]);
    }
  }

  /** What an operation other than a compaction adds. */
  function Added(cfg: Config, st: State, op: Op): seq<Message> {
    if op.Append? then [op.message]
    else if op.WarnIfFull? && Warn(cfg, st) != st then [Warning(cfg, st.messages)]
    else []
  }

  lemma {:induction false} WarnAdds(cfg: Config, st: State)
    ensures Warn(cfg, st).messages == st.messages + if Warn(cfg, st) != st then [Warning(cfg, st.messages)] else []
  {
    if Warn(cfg, st) != st {
      assert Warn(cfg, st).messages == st.messages + [Warning(cfg, st.messages)];
    } else {
      assert st.messages + [] == st.messages;
    }
  }

  /** Such an operation leaves the messages alone that satisfy `p`. */
  lemma {:induction false} StepLeaves(p: Message -> bool, cfg: Config, st: State, op: Op)
    requires Unhandled(p) && !op.CompactIfDue?
    ensures Only(p, Apply(cfg, st, op).messages) == Only(p, st.messages) + Only(p, Added(cfg, st, op))
  {
    match op
    case PruneTo(keep) => PruneLeaves(p, st.messages, keep);
    case PruneExpired => ExpireLeaves(p, st.messages, st.iterations, cfg.toolResultTtl);
    case WarnIfFull =>
      WarnAdds(cfg, st);
      OnlyConcat(p, st.messages, Added(cfg, st, op));
    case Anchor(key, content) => SetAnchorLeaves(p, st, key, content);
    case Reanchor(keys) => ReinjectLeaves(p, st, st.anchors, keys);
    case Append(m) => OnlyConcat(p, st.messages, [m]);
    case AdvanceTo(n) =>
  }

  // ── Messages tagged as the user's survive every run ────────────────

  /** Tagged with source "user", and neither a tool result nor an anchor. */
  predicate IsSpoken(m: Message) {
    UserTagged(m) && !IsTool(m) && "anchor_key" !in m.metadata
  }

  function Spoken(ms: seq<Message>): seq<Message> {
    Only(IsSpoken, ms)
  }

  lemma {:induction false} SpokenUsers(ms: seq<Message>)
    ensures Spoken(Users(ms)) == Spoken(ms)
  {
    if ms != [] {
      SpokenUsers(ms[1..]);
      var first := if UserTagged(ms[0]) then [ms[0]] else [];
      OnlyConcat(IsSpoken, first, Users(ms[1..]));
      assert UserTagged(ms[0]) ==> first[1..] == [];
    }
  }

  lemma {:induction false} CompactKeepsSpoken(w: Wording, ms: seq<Message>)
    ensures Spoken(Compact(w, ms)) == Spoken(ms)
  {
    var system, working := SystemOf(ms), Working(ms);
    var summary, users, last := SummaryMessage(w, working), Users(working), LastAssistant(working);
    LastAssistantShape(working);
    SpokenUsers(working);
    NothingOnly(IsSpoken, [summary]);
    NothingOnly(IsSpoken, last);
    OnlyConcat(IsSpoken, system + [summary] + users, last);
    OnlyConcat(IsSpoken, system + [summary], users);
    OnlyConcat(IsSpoken, system, [summary]);
    OnlyConcat(IsSpoken, system, working);
    assert system + working == ms;
  }

  lemma {:induction false} CheckCompactionKeepsSpoken(cfg: Config, st: State, force: bool, cancelled: bool,
                                                      keys: seq<string>)
    ensures Spoken(CheckCompaction(cfg, st, force, cancelled, keys).messages) == Spoken(st.messages)
  {
    var compacted := Compact(cfg.wording, st.messages);
    CompactKeepsSpoken(cfg.wording, st.messages);
    ReinjectLeaves(IsSpoken, st.(messages := compacted), st.anchors, keys);
  }

  lemma {:induction false} StepKeepsSpoken(cfg: Config, st: State, op: Op)
    ensures Spoken(Apply(cfg, st, op).messages) ==
            Spoken(st.messages) + if op.Append? then Spoken([op.message]) else []
  {
    if op.CompactIfDue? {
      CheckCompactionKeepsSpoken(cfg, st, op.force, op.cancelled, op.keys);
    } else {
      StepLeaves(IsSpoken, cfg, st, op);
      if !op.Append? { NothingOnly(IsSpoken, Added(cfg, st, op)); }
    }
  }

  /** Whatever is done to the context, in whatever order, the messages tagged as
      the user's stay as they are, in their order, followed by those that
      arrive. */
  lemma {:induction false} RunKeepsSpoken(cfg: Config, st: State, ops: seq<Op>)
    ensures Spoken(Run(cfg, st, ops).messages) == Spoken(st.messages) + Spoken(Appended(ops))
    decreases ops
  {
    if ops != [] {
      var st' := Apply(cfg, st, ops[0]);
      StepKeepsSpoken(cfg, st, ops[0]);
      RunKeepsSpoken(cfg, st', ops[1..]);
      if ops[0].Append? { OnlyConcat(IsSpoken, [ops[0].message], Appended(ops[1..])); }
    }
  }

  // ── A saved original implies a stub ────────────────────────────────

  predicate Saved(m: Message) {
    "original_content" in m.metadata ==> IsStub(m)
  }

  ghost predicate AllSaved(ms: seq<Message>) {
    forall m :: m in ms ==> Saved(m)
  }

  lemma {:induction false} UsersAreMembers(ms: seq<Message>)
    ensures forall m :: m in Users(ms) ==> m in ms
    ensures forall m :: m in LastAssistant(ms) ==> m in ms
  {
    if ms != [] {
      UsersAreMembers(ms[1..]);
      UsersAreMembers(ms[..|ms| - 1]);
    }
  }

  lemma {:induction false} CompactKeepsSaved(w: Wording, ms: seq<Message>)
    requires AllSaved(ms)
    ensures AllSaved(Compact(w, ms))
  {
    UsersAreMembers(Working(ms));
  }

  lemma {:induction false} PruneKeepsSaved(ms: seq<Message>, keep: int)
    requires AllSaved(ms)
    ensures AllSaved(Prune(ms, keep))
  {
    if ms != [] { PruneKeepsSaved(ms[1..], keep); }
  }

  lemma {:induction false} ExpireKeepsSaved(ms: seq<Message>, iterations: int, ttl: int)
    requires AllSaved(ms)
    ensures AllSaved(ExpireAll(ms, iterations, ttl))
  {
    ExpireAllAt(ms, iterations, ttl);
  }

  lemma {:induction false} RemoveAnchorKeepsSaved(ms: seq<Message>, key: string)
    requires AllSaved(ms)
    ensures AllSaved(RemoveAnchor(ms, key))
  {
    if ms != [] { RemoveAnchorKeepsSaved(ms[1..], key); }
  }

  lemma {:induction false} ReinjectKeepsSaved(st: State, snapshot: map<string, string>, keys: seq<string>)
    requires AllSaved(st.messages)
    ensures AllSaved(Reinject(st, snapshot, keys).messages)
    decreases keys
  {
    if keys != [] {
      var st' := if keys[0] in snapshot then SetAnchor(st, keys[0], snapshot[keys[0]]) else st;
      RemoveAnchorKeepsSaved(st.messages, keys[0]);
      ReinjectKeepsSaved(st', snapshot, keys[1..]);
    }
  }

  lemma {:induction false} CheckCompactionKeepsSaved(cfg: Config, st: State, force: bool, cancelled: bool,
      keys: seq<string>)
    requires AllSaved(st.messages)
    ensures AllSaved(CheckCompaction(cfg, st, force, cancelled, keys).messages)
  {
    var compacted := Compact(cfg.wording, st.messages);
    CompactKeepsSaved(cfg.wording, st.messages);
    ReinjectKeepsSaved(st.(messages := compacted), st.anchors, keys);
  }

  lemma {:induction false} WarnKeepsSaved(cfg: Config, st: State)
    requires AllSaved(st.messages)
    ensures AllSaved(Warn(cfg, st).messages)
  {
  }

  lemma {:induction false} StepKeepsSaved(cfg: Config, st: State, op: Op)
    requires AllSaved(st.messages) && (op.Append? ==> Saved(op.message))
    ensures AllSaved(Apply(cfg, st, op).messages)
  {
    match op
    case CompactIfDue(force, cancelled, keys) => CheckCompactionKeepsSaved(cfg, st, force, cancelled, keys);
    case PruneTo(keep) => PruneKeepsSaved(st.messages, keep);
    case PruneExpired => ExpireKeepsSaved(st.messages, st.iterations, cfg.toolResultTtl);
    case WarnIfFull => WarnKeepsSaved(cfg, st);
    case Anchor(key, content) => RemoveAnchorKeepsSaved(st.messages, key);
    case Reanchor(keys) => ReinjectKeepsSaved(st, st.anchors, keys);
    case Append(m) =>
    case AdvanceTo(n) =>
  }

  lemma {:induction false} RunKeepsSaved(cfg: Config, st: State, ops: seq<Op>)
    requires AllSaved(st.messages) && AllSaved(Appended(ops))
    ensures AllSaved(Run(cfg, st, ops).messages)
    decreases ops
  {
    if ops != [] {
      assert ops[0].Append? ==> ops[0].message in Appended(ops);
      StepKeepsSaved(cfg, st, ops[0]);
      RunKeepsSaved(cfg, Apply(cfg, st, ops[0]), ops[1..]);
    }
  }

  // ── Evidence ───────────────────────────────────────────────────────

  /** What the validator learns of one tool result. */
  datatype View = View(name: string, iteration: Option<string>, text: string)

  predicate Shown(m: Message) {
    "tool_name" in m.metadata && m.metadata["tool_name"] != ""
  }

  function Body(m: Message): string {
    if "original_content" in m.metadata then m.metadata["original_content"] else m.content
  }

  function ViewOf(m: Message): View
    requires Shown(m)
  {
    View(m.metadata["tool_name"],
         if "added_at_iteration" in m.metadata then Some(m.metadata["added_at_iteration"]) else None,
         Body(m))
  }

  function Views(ms: seq<Message>): seq<View> {
    if ms == [] then []
    else if Shown(ms[0]) then [ViewOf(ms[0])] + Views(ms[1..])
    else Views(ms[1..])
  }

  function ManifestLine(name: string, size: nat): string {
    "- " + name + " \U{E2}\U{86}\U{92} " + Decimal(size) + " chars\n"
  }

  function Manifest(views: seq<View>): string {
    if views == [] then "" else ManifestLine(views[0].name, |views[0].text|) + Manifest(views[1..])
  }

  function Clip(text: string, limit: nat): string {
    if |text| <= limit then text
    else text[..limit] + "\n[... truncated, " + Decimal(|text| - limit) + " more chars]"
  }

  function EvidenceEntry(v: View, limit: nat): string {
    "## " + v.name + (if v.iteration.Some? then " [iter " + v.iteration.value + "]" else "") + "\n" +
    Clip(v.text, limit) + "\n\n"
  }

  function Entries(views: seq<View>, limit: nat): string {
    if views == [] then "" else EvidenceEntry(views[0], limit) + Entries(views[1..], limit)
  }

  function ElidedNote(n: nat): string {
    if n == 0 then "" else "(" + Decimal(n) + " earlier tool results elided for length)\n"
  }

  /** The latest `maxResults` results, each clipped to `limit` bytes. */
  function Evidence(views: seq<View>, maxResults: nat, limit: nat): string {
    var elided := if |views| > maxResults then |views| - maxResults else 0;
    if views == [] then "" else ElidedNote(elided) + Entries(views[elided..], limit)
  }

  method BuildToolManifest(messages: seq<Message>) returns (manifest: string)
    ensures manifest == Manifest(Views(messages))
  {
    manifest := "";
    for i := 0 to |messages|
      invariant manifest + Manifest(Views(messages[i..])) == Manifest(Views(messages))
    {
      var msg := messages[i];
      assert messages[i..][1..] == messages[i + 1..];
      if "tool_name" !in msg.metadata || msg.metadata["tool_name"] == "" { continue; }
      var realSize := if "original_content" in msg.metadata then |msg.metadata["original_content"]| else |msg.content|;
      var line := ManifestLine(msg.metadata["tool_name"], realSize);
      ManifestCons(ViewOf(msg), Views(messages[i + 1..]));
      Assoc(manifest, line, Manifest(Views(messages[i + 1..])));
      manifest := manifest + line;
    }
  }

  lemma {:induction false} ManifestCons(v: View, vs: seq<View>)
    ensures Manifest([v] + vs) == ManifestLine(v.name, |v.text|) + Manifest(vs)
  {
    assert ([v] + vs)[1..] == vs;
  }

  method FormatToolEvidenceEntry(msg: Message, limit: nat) returns (out: string)
    requires Shown(msg)
    ensures out == EvidenceEntry(ViewOf(msg), limit)
  {
    var src := if "original_content" in msg.metadata then msg.metadata["original_content"] else msg.content;
    var iteration := "";
    if "added_at_iteration" in msg.metadata {
      iteration := " [iter " + msg.metadata["added_at_iteration"] + "]";
    }
    out := "## " + msg.metadata["tool_name"] + iteration + "\n" + Clip(src, limit) + "\n\n";
  }

  method BuildToolEvidence(messages: seq<Message>, maxResults: nat, limit: nat) returns (out: string)
    ensures out == Evidence(Views(messages), maxResults, limit)
  {
    var shown := ShownMessages(messages);
    if shown == [] { return ""; }
    var elided := if |shown| > maxResults then |shown| - maxResults else 0;
    ghost var views := Views(messages);
    out := AppendEntries(ElidedNote(elided), shown, views, elided, limit);
    EvidenceSplit(views, maxResults, limit, elided);
  }

  lemma {:induction false} EvidenceSplit(views: seq<View>, maxResults: nat, limit: nat, elided: nat)
    requires views != [] && elided == if |views| > maxResults then |views| - maxResults else 0
    ensures Evidence(views, maxResults, limit) == ElidedNote(elided) + Entries(views[elided..], limit)
  {
  }

  method AppendEntries(note: string, shown: seq<Message>, ghost views: seq<View>, start: nat, limit: nat)
      returns (out: string)
    requires start <= |shown| == |views|
    requires forall i :: 0 <= i < |shown| ==> Shown(shown[i]) && ViewOf(shown[i]) == views[i]
    ensures out == note + Entries(views[start..], limit)
  {
    out := note;
    for i := start to |shown|
      invariant out + Entries(views[i..], limit) == note + Entries(views[start..], limit)
    {
      var entry := FormatToolEvidenceEntry(shown[i], limit);
      EntriesFrom(views, i, limit);
      Assoc(out, entry, Entries(views[i + 1..], limit));
      out := out + entry;
    }
  }

  lemma {:induction false} EntriesFrom(views: seq<View>, i: nat, limit: nat)
    requires i < |views|
    ensures Entries(views[i..], limit) == EvidenceEntry(views[i], limit) + Entries(views[i + 1..], limit)
  {
    assert views[i..][1..] == views[i + 1..];
  }

  method ShownMessages(messages: seq<Message>) returns (shown: seq<Message>)
    ensures |shown| == |Views(messages)|
    ensures forall i :: 0 <= i < |shown| ==> Shown(shown[i]) && ViewOf(shown[i]) == Views(messages)[i]
  {
    shown := [];
    ghost var views := [];
    for i := 0 to |messages|
      invariant views + Views(messages[i..]) == Views(messages)
      invariant |shown| == |views|
      invariant forall j :: 0 <= j < |shown| ==> Shown(shown[j]) && ViewOf(shown[j]) == views[j]
    {
      assert messages[i..][1..] == messages[i + 1..];
      if Shown(messages[i]) {
        shown := shown + [messages[i]];
        views := views + [ViewOf(messages[i])];
      }
    }
  }

  // ── Pruning by age keeps the evidence ──────────────────────────────

  lemma {:induction false} ViewsConcat(a: seq<Message>, b: seq<Message>)
    ensures Views(a + b) == Views(a) + Views(b)
  {
    if a == [] {
      assert a + b == b;
    } else {
      assert (a + b)[1..] == a[1..] + b;
      ViewsConcat(a[1..], b);
    }
  }

  /** The original of `m`, if there is one, would survive pruning. */
  predicate Keeps(m: Message, iterations: int, ttl: int) {
    Shown(m) && Expired(m, iterations, ttl) && "original_content" in m.metadata ==>
      m.metadata["original_content"] == m.content
  }

  lemma {:induction false} ExpireView(m: Message, iterations: int, ttl: int)
    ensures Shown(Expire(m, iterations, ttl)) == Shown(m)
    ensures Shown(m) ==> (ViewOf(Expire(m, iterations, ttl)) == ViewOf(m) <==> Keeps(m, iterations, ttl))
  {
  }

  /** Pruning by age shows the validator the same results if and only if no
      message it prunes carries a saved original other than its body. */
  lemma {:induction false} ExpireKeepsViews(ms: seq<Message>, iterations: int, ttl: int)
    ensures Views(ExpireAll(ms, iterations, ttl)) == Views(ms) <==> forall m :: m in ms ==> Keeps(m, iterations, ttl)
  {
    if ms != [] {
      var rest := ms[1..];
      assert ExpireAll(ms, iterations, ttl)[1..] == ExpireAll(rest, iterations, ttl);
      ExpireKeepsViews(rest, iterations, ttl);
      ExpireView(ms[0], iterations, ttl);
      assert forall m :: m in ms <==> m == ms[0] || m in rest;
      if Shown(ms[0]) {
        SameCons(ViewOf(Expire(ms[0], iterations, ttl)), Views(ExpireAll(rest, iterations, ttl)),
                 ViewOf(ms[0]), Views(rest));
      }
    }
  }

  lemma {:induction false} SameCons(a: View, s: seq<View>, b: View, t: seq<View>)
    ensures [a] + s == [b] + t <==> a == b && s == t
  {
    assert ([a] + s)[0] == a && ([b] + t)[0] == b;
    assert ([a] + s)[1..] == s && ([b] + t)[1..] == t;
  }

  /** Operations that neither compact, prune on request, nor set anchors. */
  predicate IsQuiet(op: Op) {
    op.PruneExpired? || op.WarnIfFull? || op.Append? || op.AdvanceTo?
  }

  lemma {:induction false} WarnKeepsViews(cfg: Config, st: State)
    ensures Views(Warn(cfg, st).messages) == Views(st.messages)
  {
    var w := Warning(cfg, st.messages);
    ViewsConcat(st.messages, [w]);
    assert Views([w]) == Views([]);
  }

  lemma {:induction false} QuietStepKeepsViews(cfg: Config, st: State, op: Op)
    requires AllSaved(st.messages) && IsQuiet(op)
    ensures Views(Apply(cfg, st, op).messages) == Views(st.messages) + if op.Append? then Views([op.message]) else []
  {
    match op
    case PruneExpired => ExpireKeepsViews(st.messages, st.iterations, cfg.toolResultTtl);
    case WarnIfFull => WarnKeepsViews(cfg, st);
    case Append(m) => ViewsConcat(st.messages, [m]);
    case AdvanceTo(n) =>
  }

  lemma {:induction false} QuietStepThen(cfg: Config, st: State, op: Op, rest: seq<Message>)
    requires AllSaved(st.messages) && IsQuiet(op)
    ensures Views(Apply(cfg, st, op).messages + rest) ==
            Views(st.messages + if op.Append? then [op.message] + rest else rest)
  {
    QuietStepKeepsViews(cfg, st, op);
    ViewsConcat(Apply(cfg, st, op).messages, rest);
    if op.Append? {
      ViewsConcat([op.message], rest);
      ViewsConcat(st.messages, [op.message] + rest);
    } else {
      ViewsConcat(st.messages, rest);
    }
  }

  /** However often results are pruned by age between new results, warnings and
      iterations, the validator sees every result as it arrived. */
  lemma {:induction false} AgePruningIsInvisible(cfg: Config, st: State, ops: seq<Op>)
    requires AllSaved(st.messages) && AllSaved(Appended(ops))
    requires forall op :: op in ops ==> IsQuiet(op)
    ensures Views(Run(cfg, st, ops).messages) == Views(st.messages + Appended(ops))
    decreases ops
  {
    if ops == [] {
      assert st.messages + [] == st.messages;
    } else {
      var st', rest := Apply(cfg, st, ops[0]), Appended(ops[1..]);
      assert ops[0].Append? ==> ops[0].message in Appended(ops);
      StepKeepsSaved(cfg, st, ops[0]);
      AgePruningIsInvisible(cfg, st', ops[1..]);
      QuietStepThen(cfg, st, ops[0], rest);
      assert ops[0].Append? ==> Appended(ops) == [ops[0].message] + rest;
    }
  }

  /** The same, for the two texts made from the views. */
  lemma {:induction false} AgePruningKeepsEvidence(cfg: Config, st: State, ops: seq<Op>, maxResults: nat, limit: nat)
    requires AllSaved(st.messages)
    requires forall op :: op in ops ==> op.PruneExpired? || op.AdvanceTo?
    ensures
      var after := Run(cfg, st, ops).messages;
      && Manifest(Views(after)) == Manifest(Views(st.messages))
      && Evidence(Views(after), maxResults, limit) == Evidence(Views(st.messages), maxResults, limit)
  {
    NothingAppended(ops);
    AgePruningIsInvisible(cfg, st, ops);
    assert st.messages + [] == st.messages;
  }

  lemma {:induction false} NothingAppended(ops: seq<Op>)
    requires forall op :: op in ops ==> !op.Append?
    ensures Appended(ops) == []
  {
    if ops != [] { NothingAppended(ops[1..]); }
  }

  // ── Pruning on request does not ────────────────────────────────────

  lemma {:induction false} PruneView(m: Message, later: seq<Message>, keep: int)
    requires Saved(m) && Shown(m)
    ensures Shown(PruneOne(m, later, keep))
    ensures ViewOf(PruneOne(m, later, keep)) == ViewOf(m) <==> IsStub(m) || keep <= 0 || ToolCount(later) < keep
  {
    if !IsStub(m) && 0 < keep <= ToolCount(later) {
      assert StartsWith(Stubbed(m).content, PRUNED_MARK) && !StartsWith(m.content, PRUNED_MARK);
    }
  }

  /** No shown result still has its body and `keep` later results. */
  predicate NothingToPrune(ms: seq<Message>, keep: int) {
    ms == [] ||
    ((Shown(ms[0]) ==> IsStub(ms[0]) || keep <= 0 || ToolCount(ms[1..]) < keep) && NothingToPrune(ms[1..], keep))
  }

  /** Pruning on request saves no original: the validator sees the same results
      if and only if there was nothing to prune. */
  lemma {:induction false} PruneKeepsViews(ms: seq<Message>, keep: int)
    requires AllSaved(ms)
    ensures Views(Prune(ms, keep)) == Views(ms) <==> NothingToPrune(ms, keep)
  {
    if ms != [] {
      assert Prune(ms, keep)[1..] == Prune(ms[1..], keep);
      PruneKeepsViews(ms[1..], keep);
      if Shown(ms[0]) {
        PruneView(ms[0], ms[1..], keep);
        SameCons(ViewOf(PruneOne(ms[0], ms[1..], keep)), Views(Prune(ms[1..], keep)), ViewOf(ms[0]), Views(ms[1..]));
      }
    }
  }

  /** A run in which it hides a result: one result, then a later one. */
  lemma {:induction false} PruneHidesEvidence(cfg: Config)
    ensures
      var result := Message("user", "x", map["tool_name" := "t"]);
      var st := State([result, result], map[], 0, map[]);
      Views(Run(cfg, st, [PruneTo(1)]).messages) != Views(st.messages)
  {
    var result := Message("user", "x", map["tool_name" := "t"]);
    var ms := [result, result];
    assert ms[1..] == [result];
    assert ToolCount([result]) == 1;
    assert Shown(result) by { assert |"t"| == 1; }
    assert !NothingToPrune(ms, 1) by { assert |"x"| == 1 && |PRUNED_MARK| == 10; }
    PruneKeepsViews(ms, 1);
    var st := State(ms, map[], 0, map[]);
    var ops := [PruneTo(1)];
    assert ops[1..] == [];
    assert Run(cfg, st, ops) == Apply(cfg, st, PruneTo(1));
  }
}
