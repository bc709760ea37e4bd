/** Anchors over whole runs: the messages hold the latest text of each anchor,
    once, through pruning, warnings and compactions. */
module AnchorRuns {
  import opened Messages
  import opened Compaction
  import opened ContextManager
  import opened ContextRuns

  // ── What stands for an anchor ──────────────────────────────────────

  function AnchorOf(key: string): Message -> bool {
    (m: Message) => "anchor_key" in m.metadata && m.metadata["anchor_key"] == key
  }

  /** The messages that stand for `key`. */
  function Found(ms: seq<Message>, key: string): seq<Message> {
    Only(AnchorOf(key), ms)
  }

  /** The messages that should. */
  function Standing(table: map<string, string>, key: string): seq<Message> {
    if key in table then [Message("user", table[key], map["is_context_anchor" := "true", "anchor_key" := key])]
    else []
  }

  /** The messages hold what the table says, and the table holds no empty text. */
  ghost predicate InSync(st: State) {
    && (forall key :: Found(st.messages, key) == Standing(st.anchors, key))
    && (forall key :: key in st.anchors ==> st.anchors[key] != "")
  }

  lemma {:induction false} FoundOne(m: Message, key: string)
    ensures Found([m], key) == if AnchorOf(key)(m) then [m] else []
  {
    var p := AnchorOf(key);
    assert [m][1..] == [] && Only(p, []) == [];
    assert Only(p, [m]) == if p(m) then [m] + [] else [];
  }

  // ── Setting an anchor ──────────────────────────────────────────────

  lemma {:induction false} FoundAfterRemove(ms: seq<Message>, key: string, other: string)
    ensures Found(RemoveAnchor(ms, key), other) == if other == key then [] else Found(ms, other)
  {
    if ms != [] {
      FoundAfterRemove(ms[1..], key, other);
      if !Anchors(ms[0], key) { assert RemoveAnchor(ms, key)[1..] == RemoveAnchor(ms[1..], key); }
    }
  }

  /** The table after an anchor has been set; an empty text removes it. */
  function Tabled(table: map<string, string>, key: string, content: string): map<string, string> {
    if content == "" then table - {key} else table[key := content]
  }

  /** Setting an anchor leaves one message for it, or none if it is removed, and
      those of the others as they were. */
  lemma {:induction false} SetAnchorExactly(st: State, key: string, content: string, other: string)
    ensures SetAnchor(st, key, content).anchors == Tabled(st.anchors, key, content)
    ensures Found(SetAnchor(st, key, content).messages, other) ==
            if other == key then Standing(Tabled(map[], key, content), key) else Found(st.messages, other)
  {
    FoundAfterRemove(st.messages, key, other);
    FoundOne(AnchorMessage(key, content), other);
    OnlyConcat(AnchorOf(other), RemoveAnchor(st.messages, key), [AnchorMessage(key, content)]);
  }

  lemma {:induction false} SetAnchorSyncs(st: State, key: string, content: string)
    requires InSync(st)
    ensures InSync(SetAnchor(st, key, content))
  {
    var st' := SetAnchor(st, key, content);
    SetAnchorExactly(st, key, content, key);
    forall other ensures Found(st'.messages, other) == Standing(st'.anchors, other) {
      SetAnchorExactly(st, key, content, other);
    }
  }

  /** Setting the anchors of a table again: those on the list get their message,
      the others keep what they have. */
  lemma {:induction false} ReinjectExactly(st: State, table: map<string, string>, keys: seq<string>, other: string)
    requires st.anchors == table && forall key :: key in table ==> table[key] != ""
    ensures Reinject(st, table, keys).anchors == table
    ensures Found(Reinject(st, table, keys).messages, other) ==
            if other in keys && other in table then Standing(table, other) else Found(st.messages, other)
    decreases keys
  {
    if keys != [] {
      var st' := st;
      if keys[0] in table {
        st' := SetAnchor(st, keys[0], table[keys[0]]);
        SetAnchorExactly(st, keys[0], table[keys[0]], other);
        assert Tabled(table, keys[0], table[keys[0]]) == table;
      }
      ReinjectExactly(st', table, keys[1..], other);
    }
  }

  // ── The other operations ───────────────────────────────────────────

  lemma {:induction false} StandingShape(st: State, key: string, m: Message)
    requires InSync(st) && m in st.messages && AnchorOf(key)(m)
    ensures key in st.anchors && m == AnchorMessage(key, st.anchors[key])
  {
    OnlyMembers(AnchorOf(key), st.messages);
    assert m in Found(st.messages, key);
  }

  lemma {:induction false} PruneLeavesAnchors(ms: seq<Message>, keep: int, key: string)
    requires forall m :: m in ms && AnchorOf(key)(m) ==> !IsTool(m)
    ensures Found(Prune(ms, keep), key) == Found(ms, key)
    decreases ms
  {
    if ms != [] {
      PruneLeavesAnchors(ms[1..], keep, key);
      assert Prune(ms, keep)[1..] == Prune(ms[1..], keep);
    }
  }

  lemma {:induction false} ExpireLeavesAnchors(ms: seq<Message>, iterations: int, ttl: int, key: string)
    requires forall m :: m in ms && AnchorOf(key)(m) ==> !IsTool(m)
    ensures Found(ExpireAll(ms, iterations, ttl), key) == Found(ms, key)
    decreases ms
  {
    if ms != [] {
      ExpireLeavesAnchors(ms[1..], iterations, ttl, key);
      assert ExpireAll(ms, iterations, ttl)[1..] == ExpireAll(ms[1..], iterations, ttl);
    }
  }

  /** A compaction drops every anchor. */
  lemma {:induction false} CompactDropsAnchors(w: Wording, st: State, key: string)
    requires InSync(st)
    ensures Found(Compact(w, st.messages), key) == []
  {
    var ms := st.messages;
    UsersAreMembers(Working(ms));
    UsersAreTagged(Working(ms));
    LastAssistantShape(Working(ms));
    assert "system" != "user" && "assistant" != "user" by { assert |"system"| == 6 && |"assistant"| == 9; }
    forall m | m in Compact(w, ms) ensures !AnchorOf(key)(m) {
      if m in ms && AnchorOf(key)(m) { StandingShape(st, key, m); }
    }
    NothingOnly(AnchorOf(key), Compact(w, ms));
  }

  lemma {:induction false} UsersAreTagged(ms: seq<Message>)
    ensures forall m :: m in Users(ms) ==> UserTagged(m)
  {
    if ms != [] { UsersAreTagged(ms[1..]); }
  }

  lemma {:induction false} CompactionSyncs(cfg: Config, st: State, force: bool, cancelled: bool, keys: seq<string>)
    requires InSync(st) && forall key :: key in st.anchors ==> key in keys
    ensures InSync(CheckCompaction(cfg, st, force, cancelled, keys))
    ensures CheckCompaction(cfg, st, force, cancelled, keys).anchors == st.anchors
  {
    var compacted := st.(messages := Compact(cfg.wording, st.messages));
    var st' := Reinject(compacted, st.anchors, keys);
    forall key ensures Found(st'.messages, key) == Standing(st.anchors, key) && st'.anchors == st.anchors {
      CompactDropsAnchors(cfg.wording, st, key);
      ReinjectExactly(compacted, st.anchors, keys, key);
    }
    assert Found(st'.messages, "") == Standing(st.anchors, "");
  }

  lemma {:induction false} PruningSyncs(cfg: Config, st: State, op: Op)
    requires InSync(st) && (op.PruneTo? || op.PruneExpired?)
    ensures InSync(Apply(cfg, st, op)) && Apply(cfg, st, op).anchors == st.anchors
  {
    var st' := Apply(cfg, st, op);
    forall key ensures Found(st'.messages, key) == Standing(st.anchors, key) {
      forall m | m in st.messages && AnchorOf(key)(m) ensures !IsTool(m) { StandingShape(st, key, m); }
      if op.PruneTo? {
        PruneLeavesAnchors(st.messages, op.keepRecent, key);
      } else {
        ExpireLeavesAnchors(st.messages, st.iterations, cfg.toolResultTtl, key);
      }
    }
  }

  lemma {:induction false} AddingSyncs(st: State, st': State, added: seq<Message>)
    requires InSync(st) && st'.messages == st.messages + added && st'.anchors == st.anchors
    requires forall m :: m in added ==> "anchor_key" !in m.metadata
    ensures InSync(st')
  {
    forall key ensures Found(st'.messages, key) == Found(st.messages, key) {
      OnlyConcat(AnchorOf(key), st.messages, added);
      NothingOnly(AnchorOf(key), added);
    }
  }

  lemma {:induction false} WarningSyncs(cfg: Config, st: State)
    requires InSync(st)
    ensures InSync(Warn(cfg, st)) && Warn(cfg, st).anchors == st.anchors
  {
    WarnAdds(cfg, st);
    AddingSyncs(st, Warn(cfg, st), if Warn(cfg, st) != st then [Warning(cfg, st.messages)] else []);
  }

  // ── Whole runs ─────────────────────────────────────────────────────

  /** What the engine promises: it walks its whole table, and puts in messages for
      anchors only by setting them. */
  ghost predicate Regular(st: State, op: Op) {
    match op
    case CompactIfDue(_, _, keys) => forall key :: key in st.anchors ==> key in keys
    case Append(m) => "anchor_key" !in m.metadata
    case _ => true
  }

  ghost predicate AllRegular(cfg: Config, st: State, ops: seq<Op>)
    decreases ops
  {
    ops != [] ==> Regular(st, ops[0]) && AllRegular(cfg, Apply(cfg, st, ops[0]), ops[1..])
  }

  /** The table that the anchors set in a run come to. */
  function Latest(table: map<string, string>, ops: seq<Op>): map<string, string>
    decreases ops
  {
    if ops == [] then table
    else if ops[0].Anchor? then Latest(Tabled(table, ops[0].key, ops[0].content), ops[1..])
    else Latest(table, ops[1..])
  }

  lemma {:induction false} StepSyncs(cfg: Config, st: State, op: Op)
    requires InSync(st) && Regular(st, op)
    ensures InSync(Apply(cfg, st, op))
    ensures Apply(cfg, st, op).anchors == if op.Anchor? then Tabled(st.anchors, op.key, op.content) else st.anchors
  {
    match op
    case CompactIfDue(force, cancelled, keys) => CompactionSyncs(cfg, st, force, cancelled, keys);
    case PruneTo(keep) => PruningSyncs(cfg, st, op);
    case PruneExpired => PruningSyncs(cfg, st, op);
    case WarnIfFull => WarningSyncs(cfg, st);
    case Anchor(key, content) =>
      SetAnchorSyncs(st, key, content);
      SetAnchorExactly(st, key, content, key);
    case Reanchor(keys) => ReinjectSyncs(st, keys);
    case Append(m) => AddingSyncs(st, Apply(cfg, st, op), [m]);
    case AdvanceTo(n) =>
  }

  lemma {:induction false} ReinjectSyncs(st: State, keys: seq<string>)
    requires InSync(st)
    ensures InSync(Reinject(st, st.anchors, keys)) && Reinject(st, st.anchors, keys).anchors == st.anchors
  {
    ReinjectExactly(st, st.anchors, keys, "");
    forall key ensures Found(Reinject(st, st.anchors, keys).messages, key) == Standing(st.anchors, key) {
      ReinjectExactly(st, st.anchors, keys, key);
    }
  }

  /** Whatever is done to the context, each anchor stands in it once, with the text
      that it was last given, and those removed do not. */
  lemma {:induction false} RunKeepsAnchors(cfg: Config, st: State, ops: seq<Op>)
    requires InSync(st) && AllRegular(cfg, st, ops)
    ensures
      var st' := Run(cfg, st, ops);
      st'.anchors == Latest(st.anchors, ops) && InSync(st')
    decreases ops
  {
    if ops != [] {
      StepSyncs(cfg, st, ops[0]);
      RunKeepsAnchors(cfg, Apply(cfg, st, ops[0]), ops[1..]);
    }
  }
}
