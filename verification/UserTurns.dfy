/** What becomes of the messages that a user types. The drain loop stores them
    without the tag that compaction looks for. */
module UserTurns {
  import opened Messages
  import opened Compaction
  import opened ContextManager
  import opened ContextRuns
  import DrainLoop

  // ── Messages in the user's role ────────────────────────────────────

  /** In the user's role, and neither a tool result nor an anchor. */
  predicate IsSaid(m: Message) {
    m.role == "user" && !IsTool(m) && "anchor_key" !in m.metadata
  }

  function Said(ms: seq<Message>): seq<Message> {
    Only(IsSaid, ms)
  }

  function Tagged(ms: seq<Message>): seq<Message> {
    Only(UserTagged, ms)
  }

  ghost predicate SaidAreTagged(ms: seq<Message>) {
    forall m :: m in ms && IsSaid(m) ==> UserTagged(m)
  }

  lemma {:induction false} UsersAreTheTagged(ms: seq<Message>)
    ensures Users(ms) == Tagged(ms)
  {
    if ms != [] { UsersAreTheTagged(ms[1..]); }
  }

  lemma {:induction false} SaidTaggedExactly(ms: seq<Message>)
    ensures |Tagged(Said(ms))| <= |Said(ms)|
    ensures |Tagged(Said(ms))| == |Said(ms)| <==> SaidAreTagged(ms)
    ensures Tagged(Said(ms)) == Said(ms) <==> SaidAreTagged(ms)
  {
    OnlyMembers(IsSaid, ms);
    OnlyExactly(UserTagged, Said(ms));
  }

  /** The partition keeps what was said if and only if all of it is tagged. */
  lemma {:induction false} UsersKeepSaid(ms: seq<Message>)
    ensures Said(Users(ms)) == Tagged(Said(ms))
    ensures Said(Users(ms)) == Said(ms) <==> SaidAreTagged(ms)
    ensures |Said(Users(ms))| <= |Said(ms)|
  {
    UsersAreTheTagged(ms);
    OnlyCommutes(IsSaid, UserTagged, ms);
    SaidTaggedExactly(ms);
  }

  /** Roles other than the user's. */
  lemma {:induction false} OtherRoles()
    ensures "system" != "user" && "assistant" != "user" && "assistant" != "system"
  {
    assert |"system"| == 6 && |"user"| == 4 && |"assistant"| == 9;
  }

  /** A compaction puts its summary before what it keeps of the messages said. */
  lemma {:induction false} SaidAfterCompact(w: Wording, ms: seq<Message>)
    ensures Said(Compact(w, ms)) == [SummaryMessage(w, Working(ms))] + Tagged(Said(ms))
  {
    var system, working := SystemOf(ms), Working(ms);
    var summary, users, last := SummaryMessage(w, working), Users(working), LastAssistant(working);
    OtherRoles();
    LastAssistantShape(working);
    NothingOnly(IsSaid, system);
    NothingOnly(IsSaid, last);
    OnlyConcat(IsSaid, system, working);
    assert ms == system + working;
    UsersKeepSaid(working);
    OnlyConcat(IsSaid, system + [summary] + users, last);
    OnlyConcat(IsSaid, system + [summary], users);
    OnlyConcat(IsSaid, system, [summary]);
    assert [summary][1..] == [];
  }

  /** Compaction leaves its summary and everything that was said, if and only if
      all of it is tagged. */
  lemma {:induction false} CompactKeepsSaid(w: Wording, ms: seq<Message>)
    ensures Said(Compact(w, ms)) == [SummaryMessage(w, Working(ms))] + Said(ms) <==> SaidAreTagged(ms)
  {
    SaidAfterCompact(w, ms);
    SaidTaggedExactly(ms);
    SameTail([SummaryMessage(w, Working(ms))], Tagged(Said(ms)), Said(ms));
  }

  lemma {:induction false} SameTail(a: seq<Message>, b: seq<Message>, c: seq<Message>)
    ensures a + b == a + c <==> b == c
  {
    assert (a + b)[|a|..] == b && (a + c)[|a|..] == c;
  }

  // ── What the drain loop stores ─────────────────────────────────────

  /** A message that the drain loop stores for its user is said and not tagged. */
  lemma {:induction false} TypedIsUntagged(text: string)
    ensures IsSaid(DrainLoop.UserMessage(text)) && !UserTagged(DrainLoop.UserMessage(text))
    ensures Spoken([DrainLoop.UserMessage(text)]) == []
  {
    NothingOnly(IsSpoken, [DrainLoop.UserMessage(text)]);
  }

  /** Two typed messages around a reply are gone after a compaction. */
  lemma {:induction false} CompactionDropsTyped(w: Wording, a: string, b: string, reply: string)
    ensures
      var r := Message("assistant", reply, map[]);
      var ms := [DrainLoop.UserMessage(a), r, DrainLoop.UserMessage(b)];
      Compact(w, ms) == [SummaryMessage(w, ms), r]
  {
    var u, r, v := DrainLoop.UserMessage(a), Message("assistant", reply, map[]), DrainLoop.UserMessage(b);
    var ms := [u, r, v];
    OtherRoles();
    assert SystemOf(ms) == [] && Working(ms) == ms;
    assert ms == [u, r] + [v] && [u, r] == [u] + [r];
    LastAssistantSnoc([u, r], v);
    LastAssistantSnoc([u], r);
    UsersAreTheTagged(ms);
    NothingOnly(UserTagged, ms);
  }

  /** Of a conversation without tags a compaction leaves only its summary among
      the messages said. */
  lemma {:induction false} UntaggedIsDropped(w: Wording, ms: seq<Message>)
    requires forall m :: m in ms ==> !UserTagged(m)
    ensures Said(Compact(w, ms)) == [SummaryMessage(w, Working(ms))]
  {
    SaidAfterCompact(w, ms);
    OnlyMembers(IsSaid, ms);
    NothingOnly(UserTagged, Said(ms));
  }

  // ── Over whole runs ────────────────────────────────────────────────

  /** Said, and not a summary of the engine's. */
  function IsTyped(w: Wording): Message -> bool {
    (m: Message) => IsSaid(m) && !StartsWith(m.content, w.head)
  }

  function Typed(w: Wording, ms: seq<Message>): seq<Message> {
    Only(IsTyped(w), ms)
  }

  lemma {:induction false} TypedAmongSaid(w: Wording, ms: seq<Message>)
    ensures Typed(w, ms) == Typed(w, Said(ms))
  {
    if ms != [] {
      TypedAmongSaid(w, ms[1..]);
      if IsSaid(ms[0]) { assert ([ms[0]] + Said(ms[1..]))[1..] == Said(ms[1..]); }
    }
  }

  /** A compaction keeps the tagged ones of the typed messages. */
  lemma {:induction false} TypedAfterCompact(w: Wording, ms: seq<Message>)
    ensures Typed(w, Compact(w, ms)) == Tagged(Typed(w, ms))
  {
    var summary := SummaryMessage(w, Working(ms));
    TypedAmongSaid(w, Compact(w, ms));
    SaidAfterCompact(w, ms);
    OnlyConcat(IsTyped(w), [summary], Tagged(Said(ms)));
    SummaryStarts(w, Working(ms));
    NothingOnly(IsTyped(w), [summary]);
    OnlyCommutes(IsTyped(w), UserTagged, Said(ms));
    TypedAmongSaid(w, ms);
  }

  /** A compaction that is due and not cancelled. */
  predicate Compacts(cfg: Config, st: State, op: Op) {
    op.CompactIfDue? && !op.cancelled && CompactionDue(cfg, st.messages, op.force)
  }

  lemma {:induction false} TypedAfterStep(cfg: Config, st: State, op: Op)
    ensures
      var w, st' := cfg.wording, Apply(cfg, st, op);
      if Compacts(cfg, st, op) then Typed(w, st'.messages) == Tagged(Typed(w, st.messages))
      else Typed(w, st.messages) <= Typed(w, st'.messages)
  {
    var w := cfg.wording;
    if Compacts(cfg, st, op) {
      TypedAfterCompact(w, st.messages);
      ReinjectLeaves(IsTyped(w), st.(messages := Compact(w, st.messages)), st.anchors, op.keys);
    } else if !op.CompactIfDue? {
      StepLeaves(IsTyped(w), cfg, st, op);
    }
  }

  lemma {:induction false} TaggedPrefix(kept: seq<Message>, ms: seq<Message>)
    requires kept <= ms && forall m :: m in kept ==> UserTagged(m)
    ensures kept <= Tagged(ms)
  {
    assert ms == kept + ms[|kept|..];
    OnlyConcat(UserTagged, kept, ms[|kept|..]);
    OnlyExactly(UserTagged, kept);
  }

  /** What is typed and tagged stays in front, whatever is done. */
  lemma {:induction false} RunKeepsTyped(cfg: Config, st: State, ops: seq<Op>, kept: seq<Message>)
    requires kept <= Typed(cfg.wording, st.messages)
    requires cfg.enabled ==> forall m :: m in kept ==> UserTagged(m)
    ensures kept <= Typed(cfg.wording, Run(cfg, st, ops).messages)
    decreases ops
  {
    if ops != [] {
      TypedAfterStep(cfg, st, ops[0]);
      if Compacts(cfg, st, ops[0]) { TaggedPrefix(kept, Typed(cfg.wording, st.messages)); }
      RunKeepsTyped(cfg, Apply(cfg, st, ops[0]), ops[1..], kept);
    }
  }

  /** Every run keeps the typed messages, in order and in front of later ones. */
  ghost predicate AlwaysKept(cfg: Config, st: State) {
    forall ops :: Typed(cfg.wording, st.messages) <= Typed(cfg.wording, Run(cfg, st, ops).messages)
  }

  /** Whatever is done to the context, what users typed stays, if and only if
      compaction is disabled or all of it is tagged. */
  lemma {:induction false} TypedIsKeptExactly(cfg: Config, st: State)
    ensures AlwaysKept(cfg, st) <==>
            !cfg.enabled || forall m :: m in st.messages && IsTyped(cfg.wording)(m) ==> UserTagged(m)
  {
    var w := cfg.wording;
    var typed := Typed(w, st.messages);
    OnlyMembers(IsTyped(w), st.messages);
    OnlyExactly(UserTagged, typed);
    if !cfg.enabled || forall m :: m in typed ==> UserTagged(m) {
      forall ops ensures typed <= Typed(w, Run(cfg, st, ops).messages) { RunKeepsTyped(cfg, st, ops, typed); }
    } else {
      var op := CompactIfDue(true, false, []);
      assert [op][1..] == [] && Run(cfg, st, [op]) == Apply(cfg, st, op);
      TypedAfterStep(cfg, st, op);
      assert |Typed(w, Run(cfg, st, [op]).messages)| < |typed|;
    }
  }

  // ── Compaction within a turn ───────────────────────────────────────

  lemma {:induction false} CompactedSize(w: Wording, ms: seq<Message>)
    ensures |Compact(w, ms)| <= |Tagged(Working(ms))| + 3
  {
    UsersAreTheTagged(Working(ms));
    LastAssistantShape(Working(ms));
  }

  /** A turn that compacts its messages and then adds `last` to them: stored by
      position, it loses all of `last` when that is no longer than what the
      compaction removed from what was sent. */
  lemma {:induction false} CompactedReplyIsLost(w: Wording, st: DrainLoop.Store, key: DrainLoop.Key,
                                                input: seq<Message>, run: DrainLoop.TurnRun,
                                                ms: seq<Message>, last: seq<Message>)
    requires !run.failed && run.result == Compact(w, ms) + last
    requires |Tagged(Working(ms))| + 3 + |last| <= |DrainLoop.Conversation(st, key) + input|
    ensures DrainLoop.Conversation(DrainLoop.Turn(st, key, input, run), key) == DrainLoop.Conversation(st, key) + input
  {
    CompactedSize(w, ms);
    DrainLoop.RewrittenTurnIsStored(st, key, input, run, Compact(w, ms), last);
  }
}
