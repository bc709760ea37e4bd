/** The system prompt that a conversation starts with, and the bound on the
    message queue. */
module SessionTurns {
  import opened Messages
  import opened DrainLoop
  import opened Sessions

  // ── Which prompt ───────────────────────────────────────────────────

  predicate InWorkspace(ps: Prompts, key: Key) {
    key in ps.bound && ps.bound[key] in ps.workspaces
  }

  function WorkspaceOf(ps: Prompts, key: Key): WorkspacePrompts
    requires InWorkspace(ps, key)
  {
    ps.workspaces[ps.bound[key]]
  }

  /** The order of precedence: the workspace's prompt for the tier, the tier's own
      unless it is empty, the workspace's for no tier, and the handle's. */
  lemma {:induction false} PromptPrecedence(ps: Prompts, key: Key, tier: string)
    requires tier != ""
    ensures
      var p, bound := TierPrompt(ps, key, tier), InWorkspace(ps, key);
      && (bound && tier in WorkspaceOf(ps, key).tiers ==> p == WorkspaceOf(ps, key).tiers[tier])
      && (!(bound && tier in WorkspaceOf(ps, key).tiers) && tier in ps.tiers && ps.tiers[tier] != "" ==>
            p == ps.tiers[tier])
      && (bound && tier !in WorkspaceOf(ps, key).tiers && (tier !in ps.tiers || ps.tiers[tier] == "") ==>
            p == WorkspaceOf(ps, key).untiered)
      && (!bound && (tier !in ps.tiers || ps.tiers[tier] == "") ==> p == ps.handle)
  {
  }

  lemma {:induction false} UntieredPrompt(ps: Prompts, key: Key)
    ensures SessionPrompt(ps, key) == if InWorkspace(ps, key) then WorkspaceOf(ps, key).untiered else ps.handle
  {
  }

  // ── How a conversation starts ──────────────────────────────────────

  /** The system message of a turn that has none of its own. */
  function Prefix(prompt: string, input: seq<Message>): seq<Message> {
    if prompt == "" || exists m :: m in input && m.role == "system" then [] else [Message("system", prompt, map[])]
  }

  lemma {:induction false} SeededExactly(st: Store, key: Key, prompt: string, input: seq<Message>)
    ensures Conversation(Seed(st, key, prompt, input), key) ==
            if Conversation(st, key) == [] then Prefix(prompt, input) else Conversation(st, key)
  {
    assert HasSystem(input) <==> exists m :: m in input && m.role == "system" by {
      if m :| m in input && m.role == "system" {
        var i :| 0 <= i < |input| && input[i] == m;
        assert input[i].role == "system";
      }
    }
  }

  /** A successful turn on an empty conversation is stored after the system
      message, unless it brings its own or the prompt is empty; a conversation
      under way gets no other. */
  lemma {:induction false} TurnStartsWithPrompt(st: Store, key: Key, prompt: string, input: seq<Message>,
                                                runs: seq<TurnRun>)
    requires runs != [] && !runs[0].failed
    ensures
      var before := if Conversation(st, key) == [] then Prefix(prompt, input) else Conversation(st, key);
      before + input <= Conversation(Drain(Seed(st, key, prompt, input), key, input, runs), key)
  {
    var st1 := Seed(st, key, prompt, input);
    SeededExactly(st, key, prompt, input);
    FirstTurnIsStored(st1, key, input, runs);
  }

  lemma {:induction false} FirstTurnIsStored(st: Store, key: Key, input: seq<Message>, runs: seq<TurnRun>)
    requires runs != [] && !runs[0].failed
    ensures Conversation(st, key) + input <= Conversation(Drain(st, key, input, runs), key)
  {
    DrainCommits(st, key, input, runs);
    var base, later := Conversation(st, key), Inputs(st, key, input, runs)[1..];
    assert Inputs(st, key, input, runs) == [input] + later;
    AddedStep(base, input, later, runs);
    var kept := Kept(base, input, runs[0]);
    Prefixed(base, input, From(runs[0].result, |base| + |input|), Added(|base + kept|, later, runs[1..]));
  }

  lemma {:induction false} Prefixed(a: seq<Message>, b: seq<Message>, c: seq<Message>, d: seq<Message>)
    ensures a + b <= (a + (b + c)) + d
  {
  }

  // ── The queue ──────────────────────────────────────────────────────

  /** An arriving message is refused if and only if the queue is full; otherwise it
      is put at the end. */
  lemma {:induction false} ArrivalExactly(st: Store, text: string)
    ensures
      var queue := Handle(st, Arrive(text)).queue;
      if |st.queue| < st.capacity then queue == st.queue + [text] else queue == st.queue
  {
  }

  /** Whatever happens to the queue, it gets no longer than it was or the largest
      capacity that was set. */
  lemma {:induction false} QueueIsBounded(st: Store, es: seq<QueueEvent>, most: nat)
    requires |st.queue| <= most && st.capacity <= most
    requires forall e :: e in es && e.Resize? ==> e.capacity <= most
    ensures |HandleAll(st, es).queue| <= most && HandleAll(st, es).capacity <= most
    decreases es
  {
    if es != [] {
      assert es[0] in es;
      QueueIsBounded(Handle(st, es[0]), es[1..], most);
    }
  }

  /** A new capacity drops nothing, and a negative one is none. */
  lemma {:induction false} ResizeExactly(st: Store, capacity: int)
    ensures Handle(st, Resize(capacity)) == st.(capacity := if capacity >= 0 then capacity else 0)
  {
  }
}
