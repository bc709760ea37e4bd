/** The engine's conversations and message queue, and the two ways in which a
    turn is run against them. */
module Sessions {
  import opened Messages
  import opened DrainLoop

  // ── System prompts ─────────────────────────────────────────────────

  /** A workspace's prompts: one for turns without a tier, and one per tier. */
  datatype WorkspacePrompts = WorkspacePrompts(untiered: string, tiers: map<string, string>)

  /** The handle's prompt, the tiers' own, the workspaces', and the workspace
      that each session is bound to. */
  datatype Prompts = Prompts(handle: string, tiers: map<string, string>,
                             workspaces: map<string, WorkspacePrompts>, bound: map<Key, string>)

  function WorkspacePrompt(ps: Prompts, key: Key, tier: string): Option<string> {
    if key !in ps.bound || ps.bound[key] !in ps.workspaces then None
    else
      var ws := ps.workspaces[ps.bound[key]];
      if tier == "" then Some(ws.untiered)
      else if tier in ws.tiers then Some(ws.tiers[tier])
      else None
  }

  /** The prompt of a turn that names no tier. */
  function SessionPrompt(ps: Prompts, key: Key): string {
    var ws := WorkspacePrompt(ps, key, "");
    if ws.Some? then ws.value else ps.handle
  }

  /** The prompt of a turn on `tier`: its workspace's, else its own if it has
      one, else the session's. */
  function TierPrompt(ps: Prompts, key: Key, tier: string): string {
    var ws := WorkspacePrompt(ps, key, tier);
    if ws.Some? then ws.value
    else if tier in ps.tiers && ps.tiers[tier] != "" then ps.tiers[tier]
    else SessionPrompt(ps, key)
  }

  function HasSystem(ms: seq<Message>): bool {
    exists i :: 0 <= i < |ms| && ms[i].role == "system"
  }

  /** The conversation with the system prompt put first, where it is needed. */
  function Seeded(conversation: seq<Message>, prompt: string, input: seq<Message>): seq<Message> {
    if conversation == [] && prompt != "" && !HasSystem(input) then [Message("system", prompt, map[])] else conversation
  }

  function Seed(st: Store, key: Key, prompt: string, input: seq<Message>): Store {
    st.(conversations := st.conversations[key := Seeded(Conversation(st, key), prompt, input)])
  }

  class AgentEngine {
    var conversations: map<Key, seq<Message>>
    var queue: seq<string>
    var capacity: int
    var failedTurns: map<Key, seq<Message>>
    const prompts: Prompts

    constructor (prompts: Prompts, capacity: int)
      ensures View() == Store(map[], [], capacity, map[]) && this.prompts == prompts
    {
      conversations, queue, failedTurns := map[], [], map[];
      this.capacity, this.prompts := capacity, prompts;
    }

    ghost function View(): Store
      reads this
    {
      Store(conversations, queue, capacity, failedTurns)
    }

    method QueueUserMessage(text: string) returns (accepted: bool)
      modifies this`queue
      ensures View() == Handle(old(View()), Arrive(text))
      ensures accepted == HasRoom(old(View()))
    {
      var cap := if capacity < 0 then 0 else capacity;
      if |queue| >= cap { return false; }
      queue := queue + [text];
      accepted := true;
    }

    method ClearUserMessageQueue()
      modifies this`queue
      ensures View() == Handle(old(View()), Clear)
    {
      queue := [];
    }

    method SetMessageQueueCapacity(cap: int)
      modifies this`capacity
      ensures View() == Handle(old(View()), Resize(cap))
    {
      capacity := if cap < 0 then 0 else cap;
    }

    method PopQueuedUserMessage() returns (front: Option<string>)
      modifies this`queue
      ensures if old(queue) == [] then front == None && queue == []
              else front == Some(old(queue)[0]) && View() == Pop(old(View()))
    {
      if queue == [] { return None; }
      front := Some(queue[0]);
      queue := queue[1..];
    }

    /** What other threads did to the queue while a turn ran. */
    method Absorb(events: seq<QueueEvent>)
      modifies this`queue, this`capacity
      ensures View() == HandleAll(old(View()), events)
    {
      for i := 0 to |events|
        invariant conversations == old(conversations) && failedTurns == old(failedTurns)
        invariant HandleAll(View(), events[i..]) == HandleAll(old(View()), events)
      {
        assert events[i..][1..] == events[i + 1..];
        match events[i]
        case Arrive(text) => var accepted := QueueUserMessage(text);
        case Clear => ClearUserMessageQueue();
        case Resize(cap) => SetMessageQueueCapacity(cap);
        case TakeElsewhere => var front := PopQueuedUserMessage();
      }
    }

    method SettleTurn(key: Key, result: seq<Message>, failed: bool, turnBegin: nat, sentLen: nat)
      requires key in conversations && turnBegin <= sentLen == |conversations[key]|
      modifies this`conversations, this`failedTurns
      ensures
        var convo := old(conversations)[key];
        if failed then
          && conversations == old(conversations)[key := convo[..turnBegin]]
          && failedTurns == old(failedTurns)[key := From(result, turnBegin)]
        else
          && conversations == old(conversations)[key := convo + From(result, sentLen)]
          && failedTurns == old(failedTurns)
    {
      var convo := conversations[key];
      if failed {
        var from := if turnBegin <= |result| then turnBegin else |result|;
        conversations := conversations[key := convo[..turnBegin]];
        failedTurns := failedTurns[key := result[from..]];
      } else {
        var i := sentLen;
        while i < |result|
          invariant sentLen <= i && (i == sentLen || i <= |result|)
          invariant convo == old(conversations)[key] + if i == sentLen then [] else result[sentLen..i]
        {
          convo := convo + [result[i]];
          i := i + 1;
        }
        assert convo == old(conversations)[key] + From(result, sentLen);
        conversations := conversations[key := convo];
      }
    }

    method AppendInput(key: Key, input: seq<Message>) returns (turnBegin: nat)
      modifies this`conversations
      ensures
        var base := Conversation(old(View()), key);
        turnBegin == |base| && conversations == old(conversations)[key := base + input]
    {
      var convo := if key in conversations then conversations[key] else [];
      turnBegin := |convo|;
      for i := 0 to |input|
        invariant convo == Conversation(old(View()), key) + input[..i]
        invariant conversations == old(conversations)
      {
        convo := convo + [input[i]];
      }
      assert input[..|input|] == input;
      conversations := conversations[key := convo];
    }

    method AppendAndSettle(key: Key, input: seq<Message>, run: TurnRun)
      modifies this`conversations, this`failedTurns
      ensures View() == Settle(old(View()), key, input, run)
    {
      ghost var base := Conversation(View(), key);
      var turnBegin := AppendInput(key, input);
      assert (base + input)[..turnBegin] == base;
      SettleTurn(key, run.result, run.failed, turnBegin, |conversations[key]|);
      assert conversations == old(conversations)[key := conversations[key]];
    }

    /** One turn: append the input, run, settle. Neither side of the queue looks
        at the conversations, so what happens to it is taken first. */
    method RunOneTurn(key: Key, input: seq<Message>, run: TurnRun)
      modifies this
      ensures View() == Turn(old(View()), key, input, run)
    {
      Absorb(run.events);
      AppendAndSettle(key, input, run);
    }

    /** run_drain_loop: `runs` are the successive outcomes of run(). */
    method RunDrainLoop(key: Key, text: string, runs: seq<TurnRun>) returns (result: seq<Message>)
      modifies this
      ensures View() == Drain(old(View()), key, [UserMessage(text)], runs)
      ensures runs != [] ==> 0 < Turns(old(View()), key, [UserMessage(text)], runs) <= |runs|
      ensures runs != [] ==> result == runs[Turns(old(View()), key, [UserMessage(text)], runs) - 1].result
    {
      result := DrainFrom(key, [UserMessage(text)], runs);
    }

    method DrainFrom(key: Key, input: seq<Message>, runs: seq<TurnRun>) returns (result: seq<Message>)
      modifies this
      ensures View() == Drain(old(View()), key, input, runs)
      ensures runs != [] ==> 0 < Turns(old(View()), key, input, runs) <= |runs|
      ensures runs != [] ==> result == runs[Turns(old(View()), key, input, runs) - 1].result
    {
      InputsFit(View(), key, input, runs);
      var pending := input;
      result := [];
      var i := 0;
      while i < |runs|
        invariant i <= |runs| && (i > 0 ==> result == runs[i - 1].result)
        invariant Drain(View(), key, pending, runs[i..]) == Drain(old(View()), key, input, runs)
        invariant i + Turns(View(), key, pending, runs[i..]) == Turns(old(View()), key, input, runs)
        decreases |runs| - i
      {
        var run := runs[i];
        assert runs[i..][1..] == runs[i + 1..];
        RunOneTurn(key, pending, run);
        result := run.result;
        i := i + 1;
        if run.failed { return; }
        var next := PopQueuedUserMessage();
        if next.None? { return; }
        pending := [UserMessage(next.value)];
      }
    }

    /** run_turn: seed the session's system prompt, then drain. */
    method RunTurn(key: Key, input: seq<Message>, runs: seq<TurnRun>) returns (result: seq<Message>)
      modifies this
      ensures View() == Drain(Seed(old(View()), key, SessionPrompt(prompts, key), input), key, input, runs)
      ensures
        var turns := Turns(Seed(old(View()), key, SessionPrompt(prompts, key), input), key, input, runs);
        runs != [] ==> 0 < turns <= |runs| && result == runs[turns - 1].result
    {
      var convo := if key in conversations then conversations[key] else [];
      var callerHasSystem := false;
      for i := 0 to |input|
        invariant callerHasSystem <==> exists j :: 0 <= j < i && input[j].role == "system"
      {
        if input[i].role == "system" { callerHasSystem := true; }
      }
      var prompt := SessionPrompt(prompts, key);
      if convo == [] && prompt != "" && !callerHasSystem {
        convo := [Message("system", prompt, map[])];
      }
      conversations := conversations[key := convo];
      result := DrainFrom(key, input, runs);
    }

    method SeedSystemPromptForTier(key: Key, tier: string, text: string)
      modifies this`conversations
      ensures View() == Seed(old(View()), key, TierPrompt(prompts, key, tier), [UserMessage(text)])
    {
      var convo := if key in conversations then conversations[key] else [];
      if convo == [] {
        var prompt := WorkspacePrompt(prompts, key, tier);
        if prompt.None? && tier in prompts.tiers && prompts.tiers[tier] != "" { prompt := Some(prompts.tiers[tier]); }
        if prompt.None? { prompt := Some(SessionPrompt(prompts, key)); }
        if prompt.value != "" { convo := [Message("system", prompt.value, map[])]; }
      }
      conversations := conversations[key := convo];
    }

    /** run_turn_as: a turn locked to a tier. */
    method RunTurnAs(key: Key, tier: string, text: string, runs: seq<TurnRun>) returns (result: seq<Message>)
      modifies this
      ensures
        var input := [UserMessage(text)];
        var seeded := Seed(old(View()), key, TierPrompt(prompts, key, tier), input);
        var turns := Turns(seeded, key, input, runs);
        && View() == Drain(seeded, key, input, runs)
        && (runs != [] ==> 0 < turns <= |runs| && result == runs[turns - 1].result)
    {
      SeedSystemPromptForTier(key, tier, text);
      result := RunDrainLoop(key, text, runs);
    }
  }
}
