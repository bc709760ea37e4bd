/** Turns against the stored conversations: what a finished turn commits, what
    a failed one rolls back, and how queued messages become further turns. */
module DrainLoop {
  import opened Messages

  type Key = string

  /** What other threads do to the queue while a turn runs. It belongs to the
      handle, so another session's drain loop takes messages from it too. */
  datatype QueueEvent = Arrive(text: string) | Clear | Resize(capacity: int) | TakeElsewhere

  /** What one call of run() came to. */
  datatype TurnRun = TurnRun(result: seq<Message>, failed: bool, events: seq<QueueEvent>)

  datatype Store = Store(
    conversations: map<Key, seq<Message>>, queue: seq<string>, capacity: int, failedTurns: map<Key, seq<Message>>)

  function Conversation(st: Store, key: Key): seq<Message> {
    if key in st.conversations then st.conversations[key] else []
  }

  function UserMessage(text: string): Message {
    Message("user", text, map[])
  }

  // ── The queue ──────────────────────────────────────────────────────

  predicate HasRoom(st: Store) {
    |st.queue| < (if st.capacity < 0 then 0 else st.capacity)
  }

  function Handle(st: Store, e: QueueEvent): Store {
    match e
    case Arrive(text) => if HasRoom(st) then st.(queue := st.queue + [text]) else st
    case Clear => st.(queue := [])
    case Resize(capacity) => st.(capacity := if capacity < 0 then 0 else capacity)
    case TakeElsewhere => if st.queue == [] then st else Pop(st)
  }

  function HandleAll(st: Store, es: seq<QueueEvent>): Store
    decreases es
  {
    if es == [] then st else HandleAll(Handle(st, es[0]), es[1..])
  }

  function Pop(st: Store): Store
    requires st.queue != []
  {
    st.(queue := st.queue[1..])
  }

  // ── One turn ───────────────────────────────────────────────────────

  function From(ms: seq<Message>, n: nat): seq<Message> {
    if n <= |ms| then ms[n..] else []
  }

  function Settle(st: Store, key: Key, input: seq<Message>, run: TurnRun): Store {
    var base := Conversation(st, key);
    if run.failed then
      st.(conversations := st.conversations[key := base],
          failedTurns := st.failedTurns[key := From(run.result, |base|)])
    else
      st.(conversations := st.conversations[key := base + input + From(run.result, |base + input|)])
  }

  /** A turn settled, with what happened to the queue meanwhile. */
  function Turn(st: Store, key: Key, input: seq<Message>, run: TurnRun): Store {
    Settle(HandleAll(st, run.events), key, input, run)
  }

  predicate Continues(st: Store, key: Key, input: seq<Message>, run: TurnRun) {
    !run.failed && Turn(st, key, input, run).queue != []
  }

  // ── The drain loop ─────────────────────────────────────────────────

  /** The store after the turns that the calls of run() in `runs` allow. */
  function Drain(st: Store, key: Key, input: seq<Message>, runs: seq<TurnRun>): Store
    decreases runs
  {
    if runs == [] then st
    else
      var st' := Turn(st, key, input, runs[0]);
      if Continues(st, key, input, runs[0]) then Drain(Pop(st'), key, [UserMessage(st'.queue[0])], runs[1..]) else st'
  }

  /** The number of turns taken. */
  function Turns(st: Store, key: Key, input: seq<Message>, runs: seq<TurnRun>): nat
    decreases runs
  {
    if runs == [] then 0
    else
      var st' := Turn(st, key, input, runs[0]);
      1 + if Continues(st, key, input, runs[0]) then Turns(Pop(st'), key, [UserMessage(st'.queue[0])], runs[1..]) else 0
  }

  /** The inputs of the turns taken. */
  function Inputs(st: Store, key: Key, input: seq<Message>, runs: seq<TurnRun>): seq<seq<Message>>
    decreases runs
  {
    if runs == [] then []
    else
      var st' := Turn(st, key, input, runs[0]);
      [input] + if Continues(st, key, input, runs[0])
                then Inputs(Pop(st'), key, [UserMessage(st'.queue[0])], runs[1..]) else []
  }

  // ── What the conversation becomes ──────────────────────────────────

  /** What the turns with these inputs and results add to a conversation of
      `length` messages. */
  function Added(length: nat, inputs: seq<seq<Message>>, runs: seq<TurnRun>): seq<Message>
    requires |inputs| <= |runs|
    decreases inputs
  {
    if inputs == [] then []
    else if runs[0].failed then Added(length, inputs[1..], runs[1..])
    else
      var kept := inputs[0] + From(runs[0].result, length + |inputs[0]|);
      kept + Added(length + |kept|, inputs[1..], runs[1..])
  }

  lemma {:induction false} HandleAllKeeps(st: Store, es: seq<QueueEvent>)
    ensures HandleAll(st, es).conversations == st.conversations
    ensures HandleAll(st, es).failedTurns == st.failedTurns
    decreases es
  {
    if es != [] { HandleAllKeeps(Handle(st, es[0]), es[1..]); }
  }

  lemma {:induction false} TurnConversation(st: Store, key: Key, input: seq<Message>, run: TurnRun)
    ensures
      var base, st' := Conversation(st, key), Turn(st, key, input, run);
      if run.failed then
        Conversation(st', key) == base && key in st'.failedTurns && st'.failedTurns[key] == From(run.result, |base|)
      else Conversation(st', key) == base + (input + From(run.result, |base| + |input|))
  {
    HandleAllKeeps(st, run.events);
  }

  lemma {:induction false} InputsFit(st: Store, key: Key, input: seq<Message>, runs: seq<TurnRun>)
    ensures |Inputs(st, key, input, runs)| == Turns(st, key, input, runs) <= |runs|
    decreases runs
  {
    if runs != [] && Continues(st, key, input, runs[0]) {
      var st' := Turn(st, key, input, runs[0]);
      InputsFit(Pop(st'), key, [UserMessage(st'.queue[0])], runs[1..]);
    }
  }

  lemma {:induction false} Regroup(a: seq<Message>, b: seq<Message>, c: seq<Message>)
    ensures (a + b) + c == a + (b + c)
  {
  }

  /** The stored conversation is the starting one followed by each successful
      turn's input and the suffix of its result; a failed turn adds nothing. */
  lemma {:induction false} DrainCommits(st: Store, key: Key, input: seq<Message>, runs: seq<TurnRun>)
    ensures |Inputs(st, key, input, runs)| <= |runs|
    ensures Conversation(Drain(st, key, input, runs), key) ==
            Conversation(st, key) + Added(|Conversation(st, key)|, Inputs(st, key, input, runs), runs)
    decreases runs
  {
    InputsFit(st, key, input, runs);
    if runs != [] {
      if Continues(st, key, input, runs[0]) {
        var st' := Turn(st, key, input, runs[0]);
        DrainCommits(Pop(st'), key, [UserMessage(st'.queue[0])], runs[1..]);
        CommitsAndContinues(st, key, input, runs);
      } else {
        CommitsLast(st, key, input, runs);
      }
    }
  }

  /** What a turn does to the conversation. */
  function Kept(base: seq<Message>, input: seq<Message>, run: TurnRun): seq<Message> {
    if run.failed then [] else input + From(run.result, |base| + |input|)
  }

  lemma {:induction false} TurnAdds(st: Store, key: Key, input: seq<Message>, run: TurnRun)
    ensures Conversation(Turn(st, key, input, run), key) ==
            Conversation(st, key) + Kept(Conversation(st, key), input, run)
  {
    TurnConversation(st, key, input, run);
  }

  /** The last turn of a drain, failed or not. */
  lemma {:induction false} CommitsLast(st: Store, key: Key, input: seq<Message>, runs: seq<TurnRun>)
    requires runs != [] && !Continues(st, key, input, runs[0])
    ensures Inputs(st, key, input, runs) == [input]
    ensures Conversation(Drain(st, key, input, runs), key) ==
            Conversation(st, key) + Added(|Conversation(st, key)|, [input], runs)
  {
    TurnAdds(st, key, input, runs[0]);
    AddedStep(Conversation(st, key), input, [], runs);
    assert [input] + [] == [input];
  }

  /** A turn that another one follows. */
  lemma {:induction false} CommitsAndContinues(st: Store, key: Key, input: seq<Message>, runs: seq<TurnRun>)
    requires runs != [] && Continues(st, key, input, runs[0])
    requires
      var st' := Turn(st, key, input, runs[0]);
      var st1, next := Pop(st'), [UserMessage(st'.queue[0])];
      && |Inputs(st1, key, next, runs[1..])| <= |runs[1..]|
      && Conversation(Drain(st1, key, next, runs[1..]), key) ==
         Conversation(st1, key) + Added(|Conversation(st1, key)|, Inputs(st1, key, next, runs[1..]), runs[1..])
    ensures |Inputs(st, key, input, runs)| <= |runs|
    ensures Conversation(Drain(st, key, input, runs), key) ==
            Conversation(st, key) + Added(|Conversation(st, key)|, Inputs(st, key, input, runs), runs)
  {
    var st' := Turn(st, key, input, runs[0]);
    var later := Inputs(Pop(st'), key, [UserMessage(st'.queue[0])], runs[1..]);
    TurnAdds(st, key, input, runs[0]);
    assert Conversation(Pop(st'), key) == Conversation(st', key);
    AddedStep(Conversation(st, key), input, later, runs);
  }

  lemma {:induction false} AddedStep(base: seq<Message>, input: seq<Message>, later: seq<seq<Message>>,
                                     runs: seq<TurnRun>)
    requires 1 + |later| <= |runs|
    ensures
      var kept := Kept(base, input, runs[0]);
      base + Added(|base|, [input] + later, runs) == (base + kept) + Added(|base + kept|, later, runs[1..])
  {
    var inputs, kept := [input] + later, Kept(base, input, runs[0]);
    assert inputs[0] == input && inputs[1..] == later;
    Regroup(base, kept, Added(|base| + |kept|, later, runs[1..]));
    assert base + [] == base;
  }

  /** Wherever in the drain a turn fails, the drain ends there: the conversation
      is exactly what it was before that turn, what the turn had produced is kept
      aside, and of the queue nothing more is taken. */
  lemma {:induction false} FailedTurnRestores(st: Store, key: Key, input: seq<Message>, runs: seq<TurnRun>, k: nat)
    requires k < Turns(st, key, input, runs) && k < |runs| && runs[k].failed
    ensures
      var before, after := Drain(st, key, input, runs[..k]), Drain(st, key, input, runs);
      && Turns(st, key, input, runs) == k + 1
      && Conversation(after, key) == Conversation(before, key)
      && after.conversations == before.conversations[key := Conversation(before, key)]
      && after.queue == HandleAll(before, runs[k].events).queue
      && after.failedTurns == before.failedTurns[key := From(runs[k].result, |Conversation(before, key)|)]
    decreases k
  {
    if k == 0 {
      assert runs[..0] == [];
      TurnConversation(st, key, input, runs[0]);
      HandleAllKeeps(st, runs[0].events);
    } else {
      var st' := Turn(st, key, input, runs[0]);
      assert runs[..k][1..] == runs[1..][..k - 1] && runs[..k][0] == runs[0];
      FailedTurnRestores(Pop(st'), key, [UserMessage(st'.queue[0])], runs[1..], k - 1);
    }
  }

  /** When run() returns what it was sent and more, all of it is stored. */
  lemma {:induction false} WholeResultIsStored(st: Store, key: Key, input: seq<Message>, run: TurnRun)
    requires !run.failed
    ensures
      var sent, stored := Conversation(st, key) + input, Conversation(Turn(st, key, input, run), key);
      (stored == run.result <==> sent <= run.result) && (|run.result| <= |sent| ==> stored == sent)
  {
    var sent, stored := Conversation(st, key) + input, Conversation(Turn(st, key, input, run), key);
    TurnConversation(st, key, input, run);
    assert stored == sent + From(run.result, |sent|);
    if sent <= run.result {
      assert run.result == sent + run.result[|sent|..];
    }
  }

  lemma {:induction false} SuffixOfConcat(a: seq<Message>, b: seq<Message>, n: nat)
    ensures From(a + b, n) == if |a| <= n then From(b, n - |a|) else a[n..] + b
    ensures From(a + b, n) == b <==> |a| == n || (b == [] && |a| <= n)
  {
    if |a| <= n <= |a| + |b| { assert (a + b)[n..] == b[n - |a|..]; }
    if n < |a| { assert |a[n..] + b| > |b|; }
  }

  /** A turn that rewrites what it was sent, as a compaction does, before its
      last messages: of those it loses as many as the rewritten part is shorter
      than what was sent; if that part is longer, its end is stored before them.
      They are stored as they are if and only if the sizes are the same. */
  lemma {:induction false} RewrittenTurnIsStored(st: Store, key: Key, input: seq<Message>, run: TurnRun,
                                                 rewritten: seq<Message>, last: seq<Message>)
    requires !run.failed && run.result == rewritten + last
    ensures
      var sent, stored := Conversation(st, key) + input, Conversation(Turn(st, key, input, run), key);
      && stored == sent + (if |rewritten| <= |sent| then From(last, |sent| - |rewritten|)
                           else rewritten[|sent|..] + last)
      && (stored == sent + last <==> |rewritten| == |sent| || (last == [] && |rewritten| <= |sent|))
      && (|rewritten| + |last| <= |sent| ==> stored == sent)
  {
    var base := Conversation(st, key);
    TurnConversation(st, key, input, run);
    Regroup(base, input, From(run.result, |base| + |input|));
    StoredByPosition(base + input, rewritten, last);
  }

  lemma {:induction false} StoredByPosition(sent: seq<Message>, rewritten: seq<Message>, last: seq<Message>)
    ensures
      var stored := sent + From(rewritten + last, |sent|);
      && stored == sent + (if |rewritten| <= |sent| then From(last, |sent| - |rewritten|)
                           else rewritten[|sent|..] + last)
      && (stored == sent + last <==> |rewritten| == |sent| || (last == [] && |rewritten| <= |sent|))
      && (|rewritten| + |last| <= |sent| ==> stored == sent)
  {
    var suffix := From(rewritten + last, |sent|);
    SuffixOfConcat(rewritten, last, |sent|);
    assert (sent + suffix)[|sent|..] == suffix && (sent + last)[|sent|..] == last;
    assert sent + [] == sent;
  }

  /** No other session's conversation changes. */
  lemma {:induction false} OtherSessionsUnchanged(st: Store, key: Key, input: seq<Message>, runs: seq<TurnRun>,
      other: Key)
    requires other != key
    ensures
      var st' := Drain(st, key, input, runs);
      && (other in st'.conversations <==> other in st.conversations)
      && Conversation(st', other) == Conversation(st, other)
      && (other in st'.failedTurns <==> other in st.failedTurns)
      && (other in st.failedTurns ==> st'.failedTurns[other] == st.failedTurns[other])
    decreases runs
  {
    if runs != [] {
      var st' := Turn(st, key, input, runs[0]);
      HandleAllKeeps(st, runs[0].events);
      if Continues(st, key, input, runs[0]) {
        OtherSessionsUnchanged(Pop(st'), key, [UserMessage(st'.queue[0])], runs[1..], other);
      }
    }
  }

  // ── First in, first out ────────────────────────────────────────────

  /** How an accepted message left the queue. */
  datatype Gone = Taken(text: string) | TakenElsewhere(text: string) | Dropped(text: string)

  function Texts(gone: seq<Gone>): seq<string> {
    seq(|gone|, i requires 0 <= i < |gone| => gone[i].text)
  }

  function DroppedAll(texts: seq<string>): seq<Gone> {
    seq(|texts|, i requires 0 <= i < |texts| => Dropped(texts[i]))
  }

  /** Messages that leave the queue while `es` happen, in their order. */
  function GoneIn(st: Store, es: seq<QueueEvent>): seq<Gone>
    decreases es
  {
    if es == [] then []
    else GoneAt(st, es[0]) + GoneIn(Handle(st, es[0]), es[1..])
  }

  /** Messages that are accepted while `es` happen, in their order. */
  function AcceptedIn(st: Store, es: seq<QueueEvent>): seq<string>
    decreases es
  {
    if es == [] then []
    else AcceptedAt(st, es[0]) + AcceptedIn(Handle(st, es[0]), es[1..])
  }

  function AllGone(st: Store, key: Key, input: seq<Message>, runs: seq<TurnRun>): seq<Gone>
    decreases runs
  {
    if runs == [] then []
    else
      var st', gone := Turn(st, key, input, runs[0]), GoneIn(st, runs[0].events);
      if Continues(st, key, input, runs[0])
      then gone + ([Taken(st'.queue[0])] + AllGone(Pop(st'), key, [UserMessage(st'.queue[0])], runs[1..]))
      else gone
  }

  function AllAccepted(st: Store, key: Key, input: seq<Message>, runs: seq<TurnRun>): seq<string>
    decreases runs
  {
    if runs == [] then []
    else
      var st', accepted := Turn(st, key, input, runs[0]), AcceptedIn(st, runs[0].events);
      if Continues(st, key, input, runs[0])
      then accepted + AllAccepted(Pop(st'), key, [UserMessage(st'.queue[0])], runs[1..])
      else accepted
  }

  lemma {:induction false} TextsConcat(a: seq<Gone>, b: seq<Gone>)
    ensures Texts(a + b) == Texts(a) + Texts(b)
  {
  }

  function GoneAt(st: Store, e: QueueEvent): seq<Gone> {
    if e.Clear? then DroppedAll(st.queue)
    else if e.TakeElsewhere? && st.queue != [] then [TakenElsewhere(st.queue[0])]
    else []
  }

  function AcceptedAt(st: Store, e: QueueEvent): seq<string> {
    if e.Arrive? && HasRoom(st) then [e.text] else []
  }

  lemma {:induction false} EventKeepsOrder(st: Store, e: QueueEvent)
    ensures Texts(GoneAt(st, e)) + Handle(st, e).queue == st.queue + AcceptedAt(st, e)
  {
    assert Texts(DroppedAll(st.queue)) == st.queue;
    if st.queue != [] {
      assert Texts([TakenElsewhere(st.queue[0])]) == [st.queue[0]];
      assert [st.queue[0]] + st.queue[1..] == st.queue;
    }
  }

  lemma {:induction false} EventsKeepOrder(st: Store, es: seq<QueueEvent>)
    ensures Texts(GoneIn(st, es)) + HandleAll(st, es).queue == st.queue + AcceptedIn(st, es)
    decreases es
  {
    if es != [] {
      var st1, gone, accepted := Handle(st, es[0]), GoneAt(st, es[0]), AcceptedAt(st, es[0]);
      EventKeepsOrder(st, es[0]);
      EventsKeepOrder(st1, es[1..]);
      TextsConcat(gone, GoneIn(st1, es[1..]));
      OrderChains(Texts(gone), st.queue, accepted, st1.queue,
                  Texts(GoneIn(st1, es[1..])), HandleAll(st1, es[1..]).queue, AcceptedIn(st1, es[1..]));
    }
  }

  lemma {:induction false} OrderChains(gone: seq<string>, queue: seq<string>, accepted: seq<string>, now: seq<string>,
                    later: seq<string>, end: seq<string>, more: seq<string>)
    requires gone + now == queue + accepted && later + end == now + more
    ensures gone + later + end == queue + (accepted + more)
  {
    calc {
      gone + later + end;
      gone + (later + end);
      gone + (now + more);
      gone + now + more;
      queue + accepted + more;
    }
  }

  /** Messages leave the queue in the order in which they were accepted: those
      taken or dropped, followed by those still queued, are those that were
      queued at the start, followed by those accepted since. */
  lemma {:induction false} QueueIsFifo(st: Store, key: Key, input: seq<Message>, runs: seq<TurnRun>)
    ensures Texts(AllGone(st, key, input, runs)) + Drain(st, key, input, runs).queue ==
            st.queue + AllAccepted(st, key, input, runs)
    decreases runs
  {
    if runs != [] {
      var st', es := Turn(st, key, input, runs[0]), runs[0].events;
      EventsKeepOrder(st, es);
      assert st'.queue == HandleAll(st, es).queue;
      if Continues(st, key, input, runs[0]) {
        var next := [UserMessage(st'.queue[0])];
        QueueIsFifo(Pop(st'), key, next, runs[1..]);
        FifoStep(Texts(GoneIn(st, es)), st.queue, AcceptedIn(st, es), st'.queue,
                 Texts(AllGone(Pop(st'), key, next, runs[1..])), Drain(st, key, input, runs).queue,
                 AllAccepted(Pop(st'), key, next, runs[1..]));
        TextsConcat(GoneIn(st, es), [Taken(st'.queue[0])] + AllGone(Pop(st'), key, next, runs[1..]));
        TextsConcat([Taken(st'.queue[0])], AllGone(Pop(st'), key, next, runs[1..]));
        assert Texts([Taken(st'.queue[0])]) == [st'.queue[0]];
      }
    }
  }

  lemma {:induction false} FifoStep(gone: seq<string>, queue: seq<string>, accepted: seq<string>, now: seq<string>,
                 later: seq<string>, end: seq<string>, more: seq<string>)
    requires now != [] && gone + now == queue + accepted
    requires later + end == now[1..] + more
    ensures gone + ([now[0]] + later) + end == queue + (accepted + more)
  {
    assert now == [now[0]] + now[1..];
    assert [now[0]] + later + end == [now[0]] + (later + end) == now + more;
    OrderChains(gone, queue, accepted, now, [now[0]] + later, end, more);
  }

  function TakenTexts(gone: seq<Gone>): seq<string> {
    if gone == [] then []
    else if gone[0].Taken? then [gone[0].text] + TakenTexts(gone[1..])
    else TakenTexts(gone[1..])
  }

  lemma {:induction false} TakenConcat(a: seq<Gone>, b: seq<Gone>)
    ensures TakenTexts(a + b) == TakenTexts(a) + TakenTexts(b)
  {
    if a == [] {
      assert a + b == b;
    } else {
      assert (a + b)[1..] == a[1..] + b;
      TakenConcat(a[1..], b);
    }
  }

  lemma {:induction false} EventsTakeNothing(st: Store, es: seq<QueueEvent>)
    ensures TakenTexts(GoneIn(st, es)) == []
    decreases es
  {
    if es != [] {
      EventsTakeNothing(Handle(st, es[0]), es[1..]);
      var first := GoneAt(st, es[0]);
      TakenConcat(first, GoneIn(Handle(st, es[0]), es[1..]));
      NoneTaken(first);
    }
  }

  lemma {:induction false} NoneTaken(gone: seq<Gone>)
    requires forall g :: g in gone ==> !g.Taken?
    ensures TakenTexts(gone) == []
  {
    if gone != [] {
      assert gone[0] in gone;
      NoneTaken(gone[1..]);
    }
  }

  function AsInputs(texts: seq<string>): seq<seq<Message>> {
    seq(|texts|, i requires 0 <= i < |texts| => [UserMessage(texts[i])])
  }

  lemma {:induction false} AsInputsCons(text: string, texts: seq<string>)
    ensures AsInputs([text] + texts) == [[UserMessage(text)]] + AsInputs(texts)
  {
  }

  /** Every message taken becomes exactly one turn, in the order taken. */
  lemma {:induction false} TakenMessagesAreTurns(st: Store, key: Key, input: seq<Message>, runs: seq<TurnRun>)
    requires Turns(st, key, input, runs) < |runs|
    ensures Inputs(st, key, input, runs) == [input] + AsInputs(TakenTexts(AllGone(st, key, input, runs)))
    decreases runs
  {
    var st', es := Turn(st, key, input, runs[0]), runs[0].events;
    EventsTakeNothing(st, es);
    if Continues(st, key, input, runs[0]) {
      var text := st'.queue[0];
      var next := [UserMessage(text)];
      var gone := AllGone(Pop(st'), key, next, runs[1..]);
      TakenMessagesAreTurns(Pop(st'), key, next, runs[1..]);
      TakenConcat(GoneIn(st, es), [Taken(text)] + gone);
      assert ([Taken(text)] + gone)[1..] == gone;
      AsInputsCons(text, TakenTexts(gone));
    }
  }
}
