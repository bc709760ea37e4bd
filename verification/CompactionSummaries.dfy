/** What a compaction's summary says: the task it names and the tool calls it
    lists. */
module CompactionSummaries {
  import opened Messages
  import opened Compaction

  // ── The task ───────────────────────────────────────────────────────

  /** A long text keeps its first 500 bytes and gets an ellipsis. */
  lemma {:induction false} TaskIsClipped(task: string)
    ensures |task| <= 500 ==> Truncate(task) == task
    ensures |task| > 500 ==> |Truncate(task)| == 503 && Truncate(task) == task[..500] + "..."
  {
  }

  /** `k` is the first message that satisfies `p`. */
  ghost predicate FirstAt(p: Message -> bool, ms: seq<Message>, k: nat) {
    k < |ms| && p(ms[k]) && forall j :: 0 <= j < k ==> !p(ms[j])
  }

  predicate Tagged(m: Message) {
    "source" in m.metadata && m.metadata["source"] == "user"
  }

  /** In the user's role, not empty, and not a tool result. */
  predicate Asks(m: Message) {
    && m.role == "user" && m.content != ""
    && !("Tool `" <= m.content) && !("source" in m.metadata && m.metadata["source"] == "tool")
  }

  lemma {:induction false} TaggedIsFound(ms: seq<Message>, k: nat)
    requires FirstAt(Tagged, ms, k)
    ensures FindTagged(ms) == ms[k].content
    decreases ms
  {
    if k > 0 {
      assert !Tagged(ms[0]);
      TaggedIsFound(ms[1..], k - 1);
    }
  }

  lemma {:induction false} NoneTagged(ms: seq<Message>)
    requires forall m :: m in ms ==> !Tagged(m)
    ensures FindTagged(ms) == ""
    decreases ms
  {
    if ms != [] {
      assert ms[0] in ms;
      NoneTagged(ms[1..]);
    }
  }

  lemma {:induction false} AskedIsFound(ms: seq<Message>, k: nat)
    requires FirstAt(Asks, ms, k)
    ensures FindFirstUserTask(ms) == ms[k].content
    decreases ms
  {
    if k > 0 {
      assert !Asks(ms[0]);
      AskedIsFound(ms[1..], k - 1);
    }
  }

  lemma {:induction false} NoneAsks(ms: seq<Message>)
    requires forall m :: m in ms ==> !Asks(m)
    ensures FindFirstUserTask(ms) == ""
    decreases ms
  {
    if ms != [] {
      assert ms[0] in ms;
      NoneAsks(ms[1..]);
    }
  }

  /** The first tagged message does not name a task: there is none, or it is
      empty. */
  ghost predicate NoTaggedTask(ms: seq<Message>) {
    (forall m :: m in ms ==> !Tagged(m)) || exists k: nat :: FirstAt(Tagged, ms, k) && ms[k].content == ""
  }

  /** The task is the first tagged message, unless it is empty; then the first that
      asks something; and else the wording for none. */
  lemma {:induction false} TaskExactly(w: Wording, ms: seq<Message>)
    ensures forall k: nat :: FirstAt(Tagged, ms, k) && ms[k].content != "" ==>
              OriginalTask(w, ms) == Truncate(ms[k].content)
    ensures NoTaggedTask(ms) ==>
            && (forall k: nat :: FirstAt(Asks, ms, k) ==> OriginalTask(w, ms) == Truncate(ms[k].content))
            && ((forall m :: m in ms ==> !Asks(m)) ==> OriginalTask(w, ms) == w.noTask)
  {
    forall k: nat | FirstAt(Tagged, ms, k) ensures FindTagged(ms) == ms[k].content { TaggedIsFound(ms, k); }
    if forall m :: m in ms ==> !Tagged(m) { NoneTagged(ms); }
    forall k: nat | FirstAt(Asks, ms, k) ensures FindFirstUserTask(ms) == ms[k].content != "" { AskedIsFound(ms, k); }
    if forall m :: m in ms ==> !Asks(m) { NoneAsks(ms); }
  }

  // ── The log ────────────────────────────────────────────────────────

  /** The first line of a text, at most `limit` bytes of it, and no less. */
  lemma {:induction false} BriefIsFirstLine(text: string, limit: nat)
    ensures
      var b := Brief(text, limit);
      && b <= text && |b| <= limit && '\n' !in b
      && (|b| < limit && |b| < |text| ==> text[|b|] == '\n')
    decreases text
  {
    if text != "" && text[0] != '\n' && limit > 0 { BriefIsFirstLine(text[1..], limit - 1); }
  }

  lemma {:induction false} LogConcat(a: seq<Message>, b: seq<Message>)
    ensures ToolLog(a + b) == ToolLog(a) + ToolLog(b)
  {
    if a == [] {
      assert a + b == b;
    } else {
      assert (a + b)[1..] == a[1..] + b;
      LogConcat(a[1..], b);
      var line := if "tool_name" in a[0].metadata then LogLine(a[0]) else "";
      Assoc(line, ToolLog(a[1..]), ToolLog(b));
    }
  }

  /** One line of the log. */
  function Line(name: string, what: string): string {
    "\n- " + name + ": " + what
  }

  /** Wherever it stands, a message that names a tool has a line of its own in the
      log, with its first line up to 100 bytes, or the mark of a pruned one; a
      message that names none has no line. */
  lemma {:induction false} LogExactly(a: seq<Message>, m: Message, b: seq<Message>)
    ensures ToolLog(a + [m] + b) ==
            ToolLog(a) +
            (if "tool_name" !in m.metadata then ""
             else if "[Previous:" <= m.content then Line(m.metadata["tool_name"], "(pruned)")
             else Line(m.metadata["tool_name"], Brief(m.content, 100))) +
            ToolLog(b)
  {
    LogConcat(a + [m], b);
    LogConcat(a, [m]);
    assert [m][1..] == [] && ToolLog([]) == "";
    var line := if "tool_name" in m.metadata then LogLine(m) else "";
    assert ToolLog([m]) == line + "";
    assert line + "" == line;
  }

  // ── The summary ────────────────────────────────────────────────────

  /** The summary gives the number of messages it stands for, the task, and the
      log where there is one. */
  lemma {:induction false} SummaryReads(w: Wording, ms: seq<Message>)
    ensures
      var m, before := SummaryMessage(w, ms), w.head + Decimal(|ms|) + w.middle + w.taskLabel + OriginalTask(w, ms);
      && m.role == "user" && m.metadata == map[]
      && (ToolLog(ms) == "" ==> m.content == before + w.end)
      && (ToolLog(ms) != "" ==> m.content == before + w.logLabel + ToolLog(ms) + w.end)
  {
    var task, log := OriginalTask(w, ms), ToolLog(ms);
    var head := w.head + Decimal(|ms|) + w.middle;
    assert task + "" == task;
    assert head + (w.taskLabel + task) == head + w.taskLabel + task;
    assert head + (w.taskLabel + task + (w.logLabel + log)) == head + w.taskLabel + task + w.logLabel + log;
  }
}
