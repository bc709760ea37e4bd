/** Value-density compaction: keep the system message, a summary, every
    user-tagged message and the last assistant message. */
module Compaction {
  import opened Messages

  // ── Token counting ─────────────────────────────────────────────────

  function CountText(text: string): nat {
    if text == "" then 0 else |text| / 4 + 1
  }

  function CountMessage(m: Message): nat {
    CountText(m.content) + 4
  }

  function CountMessages(ms: seq<Message>): nat {
    if ms == [] then 0 else CountMessages(ms[..|ms| - 1]) + CountMessage(ms[|ms| - 1])
  }

  method CountAll(ms: seq<Message>) returns (total: nat)
    ensures total == CountMessages(ms)
  {
    total := 0;
    for i := 0 to |ms|
      invariant total == CountMessages(ms[..i])
    {
      assert ms[..i + 1][..i] == ms[..i];
      total := total + CountMessage(ms[i]);
    }
    assert ms[..|ms|] == ms;
  }

  // ── Partition ──────────────────────────────────────────────────────

  predicate UserTagged(m: Message) {
    HasValue(m.metadata, "source", "user")
  }

  predicate KeptAssistant(m: Message) {
    !UserTagged(m) && m.role == "assistant"
  }

  function Users(ms: seq<Message>): seq<Message> {
    if ms == [] then []
    else (if UserTagged(ms[0]) then [ms[0]] else []) + Users(ms[1..])
  }

  /** The last assistant message, as a list of at most one. */
  function LastAssistant(ms: seq<Message>): seq<Message> {
    if ms == [] then []
    else if KeptAssistant(ms[|ms| - 1]) then [ms[|ms| - 1]]
    else LastAssistant(ms[..|ms| - 1])
  }

  lemma {:induction false} UsersConcat(a: seq<Message>, b: seq<Message>)
    ensures Users(a + b) == Users(a) + Users(b)
  {
    if a == [] {
      assert a + b == b;
    } else {
      assert (a + b)[1..] == a[1..] + b;
      UsersConcat(a[1..], b);
    }
  }

  lemma {:induction false} UsersSnoc(ms: seq<Message>, m: Message)
    ensures Users(ms + [m]) == Users(ms) + if UserTagged(m) then [m] else []
  {
    UsersConcat(ms, [m]);
    assert [m][1..] == [];
  }

  lemma {:induction false} LastAssistantSnoc(ms: seq<Message>, m: Message)
    ensures LastAssistant(ms + [m]) == if KeptAssistant(m) then [m] else LastAssistant(ms)
  {
    assert (ms + [m])[..|ms|] == ms;
  }

  function LastOf(ms: seq<Message>): seq<Message> {
    if ms == [] then [] else [ms[|ms| - 1]]
  }

  function Assistants(ms: seq<Message>): seq<Message> {
    if ms == [] then []
    else
      var n := |ms| - 1;
      if KeptAssistant(ms[n]) then Assistants(ms[..n]) + [ms[n]] else Assistants(ms[..n])
  }

  lemma {:induction false} LastOfAssistants(ms: seq<Message>)
    ensures LastOf(Assistants(ms)) == LastAssistant(ms)
  {
    if ms != [] { LastOfAssistants(ms[..|ms| - 1]); }
  }

  lemma {:induction false} AssistantsSnoc(ms: seq<Message>, m: Message)
    ensures Assistants(ms + [m]) == if KeptAssistant(m) then Assistants(ms) + [m] else Assistants(ms)
  {
    assert (ms + [m])[..|ms|] == ms;
  }

  /** `users` and `assistants` are the parts of `seen`. */
  ghost predicate Partitioned(seen: seq<Message>, users: seq<Message>, assistants: seq<Message>) {
    users == Users(seen) && assistants == Assistants(seen)
  }

  lemma {:induction false} PartitionStep(seen: seq<Message>, m: Message, users: seq<Message>, assistants: seq<Message>)
    requires Partitioned(seen, users, assistants)
    ensures UserTagged(m) ==> Partitioned(seen + [m], users + [m], assistants)
    ensures KeptAssistant(m) ==> Partitioned(seen + [m], users, assistants + [m])
    ensures !UserTagged(m) && !KeptAssistant(m) ==> Partitioned(seen + [m], users, assistants)
  {
    UsersSnoc(seen, m);
    AssistantsSnoc(seen, m);
  }

  lemma {:induction false} SliceSnoc(ms: seq<Message>, start: nat, i: nat)
    requires start <= i < |ms|
    ensures ms[start..i + 1] == ms[start..i] + [ms[i]]
  {
  }

  method PartitionMessages(messages: seq<Message>, start: nat)
      returns (users: seq<Message>, assistants: seq<Message>, stripped: nat)
    requires start <= |messages|
    ensures users == Users(messages[start..])
    ensures assistants == Assistants(messages[start..])
    ensures |users| + |assistants| + stripped == |messages| - start
  {
    users, assistants, stripped := [], [], 0;
    for i := start to |messages|
      invariant Partitioned(messages[start..i], users, assistants)
      invariant |users| + |assistants| + stripped == i - start
    {
      var msg := messages[i];
      SliceSnoc(messages, start, i);
      PartitionStep(messages[start..i], msg, users, assistants);
      if UserTagged(msg) {
        users := users + [msg];
      } else if msg.role == "assistant" {
        assistants := assistants + [msg];
      } else {
        stripped := stripped + 1;
      }
    }
    assert messages[start..] == messages[start..|messages|];
  }

  // ── Summary ────────────────────────────────────────────────────────

  /** The fixed wording of a summary; `Shipped` below is the one in use. */
  datatype Wording = Wording(head: string, middle: string, end: string,
                             taskLabel: string, logLabel: string, noTask: string)

  /** What the fixed-point theorems ask of it: it is not mistaken for a tool
      result, and long enough to fill the task limit when nested four times. */
  predicate Proper(w: Wording) {
    && w.head != "" && w.head[0] != 'T'
    && |w.head| + |w.middle| + |w.taskLabel| >= 125
  }

  const PRUNED_MARK := "[Previous:"
  const TASK_LIMIT: nat := 500
  const BRIEF_LIMIT: nat := 100

  predicate IsToolResult(m: Message) {
    StartsWith(m.content, "Tool `") || HasValue(m.metadata, "source", "tool")
  }

  /** find_tagged with source "user". */
  function FindTagged(ms: seq<Message>): string {
    if ms == [] then ""
    else if UserTagged(ms[0]) then ms[0].content
    else FindTagged(ms[1..])
  }

  function FindFirstUserTask(ms: seq<Message>): string {
    if ms == [] then ""
    else if ms[0].role == "user" && ms[0].content != "" && !IsToolResult(ms[0]) then ms[0].content
    else FindFirstUserTask(ms[1..])
  }

  function Truncate(task: string): string {
    if |task| > TASK_LIMIT then task[..TASK_LIMIT] + "..." else task
  }

  function OriginalTask(w: Wording, ms: seq<Message>): string {
    var tagged := FindTagged(ms);
    var task := if tagged == "" then FindFirstUserTask(ms) else tagged;
    if task == "" then w.noTask else Truncate(task)
  }

  /** The text up to the first newline, at most `limit` characters of it. */
  function Brief(text: string, limit: nat): string {
    if text == "" || text[0] == '\n' || limit == 0 then "" else [text[0]] + Brief(text[1..], limit - 1)
  }

  function LogLine(m: Message): string
    requires "tool_name" in m.metadata
  {
    "\n- " + m.metadata["tool_name"] + ": " +
    if StartsWith(m.content, PRUNED_MARK) then "(pruned)" else Brief(m.content, BRIEF_LIMIT)
  }

  /** The tool call log, one line per message that names a tool. */
  function ToolLog(ms: seq<Message>): string {
    if ms == [] then ""
    else (if "tool_name" in ms[0].metadata then LogLine(ms[0]) else "") + ToolLog(ms[1..])
  }

  function StructuredSummary(w: Wording, ms: seq<Message>): string {
    w.taskLabel + OriginalTask(w, ms) + if ToolLog(ms) == "" then "" else w.logLabel + ToolLog(ms)
  }

  function FormatSummary(w: Wording, summary: string, count: nat): string {
    w.head + Decimal(count) + w.middle + summary + w.end
  }

  function SummaryMessage(w: Wording, working: seq<Message>): Message {
    Message("user", FormatSummary(w, StructuredSummary(w, working), |working|), map[])
  }

  method ExtractToolLog(ms: seq<Message>) returns (log: string)
    ensures log == ToolLog(ms)
  {
    log := "";
    for i := 0 to |ms|
      invariant log + ToolLog(ms[i..]) == ToolLog(ms)
    {
      assert ms[i..][1..] == ms[i + 1..];
      var line := if "tool_name" in ms[i].metadata then LogLine(ms[i]) else "";
      Assoc(log, line, ToolLog(ms[i + 1..]));
      log := log + line;
    }
  }

  lemma {:induction false} Assoc(a: string, b: string, c: string)
    ensures a + b + c == a + (b + c)
  {
  }

  method StructuredSummaryOf(w: Wording, ms: seq<Message>) returns (summary: string)
    ensures summary == StructuredSummary(w, ms)
  {
    var log := ExtractToolLog(ms);
    summary := w.taskLabel + OriginalTask(w, ms) + if log == "" then "" else w.logLabel + log;
  }

  // ── Compaction ─────────────────────────────────────────────────────

  /** The leading system message, as a list of at most one. */
  function SystemOf(ms: seq<Message>): seq<Message> {
    if ms != [] && ms[0].role == "system" then [ms[0]] else []
  }

  function Working(ms: seq<Message>): seq<Message> {
    ms[|SystemOf(ms)|..]
  }

  function Compact(w: Wording, ms: seq<Message>): seq<Message> {
    SystemOf(ms) + [SummaryMessage(w, Working(ms))] + Users(Working(ms)) + LastAssistant(Working(ms))
  }

  method AssembleCompacted(system: seq<Message>, summary: Message, users: seq<Message>, assistants: seq<Message>)
      returns (result: seq<Message>)
    ensures result == system + [summary] + users + LastOf(assistants)
  {
    result := system + [summary];
    for i := 0 to |users|
      invariant result == system + [summary] + users[..i]
    {
      result := result + [users[i]];
    }
    if assistants != [] { result := result + [assistants[|assistants| - 1]]; }
  }

  method CompactList(w: Wording, messages: seq<Message>) returns (result: seq<Message>, stripped: nat)
    ensures result == Compact(w, messages)
    ensures stripped == |Working(messages)| - |Users(Working(messages))| - |Assistants(Working(messages))|
  {
    var system := SystemOf(messages);
    var start := |system|;
    var working := messages[start..];
    var users, assistants;
    users, assistants, stripped := PartitionMessages(messages, start);
    LastOfAssistants(working);
    var summary := StructuredSummaryOf(w, working);
    var summaryMsg := Message("user", FormatSummary(w, summary, |working|), map[]);
    result := AssembleCompacted(system, summaryMsg, users, assistants);
  }

  // ── What one compaction leaves for the next ────────────────────────

  lemma {:induction false} UsersAreTagged(ms: seq<Message>)
    ensures forall m :: m in Users(ms) ==> UserTagged(m)
  {
    if ms != [] { UsersAreTagged(ms[1..]); }
  }

  lemma {:induction false} UsersOfTagged(ms: seq<Message>)
    requires forall m :: m in ms ==> UserTagged(m)
    ensures Users(ms) == ms
  {
    if ms != [] { UsersOfTagged(ms[1..]); }
  }

  lemma {:induction false} LastAssistantShape(ms: seq<Message>)
    ensures |LastAssistant(ms)| <= 1
    ensures forall m :: m in LastAssistant(ms) ==> KeptAssistant(m)
  {
    if ms != [] { LastAssistantShape(ms[..|ms| - 1]); }
  }

  lemma {:induction false} NoAssistant(ms: seq<Message>)
    requires forall m :: m in ms ==> !KeptAssistant(m)
    ensures LastAssistant(ms) == []
  {
    if ms != [] { NoAssistant(ms[..|ms| - 1]); }
  }

  /** The messages a compacted list holds after its system message. */
  function Kept(s: Message, users: seq<Message>, last: seq<Message>): seq<Message> {
    [s] + users + last
  }

  predicate IsSummary(s: Message) {
    s.role == "user" && s.metadata == map[]
  }

  lemma {:induction false} PartitionOfKept(s: Message, users: seq<Message>, last: seq<Message>)
    requires IsSummary(s) && |last| <= 1
    requires forall m :: m in users ==> UserTagged(m)
    requires forall m :: m in last ==> KeptAssistant(m)
    ensures Users(Kept(s, users, last)) == users
    ensures LastAssistant(Kept(s, users, last)) == last
  {
    var w := [s] + users;
    UsersConcat([s], users);
    UsersOfTagged(users);
    assert Users([s]) == [] by { assert [s][1..] == []; }
    NoAssistant(w);
    if last == [] {
      assert w + last == w;
    } else {
      assert last == [last[0]];
      UsersSnoc(w, last[0]);
      LastAssistantSnoc(w, last[0]);
    }
  }

  lemma {:induction false} SplitAfterSystem(system: seq<Message>, w: seq<Message>)
    requires |system| <= 1 && (system != [] ==> system[0].role == "system")
    requires w != [] && w[0].role == "user"
    ensures SystemOf(system + w) == system && Working(system + w) == w
  {
    assert "user" != "system";
    if system == [] {
      assert system + w == w;
    }
  }

  lemma {:induction false} CompactShape(w: Wording, ms: seq<Message>)
    ensures
      var users, last := Users(Working(ms)), LastAssistant(Working(ms));
      Compact(w, ms) == SystemOf(ms) + Kept(SummaryMessage(w, Working(ms)), users, last)
  {
  }

  /** Compacting a compacted list changes nothing but the summary. */
  lemma {:induction false} CompactKept(w: Wording, system: seq<Message>, s: Message, users: seq<Message>,
                                       last: seq<Message>)
    requires |system| <= 1 && (system != [] ==> system[0].role == "system")
    requires IsSummary(s) && |last| <= 1
    requires forall m :: m in users ==> UserTagged(m)
    requires forall m :: m in last ==> KeptAssistant(m)
    ensures Compact(w, system + Kept(s, users, last)) ==
            system + Kept(SummaryMessage(w, Kept(s, users, last)), users, last)
  {
    var kept := Kept(s, users, last);
    SplitAfterSystem(system, kept);
    CompactShape(w, system + kept);
    PartitionOfKept(s, users, last);
  }

  // ── Fixed points ───────────────────────────────────────────────────

  lemma {:induction false} FindTaggedOfKept(s: Message, users: seq<Message>, last: seq<Message>)
    requires IsSummary(s)
    requires forall m :: m in users ==> UserTagged(m)
    requires forall m :: m in last ==> KeptAssistant(m)
    requires |last| <= 1
    ensures FindTagged(Kept(s, users, last)) == if users == [] then "" else users[0].content
  {
    var kept := Kept(s, users, last);
    var tail := users + last;
    assert kept[1..] == tail;
    assert FindTagged(kept) == FindTagged(tail);
    if users != [] {
      assert tail[0] == users[0];
      assert UserTagged(users[0]);
    } else if last != [] {
      assert tail[0] == last[0] && tail[1..] == [];
      assert last[0] in last;
      assert FindTagged(tail) == FindTagged([]);
    }
  }

  lemma {:induction false} FindTaggedIsFirstUser(ms: seq<Message>)
    ensures FindTagged(ms) == if Users(ms) == [] then "" else Users(ms)[0].content
  {
    if ms != [] { FindTaggedIsFirstUser(ms[1..]); }
  }

  lemma {:induction false} ToolLogOfKept(s: Message, users: seq<Message>, last: seq<Message>)
    requires IsSummary(s)
    ensures ToolLog(Kept(s, users, last)) == ToolLog(users + last)
  {
    assert Kept(s, users, last)[1..] == users + last;
  }

  function Iterate<T>(f: T -> T, x: T, n: nat): T {
    if n == 0 then x else f(Iterate(f, x, n - 1))
  }

  lemma {:induction false} StaysFixed<T>(f: T -> T, x: T, n: nat, k: nat)
    requires f(Iterate(f, x, n)) == Iterate(f, x, n)
    ensures Iterate(f, x, n + k) == Iterate(f, x, n)
    decreases k
  {
    if k > 0 { StaysFixed(f, x, n, k - 1); }
  }

  function Compactor(w: Wording): seq<Message> -> seq<Message> {
    ms => Compact(w, ms)
  }

  /** A run of `f` from `y` follows a run of `g` from `x`. */
  lemma {:induction false} Follows<S, T>(f: T -> T, y: T, g: S -> S, x: S, h: S -> T, good: S -> bool, n: nat)
    requires f(y) == h(x) && good(x)
    requires forall s :: good(s) ==> good(g(s)) && f(h(s)) == h(g(s))
    ensures good(Iterate(g, x, n)) && Iterate(f, y, n + 1) == h(Iterate(g, x, n))
    decreases n
  {
    if n == 0 {
      assert Iterate(f, y, 0) == y;
    } else {
      Follows(f, y, g, x, h, good, n - 1);
    }
  }

  /** What a further compaction does to the summary. */
  function Resummariser(w: Wording, users: seq<Message>, last: seq<Message>): Message -> Message {
    s => SummaryMessage(w, Kept(s, users, last))
  }

  /** The summary after `n` further compactions. */
  function Resummarised(w: Wording, s: Message, users: seq<Message>, last: seq<Message>, n: nat): Message {
    Iterate(Resummariser(w, users, last), s, n)
  }

  predicate Headed(w: Wording, s: Message) {
    IsSummary(s) && StartsWith(s.content, w.head)
  }

  /** What `system`, `s`, `users` and `last` are once a list was compacted. */
  ghost predicate Compacted(w: Wording, system: seq<Message>, s: Message, users: seq<Message>, last: seq<Message>) {
    && |system| <= 1 && (system != [] ==> system[0].role == "system")
    && Headed(w, s)
    && (forall m :: m in users ==> UserTagged(m))
    && (forall m :: m in last ==> KeptAssistant(m))
    && |last| <= 1
  }

  lemma {:induction false} SummaryStarts(w: Wording, working: seq<Message>)
    ensures IsSummary(SummaryMessage(w, working)) && StartsWith(SummaryMessage(w, working).content, w.head)
  {
  }

  lemma {:induction false} CompactionLeaves(w: Wording, ms: seq<Message>)
    ensures
      var s, users, last := SummaryMessage(w, Working(ms)), Users(Working(ms)), LastAssistant(Working(ms));
      && Compacted(w, SystemOf(ms), s, users, last)
      && Compact(w, ms) == SystemOf(ms) + Kept(s, users, last)
  {
    CompactShape(w, ms);
    UsersAreTagged(Working(ms));
    LastAssistantShape(Working(ms));
    SummaryStarts(w, Working(ms));
  }

  /** Compacting again only replaces the summary. */
  lemma {:induction false} IterateShape(w: Wording, ms: seq<Message>, system: seq<Message>, s: Message,
                                        users: seq<Message>, last: seq<Message>, n: nat)
    requires Compacted(w, system, s, users, last)
    requires Compact(w, ms) == system + Kept(s, users, last)
    ensures Headed(w, Resummarised(w, s, users, last, n))
    ensures Iterate(Compactor(w), ms, n + 1) == system + Kept(Resummarised(w, s, users, last, n), users, last)
  {
    var f, g, h, good := Compactor(w), Resummariser(w, users, last),
                         (t: Message) => system + Kept(t, users, last), (t: Message) => Headed(w, t);
    forall t | good(t) ensures good(g(t)) && f(h(t)) == h(g(t)) {
      SummaryStarts(w, Kept(t, users, last));
      CompactKept(w, system, t, users, last);
    }
    Follows(f, ms, g, s, h, good, n);
  }

  /** Once the summary repeats, so does the whole list. */
  lemma {:induction false} FixedFrom(w: Wording, ms: seq<Message>, system: seq<Message>, s: Message,
                  users: seq<Message>, last: seq<Message>, n: nat)
    requires Compacted(w, system, s, users, last)
    requires Compact(w, ms) == system + Kept(s, users, last)
    requires Resummarised(w, s, users, last, n + 1) == Resummarised(w, s, users, last, n)
    ensures Compact(w, Iterate(Compactor(w), ms, n + 1)) == Iterate(Compactor(w), ms, n + 1)
  {
    IterateShape(w, ms, system, s, users, last, n);
    IterateShape(w, ms, system, s, users, last, n + 1);
  }

  /** With something in the first user-tagged message, two compactions reach a
      list that compacting no longer changes. */
  lemma {:induction false} SecondCompactionIsFixed(w: Wording, ms: seq<Message>)
    requires FindTagged(Working(ms)) != ""
    ensures Compact(w, Iterate(Compactor(w), ms, 2)) == Iterate(Compactor(w), ms, 2)
  {
    var s, users, last := SummaryMessage(w, Working(ms)), Users(Working(ms)), LastAssistant(Working(ms));
    CompactionLeaves(w, ms);
    FindTaggedIsFirstUser(Working(ms));
    var s1 := Resummarised(w, s, users, last, 1);
    IterateShape(w, ms, SystemOf(ms), s, users, last, 1);
    ResummarisedNext(w, s, users, last, 0);
    ResummarisedNext(w, s, users, last, 1);
    SameTaskSameSummary(w, s, s1, users, last);
    FixedFrom(w, ms, SystemOf(ms), s, users, last, 1);
  }

  lemma {:induction false} SameTaskSameSummary(w: Wording, s1: Message, s2: Message, users: seq<Message>,
                                               last: seq<Message>)
    requires IsSummary(s1) && IsSummary(s2) && |last| <= 1
    requires forall m :: m in users ==> UserTagged(m)
    requires forall m :: m in last ==> KeptAssistant(m)
    requires users != [] && users[0].content != ""
    ensures SummaryMessage(w, Kept(s1, users, last)) == SummaryMessage(w, Kept(s2, users, last))
  {
    FindTaggedOfKept(s1, users, last);
    FindTaggedOfKept(s2, users, last);
    ToolLogOfKept(s1, users, last);
    ToolLogOfKept(s2, users, last);
  }

  // ── Without a usable user-tagged message ───────────────────────────
  // The summary then takes its own predecessor for the task, shortened to 500
  // characters, so summaries nest; the nesting dies out.

  predicate Agree(a: string, b: string, n: nat) {
    n <= |a| && n <= |b| && a[..n] == b[..n]
  }

  /** What surrounds the task in a summary of `count` messages. */
  function Opening(w: Wording, count: nat): string {
    w.head + Decimal(count) + w.middle + w.taskLabel
  }

  function Closing(w: Wording, log: string): string {
    (if log == "" then "" else w.logLabel + log) + w.end
  }

  lemma {:induction false} SummaryText(w: Wording, task: string, log: string, count: nat)
    ensures FormatSummary(w, w.taskLabel + task + (if log == "" then "" else w.logLabel + log), count)
         == Opening(w, count) + task + Closing(w, log)
  {
    var a, b, t := w.head + Decimal(count) + w.middle, w.taskLabel, if log == "" then "" else w.logLabel + log;
    Regroup(a, b, task, t, w.end);
  }

  lemma {:induction false} Regroup(a: string, b: string, c: string, d: string, e: string)
    ensures a + (b + c + d) + e == a + b + c + (d + e)
  {
  }

  lemma {:induction false} OpeningLength(w: Wording, count: nat)
    requires Proper(w)
    ensures |Opening(w, count)| >= 126
  {
  }

  lemma {:induction false} TruncateAgrees(a: string, b: string, n: nat)
    requires Agree(a, b, n) && n <= TASK_LIMIT
    ensures Agree(Truncate(a), Truncate(b), n)
  {
    assert Truncate(a)[..n] == a[..n] && Truncate(b)[..n] == b[..n];
  }

  lemma {:induction false} TruncateEqual(a: string, b: string)
    requires Agree(a, b, TASK_LIMIT + 1)
    ensures Truncate(a) == Truncate(b)
  {
    assert a[..TASK_LIMIT] == a[..TASK_LIMIT + 1][..TASK_LIMIT];
    assert b[..TASK_LIMIT] == b[..TASK_LIMIT + 1][..TASK_LIMIT];
  }

  lemma {:induction false} WrapAgrees(p: string, a: string, b: string, q: string, n: nat)
    requires Agree(a, b, n)
    ensures Agree(p + a + q, p + b + q, |p| + n)
  {
    assert (p + a + q)[..|p| + n] == p + a[..n];
    assert (p + b + q)[..|p| + n] == p + b[..n];
  }

  lemma {:induction false} PrefixFirst(s: string, prefix: string)
    ensures StartsWith(s, prefix) && prefix != "" ==> s != "" && s[0] == prefix[0]
  {
  }

  /** One more compaction of a list whose task is its own summary. */
  lemma {:induction false} NestedSummary(w: Wording, s: Message, users: seq<Message>, last: seq<Message>)
    requires Proper(w)
    requires IsSummary(s) && StartsWith(s.content, w.head)
    requires FindTagged(Kept(s, users, last)) == ""
    ensures
      SummaryMessage(w, Kept(s, users, last)).content ==
      Opening(w, 1 + |users| + |last|) + Truncate(s.content) + Closing(w, ToolLog(users + last))
  {
    var kept := Kept(s, users, last);
    ToolLogOfKept(s, users, last);
    assert kept[0] == s;
    PrefixFirst(s.content, w.head);
    PrefixFirst(s.content, "Tool `");
    assert FindFirstUserTask(kept) == s.content;
    SummaryText(w, Truncate(s.content), ToolLog(kept), |kept|);
  }

  /** Under a map that lengthens the agreed beginning by 126, a run agrees with
      its next step on ever longer beginnings. */
  lemma {:induction false} RunConverges(f: Message -> Message, x: Message, good: Message -> bool, n: nat)
    requires good(x) && forall m :: good(m) ==> good(f(m))
    requires forall a, b, k: nat :: good(a) && good(b) && k <= TASK_LIMIT && Agree(a.content, b.content, k) ==>
               Agree(f(a).content, f(b).content, k + 126)
    requires n <= 4
    ensures good(Iterate(f, x, n)) && Agree(Iterate(f, x, n).content, Iterate(f, x, n + 1).content, 126 * n)
    decreases n
  {
    if n > 0 {
      RunConverges(f, x, good, n - 1);
      assert Agree(Iterate(f, x, n - 1).content, Iterate(f, x, n).content, 126 * (n - 1));
    }
  }

  lemma {:induction false} SummariesConverge(w: Wording, s: Message, users: seq<Message>, last: seq<Message>, n: nat)
    requires Proper(w) && n <= 4 && Headed(w, s)
    requires forall m :: m in users ==> UserTagged(m)
    requires forall m :: m in last ==> KeptAssistant(m)
    requires |last| <= 1 && (users == [] || users[0].content == "")
    ensures Headed(w, Resummarised(w, s, users, last, n))
    ensures Agree(Resummarised(w, s, users, last, n).content, Resummarised(w, s, users, last, n + 1).content, 126 * n)
  {
    var f, good := Resummariser(w, users, last), (m: Message) => Headed(w, m);
    forall m | good(m) ensures good(f(m)) {
      SummaryStarts(w, Kept(m, users, last));
    }
    forall a, b, k: nat | good(a) && good(b) && k <= TASK_LIMIT && Agree(a.content, b.content, k)
      ensures Agree(f(a).content, f(b).content, k + 126)
    {
      NextAgreement(w, a, b, users, last, k);
    }
    RunConverges(f, s, good, n);
  }

  lemma {:induction false} ResummarisedNext(w: Wording, s: Message, users: seq<Message>, last: seq<Message>, n: nat)
    ensures Resummarised(w, s, users, last, n + 1) ==
            SummaryMessage(w, Kept(Resummarised(w, s, users, last, n), users, last))
  {
  }

  lemma {:induction false} NextAgreement(w: Wording, a: Message, b: Message, users: seq<Message>, last: seq<Message>,
                                         n: nat)
    requires Proper(w)
    requires IsSummary(a) && StartsWith(a.content, w.head)
    requires IsSummary(b) && StartsWith(b.content, w.head)
    requires forall m :: m in users ==> UserTagged(m)
    requires forall m :: m in last ==> KeptAssistant(m)
    requires |last| <= 1 && (users == [] || users[0].content == "")
    requires Agree(a.content, b.content, n) && n <= TASK_LIMIT
    ensures Agree(SummaryMessage(w, Kept(a, users, last)).content,
                  SummaryMessage(w, Kept(b, users, last)).content, n + 126)
  {
    FindTaggedOfKept(a, users, last);
    FindTaggedOfKept(b, users, last);
    NestedSummary(w, a, users, last);
    NestedSummary(w, b, users, last);
    OpeningLength(w, 1 + |users| + |last|);
    WrapTruncated(Opening(w, 1 + |users| + |last|), a.content, b.content, Closing(w, ToolLog(users + last)), n);
  }

  lemma {:induction false} WrapTruncated(p: string, a: string, b: string, q: string, n: nat)
    requires Agree(a, b, n) && n <= TASK_LIMIT && |p| >= 126
    ensures Agree(p + Truncate(a) + q, p + Truncate(b) + q, n + 126)
  {
    TruncateAgrees(a, b, n);
    WrapAgrees(p, Truncate(a), Truncate(b), q, n);
    AgreeLess(p + Truncate(a) + q, p + Truncate(b) + q, |p| + n, n + 126);
  }

  lemma {:induction false} AgreeLess(a: string, b: string, n: nat, k: nat)
    requires Agree(a, b, n) && k <= n
    ensures Agree(a, b, k)
  {
    assert a[..k] == a[..n][..k] && b[..k] == b[..n][..k];
  }

  lemma {:induction false} SameBeginningSameSummary(w: Wording, a: Message, b: Message, users: seq<Message>,
      last: seq<Message>)
    requires Proper(w)
    requires IsSummary(a) && StartsWith(a.content, w.head)
    requires IsSummary(b) && StartsWith(b.content, w.head)
    requires forall m :: m in users ==> UserTagged(m)
    requires forall m :: m in last ==> KeptAssistant(m)
    requires |last| <= 1 && (users == [] || users[0].content == "")
    requires Agree(a.content, b.content, TASK_LIMIT + 1)
    ensures SummaryMessage(w, Kept(a, users, last)) == SummaryMessage(w, Kept(b, users, last))
  {
    TruncateEqual(a.content, b.content);
    FindTaggedOfKept(a, users, last);
    FindTaggedOfKept(b, users, last);
    NestedSummary(w, a, users, last);
    NestedSummary(w, b, users, last);
  }

  /** Every list, whatever it holds, is past changing after six compactions. */
  lemma {:induction false} SixthCompactionIsFixed(w: Wording, ms: seq<Message>)
    requires Proper(w)
    ensures Compact(w, Iterate(Compactor(w), ms, 6)) == Iterate(Compactor(w), ms, 6)
  {
    if FindTagged(Working(ms)) != "" {
      SecondCompactionIsFixed(w, ms);
      StaysFixed(Compactor(w), ms, 2, 4);
      StaysFixed(Compactor(w), ms, 2, 5);
    } else {
      var s, users, last := SummaryMessage(w, Working(ms)), Users(Working(ms)), LastAssistant(Working(ms));
      CompactionLeaves(w, ms);
      FindTaggedIsFirstUser(Working(ms));
      SixthSummaryRepeats(w, SystemOf(ms), s, users, last);
      FixedFrom(w, ms, SystemOf(ms), s, users, last, 5);
    }
  }

  lemma {:induction false} SixthSummaryRepeats(w: Wording, system: seq<Message>, s: Message,
                                               users: seq<Message>, last: seq<Message>)
    requires Proper(w) && Compacted(w, system, s, users, last) && (users == [] || users[0].content == "")
    ensures Resummarised(w, s, users, last, 6) == Resummarised(w, s, users, last, 5)
  {
    var a, b := Resummarised(w, s, users, last, 4), Resummarised(w, s, users, last, 5);
    SummariesConverge(w, s, users, last, 4);
    AgreeLess(a.content, b.content, 504, TASK_LIMIT + 1);
    ResummarisedNext(w, s, users, last, 4);
    ResummarisedNext(w, s, users, last, 5);
    SummaryStarts(w, Kept(a, users, last));
    SameBeginningSameSummary(w, a, b, users, last);
  }

  // ── Six are needed ─────────────────────────────────────────────────
  // Compacting nothing counts no messages, compacting that counts one: the two
  // digits differ, and each further nesting moves the difference on.

  predicate DifferAt(a: string, b: string, k: nat) {
    k < |a| && k < |b| && a[k] != b[k]
  }

  /** Under a map that moves differences on by `d`, a run differs from its next
      step further and further on, while the differences stay in reach. */
  lemma {:induction false} RunDiverges(f: Message -> Message, x: Message, good: Message -> bool, k: nat, d: nat, n: nat)
    requires good(x) && forall m :: good(m) ==> good(f(m))
    requires forall a, b, j: nat :: good(a) && good(b) && j < TASK_LIMIT && DifferAt(a.content, b.content, j) ==>
               DifferAt(f(a).content, f(b).content, d + j)
    requires DifferAt(x.content, f(x).content, k) && (n > 0 ==> k + Times(n - 1, d) < TASK_LIMIT)
    ensures good(Iterate(f, x, n)) && DifferAt(Iterate(f, x, n).content, Iterate(f, x, n + 1).content, k + Times(n, d))
    decreases n
  {
    if n > 0 {
      RunDiverges(f, x, good, k, d, n - 1);
      assert DifferAt(Iterate(f, x, n - 1).content, Iterate(f, x, n).content, k + Times(n - 1, d));
    } else {
      assert Iterate(f, x, 0) == x && Iterate(f, x, 1) == f(x);
    }
  }

  function Times(n: nat, d: nat): nat {
    if n == 0 then 0 else Times(n - 1, d) + d
  }

  lemma {:induction false} WrapDiffers(p: string, a: string, b: string, q: string, k: nat)
    requires DifferAt(a, b, k) && k < TASK_LIMIT
    ensures DifferAt(p + Truncate(a) + q, p + Truncate(b) + q, |p| + k)
  {
    assert Truncate(a)[k] == a[k] && Truncate(b)[k] == b[k];
    assert (p + Truncate(a) + q)[|p| + k] == Truncate(a)[k];
    assert (p + Truncate(b) + q)[|p| + k] == Truncate(b)[k];
  }

  lemma {:induction false} NextDifference(w: Wording, a: Message, b: Message, k: nat)
    requires Proper(w) && Headed(w, a) && Headed(w, b)
    requires DifferAt(a.content, b.content, k) && k < TASK_LIMIT
    ensures DifferAt(Resummarise(w, a), Resummarise(w, b), |Opening(w, 1)| + k)
  {
    NestedAlone(w, a);
    NestedAlone(w, b);
    WrapDiffers(Opening(w, 1), a.content, b.content, Closing(w, ""), k);
  }

  /** The text that a summary alone is summarised to. */
  function Resummarise(w: Wording, s: Message): string {
    SummaryMessage(w, Kept(s, [], [])).content
  }

  lemma {:induction false} NestedAlone(w: Wording, s: Message)
    requires Proper(w) && Headed(w, s)
    ensures Resummarise(w, s) == Opening(w, 1) + Truncate(s.content) + Closing(w, "")
  {
    FindTaggedOfKept(s, [], []);
    NestedSummary(w, s, [], []);
    assert ToolLog([] + []) == "";
  }

  lemma {:induction false} CountDigit(w: Wording, summary: string, count: nat)
    requires count < 10
    ensures
      var text := FormatSummary(w, summary, count);
      |text| > |w.head| && text[|w.head|] == Digit(count)
  {
    assert Decimal(count) == [Digit(count)];
  }

  lemma {:induction false} EmptySummariesDiffer(w: Wording, s: Message)
    requires s == SummaryMessage(w, [])
    ensures DifferAt(s.content, Resummariser(w, [], [])(s).content, |w.head|)
  {
    CountDigit(w, StructuredSummary(w, []), 0);
    CountDigit(w, StructuredSummary(w, Kept(s, [], [])), 1);
  }

  lemma {:induction false} EmptySummariesDiverge(w: Wording, s: Message, n: nat)
    requires Proper(w) && s == SummaryMessage(w, [])
    requires n > 0 ==> |w.head| + Times(n - 1, |Opening(w, 1)|) < TASK_LIMIT
    ensures Resummarised(w, s, [], [], n) != Resummarised(w, s, [], [], n + 1)
  {
    var f, good := Resummariser(w, [], []), (m: Message) => Headed(w, m);
    SummaryStarts(w, []);
    forall m | good(m) ensures good(f(m)) { SummaryStarts(w, Kept(m, [], [])); }
    forall a, b, k: nat | good(a) && good(b) && k < TASK_LIMIT && DifferAt(a.content, b.content, k)
      ensures DifferAt(f(a).content, f(b).content, |Opening(w, 1)| + k)
    {
      NextDifference(w, a, b, k);
    }
    EmptySummariesDiffer(w, s);
    RunDiverges(f, s, good, |w.head|, |Opening(w, 1)|, n);
  }

  /** The empty list keeps changing as long as the difference stays within the
      task limit. */
  lemma {:induction false} EmptyListKeepsChanging(w: Wording, n: nat)
    requires Proper(w) && n > 0 && (n > 1 ==> |w.head| + Times(n - 2, |Opening(w, 1)|) < TASK_LIMIT)
    ensures Compact(w, Iterate(Compactor(w), [], n)) != Iterate(Compactor(w), [], n)
  {
    var s := SummaryMessage(w, []);
    CompactionLeaves(w, []);
    IterateShape(w, [], [], s, [], [], n - 1);
    IterateShape(w, [], [], s, [], [], n);
    EmptySummariesDiverge(w, s, n - 1);
    assert Kept(Resummarised(w, s, [], [], n - 1), [], [])[0] == Resummarised(w, s, [], [], n - 1);
    assert Kept(Resummarised(w, s, [], [], n), [], [])[0] == Resummarised(w, s, [], [], n);
  }

  /** Two are not enough for every list, whatever the wording. */
  lemma {:induction false} ThirdCompactionCanChange(w: Wording)
    requires Proper(w) && |w.head| < TASK_LIMIT
    ensures Compact(w, Iterate(Compactor(w), [], 2)) != Iterate(Compactor(w), [], 2)
  {
    EmptyListKeepsChanging(w, 2);
  }
}

/** The wording that ships. */
module CompactionWording {
  import opened Messages
  import opened Compaction

  function Shipped(): Wording {
    Wording("[" + "CONVERSATION SUMMARY]\nThe following summarizes ",
            " previous messages that have been compacted to save context space.\n\n",
            "\n\n[END SUMMARY - Recent conversation continues below]",
            "Original task: ",
            "\n\nTool calls made (oldest first):",
            "(no user message found)")
  }

  lemma {:induction false} ShippedIsProper()
    ensures Proper(Shipped()) && |Shipped().head| == 48 && |Opening(Shipped(), 1)| == 132
  {
    assert |Shipped().head| == 48 && Shipped().head[0] == "["[0];
    assert |Shipped().middle| == 68;
    assert |Shipped().taskLabel| == 15;
    assert Decimal(1) == [Digit(1)];
  }

  /** With the wording that ships, every conversation settles by the sixth
      compaction, and the empty one not before. */
  lemma {:induction false} ShippedCompactionSettles(ms: seq<Message>, n: nat)
    ensures Compact(Shipped(), Iterate(Compactor(Shipped()), ms, 6)) == Iterate(Compactor(Shipped()), ms, 6)
    ensures n <= 5 ==> Compact(Shipped(), Iterate(Compactor(Shipped()), [], n)) != Iterate(Compactor(Shipped()), [], n)
  {
    ShippedIsProper();
    SixthCompactionIsFixed(Shipped(), ms);
    if n == 0 {
      CompactionLeaves(Shipped(), []);
    } else if n <= 5 {
      SixCompactionsNeeded(Shipped(), n);
    }
  }

  lemma {:induction false} SixCompactionsNeeded(w: Wording, n: nat)
    requires Proper(w) && |w.head| == 48 && |Opening(w, 1)| == 132 && 0 < n <= 5
    ensures Compact(w, Iterate(Compactor(w), [], n)) != Iterate(Compactor(w), [], n)
  {
    assert Times(0, 132) == 0 && Times(1, 132) == 132 && Times(2, 132) == 264 && Times(3, 132) == 396;
    EmptyListKeepsChanging(w, n);
  }
}
