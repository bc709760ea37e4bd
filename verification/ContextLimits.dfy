/** From which size on a context is compacted, warned about and pruned by age,
    in numbers that a caller can check. */
module ContextLimits {
  import opened Messages
  import opened Compaction
  import opened ContextManager

  // ── Tokens and bytes ───────────────────────────────────────────────

  function Bytes(ms: seq<Message>): nat {
    if ms == [] then 0 else |ms[0].content| + Bytes(ms[1..])
  }

  /** A message counts four tokens and, unless it is empty, one more than a quarter
      of its bytes. */
  lemma {:induction false} MessageTokens(m: Message)
    ensures CountMessage(m) == if m.content == "" then 4 else |m.content| / 4 + 5
    ensures |m.content| + 16 <= 4 * CountMessage(m) <= |m.content| + 20
  {
  }

  lemma {:induction false} CountConcat(a: seq<Message>, b: seq<Message>)
    ensures CountMessages(a + b) == CountMessages(a) + CountMessages(b)
  {
    if b == [] {
      assert a + b == a;
    } else {
      var n := |b| - 1;
      assert (a + b)[..|a| + n] == a + b[..n];
      CountConcat(a, b[..n]);
    }
  }

  /** The count of a list lies between bounds in its bytes and its length, and
      more messages never count less. */
  lemma {:induction false} TokensFollowBytes(ms: seq<Message>)
    ensures Bytes(ms) + 16 * |ms| <= 4 * CountMessages(ms) <= Bytes(ms) + 20 * |ms|
  {
    if ms != [] {
      TokensFollowBytes(ms[1..]);
      assert ms == [ms[0]] + ms[1..];
      CountConcat([ms[0]], ms[1..]);
      MessageTokens(ms[0]);
    }
  }

  // ── Compaction ─────────────────────────────────────────────────────

  lemma {:induction false} TruncatedBound(n: nat, x: real)
    ensures n >= Trunc(x) <==> n as real > x - 1.0
  {
  }

  /** Whether the anchors are set again on a compacted list, or nothing changes. */
  ghost predicate Replaced(cfg: Config, st: State, st': State, keys: seq<string>) {
    st' == Reinject(st.(messages := Compact(cfg.wording, st.messages)), st.anchors, keys)
  }

  /** Within one token of the share of the window that is configured. */
  predicate NearLimit(cfg: Config, ms: seq<Message>) {
    CountMessages(ms) as real > cfg.maxTokens as real * cfg.compactAt - 1.0
  }

  lemma {:induction false} DueExactly(cfg: Config, ms: seq<Message>, force: bool)
    ensures CompactionDue(cfg, ms, force) <==> cfg.enabled && (force || NearLimit(cfg, ms))
  {
    TruncatedBound(CountMessages(ms), cfg.maxTokens as real * cfg.compactAt);
  }

  /** The list is replaced if and only if compaction is enabled and not cancelled,
      and it is forced or the count has come within one token of the share of the
      window that is configured; otherwise nothing changes. */
  lemma {:induction false} CompactsExactly(cfg: Config, st: State, force: bool, cancelled: bool, keys: seq<string>)
    ensures
      var st' := CheckCompaction(cfg, st, force, cancelled, keys);
      if cfg.enabled && !cancelled && (force || NearLimit(cfg, st.messages))
      then Replaced(cfg, st, st', keys)
      else st' == st
  {
    DueExactly(cfg, st.messages, force);
  }

  /** Enough bytes for a compaction, and too few. */
  predicate Enough(cfg: Config, ms: seq<Message>) {
    (Bytes(ms) + 16 * |ms|) as real >= 4.0 * (cfg.maxTokens as real * cfg.compactAt)
  }

  predicate TooFew(cfg: Config, ms: seq<Message>) {
    (Bytes(ms) + 20 * |ms|) as real <= 4.0 * (cfg.maxTokens as real * cfg.compactAt - 1.0)
  }

  lemma {:induction false} BytesNearLimit(cfg: Config, ms: seq<Message>)
    ensures Enough(cfg, ms) ==> NearLimit(cfg, ms)
    ensures TooFew(cfg, ms) ==> !NearLimit(cfg, ms)
  {
    TokensFollowBytes(ms);
    var bytes, n := Bytes(ms), |ms|;
    BoundsDecide(CountMessages(ms), bytes + 16 * n, bytes + 20 * n, cfg.maxTokens as real * cfg.compactAt);
  }

  /** So a context of enough bytes is always compacted, and one of too few never,
      unless it is forced. */
  lemma {:induction false} BytesDecide(cfg: Config, st: State, keys: seq<string>)
    requires cfg.enabled
    ensures Enough(cfg, st.messages) ==> Replaced(cfg, st, CheckCompaction(cfg, st, false, false, keys), keys)
    ensures TooFew(cfg, st.messages) ==> CheckCompaction(cfg, st, false, false, keys) == st
  {
    BytesNearLimit(cfg, st.messages);
    CompactsExactly(cfg, st, false, false, keys);
  }

  lemma {:induction false} BoundsDecide(count: nat, low: nat, high: nat, limit: real)
    requires low <= 4 * count <= high
    ensures low as real >= 4.0 * limit ==> count as real > limit - 1.0
    ensures high as real <= 4.0 * (limit - 1.0) ==> count as real <= limit - 1.0
  {
    assert low as real <= 4.0 * count as real <= high as real;
  }

  // ── Warnings ───────────────────────────────────────────────────────

  lemma {:induction false} FractionBound(used: nat, max: int, x: real)
    requires max != 0
    ensures max > 0 ==> (Fraction(used, max) >= x <==> used as real >= max as real * x)
    ensures max < 0 ==> (Fraction(used, max) >= x <==> used as real <= max as real * x)
  {
    var f, m := Fraction(used, max), max as real;
    assert f * m == used as real;
    assert f >= x ==> (f - x) * (if max > 0 then m else -m) >= 0.0;
    assert f < x ==> (x - f) * (if max > 0 then m else -m) > 0.0;
  }

  /** The share of the window from which warnings are due is reached; without a
      window the share used is zero. */
  predicate Crowded(cfg: Config, ms: seq<Message>) {
    var used, bound := CountMessages(ms) as real, cfg.maxTokens as real * cfg.warnAt;
    if cfg.maxTokens > 0 then used >= bound else if cfg.maxTokens < 0 then used <= bound else cfg.warnAt <= 0.0
  }

  lemma {:induction false} CrowdedExactly(cfg: Config, ms: seq<Message>)
    ensures Usage(cfg, ms) >= cfg.warnAt <==> Crowded(cfg, ms)
  {
    if cfg.maxTokens != 0 { FractionBound(CountMessages(ms), cfg.maxTokens, cfg.warnAt); }
  }

  /** `st'` is `st` with one more message of the user's role, and this iteration on
      record as warned. */
  predicate Warned(st: State, st': State) {
    && |st'.messages| == |st.messages| + 1 && st.messages <= st'.messages
    && st'.messages[|st.messages|].role == "user"
    && st'.metadata == st.metadata["last_warning_iteration" := IntText(st.iterations)]
    && st'.iterations == st.iterations && st'.anchors == st.anchors
  }

  /** A warning is added if and only if the context is crowded and this iteration
      has none yet; otherwise nothing changes. */
  lemma {:induction false} WarnsExactly(cfg: Config, st: State)
    ensures
      if Crowded(cfg, st.messages) && !HasValue(st.metadata, "last_warning_iteration", IntText(st.iterations))
      then Warned(st, Warn(cfg, st))
      else Warn(cfg, st) == st
  {
    CrowdedExactly(cfg, st.messages);
  }

  /** An iteration gets at most one. */
  lemma {:induction false} WarnsOnce(cfg: Config, st: State)
    ensures Warn(cfg, Warn(cfg, st)) == Warn(cfg, st)
  {
    WarnsExactly(cfg, st);
    WarnsExactly(cfg, Warn(cfg, st));
  }

  /** What the warning says when 750 of 1000 tokens are used. */
  lemma {:induction false} WarningReads(cfg: Config, ms: seq<Message>)
    requires CountMessages(ms) == 750 && cfg.maxTokens == 1000
    ensures Warning(cfg, ms).content ==
            "[CONTEXT WARNING] Context at " + "75" + "% capacity (" + "750" + "/" + "1000" +
            " tokens). Capture findings with entropic.todo if needed, then call entropic.prune_context."
  {
    ThreeQuarters(cfg, ms);
    ThreeNumbers();
  }

  lemma {:induction false} ThreeQuarters(cfg: Config, ms: seq<Message>)
    requires CountMessages(ms) == 750 && cfg.maxTokens == 1000
    ensures Trunc(Usage(cfg, ms) * 100.0) == 75
  {
    assert Usage(cfg, ms) == 0.75;
  }

  lemma {:induction false} ThreeNumbers()
    ensures IntText(75) == "75" && IntText(750) == "750" && IntText(1000) == "1000"
  {
    assert Decimal(7) == "7" && Decimal(75) == "75" && Decimal(750) == "750";
    assert Decimal(1) == "1" && Decimal(10) == "10" && Decimal(100) == "100" && Decimal(1000) == "1000";
  }

  // ── Numbers as text ────────────────────────────────────────────────

  predicate AllDigits(s: string) {
    forall i :: 0 <= i < |s| ==> IsDigit(s[i])
  }

  predicate AllSpace(s: string) {
    forall i :: 0 <= i < |s| ==> IsSpace(s[i])
  }

  /** `s` does not go on with a digit. */
  predicate EndsNumber(s: string) {
    s != "" ==> !IsDigit(s[0])
  }

  lemma {:induction false} DigitsValueEnds(s: string, rest: string, acc: nat)
    requires AllDigits(s) && EndsNumber(rest)
    ensures DigitsValue(s + rest, acc) == DigitsValue(s, acc)
    decreases s
  {
    if s == "" {
      assert s + rest == rest;
    } else {
      assert (s + rest)[1..] == s[1..] + rest;
      DigitsValueEnds(s[1..], rest, 10 * acc + (s[0] - '0') as nat);
    }
  }

  lemma {:induction false} DigitsValueSnoc(s: string, d: nat, acc: nat)
    requires AllDigits(s) && d < 10
    ensures DigitsValue(s + [Digit(d)], acc) == 10 * DigitsValue(s, acc) + d
    decreases s
  {
    if s == "" {
      assert (s + [Digit(d)])[1..] == "";
    } else {
      assert (s + [Digit(d)])[1..] == s[1..] + [Digit(d)];
      DigitsValueSnoc(s[1..], d, 10 * acc + (s[0] - '0') as nat);
    }
  }

  lemma {:induction false} DecimalReadBack(n: nat)
    ensures AllDigits(Decimal(n)) && DigitsValue(Decimal(n), 0) == n
  {
    if n < 10 {
      DigitsValueSnoc("", n, 0);
      assert "" + [Digit(n)] == Decimal(n);
    } else {
      DecimalReadBack(n / 10);
      DigitsValueSnoc(Decimal(n / 10), n % 10, 0);
    }
  }

  lemma {:induction false} GapIgnored(gap: string, s: string)
    requires AllSpace(gap)
    ensures Stoi(gap + s) == Stoi(s)
  {
    if gap == "" {
      assert gap + s == s;
    } else {
      assert (gap + s)[1..] == gap[1..] + s;
      GapIgnored(gap[1..], s);
    }
  }

  function InRange(n: int): Option<int> {
    if -0x8000_0000 <= n <= 0x7FFF_FFFF then Some(n) else None
  }

  lemma {:induction false} DigitsRead(n: nat, rest: string)
    requires EndsNumber(rest)
    ensures Stoi(Decimal(n) + rest) == InRange(n)
    ensures Stoi("+" + (Decimal(n) + rest)) == InRange(n)
    ensures Stoi("-" + (Decimal(n) + rest)) == InRange(0 - n)
  {
    var digits := Decimal(n) + rest;
    DecimalReadBack(n);
    DigitsValueEnds(Decimal(n), rest, 0);
    assert IsDigit(digits[0]);
    assert ("+" + digits)[1..] == digits && ("-" + digits)[1..] == digits;
  }

  /** A number that is written is read back if it fits an int, after any
      whitespace and before anything but a digit. */
  lemma {:induction false} NumberReadBack(gap: string, n: int, rest: string)
    requires AllSpace(gap) && EndsNumber(rest)
    ensures Stoi(gap + (IntText(n) + rest)) == InRange(n)
  {
    GapIgnored(gap, IntText(n) + rest);
    DigitsRead(if n < 0 then -n else n, rest);
    if n < 0 { assert IntText(n) + rest == "-" + (Decimal(-n) + rest); }
  }

  /** A minus stands before negative numbers only. */
  lemma {:induction false} SignExactly(n: int)
    ensures IntText(n)[0] == '-' <==> n < 0
  {
    DecimalReadBack(if n < 0 then -n else n);
  }

  /** Where no digit comes after whitespace and a sign, there is no number. */
  lemma {:induction false} NoNumber(gap: string, sign: string, rest: string)
    requires AllSpace(gap) && sign in ["", "-", "+"] && EndsNumber(rest)
    requires sign == "" && rest != "" ==> !IsSpace(rest[0]) && rest[0] != '-' && rest[0] != '+'
    ensures Stoi(gap + (sign + rest)) == None
  {
    GapIgnored(gap, sign + rest);
    if sign != "" {
      assert (sign + rest)[0] == sign[0] && (sign + rest)[1..] == rest;
    } else {
      assert sign + rest == rest;
    }
  }

  // ── Pruning by age ─────────────────────────────────────────────────

  /** A tool result, not yet pruned, that came in iteration `added`. */
  predicate Arrived(m: Message, added: int) {
    "tool_name" in m.metadata && !(PRUNED_MARK <= m.content)
    && HasValue(m.metadata, "added_at_iteration", IntText(added))
  }

  /** A stub in place of `m`, which is saved. */
  predicate Aged(m: Message, m': Message)
    requires IsTool(m)
  {
    && m'.role == m.role && m'.content == Stub(m.metadata["tool_name"], |m.content|)
    && m'.metadata == m.metadata["original_content" := m.content]
  }

  /** What is left of 42 bytes that fs.read returned; the three bytes are an em
      dash. */
  lemma {:induction false} StubReads()
    ensures Stub("fs.read", 42) ==
            "[Previous:" + (" " + "fs.read" + " result \U{E2}\U{80}\U{94} " + "42" + " chars, pruned]")
  {
    assert Decimal(4) == "4" && Decimal(42) == "42";
  }

  /** In a crowded context a result that came in iteration `added` is stubbed, and
      saved, if and only if it is as old as its time to live; otherwise it is left
      alone. */
  lemma {:induction false} AgedExactly(cfg: Config, st: State, p: nat, added: int)
    requires p < |st.messages| && Arrived(st.messages[p], added)
    requires -0x8000_0000 <= added <= 0x7FFF_FFFF
    ensures
      var ms' := PruneOld(cfg, st).messages;
      && |ms'| == |st.messages|
      && if Crowded(cfg, st.messages) && st.iterations >= added + cfg.toolResultTtl
         then Aged(st.messages[p], ms'[p])
         else ms'[p] == st.messages[p]
  {
    CrowdedExactly(cfg, st.messages);
    NumberReadBack("", added, "");
    assert "" + (IntText(added) + "") == IntText(added);
    ExpireAllAt(st.messages, st.iterations, cfg.toolResultTtl);
  }

  /** Everything else is left alone: messages of no tool, stubs, and results
      without a readable iteration. */
  lemma {:induction false} OthersNeverAge(cfg: Config, st: State, p: nat)
    requires p < |st.messages|
    requires
      var m := st.messages[p];
      "tool_name" !in m.metadata || PRUNED_MARK <= m.content || "added_at_iteration" !in m.metadata ||
      Stoi(m.metadata["added_at_iteration"]).None?
    ensures |PruneOld(cfg, st).messages| == |st.messages| && PruneOld(cfg, st).messages[p] == st.messages[p]
  {
    ExpireAllAt(st.messages, st.iterations, cfg.toolResultTtl);
  }
}
