/** The constitutional validator's loop of critique and revision, and its pause
    and resume. */
module Validator {
  import opened Messages

  datatype Verdict =
    | Passed
    | Revised
    | RejectedMaxRevisions
    | RejectedRevertedLength
    | Skipped
    | PausedPendingConsumer
    | PassedConsumerOverride

  /** `revised` is the text that the critique itself proposes, or empty. */
  datatype Critique = Critique(compliant: bool, revised: string)

  datatype Result = Result(content: string, wasRevised: bool, revisionCount: int, attempt: int,
                           finalCritique: Critique, verdict: Verdict)

  /** What a turn supplies besides its text: the tier, the tool manifest and the
      tool evidence, which critique prompts show; the identity's system prompt
      and the conversation, if any, which revisions start from. */
  datatype Turn = Turn(tier: string, manifest: string, evidence: string, systemPrompt: string,
                       messages: Option<string>)

  /** What the model answers, by attempt: a critique of a text under a tier's
      rules, a manifest and evidence, and a revision of a text after a critique,
      from a conversation or a system prompt. */
  datatype Model = Model(critique: (nat, string, string, string, string) -> Critique,
                         revise: (nat, string, Critique, Option<string>, string) -> string)

  function Judge(model: Model, i: nat, content: string, t: Turn): Critique {
    model.critique(i, content, t.tier, t.manifest, t.evidence)
  }

  function Attempt(model: Model, i: nat, content: string, c: Critique, t: Turn): string {
    if c.revised != "" then c.revised else model.revise(i, content, c, t.messages, t.systemPrompt)
  }

  function Accepted(r: Result, revised: string, c: Critique, i: nat): Result {
    r.(content := revised, wasRevised := true, revisionCount := i, attempt := i, finalCritique := c)
  }

  /** The revision loop from attempt `i` on. */
  function Revise(model: Model, most: int, r: Result, c: Critique, t: Turn, i: nat): Result
    decreases most - i
  {
    if i >= most then
      if !c.compliant then r.(verdict := RejectedMaxRevisions)
      else if r.wasRevised then r.(verdict := Revised)
      else r
    else
      var revised := Attempt(model, i + 1, r.content, c, t);
      if |revised| < |r.content| / 2 then r.(verdict := RejectedRevertedLength, attempt := i + 1)
      else
        var c' := Judge(model, i + 1, revised, t);
        var r' := Accepted(r, revised, c', i + 1);
        if c'.compliant then r'.(verdict := Revised) else Revise(model, most, r', c', t, i + 1)
  }

  function First(model: Model, content: string, t: Turn): Result {
    Result(content, false, 0, 0, Judge(model, 0, content, t), Passed)
  }

  /** run_validation_loop with automatic retries. */
  function Validate(model: Model, most: int, content: string, t: Turn): Result {
    var r := First(model, content, t);
    if r.finalCritique.compliant then r else Revise(model, most, r, r.finalCritique, t, 0)
  }

  // ── How short and how often ────────────────────────────────────────

  function Pow2(k: nat): (p: nat)
    ensures p >= 1 && (k == 0 ==> p == 1)
  {
    if k == 0 then 1 else 2 * Pow2(k - 1)
  }

  lemma {:induction false} QuotientIs(n: nat, d: nat, q: nat, r: nat)
    requires d > 0 && n == q * d + r && r < d
    ensures n / d == q
  {
    var e, f := n / d, n % d;
    assert n == e * d + f;
    if e < q {
      MultiplesApart(e, q, d);
    } else if e > q {
      MultiplesApart(q, e, d);
    }
  }

  lemma {:induction false} MultiplesApart(a: nat, b: nat, d: nat)
    requires a < b
    ensures a * d + d <= b * d
    decreases b
  {
    if a + 1 < b { MultiplesApart(a, b - 1, d); }
    NextMultiple(b - 1, d);
  }

  lemma {:induction false} NextMultiple(a: nat, d: nat)
    ensures (a + 1) * d == a * d + d
  {
  }

  lemma {:induction false} HalfOfQuotient(n: nat, d: nat)
    requires d > 0
    ensures n / d / 2 == n / (2 * d)
  {
    var q, r := n / d, n % d;
    var a, b := q / 2, q % 2;
    assert n == (2 * a + b) * d + r;
    assert (2 * a + b) * d == a * (2 * d) + b * d;
    assert b * d + r < 2 * d;
    QuotientIs(n, 2 * d, a, b * d + r);
  }

  /** How far a result may be from a text of length `n`. */
  ghost predicate Bounded(r: Result, n: nat, most: int) {
    && 0 <= r.revisionCount && (r.revisionCount <= most || r.revisionCount == 0)
    && |r.content| >= n / Pow2(r.revisionCount)
    && (r.wasRevised <==> r.revisionCount > 0)
  }

  lemma {:induction false} ReviseIsBounded(model: Model, most: int, r: Result, c: Critique, t: Turn, i: nat, n: nat)
    requires r.revisionCount == i && (i <= most || i == 0) && Bounded(r, n, most)
    requires c == r.finalCritique && !c.compliant
    ensures
      var r' := Revise(model, most, r, c, t, i);
      && Bounded(r', n, most)
      && (r'.verdict == Revised <==> r'.revisionCount >= 1 && r'.finalCritique.compliant)
      && (r'.revisionCount == 0 ==> !r'.finalCritique.compliant)
      && (r'.verdict == RejectedMaxRevisions || r'.verdict == Revised || r'.verdict == RejectedRevertedLength)
    decreases most - i
  {
    if i < most {
      var revised := Attempt(model, i + 1, r.content, c, t);
      if |revised| >= |r.content| / 2 {
        var c' := Judge(model, i + 1, revised, t);
        var r' := Accepted(r, revised, c', i + 1);
        HalfOfQuotient(n, Pow2(i));
        assert |revised| >= n / Pow2(i) / 2;
        if !c'.compliant { ReviseIsBounded(model, most, r', c', t, i + 1, n); }
      }
    }
  }

  /** After k accepted revisions of a text of length n, k is at most the maximum
      and the text at least n / 2^k long; the verdict is `Revised` exactly when
      a revision was accepted and the final critique is compliant. */
  lemma {:induction false} RevisionsAreBounded(model: Model, most: int, content: string, t: Turn)
    ensures
      var r := Validate(model, most, content, t);
      && 0 <= r.revisionCount && (r.revisionCount <= most || r.revisionCount == 0)
      && |r.content| >= |content| / Pow2(r.revisionCount)
      && (r.verdict == Revised <==> r.revisionCount >= 1 && r.finalCritique.compliant)
      && (r.verdict == Passed <==> r.revisionCount == 0 && r.finalCritique.compliant)
      && (r.verdict == Passed ==> r.content == content)
  {
    var r := First(model, content, t);
    assert Bounded(r, |content|, most);
    if !r.finalCritique.compliant {
      ReviseIsBounded(model, most, r, r.finalCritique, t, 0, |content|);
    }
  }

  /** Why a validation stops without a compliant text: the maximum is reached,
      or the next attempt is shorter than half of the text. */
  lemma {:induction false} RejectedExactly(model: Model, most: int, r: Result, c: Critique, t: Turn, i: nat)
    requires r.finalCritique == c && !c.compliant && r.revisionCount == i && (i <= most || i == 0)
    ensures
      var r' := Revise(model, most, r, c, t, i);
      var k := r'.revisionCount;
      && k >= 0
      && (r'.verdict == RejectedMaxRevisions <==> !r'.finalCritique.compliant && k >= most)
      && (r'.verdict == RejectedRevertedLength <==>
            && !r'.finalCritique.compliant && k < most
            && |Attempt(model, k + 1, r'.content, r'.finalCritique, t)| < |r'.content| / 2)
    decreases most - i
  {
    if i < most {
      var revised := Attempt(model, i + 1, r.content, c, t);
      if |revised| >= |r.content| / 2 {
        var c' := Judge(model, i + 1, revised, t);
        if !c'.compliant { RejectedExactly(model, most, Accepted(r, revised, c', i + 1), c', t, i + 1); }
      }
    }
  }

  /** The text handed back is the one that the final critique judged. */
  lemma {:induction false} FinalCritiqueJudgesContent(model: Model, most: int, r: Result, c: Critique, t: Turn, i: nat)
    requires r.finalCritique == c == Judge(model, i, r.content, t) && r.revisionCount == i
    ensures
      var r' := Revise(model, most, r, c, t, i);
      r'.revisionCount >= 0 && r'.finalCritique == Judge(model, r'.revisionCount, r'.content, t)
    decreases most - i
  {
    if i < most {
      var revised := Attempt(model, i + 1, r.content, c, t);
      if |revised| >= |r.content| / 2 {
        var c' := Judge(model, i + 1, revised, t);
        var r' := Accepted(r, revised, c', i + 1);
        if !c'.compliant { FinalCritiqueJudgesContent(model, most, r', c', t, i + 1); }
      }
    }
  }

  /** The attempt number is the number of accepted revisions, except after a
      revert: then it counts the rejected attempt too, and the text is the last
      accepted one. */
  lemma {:induction false} AttemptNumber(model: Model, most: int, r: Result, c: Critique, t: Turn, i: nat)
    requires r.attempt == r.revisionCount == i && !c.compliant && r.verdict != RejectedRevertedLength
    ensures
      var r' := Revise(model, most, r, c, t, i);
      r'.attempt == r'.revisionCount + if r'.verdict == RejectedRevertedLength then 1 else 0
    decreases most - i
  {
    if i < most {
      var revised := Attempt(model, i + 1, r.content, c, t);
      if |revised| >= |r.content| / 2 {
        var c' := Judge(model, i + 1, revised, t);
        if !c'.compliant { AttemptNumber(model, most, Accepted(r, revised, c', i + 1), c', t, i + 1); }
      }
    }
  }

  // ── Pause and resume ───────────────────────────────────────────────

  /** What a pause keeps: neither the manifest nor the evidence, and a
      conversation that is absent as an empty text. */
  datatype Pending = Pending(result: Result, critique: Critique, messages: string, tier: string, systemPrompt: string)

  /** `last` is the stored result. */
  datatype State = State(pending: Option<Pending>, last: Option<Result>)

  /** A validation with automatic retries off. */
  function PauseOn(model: Model, st: State, content: string, t: Turn): State {
    var r := First(model, content, t);
    if r.finalCritique.compliant then State(st.pending, Some(r))
    else
      var paused, text := r.(verdict := PausedPendingConsumer), if t.messages.Some? then t.messages.value else "";
      State(Some(Pending(paused, r.finalCritique, text, t.tier, t.systemPrompt)), Some(paused))
  }

  /** The turn that the resuming thread works under. */
  function ResumedTurn(p: Pending): Turn {
    Turn(p.tier, "", "", p.systemPrompt, if p.messages == "" then None else Some(p.messages))
  }

  datatype Answer = Ok | InvalidState

  function Resume(model: Model, most: int, st: State): (State, Answer) {
    if st.pending.None? then (st, InvalidState)
    else
      var p := st.pending.value;
      (State(None, Some(Revise(model, most, p.result, p.critique, ResumedTurn(p), 0))), Ok)
  }

  function AcceptLast(st: State): (State, Answer) {
    if st.pending.None? then (st, InvalidState)
    else (State(None, Some(st.pending.value.result.(verdict := PassedConsumerOverride))), Ok)
  }

  /** What is left of a turn after a pause. */
  function Restored(t: Turn): Turn {
    t.(manifest := "", evidence := "", messages := if t.messages == Some("") then None else t.messages)
  }

  lemma {:induction false} VerdictIsOverwritten(model: Model, most: int, r: Result, v: Verdict, c: Critique, t: Turn,
                                                i: nat)
    requires !c.compliant
    ensures Revise(model, most, r.(verdict := v), c, t, i) == Revise(model, most, r, c, t, i)
    decreases most - i
  {
    if i < most {
      var revised := Attempt(model, i + 1, r.content, c, t);
      if |revised| >= |r.content| / 2 {
        var c' := Judge(model, i + 1, revised, t);
        if !c'.compliant { VerdictIsOverwritten(model, most, Accepted(r, revised, c', i + 1), v, c', t, i + 1); }
      }
    }
  }

  /** Resuming revises the paused text under what is left of its turn: later
      critiques see no manifest and no evidence. Pending state is consumed
      once. */
  lemma {:induction false} ResumeRevisesRestored(model: Model, most: int, st: State, content: string, t: Turn)
    requires !Judge(model, 0, content, t).compliant
    ensures
      var (st', answer) := Resume(model, most, PauseOn(model, st, content, t));
      var r := First(model, content, t);
      && answer == Ok && st'.pending == None
      && st'.last == Some(Revise(model, most, r, r.finalCritique, Restored(t), 0))
      && Resume(model, most, st') == (st', InvalidState)
      && AcceptLast(st') == (st', InvalidState)
  {
    var r := First(model, content, t);
    assert ResumedTurn(PauseOn(model, st, content, t).pending.value) == Restored(t);
    VerdictIsOverwritten(model, most, r, PausedPendingConsumer, r.finalCritique, Restored(t), 0);
  }

  function AfterPause(model: Model, most: int, st: State, content: string, t: Turn): Option<Result> {
    Resume(model, most, PauseOn(model, st, content, t)).0.last
  }

  /** Whatever the model answers, a pause makes no difference to the result. */
  ghost predicate PauseIsHarmless(most: int, st: State, content: string, t: Turn) {
    forall model: Model :: !Judge(model, 0, content, t).compliant ==>
      AfterPause(model, most, st, content, t) == Some(Validate(model, most, content, t))
  }

  /** Pausing and resuming stores what automatic retries would have stored,
      whatever the model answers, if and only if no revision is allowed, or the
      turn has no manifest and no evidence and its conversation is not an empty
      text. */
  lemma {:induction false} ResumeMatchesAutomaticRetry(most: int, st: State, content: string, t: Turn)
    ensures PauseIsHarmless(most, st, content, t) <==>
            most <= 0 || (t.manifest == "" && t.evidence == "" && t.messages != Some(""))
  {
    if most <= 0 || Restored(t) == t {
      forall model: Model | !Judge(model, 0, content, t).compliant
        ensures AfterPause(model, most, st, content, t) == Some(Validate(model, most, content, t))
      {
        ResumeRevisesRestored(model, most, st, content, t);
      }
    } else if t.manifest != "" || t.evidence != "" {
      EvidenceIsLost(most, st, content, t);
    } else {
      EmptyConversationIsLost(most, st, content, t);
    }
  }

  /** A model that accepts a revision only when it is shown evidence. */
  function EvidenceSeeker(): Model {
    Model((i: nat, text: string, tier: string, manifest: string, evidence: string) =>
            Critique(i > 0 && (manifest != "" || evidence != ""), ""),
          (i: nat, text: string, c: Critique, messages: Option<string>, prompt: string) => text)
  }

  /** With evidence, it passes the first revision by itself, and none after a
      pause. */
  lemma {:induction false} EvidenceIsLost(most: int, st: State, content: string, t: Turn)
    requires most > 0 && (t.manifest != "" || t.evidence != "")
    ensures
      var model := EvidenceSeeker();
      && !Judge(model, 0, content, t).compliant
      && Validate(model, most, content, t).verdict == Revised
      && AfterPause(model, most, st, content, t).Some?
      && AfterPause(model, most, st, content, t).value.verdict == RejectedMaxRevisions
      && !PauseIsHarmless(most, st, content, t)
  {
    var model := EvidenceSeeker();
    var r := First(model, content, t);
    ResumeRevisesRestored(model, most, st, content, t);
    NeverAccepted(most, r, Restored(t), 0);
  }

  lemma {:induction false} NeverAccepted(most: int, r: Result, t: Turn, i: nat)
    requires t.manifest == "" && t.evidence == ""
    ensures Revise(EvidenceSeeker(), most, r, Critique(false, ""), t, i).verdict == RejectedMaxRevisions
    decreases most - i
  {
    if i < most {
      var c := Critique(false, "");
      assert Judge(EvidenceSeeker(), i + 1, r.content, t) == c;
      NeverAccepted(most, Accepted(r, r.content, c, i + 1), t, i + 1);
    }
  }

  /** A model that tells an empty conversation from an absent one. */
  function ConversationSeeker(): Model {
    Model((i: nat, text: string, tier: string, manifest: string, evidence: string) => Critique(i > 0, ""),
          (i: nat, text: string, c: Critique, messages: Option<string>, prompt: string) =>
            if messages == None then text else text + "!")
  }

  lemma {:induction false} EmptyConversationIsLost(most: int, st: State, content: string, t: Turn)
    requires most > 0 && t.messages == Some("")
    ensures
      var model := ConversationSeeker();
      && !Judge(model, 0, content, t).compliant
      && Validate(model, most, content, t).content == content + "!"
      && AfterPause(model, most, st, content, t).Some?
      && AfterPause(model, most, st, content, t).value.content == content
      && !PauseIsHarmless(most, st, content, t)
  {
    ResumeRevisesRestored(ConversationSeeker(), most, st, content, t);
    assert |content + "!"| == |content| + 1;
  }

  // ── The validator object ───────────────────────────────────────────

  class ConstitutionalValidator {
    const maxRevisions: int
    const model: Model
    var autoRetry: bool
    var pending: Option<Pending>
    var last: Option<Result>

    constructor (maxRevisions: int, model: Model)
      ensures this.maxRevisions == maxRevisions && this.model == model && autoRetry && View() == State(None, None)
    {
      this.maxRevisions, this.model := maxRevisions, model;
      autoRetry, pending, last := true, None, None;
    }

    ghost function View(): State
      reads this
    {
      State(pending, last)
    }

    method ApplyRevisions(start: Result, initial: Critique, t: Turn) returns (result: Result)
      ensures result == Revise(model, maxRevisions, start, initial, t, 0)
    {
      result := start;
      var critique := initial;
      var i := 0;
      while i < maxRevisions
        invariant 0 <= i
        invariant Revise(model, maxRevisions, result, critique, t, i) ==
                  Revise(model, maxRevisions, start, initial, t, 0)
        decreases maxRevisions - i
      {
        var revised := if critique.revised != "" then critique.revised
                       else model.revise(i + 1, result.content, critique, t.messages, t.systemPrompt);
        if |revised| < |result.content| / 2 {
          return result.(verdict := RejectedRevertedLength, attempt := i + 1);
        }
        critique := model.critique(i + 1, revised, t.tier, t.manifest, t.evidence);
        result := result.(content := revised, wasRevised := true, revisionCount := i + 1, attempt := i + 1,
                          finalCritique := critique);
        i := i + 1;
        if critique.compliant {
          return result.(verdict := Revised);
        }
      }
      if !critique.compliant {
        result := result.(verdict := RejectedMaxRevisions);
      } else if result.wasRevised {
        result := result.(verdict := Revised);
      }
    }

    method RunValidationLoop(content: string, t: Turn) returns (result: Result)
      modifies this`pending, this`last
      ensures autoRetry ==> View() == State(old(pending), Some(Validate(model, maxRevisions, content, t)))
      ensures !autoRetry ==> View() == PauseOn(model, old(View()), content, t)
      ensures last == Some(result)
    {
      var critique := model.critique(0, content, t.tier, t.manifest, t.evidence);
      result := Result(content, false, 0, 0, critique, Passed);
      if !critique.compliant {
        if autoRetry {
          result := ApplyRevisions(result, critique, t);
        } else {
          result := result.(verdict := PausedPendingConsumer);
          var messages := if t.messages.Some? then t.messages.value else "";
          pending := Some(Pending(result, critique, messages, t.tier, t.systemPrompt));
        }
      }
      last := Some(result);
    }

    method ResumeRetry() returns (answer: Answer)
      modifies this`pending, this`last
      ensures (View(), answer) == Resume(model, maxRevisions, old(View()))
    {
      if pending.None? { return InvalidState; }
      var state := pending.value;
      pending := None;
      var messages := if state.messages == "" then None else Some(state.messages);
      var t := Turn(state.tier, "", "", state.systemPrompt, messages);
      var result := ApplyRevisions(state.result, state.critique, t);
      last := Some(result);
      answer := Ok;
    }

    method AcceptLastAttempt() returns (answer: Answer)
      modifies this`pending, this`last
      ensures (View(), answer) == AcceptLast(old(View()))
    {
      if pending.None? { return InvalidState; }
      last := Some(pending.value.result.(verdict := PassedConsumerOverride));
      pending := None;
      answer := Ok;
    }
  }
}
