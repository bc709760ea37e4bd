/** Which texts a validation goes through, where it stops, and with what. */
module ValidationRuns {
  import opened Messages
  import opened Validator

  /** The critique of `text` as attempt `k`. */
  function CritiqueOf(model: Model, t: Turn, k: nat, text: string): Critique {
    model.critique(k, text, t.tier, t.manifest, t.evidence)
  }

  /** The text after `k` revisions. What a critique proposes is taken as it is; the
      model is asked for a revision only where nothing is proposed. */
  function TextAt(model: Model, content: string, t: Turn, k: nat): string {
    if k == 0 then content
    else
      var last := TextAt(model, content, t, k - 1);
      var c := CritiqueOf(model, t, k - 1, last);
      if c.revised != "" then c.revised else model.revise(k, last, c, t.messages, t.systemPrompt)
  }

  predicate CompliantAt(model: Model, content: string, t: Turn, k: nat) {
    CritiqueOf(model, t, k, TextAt(model, content, t, k)).compliant
  }

  /** The next text would be less than half as long, rounded down. */
  predicate ShrinksAt(model: Model, content: string, t: Turn, k: nat) {
    2 * |TextAt(model, content, t, k + 1)| + 2 <= |TextAt(model, content, t, k)|
  }

  /** There is a revision after the `k`th. */
  predicate GoesOn(model: Model, most: int, content: string, t: Turn, k: nat) {
    !CompliantAt(model, content, t, k) && k < most && !ShrinksAt(model, content, t, k)
  }

  /** What a validation hands back that stops after `k` revisions. */
  function Outcome(model: Model, most: int, content: string, t: Turn, k: nat): Result {
    var text, compliant := TextAt(model, content, t, k), CompliantAt(model, content, t, k);
    Result(text, k > 0, k, if !compliant && k < most then k + 1 else k, CritiqueOf(model, t, k, text),
           if compliant then (if k == 0 then Passed else Revised)
           else if k < most then RejectedRevertedLength
           else RejectedMaxRevisions)
  }

  /** The state of the revision loop after `k` revisions. */
  function Midway(model: Model, content: string, t: Turn, k: nat, v: Verdict): Result {
    var text := TextAt(model, content, t, k);
    Result(text, k > 0, k, k, CritiqueOf(model, t, k, text), v)
  }

  lemma {:induction false} ReviseStops(model: Model, most: int, content: string, t: Turn, i: nat, k: nat, v: Verdict)
    requires i <= k && !CompliantAt(model, content, t, i)
    requires forall j :: i <= j < k ==> GoesOn(model, most, content, t, j)
    requires !GoesOn(model, most, content, t, k)
    ensures
      var r := Midway(model, content, t, i, v);
      Revise(model, most, r, r.finalCritique, t, i) == Outcome(model, most, content, t, k)
    decreases k - i
  {
    var r := Midway(model, content, t, i, v);
    if i < k {
      assert GoesOn(model, most, content, t, i);
      var revised := Attempt(model, i + 1, r.content, r.finalCritique, t);
      assert revised == TextAt(model, content, t, i + 1);
      var next := Accepted(r, revised, Judge(model, i + 1, revised, t), i + 1);
      assert next == Midway(model, content, t, i + 1, v);
      assert i + 1 < k ==> GoesOn(model, most, content, t, i + 1);
      if !CompliantAt(model, content, t, i + 1) { ReviseStops(model, most, content, t, i + 1, k, v); }
    }
  }

  /** The texts in turn, until the first that is compliant, that is the last one
      allowed, or that the next would shrink too much; then its own text, critique
      and verdict. */
  lemma {:induction false} ValidatesExactly(model: Model, most: int, content: string, t: Turn, k: nat)
    requires forall j :: 0 <= j < k ==> GoesOn(model, most, content, t, j)
    requires !GoesOn(model, most, content, t, k)
    ensures Validate(model, most, content, t) == Outcome(model, most, content, t, k)
  {
    assert 0 < k ==> GoesOn(model, most, content, t, 0);
    if !CompliantAt(model, content, t, 0) {
      ReviseStops(model, most, content, t, 0, k, Passed);
      assert First(model, content, t) == Midway(model, content, t, 0, Passed);
    }
  }

  /** There is exactly one such stop. */
  lemma {:induction false} ValidationStops(model: Model, most: int, content: string, t: Turn) returns (k: nat)
    ensures (forall j :: 0 <= j < k ==> GoesOn(model, most, content, t, j)) && !GoesOn(model, most, content, t, k)
    ensures Validate(model, most, content, t) == Outcome(model, most, content, t, k)
  {
    k := 0;
    while GoesOn(model, most, content, t, k)
      invariant forall j :: 0 <= j < k ==> GoesOn(model, most, content, t, j)
      decreases most - k
    {
      k := k + 1;
    }
    ValidatesExactly(model, most, content, t, k);
  }

  /** Revising what is compliant when no revision is left keeps the text, and says
      whether it was revised. */
  lemma {:induction false} NothingLeftToRevise(model: Model, r: Result, c: Critique, t: Turn, i: nat)
    requires c.compliant
    ensures Revise(model, i, r, c, t, i) == if r.wasRevised then r.(verdict := Revised) else r
  {
  }

  /** Accepting after a pause stores the text as it was first judged, with a
      verdict of its own; a pause without any pending text accepts nothing. */
  lemma {:induction false} AcceptStoresPaused(model: Model, st: State, content: string, t: Turn)
    requires !CritiqueOf(model, t, 0, content).compliant
    ensures
      var c := CritiqueOf(model, t, 0, content);
      var (st', answer) := AcceptLast(PauseOn(model, st, content, t));
      && PauseOn(model, st, content, t).last == Some(Result(content, false, 0, 0, c, PausedPendingConsumer))
      && answer == Ok
      && st' == State(None, Some(Result(content, false, 0, 0, c, PassedConsumerOverride)))
  {
  }

  /** With retries off, a compliant text is stored, and what is pending stays so. */
  lemma {:induction false} CompliantIsNotPaused(model: Model, st: State, content: string, t: Turn)
    requires CritiqueOf(model, t, 0, content).compliant
    ensures PauseOn(model, st, content, t) ==
            State(st.pending, Some(Result(content, false, 0, 0, CritiqueOf(model, t, 0, content), Passed)))
  {
  }
}
