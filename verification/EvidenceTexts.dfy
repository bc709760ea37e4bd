/** What the validator reads of the tool results: which of them, and how much. */
module EvidenceTexts {
  import opened Messages
  import opened Compaction
  import opened ContextRuns

  /** The original of a result, where pruning has saved it, else its body. */
  function Original(m: Message): string {
    if "original_content" in m.metadata then m.metadata["original_content"] else m.content
  }

  predicate NamesTool(m: Message) {
    "tool_name" in m.metadata && m.metadata["tool_name"] != ""
  }

  // ── The manifest ───────────────────────────────────────────────────

  lemma {:induction false} ManifestConcat(a: seq<View>, b: seq<View>)
    ensures Manifest(a + b) == Manifest(a) + Manifest(b)
  {
    if a == [] {
      assert a + b == b;
    } else {
      assert (a + b)[1..] == a[1..] + b;
      ManifestConcat(a[1..], b);
      Assoc(ManifestLine(a[0].name, |a[0].text|), Manifest(a[1..]), Manifest(b));
    }
  }

  lemma {:induction false} ViewsOfOne(m: Message)
    ensures Views([m]) == if NamesTool(m) then [ViewOf(m)] else []
  {
    assert [m][1..] == [] && Views([]) == [];
  }

  /** Wherever it stands, a result has one line in the manifest, with its tool and
      the size of its original; other messages have none. The bytes are an
      arrow. */
  lemma {:induction false} ManifestExactly(a: seq<Message>, m: Message, b: seq<Message>)
    ensures Manifest(Views(a + [m] + b)) ==
            Manifest(Views(a)) +
            (if NamesTool(m)
             then "- " + m.metadata["tool_name"] + " \U{E2}\U{86}\U{92} " + Decimal(|Original(m)|) + " chars\n"
             else "") +
            Manifest(Views(b))
  {
    ViewsConcat(a + [m], b);
    ViewsConcat(a, [m]);
    ViewsOfOne(m);
    ManifestConcat(Views(a) + Views([m]), Views(b));
    ManifestConcat(Views(a), Views([m]));
    assert NamesTool(m) ==> Manifest([ViewOf(m)]) == ManifestLine(ViewOf(m).name, |ViewOf(m).text|) by {
      if NamesTool(m) {
        ManifestCons(ViewOf(m), []);
        assert [ViewOf(m)] + [] == [ViewOf(m)];
        assert ManifestLine(ViewOf(m).name, |ViewOf(m).text|) + "" == ManifestLine(ViewOf(m).name, |ViewOf(m).text|);
      }
    }
  }

  // ── The evidence ───────────────────────────────────────────────────

  /** A long text keeps its first `limit` bytes, and says how many are missing. */
  lemma {:induction false} ClipExactly(text: string, limit: nat)
    ensures |text| <= limit ==> Clip(text, limit) == text
    ensures |text| > limit ==>
            Clip(text, limit) == text[..limit] + "\n[... truncated, " + Decimal(|text| - limit) + " more chars]"
  {
  }

  /** The entry of one result: its tool, its iteration if it has one, its text. */
  function EntryOf(m: Message, limit: nat): string
    requires NamesTool(m)
  {
    "## " + m.metadata["tool_name"] +
    (if "added_at_iteration" in m.metadata then " [iter " + m.metadata["added_at_iteration"] + "]" else "") +
    "\n" + Clip(Original(m), limit) + "\n\n"
  }

  function EntriesOf(ms: seq<Message>, limit: nat): string {
    if ms == [] then ""
    else (if NamesTool(ms[0]) then EntryOf(ms[0], limit) else "") + EntriesOf(ms[1..], limit)
  }

  lemma {:induction false} EntriesExactly(ms: seq<Message>, limit: nat)
    ensures Entries(Views(ms), limit) == EntriesOf(ms, limit)
  {
    if ms != [] {
      EntriesExactly(ms[1..], limit);
      if NamesTool(ms[0]) { EntriesFrom(Views(ms), 0, limit); }
      assert Views(ms)[0..] == Views(ms);
      assert NamesTool(ms[0]) ==> Views(ms)[1..] == Views(ms[1..]);
    }
  }

  /** The number of results in a conversation. */
  function Results(ms: seq<Message>): nat {
    if ms == [] then 0 else (if NamesTool(ms[0]) then 1 else 0) + Results(ms[1..])
  }

  lemma {:induction false} ResultsAreViews(ms: seq<Message>)
    ensures |Views(ms)| == Results(ms)
  {
    if ms != [] { ResultsAreViews(ms[1..]); }
  }

  /** When not too many results are there, all of them are shown, in order. Else a
      note says how many are left out, and only the last ones are shown. */
  lemma {:induction false} EvidenceExactly(a: seq<Message>, b: seq<Message>, most: nat, limit: nat)
    requires if Results(a) == 0 then Results(b) <= most else Results(b) == most
    ensures Evidence(Views(a + b), most, limit) ==
            (if Results(a) == 0 then "" else "(" + Decimal(Results(a)) + " earlier tool results elided for length)\n") +
            EntriesOf(b, limit)
  {
    ViewsConcat(a, b);
    ResultsAreViews(a);
    ResultsAreViews(b);
    EntriesExactly(b, limit);
    EvidenceOf(Views(a), Views(b), most, limit);
  }

  lemma {:induction false} EvidenceOf(a: seq<View>, b: seq<View>, most: nat, limit: nat)
    requires if a == [] then |b| <= most else |b| == most
    ensures Evidence(a + b, most, limit) == ElidedNote(|a|) + Entries(b, limit)
  {
    if a + b != [] {
      EvidenceSplit(a + b, most, limit, |a|);
      assert (a + b)[|a|..] == b;
    }
  }
}
