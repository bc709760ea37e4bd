/** What the cursor parser makes of any document of message objects: fields in
    any order, unknown fields with any value, contents as strings or as arrays of
    parts, and whitespace between the tokens. */
module JsonDocuments {
  import opened Messages
  import opened JsonMessages

  // ── Values that are skipped ────────────────────────────────────────

  datatype Value = Str(text: string) | Primitive(token: string) | Array(items: Values) | Object(fields: Fields)

  datatype Values = NoValue | More(head: Value, tail: Values)

  datatype Fields = NoField | Entry(key: string, value: Value, rest: Fields)

  predicate IsPlainChar(c: char) {
    c != '"' && c != '[' && c != ']' && c != '{' && c != '}' && c != ','
  }

  /** Numbers, true, false and null are tokens of plain characters. */
  predicate IsToken(s: string) {
    s != "" && !IsSpace(s[0]) && forall i :: 0 <= i < |s| ==> IsPlainChar(s[i])
  }

  predicate WellFormed(v: Value) {
    match v
    case Str(text) => true
    case Primitive(token) => IsToken(token)
    case Array(items) => AllWellFormed(items)
    case Object(fields) => FieldsWellFormed(fields)
  }

  predicate AllWellFormed(vs: Values) {
    vs.More? ==> WellFormed(vs.head) && AllWellFormed(vs.tail)
  }

  predicate FieldsWellFormed(fs: Fields) {
    fs.Entry? ==> WellFormed(fs.value) && FieldsWellFormed(fs.rest)
  }

  // ── Printing, before a text `t` that follows ───────────────────────

  function Quoted(s: string, t: string): string {
    "\"" + (Escape(s) + ("\"" + t))
  }

  /** `gap` is the whitespace between tokens. */
  function After(gap: string, first: bool, t: string): string {
    if first then gap + t else gap + ("," + (gap + t))
  }

  function KeyText(gap: string, key: string, t: string): string {
    Quoted(key, gap + (":" + (gap + t)))
  }

  function Text(gap: string, v: Value, t: string): string {
    match v
    case Str(text) => Quoted(text, t)
    case Primitive(token) => token + t
    case Array(items) => "[" + ItemsText(gap, items, true, t)
    case Object(fields) => "{" + FieldsText(gap, fields, true, t)
  }

  function ItemsText(gap: string, vs: Values, first: bool, t: string): string {
    if vs.NoValue? then gap + ("]" + t)
    else After(gap, first, Text(gap, vs.head, ItemsText(gap, vs.tail, false, t)))
  }

  function FieldsText(gap: string, fs: Fields, first: bool, t: string): string {
    if fs.NoField? then gap + ("}" + t)
    else After(gap, first, KeyText(gap, fs.key, Text(gap, fs.value, FieldsText(gap, fs.rest, false, t))))
  }

  // ── Skipping undoes printing ───────────────────────────────────────

  predicate AllSpace(s: string) {
    forall i :: 0 <= i < |s| ==> IsSpace(s[i])
  }

  /** The whitespace of the "C" locale: space, tab, line feed, vertical tab, form
      feed and carriage return. */
  lemma {:induction false} SpacesExactly(c: char)
    ensures IsSpace(c) <==> c in [' ', '\t', '\n', '\U{0B}', '\U{0C}', '\r']
  {
    assert '\t' as int == 9 && '\n' as int == 10 && '\U{0B}' as int == 11 && '\U{0C}' as int == 12 && '\r' as int == 13;
  }

  /** `s` begins with a character that is not whitespace. */
  predicate Begins(s: string) {
    s != "" && !IsSpace(s[0])
  }

  lemma {:induction false} GapSkipped(gap: string, s: string)
    requires AllSpace(gap) && Begins(s)
    ensures SkipWs(gap + s) == s
  {
    if gap == "" {
      assert gap + s == s;
    } else {
      assert (gap + s)[1..] == gap[1..] + s;
      GapSkipped(gap[1..], s);
    }
  }

  lemma {:induction false} QuotedRead(gap: string, s: string, t: string, prev: string)
    requires AllSpace(gap)
    ensures ReadString(gap + Quoted(s, t), prev) == Read(true, t, s)
  {
    GapSkipped(gap, Quoted(s, t));
    assert Quoted(s, t)[1..] == Escape(s) + ("\"" + t);
    ReadBodyUndoesEscape(s, t);
  }

  /** The brackets of one kind of composite. */
  predicate Brackets(open: char, close: char) {
    (open == '[' && close == ']') || (open == '{' && close == '}')
  }

  function Inner(open: char, bracket: char, depth: nat): nat {
    if bracket == open then depth + 1 else depth
  }

  /** Characters that are neither quotes nor brackets are passed over. */
  lemma {:induction false} Passed(a: string, t: string, open: char, close: char, depth: nat)
    requires Brackets(open, close) && depth > 0
    requires forall i :: 0 <= i < |a| ==> IsSpace(a[i]) || IsPlainChar(a[i]) || a[i] == ','
    ensures SkipComposite(a + t, open, close, depth) == SkipComposite(t, open, close, depth)
  {
    if a == "" {
      assert a + t == t;
    } else {
      assert (a + t)[1..] == a[1..] + t;
      Passed(a[1..], t, open, close, depth);
    }
  }

  lemma {:induction false} OpenPassed(bracket: char, t: string, open: char, close: char, depth: nat)
    requires Brackets(open, close) && depth > 0 && (bracket == '[' || bracket == '{')
    ensures SkipComposite([bracket] + t, open, close, depth) ==
            SkipComposite(t, open, close, Inner(open, bracket, depth))
  {
    assert ([bracket] + t)[1..] == t;
  }

  lemma {:induction false} ClosePassed(bracket: char, t: string, open: char, close: char, depth: nat)
    requires Brackets(open, close) && (bracket == '[' || bracket == '{') && Inner(open, bracket, depth) > 0
    ensures
      var end := if bracket == '[' then ']' else '}';
      SkipComposite([end] + t, open, close, Inner(open, bracket, depth)) == SkipComposite(t, open, close, depth)
  {
    var end := if bracket == '[' then ']' else '}';
    assert ([end] + t)[1..] == t;
  }

  lemma {:induction false} QuotedPassed(s: string, t: string, open: char, close: char, depth: nat)
    requires Brackets(open, close) && depth > 0
    ensures SkipComposite(Quoted(s, t), open, close, depth) == SkipComposite(t, open, close, depth)
  {
    QuotedRead("", s, t, "");
    assert "" + Quoted(s, t) == Quoted(s, t);
  }

  lemma {:induction false} SeparatorPassed(gap: string, first: bool, t: string, open: char, close: char, depth: nat)
    requires AllSpace(gap) && Brackets(open, close) && depth > 0
    ensures SkipComposite(After(gap, first, t), open, close, depth) == SkipComposite(t, open, close, depth)
  {
    Passed(gap, t, open, close, depth);
    if !first {
      Passed(gap, "," + (gap + t), open, close, depth);
      Passed(",", gap + t, open, close, depth);
    }
  }

  /** Within a composite every value inside it is passed over. */
  lemma {:induction false} ValuePassed(gap: string, v: Value, t: string, open: char, close: char, depth: nat)
    requires AllSpace(gap) && WellFormed(v) && Brackets(open, close) && depth > 0
    ensures SkipComposite(Text(gap, v, t), open, close, depth) == SkipComposite(t, open, close, depth)
    decreases v
  {
    match v
    case Str(text) => QuotedPassed(text, t, open, close, depth);
    case Primitive(token) => Passed(token, t, open, close, depth);
    case Array(items) =>
      OpenPassed('[', ItemsText(gap, items, true, t), open, close, depth);
      ItemsPassed(gap, items, true, t, open, close, depth);
    case Object(fields) =>
      OpenPassed('{', FieldsText(gap, fields, true, t), open, close, depth);
      FieldsPassed(gap, fields, true, t, open, close, depth);
  }

  lemma {:induction false} ItemsPassed(gap: string, vs: Values, first: bool, t: string, open: char, close: char,
                                       depth: nat)
    requires AllSpace(gap) && AllWellFormed(vs) && Brackets(open, close) && Inner(open, '[', depth) > 0
    ensures SkipComposite(ItemsText(gap, vs, first, t), open, close, Inner(open, '[', depth)) ==
            SkipComposite(t, open, close, depth)
    decreases vs
  {
    var d := Inner(open, '[', depth);
    if vs.NoValue? {
      Passed(gap, "]" + t, open, close, d);
      ClosePassed('[', t, open, close, depth);
    } else {
      var rest := ItemsText(gap, vs.tail, false, t);
      SeparatorPassed(gap, first, Text(gap, vs.head, rest), open, close, d);
      ValuePassed(gap, vs.head, rest, open, close, d);
      ItemsPassed(gap, vs.tail, false, t, open, close, depth);
    }
  }

  lemma {:induction false} FieldsPassed(gap: string, fs: Fields, first: bool, t: string, open: char, close: char,
                                        depth: nat)
    requires AllSpace(gap) && FieldsWellFormed(fs) && Brackets(open, close) && Inner(open, '{', depth) > 0
    ensures SkipComposite(FieldsText(gap, fs, first, t), open, close, Inner(open, '{', depth)) ==
            SkipComposite(t, open, close, depth)
    decreases fs
  {
    var d := Inner(open, '{', depth);
    if fs.NoField? {
      Passed(gap, "}" + t, open, close, d);
      ClosePassed('{', t, open, close, depth);
    } else {
      var rest := FieldsText(gap, fs.rest, false, t);
      var value := Text(gap, fs.value, rest);
      SeparatorPassed(gap, first, KeyText(gap, fs.key, value), open, close, d);
      KeyPassed(gap, fs.key, value, open, close, d);
      ValuePassed(gap, fs.value, rest, open, close, d);
      FieldsPassed(gap, fs.rest, false, t, open, close, depth);
    }
  }

  lemma {:induction false} KeyPassed(gap: string, key: string, t: string, open: char, close: char, depth: nat)
    requires AllSpace(gap) && Brackets(open, close) && depth > 0
    ensures SkipComposite(KeyText(gap, key, t), open, close, depth) == SkipComposite(t, open, close, depth)
  {
    QuotedPassed(key, gap + (":" + (gap + t)), open, close, depth);
    Passed(gap, ":" + (gap + t), open, close, depth);
    Passed(":", gap + t, open, close, depth);
    Passed(gap, t, open, close, depth);
  }

  /** What follows a value: whitespace, then a comma or a closing bracket. */
  ghost predicate Follows(gap: string, t: string, end: string) {
    AllSpace(gap) && t == gap + end && end != "" && EndsPrimitive(end[0])
  }

  lemma {:induction false} PrimitiveSkipped(a: string, end: string)
    requires end != "" && EndsPrimitive(end[0]) && forall i :: 0 <= i < |a| ==> !EndsPrimitive(a[i])
    ensures SkipPrimitive(a + end) == end
  {
    if a == "" {
      assert a + end == end;
    } else {
      assert (a + end)[1..] == a[1..] + end;
      PrimitiveSkipped(a[1..], end);
    }
  }

  lemma {:induction false} TextBegins(gap: string, v: Value, t: string)
    requires WellFormed(v)
    ensures Begins(Text(gap, v, t))
    ensures v.Primitive? <==> Text(gap, v, t)[0] !in ['"', '[', '{']
  {
  }

  /** Any value is skipped whole, and after a token the whitespace with it. */
  lemma {:induction false} ValueSkipped(gap: string, v: Value, t: string, space: string, end: string)
    requires AllSpace(gap) && WellFormed(v) && Follows(space, t, end)
    ensures SkipValue(gap + Text(gap, v, t)) == if v.Primitive? then end else t
  {
    var s := Text(gap, v, t);
    TextBegins(gap, v, t);
    GapSkipped(gap, s);
    match v
    case Str(text) =>
      QuotedRead("", text, t, "");
      assert "" + s == s;
    case Primitive(token) =>
      assert s == (token + space) + end;
      PrimitiveSkipped(token + space, end);
    case Array(items) =>
      assert s[1..] == ItemsText(gap, items, true, t);
      ItemsPassed(gap, items, true, t, '[', ']', 0);
    case Object(fields) =>
      assert s[1..] == FieldsText(gap, fields, true, t);
      FieldsPassed(gap, fields, true, t, '{', '}', 0);
  }

  lemma {:induction false} KeyIsRead(gap: string, key: string, t: string)
    requires AllSpace(gap)
    ensures ReadString(KeyText(gap, key, t), "") == Read(true, gap + (":" + (gap + t)), key)
    ensures SkipWs(gap + (":" + (gap + t))) == ":" + (gap + t) && (":" + (gap + t))[1..] == gap + t
  {
    QuotedRead("", key, gap + (":" + (gap + t)), "");
    assert "" + KeyText(gap, key, t) == KeyText(gap, key, t);
    GapSkipped(gap, ":" + (gap + t));
  }

  // ── Content parts ──────────────────────────────────────────────────

  datatype PartEntry = Kind(kind: string) | Words(words: string) | Extra(key: string, value: Value)

  type ContentPart = seq<PartEntry>

  predicate PartEntryOk(e: PartEntry) {
    e.Extra? ==> e.key != "type" && e.key != "text" && WellFormed(e.value)
  }

  ghost predicate PartOk(es: ContentPart) {
    forall e :: e in es ==> PartEntryOk(e)
  }

  function PartEntryText(gap: string, e: PartEntry, t: string): string {
    match e
    case Kind(kind) => KeyText(gap, "type", Quoted(kind, t))
    case Words(words) => KeyText(gap, "text", Quoted(words, t))
    case Extra(key, value) => KeyText(gap, key, Text(gap, value, t))
  }

  /** The fields of a part and its closing brace, which no whitespace precedes. */
  function PartText(gap: string, es: ContentPart, first: bool, t: string): string {
    if es == [] then "}" + t
    else After(gap, first, PartEntryText(gap, es[0], PartText(gap, es[1..], false, t)))
  }

  function KindAfter(e: PartEntry, kind: string): string {
    if e.Kind? then e.kind else kind
  }

  function WordsAfter(e: PartEntry, words: string): string {
    if e.Words? then e.words else words
  }

  /** The last of a part's fields of a name counts. */
  function KindOf(es: ContentPart, kind: string): string {
    if es == [] then kind else KindOf(es[1..], KindAfter(es[0], kind))
  }

  function WordsOf(es: ContentPart, words: string): string {
    if es == [] then words else WordsOf(es[1..], WordsAfter(es[0], words))
  }

  lemma {:induction false} PartFieldRead(gap: string, e: PartEntry, t: string, space: string, end: string,
                                         kind: string, words: string)
    requires AllSpace(gap) && PartEntryOk(e) && Follows(space, t, end)
    ensures
      var rest := if e.Extra? && e.value.Primitive? then end else t;
      ReadPartField(PartEntryText(gap, e, t), kind, words) == Part(true, rest, KindAfter(e, kind), WordsAfter(e, words))
  {
    match e
    case Kind(k) =>
      KeyIsRead(gap, "type", Quoted(k, t));
      QuotedRead(gap, k, t, kind);
    case Words(w) => WordsRead(gap, w, t, kind, words);
    case Extra(key, value) =>
      KeyIsRead(gap, key, Text(gap, value, t));
      ValueSkipped(gap, value, t, space, end);
  }

  lemma {:induction false} WordsRead(gap: string, w: string, t: string, kind: string, words: string)
    requires AllSpace(gap)
    ensures ReadPartField(KeyText(gap, "text", Quoted(w, t)), kind, words) == Part(true, t, kind, w)
  {
    KeyIsRead(gap, "text", Quoted(w, t));
    QuotedRead(gap, w, t, words);
    assert "text"[1] != "type"[1];
  }

  /** What follows a part's field. */
  lemma {:induction false} PartGoesOn(gap: string, es: ContentPart, t: string) returns (space: string, end: string)
    requires AllSpace(gap)
    ensures Follows(space, PartText(gap, es, false, t), end)
    ensures forall kind, words :: ParsePart(PartText(gap, es, false, t), kind, words) == ParsePart(end, kind, words)
  {
    if es == [] {
      space, end := "", "}" + t;
      assert "" + end == end;
    } else {
      space, end := gap, "," + (gap + PartEntryText(gap, es[0], PartText(gap, es[1..], false, t)));
      GapSkipped(gap, end);
    }
  }

  lemma {:induction false} PartRead(gap: string, es: ContentPart, first: bool, t: string, kind: string, words: string)
    requires AllSpace(gap) && PartOk(es)
    ensures ParsePart(PartText(gap, es, first, t), kind, words) ==
            Part(true, t, KindOf(es, kind), WordsOf(es, words))
    decreases es
  {
    if es == [] {
      assert ("}" + t)[1..] == t;
    } else {
      var rest := PartText(gap, es[1..], false, t);
      var field := PartEntryText(gap, es[0], rest);
      var space, end := PartGoesOn(gap, es[1..], t);
      PartCommaRead(gap, first, field, kind, words);
      PartFieldRead(gap, es[0], rest, space, end, kind, words);
      assert es[0] in es;
      PartRead(gap, es[1..], false, t, KindAfter(es[0], kind), WordsAfter(es[0], words));
    }
  }

  lemma {:induction false} PartCommaRead(gap: string, first: bool, field: string, kind: string, words: string)
    requires AllSpace(gap) && field != "" && field[0] == '"'
    ensures
      var f := ReadPartField(field, kind, words);
      ParsePart(After(gap, first, field), kind, words) == if f.ok then ParsePart(f.rest, f.kind, f.text) else f
  {
    GapSkipped(gap, field);
    if !first {
      GapSkipped(gap, "," + (gap + field));
      assert ("," + (gap + field))[1..] == gap + field;
    }
  }

  /** Whitespace before a part's closing brace is refused. */
  lemma {:induction false} SpaceBeforeBraceIsRefused(gap: string, t: string, kind: string, words: string)
    requires AllSpace(gap) && gap != ""
    ensures !ParsePart(gap + ("}" + t), kind, words).ok
  {
    GapSkipped(gap, "}" + t);
  }

  // ── Arrays of parts ────────────────────────────────────────────────

  ghost predicate PartsOk(ps: seq<ContentPart>) {
    forall p :: p in ps ==> PartOk(p)
  }

  function PartsText(gap: string, ps: seq<ContentPart>, first: bool, t: string): string
    decreases ps, 1
  {
    if ps == [] then gap + ("]" + t) else After(gap, first, Elements(gap, ps, t))
  }

  /** The same from the next element on. */
  function Elements(gap: string, ps: seq<ContentPart>, t: string): string
    decreases ps, 0
  {
    if ps == [] then "]" + t else "{" + PartText(gap, ps[0], true, PartsText(gap, ps[1..], false, t))
  }

  lemma {:induction false} ToElement(gap: string, ps: seq<ContentPart>, first: bool, t: string)
    requires AllSpace(gap)
    ensures SkipToElement(PartsText(gap, ps, first, t)) == Elements(gap, ps, t)
  {
    var s := Elements(gap, ps, t);
    GapSkipped(gap, s);
    if ps != [] && !first {
      GapSkipped(gap, "," + (gap + s));
      assert ("," + (gap + s))[1..] == gap + s;
    }
  }

  /** A part's text, if it is a text part and not empty. */
  function TextOf(es: ContentPart): seq<string> {
    if KindOf(es, "") == "text" && WordsOf(es, "") != "" then [WordsOf(es, "")] else []
  }

  function TextsOf(ps: seq<ContentPart>): seq<string> {
    if ps == [] then [] else TextOf(ps[0]) + TextsOf(ps[1..])
  }

  /** Texts joined by single spaces. */
  function Joined(texts: seq<string>): string {
    if texts == [] then "" else if |texts| == 1 then texts[0] else texts[0] + " " + Joined(texts[1..])
  }

  lemma {:induction false} JoinedSnoc(texts: seq<string>, x: string)
    ensures Joined(texts + [x]) == if texts == [] then x else Joined(texts) + " " + x
  {
    if texts != [] {
      assert (texts + [x])[1..] == texts[1..] + [x];
      JoinedSnoc(texts[1..], x);
    }
  }

  lemma {:induction false} JoinedNotEmpty(texts: seq<string>)
    requires texts != [] && forall x :: x in texts ==> x != ""
    ensures Joined(texts) != ""
  {
    assert texts[0] in texts;
  }

  lemma {:induction false} TextAppended(es: ContentPart, before: seq<string>)
    requires forall x :: x in before ==> x != ""
    ensures AppendText(KindOf(es, ""), WordsOf(es, ""), Joined(before)) == Joined(before + TextOf(es))
  {
    JoinedSnoc(before, WordsOf(es, ""));
    if TextOf(es) == [] { assert before + TextOf(es) == before; }
    if before != [] { JoinedNotEmpty(before); }
  }

  /** One part, and on to the next element. */
  lemma {:induction false} OnePartRead(gap: string, ps: seq<ContentPart>, t: string, before: seq<string>)
    requires AllSpace(gap) && ps != [] && PartOk(ps[0]) && forall x :: x in before ==> x != ""
    ensures ReadPart(Elements(gap, ps, t), Joined(before)) ==
            Read(true, Elements(gap, ps[1..], t), Joined(before + TextOf(ps[0])))
  {
    var rest := PartsText(gap, ps[1..], false, t);
    var s := PartText(gap, ps[0], true, rest);
    assert ("{" + s)[1..] == s;
    PartRead(gap, ps[0], true, rest, "", "");
    ToElement(gap, ps[1..], false, t);
    TextAppended(ps[0], before);
  }

  lemma {:induction false} AssociateTexts(a: seq<string>, b: seq<string>, c: seq<string>)
    ensures (a + b) + c == a + (b + c)
  {
  }

  /** Reading the parts after those whose texts are `before`. */
  lemma {:induction false} PartsRead(gap: string, ps: seq<ContentPart>, t: string, before: seq<string>)
    requires AllSpace(gap) && PartsOk(ps) && forall x :: x in before ==> x != ""
    ensures ReadParts(Elements(gap, ps, t), Joined(before)) == Read(true, t, Joined(before + TextsOf(ps)))
    decreases ps
  {
    if ps == [] {
      assert ("]" + t)[1..] == t;
      assert before + TextsOf(ps) == before;
    } else {
      assert ps[0] in ps;
      OnePartRead(gap, ps, t, before);
      PartsRead(gap, ps[1..], t, before + TextOf(ps[0]));
      AssociateTexts(before, TextOf(ps[0]), TextsOf(ps[1..]));
    }
  }

  // ── Messages ───────────────────────────────────────────────────────

  datatype MessageEntry =
    | Role(role: string)
    | Content(content: string)
    | Parts(parts: seq<ContentPart>)
    | Unknown(key: string, value: Value)

  ghost predicate EntryOk(e: MessageEntry) {
    match e
    case Parts(ps) => PartsOk(ps)
    case Unknown(key, value) => key != "role" && key != "content" && WellFormed(value)
    case _ => true
  }

  ghost predicate EntriesOk(es: seq<MessageEntry>) {
    forall e :: e in es ==> EntryOk(e)
  }

  function EntryText(gap: string, e: MessageEntry, t: string): string {
    match e
    case Role(role) => KeyText(gap, "role", Quoted(role, t))
    case Content(content) => KeyText(gap, "content", Quoted(content, t))
    case Parts(ps) => KeyText(gap, "content", "[" + PartsText(gap, ps, true, t))
    case Unknown(key, value) => KeyText(gap, key, Text(gap, value, t))
  }

  function EntriesText(gap: string, es: seq<MessageEntry>, first: bool, t: string): string {
    if es == [] then gap + ("}" + t)
    else After(gap, first, EntryText(gap, es[0], EntriesText(gap, es[1..], false, t)))
  }

  /** A field's effect on the message: unknown ones have none. */
  function Entered(e: MessageEntry, m: Message): Message {
    match e
    case Role(role) => m.(role := role)
    case Content(content) => m.(content := content)
    case Parts(ps) => m.(content := Joined(TextsOf(ps)))
    case Unknown(key, value) => m
  }

  function MessageOf(es: seq<MessageEntry>, m: Message): Message {
    if es == [] then m else MessageOf(es[1..], Entered(es[0], m))
  }

  lemma {:induction false} PartsContentRead(gap: string, ps: seq<ContentPart>, t: string, m: Message)
    requires AllSpace(gap) && PartsOk(ps)
    ensures ReadContent(gap + ("[" + PartsText(gap, ps, true, t)), m) ==
            Field(true, t, m.(content := Joined(TextsOf(ps))))
  {
    var s := PartsText(gap, ps, true, t);
    GapSkipped(gap, "[" + s);
    assert ("[" + s)[1..] == s;
    ToElement(gap, ps, true, t);
    PartsRead(gap, ps, t, []);
    assert [] + TextsOf(ps) == TextsOf(ps);
  }

  lemma {:induction false} StringContentRead(gap: string, content: string, t: string, m: Message)
    requires AllSpace(gap)
    ensures ReadContent(gap + Quoted(content, t), m) == Field(true, t, m.(content := content))
  {
    GapSkipped(gap, Quoted(content, t));
    QuotedRead("", content, t, m.content);
    assert "" + Quoted(content, t) == Quoted(content, t);
  }

  lemma {:induction false} FieldNames()
    ensures "role" != "content"
  {
    assert |"role"| == 4 && |"content"| == 7;
  }

  lemma {:induction false} EntryRead(gap: string, e: MessageEntry, t: string, space: string, end: string, m: Message)
    requires AllSpace(gap) && EntryOk(e) && Follows(space, t, end)
    ensures
      var rest := if e.Unknown? && e.value.Primitive? then end else t;
      ReadField(EntryText(gap, e, t), m) == Field(true, rest, Entered(e, m))
  {
    FieldNames();
    match e
    case Role(role) =>
      KeyIsRead(gap, "role", Quoted(role, t));
      QuotedRead(gap, role, t, m.role);
    case Content(content) =>
      KeyIsRead(gap, "content", Quoted(content, t));
      StringContentRead(gap, content, t, m);
    case Parts(ps) =>
      KeyIsRead(gap, "content", "[" + PartsText(gap, ps, true, t));
      PartsContentRead(gap, ps, t, m);
    case Unknown(key, value) =>
      KeyIsRead(gap, key, Text(gap, value, t));
      ValueSkipped(gap, value, t, space, end);
  }

  /** What follows a message's field. */
  function EntryEnd(gap: string, es: seq<MessageEntry>, t: string): string {
    if es == [] then "}" + t else "," + (gap + EntryText(gap, es[0], EntriesText(gap, es[1..], false, t)))
  }

  lemma {:induction false} MessageGoesOn(gap: string, es: seq<MessageEntry>, t: string)
    requires AllSpace(gap)
    ensures Follows(gap, EntriesText(gap, es, false, t), EntryEnd(gap, es, t))
    ensures forall m :: ParseMessage(EntriesText(gap, es, false, t), m) == ParseMessage(EntryEnd(gap, es, t), m)
  {
    GapSkipped(gap, EntryEnd(gap, es, t));
  }

  lemma {:induction false} MessageCommaRead(gap: string, first: bool, field: string, m: Message)
    requires AllSpace(gap) && field != "" && field[0] == '"'
    ensures
      var f := ReadField(field, m);
      ParseMessage(After(gap, first, field), m) == if f.ok then ParseMessage(f.rest, f.msg) else f
  {
    GapSkipped(gap, field);
    if !first {
      GapSkipped(gap, "," + (gap + field));
      assert ("," + (gap + field))[1..] == gap + field;
    }
  }

  lemma {:induction false} EntriesRead(gap: string, es: seq<MessageEntry>, first: bool, t: string, m: Message)
    requires AllSpace(gap) && EntriesOk(es)
    ensures ParseMessage(EntriesText(gap, es, first, t), m) == Field(true, t, MessageOf(es, m))
    decreases es
  {
    if es == [] {
      GapSkipped(gap, "}" + t);
      assert ("}" + t)[1..] == t;
    } else {
      var rest := EntriesText(gap, es[1..], false, t);
      MessageGoesOn(gap, es[1..], t);
      MessageCommaRead(gap, first, EntryText(gap, es[0], rest), m);
      assert es[0] in es;
      EntryRead(gap, es[0], rest, gap, EntryEnd(gap, es[1..], t), m);
      EntriesRead(gap, es[1..], false, t, Entered(es[0], m));
    }
  }

  // ── Documents ──────────────────────────────────────────────────────

  ghost predicate DocumentOk(ds: seq<seq<MessageEntry>>) {
    forall d :: d in ds ==> EntriesOk(d)
  }

  function ObjectsText(gap: string, ds: seq<seq<MessageEntry>>, first: bool): string {
    if ds == [] then gap + "]"
    else After(gap, first, "{" + EntriesText(gap, ds[0], true, ObjectsText(gap, ds[1..], false)))
  }

  function MessagesOf(ds: seq<seq<MessageEntry>>): seq<Message> {
    if ds == [] then [] else [MessageOf(ds[0], Empty)] + MessagesOf(ds[1..])
  }

  lemma {:induction false} ObjectCommaRead(gap: string, first: bool, s: string, acc: seq<Message>)
    requires AllSpace(gap) && s != "" && s[0] == '{'
    ensures ParseArray(After(gap, first, s), acc) == ParseArray(s, acc)
  {
    GapSkipped(gap, s);
    if !first {
      GapSkipped(gap, "," + (gap + s));
      assert ("," + (gap + s))[1..] == gap + s;
    }
  }

  lemma {:induction false} ObjectsRead(gap: string, ds: seq<seq<MessageEntry>>, first: bool, acc: seq<Message>)
    requires AllSpace(gap) && DocumentOk(ds)
    ensures ParseArray(ObjectsText(gap, ds, first), acc) == Parsed(true, "]", acc + MessagesOf(ds))
    decreases ds
  {
    if ds == [] {
      GapSkipped(gap, "]");
      assert acc + MessagesOf(ds) == acc;
    } else {
      var rest := ObjectsText(gap, ds[1..], false);
      var s := "{" + EntriesText(gap, ds[0], true, rest);
      ObjectCommaRead(gap, first, s, acc);
      assert ds[0] in ds;
      ObjectRead(gap, ds[0], rest, acc);
      ObjectsRead(gap, ds[1..], false, acc + [MessageOf(ds[0], Empty)]);
      assert acc + [MessageOf(ds[0], Empty)] + MessagesOf(ds[1..]) == acc + MessagesOf(ds);
    }
  }

  lemma {:induction false} ObjectRead(gap: string, es: seq<MessageEntry>, rest: string, acc: seq<Message>)
    requires AllSpace(gap) && EntriesOk(es)
    ensures ParseArray("{" + EntriesText(gap, es, true, rest), acc) == ParseArray(rest, acc + [MessageOf(es, Empty)])
  {
    var s := "{" + EntriesText(gap, es, true, rest);
    assert s[1..] == EntriesText(gap, es, true, rest);
    EntriesRead(gap, es, true, rest, Empty);
  }

  /** Every document without a NUL is parsed to what it means: of each object the
      last role and content, an array's texts joined, anything else ignored. */
  lemma {:induction false} DocumentRead(gap: string, ds: seq<seq<MessageEntry>>, prior: seq<Message>)
    requires AllSpace(gap) && DocumentOk(ds) && '\0' !in "[" + ObjectsText(gap, ds, true)
    ensures Parse(Some("[" + ObjectsText(gap, ds, true)), prior) == (true, MessagesOf(ds))
  {
    var s := "[" + ObjectsText(gap, ds, true);
    NoNulCString(s);
    assert s[1..] == ObjectsText(gap, ds, true);
    ObjectsRead(gap, ds, true, []);
    assert [] + MessagesOf(ds) == MessagesOf(ds);
  }

  /** Unknown fields make no difference, wherever they stand. */
  lemma {:induction false} UnknownFieldsAreIgnored(a: seq<MessageEntry>, key: string, value: Value,
                                                   b: seq<MessageEntry>, m: Message)
    ensures MessageOf(a + [Unknown(key, value)] + b, m) == MessageOf(a + b, m)
  {
    var u := [Unknown(key, value)];
    if a == [] {
      assert a + u + b == u + b && (u + b)[1..] == b && a + b == b;
    } else {
      assert (a + u + b)[1..] == a[1..] + u + b && (a + b)[1..] == a[1..] + b;
      UnknownFieldsAreIgnored(a[1..], key, value, b, Entered(a[0], m));
    }
  }

  // ── Escapes that the printer does not use ──────────────────────────

  /** Of an escape sequence the backslash is dropped, whatever follows it; only n,
      r and t stand for another character. So a Unicode escape is read as its
      letter and digits. */
  lemma {:induction false} EscapeRead(c: char, t: string)
    ensures
      var r := ReadBody(t);
      ReadBody("\\" + ([c] + t)) ==
        r.(out := [if c == 'n' then '\n' else if c == 'r' then '\r' else if c == 't' then '\t' else c] + r.out)
  {
    assert ("\\" + ([c] + t))[2..] == t;
  }
}
