/** The compactor's hand-written JSON printer and cursor parser. The escapes are
    a subset of section 7 of RFC 8259. */
module JsonMessages {
  import opened Messages

  // ── Printing ───────────────────────────────────────────────────────

  /** json_escape_char: the two-character escape, empty when none is needed. */
  function EscapeChar(c: char): string {
    match c
    case '"' => "\\\""
    case '\\' => "\\\\"
    case '\n' => "\\n"
    case '\r' => "\\r"
    case '\t' => "\\t"
    case _ => ""
  }

  function Escape(s: string): string {
    if s == "" then ""
    else (if EscapeChar(s[0]) != "" then EscapeChar(s[0]) else [s[0]]) + Escape(s[1..])
  }

  method JsonEscape(input: string) returns (out: string)
    ensures out == Escape(input)
  {
    out := "";
    for i := 0 to |input|
      invariant out + Escape(input[i..]) == Escape(input)
    {
      var esc := EscapeChar(input[i]);
      out := out + if esc != "" then esc else [input[i]];
      assert input[i..][1..] == input[i + 1..];
    }
  }

  /** One message object. */
  function Object(m: Message): string {
    "{\"role\":\"" + m.role + "\",\"content\":\"" + Escape(m.content) + "\"}"
  }

  /** The array from its first or a later element on, closing bracket included. */
  function Items(ms: seq<Message>, first: bool): string {
    if ms == [] then "]"
    else (if first then "" else ",") + Object(ms[0]) + Items(ms[1..], false)
  }

  function Serialize(ms: seq<Message>): string {
    "[" + Items(ms, true)
  }

  method ObjectJson(m: Message) returns (json: string)
    ensures json == Object(m)
  {
    var content := JsonEscape(m.content);
    json := "{\"role\":\"" + m.role + "\",\"content\":\"" + content + "\"}";
  }

  lemma {:induction false} Regroup(a: string, b: string, c: string, d: string)
    ensures a + (b + c + d) == a + b + c + d
  {
  }

  method SerializeMessages(messages: seq<Message>) returns (json: string)
    ensures json == Serialize(messages)
  {
    json := "[";
    for i := 0 to |messages|
      invariant json + Items(messages[i..], i == 0) == Serialize(messages)
    {
      var comma := if i > 0 then "," else "";
      var item := ObjectJson(messages[i]);
      assert messages[i..][1..] == messages[i + 1..];
      Regroup(json, comma, item, Items(messages[i + 1..], false));
      json := json + comma + item;
    }
    json := json + "]";
  }

  // ── Parsing: what each step does to the text still ahead ───────────

  /** Subscripting a std::string at its size reads the terminator. */
  function Head(s: string): char {
    if s == "" then '\0' else s[0]
  }

  function SkipWs(s: string): (r: string)
    ensures |r| <= |s|
    ensures r != "" ==> !IsSpace(r[0])
    ensures s != "" && !IsSpace(s[0]) ==> r == s
  {
    if s != "" && IsSpace(s[0]) then SkipWs(s[1..]) else s
  }

  function UnescapeChar(c: char): char {
    match c
    case 'n' => '\n'
    case 'r' => '\r'
    case 't' => '\t'
    case _ => c
  }

  datatype Read = Read(ok: bool, rest: string, out: string)

  /** From just after an opening quote. */
  function ReadBody(s: string): (r: Read)
    ensures |r.rest| <= |s| && (r.ok ==> |r.rest| + |r.out| < |s|)
  {
    if s == "" then Read(false, s, "")
    else if s[0] == '"' then Read(true, s[1..], "")
    else if s[0] == '\\' && |s| > 1 then
      var r := ReadBody(s[2..]);
      r.(out := [UnescapeChar(s[1])] + r.out)
    else
      var r := ReadBody(s[1..]);
      r.(out := [s[0]] + r.out)
  }

  /** One character of a string taken off the front of `s`. */
  lemma {:induction false} ReadBodyStep(s: string, t: string, c: char, out: string)
    requires s != "" && s[0] != '"'
    requires if s[0] == '\\' && |s| > 1 then t == s[2..] && c == UnescapeChar(s[1]) else t == s[1..] && c == s[0]
    ensures
      var r, r' := ReadBody(s), ReadBody(t);
      r.ok == r'.ok && r.rest == r'.rest && out + r.out == (out + [c]) + r'.out
  {
    Associate(out, [c], ReadBody(t).out);
  }

  lemma {:induction false} Associate(a: string, b: string, c: string)
    ensures a + (b + c) == (a + b) + c
  {
  }

  /** json_read_string: `prev` is what the output string held before. */
  function ReadString(s: string, prev: string): (r: Read)
    ensures |r.rest| <= |s| && (r.ok ==> |r.rest| < |s|)
    ensures s != "" && s[0] == '"' ==> |r.rest| < |s|
  {
    var t := SkipWs(s);
    if Head(t) != '"' || t == "" then Read(false, t, prev) else ReadBody(t[1..])
  }

  /** The rest of a composite whose bracket opened `depth` levels ago. */
  function SkipComposite(s: string, open: char, close: char, depth: nat): (r: string)
    ensures |r| <= |s|
    decreases |s|
  {
    if s == "" || depth == 0 then s
    else if s[0] == '"' then SkipComposite(ReadString(s, "").rest, open, close, depth)
    else if s[0] == open then SkipComposite(s[1..], open, close, depth + 1)
    else if s[0] == close then SkipComposite(s[1..], open, close, depth - 1)
    else SkipComposite(s[1..], open, close, depth)
  }

  predicate EndsPrimitive(c: char) {
    c == ',' || c == '}' || c == ']'
  }

  function SkipPrimitive(s: string): (r: string)
    ensures |r| <= |s|
  {
    if s == "" || EndsPrimitive(s[0]) then s else SkipPrimitive(s[1..])
  }

  function SkipValue(s: string): (r: string)
    ensures |r| <= |s|
  {
    var t := SkipWs(s);
    if t == "" then t
    else if t[0] == '"' then ReadString(t, "").rest
    else if t[0] == '[' then SkipComposite(t[1..], '[', ']', 1)
    else if t[0] == '{' then SkipComposite(t[1..], '{', '}', 1)
    else SkipPrimitive(t)
  }

  datatype Part = Part(ok: bool, rest: string, kind: string, text: string)

  /** One field of a content part; a bad value is not an error there. */
  function ReadPartField(s: string, kind: string, text: string): (r: Part)
    ensures |r.rest| <= |s| && (r.ok ==> |r.rest| < |s|)
  {
    var key := ReadString(s, "");
    if !key.ok then Part(false, key.rest, kind, text)
    else
      var t := SkipWs(key.rest);
      if Head(t) != ':' || t == "" then Part(false, t, kind, text)
      else if key.out == "type" then
        var v := ReadString(t[1..], kind);
        Part(true, v.rest, v.out, text)
      else if key.out == "text" then
        var v := ReadString(t[1..], text);
        Part(true, v.rest, kind, v.out)
      else Part(true, SkipValue(t[1..]), kind, text)
  }

  function ParsePart(s: string, kind: string, text: string): (r: Part)
    ensures |r.rest| <= |s|
    decreases |s|
  {
    if s == "" then Part(true, s, kind, text)
    else if s[0] == '}' then Part(true, s[1..], kind, text)
    else
      var t := SkipWs(s);
      if t != "" && t[0] == ',' then ParsePart(t[1..], kind, text)
      else
        var f := ReadPartField(t, kind, text);
        if !f.ok then f else ParsePart(f.rest, f.kind, f.text)
  }

  function AppendText(kind: string, text: string, acc: string): string {
    if kind != "text" || text == "" then acc
    else (if acc == "" then "" else acc + " ") + text
  }

  function SkipToElement(s: string): (r: string)
    ensures |r| <= |s|
    decreases |s|
  {
    if s == "" then s
    else
      var t := SkipWs(s);
      if t != "" && t[0] == ',' then SkipToElement(t[1..]) else t
  }

  /** One content part, from its opening brace, and on to the next element. */
  function ReadPart(s: string, acc: string): (r: Read)
    requires s != ""
    ensures |r.rest| < |s|
  {
    var p := ParsePart(s[1..], "", "");
    if !p.ok then Read(false, p.rest, acc) else Read(true, SkipToElement(p.rest), AppendText(p.kind, p.text, acc))
  }

  /** Content parts from the next element on. */
  function ReadParts(s: string, acc: string): (r: Read)
    ensures |r.rest| <= |s| && (r.ok ==> |r.rest| < |s|)
    decreases |s|
  {
    if Head(s) == '{' && s != "" then
      var p := ReadPart(s, acc);
      if !p.ok then p else ReadParts(p.rest, p.out)
    else if Head(s) == ']' && s != "" then Read(true, s[1..], acc)
    else Read(false, s, acc)
  }

  datatype Field = Field(ok: bool, rest: string, msg: Message)

  function ReadContent(s: string, msg: Message): (r: Field)
    ensures |r.rest| <= |s|
  {
    var t := SkipWs(s);
    var v := if t != "" && t[0] == '[' then ReadParts(SkipToElement(t[1..]), "")
             else ReadString(t, msg.content);
    Field(v.ok, v.rest, msg.(content := v.out))
  }

  function ReadField(s: string, msg: Message): (r: Field)
    ensures |r.rest| <= |s| && (r.ok ==> |r.rest| < |s|)
  {
    var key := ReadString(s, "");
    var t := SkipWs(key.rest);
    if !key.ok || Head(t) != ':' || t == "" then Field(false, t, msg)
    else if key.out == "role" then
      var v := ReadString(t[1..], msg.role);
      Field(v.ok, v.rest, msg.(role := v.out))
    else if key.out == "content" then ReadContent(t[1..], msg)
    else Field(true, SkipValue(t[1..]), msg)
  }

  /** json_parse_message, from just after the opening brace. */
  function ParseMessage(s: string, msg: Message): (r: Field)
    ensures |r.rest| <= |s| && (r.ok ==> |r.rest| < |s|)
    decreases |s|
  {
    if s == "" then Field(false, s, msg)
    else
      var t := SkipWs(s);
      if t != "" && t[0] == '}' then Field(true, t[1..], msg)
      else if t != "" && t[0] == ',' then ParseMessage(t[1..], msg)
      else
        var f := ReadField(t, msg);
        if !f.ok then f else ParseMessage(f.rest, f.msg)
  }

  datatype Parsed = Parsed(ok: bool, rest: string, messages: seq<Message>)

  const Empty := Message("", "", map[])

  function ParseArray(s: string, ms: seq<Message>): (r: Parsed)
    ensures |r.rest| <= |s|
    decreases |s|
  {
    if s == "" then Parsed(true, s, ms)
    else
      var t := SkipWs(s);
      if t != "" && t[0] == ']' then Parsed(true, t, ms)
      else if t != "" && t[0] == ',' then ParseArray(t[1..], ms)
      else if t == "" || t[0] != '{' then Parsed(false, t, ms)
      else
        var m := ParseMessage(t[1..], Empty);
        if !m.ok then Parsed(false, m.rest, ms) else ParseArray(m.rest, ms + [m.msg])
  }

  /** A `const char*` ends at its first NUL. */
  function CString(s: string): string {
    if s == "" || s[0] == '\0' then "" else [s[0]] + CString(s[1..])
  }

  /** parse_messages: success, and what the output vector then holds. */
  function Parse(json: Option<string>, prior: seq<Message>): (bool, seq<Message>) {
    if json.None? || Head(CString(json.value)) != '[' || CString(json.value) == "" then (false, prior)
    else
      var r := ParseArray(CString(json.value)[1..], []);
      (r.ok, r.messages)
  }

  // ── The cursor ─────────────────────────────────────────────────────

  /** Every method leaves `pos` within the text and the text ahead as the
      function of the same step says. */
  class JsonCursor {
    const data: string
    var pos: nat

    constructor (data: string, pos: nat)
      ensures this.data == data && this.pos == pos
    {
      this.data := data;
      this.pos := pos;
    }

    ghost predicate Valid()
      reads this
    {
      pos <= |data|
    }

    ghost function Ahead(): string
      reads this
      requires Valid()
    {
      data[pos..]
    }

    /** data[pos], the terminator at the end. */
    function Peek(): (c: char)
      reads this
      requires Valid()
      ensures c == Head(Ahead())
    {
      if pos < |data| then data[pos] else '\0'
    }

    method Advance()
      requires Valid() && pos < |data|
      modifies this
      ensures Valid() && pos == old(pos) + 1 && Ahead() == old(Ahead())[1..]
    {
      assert data[pos..][1..] == data[pos + 1..];
      pos := pos + 1;
    }

    method SkipSpace()
      requires Valid()
      modifies this
      ensures Valid() && Ahead() == SkipWs(old(Ahead()))
    {
      while pos < |data| && IsSpace(data[pos])
        invariant Valid()
        invariant SkipWs(Ahead()) == SkipWs(old(Ahead()))
      {
        Advance();
      }
    }

    method TakeString(prev: string) returns (ok: bool, out: string)
      requires Valid()
      modifies this
      ensures Valid()
      ensures ReadString(old(Ahead()), prev) == Read(ok, Ahead(), out)
    {
      out := prev;
      SkipSpace();
      if pos >= |data| || data[pos] != '"' { return false, out; }
      Advance();
      ok, out := TakeBody();
    }

    method TakeChar() returns (c: char)
      requires Valid() && pos < |data|
      modifies this
      ensures Valid() && pos > old(pos)
      ensures
        var s := old(Ahead());
        if s[0] == '\\' && |s| > 1 then Ahead() == s[2..] && c == UnescapeChar(s[1]) else Ahead() == s[1..] && c == s[0]
    {
      c := data[pos];
      if c == '\\' && pos + 1 < |data| {
        c := UnescapeChar(data[pos + 1]);
        pos := pos + 2;
      } else {
        pos := pos + 1;
      }
    }

    /** The characters of a string, from just after its opening quote. */
    method TakeBody() returns (ok: bool, out: string)
      requires Valid()
      modifies this
      ensures Valid()
      ensures ReadBody(old(Ahead())) == Read(ok, Ahead(), out)
    {
      out := "";
      ghost var body := ReadBody(Ahead());
      while pos < |data| && data[pos] != '"'
        invariant Valid()
        invariant var r := ReadBody(Ahead()); body.ok == r.ok && body.rest == r.rest && body.out == out + r.out
        decreases |data| - pos
      {
        ghost var here := Ahead();
        var c := TakeChar();
        ReadBodyStep(here, Ahead(), c, out);
        out := out + [c];
      }
      if pos >= |data| { return false, out; }
      Advance();
      ok := true;
    }

    method PassComposite()
      requires Valid() && pos < |data| && (data[pos] == '[' || data[pos] == '{')
      modifies this
      ensures Valid()
      ensures Ahead() == SkipComposite(old(Ahead())[1..], old(Peek()), if old(Peek()) == '[' then ']' else '}', 1)
    {
      var open := data[pos];
      var close := if open == '[' then ']' else '}';
      var depth: nat := 1;
      Advance();
      ghost var goal := SkipComposite(Ahead(), open, close, 1);
      while pos < |data| && depth > 0
        invariant Valid()
        invariant SkipComposite(Ahead(), open, close, depth) == goal
        decreases |data| - pos
      {
        var ch := data[pos];
        if ch == '"' {
          var _, _ := TakeString("");
          continue;
        }
        assert data[pos..][1..] == data[pos + 1..];
        if ch == open { depth := depth + 1; } else if ch == close { depth := depth - 1; }
        pos := pos + 1;
      }
    }

    method PassValue()
      requires Valid()
      modifies this
      ensures Valid() && Ahead() == SkipValue(old(Ahead()))
    {
      SkipSpace();
      if pos >= |data| { return; }
      if data[pos] == '"' {
        var _, _ := TakeString("");
        return;
      }
      if data[pos] == '[' || data[pos] == '{' {
        PassComposite();
        return;
      }
      ghost var goal := SkipPrimitive(Ahead());
      while pos < |data| && data[pos] != ',' && data[pos] != '}' && data[pos] != ']'
        invariant Valid() && SkipPrimitive(Ahead()) == goal
      {
        Advance();
      }
    }

    method TakePartField(kind: string, text: string) returns (ok: bool, kind': string, text': string)
      requires Valid()
      modifies this
      ensures Valid()
      ensures ReadPartField(old(Ahead()), kind, text) == Part(ok, Ahead(), kind', text')
    {
      kind', text' := kind, text;
      var key;
      ok, key := TakeString("");
      if !ok { return; }
      SkipSpace();
      if Peek() != ':' || pos >= |data| { return false, kind', text'; }
      Advance();
      var valueOk;
      if key == "type" {
        valueOk, kind' := TakeString(kind');
      } else if key == "text" {
        valueOk, text' := TakeString(text');
      } else {
        PassValue();
      }
    }

    method TakePart() returns (ok: bool, kind: string, text: string)
      requires Valid()
      modifies this
      ensures Valid()
      ensures ParsePart(old(Ahead()), "", "") == Part(ok, Ahead(), kind, text)
    {
      kind, text := "", "";
      while pos < |data| && data[pos] != '}'
        invariant Valid()
        invariant ParsePart(Ahead(), kind, text) == ParsePart(old(Ahead()), "", "")
        decreases |data| - pos
      {
        SkipSpace();
        if pos < |data| && data[pos] == ',' {
          Advance();
          continue;
        }
        ok, kind, text := TakePartField(kind, text);
        if !ok { return; }
      }
      if pos < |data| {
        Advance();
      }
      ok := true;
    }

    method ToElement() returns (ch: char)
      requires Valid()
      modifies this
      ensures Valid() && Ahead() == SkipToElement(old(Ahead())) && ch == Head(Ahead())
    {
      while pos < |data|
        invariant Valid() && SkipToElement(Ahead()) == SkipToElement(old(Ahead()))
        decreases |data| - pos
      {
        SkipSpace();
        ch := Peek();
        if ch != ',' { return; }
        Advance();
      }
      ch := '\0';
    }

    method TakeTextPart(acc: string) returns (ok: bool, text: string, ch: char)
      requires Valid() && pos < |data|
      modifies this
      ensures Valid() && pos > old(pos)
      ensures ReadPart(old(Ahead()), acc) == Read(ok, Ahead(), text)
      ensures ok ==> ch == Head(Ahead())
    {
      Advance();
      var kind, part;
      ok, kind, part := TakePart();
      if !ok { return false, acc, '\0'; }
      text := AppendText(kind, part, acc);
      ch := ToElement();
    }

    /** json_extract_text_from_array. */
    method TakeParts() returns (ok: bool, text: string)
      requires Valid() && pos < |data| && data[pos] == '['
      modifies this
      ensures Valid()
      ensures ReadParts(SkipToElement(old(Ahead())[1..]), "") == Read(ok, Ahead(), text)
    {
      Advance();
      text := "";
      ghost var goal := ReadParts(SkipToElement(Ahead()), "");
      var ch := ToElement();
      while ch == '{'
        invariant Valid() && ch == Head(Ahead())
        invariant ReadParts(Ahead(), text) == goal
        decreases |data| - pos
      {
        ok, text, ch := TakeTextPart(text);
        if !ok { return; }
      }
      ok := ch == ']';
      if ok { Advance(); }
    }

    method TakeField(msg: Message) returns (ok: bool, msg': Message)
      requires Valid()
      modifies this
      ensures Valid()
      ensures ReadField(old(Ahead()), msg) == Field(ok, Ahead(), msg')
    {
      msg' := msg;
      var key;
      ok, key := TakeString("");
      SkipSpace();
      if !ok || Peek() != ':' || pos >= |data| { return false, msg'; }
      Advance();
      if key == "role" {
        var role;
        ok, role := TakeString(msg.role);
        msg' := msg.(role := role);
      } else if key == "content" {
        var content;
        SkipSpace();
        if pos < |data| && data[pos] == '[' {
          ok, content := TakeParts();
        } else {
          ok, content := TakeString(msg.content);
        }
        msg' := msg.(content := content);
      } else {
        PassValue();
      }
    }

    method TakeMessage() returns (ok: bool, msg: Message)
      requires Valid()
      modifies this
      ensures Valid()
      ensures ParseMessage(old(Ahead()), Empty) == Field(ok, Ahead(), msg)
    {
      msg := Empty;
      while pos < |data|
        invariant Valid()
        invariant ParseMessage(Ahead(), msg) == ParseMessage(old(Ahead()), Empty)
        decreases |data| - pos
      {
        SkipSpace();
        if pos < |data| && data[pos] == '}' {
          Advance();
          return true, msg;
        }
        if pos < |data| && data[pos] == ',' {
          Advance();
          continue;
        }
        ok, msg := TakeField(msg);
        if !ok { return; }
      }
      ok := false;
    }

    method TakeArray() returns (ok: bool, messages: seq<Message>)
      requires Valid()
      modifies this
      ensures Valid()
      ensures ParseArray(old(Ahead()), []) == Parsed(ok, Ahead(), messages)
    {
      messages := [];
      while pos < |data|
        invariant Valid()
        invariant ParseArray(Ahead(), messages) == ParseArray(old(Ahead()), [])
        decreases |data| - pos
      {
        SkipSpace();
        if pos < |data| && data[pos] == ']' { return true, messages; }
        if pos < |data| && data[pos] == ',' {
          Advance();
          continue;
        }
        if Peek() != '{' || pos >= |data| { return false, messages; }
        Advance();
        var msg;
        ok, msg := TakeMessage();
        if !ok { return; }
        messages := messages + [msg];
      }
      ok := true;
    }
  }

  /** The parser ends on every text, within its bounds, with the result the
      specification gives. */
  method ParseMessages(json: Option<string>, prior: seq<Message>) returns (ok: bool, messages: seq<Message>)
    ensures (ok, messages) == Parse(json, prior)
  {
    if json.None? { return false, prior; }
    var input := CString(json.value);
    if input == "" || input[0] != '[' { return false, prior; }
    var cursor := new JsonCursor(input, 1);
    ok, messages := cursor.TakeArray();
  }

  // ── Round trip ─────────────────────────────────────────────────────

  predicate Plain(s: string) {
    '"' !in s && '\\' !in s
  }

  function EscapeOne(c: char): string {
    if EscapeChar(c) != "" then EscapeChar(c) else [c]
  }

  lemma {:induction false} ReadEscapedChar(c: char, t: string)
    requires t != ""
    ensures var r := ReadBody(t); ReadBody(EscapeOne(c) + t) == r.(out := [c] + r.out)
  {
    var one := EscapeOne(c);
    var s := one + t;
    assert s[|one|..] == t;
    if EscapeChar(c) != "" {
      assert |one| == 2 && s[0] == '\\' && UnescapeChar(s[1]) == c;
    }
  }

  lemma {:induction false} ReadBodyUndoesEscape(c: string, t: string)
    ensures ReadBody(Escape(c) + ("\"" + t)) == Read(true, t, c)
  {
    var q := "\"" + t;
    if c == "" {
      assert Escape(c) + q == q;
      assert q[1..] == t;
    } else {
      Associate(EscapeOne(c[0]), Escape(c[1..]), q);
      ReadEscapedChar(c[0], Escape(c[1..]) + q);
      ReadBodyUndoesEscape(c[1..], t);
      assert c == [c[0]] + c[1..];
    }
  }

  /** Without a single escape nothing is shortened, so the text was read
      verbatim up to the first quote. */
  lemma {:induction false} VerbatimRead(s: string)
    requires ReadBody(s).ok && |ReadBody(s).rest| + |ReadBody(s).out| + 1 == |s|
    ensures Plain(ReadBody(s).out)
    ensures s == ReadBody(s).out + ("\"" + ReadBody(s).rest)
  {
    if s[0] != '"' {
      VerbatimRead(s[1..]);
    }
  }

  lemma {:induction false} PlainRead(r: string, t: string)
    requires Plain(r)
    ensures ReadBody(r + ("\"" + t)) == Read(true, t, r)
  {
    var s := r + ("\"" + t);
    if r == "" {
      assert s[1..] == t;
    } else {
      assert s[1..] == r[1..] + ("\"" + t);
      PlainRead(r[1..], t);
    }
  }

  /** Printed without escaping, as roles are, a string is read back - it and
      nothing more - if and only if it has no quote and no backslash. */
  lemma {:induction false} UnescapedStringReadBack(r: string, t: string)
    ensures ReadBody(r + ("\"" + t)) == Read(true, t, r) <==> Plain(r)
  {
    var s := r + ("\"" + t);
    if Plain(r) {
      PlainRead(r, t);
    } else if ReadBody(s) == Read(true, t, r) {
      VerbatimRead(s);
    }
  }

  /** A key, its colon and the quote opening its value, before `t`. */
  function Keyed(key: string, t: string): string {
    "\"" + (key + ("\"" + (":" + ("\"" + t))))
  }

  /** An object as the parser meets it: brace, role, content, brace. */
  function Unrolled(m: Message, t: string): string {
    "{" + Keyed("role", m.role + ("\"" + ("," + Keyed("content", Escape(m.content) + ("\"" + ("}" + t))))))
  }

  lemma {:induction false} KeyedConcat(key: string, a: string, t: string)
    ensures Keyed(key, a) + t == Keyed(key, a + t)
  {
    assert Keyed(key, a) == "\"" + key + "\"" + ":" + "\"" + a;
    assert Keyed(key, a + t) == "\"" + key + "\"" + ":" + "\"" + (a + t);
  }

  lemma {:induction false} ObjectIsUnrolled(m: Message, t: string)
    ensures Object(m) + t == Unrolled(m, t)
  {
    assert "{\"role\":\"" == "{" + Keyed("role", "");
    assert "\",\"content\":\"" == "\"" + ("," + Keyed("content", ""));
    var tail := "\"" + ("}" + t);
    assert "\"}" + t == tail;
    var e := Escape(m.content);
    KeyedConcat("content", "", e + tail);
    KeyedConcat("role", "", m.role + ("\"" + ("," + Keyed("content", e + tail))));
    var mid := "\",\"content\":\"";
    assert mid + (e + tail) == "\"" + ("," + Keyed("content", e + tail));
    RegroupFour("{\"role\":\"", m.role, mid, e, "\"}", t);
  }

  lemma {:induction false} RegroupFour(a: string, b: string, c: string, d: string, e: string, t: string)
    ensures a + b + c + d + e + t == a + (b + (c + (d + (e + t))))
  {
  }

  lemma {:induction false} KeyRead(key: string, t: string)
    requires Plain(key)
    ensures ReadString(Keyed(key, t), "") == Read(true, ":" + ("\"" + t), key)
  {
    var s := Keyed(key, t);
    assert s[1..] == key + ("\"" + (":" + ("\"" + t)));
    PlainRead(key, ":" + ("\"" + t));
  }

  lemma {:induction false} RoleFieldRead(r: string, t: string, msg: Message)
    requires Plain(r)
    ensures ReadField(Keyed("role", r + ("\"" + t)), msg) == Field(true, t, msg.(role := r))
  {
    var value := r + ("\"" + t);
    KeyRead("role", value);
    assert (":" + ("\"" + value))[1..] == "\"" + value;
    assert ("\"" + value)[1..] == value;
    PlainRead(r, t);
  }

  lemma {:induction false} ContentFieldRead(c: string, t: string, msg: Message)
    ensures ReadField(Keyed("content", Escape(c) + ("\"" + t)), msg) == Field(true, t, msg.(content := c))
  {
    var value := Escape(c) + ("\"" + t);
    KeyRead("content", value);
    assert (":" + ("\"" + value))[1..] == "\"" + value;
    assert ("\"" + value)[1..] == value;
    ReadBodyUndoesEscape(c, t);
  }

  lemma {:induction false} MessageRead(m: Message, t: string)
    requires Plain(m.role)
    ensures ParseMessage(Unrolled(m, t)[1..], Empty) == Field(true, t, Message(m.role, m.content, map[]))
  {
    var end := "}" + t;
    var content := Keyed("content", Escape(m.content) + ("\"" + end));
    var afterRole := "," + content;
    var s := Keyed("role", m.role + ("\"" + afterRole));
    assert Unrolled(m, t)[1..] == s;
    RoleFieldRead(m.role, afterRole, Empty);
    var withRole := Empty.(role := m.role);
    assert ParseMessage(s, Empty) == ParseMessage(afterRole, withRole);
    assert afterRole[1..] == content;
    assert ParseMessage(afterRole, withRole) == ParseMessage(content, withRole);
    ContentFieldRead(m.content, end, withRole);
    assert end[1..] == t;
  }

  function Bare(ms: seq<Message>): seq<Message> {
    if ms == [] then [] else [Message(ms[0].role, ms[0].content, map[])] + Bare(ms[1..])
  }

  lemma {:induction false} ElementRead(m: Message, t: string, acc: seq<Message>)
    requires Plain(m.role)
    ensures ParseArray(Object(m) + t, acc) == ParseArray(t, acc + [Message(m.role, m.content, map[])])
  {
    ObjectIsUnrolled(m, t);
    assert Unrolled(m, t)[0] == '{';
    MessageRead(m, t);
  }

  function Separator(first: bool): string {
    if first then "" else ","
  }

  lemma {:induction false} ItemsSplit(ms: seq<Message>, first: bool)
    requires ms != []
    ensures Items(ms, first) == Separator(first) + (Object(ms[0]) + Items(ms[1..], false))
  {
    Regroup("", Separator(first), Object(ms[0]), Items(ms[1..], false));
  }

  /** A separating comma before an element is skipped. */
  lemma {:induction false} SeparatorRead(first: bool, s: string, acc: seq<Message>)
    requires s != ""
    ensures ParseArray(Separator(first) + s, acc) == ParseArray(s, acc)
  {
    if first {
      assert "" + s == s;
    } else {
      assert ("," + s)[1..] == s;
    }
  }

  lemma {:induction false} ArrayRead(ms: seq<Message>, first: bool, acc: seq<Message>)
    requires forall m :: m in ms ==> Plain(m.role)
    ensures ParseArray(Items(ms, first), acc) == Parsed(true, "]", acc + Bare(ms))
    decreases ms
  {
    if ms == [] {
      assert acc + Bare(ms) == acc;
    } else {
      var t := Items(ms[1..], false);
      ItemsSplit(ms, first);
      SeparatorRead(first, Object(ms[0]) + t, acc);
      ElementRead(ms[0], t, acc);
      var m := Message(ms[0].role, ms[0].content, map[]);
      ArrayRead(ms[1..], false, acc + [m]);
      assert acc + [m] + Bare(ms[1..]) == acc + Bare(ms);
    }
  }

  lemma {:induction false} NoNulCString(s: string)
    requires '\0' !in s
    ensures CString(s) == s
  {
    if s != "" { NoNulCString(s[1..]); }
  }

  lemma {:induction false} EscapeHasNoNul(s: string)
    requires '\0' !in s
    ensures '\0' !in Escape(s)
  {
    if s != "" { EscapeHasNoNul(s[1..]); }
  }

  predicate NulFree(m: Message) {
    '\0' !in m.role && '\0' !in m.content
  }

  lemma {:induction false} ItemsHaveNoNul(ms: seq<Message>, first: bool)
    requires forall m :: m in ms ==> NulFree(m)
    ensures '\0' !in Items(ms, first)
    decreases ms
  {
    if ms != [] {
      assert ms[0] in ms;
      EscapeHasNoNul(ms[0].content);
      assert '\0' !in Object(ms[0]);
      ItemsHaveNoNul(ms[1..], false);
    }
  }

  /** Parsing undoes printing on role and content: every list whose messages
      hold no NUL and whose roles hold no quote and no backslash. */
  lemma {:induction false} ParseUndoesSerialize(ms: seq<Message>, prior: seq<Message>)
    requires forall m :: m in ms ==> NulFree(m) && Plain(m.role)
    ensures Parse(Some(Serialize(ms)), prior) == (true, Bare(ms))
  {
    var s := Serialize(ms);
    ItemsHaveNoNul(ms, true);
    NoNulCString(s);
    assert s[1..] == Items(ms, true);
    ArrayRead(ms, true, []);
    assert [] + Bare(ms) == Bare(ms);
  }

  // ── With a NUL the text ends early ─────────────────────────────────

  lemma {:induction false} CStringConcat(a: string, b: string)
    requires '\0' !in a
    ensures CString(a + b) == a + CString(b)
  {
    if a == "" {
      assert a + b == b;
    } else {
      assert (a + b)[1..] == a[1..] + b;
      CStringConcat(a[1..], b);
    }
  }

  lemma {:induction false} CStringStops(a: string, b: string)
    requires '\0' in a
    ensures CString(a + b) == CString(a)
  {
    assert (a + b)[1..] == a[1..] + b;
    if a[0] != '\0' { CStringStops(a[1..], b); }
  }

  lemma {:induction false} CStringPlain(s: string)
    requires Plain(s)
    ensures Plain(CString(s))
  {
    if s != "" && s[0] != '\0' { CStringPlain(s[1..]); }
  }

  lemma {:induction false} CStringOfEscape(c: string)
    ensures CString(Escape(c)) == Escape(CString(c))
  {
    if c != "" {
      var one, rest := EscapeOne(c[0]), Escape(c[1..]);
      assert Escape(c) == one + rest;
      if c[0] == '\0' {
        assert one == [c[0]];
      } else {
        assert '\0' !in one;
        CStringConcat(one, rest);
        CStringOfEscape(c[1..]);
        assert ([c[0]] + CString(c[1..]))[1..] == CString(c[1..]);
      }
    }
  }

  /** A string without its closing quote is refused. */
  lemma {:induction false} UnclosedPlain(r: string)
    requires Plain(r)
    ensures !ReadBody(r).ok
  {
    if r != "" { UnclosedPlain(r[1..]); }
  }

  lemma {:induction false} UnclosedEscaped(c: string)
    ensures !ReadBody(Escape(c)).ok
  {
    if c != "" {
      UnclosedEscaped(c[1..]);
      if c[1..] == "" {
        assert Escape(c) == EscapeOne(c[0]) && EscapeOne(c[0])[|EscapeOne(c[0])|..] == "";
      } else {
        assert Escape(c) == EscapeOne(c[0]) + Escape(c[1..]);
        ReadEscapedChar(c[0], Escape(c[1..]));
      }
    }
  }

  lemma {:induction false} UnclosedRole(r: string, msg: Message)
    requires Plain(r)
    ensures !ReadField(Keyed("role", r), msg).ok
  {
    KeyRead("role", r);
    assert (":" + ("\"" + r))[1..] == "\"" + r;
    assert ("\"" + r)[1..] == r;
    UnclosedPlain(r);
  }

  lemma {:induction false} UnclosedContent(c: string, msg: Message)
    ensures !ReadField(Keyed("content", Escape(c)), msg).ok
  {
    var value := Escape(c);
    KeyRead("content", value);
    assert (":" + ("\"" + value))[1..] == "\"" + value;
    assert ("\"" + value)[1..] == value;
    UnclosedEscaped(c);
  }

  /** What is left of an object with a NUL in it. */
  function Remnant(m: Message): string {
    if '\0' in m.role then "{" + Keyed("role", CString(m.role))
    else "{" + Keyed("role", m.role + ("\"" + ("," + Keyed("content", Escape(CString(m.content))))))
  }

  lemma {:induction false} CStringOfKeyed(key: string, t: string)
    requires '\0' !in key
    ensures CString(Keyed(key, t)) == Keyed(key, CString(t))
  {
    KeyedConcat(key, "", t);
    KeyedConcat(key, "", CString(t));
    assert "" + t == t && "" + CString(t) == CString(t);
    CStringConcat(Keyed(key, ""), t);
  }

  lemma {:induction false} CStringOfObject(m: Message, t: string)
    requires !NulFree(m)
    ensures CString(Object(m) + t) == Remnant(m)
  {
    ObjectIsUnrolled(m, t);
    var tail := "\"" + ("}" + t);
    var content := Keyed("content", Escape(m.content) + tail);
    var value := m.role + ("\"" + ("," + content));
    CStringConcat("{", Keyed("role", value));
    CStringOfKeyed("role", value);
    if '\0' in m.role {
      CStringStops(m.role, "\"" + ("," + content));
    } else {
      CStringConcat(m.role, "\"" + ("," + content));
      CStringConcat("\"", "," + content);
      CStringConcat(",", content);
      CStringOfKeyed("content", Escape(m.content) + tail);
      NulIsEscapedAsItself(m.content);
      CStringStops(Escape(m.content), tail);
      CStringOfEscape(m.content);
    }
  }

  lemma {:induction false} NulIsEscapedAsItself(c: string)
    requires '\0' in c
    ensures '\0' in Escape(c)
  {
    assert Escape(c) == EscapeOne(c[0]) + Escape(c[1..]);
    if c[0] == '\0' { assert EscapeOne(c[0])[0] == '\0'; } else { NulIsEscapedAsItself(c[1..]); }
  }

  lemma {:induction false} RemnantFails(m: Message, acc: seq<Message>)
    requires !NulFree(m) && Plain(m.role)
    ensures !ParseArray(Remnant(m), acc).ok
  {
    var s := Remnant(m)[1..];
    assert Remnant(m)[0] == '{';
    if '\0' in m.role {
      CStringPlain(m.role);
      assert s == Keyed("role", CString(m.role));
      UnclosedRole(CString(m.role), Empty);
    } else {
      var content := Keyed("content", Escape(CString(m.content)));
      var afterRole := "," + content;
      assert s == Keyed("role", m.role + ("\"" + afterRole));
      RoleFieldRead(m.role, afterRole, Empty);
      var withRole := Empty.(role := m.role);
      assert ParseMessage(s, Empty) == ParseMessage(afterRole, withRole);
      assert afterRole[1..] == content;
      assert ParseMessage(afterRole, withRole) == ParseMessage(content, withRole);
      UnclosedContent(CString(m.content), withRole);
    }
  }

  lemma {:induction false} CutItemsFail(ms: seq<Message>, first: bool, acc: seq<Message>)
    requires forall m :: m in ms ==> Plain(m.role)
    requires exists m :: m in ms && !NulFree(m)
    ensures !ParseArray(CString(Items(ms, first)), acc).ok
    decreases ms
  {
    var m, t := ms[0], Items(ms[1..], false);
    var s := Object(m) + t;
    assert m in ms;
    ItemsSplit(ms, first);
    CStringConcat(Separator(first), s);
    CutElement(m, t);
    SeparatorRead(first, CString(s), acc);
    if NulFree(m) {
      ElementRead(m, CString(t), acc);
      CutItemsFail(ms[1..], false, acc + [Message(m.role, m.content, map[])]);
    } else {
      RemnantFails(m, acc);
    }
  }

  lemma {:induction false} CutElement(m: Message, t: string)
    ensures CString(Object(m) + t) == if NulFree(m) then Object(m) + CString(t) else Remnant(m)
    ensures CString(Object(m) + t) != ""
  {
    if NulFree(m) {
      ObjectHasNoNul(m);
      CStringConcat(Object(m), t);
    } else {
      CStringOfObject(m, t);
    }
  }

  lemma {:induction false} ObjectHasNoNul(m: Message)
    requires NulFree(m)
    ensures '\0' !in Object(m) && Object(m) != ""
  {
    EscapeHasNoNul(m.content);
  }

  /** With roles that need no escaping, a printed list is either read back, every
      role and content of it, or refused, and refused exactly when it holds a NUL. */
  lemma {:induction false} RoundTripExactly(ms: seq<Message>, prior: seq<Message>)
    requires forall m :: m in ms ==> Plain(m.role)
    ensures Parse(Some(Serialize(ms)), prior) == (true, Bare(ms)) <==> forall m :: m in ms ==> NulFree(m)
    ensures Parse(Some(Serialize(ms)), prior).0 <==> forall m :: m in ms ==> NulFree(m)
  {
    if forall m :: m in ms ==> NulFree(m) {
      ParseUndoesSerialize(ms, prior);
    } else {
      var s := Serialize(ms);
      assert s == "[" + Items(ms, true);
      CStringConcat("[", Items(ms, true));
      assert ("[" + CString(Items(ms, true)))[1..] == CString(Items(ms, true));
      CutItemsFail(ms, true, []);
    }
  }
}
