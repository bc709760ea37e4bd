/** The exact condition for the JSON round trip: roles are printed without
    escaping, and no list with a role that needed it is read back. */
module JsonRoles {
  import opened Messages
  import opened JsonMessages

  // ── What is read is part of the text ───────────────────────────────

  predicate IsSuffix(t: string, s: string) {
    |t| <= |s| && t == s[|s| - |t|..]
  }

  lemma {:induction false} SuffixChain(a: string, b: string, c: string)
    requires IsSuffix(a, b) && IsSuffix(b, c)
    ensures IsSuffix(a, c)
  {
  }

  /** Text without a NUL, and a suffix of it. */
  ghost predicate Within(t: string, s: string) {
    IsSuffix(t, s) && ('\0' !in s ==> '\0' !in t)
  }

  lemma {:induction false} SuffixIsWithin(t: string, s: string)
    requires IsSuffix(t, s)
    ensures Within(t, s)
  {
  }

  lemma {:induction false} TailWithin(s: string, n: nat)
    requires n <= |s|
    ensures Within(s[n..], s)
  {
    SuffixIsWithin(s[n..], s);
  }

  lemma {:induction false} WithinChain(a: string, b: string, c: string)
    requires Within(a, b) && Within(b, c)
    ensures Within(a, c)
  {
    SuffixChain(a, b, c);
  }

  /** Whitespace is skipped, and nothing else. */
  lemma {:induction false} SkipWsWithin(s: string)
    ensures Within(SkipWs(s), s)
    ensures forall i :: 0 <= i < |s| - |SkipWs(s)| ==> IsSpace(s[i])
  {
    if s != "" && IsSpace(s[0]) {
      SkipWsWithin(s[1..]);
      TailWithin(s, 1);
      WithinChain(SkipWs(s), s[1..], s);
    } else {
      TailWithin(s, 0);
    }
  }

  lemma {:induction false} ReadBodyWithin(s: string)
    ensures Within(ReadBody(s).rest, s) && ('\0' !in s ==> '\0' !in ReadBody(s).out)
  {
    if s == "" {
      TailWithin(s, 0);
    } else if s[0] == '"' {
      TailWithin(s, 1);
    } else {
      var n := if s[0] == '\\' && |s| > 1 then 2 else 1;
      TailWithin(s, n);
      ReadBodyWithin(s[n..]);
      WithinChain(ReadBody(s[n..]).rest, s[n..], s);
    }
  }

  lemma {:induction false} ReadStringWithin(s: string, prev: string)
    ensures Within(ReadString(s, prev).rest, s)
    ensures '\0' !in s && '\0' !in prev ==> '\0' !in ReadString(s, prev).out
  {
    var t := SkipWs(s);
    SkipWsWithin(s);
    if t != "" && t[0] == '"' {
      TailWithin(t, 1);
      ReadBodyWithin(t[1..]);
      WithinChain(ReadBody(t[1..]).rest, t[1..], t);
      WithinChain(ReadBody(t[1..]).rest, t, s);
    }
  }

  lemma {:induction false} SkipCompositeWithin(s: string, open: char, close: char, depth: nat)
    ensures Within(SkipComposite(s, open, close, depth), s)
    decreases |s|
  {
    if s == "" || depth == 0 {
      TailWithin(s, 0);
    } else if s[0] == '"' {
      var t := ReadString(s, "").rest;
      ReadStringWithin(s, "");
      SkipCompositeWithin(t, open, close, depth);
      WithinChain(SkipComposite(t, open, close, depth), t, s);
    } else {
      var d := if s[0] == open then depth + 1 else if s[0] == close then depth - 1 else depth;
      TailWithin(s, 1);
      SkipCompositeWithin(s[1..], open, close, d);
      WithinChain(SkipComposite(s[1..], open, close, d), s[1..], s);
    }
  }

  lemma {:induction false} SkipPrimitiveWithin(s: string)
    ensures Within(SkipPrimitive(s), s)
  {
    if s == "" || EndsPrimitive(s[0]) {
      TailWithin(s, 0);
    } else {
      TailWithin(s, 1);
      SkipPrimitiveWithin(s[1..]);
      WithinChain(SkipPrimitive(s[1..]), s[1..], s);
    }
  }

  lemma {:induction false} SkipValueWithin(s: string)
    ensures Within(SkipValue(s), s)
  {
    var t := SkipWs(s);
    SkipWsWithin(s);
    if t != "" {
      TailWithin(t, 1);
      if t[0] == '"' {
        ReadStringWithin(t, "");
      } else if t[0] == '[' {
        SkipCompositeWithin(t[1..], '[', ']', 1);
        WithinChain(SkipValue(s), t[1..], t);
      } else if t[0] == '{' {
        SkipCompositeWithin(t[1..], '{', '}', 1);
        WithinChain(SkipValue(s), t[1..], t);
      } else {
        SkipPrimitiveWithin(t);
      }
      WithinChain(SkipValue(s), t, s);
    }
  }

  /** The colon after a key. */
  lemma {:induction false} AfterColon(s: string, t: string)
    requires Within(t, s) && t != ""
    ensures Within(t[1..], s)
  {
    TailWithin(t, 1);
    WithinChain(t[1..], t, s);
  }

  lemma {:induction false} ReadPartFieldWithin(s: string, kind: string, text: string)
    ensures
      var r := ReadPartField(s, kind, text);
      Within(r.rest, s) && ('\0' !in s && '\0' !in kind && '\0' !in text ==> '\0' !in r.kind && '\0' !in r.text)
  {
    var key := ReadString(s, "");
    ReadStringWithin(s, "");
    if key.ok {
      var t := SkipWs(key.rest);
      SkipWsWithin(key.rest);
      WithinChain(t, key.rest, s);
      if Head(t) == ':' && t != "" {
        AfterColon(s, t);
        if key.out == "type" {
          StringAfter(s, t[1..], kind);
        } else if key.out == "text" {
          StringAfter(s, t[1..], text);
        } else {
          ValueAfter(s, t[1..]);
        }
      }
    }
  }

  lemma {:induction false} StringAfter(s: string, t: string, prev: string)
    requires Within(t, s)
    ensures
      var r := ReadString(t, prev);
      Within(r.rest, s) && ('\0' !in s && '\0' !in prev ==> '\0' !in r.out)
  {
    ReadStringWithin(t, prev);
    WithinChain(ReadString(t, prev).rest, t, s);
  }

  lemma {:induction false} ValueAfter(s: string, t: string)
    requires Within(t, s)
    ensures Within(SkipValue(t), s)
  {
    SkipValueWithin(t);
    WithinChain(SkipValue(t), t, s);
  }

  lemma {:induction false} ParsePartWithin(s: string, kind: string, text: string)
    ensures
      var r := ParsePart(s, kind, text);
      Within(r.rest, s) && ('\0' !in s && '\0' !in kind && '\0' !in text ==> '\0' !in r.kind && '\0' !in r.text)
    decreases |s|
  {
    if s == "" {
      TailWithin(s, 0);
    } else if s[0] == '}' {
      TailWithin(s, 1);
    } else {
      var t := SkipWs(s);
      SkipWsWithin(s);
      if t != "" && t[0] == ',' {
        AfterColon(s, t);
        ParsePartWithin(t[1..], kind, text);
        WithinChain(ParsePart(t[1..], kind, text).rest, t[1..], s);
      } else {
        var f := ReadPartField(t, kind, text);
        ReadPartFieldWithin(t, kind, text);
        WithinChain(f.rest, t, s);
        if f.ok {
          ParsePartWithin(f.rest, f.kind, f.text);
          WithinChain(ParsePart(f.rest, f.kind, f.text).rest, f.rest, s);
        }
      }
    }
  }

  lemma {:induction false} SkipToElementWithin(s: string)
    ensures Within(SkipToElement(s), s)
    decreases |s|
  {
    if s == "" {
      TailWithin(s, 0);
    } else {
      var t := SkipWs(s);
      SkipWsWithin(s);
      if t != "" && t[0] == ',' {
        AfterColon(s, t);
        SkipToElementWithin(t[1..]);
        WithinChain(SkipToElement(t[1..]), t[1..], s);
      }
    }
  }

  lemma {:induction false} ReadPartWithin(s: string, acc: string)
    requires s != ""
    ensures
      var r := ReadPart(s, acc);
      Within(r.rest, s) && ('\0' !in s && '\0' !in acc ==> '\0' !in r.out)
  {
    var p := ParsePart(s[1..], "", "");
    TailWithin(s, 1);
    ParsePartWithin(s[1..], "", "");
    WithinChain(p.rest, s[1..], s);
    SkipToElementWithin(p.rest);
    WithinChain(SkipToElement(p.rest), p.rest, s);
  }

  lemma {:induction false} ReadPartsWithin(s: string, acc: string)
    ensures
      var r := ReadParts(s, acc);
      Within(r.rest, s) && ('\0' !in s && '\0' !in acc ==> '\0' !in r.out)
    decreases |s|
  {
    if s == "" {
      TailWithin(s, 0);
    } else if s[0] == '{' {
      var p := ReadPart(s, acc);
      ReadPartWithin(s, acc);
      if p.ok {
        ReadPartsWithin(p.rest, p.out);
        WithinChain(ReadParts(p.rest, p.out).rest, p.rest, s);
      }
    } else if s[0] == ']' {
      TailWithin(s, 1);
    } else {
      TailWithin(s, 0);
    }
  }

  lemma {:induction false} ReadContentWithin(s: string, msg: Message)
    ensures
      var r := ReadContent(s, msg);
      Within(r.rest, s) && r.msg.role == msg.role && ('\0' !in s && NulFree(msg) ==> NulFree(r.msg))
  {
    var t := SkipWs(s);
    SkipWsWithin(s);
    if t != "" && t[0] == '[' {
      var u := SkipToElement(t[1..]);
      AfterColon(s, t);
      SkipToElementWithin(t[1..]);
      WithinChain(u, t[1..], s);
      ReadPartsWithin(u, "");
      WithinChain(ReadParts(u, "").rest, u, s);
    } else {
      ReadStringWithin(t, msg.content);
      WithinChain(ReadString(t, msg.content).rest, t, s);
    }
  }

  lemma {:induction false} ReadFieldWithin(s: string, msg: Message)
    ensures
      var r := ReadField(s, msg);
      Within(r.rest, s) && ('\0' !in s && NulFree(msg) ==> NulFree(r.msg))
  {
    var key := ReadString(s, "");
    var t := SkipWs(key.rest);
    ReadStringWithin(s, "");
    SkipWsWithin(key.rest);
    WithinChain(t, key.rest, s);
    if key.ok && Head(t) == ':' && t != "" {
      AfterColon(s, t);
      if key.out == "role" {
        StringAfter(s, t[1..], msg.role);
      } else if key.out == "content" {
        ContentAfter(s, t[1..], msg);
      } else {
        ValueAfter(s, t[1..]);
      }
    }
  }

  lemma {:induction false} ContentAfter(s: string, t: string, msg: Message)
    requires Within(t, s)
    ensures
      var r := ReadContent(t, msg);
      Within(r.rest, s) && r.msg.role == msg.role && ('\0' !in s && NulFree(msg) ==> NulFree(r.msg))
  {
    ReadContentWithin(t, msg);
    WithinChain(ReadContent(t, msg).rest, t, s);
  }

  lemma {:induction false} ParseMessageWithin(s: string, msg: Message)
    ensures
      var r := ParseMessage(s, msg);
      Within(r.rest, s) && ('\0' !in s && NulFree(msg) ==> NulFree(r.msg))
    decreases |s|
  {
    if s == "" {
      TailWithin(s, 0);
    } else {
      var t := SkipWs(s);
      SkipWsWithin(s);
      if t != "" && t[0] == '}' {
        AfterColon(s, t);
      } else if t != "" && t[0] == ',' {
        AfterColon(s, t);
        ParseMessageWithin(t[1..], msg);
        WithinChain(ParseMessage(t[1..], msg).rest, t[1..], s);
      } else {
        var f := ReadField(t, msg);
        ReadFieldWithin(t, msg);
        WithinChain(f.rest, t, s);
        if f.ok {
          ParseMessageWithin(f.rest, f.msg);
          WithinChain(ParseMessage(f.rest, f.msg).rest, f.rest, s);
        }
      }
    }
  }

  /** A NUL is never read back. */
  lemma {:induction false} ParsedHasNoNul(s: string, ms: seq<Message>)
    requires '\0' !in s && forall m :: m in ms ==> NulFree(m)
    ensures forall m :: m in ParseArray(s, ms).messages ==> NulFree(m)
    decreases |s|
  {
    if s != "" {
      var t := SkipWs(s);
      SkipWsWithin(s);
      if t != "" && t[0] == ',' {
        AfterColon(s, t);
        ParsedHasNoNul(t[1..], ms);
      } else if t != "" && t[0] == '{' {
        var m := ParseMessage(t[1..], Empty);
        AfterColon(s, t);
        ParseMessageWithin(t[1..], Empty);
        if m.ok { ParsedHasNoNul(m.rest, ms + [m.msg]); }
      }
    }
  }

  // ── Where a role can be read ───────────────────────────────────────

  predicate MayPrecede(c: char) {
    c == ':' || IsSpace(c)
  }

  /** The quote at `q` follows the end of a key that ends in a t. */
  predicate OpensContent(text: string, q: nat) {
    3 <= q < |text| && text[q - 1] == ':' && text[q - 2] == '"' && text[q - 3] == 't'
  }

  /** A role's value may stand at `q`. */
  predicate RolePlace(text: string, q: nat) {
    1 <= q <= |text| && MayPrecede(text[q - 1]) && !OpensContent(text, q)
  }

  /** A string `v` is read at the quote `q`, where a role's value may stand, and
      what follows it is not refused at once. */
  ghost predicate RoleRead(text: string, q: nat, v: string) {
    && q < |text| && text[q] == '"' && RolePlace(text, q)
    && var r := ReadBody(text[q + 1..]);
    && r.ok && r.out == v && Head(r.rest) != 'c'
  }

  ghost predicate SomewhereRead(text: string, v: string) {
    exists q :: RoleRead(text, q, v)
  }

  lemma {:induction false} CharOfSuffix(t: string, text: string, k: nat)
    requires IsSuffix(t, text) && k < |t|
    ensures text[|text| - |t| + k] == t[k]
  {
  }

  /** `c` is the last character read, or its escape. */
  predicate Ends(out: string, c: char) {
    out != "" && (out[|out| - 1] == c || out[|out| - 1] == UnescapeChar(c))
  }

  lemma {:induction false} EndsPrepended(c: char, out: string, x: char)
    requires Ends(out, x)
    ensures Ends([c] + out, x)
  {
  }

  /** The character before a string's closing quote ends what is read. */
  lemma {:induction false} ClosingChar(s: string)
    requires ReadBody(s).ok && ReadBody(s).out != ""
    ensures |s| - |ReadBody(s).rest| >= 2
    ensures Ends(ReadBody(s).out, s[|s| - |ReadBody(s).rest| - 2])
  {
    var n := if s[0] == '\\' && |s| > 1 then 2 else 1;
    var c := if n == 2 then UnescapeChar(s[1]) else s[0];
    var t := s[n..];
    ReadBodyStep(s, t, c, "");
    if ReadBody(t).out == "" {
      EmptyString(t);
    } else {
      ClosingChar(t);
      EndsPrepended(c, ReadBody(t).out, t[|t| - |ReadBody(t).rest| - 2]);
    }
  }

  lemma {:induction false} EmptyString(s: string)
    requires ReadBody(s).ok && ReadBody(s).out == ""
    ensures |ReadBody(s).rest| == |s| - 1
  {
  }

  /** A key that reads "role" does not end in a t. */
  lemma {:induction false} RoleKeyEnd(u: string, text: string)
    requires IsSuffix(u, text) && ReadString(u, "").ok && ReadString(u, "").out == "role"
    ensures
      var a := |text| - |ReadString(u, "").rest|;
      2 <= a <= |text| && text[a - 2] != 't'
  {
    SkipIsSuffix(u, text);
    TailIsSuffix(SkipWs(u), text);
    RoleBodyEnd(SkipWs(u)[1..], text);
  }

  lemma {:induction false} RoleBodyEnd(body: string, text: string)
    requires IsSuffix(body, text) && ReadBody(body).ok && ReadBody(body).out == "role"
    ensures
      var a := |text| - |ReadBody(body).rest|;
      2 <= a <= |text| && text[a - 2] != 't'
  {
    ReadBodyWithin(body);
    ClosingChar(body);
    assert "role"[3] == 'e';
    CharOfSuffix(body, text, |body| - |ReadBody(body).rest| - 2);
  }

  /** Between a text and the same text without leading whitespace. */
  lemma {:induction false} SkippedChar(s: string, text: string)
    requires IsSuffix(s, text) && |SkipWs(s)| < |s|
    ensures IsSpace(text[|text| - |SkipWs(s)| - 1])
  {
    SkipWsWithin(s);
    CharOfSuffix(s, text, |s| - |SkipWs(s)| - 1);
  }

  /** After the key at `a`, whitespace and a colon, the value stands where a
      role's may. */
  lemma {:induction false} NotAContent(rest: string, t: string, text: string)
    requires IsSuffix(rest, text) && t == SkipWs(rest) && IsSuffix(t, text) && t != "" && t[0] == ':'
    requires IsSuffix(t[1..], text)
    requires |rest| + 2 <= |text| && text[|text| - |rest| - 2] != 't'
    ensures |SkipWs(t[1..])| <= |text| && RolePlace(text, |text| - |SkipWs(t[1..])|)
  {
    CharOfSuffix(t, text, 0);
    if |SkipWs(t[1..])| < |t[1..]| {
      SkippedChar(t[1..], text);
    } else if |t| < |rest| {
      SkippedChar(rest, text);
    }
  }

  lemma {:induction false} TailIsSuffix(t: string, text: string)
    requires IsSuffix(t, text) && t != ""
    ensures IsSuffix(t[1..], text)
  {
  }

  lemma {:induction false} SkipIsSuffix(t: string, text: string)
    requires IsSuffix(t, text)
    ensures IsSuffix(SkipWs(t), text)
  {
    SkipWsWithin(t);
    SuffixChain(SkipWs(t), t, text);
  }

  lemma {:induction false} KeyIsSuffix(u: string, text: string)
    requires IsSuffix(u, text)
    ensures IsSuffix(ReadString(u, "").rest, text)
  {
    ReadStringWithin(u, "");
    SuffixChain(ReadString(u, "").rest, u, text);
  }

  lemma {:induction false} RefusedAtC(s: string, msg: Message)
    requires ParseMessage(s, msg).ok
    ensures Head(s) != 'c'
  {
  }

  /** The role that a field sets was read somewhere in the text. */
  lemma {:induction false} FieldIsRead(u: string, text: string, msg: Message)
    requires IsSuffix(u, text) && ReadField(u, msg).ok && Head(ReadField(u, msg).rest) != 'c'
    ensures OldOrRead(ReadField(u, msg).msg.role, msg.role, text)
  {
    var key := ReadString(u, "");
    var t := SkipWs(key.rest);
    if key.out == "role" {
      KeyIsSuffix(u, text);
      RoleKeyEnd(u, text);
      RoleIsRead(key.rest, t, text, msg.role, ReadField(u, msg));
    } else if key.out == "content" {
      ContentKeepsRole(t[1..], msg);
    }
  }

  lemma {:induction false} ContentKeepsRole(s: string, msg: Message)
    ensures ReadContent(s, msg).msg.role == msg.role
  {
  }

  lemma {:induction false} RoleIsRead(rest: string, t: string, text: string, prev: string, f: Field)
    requires IsSuffix(rest, text) && t == SkipWs(rest) && t != "" && t[0] == ':'
    requires |rest| + 2 <= |text| && text[|text| - |rest| - 2] != 't'
    requires ReadString(t[1..], prev) == Read(true, f.rest, f.msg.role) && Head(f.rest) != 'c'
    ensures SomewhereRead(text, f.msg.role)
  {
    SkipIsSuffix(rest, text);
    TailIsSuffix(t, text);
    NotAContent(rest, t, text);
    ValueIsRead(t[1..], text, prev, f);
  }

  lemma {:induction false} ValueIsRead(s: string, text: string, prev: string, f: Field)
    requires IsSuffix(s, text) && ReadString(s, prev) == Read(true, f.rest, f.msg.role) && Head(f.rest) != 'c'
    requires |SkipWs(s)| <= |text| && RolePlace(text, |text| - |SkipWs(s)|)
    ensures SomewhereRead(text, f.msg.role)
  {
    SkipIsSuffix(s, text);
    QuoteIsRead(SkipWs(s), text, f);
  }

  lemma {:induction false} QuoteIsRead(v: string, text: string, f: Field)
    requires IsSuffix(v, text) && v != "" && v[0] == '"' && ReadBody(v[1..]) == Read(true, f.rest, f.msg.role)
    requires Head(f.rest) != 'c' && RolePlace(text, |text| - |v|)
    ensures SomewhereRead(text, f.msg.role)
  {
    var q := |text| - |v|;
    assert text[q + 1..] == v[1..];
    assert RoleRead(text, q, f.msg.role);
  }

  /** A role is the one it was, or was read somewhere in the text. */
  ghost predicate OldOrRead(role: string, was: string, text: string) {
    role == was || SomewhereRead(text, role)
  }

  lemma {:induction false} MessageIsRead(s: string, text: string, msg: Message)
    requires IsSuffix(s, text) && ParseMessage(s, msg).ok
    ensures OldOrRead(ParseMessage(s, msg).msg.role, msg.role, text)
    decreases |s|, 1
  {
    var t := SkipWs(s);
    SkipIsSuffix(s, text);
    if t == "" || t[0] != '}' {
      if t != "" && t[0] == ',' {
        TailIsSuffix(t, text);
        MessageIsRead(t[1..], text, msg);
      } else {
        NextFieldIsRead(t, text, msg);
      }
    }
  }

  lemma {:induction false} NextFieldIsRead(t: string, text: string, msg: Message)
    requires IsSuffix(t, text)
    requires var f := ReadField(t, msg); f.ok && ParseMessage(f.rest, f.msg).ok
    ensures var f := ReadField(t, msg); OldOrRead(ParseMessage(f.rest, f.msg).msg.role, msg.role, text)
    decreases |t|, 0
  {
    var f := ReadField(t, msg);
    RefusedAtC(f.rest, f.msg);
    FieldIsRead(t, text, msg);
    ReadFieldWithin(t, msg);
    SuffixChain(f.rest, t, text);
    MessageIsRead(f.rest, text, f.msg);
  }

  ghost predicate EachRead(out: seq<Message>, text: string, ms: seq<Message>) {
    forall m :: m in out ==> m in ms || m.role == "" || SomewhereRead(text, m.role)
  }

  lemma {:induction false} EachReadAfter(out: seq<Message>, text: string, ms: seq<Message>, m: Message)
    requires EachRead(out, text, ms + [m]) && (m.role == "" || SomewhereRead(text, m.role))
    ensures EachRead(out, text, ms)
  {
  }

  /** Every role that is parsed is empty or was read somewhere in the text. */
  lemma {:induction false} RolesAreRead(s: string, text: string, ms: seq<Message>)
    requires IsSuffix(s, text) && ParseArray(s, ms).ok
    ensures EachRead(ParseArray(s, ms).messages, text, ms)
    decreases |s|
  {
    if s != "" {
      var t := SkipWs(s);
      SkipIsSuffix(s, text);
      if t != "" && t[0] == ',' {
        TailIsSuffix(t, text);
        RolesAreRead(t[1..], text, ms);
      } else if t != "" && t[0] == '{' {
        var m := ParseMessage(t[1..], Empty);
        TailIsSuffix(t, text);
        MessageIsRead(t[1..], text, Empty);
        ParseMessageWithin(t[1..], Empty);
        SuffixChain(m.rest, t[1..], text);
        RolesAreRead(m.rest, text, ms + [m.msg]);
        EachReadAfter(ParseArray(s, ms).messages, text, ms, m.msg);
      }
    }
  }

  // ── What can be read from a printed list ───────────────────────────

  /** Reading a role from a place within it: what comes out is free of escapes,
      or shorter than what it was read from, or it ran over the role's end. */
  lemma {:induction false} ReadRaw(x: string, tail: string)
    requires |tail| >= 3 && tail[0] == ',' && tail[1] == '"' && tail[2] == 'c'
    ensures
      var r := ReadBody(x + ("\"" + tail));
      r.ok && (Head(r.rest) == 'c' || (|r.out| <= |x| && (Plain(r.out) || |r.out| < |x|)))
  {
    var s := x + ("\"" + tail);
    if x == "" {
      assert s[1..] == tail;
    } else if x[0] == '"' {
    } else if x == "\\" {
      OverTheEnd(tail);
    } else {
      var n := if x[0] == '\\' then 2 else 1;
      assert |x| > 1 || n == 1;
      assert s[n..] == x[n..] + ("\"" + tail);
      ReadRaw(x[n..], tail);
    }
  }

  lemma {:induction false} OverTheEnd(tail: string)
    requires |tail| >= 3 && tail[0] == ',' && tail[1] == '"' && tail[2] == 'c'
    ensures
      var r := ReadBody("\\" + ("\"" + tail));
      r.ok && Head(r.rest) == 'c'
  {
    var s := "\\" + ("\"" + tail);
    assert s[2..] == tail;
    assert ReadBody(tail[1..]) == Read(true, tail[2..], "");
  }

  lemma {:induction false} QuotesAreEscaped(c: string, k: nat)
    requires k < |Escape(c)| && Escape(c)[k] == '"'
    ensures k >= 1 && Escape(c)[k - 1] == '\\'
  {
    var one := EscapeOne(c[0]);
    assert Escape(c) == one + Escape(c[1..]);
    if k >= |one| { QuotesAreEscaped(c[1..], k - |one|); }
  }

  /** A role that needs escaping and is longer than `v`. */
  ghost predicate Outgrown(ms: seq<Message>, v: string) {
    exists m :: m in ms && !Plain(m.role) && |v| < |m.role|
  }

  /** The printed object in its parts: what opens it, the role, what stands
      between role and content, the content and what closes it. */
  function Opening(first: bool): string {
    Separator(first) + "{\"role\":\""
  }

  function Between(): string {
    "\",\"content\":\""
  }

  lemma {:induction false} ItemsInParts(ms: seq<Message>, first: bool)
    requires ms != []
    ensures
      var m, t := ms[0], Items(ms[1..], false);
      Items(ms, first) == Opening(first) + m.role + Between() + Escape(m.content) + "\"}" + t
  {
    var m, t := ms[0], Items(ms[1..], false);
    ItemsSplit(ms, first);
    RegroupParts(Separator(first), "{\"role\":\"", m.role, Between(), Escape(m.content), "\"}", t);
  }

  lemma {:induction false} RegroupParts(a: string, b: string, c: string, d: string, e: string, f: string, t: string)
    ensures a + ((b + c + d + e + f) + t) == (a + b) + c + d + e + f + t
  {
  }

  /** In the opening only the role's own quote may be read as a role's. */
  lemma {:induction false} QuoteInOpening(first: bool, q: nat)
    requires 1 <= q < |Opening(first)| && Opening(first)[q] == '"' && MayPrecede(Opening(first)[q - 1])
    ensures q == |Opening(first)| - 1
  {
    var brace := "{\"role\":\"";
    assert |brace| == 9 && brace[0] == '{' && brace[1] == '"' && brace[2] == 'r' && brace[3] == 'o' && brace[4] == 'l';
    assert brace[5] == 'e' && brace[6] == '"' && brace[7] == ':' && brace[8] == '"';
    assert forall i :: 0 <= i < 9 ==> Opening(first)[|Separator(first)| + i] == brace[i];
  }

  /** Between role and content it is the first quote or the content's. */
  lemma {:induction false} QuoteBetween(k: nat)
    requires 1 <= k < |Between()| && Between()[k] == '"' && MayPrecede(Between()[k - 1])
    ensures k == 12 && Between()[11] == ':' && Between()[10] == '"' && Between()[9] == 't'
  {
    var b := Between();
    assert |b| == 13 && b[0] == '"' && b[1] == ',' && b[2] == '"' && b[3] == 'c' && b[4] == 'o' && b[5] == 'n';
    assert b[6] == 't' && b[7] == 'e' && b[8] == 'n' && b[9] == 't' && b[10] == '"' && b[11] == ':' && b[12] == '"';
  }

  lemma {:induction false} Peel(p: string, t: string, q: nat, v: string)
    requires RoleRead(p + t, q, v) && q > |p|
    ensures RoleRead(t, q - |p|, v)
  {
    var s, k := p + t, q - |p|;
    assert s[q] == t[k] && s[q - 1] == t[k - 1];
    assert s[q + 1..] == t[k + 1..];
    assert k >= 3 ==> s[q - 2] == t[k - 2] && s[q - 3] == t[k - 3];
  }

  lemma {:induction false} PastOpening(first: bool, t: string, q: nat, v: string)
    requires RoleRead(Opening(first) + t, q, v)
    ensures q == |Opening(first)| - 1 || q > |Opening(first)|
  {
    var p := Opening(first);
    assert q < |p| ==> (p + t)[q] == p[q];
    assert q <= |p| ==> (p + t)[q - 1] == p[q - 1];
    assert p[|p| - 1] == '"' by { assert "{\"role\":\""[8] == '"'; }
    if q < |p| { QuoteInOpening(first, q); }
  }

  lemma {:induction false} PastBetween(t: string, q: nat, v: string)
    requires RoleRead(Between() + t, q, v)
    ensures q > |Between()|
  {
    var b := Between();
    assert |b| == 13 && b[12] == '"';
    assert q < 13 ==> (b + t)[q] == b[q];
    assert q <= 13 ==> (b + t)[q - 1] == b[q - 1];
    assert (b + t)[10] == b[10] && (b + t)[9] == b[9];
    if q < 13 { QuoteBetween(q); }
  }

  lemma {:induction false} PastContent(c: string, t: string, q: nat, v: string)
    requires RoleRead(Escape(c) + t, q, v)
    ensures q >= |Escape(c)|
  {
    var e := Escape(c);
    assert q < |e| ==> (e + t)[q] == e[q] && (e + t)[q - 1] == e[q - 1];
    if q < |e| { QuotesAreEscaped(c, q); }
  }

  lemma {:induction false} PastClose(t: string, q: nat, v: string)
    requires t != "" && t[0] != '"' && RoleRead("\"}" + t, q, v)
    ensures q > 2
  {
    var s := "\"}" + t;
    assert s[1] == '}' && s[2] == t[0];
  }

  lemma {:induction false} ItemsHead(ms: seq<Message>)
    ensures Items(ms, false) != "" && (Items(ms, false)[0] == ']' || Items(ms, false)[0] == ',')
  {
    if ms != [] { ItemsSplit(ms, false); }
  }

  /** What follows a content's closing quote is read as plain text. */
  lemma {:induction false} AfterContent(ms: seq<Message>)
    ensures
      var r := ReadBody("}" + Items(ms, false));
      r.ok ==> Plain(r.out)
  {
    var t := Items(ms, false);
    if ms == [] {
      assert "}" + t == "}]";
      UnclosedPlain("}]");
    } else {
      ItemsInParts(ms, false);
      var rest := "role\":\"" + (ms[0].role + Between() + Escape(ms[0].content) + "\"}" + Items(ms[1..], false));
      SplitOpening(ms[0].role, Between(), Escape(ms[0].content), "\"}", Items(ms[1..], false));
      assert "}" + (",{" + ("\"" + rest)) == "},{" + ("\"" + rest);
      PlainRead("},{", rest);
    }
  }

  lemma {:induction false} SplitOpening(a: string, b: string, c: string, d: string, e: string)
    ensures Opening(false) + a + b + c + d + e == ",{" + ("\"" + ("role\":\"" + (a + b + c + d + e)))
  {
    assert Opening(false) == ",{" + ("\"" + "role\":\"");
    RegroupParts("", Opening(false), a, b, c, d, e);
    assert "" + ((Opening(false) + a + b + c + d) + e) == Opening(false) + a + b + c + d + e;
    AssociateFive(",{", "\"", "role\":\"", a + b + c + d + e);
    AssociateMany(Opening(false), a, b, c, d, e);
  }

  lemma {:induction false} AssociateMany(p: string, a: string, b: string, c: string, d: string, e: string)
    ensures p + a + b + c + d + e == p + (a + b + c + d + e)
  {
  }

  lemma {:induction false} AssociateFive(a: string, b: string, c: string, d: string)
    ensures (a + (b + c)) + d == a + (b + (c + d))
  {
  }

  /** What is read within a role, or from its beginning, is outgrown by it. */
  lemma {:induction false} ReadFromRole(ms: seq<Message>, k: nat, tail: string, v: string)
    requires ms != [] && k <= |ms[0].role| && (k > 0 ==> ms[0].role[k - 1] == '"')
    requires |tail| >= 3 && tail[0] == ',' && tail[1] == '"' && tail[2] == 'c'
    requires
      var r := ReadBody(ms[0].role[k..] + ("\"" + tail));
      r.ok && r.out == v && Head(r.rest) != 'c' && !Plain(v)
    ensures Outgrown(ms, v)
  {
    var role := ms[0].role;
    ReadRaw(role[k..], tail);
    if k == 0 && Plain(role) {
      assert role[0..] == role;
      PlainRead(role, tail);
    }
    assert ms[0] in ms;
  }

  /** A role that needs escaping is read only from a longer one. */
  lemma {:induction false} ReadIsOutgrown(ms: seq<Message>, first: bool, q: nat, v: string)
    requires RoleRead(Items(ms, first), q, v) && !Plain(v)
    ensures Outgrown(ms, v)
    decreases ms, 2
  {
    assert ms == [] ==> |Items(ms, first)| == 1;
    if ms != [] {
      var text := FromRole(ms);
      ItemsOpened(ms, first);
      PastOpening(first, text, q, v);
      if q < |Opening(first)| {
        AtRole(ms, Opening(first), q, v);
      } else {
        Peel(Opening(first), text, q, v);
        InObject(ms, q - |Opening(first)|, v);
      }
    }
  }

  lemma {:induction false} AtRole(ms: seq<Message>, p: string, q: nat, v: string)
    requires ms != [] && q == |p| - 1 && !Plain(v) && RoleRead(p + FromRole(ms), q, v)
    ensures Outgrown(ms, v)
  {
    RoleTail(FromContent(ms));
    assert (p + FromRole(ms))[q + 1..] == FromRole(ms);
    assert ms[0].role[0..] == ms[0].role;
    ReadFromRole(ms, 0, Between()[1..] + FromContent(ms), v);
  }

  /** A printed list after the role's opening quote, and after the content's. */
  function FromRole(ms: seq<Message>): string
    requires ms != []
  {
    ms[0].role + (Between() + FromContent(ms))
  }

  function FromContent(ms: seq<Message>): string
    requires ms != []
  {
    Escape(ms[0].content) + ("\"}" + Items(ms[1..], false))
  }

  lemma {:induction false} ItemsOpened(ms: seq<Message>, first: bool)
    requires ms != []
    ensures Items(ms, first) == Opening(first) + FromRole(ms)
  {
    ItemsInParts(ms, first);
    AssociateParts(Opening(first), ms[0].role, Between(), Escape(ms[0].content), "\"}", Items(ms[1..], false));
  }

  lemma {:induction false} AssociateParts(a: string, b: string, c: string, d: string, e: string, f: string)
    ensures a + b + c + d + e + f == a + (b + (c + (d + (e + f))))
  {
  }

  lemma {:induction false} RoleTail(t: string)
    ensures
      var tail := Between()[1..] + t;
      |tail| >= 3 && tail[0] == ',' && tail[1] == '"' && tail[2] == 'c' && Between() + t == "\"" + tail
  {
    var b := Between();
    assert |b| == 13 && b[0] == '"' && b[1] == ',' && b[2] == '"' && b[3] == 'c';
    assert b == "\"" + b[1..];
  }

  lemma {:induction false} InRole(ms: seq<Message>, q: nat, v: string)
    requires ms != [] && q < |ms[0].role| && !Plain(v) && RoleRead(FromRole(ms), q, v)
    ensures Outgrown(ms, v)
  {
    RoleTail(FromContent(ms));
    SplitRole(ms[0].role, Between() + FromContent(ms), q);
    ReadFromRole(ms, q + 1, Between()[1..] + FromContent(ms), v);
  }

  /** From the quote that ends a role nothing that needs escaping is read. */
  lemma {:induction false} RoleEnd(role: string, v: string, r2: string)
    requires RoleRead(role + (Between() + r2), |role|, v)
    ensures Plain(v)
  {
    RoleTail(r2);
    assert (role + (Between() + r2))[|role| + 1..] == Between()[1..] + r2;
    CommaRead(Between()[1..] + r2);
  }

  lemma {:induction false} SplitRole(role: string, t: string, q: nat)
    requires q < |role|
    ensures (role + t)[q] == role[q] && (role + t)[q + 1..] == role[q + 1..] + t
  {
  }

  lemma {:induction false} InObject(ms: seq<Message>, q: nat, v: string)
    requires ms != [] && !Plain(v) && RoleRead(FromRole(ms), q, v)
    ensures Outgrown(ms, v)
    decreases ms, 1
  {
    var role, content := ms[0].role, FromContent(ms);
    if q < |role| {
      InRole(ms, q, v);
    } else if q == |role| {
      RoleEnd(role, v, content);
    } else {
      Peel(role, Between() + content, q, v);
      PastBetween(content, q - |role|, v);
      Peel(Between(), content, q - |role|, v);
      InContent(ms, q - |role| - |Between()|, v);
    }
  }

  lemma {:induction false} CommaRead(tail: string)
    requires |tail| >= 3 && tail[0] == ',' && tail[1] == '"'
    ensures Plain(ReadBody(tail).out)
  {
    assert ReadBody(tail[1..]).out == "";
  }

  lemma {:induction false} InContent(ms: seq<Message>, q: nat, v: string)
    requires ms != [] && !Plain(v) && RoleRead(FromContent(ms), q, v)
    ensures Outgrown(ms, v)
    decreases ms, 0
  {
    var e, t := Escape(ms[0].content), Items(ms[1..], false);
    PastContent(ms[0].content, "\"}" + t, q, v);
    if q == |e| {
      ContentEnd(ms, v);
    } else {
      Peel(e, "\"}" + t, q, v);
      ItemsHead(ms[1..]);
      PastClose(t, q - |e|, v);
      Peel("\"}", t, q - |e|, v);
      ReadIsOutgrown(ms[1..], false, q - |e| - 2, v);
    }
  }

  /** From the quote that ends a content nothing that needs escaping is read. */
  lemma {:induction false} ContentEnd(ms: seq<Message>, v: string)
    requires ms != [] && RoleRead(FromContent(ms), |Escape(ms[0].content)|, v)
    ensures Plain(v)
  {
    CloseTail(Escape(ms[0].content), Items(ms[1..], false));
    AfterContent(ms[1..]);
  }

  lemma {:induction false} CloseTail(e: string, t: string)
    ensures (e + ("\"}" + t))[|e| + 1..] == "}" + t
  {
    var s := "\"}" + t;
    assert s[1..] == "}" + t;
    assert (e + s)[|e| + 1..] == s[1..];
  }

  // ── The exact condition ────────────────────────────────────────────

  lemma {:induction false} LongestRole(ms: seq<Message>) returns (m: Message)
    requires exists m :: m in ms && !Plain(m.role)
    ensures m in ms && !Plain(m.role) && !Outgrown(ms, m.role)
  {
    var last := ms[|ms| - 1];
    var rest := ms[..|ms| - 1];
    assert ms == rest + [last];
    if exists x :: x in rest && !Plain(x.role) {
      m := LongestRole(rest);
      if !Plain(last.role) && |last.role| > |m.role| { m := last; }
    } else {
      m := last;
    }
  }

  lemma {:induction false} BareMembers(ms: seq<Message>)
    ensures forall m :: m in ms ==> Message(m.role, m.content, map[]) in Bare(ms)
  {
    if ms != [] { BareMembers(ms[1..]); }
  }

  /** A list with a role that needs escaping is not read back. */
  lemma {:induction false} RawRoleIsLost(ms: seq<Message>)
    requires exists m :: m in ms && !Plain(m.role)
    ensures ParseArray(Items(ms, true), []).ok ==> ParseArray(Items(ms, true), []).messages != Bare(ms)
  {
    var text := Items(ms, true);
    var m := LongestRole(ms);
    var bare := Message(m.role, m.content, map[]);
    BareMembers(ms);
    if ParseArray(text, []).ok && bare in ParseArray(text, []).messages {
      RolesAreRead(text, text, []);
      var q :| RoleRead(text, q, m.role);
      ReadIsOutgrown(ms, true, q, m.role);
    }
  }

  lemma {:induction false} CStringHasNoNul(s: string)
    ensures '\0' !in CString(s)
  {
    if s != "" && s[0] != '\0' { CStringHasNoNul(s[1..]); }
  }

  /** A list with a NUL is not read back. */
  lemma {:induction false} NulIsLost(ms: seq<Message>)
    requires exists m :: m in ms && !NulFree(m)
    ensures ParseArray(CString(Items(ms, true)), []).messages != Bare(ms)
  {
    CStringHasNoNul(Items(ms, true));
    ParsedHasNoNul(CString(Items(ms, true)), []);
    BareMembers(ms);
    var m :| m in ms && !NulFree(m);
    assert !NulFree(Message(m.role, m.content, map[]));
  }

  /** Printing and parsing gives back every role and content if and only if no
      message holds a NUL and no role a quote or a backslash. */
  lemma {:induction false} RoundTripExactlyWhen(ms: seq<Message>, prior: seq<Message>)
    ensures Parse(Some(Serialize(ms)), prior) == (true, Bare(ms)) <==>
            forall m :: m in ms ==> NulFree(m) && Plain(m.role)
  {
    if forall m :: m in ms ==> NulFree(m) && Plain(m.role) {
      ParseUndoesSerialize(ms, prior);
    } else {
      var s := Serialize(ms);
      assert s == "[" + Items(ms, true);
      CStringConcat("[", Items(ms, true));
      assert ("[" + CString(Items(ms, true)))[1..] == CString(Items(ms, true));
      if forall m :: m in ms ==> NulFree(m) {
        ItemsHaveNoNul(ms, true);
        NoNulCString(Items(ms, true));
        RawRoleIsLost(ms);
      } else {
        NulIsLost(ms);
      }
    }
  }
}
