/** Batch removal of reasoning blocks in the constitutional validator, and how
    it relates to the streaming filter. */
module Reasoning {
  import opened Utf8
  import opened StreamFilter

  // ── Batch stripping ────────────────────────────────────────────────

  predicate StartsWith(s: seq<byte>, m: seq<byte>) {
    |m| <= |s| && s[..|m|] == m
  }

  /** The marker whose arrival changes the side. */
  function Sought(m: Markers, inBlock: bool): seq<byte> {
    if inBlock then m.close else m.open
  }

  /** What is left of `s` once reasoning blocks are removed, read one byte at
      a time: the reference for the searching implementation below. A block
      that is never closed runs to the end. */
  function Strip(s: seq<byte>, m: Markers, inBlock: bool): seq<byte>
    requires m.open != [] || m.close != []
    decreases |s|, if inBlock == (m.close == []) then 1 else 0
  {
    if s == [] then []
    else if inBlock then
      if StartsWith(s, m.close) then Strip(s[|m.close|..], m, false)
      else Strip(s[1..], m, true)
    else
      if StartsWith(s, m.open) then Strip(s[|m.open|..], m, true)
      else [s[0]] + Strip(s[1..], m, false)
  }

  /** std::string::find: the first occurrence at or after `pos`, |s| + 1
      standing for npos. */
  method Find(s: seq<byte>, m: seq<byte>, pos: nat) returns (i: nat)
    requires pos <= |s|
    ensures i == |s| + 1 || (pos <= i && OccursAt(s, m, i))
    ensures forall k :: pos <= k < i && k <= |s| ==> !OccursAt(s, m, k)
  {
    i := pos;
    while i <= |s| && !(i + |m| <= |s| && s[i..i + |m|] == m)
      invariant pos <= i <= |s| + 1
      invariant forall k :: pos <= k < i ==> !OccursAt(s, m, k)
    {
      i := i + 1;
    }
  }

  /** One byte that does not begin the marker sought. */
  lemma {:induction false} StripByte(s: seq<byte>, m: Markers, inBlock: bool)
    requires m.open != [] || m.close != []
    requires s != [] && !StartsWith(s, Sought(m, inBlock))
    ensures Strip(s, m, inBlock) == (if inBlock then [] else [s[0]]) + Strip(s[1..], m, inBlock)
  {
  }

  lemma {:induction false} StripMarker(s: seq<byte>, m: Markers, inBlock: bool)
    requires m.open != [] || m.close != []
    requires s != [] && StartsWith(s, Sought(m, inBlock))
    ensures Strip(s, m, inBlock) == Strip(s[|Sought(m, inBlock)|..], m, !inBlock)
  {
  }

  /** Up to the first occurrence, stripping goes byte by byte. */
  lemma {:induction false} StripToOccurrence(s: seq<byte>, m: Markers, inBlock: bool, i: nat, j: nat)
    requires m.open != [] || m.close != []
    requires i <= j <= |s|
    requires forall k :: i <= k < j ==> !OccursAt(s, Sought(m, inBlock), k)
    ensures Strip(s[i..], m, inBlock) == (if inBlock then [] else s[i..j]) + Strip(s[j..], m, inBlock)
    decreases j - i
  {
    if i < j {
      var marker, rest := Sought(m, inBlock), Strip(s[j..], m, inBlock);
      assert !OccursAt(s, marker, i);
      StartsAt(s, marker, i);
      StripByte(s[i..], m, inBlock);
      assert s[i..][1..] == s[i + 1..];
      StripToOccurrence(s, m, inBlock, i + 1, j);
      if !inBlock {
        assert s[i..j] == [s[i]] + s[i + 1..j];
        Associative([s[i]], s[i + 1..j], rest);
      }
    }
  }

  /** An occurrence at `i` is a prefix of what follows `i`. */
  lemma {:induction false} StartsAt(s: seq<byte>, marker: seq<byte>, i: nat)
    requires i <= |s|
    ensures StartsWith(s[i..], marker) <==> OccursAt(s, marker, i)
  {
    if i + |marker| <= |s| {
      assert s[i..][..|marker|] == s[i..i + |marker|];
    }
  }

  lemma {:induction false} StripAtOccurrence(s: seq<byte>, m: Markers, inBlock: bool, i: nat)
    requires m.open != [] || m.close != []
    requires i < |s| && OccursAt(s, Sought(m, inBlock), i)
    ensures Strip(s[i..], m, inBlock) ==
            Strip(s[i + |Sought(m, inBlock)|..], m, !inBlock)
  {
    var marker := Sought(m, inBlock);
    StartsAt(s, marker, i);
    StripMarker(s[i..], m, inBlock);
    assert s[i..][|marker|..] == s[i + |marker|..];
  }

  /** Inside a block everything up to its close at `c` goes, or everything
      when there is no close (`c` past the end). */
  lemma {:induction false} StripBlock(s: seq<byte>, m: Markers, body: nat, c: nat)
    requires m.open != [] || m.close != []
    requires body <= c <= |s| + 1 && body <= |s|
    requires forall k :: body <= k < c && k <= |s| ==> !OccursAt(s, m.close, k)
    requires c <= |s| ==> OccursAt(s, m.close, c)
    ensures Strip(s[body..], m, true) ==
            if c > |s| then [] else Strip(s[c + |m.close|..], m, false)
  {
    DropToOccurrence(s, m, body, if c > |s| then |s| else c);
    if c < |s| { StripAtOccurrence(s, m, true, c); } else { StripAtEnd(s, m, c); }
  }

  lemma {:induction false} StripAtEnd(s: seq<byte>, m: Markers, c: nat)
    requires m.open != [] || m.close != []
    requires c >= |s| && (c == |s| ==> OccursAt(s, m.close, c))
    ensures Strip(s[|s|..], m, true) == [] && (c == |s| ==> Strip(s[c + |m.close|..], m, false) == [])
  {
    assert s[|s|..] == [];
  }

  lemma {:induction false} DropToOccurrence(s: seq<byte>, m: Markers, i: nat, j: nat)
    requires m.open != [] || m.close != []
    requires i <= j <= |s| && forall k :: i <= k < j ==> !OccursAt(s, m.close, k)
    ensures Strip(s[i..], m, true) == Strip(s[j..], m, true)
  {
    StripToOccurrence(s, m, true, i, j);
  }

  /** One round of the search: text up to an opening marker at `o` is kept,
      the block after it dropped up to the close at `c`. */
  lemma {:induction false} StripRound(s: seq<byte>, m: Markers, pos: nat, o: nat, c: nat)
    requires m.open != [] || m.close != []
    requires pos <= o < |s| && OccursAt(s, m.open, o)
    requires forall k :: pos <= k < o ==> !OccursAt(s, m.open, k)
    requires o + |m.open| <= c <= |s| + 1
    requires forall k :: o + |m.open| <= k < c && k <= |s| ==> !OccursAt(s, m.close, k)
    requires c <= |s| ==> OccursAt(s, m.close, c)
    ensures Strip(s[pos..], m, false) ==
            s[pos..o] + if c > |s| then [] else Strip(s[c + |m.close|..], m, false)
  {
    assert Strip(s[pos..], m, false) == s[pos..o] + Strip(s[o..], m, false) by {
      StripToOccurrence(s, m, false, pos, o);
    }
    assert Strip(s[o..], m, false) == Strip(s[o + |m.open|..], m, true) by {
      StripAtOccurrence(s, m, false, o);
    }
    StripBlock(s, m, o + |m.open|, c);
  }

  method StripReasoning(content: seq<byte>, m: Markers) returns (result: seq<byte>)
    requires m.open != [] || m.close != []
    ensures result == Strip(content, m, false)
  {
    result := [];
    var pos := 0;
    while pos < |content|
      invariant pos <= |content|
      invariant result + Strip(content[pos..], m, false) == Strip(content, m, false)
    {
      var o := Find(content, m.open, pos);
      if o >= |content| {
        StripToOccurrence(content, m, false, pos, |content|);
        return result + content[pos..];
      }
      result := result + content[pos..o];
      var c := Find(content, m.close, o + |m.open|);
      StripRound(content, m, pos, o, c);
      pos := if c > |content| then |content| else c + |m.close|;
    }
  }

  // ── Inputs made of plain bytes and markers ─────────────────────────

  datatype Piece = Plain(b: byte) | Open | Close

  function Bytes(p: Piece, m: Markers): seq<byte> {
    match p
    case Plain(b) => [b]
    case Open => m.open
    case Close => m.close
  }

  function Render(ps: seq<Piece>, m: Markers): seq<byte> {
    if ps == [] then [] else Bytes(ps[0], m) + Render(ps[1..], m)
  }

  /** Markers whose first bytes occur nowhere else in either of them, neither
      of which is a prefix of the other. */
  predicate CleanMarkers(m: Markers) {
    && m.open != [] && m.close != []
    && (forall i :: 1 <= i < |m.open| ==> m.open[i] != m.open[0] && m.open[i] != m.close[0])
    && (forall i :: 1 <= i < |m.close| ==> m.close[i] != m.open[0] && m.close[i] != m.close[0])
    && !(m.open <= m.close) && !(m.close <= m.open)
  }

  predicate PlainPieces(ps: seq<Piece>, m: Markers) {
    forall i :: 0 <= i < |ps| && ps[i].Plain? ==> ps[i].b != First(m.open) && ps[i].b != First(m.close)
  }

  /** The text outside blocks, markers dropped. */
  function Visible(ps: seq<Piece>, inBlock: bool): seq<byte> {
    if ps == [] then []
    else match ps[0]
      case Plain(b) => (if inBlock then [] else [b]) + Visible(ps[1..], inBlock)
      case Open => Visible(ps[1..], true)
      case Close => Visible(ps[1..], false)
  }

  /** The text outside blocks, closes that end no block kept. */
  function VisibleWithStrays(ps: seq<Piece>, m: Markers, inBlock: bool): seq<byte> {
    if ps == [] then []
    else match ps[0]
      case Plain(b) => (if inBlock then [] else [b]) + VisibleWithStrays(ps[1..], m, inBlock)
      case Open => VisibleWithStrays(ps[1..], m, true)
      case Close => (if inBlock then [] else m.close) + VisibleWithStrays(ps[1..], m, false)
  }

  predicate NoStrayClose(ps: seq<Piece>, inBlock: bool) {
    ps == [] ||
    match ps[0]
    case Plain(_) => NoStrayClose(ps[1..], inBlock)
    case Open => NoStrayClose(ps[1..], true)
    case Close => inBlock && NoStrayClose(ps[1..], false)
  }

  // ── The stream side ────────────────────────────────────────────────

  /** A marker arriving at an empty tag buffer is recognised, and emits nothing. */
  lemma {:induction false} FeedMarker(m: Markers, f: Filter, marker: seq<byte>, j: nat)
    requires CleanMarkers(m) && (marker == m.open || marker == m.close)
    requires j < |marker| && f.tag == marker[..j]
    ensures Feed(m, f, marker[j..]) == f.(tag := [], inThink := marker == m.open)
    decreases |marker| - j
  {
    var c := marker[j];
    var g := f.(tag := marker[..j + 1]);
    assert f.tag + [c] == marker[..j + 1];
    assert marker[j..][1..] == marker[j + 1..];
    if j + 1 == |marker| {
      assert marker[..j + 1] == marker;
      assert marker[j + 1..] == [];
    } else {
      var p := marker[..j + 1];
      assert p != m.open && p != m.close by { assert p < marker; }
      assert Step(m, f, c) == g;
      FeedMarker(m, g, marker, j + 1);
    }
  }

  lemma {:induction false} FeedPiece(m: Markers, f: Filter, p: Piece)
    requires CleanMarkers(m) && PlainPieces([p], m) && f.tag == []
    ensures
      var g := Feed(m, f, Bytes(p, m));
      && g.tag == []
      && Text(g) == Text(f) + (if p.Plain? && !f.inThink then [p.b] else [])
      && g.inThink == if p.Plain? then f.inThink else p.Open?
  {
    if p.Plain? {
      assert [p][0].Plain?;
      assert [p.b][1..] == [];
      assert Feed(m, f, [p.b]) == Step(m, f, p.b);
      EmitKeepsText(f, [p.b]);
    } else {
      var marker := Bytes(p, m);
      assert marker[0..] == marker && marker[..0] == [];
      FeedMarker(m, f, marker, 0);
    }
  }

  lemma {:induction false} StreamVisible(m: Markers, f: Filter, ps: seq<Piece>)
    requires CleanMarkers(m) && PlainPieces(ps, m) && f.tag == []
    ensures Feed(m, f, Render(ps, m)).tag == []
    ensures Text(Feed(m, f, Render(ps, m))) == Text(f) + Visible(ps, f.inThink)
    decreases ps
  {
    if ps != [] {
      FeedConcat(m, f, Bytes(ps[0], m), Render(ps[1..], m));
      assert PlainPieces([ps[0]], m);
      FeedPiece(m, f, ps[0]);
      var g := Feed(m, f, Bytes(ps[0], m));
      var shown := if ps[0].Plain? && !f.inThink then [ps[0].b] else [];
      StreamVisible(m, g, ps[1..]);
      assert Visible(ps, f.inThink) == shown + Visible(ps[1..], g.inThink);
      Associative(Text(f), shown, Visible(ps[1..], g.inThink));
    }
  }

  // ── The batch side ─────────────────────────────────────────────────

  /** Bytes that cannot start the marker being looked for are taken one by
      one: kept outside a block, dropped inside. */
  lemma {:induction false} StripOver(a: seq<byte>, t: seq<byte>, m: Markers, inBlock: bool)
    requires m.open != [] && m.close != []
    requires forall i :: 0 <= i < |a| ==> a[i] != Sought(m, inBlock)[0]
    ensures Strip(a + t, m, inBlock) == (if inBlock then [] else a) + Strip(t, m, inBlock)
  {
    if a == [] {
      assert a + t == t;
    } else {
      var s := a + t;
      assert s[1..] == a[1..] + t;
      NoMatch(s, Sought(m, inBlock));
      StripByte(s, m, inBlock);
      StripOver(a[1..], t, m, inBlock);
      if !inBlock {
        assert a == [a[0]] + a[1..];
        Associative([a[0]], a[1..], Strip(t, m, false));
      }
    }
  }

  lemma {:induction false} NoMatch(s: seq<byte>, marker: seq<byte>)
    requires s != [] && marker != [] && s[0] != marker[0]
    ensures !StartsWith(s, marker)
  {
    FirstOfPrefix(s, marker, 0);
  }

  lemma {:induction false} FirstOfPrefix(s: seq<byte>, marker: seq<byte>, k: nat)
    ensures StartsWith(s, marker) && k < |marker| ==> k < |s| && s[k] == marker[k]
  {
    if StartsWith(s, marker) && k < |marker| {
      assert s[..|marker|][k] == s[k];
    }
  }

  lemma {:induction false} StripOverMarker(m: Markers, t: seq<byte>, inBlock: bool)
    requires CleanMarkers(m)
    ensures
      var marker := Sought(m, inBlock);
      Strip(marker + t, m, inBlock) == Strip(t, m, !inBlock)
  {
    var marker := Sought(m, inBlock);
    assert StartsWith(marker + t, marker);
    assert (marker + t)[|marker|..] == t;
  }

  /** The marker that is not being looked for is ordinary text. */
  lemma {:induction false} StripOverOther(m: Markers, t: seq<byte>, inBlock: bool)
    requires CleanMarkers(m)
    ensures
      var other := Sought(m, !inBlock);
      Strip(other + t, m, inBlock) == (if inBlock then [] else other) + Strip(t, m, inBlock)
  {
    var other := Sought(m, !inBlock);
    var s := other + t;
    DistinctMarkers(m, t);
    assert s[0] == other[0] && s[1..] == other[1..] + t;
    assert Strip(s, m, inBlock) == (if inBlock then [] else [other[0]]) + Strip(other[1..] + t, m, inBlock);
    StripOver(other[1..], t, m, inBlock);
    assert other == [other[0]] + other[1..];
  }

  /** One marker's text does not start with the other marker. */
  lemma {:induction false} DistinctMarkers(m: Markers, t: seq<byte>)
    requires CleanMarkers(m)
    ensures !StartsWith(m.close + t, m.open) && !StartsWith(m.open + t, m.close)
  {
    if StartsWith(m.close + t, m.open) { PrefixesNest(m.close, t, m.open); }
    if StartsWith(m.open + t, m.close) { PrefixesNest(m.open, t, m.close); }
  }

  lemma {:induction false} PrefixesNest(a: seq<byte>, t: seq<byte>, b: seq<byte>)
    requires StartsWith(a + t, b)
    ensures StartsWith(a, b) || StartsWith(b, a)
  {
    var s := a + t;
    if |b| <= |a| {
      assert s[..|b|] == a[..|b|];
    } else {
      assert s[..|b|][..|a|] == s[..|a|] == a;
    }
  }

  lemma {:induction false} BatchVisible(m: Markers, ps: seq<Piece>, inBlock: bool)
    requires CleanMarkers(m) && PlainPieces(ps, m)
    ensures Strip(Render(ps, m), m, inBlock) == VisibleWithStrays(ps, m, inBlock)
    decreases ps
  {
    if ps != [] {
      var t := Render(ps[1..], m);
      match ps[0] {
        case Plain(b) =>
          StripOver([b], t, m, inBlock);
          BatchVisible(m, ps[1..], inBlock);
        case Open =>
          if inBlock { StripOverOther(m, t, true); } else { StripOverMarker(m, t, false); }
          BatchVisible(m, ps[1..], true);
        case Close =>
          if inBlock { StripOverMarker(m, t, true); } else { StripOverOther(m, t, false); }
          BatchVisible(m, ps[1..], false);
      }
    }
  }

  // ── Both agree exactly when no close is stray ──────────────────────

  lemma {:induction false} StraysAreExtra(m: Markers, ps: seq<Piece>, inBlock: bool)
    requires m.close != []
    ensures |VisibleWithStrays(ps, m, inBlock)| >= |Visible(ps, inBlock)|
    ensures NoStrayClose(ps, inBlock) ==> VisibleWithStrays(ps, m, inBlock) == Visible(ps, inBlock)
    ensures !NoStrayClose(ps, inBlock) ==> |VisibleWithStrays(ps, m, inBlock)| > |Visible(ps, inBlock)|
    decreases ps
  {
    if ps != [] {
      var next := match ps[0] case Plain(_) => inBlock case Open => true case Close => false;
      StraysAreExtra(m, ps[1..], next);
    }
  }

  function Streamed(m: Markers, s: seq<byte>): seq<byte> {
    Flatten(Flush(Feed(m, Fresh, s)).out)
  }

  /** On every input made of plain bytes, opens and closes, the stream filter
      with its final flush shows the same text as batch stripping if and only
      if no close stands outside a block; then both show the text outside
      blocks. The markers are those the model families use: first bytes that
      occur nowhere else, neither marker a prefix of the other. */
  lemma {:induction false} StreamMatchesBatch(m: Markers, ps: seq<Piece>)
    requires CleanMarkers(m) && PlainPieces(ps, m)
    ensures Streamed(m, Render(ps, m)) == Visible(ps, false)
    ensures Streamed(m, Render(ps, m)) == Strip(Render(ps, m), m, false) <==> NoStrayClose(ps, false)
  {
    StreamVisible(m, Fresh, ps);
    FlushKeepsText(Feed(m, Fresh, Render(ps, m)));
    BatchVisible(m, ps, false);
    StraysAreExtra(m, ps, false);
  }

  /** Batch stripping also leaves text without an opening marker alone. */
  lemma {:induction false} UnmarkedTextIsKept(m: Markers, s: seq<byte>)
    requires m.open != [] && !Contains(s, m.open)
    ensures Strip(s, m, false) == s
  {
    StripToOccurrence(s, m, false, 0, |s|);
    assert s[0..] == s && s[0..|s|] == s && s[|s|..] == [];
  }

  // ── A marker's first byte outside a marker ─────────────────────────

  /** What the consumer would have if the filter were flushed now. */
  function Shown(f: Filter): seq<byte> {
    Text(f) + if f.inThink then [] else f.tag
  }

  lemma {:induction false} FlushShows(f: Filter)
    ensures Flatten(Flush(f).out) == Shown(f)
  {
    FlushKeepsText(f);
  }

  /** A byte that completes no marker outside a block will be shown. */
  lemma {:induction false} ByteIsShown(m: Markers, f: Filter, c: byte)
    requires !f.inThink && f.tag + [c] != m.open && f.tag + [c] != m.close
    ensures !Step(m, f, c).inThink && Shown(Step(m, f, c)) == Shown(f) + [c]
  {
    var g := f.(tag := f.tag + [c]);
    EmitKeepsText(f, [c]);
    EmitKeepsText(g, g.tag);
    Associative(Text(f), f.tag, [c]);
  }

  /** Outside a block, the filter will show `text`. */
  predicate Held(f: Filter, text: seq<byte>) {
    !f.inThink && Shown(f) == text
  }

  /** A buffer that repeats a marker's first byte is no marker. */
  lemma {:induction false} NoMarkerHeld(m: Markers, tag: seq<byte>)
    requires CleanMarkers(m) && |tag| >= 2 && tag[0] == tag[1] == m.open[0]
    ensures tag != m.open && tag != m.close
  {
  }

  lemma {:induction false} FeedSnoc(m: Markers, f: Filter, s: seq<byte>, c: byte)
    ensures Feed(m, f, s + [c]) == Step(m, Feed(m, f, s), c)
  {
    FeedConcat(m, f, s, [c]);
    assert [c][1..] == [];
  }

  /** The buffer takes one more byte, or gives up when it gets too long. */
  lemma {:induction false} HoldStep(m: Markers, f: Filter, tag: seq<byte>, c: byte)
    requires m.open != [] && m.close != [] && (tag != [] || c == m.open[0])
    requires Held(f, tag) && f.tag == tag && tag + [c] != m.open && tag + [c] != m.close
    ensures Held(Step(m, f, c), tag + [c])
    ensures Step(m, f, c).tag == if |tag| < MaxLen(m) then tag + [c] else []
  {
    ByteIsShown(m, f, c);
  }

  /** After `j` bytes of `early`: all of it will be shown, and the buffer holds
      it or has given up. */
  ghost predicate HoldsAt(m: Markers, f: Filter, early: seq<byte>, j: nat)
    requires j <= |early|
  {
    Held(f, early[..j]) && f.tag == if j <= MaxLen(m) then early[..j] else []
  }

  lemma {:induction false} HoldsEarly(m: Markers, early: seq<byte>, j: nat)
    requires CleanMarkers(m) && 2 <= |m.open| && early == [m.open[0]] + m.open && j <= |early|
    ensures HoldsAt(m, Feed(m, Fresh, early[..j]), early, j)
  {
    if j == 0 {
      assert Feed(m, Fresh, early[..0]) == Fresh;
    } else {
      HoldsEarly(m, early, j - 1);
      FeedPrefix(m, Fresh, early, j);
      HoldsNext(m, early, j, Feed(m, Fresh, early[..j - 1]));
    }
  }

  lemma {:induction false} FeedPrefix(m: Markers, f: Filter, s: seq<byte>, j: nat)
    requires 0 < j <= |s|
    ensures Feed(m, f, s[..j]) == Step(m, Feed(m, f, s[..j - 1]), s[j - 1])
  {
    assert s[..j] == s[..j - 1] + [s[j - 1]];
    FeedSnoc(m, f, s[..j - 1], s[j - 1]);
  }

  lemma {:induction false} HoldsNext(m: Markers, early: seq<byte>, j: nat, f: Filter)
    requires CleanMarkers(m) && 2 <= |m.open| && early == [m.open[0]] + m.open && 0 < j <= |early|
    requires HoldsAt(m, f, early, j - 1)
    ensures HoldsAt(m, Step(m, f, early[j - 1]), early, j)
  {
    var c := early[j - 1];
    assert early[..j] == early[..j - 1] + [c];
    NotYetAMarker(m, early, j);
    HoldStep(m, f, early[..j - 1], c);
  }

  lemma {:induction false} NotYetAMarker(m: Markers, early: seq<byte>, j: nat)
    requires CleanMarkers(m) && 2 <= |m.open| && early == [m.open[0]] + m.open && 0 < j <= |early|
    ensures early[..j] != m.open && early[..j] != m.close
  {
    if j == 1 {
      assert early[..1] == [m.open[0]] == m.open[..1];
    } else {
      NoMarkerHeld(m, early[..j]);
    }
  }

  /** When a marker's first byte comes one byte early, as in "<<think>x", stream
      and batch agree if and only if the opening marker is a single byte:
      otherwise the stream takes the marker for text and shows it, while batch
      stripping removes it and what follows. */
  lemma {:induction false} EarlyFirstByteDiverges(m: Markers, x: byte)
    requires CleanMarkers(m)
    ensures
      var s := [m.open[0]] + m.open + [x];
      && (|m.open| >= 2 ==> Streamed(m, s) == [m.open[0]] + m.open + if m.close == [x] then [] else [x])
      && (|m.open| >= 2 ==> Strip(s, m, false) == [m.open[0]])
      && (Streamed(m, s) == Strip(s, m, false) <==> |m.open| == 1)
  {
    if |m.open| >= 2 {
      EarlyIsStreamed(m, x);
      EarlyIsStripped(m, x);
    } else {
      SingleByteAgrees(m, x);
    }
  }

  lemma {:induction false} EarlyIsStreamed(m: Markers, x: byte)
    requires CleanMarkers(m) && |m.open| >= 2
    ensures Streamed(m, [m.open[0]] + m.open + [x]) == [m.open[0]] + m.open + if m.close == [x] then [] else [x]
  {
    var early := [m.open[0]] + m.open;
    assert early[..|early|] == early;
    HoldsEarly(m, early, |early|);
    FeedSnoc(m, Fresh, early, x);
    FlushShows(Step(m, Feed(m, Fresh, early), x));
    LastByteShown(m, Feed(m, Fresh, early), early, x);
  }

  lemma {:induction false} LastByteShown(m: Markers, f: Filter, early: seq<byte>, x: byte)
    requires CleanMarkers(m) && |m.open| >= 2 && early == [m.open[0]] + m.open && Held(f, early)
    requires f.tag == if |early| <= MaxLen(m) then early else []
    ensures Shown(Step(m, f, x)) == early + if m.close == [x] then [] else [x]
  {
    if |early| <= MaxLen(m) {
      NoMarkerHeld(m, early + [x]);
      ByteIsShown(m, f, x);
    } else {
      assert f.tag + [x] == [x];
      if m.close != [x] { ByteIsShown(m, f, x); }
    }
  }

  lemma {:induction false} EarlyIsStripped(m: Markers, x: byte)
    requires CleanMarkers(m) && |m.open| >= 2
    ensures Strip([m.open[0]] + m.open + [x], m, false) == [m.open[0]]
  {
    var s := [m.open[0]] + m.open + [x];
    FirstOfPrefix(s, m.open, 1);
    StripByte(s, m, false);
    assert s[1..] == m.open + [x];
    StripOverMarker(m, [x], false);
    LastByteInBlock(m, x);
  }

  lemma {:induction false} LastByteInBlock(m: Markers, x: byte)
    requires CleanMarkers(m)
    ensures Strip([x], m, true) == []
  {
    if StartsWith([x], m.close) { StripMarker([x], m, true); } else { StripByte([x], m, true); }
  }

  lemma {:induction false} SingleByteAgrees(m: Markers, x: byte)
    requires CleanMarkers(m) && |m.open| == 1
    ensures
      var s := [m.open[0]] + m.open + [x];
      Streamed(m, s) == Strip(s, m, false) == []
  {
    var o := m.open[0];
    assert m.open == [o] && [o] + m.open + [x] == m.open + [o, x] == [o, o, x];
    assert m.close[0] == o ==> m.open <= m.close;
    SingleByteStreamed(m, o, x);
    SingleByteStripped(m, o, x);
  }

  lemma {:induction false} SingleByteStripped(m: Markers, o: byte, x: byte)
    requires CleanMarkers(m) && m.open == [o] && m.close[0] != o
    ensures Strip(m.open + [o, x], m, false) == []
  {
    StripOverMarker(m, [o, x], false);
    FirstOfPrefix([o, x], m.close, 0);
    StripByte([o, x], m, true);
    assert [o, x][1..] == [x];
    LastByteInBlock(m, x);
  }

  lemma {:induction false} SingleByteStreamed(m: Markers, o: byte, x: byte)
    requires CleanMarkers(m) && m.open == [o]
    ensures Streamed(m, [o, o, x]) == []
  {
    var inside := Fresh.(inThink := true);
    assert Fresh.tag + [o] == [o];
    assert Step(m, Fresh, o) == inside && Step(m, inside, o) == inside;
    assert [o, o, x] == [] + [o] + [o] + [x] && Feed(m, Fresh, []) == Fresh;
    FeedSnoc(m, Fresh, [], o);
    FeedSnoc(m, Fresh, [] + [o], o);
    FeedSnoc(m, Fresh, [] + [o] + [o], x);
    FlushShows(Step(m, inside, x));
  }

  // ── A marker's first byte inside a block ───────────────────────────

  /** Inside a block, with nothing to show but `text`. */
  predicate Silent(f: Filter, text: seq<byte>) {
    f.inThink && Text(f) == text
  }

  /** Inside a block a byte that does not complete the closing marker is lost. */
  lemma {:induction false} ByteIsLost(m: Markers, f: Filter, c: byte)
    requires f.inThink && f.tag + [c] != m.close
    ensures Silent(Step(m, f, c), Text(f))
  {
  }

  /** The buffer takes one more byte, or gives up when it gets too long. */
  lemma {:induction false} BlockStep(m: Markers, f: Filter, tag: seq<byte>, c: byte)
    requires m.open != [] && m.close != [] && (tag != [] || c == m.open[0] || c == m.close[0])
    requires f.inThink && f.tag == tag && tag + [c] != m.open && tag + [c] != m.close
    ensures Step(m, f, c).tag == if |tag| < MaxLen(m) then tag + [c] else []
  {
  }

  /** `b` may begin a marker and is not one. */
  ghost predicate OpensBuffer(m: Markers, b: byte) {
    CleanMarkers(m) && (b == m.open[0] || b == m.close[0]) && [b] != m.open && [b] != m.close
  }

  lemma {:induction false} NotTheClose(m: Markers, b: byte, text: seq<byte>, j: nat)
    requires OpensBuffer(m, b) && |text| >= 2 && text[0] == b && text[1] == m.close[0] && 0 < j <= |text|
    ensures text[..j] != m.open && text[..j] != m.close
  {
    if j == 1 {
      assert text[..1] == [b];
    } else {
      assert text[..j][1] == m.close[0];
    }
  }

  /** After `j` bytes of `text` inside a block: nothing to show, and the buffer
      holds them or has given up. */
  ghost predicate MissesAt(m: Markers, f: Filter, text: seq<byte>, j: nat)
    requires j <= |text|
  {
    Silent(f, []) && f.tag == if j <= MaxLen(m) then text[..j] else []
  }

  /** A first byte right before the closing marker keeps it from being seen. */
  lemma {:induction false} MissesClose(m: Markers, b: byte, text: seq<byte>, j: nat)
    requires OpensBuffer(m, b) && text == [b] + m.close && j <= |text|
    ensures MissesAt(m, Feed(m, Fresh.(inThink := true), text[..j]), text, j)
  {
    var inside := Fresh.(inThink := true);
    if j == 0 {
      assert Feed(m, inside, text[..0]) == inside;
    } else {
      MissesClose(m, b, text, j - 1);
      FeedPrefix(m, inside, text, j);
      MissesNext(m, b, text, j, Feed(m, inside, text[..j - 1]));
    }
  }

  lemma {:induction false} MissesNext(m: Markers, b: byte, text: seq<byte>, j: nat, f: Filter)
    requires OpensBuffer(m, b) && text == [b] + m.close && 0 < j <= |text|
    requires MissesAt(m, f, text, j - 1)
    ensures MissesAt(m, Step(m, f, text[j - 1]), text, j)
  {
    assert text[..j] == text[..j - 1] + [text[j - 1]];
    NotTheClose(m, b, text, j);
    ByteIsLost(m, f, text[j - 1]);
    BlockStep(m, f, text[..j - 1], text[j - 1]);
  }

  lemma {:induction false} StaysInBlock(m: Markers, b: byte, x: byte)
    requires OpensBuffer(m, b)
    ensures Streamed(m, m.open + ([b] + m.close + [x])) == []
  {
    var inside, text := Fresh.(inThink := true), [b] + m.close;
    assert m.open[0..] == m.open && m.open[..0] == [];
    FeedMarker(m, Fresh, m.open, 0);
    FeedConcat(m, Fresh, m.open, text + [x]);
    FeedSnoc(m, inside, text, x);
    assert text[..|text|] == text;
    MissesClose(m, b, text, |text|);
    LastByteLost(m, b, x, Feed(m, inside, text));
    FlushShows(Step(m, Feed(m, inside, text), x));
  }

  lemma {:induction false} NotBothSingle(m: Markers, b: byte)
    requires OpensBuffer(m, b)
    ensures MaxLen(m) >= 2
  {
    assert |m.open| == 1 ==> m.open == [m.open[0]];
    assert |m.close| == 1 ==> m.close == [m.close[0]];
  }

  lemma {:induction false} LastByteLost(m: Markers, b: byte, x: byte, f: Filter)
    requires OpensBuffer(m, b) && Silent(f, [])
    requires f.tag == if |[b] + m.close| <= MaxLen(m) then [b] + m.close else []
    ensures Silent(Step(m, f, x), [])
  {
    if f.tag != [] {
      NotTheClose(m, b, f.tag + [x], |f.tag| + 1);
      assert (f.tag + [x])[..|f.tag| + 1] == f.tag + [x];
    } else {
      assert f.tag + [x] == [x];
      NotBothSingle(m, b);
    }
    ByteIsLost(m, f, x);
  }

  lemma {:induction false} LeavesBlock(m: Markers, b: byte, x: byte)
    requires OpensBuffer(m, b)
    ensures Strip(m.open + ([b] + m.close + [x]), m, false) == if m.open == [x] then [] else [x]
  {
    var s := [b] + m.close + [x];
    StripOverMarker(m, s, false);
    FirstOfPrefix(s, m.close, 0);
    FirstOfPrefix(s, m.close, 1);
    assert |m.close| == 1 ==> m.close == [m.close[0]];
    assert !StartsWith(s, m.close);
    StripByte(s, m, true);
    assert s[1..] == m.close + [x];
    StripOverMarker(m, [x], true);
    LastByteOutside(m, x);
  }

  lemma {:induction false} LastByteOutside(m: Markers, x: byte)
    requires CleanMarkers(m)
    ensures Strip([x], m, false) == if m.open == [x] then [] else [x]
  {
    if StartsWith([x], m.open) {
      assert m.open == [x];
      StripMarker([x], m, false);
    } else {
      StripByte([x], m, false);
      assert [x] + Strip([x][1..], m, false) == [x];
    }
  }

  /** When a block ends in a byte that may begin a marker, right before its
      closing marker, as in "<think><</think>x", the stream misses the close and
      loses what follows, while batch stripping finds it: they agree if and only
      if what follows is itself an opening marker. */
  lemma {:induction false} FirstByteInBlockDiverges(m: Markers, b: byte, x: byte)
    requires OpensBuffer(m, b)
    ensures
      var s := m.open + ([b] + m.close + [x]);
      && Streamed(m, s) == [] && Strip(s, m, false) == (if m.open == [x] then [] else [x])
      && (Streamed(m, s) == Strip(s, m, false) <==> m.open == [x])
  {
    StaysInBlock(m, b, x);
    LeavesBlock(m, b, x);
  }
}
