/** The streaming reasoning filter: a byte-at-a-time marker recogniser feeding
    an aligner that only hands whole code points to the consumer. */
module StreamFilter {
  import opened Utf8

  datatype Markers = Markers(open: seq<byte>, close: seq<byte>)

  /** The longest marker; the tag buffer is given up once it is longer. */
  function MaxLen(m: Markers): nat {
    if |m.open| > |m.close| then |m.open| else |m.close|
  }

  /** Subscripting an empty std::string at 0 reads its terminator. */
  function First(marker: seq<byte>): byte {
    if marker == [] then 0 else marker[0]
  }

  /** `out` logs the consumer callbacks, one element per call. */
  datatype Filter = Filter(inThink: bool, tag: seq<byte>, utf: seq<byte>, out: seq<seq<byte>>)

  const Fresh := Filter(false, [], [], [])

  // ── Specification ──────────────────────────────────────────────────

  /** Length of the part of `buf` that may be emitted, walking back from the
      end at most four bytes, the i-th of them next. */
  function SafeLen(buf: seq<byte>, i: nat): (n: nat)
    requires 1 <= i
    ensures n <= |buf| <= n + 3
    decreases 5 - i
  {
    if i > 4 || i > |buf| then |buf|
    else
      var expected := CharLen(buf[|buf| - i]);
      if expected > 0 then (if i < expected then |buf| - i else |buf|)
      else SafeLen(buf, i + 1)
  }

  function Emit(f: Filter, data: seq<byte>): Filter {
    var buf := f.utf + data;
    var n := SafeLen(buf, 1);
    f.(utf := buf[n..], out := if n > 0 then f.out + [buf[..n]] else f.out)
  }

  function Step(m: Markers, f: Filter, c: byte): Filter {
    if f.tag == [] && c != First(m.open) && c != First(m.close) then
      if f.inThink then f else Emit(f, [c])
    else
      var g := f.(tag := f.tag + [c]);
      if g.tag == m.open then g.(inThink := true, tag := [])
      else if g.tag == m.close then g.(inThink := false, tag := [])
      else if |g.tag| > MaxLen(m) then
        (if g.inThink then g else Emit(g, g.tag)).(tag := [])
      else g
  }

  function Feed(m: Markers, f: Filter, s: seq<byte>): Filter
    decreases s
  {
    if s == [] then f else Feed(m, Step(m, f, s[0]), s[1..])
  }

  function Flush(f: Filter): Filter {
    var g := (if f.tag != [] && !f.inThink then Emit(f, f.tag) else f).(tag := []);
    if g.utf != [] then g.(out := g.out + [g.utf], utf := []) else g
  }

  function FeedChunks(m: Markers, f: Filter, chunks: seq<seq<byte>>): Filter
    decreases chunks
  {
    if chunks == [] then f else FeedChunks(m, Feed(m, f, chunks[0]), chunks[1..])
  }

  function Flatten(chunks: seq<seq<byte>>): seq<byte> {
    if chunks == [] then [] else chunks[0] + Flatten(chunks[1..])
  }

  /** All the text the consumer has been given, or will be once the aligner's
      unfinished bytes are released. */
  function Text(f: Filter): seq<byte> {
    Flatten(f.out) + f.utf
  }

  // ── The filter itself ──────────────────────────────────────────────

  class StreamThinkFilter {
    const markers: Markers
    const rawEnabled: bool
    var inThink: bool
    var tag: seq<byte>
    var utf: seq<byte>
    var out: seq<seq<byte>>
    var raw: seq<seq<byte>>

    function State(): Filter
      reads this
    {
      Filter(inThink, tag, utf, out)
    }

    constructor (markers: Markers, rawEnabled: bool)
      ensures this.markers == markers && this.rawEnabled == rawEnabled
      ensures State() == Fresh && raw == []
    {
      this.markers := markers;
      this.rawEnabled := rawEnabled;
      inThink, tag, utf, out, raw := false, [], [], [], [];
    }

    method EmitUtf8Safe(data: seq<byte>)
      modifies this`utf, this`out
      ensures State() == Emit(old(State()), data)
    {
      utf := utf + data;
      var safe := |utf|;
      if safe == 0 { return; }
      var i := 1;
      while i <= 4 && i <= |utf|
        invariant 1 <= i <= 5
        invariant safe == |utf|
        invariant utf == old(utf) + data && out == old(out)
        invariant SafeLen(utf, 1) == SafeLen(utf, i)
      {
        var expected := CharLen(utf[safe - i]);
        if expected > 0 {
          if i < expected { safe := safe - i; }
          break;
        }
        i := i + 1;
      }
      if safe > 0 { out := out + [utf[..safe]]; }
      utf := utf[safe..];
    }

    method ProcessByte(c: byte)
      modifies this`inThink, this`tag, this`utf, this`out
      ensures State() == Step(markers, old(State()), c)
    {
      if tag == [] && c != First(markers.open) && c != First(markers.close) {
        if !inThink { EmitUtf8Safe([c]); }
        return;
      }
      tag := tag + [c];
      if tag == markers.open || tag == markers.close {
        inThink := tag == markers.open;
        tag := [];
        return;
      }
      if |tag| > MaxLen(markers) {
        if !inThink { EmitUtf8Safe(tag); }
        tag := [];
      }
    }

    /** The raw callback sees every chunk unfiltered. */
    method OnToken(chunk: seq<byte>)
      modifies this
      ensures State() == Feed(markers, old(State()), chunk)
      ensures raw == if rawEnabled then old(raw) + [chunk] else old(raw)
    {
      if rawEnabled { raw := raw + [chunk]; }
      for i := 0 to |chunk|
        invariant Feed(markers, State(), chunk[i..]) == Feed(markers, old(State()), chunk)
        invariant raw == if rawEnabled then old(raw) + [chunk] else old(raw)
      {
        assert chunk[i..][1..] == chunk[i + 1..];
        ProcessByte(chunk[i]);
      }
    }

    method FlushAll()
      modifies this
      ensures State() == Flush(old(State())) && raw == old(raw)
    {
      if tag != [] && !inThink { EmitUtf8Safe(tag); }
      tag := [];
      if utf != [] {
        out := out + [utf];
        utf := [];
      }
    }
  }

  // ── Chunking does not matter ───────────────────────────────────────

  lemma {:induction false} FeedConcat(m: Markers, f: Filter, a: seq<byte>, b: seq<byte>)
    ensures Feed(m, f, a + b) == Feed(m, Feed(m, f, a), b)
    decreases a
  {
    if a == [] {
      assert a + b == b;
    } else {
      assert (a + b)[0] == a[0] && (a + b)[1..] == a[1..] + b;
      FeedConcat(m, Step(m, f, a[0]), a[1..], b);
    }
  }

  /** However the bytes are cut into tokens, the filter ends in the same state
      and has made the same callbacks. */
  lemma {:induction false} ChunkingIrrelevant(m: Markers, f: Filter, chunks: seq<seq<byte>>)
    ensures FeedChunks(m, f, chunks) == Feed(m, f, Flatten(chunks))
    decreases chunks
  {
    if chunks != [] {
      FeedConcat(m, f, chunks[0], Flatten(chunks[1..]));
      ChunkingIrrelevant(m, Feed(m, f, chunks[0]), chunks[1..]);
    }
  }

  /** Both buffers stay small on every input, valid or not. */
  lemma {:induction false} BuffersBounded(m: Markers, f: Filter, s: seq<byte>)
    requires |f.tag| <= MaxLen(m) && |f.utf| <= 3
    ensures |Feed(m, f, s).tag| <= MaxLen(m) && |Feed(m, f, s).utf| <= 3
    decreases s
  {
    if s != [] {
      BuffersBounded(m, Step(m, f, s[0]), s[1..]);
    }
  }

  // ── Whole code points ──────────────────────────────────────────────

  predicate AllValid(out: seq<seq<byte>>) {
    forall k :: 0 <= k < |out| ==> out[k] != [] && Valid(out[k])
  }

  /** What holds once `before` and then the tag buffer have been fed from a
      valid text: the buffer was opened at a code point boundary, and while it
      is empty the aligner holds exactly the unfinished code point - nothing
      at all inside a block. */
  ghost predicate Aligned(f: Filter, before: seq<byte>) {
    && AllValid(f.out)
    && (f.tag != [] ==> Valid(before) && f.utf == [])
    && (f.tag == [] ==> f.utf == if f.inThink then [] else Rest(before))
  }

  /** The backward walk stops at an unfinished code point that follows `v`. */
  lemma {:induction false} SafeLenAtUnfinished(v: seq<byte>, r: seq<byte>, i: nat)
    requires Unfinished(r) && 1 <= i <= |r| <= 3
    ensures SafeLen(v + r, i) == |v|
    decreases 5 - i
  {
    var buf := v + r;
    assert buf[|buf| - i] == r[|r| - i];
    if i < |r| { SafeLenAtUnfinished(v, r, i + 1); }
  }

  /** Where nothing is unfinished, it stops at the last code point and takes
      it too. */
  lemma {:induction false} SafeLenAtWhole(v: seq<byte>, i: nat)
    requires Valid(v) && v != [] && 1 <= i <= 4 && i <= |v|
    requires forall k :: |v| - i < k < |v| ==> CharLen(v[k]) == 0
    ensures SafeLen(v, i) == |v|
    decreases 5 - i
  {
    var n := LastCodePoint(v);
    if CharLen(v[|v| - i]) == 0 {
      assert i < n;
      SafeLenAtWhole(v, i + 1);
    } else {
      assert i == n;
    }
  }

  lemma {:induction false} SafeLenFinds(v: seq<byte>, r: seq<byte>)
    requires Valid(v) && Unfinished(r) && |r| <= 3
    ensures SafeLen(v + r, 1) == |v|
  {
    if r != [] {
      SafeLenAtUnfinished(v, r, 1);
    } else {
      assert v + r == v;
      if v != [] { SafeLenAtWhole(v, 1); }
    }
  }

  lemma {:induction false} SafeLenIsWhole(buf: seq<byte>, t: seq<byte>)
    requires Valid(buf + t)
    ensures var n := SafeLen(buf, 1); buf[..n] == Whole(buf) && buf[n..] == Rest(buf)
    ensures Valid(Whole(buf))
  {
    PrefixSplit(buf, t);
    assert |Rest(buf)| <= 3;
    SafeLenFinds(Whole(buf), Rest(buf));
  }

  lemma {:induction false} EmitAligned(f: Filter, data: seq<byte>, t: seq<byte>)
    requires AllValid(f.out)
    requires Valid(f.utf + data + t)
    ensures AllValid(Emit(f, data).out)
    ensures Emit(f, data).utf == Rest(f.utf + data)
  {
    SafeLenIsWhole(f.utf + data, t);
  }

  predicate ValidMarkers(m: Markers) {
    m.open != [] && m.close != [] && Valid(m.open) && Valid(m.close)
  }

  /** The first byte of a marker only occurs at a code point boundary. */
  lemma {:induction false} LeadAtBoundary(m: Markers, before: seq<byte>, c: byte, t: seq<byte>)
    requires ValidMarkers(m) && Valid(before + [c] + t)
    requires c == m.open[0] || c == m.close[0]
    ensures Valid(before) && Rest(before) == []
  {
    var n := ValidHead(if c == m.open[0] then m.open else m.close);
    RestSnoc(before, c, t);
    assert before + [c] + t == before + ([c] + t);
    PrefixWhole(before, [c] + t);
    WholeAndRest(before);
    assert before == Whole(before);
  }

  /** A byte that joins the tag buffer finds the aligner empty, and the buffer
      starting at a boundary. */
  lemma {:induction false} TagOpensAtBoundary(m: Markers, f: Filter, before: seq<byte>, c: byte, t: seq<byte>)
    requires ValidMarkers(m) && Aligned(f, before)
    requires Valid(before + (f.tag + [c]) + t)
    requires f.tag != [] || c == m.open[0] || c == m.close[0]
    ensures Valid(before) && f.utf == []
    ensures Valid(f.tag + [c] + t)
    ensures Rest(before + (f.tag + [c])) == Rest(f.tag + [c])
  {
    if f.tag == [] {
      assert f.tag + [c] == [c];
      LeadAtBoundary(m, before, c, t);
    }
    assert before + (f.tag + [c]) + t == before + (f.tag + [c] + t);
    ValidConcat(before, f.tag + [c] + t);
    RestConcat(before, f.tag + [c]);
  }

  /** How much of the input lies before the tag buffer after one more byte. */
  function NewBefore(m: Markers, f: Filter, before: seq<byte>, c: byte): seq<byte> {
    if Step(m, f, c).tag == [] then before + (f.tag + [c]) else before
  }

  lemma {:induction false} PlainStepAligned(m: Markers, f: Filter, before: seq<byte>, c: byte, t: seq<byte>)
    requires ValidMarkers(m) && Aligned(f, before) && Valid(before + [c] + t)
    requires f.tag == [] && c != m.open[0] && c != m.close[0]
    ensures Step(m, f, c).tag == [] && Aligned(Step(m, f, c), before + [c])
  {
    if !f.inThink {
      RestSnoc(before, c, t);
      EmitAligned(f, [c], t);
    }
  }

  lemma {:induction false} TagStepAligned(m: Markers, f: Filter, before: seq<byte>, c: byte, t: seq<byte>)
    requires ValidMarkers(m) && Aligned(f, before) && Valid(before + (f.tag + [c]) + t)
    requires f.tag != [] || c == m.open[0] || c == m.close[0]
    ensures Aligned(Step(m, f, c), NewBefore(m, f, before, c))
  {
    TagOpensAtBoundary(m, f, before, c, t);
    var tag := f.tag + [c];
    if tag == m.open || tag == m.close {
      RestOfValid(tag);
    } else if |tag| > MaxLen(m) && !f.inThink {
      assert [] + tag == tag;
      EmitAligned(f.(tag := tag), tag, t);
    }
  }

  lemma {:induction false} StepAligned(m: Markers, f: Filter, before: seq<byte>, c: byte, t: seq<byte>)
    requires ValidMarkers(m) && Aligned(f, before)
    requires Valid(before + (f.tag + [c]) + t)
    ensures Aligned(Step(m, f, c), NewBefore(m, f, before, c))
  {
    if f.tag == [] && c != m.open[0] && c != m.close[0] {
      assert f.tag + [c] == [c];
      PlainStepAligned(m, f, before, c, t);
    } else {
      TagStepAligned(m, f, before, c, t);
    }
  }

  lemma {:induction false} MoveByte(a: seq<byte>, b: seq<byte>, s: seq<byte>)
    requires s != []
    ensures a + b + s == a + (b + [s[0]]) + s[1..]
  {
    assert s == [s[0]] + s[1..];
  }

  /** No byte is lost between the input and the tag buffer. */
  lemma {:induction false} NewBeforeKeeps(m: Markers, f: Filter, before: seq<byte>, c: byte)
    ensures NewBefore(m, f, before, c) + Step(m, f, c).tag == before + (f.tag + [c])
  {
  }

  lemma {:induction false} FeedAligned(m: Markers, f: Filter, before: seq<byte>, s: seq<byte>)
      returns (after: seq<byte>)
    requires ValidMarkers(m) && Aligned(f, before)
    requires Valid(before + f.tag + s)
    ensures Aligned(Feed(m, f, s), after)
    ensures after + Feed(m, f, s).tag == before + f.tag + s
    decreases s
  {
    if s == [] {
      after := before;
    } else {
      var c, t := s[0], s[1..];
      MoveByte(before, f.tag, s);
      StepAligned(m, f, before, c, t);
      NewBeforeKeeps(m, f, before, c);
      after := FeedAligned(m, Step(m, f, c), NewBefore(m, f, before, c), t);
    }
  }

  /** REQ-LOOP-008: for valid text and valid markers, however the text is
      chunked, every consumer callback is a whole number of code points -
      those made by the final flush included. */
  lemma {:induction false} CallbacksAreWholeCodePoints(m: Markers, chunks: seq<seq<byte>>)
    requires ValidMarkers(m) && Valid(Flatten(chunks))
    ensures AllValid(FeedChunks(m, Fresh, chunks).out)
    ensures AllValid(Flush(FeedChunks(m, Fresh, chunks)).out)
  {
    var s := Flatten(chunks);
    ChunkingIrrelevant(m, Fresh, chunks);
    assert [] + [] + s == s;
    var before := FeedAligned(m, Fresh, [], s);
    FlushAligned(Feed(m, Fresh, s), before);
  }

  lemma {:induction false} FlushAligned(f: Filter, before: seq<byte>)
    requires Aligned(f, before) && Valid(before + f.tag)
    ensures AllValid(Flush(f).out)
  {
    if f.tag == [] {
      assert before + f.tag == before;
      RestOfValid(before);
    } else if !f.inThink {
      ValidConcat(before, f.tag);
      assert [] + f.tag + [] == f.tag && [] + f.tag == f.tag;
      EmitAligned(f, f.tag, []);
      RestOfValid(f.tag);
    }
  }

  /** A streaming turn: one filter, every chunk through it, then the flush. */
  method StreamTurn(m: Markers, chunks: seq<seq<byte>>) returns (callbacks: seq<seq<byte>>)
    ensures callbacks == Flush(FeedChunks(m, Fresh, chunks)).out
    ensures ValidMarkers(m) && Valid(Flatten(chunks)) ==> AllValid(callbacks)
  {
    var filter := new StreamThinkFilter(m, false);
    for i := 0 to |chunks|
      invariant filter.markers == m
      invariant FeedChunks(m, filter.State(), chunks[i..]) == FeedChunks(m, Fresh, chunks)
    {
      filter.OnToken(chunks[i]);
      assert chunks[i..][1..] == chunks[i + 1..];
    }
    filter.FlushAll();
    callbacks := filter.out;
    if ValidMarkers(m) && Valid(Flatten(chunks)) {
      CallbacksAreWholeCodePoints(m, chunks);
    }
  }

  // ── Text without markers passes through ────────────────────────────

  predicate OccursAt(s: seq<byte>, m: seq<byte>, i: nat) {
    i + |m| <= |s| && s[i..i + |m|] == m
  }

  predicate Contains(s: seq<byte>, m: seq<byte>) {
    exists i :: 0 <= i <= |s| && OccursAt(s, m, i)
  }

  lemma {:induction false} FlattenSnoc(chunks: seq<seq<byte>>, c: seq<byte>)
    ensures Flatten(chunks + [c]) == Flatten(chunks) + c
  {
    if chunks != [] {
      assert (chunks + [c])[1..] == chunks[1..] + [c];
      FlattenSnoc(chunks[1..], c);
    }
  }

  /** The aligner delays bytes and neither loses nor reorders them. */
  lemma {:induction false} EmitKeepsText(f: Filter, data: seq<byte>)
    ensures Text(Emit(f, data)) == Text(f) + data
  {
    var buf := f.utf + data;
    var n := SafeLen(buf, 1);
    assert Text(f) + data == Flatten(f.out) + buf;
    if n > 0 {
      FlattenSnoc(f.out, buf[..n]);
      assert buf == buf[..n] + buf[n..];
      assert Flatten(f.out) + buf == Flatten(f.out) + buf[..n] + buf[n..];
    }
  }

  lemma {:induction false} FlushKeepsText(f: Filter)
    ensures Flatten(Flush(f).out) == Text(f) + if f.inThink then [] else f.tag
    ensures Flush(f).tag == [] && Flush(f).utf == [] && Flush(f).inThink == f.inThink
  {
    if f.tag != [] && !f.inThink { EmitKeepsText(f, f.tag); }
    var g := if f.tag != [] && !f.inThink then Emit(f, f.tag) else f;
    FlattenSnoc(g.out, g.utf);
  }

  lemma {:induction false} NoMarkerInvariant(m: Markers, p: seq<byte>, s: seq<byte>, f: Filter)
    requires !Contains(p + s, m.open) && !Contains(p + s, m.close)
    requires !f.inThink && Text(f) + f.tag == p
    ensures !Feed(m, f, s).inThink
    ensures Text(Feed(m, f, s)) + Feed(m, f, s).tag == p + s
    decreases s
  {
    if s == [] {
      assert p + s == p;
    } else {
      var c := s[0];
      assert p + [c] + s[1..] == p + s;
      var g := Step(m, f, c);
      var tag := f.tag + [c];
      var i := |Text(f)|;
      assert OccursAt(p + s, tag, i) by {
        assert p + s == Text(f) + tag + s[1..];
      }
      assert tag != m.open && tag != m.close;
      EmitKeepsText(f, [c]);
      EmitKeepsText(f.(tag := tag), tag);
      assert Text(g) + g.tag == p + [c];
      NoMarkerInvariant(m, p + [c], s[1..], g);
    }
  }

  /** Text that contains neither marker reaches the consumer unchanged. */
  lemma {:induction false} UnmarkedTextPassesThrough(m: Markers, s: seq<byte>)
    requires !Contains(s, m.open) && !Contains(s, m.close)
    ensures Flatten(Flush(Feed(m, Fresh, s)).out) == s
  {
    assert [] + s == s;
    NoMarkerInvariant(m, [], s, Fresh);
    FlushKeepsText(Feed(m, Fresh, s));
  }

  /** A marker that is empty is looked for by its terminator: a NUL outside a
      block is held back, and any byte that does not begin the other marker is
      not. */
  lemma {:induction false} EmptyMarkerHoldsNul(m: Markers, f: Filter, c: byte)
    requires m.open == [] && |m.close| >= 2 && f.tag == [] && !f.inThink && c != m.close[0]
    ensures Step(m, f, c) == if c == 0 then f.(tag := [0]) else Emit(f, [c])
  {
  }
}
