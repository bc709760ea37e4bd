/** Firing a list of hooks: each callback sees the text that the earlier ones
    made, and every buffer that a callback hands over is accounted for. */
module HookChains {
  import opened Messages
  import opened HookRegistry

  /** What a callback does with its input: it may throw, refuse with a non-zero
      code, and hand over a buffer with a modified text. */
  datatype Response = Response(throws: bool, code: int, modified: Option<string>)

  type Callbacks = (Entry, string) -> Response

  // ── Reference: each callback's input ───────────────────────────────

  /** The text a callback leaves to the next one. */
  function Next(f: Callbacks, e: Entry, text: string): string {
    var r := f(e, text);
    if !r.throws && r.modified.Some? then r.modified.value else text
  }

  /** The input of callback `i`: the fold of the callbacks before it. */
  function Input(f: Callbacks, es: seq<Entry>, context: string, i: nat): string
    requires i <= |es|
  {
    if i == 0 then context else Next(f, es[i - 1], Input(f, es, context, i - 1))
  }

  predicate Refuses(f: Callbacks, es: seq<Entry>, context: string, i: nat)
    requires i < |es|
  {
    var r := f(es[i], Input(f, es, context, i));
    !r.throws && r.code != 0
  }

  /** Callback `i` returns and hands over a buffer. */
  predicate Hands(f: Callbacks, es: seq<Entry>, context: string, i: nat)
    requires i < |es|
  {
    var r := f(es[i], Input(f, es, context, i));
    !r.throws && r.modified.Some?
  }

  /** The first `n` callbacks proceed. */
  ghost predicate Proceed(f: Callbacks, es: seq<Entry>, context: string, n: nat)
    requires n <= |es|
  {
    forall i :: 0 <= i < n ==> !Refuses(f, es, context, i)
  }

  /** The last of the first `n` callbacks that handed over a buffer. */
  function Holder(f: Callbacks, es: seq<Entry>, context: string, n: nat): (h: Option<nat>)
    requires n <= |es|
    ensures h.Some? ==> h.value < n && Hands(f, es, context, h.value)
    ensures forall i :: (if h.Some? then h.value + 1 else 0) <= i < n ==> !Hands(f, es, context, i)
  {
    if n == 0 then None
    else if Hands(f, es, context, n - 1) then Some(n - 1)
    else Holder(f, es, context, n - 1)
  }

  /** Every buffer handed over by the first `n` callbacks was freed once or is
      held, and no other buffer was freed. */
  ghost predicate Balanced(f: Callbacks, es: seq<Entry>, context: string, n: nat, freed: multiset<nat>,
                           held: Option<nat>)
    requires n <= |es|
  {
    && (forall b :: b in freed ==> b < n)
    && (held.Some? ==> held.value < n)
    && forall b: nat :: b < n ==>
         freed[b] + (if held == Some(b) then 1 else 0) == if Hands(f, es, context, b) then 1 else 0
  }

  /** `held` and `acc` are the buffer in hand and its text after `n` callbacks. */
  ghost predicate Tracks(f: Callbacks, es: seq<Entry>, context: string, n: nat, held: Option<nat>, acc: Option<string>)
    requires n <= |es|
  {
    && held == Holder(f, es, context, n)
    && acc == (if held.Some? then Some(Input(f, es, context, n)) else None)
    && (held.None? ==> Input(f, es, context, n) == context)
  }

  lemma {:induction false} TracksStep(f: Callbacks, es: seq<Entry>, context: string, n: nat, held: Option<nat>,
                                      acc: Option<string>)
    requires n < |es| && Tracks(f, es, context, n, held, acc)
    ensures
      var r := f(es[n], Input(f, es, context, n));
      if Hands(f, es, context, n) then Tracks(f, es, context, n + 1, Some(n), r.modified)
      else Tracks(f, es, context, n + 1, held, acc)
  {
  }

  // ── The chains ─────────────────────────────────────────────────────

  function Freeing(freed: multiset<nat>, held: Option<nat>): multiset<nat> {
    if held.Some? then freed + multiset{held.value} else freed
  }

  /** One more callback: a new buffer takes the place of the one held. */
  lemma {:induction false} BalancedStep(f: Callbacks, es: seq<Entry>, context: string, n: nat,
                                        freed: multiset<nat>, held: Option<nat>)
    requires n < |es| && Balanced(f, es, context, n, freed, held)
    ensures
      if Hands(f, es, context, n) then Balanced(f, es, context, n + 1, Freeing(freed, held), Some(n))
      else Balanced(f, es, context, n + 1, freed, held)
  {
  }

  /** A refusal: whatever is held and what was just handed over are freed. */
  lemma {:induction false} BalancedRefusal(f: Callbacks, es: seq<Entry>, context: string, n: nat,
                                           freed: multiset<nat>, held: Option<nat>)
    requires n < |es| && Balanced(f, es, context, n, freed, held)
    ensures
      Balanced(f, es, context, n + 1,
               Freeing(Freeing(freed, held), if Hands(f, es, context, n) then Some(n) else None), None)
  {
    BalancedStep(f, es, context, n, freed, held);
  }

  /** Where a chain stands after `n` callbacks, none of which refused: the buffer
      `held` and its text `acc` are those of the fold. */
  ghost predicate Chained(f: Callbacks, es: seq<Entry>, context: string, n: nat,
                          freed: multiset<nat>, held: Option<nat>, acc: Option<string>)
    requires n <= |es|
  {
    Proceed(f, es, context, n) && Balanced(f, es, context, n, freed, held) && Tracks(f, es, context, n, held, acc)
  }

  lemma {:induction false} ChainStep(f: Callbacks, es: seq<Entry>, context: string, n: nat,
                                     freed: multiset<nat>, held: Option<nat>, acc: Option<string>)
    requires n < |es| && Chained(f, es, context, n, freed, held, acc)
    ensures Input(f, es, context, n) == if acc.Some? then acc.value else context
    ensures
      var r := f(es[n], Input(f, es, context, n));
      && (r.throws ==> Chained(f, es, context, n + 1, freed, held, acc))
      && (!r.throws && r.code == 0 ==>
            if r.modified.Some? then Chained(f, es, context, n + 1, Freeing(freed, held), Some(n), r.modified)
            else Chained(f, es, context, n + 1, freed, held, acc))
  {
    TracksStep(f, es, context, n, held, acc);
    BalancedStep(f, es, context, n, freed, held);
  }

  /** Callback `n` is the first to refuse, with `code`, and all buffers handed
      over by then are freed. */
  ghost predicate RefusedAt(f: Callbacks, es: seq<Entry>, context: string, n: nat, code: int, freed: multiset<nat>)
    requires n < |es|
  {
    && Proceed(f, es, context, n) && Refuses(f, es, context, n)
    && code == f(es[n], Input(f, es, context, n)).code
    && Balanced(f, es, context, n + 1, freed, None)
  }

  /** One callback of fire_pre. */
  method CallPre(f: Callbacks, es: seq<Entry>, context: string, n: nat,
                 freed: multiset<nat>, held: Option<nat>, acc: Option<string>)
      returns (code: int, freed': multiset<nat>, held': Option<nat>, acc': Option<string>)
    requires n < |es| && Chained(f, es, context, n, freed, held, acc)
    ensures code == 0 ==> Chained(f, es, context, n + 1, freed', held', acc')
    ensures code != 0 ==> RefusedAt(f, es, context, n, code, freed') && held' == None && acc' == None
  {
    var input := if acc.Some? then acc.value else context;
    var r := f(es[n], input);
    ChainStep(f, es, context, n, freed, held, acc);
    if r.throws { return 0, freed, held, acc; }
    if r.code != 0 {
      BalancedRefusal(f, es, context, n, freed, held);
      freed' := Freeing(Freeing(freed, held), if r.modified.Some? then Some(n) else None);
      return r.code, freed', None, None;
    }
    if r.modified.None? { return 0, freed, held, acc; }
    return 0, Freeing(freed, held), Some(n), r.modified;
  }

  /** fire_pre: the fold of the callbacks cut at the first refusal. `handed` is
      the buffer given to the caller, `freed` those freed, `ran` the callbacks
      that were called. */
  method FirePre(f: Callbacks, es: seq<Entry>, context: string)
      returns (code: int, out: Option<string>, handed: Option<nat>, freed: multiset<nat>, ran: nat)
    ensures code == 0 ==> ran == |es| && Chained(f, es, context, |es|, freed, handed, out)
    ensures code != 0 ==>
      0 < ran <= |es| && RefusedAt(f, es, context, ran - 1, code, freed) && out == None && handed == None
  {
    code, out, handed, freed, ran := 0, None, None, multiset{}, 0;
    while ran < |es|
      invariant ran <= |es| && code == 0
      invariant Chained(f, es, context, ran, freed, handed, out)
    {
      code, freed, handed, out := CallPre(f, es, context, ran, freed, handed, out);
      ran := ran + 1;
      if code != 0 { return; }
    }
  }

  /** fire_post: the same fold, in which codes do not matter. */
  method FirePost(f: Callbacks, es: seq<Entry>, context: string)
      returns (out: Option<string>, handed: Option<nat>, freed: multiset<nat>)
    ensures Balanced(f, es, context, |es|, freed, handed)
    ensures handed == Holder(f, es, context, |es|)
    ensures out == if handed.Some? then Some(Input(f, es, context, |es|)) else None
  {
    var accumulated: Option<string> := None;
    handed, freed := None, multiset{};
    for n := 0 to |es|
      invariant Balanced(f, es, context, n, freed, handed)
      invariant Tracks(f, es, context, n, handed, accumulated)
    {
      var input := if accumulated.Some? then accumulated.value else context;
      var r := f(es[n], input);
      TracksStep(f, es, context, n, handed, accumulated);
      BalancedStep(f, es, context, n, freed, handed);
      if !r.throws && r.modified.Some? {
        freed := Freeing(freed, handed);
        accumulated, handed := r.modified, Some(n);
      }
    }
    out := accumulated;
  }

  /** fire_info: every callback sees the context, and every buffer is freed
      once, even one left by a callback that throws. */
  method FireInfo(f: Callbacks, es: seq<Entry>, context: string) returns (freed: multiset<nat>)
    ensures forall b: nat :: freed[b] == if b < |es| && f(es[b], context).modified.Some? then 1 else 0
  {
    freed := multiset{};
    for n := 0 to |es|
      invariant forall b :: b in freed ==> b < n
      invariant forall b: nat :: freed[b] == if b < n && f(es[b], context).modified.Some? then 1 else 0
    {
      var r := f(es[n], context);
      if r.modified.Some? {
        freed := freed + multiset{n};
      }
    }
  }

  /** How many of the first `n` callbacks set a buffer, and how many of those
      threw. */
  function BuffersSet(f: Callbacks, es: seq<Entry>, context: string, n: nat): nat
    requires n <= |es|
  {
    if n == 0 then 0
    else BuffersSet(f, es, context, n - 1) +
         if f(es[n - 1], Input(f, es, context, n - 1)).modified.Some? then 1 else 0
  }

  function BuffersLeaked(f: Callbacks, es: seq<Entry>, context: string, n: nat): nat
    requires n <= |es|
  {
    if n == 0 then 0
    else
      var r := f(es[n - 1], Input(f, es, context, n - 1));
      BuffersLeaked(f, es, context, n - 1) + if r.modified.Some? && r.throws then 1 else 0
  }

  /** Over a whole chain of fire_pre or fire_post, every buffer set is freed,
      handed out or leaked, and the leaked ones are those of the callbacks that
      threw. */
  lemma {:induction false} LeaksAreCounted(f: Callbacks, es: seq<Entry>, context: string, n: nat,
                                           freed: multiset<nat>, held: Option<nat>)
    requires n <= |es| && Balanced(f, es, context, n, freed, held)
    ensures BuffersSet(f, es, context, n) ==
            |freed| + (if held.Some? then 1 else 0) + BuffersLeaked(f, es, context, n)
    decreases n
  {
    if n == 0 {
      assert freed == multiset{};
    } else {
      var k := n - 1;
      var freed', held' := freed[k := 0], if held == Some(k) then None else held;
      assert |freed| == |freed'| + freed[k];
      assert Hands(f, es, context, k) <==> freed[k] + (if held == Some(k) then 1 else 0) == 1;
      LeaksAreCounted(f, es, context, k, freed', held');
    }
  }

  /** In fire_pre and fire_post, a buffer that a callback sets is freed or handed
      out if and only if the callback does not throw. */
  lemma {:induction false} ThrownBufferLeaks(f: Callbacks, es: seq<Entry>, context: string, n: nat,
                                             freed: multiset<nat>, held: Option<nat>, b: nat)
    requires n <= |es| && Balanced(f, es, context, n, freed, held)
    requires b < n && f(es[b], Input(f, es, context, b)).modified.Some?
    ensures b in freed || held == Some(b) <==> !f(es[b], Input(f, es, context, b)).throws
  {
    assert Hands(f, es, context, b) <==> !f(es[b], Input(f, es, context, b)).throws;
  }
}
