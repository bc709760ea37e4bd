/** Hook lists kept in order, and the chains that run them. */
module HookRegistry {
  /** One registration. `stamp` numbers the registrations of a list and is
      never read by it. */
  datatype Entry = Entry(callback: nat, userData: nat, priority: int, stamp: nat)

  /** Lower priority first; among equals the later registration first. */
  predicate Before(a: Entry, b: Entry) {
    a.priority < b.priority || (a.priority == b.priority && a.stamp > b.stamp)
  }

  ghost predicate Sorted(es: seq<Entry>) {
    forall i, j :: 0 <= i < j < |es| ==> Before(es[i], es[j])
  }

  ghost predicate Stamped(es: seq<Entry>, next: nat) {
    forall e :: e in es ==> e.stamp < next
  }

  predicate Matches(e: Entry, callback: nat, userData: nat) {
    e.callback == callback && e.userData == userData
  }

  // ── The lists ──────────────────────────────────────────────────────

  /** Where the binary search of a sorted list ends. */
  ghost predicate IsLowerBound(es: seq<Entry>, priority: int, pos: nat) {
    && pos <= |es|
    && (forall i :: 0 <= i < pos ==> es[i].priority < priority)
    && (forall i :: pos <= i < |es| ==> es[i].priority >= priority)
  }

  method LowerBound(es: seq<Entry>, priority: int) returns (pos: nat)
    requires Sorted(es)
    ensures IsLowerBound(es, priority, pos)
  {
    pos := 0;
    var count := |es|;
    while count > 0
      invariant 0 <= count && pos + count <= |es|
      invariant forall i :: 0 <= i < pos ==> es[i].priority < priority
      invariant forall i :: pos + count <= i < |es| ==> es[i].priority >= priority
    {
      var half := count / 2;
      if es[pos + half].priority < priority {
        pos, count := pos + half + 1, count - half - 1;
      } else {
        count := half;
      }
    }
  }

  /** A list with `e` put before the first entry of at least its priority. */
  function Insert(es: seq<Entry>, e: Entry): seq<Entry> {
    if es == [] || es[0].priority >= e.priority then [e] + es else [es[0]] + Insert(es[1..], e)
  }

  /** A list without the first entry that matches. */
  function Remove(es: seq<Entry>, callback: nat, userData: nat): seq<Entry> {
    if es == [] then []
    else if Matches(es[0], callback, userData) then es[1..]
    else [es[0]] + Remove(es[1..], callback, userData)
  }

  lemma {:induction false} InsertAt(es: seq<Entry>, e: Entry, pos: nat)
    requires IsLowerBound(es, e.priority, pos)
    ensures Insert(es, e) == es[..pos] + [e] + es[pos..]
  {
    if es != [] && es[0].priority < e.priority {
      assert pos > 0;
      InsertAt(es[1..], e, pos - 1);
      DropFirst(es, e, pos);
    } else {
      assert pos == 0;
    }
  }

  lemma {:induction false} DropFirst(es: seq<Entry>, e: Entry, pos: nat)
    requires 0 < pos <= |es|
    ensures [es[0]] + (es[1..][..pos - 1] + [e] + es[1..][pos - 1..]) == es[..pos] + [e] + es[pos..]
  {
    assert es[1..][pos - 1..] == es[pos..];
    assert [es[0]] + es[1..][..pos - 1] == es[..pos];
  }

  lemma {:induction false} InsertAdds(es: seq<Entry>, e: Entry)
    ensures forall x :: x in Insert(es, e) <==> x in es || x == e
  {
    if es != [] && es[0].priority < e.priority { InsertAdds(es[1..], e); }
  }

  lemma {:induction false} ConsSorted(e: Entry, es: seq<Entry>)
    requires Sorted(es) && forall x :: x in es ==> Before(e, x)
    ensures Sorted([e] + es)
  {
  }

  lemma {:induction false} InsertKeepsSorted(es: seq<Entry>, e: Entry)
    requires Sorted(es) && Stamped(es, e.stamp)
    ensures Sorted(Insert(es, e))
  {
    if es == [] || es[0].priority >= e.priority {
      forall x | x in es ensures Before(e, x) {
        var i :| 0 <= i < |es| && es[i] == x;
        assert i > 0 ==> Before(es[0], es[i]);
      }
      ConsSorted(e, es);
    } else {
      InsertKeepsSorted(es[1..], e);
      InsertAdds(es[1..], e);
      ConsSorted(es[0], Insert(es[1..], e));
    }
  }

  lemma {:induction false} RemoveIsPart(es: seq<Entry>, callback: nat, userData: nat)
    ensures forall x :: x in Remove(es, callback, userData) ==> x in es
  {
    if es != [] && !Matches(es[0], callback, userData) { RemoveIsPart(es[1..], callback, userData); }
  }

  lemma {:induction false} RemoveKeepsSorted(es: seq<Entry>, callback: nat, userData: nat)
    requires Sorted(es)
    ensures Sorted(Remove(es, callback, userData))
  {
    if es != [] && !Matches(es[0], callback, userData) {
      RemoveKeepsSorted(es[1..], callback, userData);
      RemoveIsPart(es[1..], callback, userData);
      forall x | x in Remove(es[1..], callback, userData) ensures Before(es[0], x) {
        var i :| 0 <= i < |es[1..]| && es[1..][i] == x;
        assert es[i + 1] == x;
      }
    }
  }

  // ── Any sequence of registrations and deregistrations ──────────────

  datatype Op = Register(callback: nat, userData: nat, priority: int) | Deregister(callback: nat, userData: nat)

  datatype Hooks = Hooks(entries: seq<Entry>, next: nat)

  function Apply(h: Hooks, op: Op): Hooks {
    match op
    case Register(c, u, p) => Hooks(Insert(h.entries, Entry(c, u, p, h.next)), h.next + 1)
    case Deregister(c, u) => h.(entries := Remove(h.entries, c, u))
  }

  function ApplyAll(h: Hooks, ops: seq<Op>): Hooks
    decreases ops
  {
    if ops == [] then h else ApplyAll(Apply(h, ops[0]), ops[1..])
  }

  ghost predicate Valid(h: Hooks) {
    Sorted(h.entries) && Stamped(h.entries, h.next)
  }

  /** The registrations in force, as a set: a deregistration takes away the
      first match in firing order. */
  ghost predicate IsFirstMatch(in_force: set<Entry>, e: Entry, callback: nat, userData: nat) {
    && e in in_force && Matches(e, callback, userData)
    && forall x :: x in in_force && Matches(x, callback, userData) && x != e ==> Before(e, x)
  }

  /** `after` is what `op` makes of the registrations `before`. */
  ghost predicate Effect(before: set<Entry>, op: Op, stamp: nat, after: set<Entry>) {
    match op
    case Register(c, u, p) => after == before + {Entry(c, u, p, stamp)}
    case Deregister(c, u) =>
      if exists e :: e in before && Matches(e, c, u) then
        exists e :: IsFirstMatch(before, e, c, u) && after == before - {e}
      else after == before
  }

  function InForce(es: seq<Entry>): set<Entry> {
    set e | e in es
  }

  lemma {:induction false} RemoveTakesFirst(es: seq<Entry>, c: nat, u: nat)
    requires Sorted(es)
    ensures Effect(InForce(es), Deregister(c, u), 0, InForce(Remove(es, c, u)))
  {
    if exists e :: e in InForce(es) && Matches(e, c, u) {
      var k := FirstMatch(es, c, u);
      RemoveAt(es, c, u, k);
      assert es[k] in es;
      forall x | x in InForce(es) && Matches(x, c, u) && x != es[k] ensures Before(es[k], x) {
        var j :| 0 <= j < |es| && es[j] == x;
        assert j > k;
      }
      assert IsFirstMatch(InForce(es), es[k], c, u);
      CutOut(es, k);
    } else {
      NothingRemoved(es, c, u);
    }
  }

  lemma {:induction false} CutOut(es: seq<Entry>, k: nat)
    requires Sorted(es) && k < |es|
    ensures InForce(es[..k] + es[k + 1..]) == InForce(es) - {es[k]}
  {
    var rest := es[..k] + es[k + 1..];
    forall x | x in InForce(es) - {es[k]} ensures x in InForce(rest) {
      var j :| 0 <= j < |es| && es[j] == x;
      assert x == rest[if j < k then j else j - 1];
    }
    forall x | x in InForce(rest) ensures x in InForce(es) - {es[k]} {
      var j :| 0 <= j < |rest| && rest[j] == x;
      assert x == es[if j < k then j else j + 1];
      assert Before(x, es[k]) || Before(es[k], x);
    }
  }

  lemma {:induction false} FirstMatch(es: seq<Entry>, c: nat, u: nat) returns (k: nat)
    requires exists e :: e in es && Matches(e, c, u)
    ensures k < |es| && Matches(es[k], c, u) && forall j :: 0 <= j < k ==> !Matches(es[j], c, u)
  {
    k := 0;
    while k < |es| && !Matches(es[k], c, u)
      invariant k <= |es| && forall j :: 0 <= j < k ==> !Matches(es[j], c, u)
    {
      k := k + 1;
    }
  }

  lemma {:induction false} RemoveAt(es: seq<Entry>, c: nat, u: nat, k: nat)
    requires k < |es| && Matches(es[k], c, u) && forall j :: 0 <= j < k ==> !Matches(es[j], c, u)
    ensures Remove(es, c, u) == es[..k] + es[k + 1..]
  {
    if k > 0 {
      RemoveAt(es[1..], c, u, k - 1);
      assert es[..k] == [es[0]] + es[1..][..k - 1];
      assert es[k + 1..] == es[1..][k..];
    }
  }

  lemma {:induction false} NothingRemoved(es: seq<Entry>, c: nat, u: nat)
    requires forall e :: e in es ==> !Matches(e, c, u)
    ensures Remove(es, c, u) == es
  {
    if es != [] {
      assert es[0] in es;
      NothingRemoved(es[1..], c, u);
    }
  }

  lemma {:induction false} StepKeepsValid(h: Hooks, op: Op)
    requires Valid(h)
    ensures Valid(Apply(h, op))
    ensures Effect(InForce(h.entries), op, h.next, InForce(Apply(h, op).entries))
  {
    match op
    case Register(c, u, p) =>
      var e := Entry(c, u, p, h.next);
      InsertKeepsSorted(h.entries, e);
      InsertAdds(h.entries, e);
      assert InForce(Insert(h.entries, e)) == InForce(h.entries) + {e};
    case Deregister(c, u) =>
      RemoveKeepsSorted(h.entries, c, u);
      RemoveIsPart(h.entries, c, u);
      RemoveTakesFirst(h.entries, c, u);
  }

  /** After any registrations and deregistrations the list is sorted by
      priority, with the later registration first among equals. */
  lemma {:induction false} ListsStaySorted(h: Hooks, ops: seq<Op>)
    requires Valid(h)
    ensures Valid(ApplyAll(h, ops))
    decreases ops
  {
    if ops != [] {
      StepKeepsValid(h, ops[0]);
      ListsStaySorted(Apply(h, ops[0]), ops[1..]);
    }
  }

  /** The order leaves no choice: registrations in force determine the list. */
  lemma {:induction false} OrderIsUnique(a: seq<Entry>, b: seq<Entry>)
    requires Sorted(a) && Sorted(b) && InForce(a) == InForce(b)
    ensures a == b
  {
    NoneInForce(a);
    NoneInForce(b);
    if a != [] {
      assert a[0] in InForce(b) && b[0] in InForce(a);
      FirstIsLeast(a, b[0]);
      FirstIsLeast(b, a[0]);
      forall x ensures x in InForce(a[1..]) <==> x in InForce(b[1..]) {
        TailOf(a, x);
        TailOf(b, x);
      }
      OrderIsUnique(a[1..], b[1..]);
    }
  }

  lemma {:induction false} NoneInForce(es: seq<Entry>)
    ensures es == [] <==> InForce(es) == {}
  {
    if es != [] { assert es[0] in InForce(es); }
  }

  lemma {:induction false} FirstIsLeast(es: seq<Entry>, x: Entry)
    requires Sorted(es) && x in es
    ensures x == es[0] || Before(es[0], x)
  {
    var i :| 0 <= i < |es| && es[i] == x;
    assert i > 0 ==> Before(es[0], es[i]);
  }

  lemma {:induction false} TailOf(es: seq<Entry>, x: Entry)
    requires Sorted(es) && es != []
    ensures x in InForce(es[1..]) <==> x in InForce(es) && x != es[0]
  {
    if x in InForce(es) && x != es[0] {
      var i :| 0 <= i < |es| && es[i] == x;
      assert es[1..][i - 1] == x;
    }
    if x in InForce(es[1..]) {
      var i :| 0 <= i < |es[1..]| && es[1..][i] == x;
      assert x == es[i + 1] && Before(es[0], es[i + 1]);
    }
  }

  // ── What a list holds after a run ──────────────────────────────────

  predicate Same(e: Entry, callback: nat, userData: nat) {
    e.callback == callback && e.userData == userData
  }

  /** A deregistration undoes the last registration of a callback with its user
      data, unless an earlier one is of lower priority, which goes first. */
  lemma {:induction false} DeregisterUndoesRegister(es: seq<Entry>, e: Entry)
    requires forall x :: x in es && x.priority < e.priority ==> !Same(x, e.callback, e.userData)
    ensures Remove(Insert(es, e), e.callback, e.userData) == es
  {
    var list := Insert(es, e);
    if es == [] || es[0].priority >= e.priority {
      assert list[0] == e && list[1..] == es;
    } else {
      assert list[0] == es[0] && list[1..] == Insert(es[1..], e);
      DeregisterUndoesRegister(es[1..], e);
    }
  }

  /** It takes away no other callback, nor the same with other user data. */
  lemma {:induction false} OthersStay(es: seq<Entry>, callback: nat, userData: nat, e: Entry)
    requires e in es && !Same(e, callback, userData)
    ensures e in Remove(es, callback, userData)
  {
    if !Matches(es[0], callback, userData) && e != es[0] { OthersStay(es[1..], callback, userData, e); }
  }

  lemma {:induction false} RegistrationStays(h: Hooks, ops: seq<Op>, e: Entry)
    requires e in h.entries && forall op :: op in ops ==> op != Deregister(e.callback, e.userData)
    ensures e in ApplyAll(h, ops).entries
    decreases ops
  {
    if ops != [] {
      var first := ops[0];
      assert first in ops && forall op :: op in ops[1..] ==> op in ops;
      match first {
        case Register(c, u, p) => InsertAdds(h.entries, Entry(c, u, p, h.next));
        case Deregister(c, u) => OthersStay(h.entries, c, u, e);
      }
      RegistrationStays(Apply(h, ops[0]), ops[1..], e);
    }
  }

  /** After any run, a callback is listed that was registered in it and not
      deregistered since. */
  lemma {:induction false} RegisteredIsListed(h: Hooks, ops: seq<Op>, k: nat) returns (e: Entry)
    requires k < |ops| && ops[k].Register?
    requires forall j :: k < j < |ops| ==> ops[j] != Deregister(ops[k].callback, ops[k].userData)
    ensures e in ApplyAll(h, ops).entries
    ensures Same(e, ops[k].callback, ops[k].userData) && e.priority == ops[k].priority
    decreases k
  {
    if k == 0 {
      e := Entry(ops[0].callback, ops[0].userData, ops[0].priority, h.next);
      InsertAdds(h.entries, e);
      assert forall j :: 0 <= j < |ops[1..]| ==> ops[1..][j] == ops[j + 1];
      RegistrationStays(Apply(h, ops[0]), ops[1..], e);
    } else {
      e := RegisteredIsListed(Apply(h, ops[0]), ops[1..], k - 1);
    }
  }

  /** find_if and erase. */
  method Erased(es: seq<Entry>, callback: nat, userData: nat) returns (left: seq<Entry>)
    ensures left == Remove(es, callback, userData)
  {
    for k := 0 to |es|
      invariant forall j :: 0 <= j < k ==> !Matches(es[j], callback, userData)
    {
      if Matches(es[k], callback, userData) {
        RemoveAt(es, callback, userData, k);
        return es[..k] + es[k + 1..];
      }
    }
    NothingRemoved(es, callback, userData);
    left := es;
  }

  class Registry {
    var entries: seq<Entry>
    var next: nat

    ghost predicate IsValid()
      reads this
    {
      Valid(View())
    }

    ghost function View(): Hooks
      reads this
    {
      Hooks(entries, next)
    }

    constructor ()
      ensures IsValid() && View() == Hooks([], 0)
    {
      entries, next := [], 0;
    }

    method RegisterHook(callback: nat, userData: nat, priority: int)
      requires IsValid()
      modifies this
      ensures IsValid() && View() == Apply(old(View()), Register(callback, userData, priority))
    {
      StepKeepsValid(View(), Register(callback, userData, priority));
      var entry := Entry(callback, userData, priority, next);
      var pos := LowerBound(entries, priority);
      InsertAt(entries, entry, pos);
      entries := entries[..pos] + [entry] + entries[pos..];
      next := next + 1;
    }

    method DeregisterHook(callback: nat, userData: nat)
      requires IsValid()
      modifies this
      ensures IsValid() && View() == Apply(old(View()), Deregister(callback, userData))
    {
      StepKeepsValid(View(), Deregister(callback, userData));
      var left := Erased(entries, callback, userData);
      entries := left;
    }
  }
}
