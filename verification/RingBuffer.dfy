/** The finalizing ring buffer that keeps the latest messages: a bounded deque that hands every element it drops to a
    finalizer. */
module RingBuffer {
  import opened Wrappers

  // -- The specification: a deque of at most cap items, and the elements finalized so far --

  datatype Deque<T> = Deque(items: seq<T>, finalized: seq<T>)

  // Clear carries what the slots hold, which matters when the buffer is empty.
  datatype Op<T> = PushFront(x: T) | PushBack(x: T) | PopFront | PopBack | Clear(slots: seq<T>)

  function Apply<T>(d: Deque<T>, op: Op<T>, cap: nat): Deque<T>
    requires 0 < cap && |d.items| <= cap
  {
    var n := |d.items|;
    match op
    case PushBack(x) =>
      if n < cap then d.(items := d.items + [x]) else Deque(d.items[1..] + [x], d.finalized + [d.items[0]])
    case PushFront(x) =>
      if n < cap then d.(items := [x] + d.items) else Deque([x] + d.items[..n - 1], d.finalized + [d.items[n - 1]])
    case PopFront => if n == 0 then d else Deque(d.items[1..], d.finalized + [d.items[0]])
    case PopBack => if n == 0 then d else Deque(d.items[..n - 1], d.finalized + [d.items[n - 1]])
    case Clear(slots) => Deque([], d.finalized + if n == 0 then slots else d.items)
  }

  // Every clear states the contents of all slots.
  predicate OpOk<T>(op: Op<T>, cap: nat) { op.Clear? ==> |op.slots| == cap }

  function Run<T>(ops: seq<Op<T>>, cap: nat): (d: Deque<T>)
    requires 0 < cap
    ensures |d.items| <= cap
  {
    if ops == [] then Deque([], []) else Apply(Run(ops[..|ops| - 1], cap), ops[|ops| - 1], cap)
  }

  // What an operation adds: the pushed element, or the slots of an empty buffer.
  function PushedBy<T>(op: Op<T>): seq<T> { if op.PushFront? || op.PushBack? then [op.x] else [] }

  function StaleBy<T>(d: Deque<T>, op: Op<T>): seq<T> { if op.Clear? && d.items == [] then op.slots else [] }

  function All<T>(d: Deque<T>): multiset<T> { multiset(d.items) + multiset(d.finalized) }

  // The elements pushed in a run, in order.
  function Pushed<T>(ops: seq<Op<T>>): seq<T> {
    if ops == [] then []
    else
      var last := ops[|ops| - 1];
      Pushed(ops[..|ops| - 1]) + PushedBy(last)
  }

  predicate ClearsEmpty<T>(ops: seq<Op<T>>, cap: nat, i: nat)
    requires 0 < cap
  {
    i < |ops| && ops[i].Clear? && Run(ops[..i], cap).items == []
  }

  // The slots that clearing an empty buffer finalizes although they hold no element.
  function Stale<T>(ops: seq<Op<T>>, cap: nat): seq<T>
    requires 0 < cap
  {
    if ops == [] then []
    else
      var before, last := ops[..|ops| - 1], ops[|ops| - 1];
      Stale(before, cap) + StaleBy(Run(before, cap), last)
  }

  lemma TakeOut<T>(s: seq<T>)
    requires s != []
    ensures multiset(s) == multiset([s[0]]) + multiset(s[1..])
    ensures multiset(s) == multiset(s[..|s| - 1]) + multiset([s[|s| - 1]])
  {
    assert s == [s[0]] + s[1..];
    assert s == s[..|s| - 1] + [s[|s| - 1]];
  }

  // Dropping item x, if any, for the finalizer and taking in item y, if any.
  lemma Exchange<T>(items: seq<T>, rest: seq<T>, x: seq<T>, y: seq<T>, finalized: seq<T>, items2: seq<T>)
    requires multiset(items) == multiset(rest) + multiset(x)
    requires multiset(items2) == multiset(rest) + multiset(y)
    ensures multiset(items2) + multiset(finalized + x) == multiset(items) + multiset(finalized) + multiset(y)
  {
  }

  lemma PushBalances<T>(d: Deque<T>, op: Op<T>, cap: nat)
    requires 0 < cap && |d.items| <= cap && (op.PushFront? || op.PushBack?)
    ensures All(Apply(d, op, cap)) == All(d) + multiset([op.x])
  {
    var n := |d.items|;
    if n == cap {
      TakeOut(d.items);
      if op.PushBack? {
        Exchange(d.items, d.items[1..], [d.items[0]], [op.x], d.finalized, d.items[1..] + [op.x]);
      } else {
        Exchange(d.items, d.items[..n - 1], [d.items[n - 1]], [op.x], d.finalized, [op.x] + d.items[..n - 1]);
      }
    }
  }

  lemma PopBalances<T>(d: Deque<T>, op: Op<T>, cap: nat)
    requires 0 < cap && |d.items| <= cap && (op.PopFront? || op.PopBack?)
    ensures All(Apply(d, op, cap)) == All(d)
  {
    if d.items != [] { TakeOut(d.items); }
  }

  // Each operation moves elements between the buffer and the finalized, and adds what it pushes.
  lemma ApplyBalances<T>(d: Deque<T>, op: Op<T>, cap: nat)
    requires 0 < cap && |d.items| <= cap
    ensures All(Apply(d, op, cap)) == All(d) + multiset(PushedBy(op)) + multiset(StaleBy(d, op))
  {
    if op.PushFront? || op.PushBack? {
      PushBalances(d, op, cap);
    } else if op.PopFront? || op.PopBack? {
      PopBalances(d, op, cap);
    }
  }

  function Reversed<T>(s: seq<T>): (r: seq<T>)
    ensures |r| == |s| && forall k | 0 <= k < |s| :: r[k] == s[|s| - 1 - k]
  {
    if s == [] then [] else Reversed(s[1..]) + [s[0]]
  }

  // The same operation at the other end.
  function Flipped<T>(op: Op<T>): Op<T> {
    match op
    case PushFront(x) => PushBack(x)
    case PushBack(x) => PushFront(x)
    case PopFront => PopBack
    case PopBack => PopFront
    case Clear(slots) => Clear(Reversed(slots))
  }

  lemma SameReversed<T>(s: seq<T>, r: seq<T>)
    requires |r| == |s| && forall k | 0 <= k < |s| :: r[k] == s[|s| - 1 - k]
    ensures r == Reversed(s)
  {
  }

  /** The two ends mirror each other: an operation at one end of the reversed buffer leaves the reversed result of the
      operation at the other end, and finalizes the same element. */
  lemma EndsMirror<T>(d: Deque<T>, op: Op<T>, cap: nat)
    requires 0 < cap && |d.items| <= cap && !op.Clear?
    ensures Apply(Deque(Reversed(d.items), d.finalized), Flipped(op), cap)
         == Deque(Reversed(Apply(d, op, cap).items), Apply(d, op, cap).finalized)
  {
    var d2 := Apply(Deque(Reversed(d.items), d.finalized), Flipped(op), cap);
    SameReversed(Apply(d, op, cap).items, d2.items);
  }

  /** What is pushed at an end of a buffer with room is what is popped from that end next, and the rest is as before. */
  lemma PushThenPop<T>(d: Deque<T>, x: T, cap: nat)
    requires 0 < cap && |d.items| < cap
    ensures Apply(Apply(d, PushBack(x), cap), PopBack, cap) == Deque(d.items, d.finalized + [x])
    ensures Apply(Apply(d, PushFront(x), cap), PopFront, cap) == Deque(d.items, d.finalized + [x])
  {
    assert ([x] + d.items)[1..] == d.items;
  }

  // Popping n elements from the front.
  function PopMany<T>(d: Deque<T>, n: nat, cap: nat): Deque<T>
    requires 0 < cap && |d.items| <= cap
    decreases n
  {
    if n == 0 then d else PopMany(Apply(d, PopFront, cap), n - 1, cap)
  }

  /** Clearing a buffer that is not empty is popping all its elements from the front. */
  lemma {:induction false} ClearPopsAll<T>(d: Deque<T>, slots: seq<T>, cap: nat)
    requires 0 < cap && 0 < |d.items| <= cap
    ensures Apply(d, Clear(slots), cap) == PopMany(d, |d.items|, cap)
    decreases |d.items|
  {
    var d1 := Apply(d, PopFront, cap);
    if |d.items| > 1 {
      ClearPopsAll(d1, slots, cap);
      assert d.items == [d.items[0]] + d.items[1..];
    } else {
      assert d.items == [d.items[0]];
      assert PopMany(d1, 0, cap) == d1;
    }
  }

  // In every run what is held and what was finalized is what was pushed, plus the stale slots of empty clears.
  lemma {:induction false} Balance<T>(ops: seq<Op<T>>, cap: nat)
    requires 0 < cap
    ensures All(Run(ops, cap)) == multiset(Pushed(ops)) + multiset(Stale(ops, cap))
  {
    if ops != [] {
      Balance(ops[..|ops| - 1], cap);
      ApplyBalances(Run(ops[..|ops| - 1], cap), ops[|ops| - 1], cap);
    }
  }

  lemma {:induction false} StaleIff<T>(ops: seq<Op<T>>, cap: nat)
    requires 0 < cap && forall op | op in ops :: OpOk(op, cap)
    ensures Stale(ops, cap) == [] <==> forall i: nat :: !ClearsEmpty(ops, cap, i)
  {
    if ops != [] {
      var before, n := ops[..|ops| - 1], |ops| - 1;
      StaleIff(before, cap);
      assert ops[..n] == before;
      forall i: nat | i < n ensures ClearsEmpty(ops, cap, i) == ClearsEmpty(before, cap, i) {
        assert before[..i] == ops[..i];
      }
      if Stale(before, cap) != [] {
        var i: nat :| ClearsEmpty(before, cap, i);
        assert ClearsEmpty(ops, cap, i);
      }
      if ClearsEmpty(ops, cap, n) { assert OpOk(ops[n], cap) && Stale(ops, cap) != []; }
    }
  }

  /** Over a whole run the pushed elements are exactly those held and those finalized, each once, if and only if no
      clear met an empty buffer. */
  lemma ConservedIff<T>(ops: seq<Op<T>>, cap: nat)
    requires 0 < cap && forall op | op in ops :: OpOk(op, cap)
    ensures All(Run(ops, cap)) == multiset(Pushed(ops)) <==> forall i: nat :: !ClearsEmpty(ops, cap, i)
  {
    Balance(ops, cap);
    StaleIff(ops, cap);
    assert |All(Run(ops, cap))| == |multiset(Pushed(ops))| + |Stale(ops, cap)|;
  }

  function PushAll<T>(xs: seq<T>): seq<Op<T>> { seq(|xs|, i requires 0 <= i < |xs| => PushBack(xs[i])) }

  function Last<T>(xs: seq<T>, cap: nat): Deque<T> {
    if |xs| <= cap then Deque(xs, []) else Deque(xs[|xs| - cap..], xs[..|xs| - cap])
  }

  lemma LastStep<T>(xs: seq<T>, x: T, cap: nat)
    requires 0 < cap
    ensures Apply(Last(xs, cap), PushBack(x), cap) == Last(xs + [x], cap)
  {
    if |xs| >= cap {
      var k := |xs| - cap;
      assert xs[k..][1..] + [x] == (xs + [x])[k + 1..];
      assert xs[..k] + [xs[k]] == (xs + [x])[..k + 1];
    }
  }

  /** Used as a history, the buffer holds the last cap elements pushed, and has finalized the earlier ones in order. */
  lemma {:induction false} HistoryKeepsLast<T>(xs: seq<T>, cap: nat)
    requires 0 < cap
    ensures Run(PushAll(xs), cap) == Last(xs, cap)
  {
    if xs != [] {
      var n := |xs| - 1;
      HistoryKeepsLast(xs[..n], cap);
      assert PushAll(xs)[..n] == PushAll(xs[..n]);
      LastStep(xs[..n], xs[n], cap);
      assert xs[..n] + [xs[n]] == xs;
    }
  }

  // -- The buffer --

  // The slot reached from slot a, or past the end of the array from its start.
  function Wrap(a: nat, cap: nat): (r: nat)
    requires 0 < cap && a < 2 * cap
    ensures r == (if a < cap then a else a - cap) && r < cap
  {
    if a < cap then a % cap else assert a % cap == (a - cap) % cap; a % cap
  }

  // The array from start on, once around.
  function Around<T>(a: seq<T>, start: nat): (s: seq<T>)
    requires start < |a|
    ensures |s| == |a|
  {
    a[start..] + a[..start]
  }

  lemma AroundWrite<T>(a: seq<T>, start: nat, i: nat, x: T)
    requires start < |a| && i < |a|
    ensures Around(a[Wrap(start + i, |a|) := x], start) == Around(a, start)[i := x]
  {
  }

  lemma AroundStep<T>(a: seq<T>, start: nat)
    requires start < |a|
    ensures Around(a, Wrap(start + 1, |a|)) == Around(a, start)[1..] + [a[start]]
  {
  }

  function ValueOf<T>(a: seq<T>, start: nat, size: nat, finalized: seq<T>): Deque<T>
    requires start < |a| && size <= |a|
  {
    Deque(Around(a, start)[..size], finalized)
  }

  lemma AppendValue<T>(a: seq<T>, start: nat, size: nat, finalized: seq<T>, x: T)
    requires start < |a| && size < |a|
    ensures ValueOf(a[Wrap(start + size, |a|) := x], start, size + 1, finalized)
         == Apply(ValueOf(a, start, size, finalized), Op.PushBack(x), |a|)
  {
    AroundWrite(a, start, size, x);
  }

  lemma EvictFrontValue<T>(a: seq<T>, start: nat, finalized: seq<T>, x: T)
    requires start < |a|
    ensures ValueOf(a[start := x], Wrap(start + 1, |a|), |a|, finalized + [a[start]])
         == Apply(ValueOf(a, start, |a|, finalized), Op.PushBack(x), |a|)
  {
    AroundWrite(a, start, 0, x);
    AroundStep(a[start := x], start);
  }

  lemma PrependValue<T>(a: seq<T>, start: nat, size: nat, finalized: seq<T>, x: T)
    requires start < |a| && size < |a|
    ensures ValueOf(a[start := x], start, size + 1, finalized)
         == Apply(ValueOf(a, Wrap(start + 1, |a|), size, finalized), Op.PushFront(x), |a|)
  {
    AroundStep(a, start);
    AroundWrite(a, start, 0, x);
  }

  lemma EvictBackValue<T>(a: seq<T>, start: nat, finalized: seq<T>, x: T)
    requires start < |a|
    ensures ValueOf(a[start := x], start, |a|, finalized + [a[start]])
         == Apply(ValueOf(a, Wrap(start + 1, |a|), |a|, finalized), Op.PushFront(x), |a|)
  {
    AroundStep(a, start);
    AroundWrite(a, start, 0, x);
  }

  class FinalizingRing<T> {
    const data: array<T>
    var start: nat
    var size: nat
    var finalized: seq<T>   // the finalizer's calls so far

    ghost predicate Valid()
      reads this
    {
      start < data.Length && size <= data.Length
    }

    ghost function Slots(): (s: seq<T>)
      requires Valid()
      reads this, data
      ensures |s| == data.Length
    {
      Around(data[..], start)
    }

    ghost function Value(): (d: Deque<T>)
      requires Valid()
      reads this, data
      ensures |d.items| == size
    {
      ValueOf(data[..], start, size, finalized)
    }

    lemma SlotAt(i: nat)
      requires Valid() && i < data.Length
      ensures Slots()[i] == data[Wrap(start + i, data.Length)]
    {
    }

    constructor (cap: nat, fill: T)
      requires cap > 0
      ensures Valid() && fresh(data) && data.Length == cap && Value() == Deque([], [])
    {
      data := new T[cap](_ => fill);
      start, size, finalized := 0, 0, [];
    }

    method Increment(n: nat) returns (r: nat)
      requires n < data.Length
      ensures r == Wrap(n + 1, data.Length)
    {
      r := (n + 1) % data.Length;
    }

    method Decrement(n: nat) returns (r: nat)
      requires n < data.Length
      ensures r < data.Length && Wrap(r + 1, data.Length) == n
    {
      if n == 0 { r := data.Length - 1; } else { r := (n - 1) % data.Length; }
    }

    method PushBack(x: T)
      requires Valid()
      modifies this`start, this`size, this`finalized, data
      ensures Valid() && Value() == Apply(old(Value()), Op.PushBack(x), data.Length)
    {
      var end := Wrap(start + size, data.Length);
      if size >= data.Length { finalized := finalized + [data[end]]; }
      data[end] := x;
      assert data[..] == old(data[..])[end := x];
      if size < data.Length {
        AppendValue(old(data[..]), start, size, finalized, x);
        size := size + 1;
      } else {
        EvictFrontValue(old(data[..]), start, old(finalized), x);
        start := Increment(start);
      }
    }

    method PushFront(x: T)
      requires Valid()
      modifies this`start, this`size, this`finalized, data
      ensures Valid() && Value() == Apply(old(Value()), Op.PushFront(x), data.Length)
    {
      if size < data.Length {
        start := Decrement(start);
        PrependValue(data[..], start, size, finalized, x);
        size := size + 1;
      } else {
        start := Decrement(start);
        EvictBackValue(data[..], start, finalized, x);
        finalized := finalized + [data[start]];
      }
      data[start] := x;
      assert data[..] == old(data[..])[start := x];
    }

    method PopFront()
      requires Valid()
      modifies this`start, this`size, this`finalized
      ensures Valid() && Value() == Apply(old(Value()), Op.PopFront, data.Length)
    {
      if size > 0 {
        finalized := finalized + [data[start]];
        start := Increment(start);
        size := size - 1;
      }
    }

    method PopBack()
      requires Valid()
      modifies this`start, this`size, this`finalized
      ensures Valid() && Value() == Apply(old(Value()), Op.PopBack, data.Length)
    {
      if size > 0 {
        size := size - 1;
        finalized := finalized + [data[Wrap(start + size, data.Length)]];
      }
    }

    /** The loop "for each element": from begin to end, where begin is told apart from end by its flag. It visits exactly
        the contents in order, but an empty buffer's begin and end differ too, and then every slot is visited. */
    method Iterate() returns (visited: seq<T>)
      requires Valid()
      ensures visited == if size > 0 then Value().items else Slots()
    {
      visited := [];
      var i, isBegin := start, true;
      var end := Wrap(start + size, data.Length);
      while i != end || isBegin
        invariant |visited| <= data.Length && visited == Slots()[..|visited|]
        invariant |visited| <= (if size > 0 then size else data.Length)
        invariant isBegin == (visited == []) && i == Wrap(start + |visited|, data.Length)
        decreases data.Length - |visited|
      {
        SlotAt(|visited|);
        visited := visited + [data[i]];
        i := Increment(i);
        isBegin := false;
      }
    }

    method Clear()
      requires Valid()
      modifies this`start, this`size, this`finalized
      ensures Valid() && Value() == Apply(old(Value()), Op.Clear(old(Slots())), data.Length)
    {
      var visited := Iterate();
      finalized := finalized + visited;
      start := 0;
      size := 0;
    }

    /** Access by position, checked: it refuses only positions beyond the size, so the position just past the last
        element is let through and reads a slot that is not an element, or the first element of a full buffer. */
    method At(index: nat) returns (r: Option<T>)
      requires Valid()
      ensures r.Some? <==> index <= size
      ensures index < size ==> r == Some(Value().items[index])
      ensures index == size == data.Length ==> r == Some(Value().items[0])
      ensures index == size < data.Length ==> r == Some(Slots()[size])
    {
      if index > size { return None; }
      if index < data.Length { SlotAt(index); }
      return Some(data[Wrap(start + index, data.Length)]);
    }
  }
}
