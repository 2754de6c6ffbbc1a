/** What every run of the concurrent skip list keeps: the order of each level, frozen marks, and claims made once. */
module SkipListRuns {
  import opened Wrappers
  import opened SkipListNodes
  import opened SkipListSteps

  // Step i of a run: thread tids[i] takes step acts[i].
  ghost predicate StepAt(states: seq<State>, tids: seq<Tid>, acts: seq<Action>, i: nat) {
    i + 1 < |states| && i < |tids| && i < |acts| ==> Step(states[i], tids[i], acts[i], states[i + 1])
  }

  /** A run: states[i] becomes states[i + 1] when thread tids[i] takes step acts[i]. */
  ghost predicate Run(states: seq<State>, tids: seq<Tid>, acts: seq<Action>) {
    && |states| == |tids| + 1 == |acts| + 1
    && states[0] == Fresh(states[0].height)
    && forall i: nat :: StepAt(states, tids, acts, i)
  }

  // The invariant of the shared part does not look at the threads.
  lemma SharedOnly(s: State, s2: State)
    requires Shared(s) && s2 == s.(threads := s2.threads)
    ensures Shared(s2) && Extends(s, s2)
  {
    forall n, i ensures LinkOk(s2, n, i) { assert LinkOk(s, n, i); }
    forall n ensures NodeOk(s2, n) { assert NodeOk(s, n); }
  }

  // A step of thread t leaves the other threads' positions good.
  lemma ThreadsOk(s: State, t: Tid, s1: State, pc: Pc)
    requires Inv(s) && Extends(s, s1) && Shared(s1) && PcOk(s1, pc) && s1.threads == s.threads
    ensures Inv(s1.(threads := s1.threads[t := pc]))
  {
    var s2 := s1.(threads := s1.threads[t := pc]);
    SharedOnly(s1, s2);
    PcStable(s1, s2, pc);
    forall u | u in s2.threads ensures PcOk(s2, s2.threads[u]) {
      if u != t { PcStable(s, s2, s.threads[u]); }
    }
  }

  lemma StepKeeps(s: State, t: Tid, a: Action, s2: State)
    requires Inv(s) && Step(s, t, a, s2)
    ensures Inv(s2)
  {
    if a.Proceed? {
      AdvanceKeeps(s, t, PcOf(s, t));
      ThreadsOk(s, t, Advance(s, t, PcOf(s, t)).value.0, Advance(s, t, PcOf(s, t)).value.1);
    } else {
      ThreadsOk(s, t, s, Start(s, a).value);
    }
  }

  lemma StepExtends(s: State, t: Tid, a: Action, s2: State)
    requires Inv(s) && Step(s, t, a, s2)
    ensures Extends(s, s2)
  {
    if a.Proceed? {
      AdvanceKeeps(s, t, PcOf(s, t));
    }
  }

  lemma {:induction false} RunKeeps(states: seq<State>, tids: seq<Tid>, acts: seq<Action>, i: nat)
    requires Run(states, tids, acts) && i < |states|
    ensures Inv(states[i])
  {
    if i == 0 {
      FreshOk(states[0].height);
    } else {
      RunKeeps(states, tids, acts, i - 1);
      assert StepAt(states, tids, acts, i - 1);
      StepKeeps(states[i - 1], tids[i - 1], acts[i - 1], states[i]);
    }
  }

  lemma {:induction false} RunExtends(states: seq<State>, tids: seq<Tid>, acts: seq<Action>, i: nat, j: nat)
    requires Run(states, tids, acts) && i <= j < |states|
    ensures Extends(states[i], states[j])
  {
    if i < j {
      RunExtends(states, tids, acts, i, j - 1);
      RunKeeps(states, tids, acts, j - 1);
      assert StepAt(states, tids, acts, j - 1);
      StepExtends(states[j - 1], tids[j - 1], acts[j - 1], states[j]);
      ExtendsOn(states[i], states[j - 1], states[j]);
    }
  }

  // -- The order of a level --

  lemma Transitive(s: State, i: nat, a: Id, b: Id, c: Id)
    requires Before(s, i, a, b) && Before(s, i, b, c)
    ensures Before(s, i, a, c)
  {
  }

  /** The nodes a traversal of level i passes from node n on, were no other thread to run: it reaches the tail, and it
      visits nodes in strictly increasing order. */
  ghost function Chain(s: State, i: nat, n: Id): (chain: seq<Id>)
    requires Shared(s) && Reaches(s, n, i)
    ensures |chain| > 0 && chain[0] == n && chain[|chain| - 1] == TAIL
    ensures forall k | 0 <= k < |chain| :: Reaches(s, chain[k], i)
    ensures forall k | 0 <= k < |chain| - 1 :: (chain[k], i) in s.next && s.next[(chain[k], i)].to == chain[k + 1]
    decreases (if n in s.nodes then INT_MAX - s.nodes[n].prio else 0), n
  {
    assert NodeOk(s, n);
    if n == TAIL then [n]
    else
      var to := s.next[(n, i)].to;
      assert LinkOk(s, n, i) && NodeOk(s, to);
      [n] + Chain(s, i, to)
  }

  lemma {:induction false} ChainSorted(s: State, i: nat, n: Id, j: nat, k: nat)
    requires Shared(s) && Reaches(s, n, i)
    requires j < k < |Chain(s, i, n)|
    ensures Before(s, i, Chain(s, i, n)[j], Chain(s, i, n)[k])
    decreases k
  {
    var chain := Chain(s, i, n);
    assert LinkOk(s, chain[k - 1], i);
    assert chain[k - 1] != TAIL by {
      if chain[k - 1] == TAIL { TailLast(s, i, n, k - 1); }
    }
    if j < k - 1 {
      ChainSorted(s, i, n, j, k - 1);
      Transitive(s, i, chain[j], chain[k - 1], chain[k]);
    }
  }

  lemma {:induction false} TailLast(s: State, i: nat, n: Id, k: nat)
    requires Shared(s) && Reaches(s, n, i)
    requires k < |Chain(s, i, n)| && Chain(s, i, n)[k] == TAIL
    ensures k == |Chain(s, i, n)| - 1
    decreases k
  {
    assert NodeOk(s, n);
    if n != TAIL {
      assert LinkOk(s, n, i);
      TailLast(s, i, s.next[(n, i)].to, k - 1);
    }
  }

  /** In every reachable state the bottom chain from the head ends at the tail and its priorities strictly increase; the
      chain of each higher level ends there too, in an order without repetition. */
  lemma LevelsSorted(states: seq<State>, tids: seq<Tid>, acts: seq<Action>, m: nat, i: nat)
    requires Run(states, tids, acts) && m < |states| && i <= states[m].height
    ensures Shared(states[m]) && Reaches(states[m], HEAD, i)
    ensures var s, chain := states[m], Chain(states[m], i, HEAD);
      && chain[0] == HEAD && chain[|chain| - 1] == TAIL
      && (forall k | 0 <= k < |chain| - 1 :: s.next[(chain[k], i)].to == chain[k + 1])
      && (forall j, k | 0 <= j < k < |chain| :: chain[j] != chain[k] && s.nodes[chain[j]].prio <= s.nodes[chain[k]].prio)
      && (i == 0 ==> forall j, k | 0 <= j < k < |chain| :: s.nodes[chain[j]].prio < s.nodes[chain[k]].prio)
  {
    RunKeeps(states, tids, acts, m);
    var s := states[m];
    var chain := Chain(s, i, HEAD);
    forall j, k | 0 <= j < k < |chain| ensures Before(s, i, chain[j], chain[k]) {
      ChainSorted(s, i, HEAD, j, k);
    }
  }

  predicate Scanning(pc: Pc) { pc.MinTest? || pc.MinClaim? || pc.MinNext? }

  predicate HopsAt(states: seq<State>, tids: seq<Tid>, acts: seq<Action>, t: Tid, k: nat) {
    k < |states| && k < |tids| && k < |acts| && tids[k] == t && acts[k].Proceed? && PcOf(states[k], t).MinNext?
  }

  // The hops of thread t's scan between two moments of a run.
  function Hops(states: seq<State>, tids: seq<Tid>, acts: seq<Action>, t: Tid, i: nat, j: nat): nat
    requires i <= j
    decreases j
  {
    if i == j then 0
    else Hops(states, tids, acts, t, i, j - 1) + (if HopsAt(states, tids, acts, t, j - 1) then 1 else 0)
  }

  // The priority a scan has reached.
  function ScanPrio(s: State, t: Tid): int
    requires Scanning(PcOf(s, t))
  {
    if PcOf(s, t).curr in s.nodes then s.nodes[PcOf(s, t).curr].prio else INT_MIN
  }

  lemma OwnScanStep(s: State, t: Tid, pc: Pc)
    requires Shared(s) && PcOk(s, pc) && Scanning(pc) && Advance(s, t, pc).Some? && Scanning(Advance(s, t, pc).value.1)
    ensures var (s2, pc2) := Advance(s, t, pc).value;
      && pc.curr in s.nodes && pc2.curr in s2.nodes && s2.nodes == s.nodes
      && s.nodes[pc.curr].prio + (if pc.MinNext? then 1 else 0) <= s2.nodes[pc2.curr].prio
  {
    if pc.MinNext? { assert LinkOk(s, pc.curr, 0); }
  }

  lemma OthersStay(s: State, u: Tid, a: Action, s2: State, t: Tid)
    requires Step(s, u, a, s2) && Scanning(PcOf(s, t)) && !(u == t && a.Proceed?)
    ensures PcOf(s2, t) == PcOf(s, t)
  {
  }

  // A step of another thread leaves the scan of thread t where it is.
  lemma OtherScanStep(s: State, u: Tid, a: Action, s2: State, t: Tid)
    requires Inv(s) && Step(s, u, a, s2) && Scanning(PcOf(s, t)) && !(u == t && a.Proceed?)
    ensures PcOf(s2, t) == PcOf(s, t) && ScanPrio(s2, t) == ScanPrio(s, t)
  {
    OthersStay(s, u, a, s2, t);
    StepExtends(s, u, a, s2);
    PrioStays(s, s2, PcOf(s, t));
  }

  lemma PrioStays(s: State, s2: State, pc: Pc)
    requires Extends(s, s2) && PcOk(s, pc) && Scanning(pc)
    ensures pc.curr in s.nodes && pc.curr in s2.nodes && s2.nodes[pc.curr].prio == s.nodes[pc.curr].prio
  {
  }

  // One step of anyone: the scan of thread t stays where it is, or hops to a larger priority.
  lemma ScanStep(states: seq<State>, tids: seq<Tid>, acts: seq<Action>, t: Tid, i: nat)
    requires Run(states, tids, acts) && i < |acts|
    requires Scanning(PcOf(states[i], t)) && Scanning(PcOf(states[i + 1], t))
    ensures ScanPrio(states[i], t) + (if HopsAt(states, tids, acts, t, i) then 1 else 0) <= ScanPrio(states[i + 1], t)
  {
    RunKeeps(states, tids, acts, i);
    assert StepAt(states, tids, acts, i);
    if tids[i] == t && acts[i].Proceed? {
      assert PcOk(states[i], PcOf(states[i], t));
      OwnScanStep(states[i], t, PcOf(states[i], t));
    } else {
      OtherScanStep(states[i], tids[i], acts[i], states[i + 1], t);
    }
  }

  /** A scan for the minimum climbs: whatever other threads do, each hop leads to a larger priority, so one scan makes
      at most as many hops as it gains in priority, which is fewer than 2^32. */
  lemma {:induction false} ScanBound(states: seq<State>, tids: seq<Tid>, acts: seq<Action>, t: Tid, i: nat, j: nat)
    requires Run(states, tids, acts) && i <= j < |states|
    requires forall k | i <= k <= j :: Scanning(PcOf(states[k], t))
    ensures ScanPrio(states[i], t) + Hops(states, tids, acts, t, i, j) <= ScanPrio(states[j], t)
    ensures Hops(states, tids, acts, t, i, j) < 0x1_0000_0000
    decreases j
  {
    assert Scanning(PcOf(states[i], t)) && Scanning(PcOf(states[j], t));
    if i < j {
      assert Scanning(PcOf(states[j - 1], t));
      ScanBound(states, tids, acts, t, i, j - 1);
      ScanStep(states, tids, acts, t, j - 1);
    }
    RunKeeps(states, tids, acts, i);
    RunKeeps(states, tids, acts, j);
    PrioRange(states[i], PcOf(states[i], t).curr);
    PrioRange(states[j], PcOf(states[j], t).curr);
  }

  lemma PrioRange(s: State, n: Id)
    requires Shared(s)
    ensures n in s.nodes ==> INT_MIN <= s.nodes[n].prio <= INT_MAX
  {
    assert NodeOk(s, n);
  }

  /** findNode climbs too: every node it steps over has a larger priority, or the same one and greater age. */
  lemma SearchClimbs(states: seq<State>, tids: seq<Tid>, acts: seq<Action>, m: nat)
    requires Run(states, tids, acts) && m < |acts| && acts[m].Proceed?
    requires PcOf(states[m], tids[m]).Looking? && PcOf(states[m + 1], tids[m]).AtCurr?
    ensures var c, c2 := PcOf(states[m], tids[m]).c, PcOf(states[m + 1], tids[m]).c;
      && c2.i == c.i && c2.prio == c.prio && Before(states[m + 1], c.i, c.pred, c2.pred)
      && states[m + 1].nodes[c2.pred].prio < c.prio
  {
    RunKeeps(states, tids, acts, m);
    assert StepAt(states, tids, acts, m);
    assert PcOk(states[m], PcOf(states[m], tids[m]));
  }

  // -- Claims and marks --

  // Step i is the exchange by which a removeMin wins node n.
  ghost predicate Claims(states: seq<State>, tids: seq<Tid>, acts: seq<Action>, i: nat, n: Id)
    requires |states| == |tids| + 1 == |acts| + 1
  {
    && i < |acts| && acts[i].Proceed? && PcOf(states[i], tids[i]) == MinClaim(n)
    && n !in states[i].deleted && PcOf(states[i + 1], tids[i]).Begin?
  }

  /** No node is claimed by two calls of findAndMarkMin. */
  lemma ClaimedOnce(states: seq<State>, tids: seq<Tid>, acts: seq<Action>, i: nat, j: nat, n: Id)
    requires Run(states, tids, acts) && Claims(states, tids, acts, i, n) && Claims(states, tids, acts, j, n)
    ensures i == j
  {
    if i < j {
      ClaimDeletes(states, tids, acts, i, n);
      RunExtends(states, tids, acts, i + 1, j);
    } else if j < i {
      ClaimDeletes(states, tids, acts, j, n);
      RunExtends(states, tids, acts, j + 1, i);
    }
  }

  lemma ClaimDeletes(states: seq<State>, tids: seq<Tid>, acts: seq<Action>, i: nat, n: Id)
    requires Run(states, tids, acts) && Claims(states, tids, acts, i, n)
    ensures n in states[i + 1].deleted
  {
    RunKeeps(states, tids, acts, i);
    assert StepAt(states, tids, acts, i);
    assert PcOk(states[i], MinClaim(n));
  }

  // Step i is the compare-and-swap by which a remove takes node n out of the bottom level.
  ghost predicate Removes(states: seq<State>, tids: seq<Tid>, acts: seq<Action>, i: nat, n: Id)
    requires |states| == |tids| + 1 == |acts| + 1
  {
    && i < |acts| && acts[i].Proceed?
    && PcOf(states[i], tids[i]).MarkCas? && PcOf(states[i], tids[i]).level == 0 && PcOf(states[i], tids[i]).node == n
    && PcOf(states[i + 1], tids[i]).Begin?
  }

  /** No node is removed by two calls that both return true, and nothing is ever linked behind a removed node. */
  lemma RemovedOnce(states: seq<State>, tids: seq<Tid>, acts: seq<Action>, i: nat, j: nat, n: Id)
    requires Run(states, tids, acts) && Removes(states, tids, acts, i, n) && i < j <= |acts|
    ensures (n, 0) in states[i + 1].next && (n, 0) in states[j].next && states[j].next[(n, 0)] == states[i + 1].next[(n, 0)]
    ensures !Removes(states, tids, acts, j, n)
  {
    assert StepAt(states, tids, acts, i);
    assert (n, 0) in states[i + 1].next && states[i + 1].next[(n, 0)].marked;
    assert StepAt(states, tids, acts, j);
    RunExtends(states, tids, acts, i + 1, j);
  }
}
