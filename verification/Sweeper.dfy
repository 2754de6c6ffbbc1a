/** The file-system sweeper: it keeps the last known modification time of every file, sweeps recently modified files
    often and all files now and then, and reports creations, modifications, deletions, locks and unlocks. */
module Sweeper {
  import opened Wrappers

  type Path = string

  datatype Stamp = Stamp(time: int, iteration: nat)

  // What the two timestamp maps say of one path.
  datatype File = File(slow: Option<Stamp>, fast: Option<Stamp>)

  datatype Kind = Created | Modified | Deleted | Fast | UnFast
  datatype Event = Event(kind: Kind, path: Path)

  // What asking for the modification time of a path gives: a time in nanoseconds, the error "no such file" or another.
  datatype Outcome = Time(time: int) | Missing | Failed

  // -- What a sweep does to one path --

  // Whole milliseconds, truncated toward zero.
  function Millis(nanos: int): int { if nanos >= 0 then nanos / 1_000_000 else -(-nanos / 1_000_000) }

  function Stored(f: File, total: bool): Option<Stamp> { if total then f.slow else f.fast }

  // The path is found with modification time t.
  function Scanned(f: File, total: bool, t: int, iteration: nat): (File, seq<Kind>) {
    var stamp := Some(Stamp(t, iteration));
    var lock := if f.fast.None? then [Fast] else [];
    var kept := if total then f.(slow := stamp) else f.(fast := stamp);
    if Stored(f, total).None? then (kept.(fast := stamp), [Created] + lock)
    else if Stored(f, total).value.time < t then (kept.(fast := stamp), [Modified] + lock)
    else (kept, [])
  }

  // The end of the sweep: paths not found are dropped, and paths not modified lately are unlocked.
  function Settled(f: File, total: bool, iteration: nat, now: int): (File, seq<Kind>) {
    if Stored(f, total).None? then (f, [])
    else if Stored(f, total).value.iteration != iteration then (File(None, None), [Deleted])
    else if Millis(now - Stored(f, total).value.time) > 10_000 then
      (f.(fast := None), if f.fast.Some? then [UnFast] else [])
    else (f, [])
  }

  // A whole sweep, which found the path with the time seen, if at all.
  function Swept(f: File, total: bool, seen: Option<int>, iteration: nat, now: int): (File, seq<Kind>) {
    var (f1, kinds1) := if seen.Some? then Scanned(f, total, seen.value, iteration) else (f, []);
    var (f2, kinds2) := Settled(f1, total, iteration, now);
    (f2, kinds1 + kinds2)
  }

  // -- The language of one path's events --

  // Untracked; tracked but not locked; just changed, the lock to follow; locked.
  datatype Status = Untracked | Slow | Pending | Locked

  function Move(s: Status, k: Kind): Option<Status> {
    match k
    case Created => if s == Untracked then Some(Pending) else None
    case Modified => if s == Slow then Some(Pending) else if s == Locked then Some(Locked) else None
    case Fast => if s == Pending then Some(Locked) else None
    case UnFast => if s == Locked then Some(Slow) else None
    case Deleted => if s == Slow || s == Locked then Some(Untracked) else None
  }

  function Walk(s: Status, kinds: seq<Kind>): Option<Status> {
    if kinds == [] then Some(s)
    else match Walk(s, kinds[..|kinds| - 1])
      case None => None
      case Some(s1) => Move(s1, kinds[|kinds| - 1])
  }

  lemma {:induction false} WalkAppend(s: Status, a: seq<Kind>, b: seq<Kind>)
    requires Walk(s, a).Some?
    ensures Walk(s, a + b) == Walk(Walk(s, a).value, b)
    decreases |b|
  {
    if b == [] {
      assert a + b == a;
    } else {
      assert (a + b)[..|a + b| - 1] == a + b[..|b| - 1];
      WalkAppend(s, a, b[..|b| - 1]);
    }
  }

  lemma WalkTwo(s: Status, a: Kind, b: Kind)
    ensures Walk(s, [a]) == Move(s, a)
    ensures Walk(s, [a, b]) == match Move(s, a) { case None => None case Some(s1) => Move(s1, b) }
  {
    assert [a][..0] == [] && [a, b][..1] == [a];
    assert Walk(s, []) == Some(s);
  }

  function StatusOf(f: File): Status { if f.fast.Some? then Locked else if f.slow.Some? then Slow else Untracked }

  // Locked paths are tracked, and counters are older than the next sweep's.
  predicate FileOk(f: File, iteration: nat) {
    && (f.fast.Some? ==> f.slow.Some? && f.fast.value.iteration < iteration)
    && (f.slow.Some? ==> f.slow.value.iteration < iteration)
  }

  lemma ScanWalks(f: File, total: bool, t: int, iteration: nat)
    requires FileOk(f, iteration) && (total || f.fast.Some?)
    ensures var (f2, kinds) := Scanned(f, total, t, iteration);
      Walk(StatusOf(f), kinds) == Some(StatusOf(f2)) && FileOk(f2, iteration + 1)
  {
    WalkTwo(StatusOf(f), Created, Fast);
    WalkTwo(StatusOf(f), Modified, Fast);
    assert [Modified] + [] == [Modified] && [Created] + [Fast] == [Created, Fast] && [Modified] + [Fast] == [Modified, Fast];
  }

  lemma SettleWalks(f: File, total: bool, iteration: nat, now: int)
    requires FileOk(f, iteration + 1) && StatusOf(f) != Pending
    ensures var (f2, kinds) := Settled(f, total, iteration, now);
      Walk(StatusOf(f), kinds) == Some(StatusOf(f2)) && FileOk(f2, iteration + 1)
  {
    WalkTwo(StatusOf(f), Deleted, Deleted);
    WalkTwo(StatusOf(f), UnFast, UnFast);
  }

  /** A sweep's events lead each path from the status its maps gave to the status they give now. */
  lemma SweepWalks(f: File, total: bool, seen: Option<int>, iteration: nat, now: int)
    requires FileOk(f, iteration) && (seen.Some? ==> total || f.fast.Some?)
    ensures var (f2, kinds) := Swept(f, total, seen, iteration, now);
      Walk(StatusOf(f), kinds) == Some(StatusOf(f2)) && FileOk(f2, iteration + 1)
  {
    var (f1, kinds1) := if seen.Some? then Scanned(f, total, seen.value, iteration) else (f, []);
    if seen.Some? { ScanWalks(f, total, seen.value, iteration); }
    var (f2, kinds2) := Settled(f1, total, iteration, now);
    SettleWalks(f1, total, iteration, now);
    WalkAppend(StatusOf(f), kinds1, kinds2);
  }

  // Whether the path is locked after these events, judged by the last event that locks or unlocks it.
  function LockedAfter(kinds: seq<Kind>): bool {
    if kinds == [] then false
    else match kinds[|kinds| - 1]
      case Fast => true
      case UnFast => false
      case Deleted => false
      case _ => LockedAfter(kinds[..|kinds| - 1])
  }

  // Whether the path is known after these events, judged by the last creation or deletion.
  function KnownAfter(kinds: seq<Kind>): bool {
    if kinds == [] then false
    else match kinds[|kinds| - 1]
      case Created => true
      case Deleted => false
      case _ => KnownAfter(kinds[..|kinds| - 1])
  }

  /** In every accepted history locks and unlocks alternate, with deletion closing a lock, and so do creations and
      deletions: an event of one kind comes only when the other kind came last. */
  lemma {:induction false} LocksAlternate(kinds: seq<Kind>, i: nat)
    requires Walk(Untracked, kinds).Some? && i < |kinds|
    ensures kinds[i] == Fast ==> !LockedAfter(kinds[..i])
    ensures kinds[i] == UnFast ==> LockedAfter(kinds[..i])
    ensures kinds[i] == Created <==> !KnownAfter(kinds[..i])
    ensures LockedAfter(kinds[..i]) ==> KnownAfter(kinds[..i])
    decreases |kinds|
  {
    var before := kinds[..|kinds| - 1];
    WalkMeans(before);
    if i < |kinds| - 1 {
      LocksAlternate(before, i);
      assert before[..i] == kinds[..i];
    }
  }

  lemma {:induction false} WalkMeans(kinds: seq<Kind>)
    requires Walk(Untracked, kinds).Some?
    ensures LockedAfter(kinds) == (Walk(Untracked, kinds) == Some(Locked))
    ensures KnownAfter(kinds) == (Walk(Untracked, kinds) != Some(Untracked))
  {
    if kinds != [] { WalkMeans(kinds[..|kinds| - 1]); }
  }

  /** Whatever the maps held, a total sweep leaves a path tracked exactly if it found it, with the time it found, and
      reports exactly the difference. */
  lemma TotalSweepRestores(f: File, seen: Option<int>, iteration: nat, now: int)
    requires FileOk(f, iteration)
    ensures var (f2, kinds) := Swept(f, true, seen, iteration, now);
      && f2.slow == (if seen.Some? then Some(Stamp(seen.value, iteration)) else None)
      && (Created in kinds <==> f.slow.None? && seen.Some?)
      && (Deleted in kinds <==> f.slow.Some? && seen.None?)
      && (Modified in kinds <==> f.slow.Some? && seen.Some? && f.slow.value.time < seen.value)
  {
  }

  /** A path that a sweep finds more than ten seconds old is unlocked, if it was locked or this sweep has just reported it;
      one that it finds younger stays locked, or is locked if this sweep has just reported it. Whole milliseconds count. */
  lemma UnlockedWhenCold(f: File, total: bool, t: int, iteration: nat, now: int)
    requires FileOk(f, iteration) && (total || f.fast.Some?)
    ensures var (f2, kinds) := Swept(f, total, Some(t), iteration, now);
      var hot := f.fast.Some? || Created in kinds || Modified in kinds;
      && (Fast in kinds <==> f.fast.None? && hot)
      && (now - t >= 10_001_000_000 ==> f2.fast == None && (UnFast in kinds <==> hot))
      && (now - t < 10_001_000_000 ==> UnFast !in kinds && (f2.fast.Some? <==> hot))
  {
    var (f1, kinds1) := Scanned(f, total, t, iteration);
    var (f2, kinds2) := Settled(f1, total, iteration, now);
    assert Swept(f, total, Some(t), iteration, now) == (f2, kinds1 + kinds2);
    assert Millis(now - t) > 10_000 <==> now - t >= 10_001_000_000;
    assert forall k :: k in kinds1 + kinds2 <==> k in kinds1 || k in kinds2;
  }

  /** What a fast sweep does to a locked path: it reports a modification exactly if the time it finds is newer than the one
      it knew, remembers the time it finds for as long as the path stays locked, and leaves the main map alone. A path it
      does not find is reported as deleted and leaves both maps. */
  lemma FastSweepMeans(f: File, seen: Option<int>, iteration: nat, now: int)
    requires FileOk(f, iteration) && f.fast.Some?
    ensures var (f2, kinds) := Swept(f, false, seen, iteration, now);
      && Created !in kinds && Fast !in kinds
      && (Modified in kinds <==> seen.Some? && f.fast.value.time < seen.value)
      && (Deleted in kinds <==> seen.None?)
      && f2.slow == (if seen.Some? then f.slow else None)
      && (f2.fast.Some? ==> seen.Some? && f2.fast.value == Stamp(seen.value, iteration))
  {
  }

  /** What becomes of a path's stamp in the fast map when a total sweep finds it: it is the time found, if the sweep reports
      it; otherwise it is as it was. */
  lemma TotalSweepFast(f: File, t: int, iteration: nat, now: int)
    requires FileOk(f, iteration)
    ensures var (f2, kinds) := Swept(f, true, Some(t), iteration, now);
      f2.fast.Some? ==>
        f2.fast == if Created in kinds || Modified in kinds then Some(Stamp(t, iteration)) else f.fast
  {
  }

  // The fast sweeps that find the path, as long as it is locked; each gives the time found and the time of the sweep.
  function FastSweeps(f: File, sweeps: seq<(int, int)>, iteration: nat): File
    decreases sweeps
  {
    if sweeps == [] then f
    else
      var n := |sweeps| - 1;
      var f1 := FastSweeps(f, sweeps[..n], iteration);
      Swept(f1, false, if f1.fast.Some? then Some(sweeps[n].0) else None, iteration + n, sweeps[n].1).0
  }

  // Fast sweeps never teach the main map a new time.
  lemma {:induction false} FastKeepsSlow(f: File, sweeps: seq<(int, int)>, iteration: nat)
    requires FileOk(f, iteration)
    ensures var f2 := FastSweeps(f, sweeps, iteration); f2.slow == f.slow && FileOk(f2, iteration + |sweeps|)
    decreases sweeps
  {
    if sweeps != [] {
      FastKeepsSlow(f, sweeps[..|sweeps| - 1], iteration);
    }
  }

  lemma FirstReport(f: File, t: int, now: int, iteration: nat)
    requires FileOk(f, iteration) && f.fast.Some? && f.fast.value.time < t
    ensures var f1 := Swept(f, false, Some(t), iteration, now).0;
      FastReports(f, t, iteration, now) && f1.slow == f.slow && FileOk(f1, iteration + 1)
  {
    assert Scanned(f, false, t, iteration).1[0] == Modified;
  }

  // After these fast sweeps, a total sweep that finds the path with time u reports a modification.
  predicate TotalReports(f: File, between: seq<(int, int)>, u: int, iteration: nat, now: int) {
    Modified in Swept(FastSweeps(f, between, iteration), true, Some(u), iteration + |between|, now).1
  }

  // A fast sweep that finds the path with time t reports a modification.
  predicate FastReports(f: File, t: int, iteration: nat, now: int) {
    Modified in Swept(f, false, Some(t), iteration, now).1
  }

  lemma NextTotalReport(f: File, between: seq<(int, int)>, u: int, iteration: nat, now: int)
    requires FileOk(f, iteration) && f.slow.Some?
    ensures TotalReports(f, between, u, iteration, now) <==> f.slow.value.time < u
  {
    FastKeepsSlow(f, between, iteration);
    TotalSweepRestores(FastSweeps(f, between, iteration), Some(u), iteration + |between|, now);
  }

  /** A modification that a fast sweep reports is reported again by the next total sweep, whatever fast sweeps come in
      between, if and only if the main map's time is older too: that map does not learn what fast sweeps find. */
  lemma ReportedTwiceIff(f: File, t: int, now: int, between: seq<(int, int)>, u: int, iteration: nat, now2: int)
    requires FileOk(f, iteration) && f.fast.Some? && f.fast.value.time < t
    ensures FastReports(f, t, iteration, now)
    ensures TotalReports(Swept(f, false, Some(t), iteration, now).0, between, u, iteration + 1, now2)
       <==> f.slow.value.time < u
  {
    FirstReport(f, t, now, iteration);
    NextTotalReport(Swept(f, false, Some(t), iteration, now).0, between, u, iteration + 1, now2);
  }

  // -- The log --

  function Project(log: seq<Event>, p: Path): seq<Kind> {
    if log == [] then []
    else
      var last := log[|log| - 1];
      Project(log[..|log| - 1], p) + (if last.path == p then [last.kind] else [])
  }

  function FileOf(tracked: map<Path, Stamp>, fast: map<Path, Stamp>, p: Path): File {
    File(if p in tracked then Some(tracked[p]) else None, if p in fast then Some(fast[p]) else None)
  }

  predicate Distinct(paths: seq<Path>) { forall i, j | 0 <= i < j < |paths| :: paths[i] != paths[j] }

  // The paths are scanned in order until one has no modification time.
  predicate Seen(paths: seq<Path>, look: Path -> Outcome, n: nat) {
    && n <= |paths| && (forall i | 0 <= i < n :: look(paths[i]).Time?)
    && (n < |paths| ==> !look(paths[n]).Time?)
  }

  function SeenAt(paths: seq<Path>, look: Path -> Outcome, n: nat, p: Path): Option<int> {
    if n <= |paths| && p in paths[..n] && look(p).Time? then Some(look(p).time) else None
  }

  // What a scan made of a path: file f0 with history h0 became f with history h.
  predicate ScanDid(f0: File, h0: seq<Kind>, f: File, h: seq<Kind>, total: bool, seen: Option<int>, iteration: nat) {
    if seen.None? then f == f0 && h == h0
    else f == Scanned(f0, total, seen.value, iteration).0 && h == h0 + Scanned(f0, total, seen.value, iteration).1
  }

  // Scanning one more path takes the scan one step further for every path p.
  lemma ScanStep(f0: File, h0: seq<Kind>, f1: File, h1: seq<Kind>, f: File, h: seq<Kind>, total: bool, paths: seq<Path>,
                 look: Path -> Outcome, n: nat, p: Path, iteration: nat)
    requires Distinct(paths) && n < |paths| && look(paths[n]).Time?
    requires ScanDid(f0, h0, f1, h1, total, SeenAt(paths, look, n, p), iteration)
    requires if p == paths[n] then ScanDid(f1, h1, f, h, total, Some(look(p).time), iteration) else f == f1 && h == h1
    ensures ScanDid(f0, h0, f, h, total, SeenAt(paths, look, n + 1, p), iteration)
  {
    assert paths[..n + 1] == paths[..n] + [paths[n]];
  }

  predicate Stale(f: File, total: bool, iteration: nat) {
    Stored(f, total).Some? && Stored(f, total).value.iteration != iteration
  }

  predicate Cold(f: File, total: bool, iteration: nat, now: int) {
    Stored(f, total).Some? && !Stale(f, total, iteration) && Millis(now - Stored(f, total).value.time) > 10_000
  }

  function Elements(paths: seq<Path>): set<Path> { set p | p in paths }

  // What the loop over the swept map made of a path's history h0, and of the two lists.
  predicate SettleDid(f: File, h0: seq<Kind>, h: seq<Kind>, done: bool, missing: bool, removed: bool, unlocked: bool,
                      total: bool, iteration: nat, now: int) {
    && h == h0 + (if done then Settled(f, total, iteration, now).1 else [])
    && removed == (missing || (done && Stale(f, total, iteration)))
    && unlocked == (done && Cold(f, total, iteration, now))
  }

  // What a sweep made of a path.
  predicate SweepDid(f0: File, h0: seq<Kind>, f: File, h: seq<Kind>, total: bool, seen: Option<int>, iteration: nat,
                     now: int) {
    f == Swept(f0, total, seen, iteration, now).0 && h == h0 + Swept(f0, total, seen, iteration, now).1
  }

  // The path's history is accepted and ends in the status its maps give.
  predicate PathAccepted(f: File, h: seq<Kind>, bound: nat) {
    FileOk(f, bound) && Walk(Untracked, h) == Some(StatusOf(f))
  }

  lemma ScanAccepted(f0: File, h0: seq<Kind>, f: File, h: seq<Kind>, total: bool, seen: Option<int>, iteration: nat)
    requires PathAccepted(f0, h0, iteration) && ScanDid(f0, h0, f, h, total, seen, iteration)
    requires seen.Some? ==> total || f0.fast.Some?
    ensures PathAccepted(f, h, iteration + 1)
  {
    if seen.Some? {
      ScanWalks(f0, total, seen.value, iteration);
      WalkAppend(Untracked, h0, Scanned(f0, total, seen.value, iteration).1);
    }
  }

  lemma SweepAccepted(f0: File, h0: seq<Kind>, total: bool, seen: Option<int>, iteration: nat, now: int)
    requires PathAccepted(f0, h0, iteration) && (seen.Some? ==> total || f0.fast.Some?)
    ensures var (f, kinds) := Swept(f0, total, seen, iteration, now); PathAccepted(f, h0 + kinds, iteration + 1)
  {
    SweepWalks(f0, total, seen, iteration, now);
    WalkAppend(Untracked, h0, Swept(f0, total, seen, iteration, now).1);
  }

  // Scanning and settling make a sweep; dropping a missing path changes nothing more.
  lemma SweptIs(f0: File, h0: seq<Kind>, f1: File, h1: seq<Kind>, f: File, h: seq<Kind>, total: bool, seen: Option<int>,
                missing: bool, iteration: nat, now: int)
    requires PathAccepted(f0, h0, iteration) && ScanDid(f0, h0, f1, h1, total, seen, iteration)
    requires (seen.Some? ==> total || f0.fast.Some?) && (missing ==> seen.None? && (!total ==> f0.fast.Some?))
    requires f == if missing then File(None, None) else Settled(f1, total, iteration, now).0
    requires h == h1 + Settled(f1, total, iteration, now).1
    ensures SweepDid(f0, h0, f, h, total, seen, iteration, now) && PathAccepted(f, h, iteration + 1)
  {
    var kinds := Settled(f1, total, iteration, now).1;
    if seen.Some? {
      var kinds1 := Scanned(f0, total, seen.value, iteration).1;
      assert h0 + kinds1 + kinds == h0 + (kinds1 + kinds);
    } else {
      assert [] + kinds == kinds;
    }
    SweepAccepted(f0, h0, total, seen, iteration, now);
  }

  // What a fast sweep reports and leaves of a locked path.
  lemma FastSweepDeletes(f: File, seen: Option<int>, iteration: nat, now: int)
    requires FileOk(f, iteration) && (seen.Some? ==> f.fast.Some?)
    ensures var (f2, kinds) := Swept(f, false, seen, iteration, now);
      && (Deleted in kinds <==> f.fast.Some? && seen.None?)
      && (Deleted in kinds ==> f2 == File(None, None))
  {
  }

  // A sweep that stopped at path n did not see the paths from there on.
  lemma Unseen(paths: seq<Path>, look: Path -> Outcome, n: nat)
    requires Distinct(paths) && Seen(paths, look, n)
    ensures forall i | n <= i < |paths| :: SeenAt(paths, look, n, paths[i]).None?
    ensures forall p | p in paths && SeenAt(paths, look, n, p).None? && look(p).Time? ::
      exists i :: n < i < |paths| && paths[i] == p
  {
    forall i | n <= i < |paths| ensures SeenAt(paths, look, n, paths[i]).None? {
      assert forall j | 0 <= j < n :: paths[j] != paths[i];
    }
    forall j | 0 <= j < n ensures paths[j] in paths[..n] { assert paths[..n][j] == paths[j]; }
    forall p | p in paths && SeenAt(paths, look, n, p).None? && look(p).Time?
      ensures exists i :: n < i < |paths| && paths[i] == p
    {
      var i :| 0 <= i < |paths| && paths[i] == p;
    }
  }

  /** A missing file ends the scan, so later files that still exist can be reported as deleted: a total sweep reports no
      enumerated file that exists as deleted if and only if no existing file after the missing one was tracked. */
  lemma DeletedWronglyIff(files: Path -> File, paths: seq<Path>, look: Path -> Outcome, n: nat, iteration: nat, now: int)
    requires Distinct(paths) && Seen(paths, look, n) && forall p :: FileOk(files(p), iteration)
    ensures (forall p :: Deleted in Swept(files(p), true, SeenAt(paths, look, n, p), iteration, now).1 ==>
               p !in paths || !look(p).Time?)
       <==> forall i | n < i < |paths| && look(paths[i]).Time? :: files(paths[i]).slow.None?
  {
    forall p ensures Deleted in Swept(files(p), true, SeenAt(paths, look, n, p), iteration, now).1 <==>
      files(p).slow.Some? && SeenAt(paths, look, n, p).None?
    {
      assert FileOk(files(p), iteration);
      TotalSweepRestores(files(p), SeenAt(paths, look, n, p), iteration, now);
    }
    Unseen(paths, look, n);
  }

  /** A fast sweep, which scans the locked files, does the same: it reports no file that exists as deleted if and only
      if no file after the missing one exists. The files it reports leave both maps. */
  lemma FastDeletedWronglyIff(files: Path -> File, paths: seq<Path>, look: Path -> Outcome, n: nat, iteration: nat,
                              now: int)
    requires Distinct(paths) && Seen(paths, look, n) && forall p :: FileOk(files(p), iteration)
    requires forall p :: p in paths <==> files(p).fast.Some?
    ensures (forall p :: Deleted in Swept(files(p), false, SeenAt(paths, look, n, p), iteration, now).1 ==> !look(p).Time?)
       <==> forall i | n < i < |paths| :: !look(paths[i]).Time?
    ensures forall i | n < i < |paths| :: var (f2, kinds) :=
      Swept(files(paths[i]), false, SeenAt(paths, look, n, paths[i]), iteration, now);
      Deleted in kinds && f2 == File(None, None)
  {
    forall p ensures var (f2, kinds) := Swept(files(p), false, SeenAt(paths, look, n, p), iteration, now);
      && (Deleted in kinds <==> p in paths && SeenAt(paths, look, n, p).None?)
      && (Deleted in kinds ==> f2 == File(None, None))
    {
      assert FileOk(files(p), iteration);
      assert p in paths[..n] ==> p in paths by { if n <= |paths| { assert paths[..n] <= paths; } }
      FastSweepDeletes(files(p), SeenAt(paths, look, n, p), iteration, now);
    }
    Unseen(paths, look, n);
  }

  class FilesystemSweeper {
    var tracked: map<Path, Stamp>   // this->timestamps
    var fast: map<Path, Stamp>
    var iteration: nat
    var log: seq<Event>             // the callbacks made so far

    ghost function At(p: Path): File
      reads this
    {
      FileOf(tracked, fast, p)
    }

    // Every path's history is accepted and ends in the status the maps give.
    ghost predicate Accepted(bound: nat)
      reads this
    {
      forall p :: PathAccepted(At(p), Project(log, p), bound)
    }

    ghost predicate Valid()
      reads this
    {
      Accepted(iteration)
    }

    lemma FastTracked(bound: nat)
      requires Accepted(bound)
      ensures fast.Keys <= tracked.Keys
    {
      forall p | p in fast ensures p in tracked { assert PathAccepted(At(p), Project(log, p), bound); }
    }

    constructor ()
      ensures Valid() && tracked == map[] && fast == map[] && log == []
    {
      tracked, fast, iteration, log := map[], map[], 0, [];
    }

    method Emit(kind: Kind, path: Path)
      modifies this`log
      ensures Project(log, path) == Project(old(log), path) + [kind]
      ensures forall p | p != path :: Project(log, p) == Project(old(log), p)
    {
      ghost var log0 := log;
      log := log + [Event(kind, path)];
      assert log[..|log| - 1] == log0;
      forall p | p != path ensures Project(log, p) == Project(log0, p) {
        assert Project(log0, p) + [] == Project(log0, p);
      }
    }

    // A new or changed path is reported, and locked if it was not.
    method Report(kind: Kind, path: Path, stamp: Stamp)
      modifies this`fast, this`log
      ensures fast == old(fast)[path := stamp]
      ensures Project(log, path) == Project(old(log), path) + ([kind] + if path in old(fast) then [] else [Fast])
      ensures forall p | p != path :: Project(log, p) == Project(old(log), p)
    {
      Emit(kind, path);
      if path !in fast { Emit(Fast, path); }
      fast := fast[path := stamp];
    }

    // One path of the scan.
    method ScanPath(total: bool, path: Path, t: int)
      modifies this`tracked, this`fast, this`log
      ensures At(path) == Scanned(old(At(path)), total, t, iteration).0
      ensures Project(log, path) == Project(old(log), path) + Scanned(old(At(path)), total, t, iteration).1
      ensures forall p | p != path :: At(p) == old(At(p)) && Project(log, p) == Project(old(log), p)
    {
      var stamp := Stamp(t, iteration);
      if path !in (if total then tracked else fast) {
        Report(Created, path, stamp);
      } else if (if total then tracked else fast)[path].time < t {
        Report(Modified, path, stamp);
      }
      if total { tracked := tracked[path := stamp]; } else { fast := fast[path := stamp]; }
    }

    // The paths are scanned in order. A missing path ends the scan quietly, another error is passed on.
    method Scan(total: bool, paths: seq<Path>, look: Path -> Outcome) returns (removed: seq<Path>, ok: bool, ghost n: nat)
      requires Distinct(paths)
      modifies this`tracked, this`fast, this`log
      ensures Seen(paths, look, n) && (ok <==> n == |paths| || look(paths[n]).Missing?)
      ensures removed == if n < |paths| && ok then [paths[n]] else []
      ensures forall p ::
        ScanDid(old(At(p)), old(Project(log, p)), At(p), Project(log, p), total, SeenAt(paths, look, n, p), iteration)
    {
      removed, ok, n := [], true, 0;
      var i: nat := 0;
      while i < |paths|
        invariant i == n <= |paths| && forall j | 0 <= j < n :: look(paths[j]).Time?
        invariant forall p ::
          ScanDid(old(At(p)), old(Project(log, p)), At(p), Project(log, p), total, SeenAt(paths, look, n, p), iteration)
      {
        var path := paths[i];
        var outcome := look(path);
        if outcome.Missing? { return [path], true, n; }
        if outcome.Failed? { return [], false, n; }
        label before:
        ScanPath(total, path, outcome.time);
        forall p ensures ScanDid(old(At(p)), old(Project(log, p)), At(p), Project(log, p), total,
                                 SeenAt(paths, look, n + 1, p), iteration)
        {
          ScanStep(old(At(p)), old(Project(log, p)), old@before(At(p)), old@before(Project(log, p)), At(p), Project(log, p),
                   total, paths, look, n, p, iteration);
        }
        i, n := i + 1, n + 1;
      }
    }

    // One path of the swept map: it has disappeared, has grown cold, or stays.
    method SettlePath(total: bool, now: int, path: Path) returns (removed: bool, unlocked: bool)
      requires path in (if total then tracked else fast)
      modifies this`log
      ensures removed == Stale(At(path), total, iteration) && unlocked == Cold(At(path), total, iteration, now)
      ensures Project(log, path) == old(Project(log, path)) + Settled(At(path), total, iteration, now).1
      ensures forall p | p != path :: Project(log, p) == old(Project(log, p))
    {
      var stamp := (if total then tracked else fast)[path];
      if stamp.iteration != iteration {
        Emit(Deleted, path);
        return true, false;
      } else if Millis(now - stamp.time) > 10_000 {
        if path in fast { Emit(UnFast, path); }
        return false, true;
      }
      return false, false;
    }

    // Every path of the swept map is looked at once, in any order.
    method SettleAll(total: bool, now: int, missing: seq<Path>) returns (removed: seq<Path>, unlocked: seq<Path>)
      modifies this`log
      ensures forall p :: SettleDid(At(p), old(Project(log, p)), Project(log, p), true, p in missing,
                                    p in removed, p in unlocked, total, iteration, now)
    {
      removed, unlocked := missing, [];
      var todo := (if total then tracked else fast).Keys;
      while todo != {}
        invariant todo <= (if total then tracked else fast).Keys
        invariant forall p :: SettleDid(At(p), old(Project(log, p)), Project(log, p), p !in todo, p in missing,
                                        p in removed, p in unlocked, total, iteration, now)
        decreases |todo|
      {
        var path :| path in todo;
        label before:
        var gone, cold := SettlePath(total, now, path);
        ghost var removed0, unlocked0, todo0 := removed, unlocked, todo;
        if gone { removed := removed + [path]; }
        if cold { unlocked := unlocked + [path]; }
        todo := todo - {path};
        forall p ensures SettleDid(At(p), old(Project(log, p)), Project(log, p), p !in todo, p in missing,
                                   p in removed, p in unlocked, total, iteration, now)
        {
          assert SettleDid(At(p), old(Project(log, p)), old@before(Project(log, p)), p !in todo0, p in missing,
                           p in removed0, p in unlocked0, total, iteration, now);
          assert p in removed <==> p in removed0 || (p == path && gone);
          assert p in unlocked <==> p in unlocked0 || (p == path && cold);
        }
      }
    }

    // The end of a sweep: the swept map is looked through, then both maps are cleared of what was found.
    method Settle(total: bool, now: int, missing: seq<Path>)
      modifies this`tracked, this`fast, this`log
      ensures forall p :: At(p) == if p in missing then File(None, None) else Settled(old(At(p)), total, iteration, now).0
      ensures forall p :: Project(log, p) == old(Project(log, p)) + Settled(old(At(p)), total, iteration, now).1
    {
      var removed, unlocked := SettleAll(total, now, missing);
      label settled:
      Erase(removed, true);
      Erase(unlocked, false);
      forall p
        ensures At(p) == if p in missing then File(None, None) else Settled(old(At(p)), total, iteration, now).0
        ensures Project(log, p) == old(Project(log, p)) + Settled(old(At(p)), total, iteration, now).1
      {
        assert SettleDid(old@settled(At(p)), old(Project(log, p)), Project(log, p), true, p in missing,
                         p in removed, p in unlocked, total, iteration, now);
      }
    }

    // The listed paths leave the fast map, and the main map too if so asked.
    method Erase(paths: seq<Path>, both: bool)
      modifies this`tracked, this`fast
      ensures tracked == if both then old(tracked) - Elements(paths) else old(tracked)
      ensures fast == old(fast) - Elements(paths)
    {
      for i := 0 to |paths|
        invariant tracked == if both then old(tracked) - Elements(paths[..i]) else old(tracked)
        invariant fast == old(fast) - Elements(paths[..i])
      {
        assert paths[..i + 1] == paths[..i] + [paths[i]];
        assert Elements(paths[..i + 1]) == Elements(paths[..i]) + {paths[i]};
        if both { tracked := tracked - {paths[i]}; }
        fast := fast - {paths[i]};
      }
      assert paths[..|paths|] == paths;
    }

    // The scan and the end of a sweep, before the counter advances.
    method ScanAndSettle(total: bool, enumerated: seq<Path>, look: Path -> Outcome, now: int)
      returns (ok: bool, ghost paths: seq<Path>, ghost n: nat)
      requires Valid() && Distinct(enumerated)
      modifies this`tracked, this`fast, this`log
      ensures if total then paths == enumerated else Distinct(paths) && Elements(paths) == old(fast).Keys
      ensures Seen(paths, look, n) && (ok <==> n == |paths| || look(paths[n]).Missing?)
      ensures ok ==> forall p :: SweepDid(old(At(p)), old(Project(log, p)), At(p), Project(log, p), total,
                                          SeenAt(paths, look, n, p), iteration, now)
      ensures !ok ==> forall p ::
        ScanDid(old(At(p)), old(Project(log, p)), At(p), Project(log, p), total, SeenAt(paths, look, n, p), iteration)
      ensures Accepted(iteration + 1)
    {
      var list := enumerated;
      if !total { list := Listed(fast.Keys); }
      paths := list;
      var removed;
      removed, ok, n := Scan(total, list, look);
      if !ok {
        forall p ensures PathAccepted(At(p), Project(log, p), iteration + 1) {
          ScanAccepted(old(At(p)), old(Project(log, p)), At(p), Project(log, p), total, SeenAt(paths, look, n, p), iteration);
        }
        return;
      }
      label scanned:
      Settle(total, now, removed);
      forall p
        ensures SweepDid(old(At(p)), old(Project(log, p)), At(p), Project(log, p), total, SeenAt(paths, look, n, p),
                         iteration, now)
        ensures PathAccepted(At(p), Project(log, p), iteration + 1)
      {
        SweptIs(old(At(p)), old(Project(log, p)), old@scanned(At(p)), old@scanned(Project(log, p)), At(p), Project(log, p),
                total, SeenAt(paths, look, n, p), p in removed, iteration, now);
      }
    }

    /** One sweep, over all files or over the locked ones. The history of every path is extended by exactly the events
        of Swept and stays accepted; if an error other than a missing file is met, the events of the scan stand. A total
        sweep that finds every file leaves the main map equal to what it found, whatever the map held. */
    method Sweep(total: bool, enumerated: seq<Path>, look: Path -> Outcome, now: int)
      returns (ok: bool, ghost paths: seq<Path>, ghost n: nat)
      requires Valid() && Distinct(enumerated)
      modifies this
      ensures if total then paths == enumerated else Distinct(paths) && Elements(paths) == old(fast).Keys
      ensures Seen(paths, look, n) && (ok <==> n == |paths| || look(paths[n]).Missing?)
      ensures ok ==> forall p :: SweepDid(old(At(p)), old(Project(log, p)), At(p), Project(log, p), total,
                                          SeenAt(paths, look, n, p), old(iteration), now)
      ensures !ok ==> forall p ::
        ScanDid(old(At(p)), old(Project(log, p)), At(p), Project(log, p), total, SeenAt(paths, look, n, p), iteration)
      ensures if ok then iteration == old(iteration) + 1 && Valid() else iteration == old(iteration) && Accepted(iteration + 1)
      ensures fast.Keys <= tracked.Keys
      ensures total && n == |paths| ==>
        tracked == map p | p in Elements(enumerated) :: Stamp(SeenAt(paths, look, n, p).value, old(iteration))
    {
      ok, paths, n := ScanAndSettle(total, enumerated, look, now);
      FastTracked(iteration + 1);
      if ok { iteration := iteration + 1; }
      if total && n == |paths| {
        assert paths[..n] == enumerated;
        forall p ensures p in tracked <==> p in enumerated
          ensures p in tracked ==> tracked[p] == Stamp(look(p).time, old(iteration))
        {
          var seen := SeenAt(paths, look, n, p);
          assert PathAccepted(old(At(p)), old(Project(log, p)), old(iteration));
          TotalSweepRestores(old(At(p)), seen, old(iteration), now);
          assert SweepDid(old(At(p)), old(Project(log, p)), At(p), Project(log, p), total, seen, old(iteration), now);
        }
      }
    }

    // The keys of the fast map, each once, in any order.
    method Listed(keys: set<Path>) returns (paths: seq<Path>)
      ensures Distinct(paths) && Elements(paths) == keys
    {
      paths := [];
      var todo := keys;
      while todo != {}
        invariant Distinct(paths) && Elements(paths) == keys - todo && todo <= keys
        decreases |todo|
      {
        var p :| p in todo;
        assert p !in Elements(paths);
        assert Elements(paths + [p]) == Elements(paths) + {p};
        paths, todo := paths + [p], todo - {p};
      }
    }

    /** A total sweep every n sweeps. */
    method TotalSweepEveryN(every: nat, enumerated: seq<Path>, look: Path -> Outcome, now: int)
      returns (ok: bool, ghost paths: seq<Path>, ghost n: nat)
      requires Valid() && Distinct(enumerated) && every > 0
      modifies this
      ensures if old(iteration) % every == 0 then paths == enumerated else Elements(paths) == old(fast).Keys
      ensures Seen(paths, look, n) && (ok <==> n == |paths| || look(paths[n]).Missing?)
      ensures ok ==> forall p ::
        SweepDid(old(At(p)), old(Project(log, p)), At(p), Project(log, p), old(iteration) % every == 0,
                 SeenAt(paths, look, n, p), old(iteration), now)
      ensures !ok ==> forall p ::
        ScanDid(old(At(p)), old(Project(log, p)), At(p), Project(log, p), iteration % every == 0,
                SeenAt(paths, look, n, p), iteration)
      ensures if ok then Valid() && iteration == old(iteration) + 1 else iteration == old(iteration) && Accepted(iteration + 1)
      ensures fast.Keys <= tracked.Keys
      ensures old(iteration) % every == 0 && n == |paths| ==>
        tracked == map p | p in Elements(enumerated) :: Stamp(SeenAt(paths, look, n, p).value, old(iteration))
    {
      ok, paths, n := Sweep(iteration % every == 0, enumerated, look, now);
    }
  }
}
