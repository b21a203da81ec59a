/**
 What a folded trace shows, in terms of its events alone: every field of the state as a count, a sum or
 the last event that sets it, read from the event's own data.
 */
module EventLaws {
  import opened Prelude
  import opened SnapshotIds
  import opened RecentPaths
  import opened EventFold

  // ----- the last event of a kind -----

  ghost predicate LastWhere(trace: seq<Event>, sets: Event -> bool, i: nat) {
    i < |trace| && sets(trace[i]) && forall j :: i < j < |trace| ==> !sets(trace[j])
  }

  ghost predicate Nowhere(trace: seq<Event>, sets: Event -> bool) {
    forall j :: 0 <= j < |trace| ==> !sets(trace[j])
  }

  lemma {:induction false} LastExists(trace: seq<Event>, sets: Event -> bool)
    ensures Nowhere(trace, sets) || exists i :: LastWhere(trace, sets, i)
  {
    if trace == [] {
    } else {
      var n := |trace| - 1;
      LastExists(trace[..n], sets);
      if sets(trace[n]) {
        assert LastWhere(trace, sets, n);
      } else if i: nat :| LastWhere(trace[..n], sets, i) {
        assert LastWhere(trace, sets, i);
      }
    }
  }

  /** A value that some events set and others leave alone is in the end as the last of them set it. */
  lemma {:induction false} LastLaw<V>(trace: seq<Event>, at: nat -> V, sets: Event -> bool, value: Event -> V, n: nat)
    requires n <= |trace|
    requires forall k :: 0 <= k < n ==> at(k + 1) == if sets(trace[k]) then value(trace[k]) else at(k)
    ensures forall i: nat :: LastWhere(trace[..n], sets, i) ==> at(n) == value(trace[i])
    ensures Nowhere(trace[..n], sets) ==> at(n) == at(0)
  {
    if n == 0 {
    } else {
      LastLaw(trace, at, sets, value, n - 1);
      assert at(n - 1 + 1) == if sets(trace[n - 1]) then value(trace[n - 1]) else at(n - 1);
      if !sets(trace[n - 1]) {
        forall i: nat | LastWhere(trace[..n], sets, i) ensures LastWhere(trace[..n - 1], sets, i) {
          assert trace[..n][n - 1] == trace[n - 1];
        }
        assert Nowhere(trace[..n], sets) ==> Nowhere(trace[..n - 1], sets);
      } else {
        assert trace[..n][n - 1] == trace[n - 1];
      }
    }
  }

  /** The state after k events. */
  function StateAt(trace: seq<Event>, k: nat): State {
    if k <= |trace| then Fold(trace[..k]) else ZERO_STATE
  }

  lemma StateNext(trace: seq<Event>, k: nat)
    requires k < |trace|
    ensures StateAt(trace, k + 1) == Step(StateAt(trace, k), trace[k])
  {
    assert trace[..k + 1][..k] == trace[..k];
  }

  // ----- counters -----

  /** The counter of a class is the field of that name. */
  lemma CounterFields(s: State)
    ensures Counter(s, Paths) == s.paths && Counter(s, Dirs) == s.dirs && Counter(s, Files) == s.files
    ensures Counter(s, Xattrs) == s.xattrs && Counter(s, Symlinks) == s.symlinks
    ensures Counter(s, Objects) == s.objects && Counter(s, Chunks) == s.chunks
  {
  }

  /** The bytes an event reports for a class and stage: a file in its file info, an xattr under "size". */
  function ReportedBytes(c: Class, stage: Stage): Event -> int {
    (e: Event) =>
      if e.kind != Entry(c, stage) then 0
      else if c == Files && "fileinfo" in e.data && e.data["fileinfo"].FileInfo? then e.data["fileinfo"].size
      else if c == Xattrs && "size" in e.data && e.data["size"].Int64? then e.data["size"].i
      else 0
  }

  lemma {:induction false} SumSame(trace: seq<Event>, f: Event -> int, g: Event -> int)
    requires forall e :: f(e) == g(e)
    ensures Sum(trace, f) == Sum(trace, g)
  {
    if trace == [] {
    } else {
      SumSame(trace[..|trace| - 1], f, g);
    }
  }

  lemma BytesAreReported(trace: seq<Event>, c: Class, stage: Stage)
    ensures Sum(trace, Bytes(c, stage)) == Sum(trace, ReportedBytes(c, stage))
  {
    forall e ensures Bytes(c, stage)(e) == ReportedBytes(c, stage)(e) {
    }
    SumSame(trace, Bytes(c, stage), ReportedBytes(c, stage));
  }

  /** Sizes are the bytes reported by the events of their class, done or cached, modulo 2^64. */
  lemma SizesAreReported(trace: seq<Event>, c: Class)
    ensures Counter(Fold(trace), c).size == Wrap64(Sum(trace, ReportedBytes(c, Okay)))
    ensures Counter(Fold(trace), c).cachedSize == Wrap64(Sum(trace, ReportedBytes(c, Cached)))
  {
    CountersAreTallies(trace, c);
    BytesAreReported(trace, c, Okay);
    BytesAreReported(trace, c, Cached);
  }

  // ----- phase, summary, result and snapshot -----

  function SetsPhase(): Event -> bool {
    (e: Event) =>
      || e.kind.ImportStart? || e.kind.VfsStart? || e.kind.VfsEnd? || e.kind.IndexStart? || e.kind.IndexEnd?
      || e.kind.CommitStart? || e.kind.RunResult?
  }

  function PhaseNamed(): Event -> string {
    (e: Event) =>
      if e.kind.ImportStart? then "processing"
      else if e.kind.VfsStart? then "building VFS"
      else if e.kind.IndexStart? then "indexing"
      else if e.kind.CommitStart? then "committing"
      else if e.kind.RunResult? then "completed"
      else ""
  }

  lemma PhaseStep(s: State, e: Event)
    ensures Step(s, e).phase == if SetsPhase()(e) then PhaseNamed()(e) else s.phase
  {
  }

  /** The phase is the one the last phase event opens; none if that event closes one, or before any. */
  lemma PhaseIsTheLast(trace: seq<Event>)
    ensures forall i: nat :: LastWhere(trace, SetsPhase(), i) ==> Fold(trace).phase == PhaseNamed()(trace[i])
    ensures Nowhere(trace, SetsPhase()) ==> Fold(trace).phase == ""
  {
    var at := (k: nat) => StateAt(trace, k).phase;
    forall k | 0 <= k < |trace|
      ensures at(k + 1) == if SetsPhase()(trace[k]) then PhaseNamed()(trace[k]) else at(k)
    {
      StateNext(trace, k);
      PhaseStep(StateAt(trace, k), trace[k]);
    }
    LastLaw(trace, at, SetsPhase(), PhaseNamed(), |trace|);
    assert trace[..|trace|] == trace;
  }

  /** An unsigned number in an event, 0 if it is missing or of another type. */
  function NumberIn(e: Event, key: string): u64 {
    if key in e.data && e.data[key].Uint64? then e.data[key].u else 0
  }

  function IsSummary(): Event -> bool {
    (e: Event) => e.kind.FsSummary?
  }

  function SummaryIn(): Event -> Summary {
    (e: Event) =>
      var f: int, d: int := NumberIn(e, "files"), NumberIn(e, "directories");
      var l: int, x: int := NumberIn(e, "symlinks"), NumberIn(e, "xattrs");
      Summary(present := true, size := NumberIn(e, "size"), paths := Wrap64(f + d + l + x),
              files := f, directories := d, symlinks := l, xattrs := x)
  }

  lemma SummaryStep(s: State, e: Event)
    ensures Step(s, e).summary == if IsSummary()(e) then SummaryIn()(e) else s.summary
  {
  }

  /** The summary is that of the last scan, its paths being all it counts together; absent before one. */
  lemma SummaryIsTheLast(trace: seq<Event>)
    ensures forall i: nat :: LastWhere(trace, IsSummary(), i) ==> Fold(trace).summary == SummaryIn()(trace[i])
    ensures Nowhere(trace, IsSummary()) ==> !Fold(trace).summary.present
  {
    var at := (k: nat) => StateAt(trace, k).summary;
    forall k | 0 <= k < |trace|
      ensures at(k + 1) == if IsSummary()(trace[k]) then SummaryIn()(trace[k]) else at(k)
    {
      StateNext(trace, k);
      SummaryStep(StateAt(trace, k), trace[k]);
    }
    LastLaw(trace, at, IsSummary(), SummaryIn(), |trace|);
    assert trace[..|trace|] == trace;
  }

  function IsResult(): Event -> bool {
    (e: Event) => e.kind.RunResult?
  }

  /** Size and number of errors. */
  function ResultIn(): Event -> (u64, u64) {
    (e: Event) => (NumberIn(e, "size"), NumberIn(e, "errors"))
  }

  function IsTimed(): Event -> bool {
    (e: Event) => e.kind.RunResult? && "duration" in e.data && e.data["duration"].Duration?
  }

  function TimeIn(): Event -> int {
    (e: Event) => if "duration" in e.data && e.data["duration"].Duration? then e.data["duration"].ns else 0
  }

  lemma ResultStep(s: State, e: Event)
    ensures var after := Step(s, e).result;
            && (after.size, after.errors) == (if IsResult()(e) then ResultIn()(e) else (s.result.size, s.result.errors))
            && after.nanoseconds == if IsTimed()(e) then TimeIn()(e) else s.result.nanoseconds
  {
  }

  /** Size and errors are those of the last result event. */
  lemma ResultIsTheLast(trace: seq<Event>)
    ensures forall i: nat :: LastWhere(trace, IsResult(), i) ==>
              (Fold(trace).result.size, Fold(trace).result.errors) == ResultIn()(trace[i])
    ensures Nowhere(trace, IsResult()) ==> Fold(trace).result.size == Fold(trace).result.errors == 0
  {
    var at := (k: nat) => (StateAt(trace, k).result.size, StateAt(trace, k).result.errors);
    forall k | 0 <= k < |trace|
      ensures at(k + 1) == if IsResult()(trace[k]) then ResultIn()(trace[k]) else at(k)
    {
      StateNext(trace, k);
      ResultStep(StateAt(trace, k), trace[k]);
    }
    LastLaw(trace, at, IsResult(), ResultIn(), |trace|);
    assert trace[..|trace|] == trace;
  }

  /** The duration is that of the last result event that gives one. */
  lemma TimeIsTheLast(trace: seq<Event>)
    ensures forall i: nat :: LastWhere(trace, IsTimed(), i) ==> Fold(trace).result.nanoseconds == TimeIn()(trace[i])
    ensures Nowhere(trace, IsTimed()) ==> Fold(trace).result.nanoseconds == 0
  {
    var at := (k: nat) => StateAt(trace, k).result.nanoseconds;
    forall k | 0 <= k < |trace|
      ensures at(k + 1) == if IsTimed()(trace[k]) then TimeIn()(trace[k]) else at(k)
    {
      StateNext(trace, k);
      ResultStep(StateAt(trace, k), trace[k]);
    }
    LastLaw(trace, at, IsTimed(), TimeIn(), |trace|);
    assert trace[..|trace|] == trace;
  }

  function NamesSnapshot(): Event -> bool {
    (e: Event) => e.kind.WorkflowStart? && exists k :: 0 <= k < |e.snapshot| && e.snapshot[k] != 0
  }

  function SnapshotIn(): Event -> string {
    (e: Event) => FormatHex(e.snapshot)
  }

  lemma SnapshotStep(s: State, e: Event)
    ensures Step(s, e).snapshotID == if NamesSnapshot()(e) then SnapshotIn()(e) else s.snapshotID
  {
  }

  /** The snapshot id is that of the last workflow start that has one, not all zeros; empty before. */
  lemma SnapshotIsTheLast(trace: seq<Event>)
    ensures forall i: nat :: LastWhere(trace, NamesSnapshot(), i) ==> Fold(trace).snapshotID == SnapshotIn()(trace[i])
    ensures Nowhere(trace, NamesSnapshot()) ==> Fold(trace).snapshotID == ""
  {
    var at := (k: nat) => StateAt(trace, k).snapshotID;
    forall k | 0 <= k < |trace|
      ensures at(k + 1) == if NamesSnapshot()(trace[k]) then SnapshotIn()(trace[k]) else at(k)
    {
      StateNext(trace, k);
      SnapshotStep(StateAt(trace, k), trace[k]);
    }
    LastLaw(trace, at, NamesSnapshot(), SnapshotIn(), |trace|);
    assert trace[..|trace|] == trace;
  }

  // ----- IO -----

  /** A number under a direction and a key of an IO report, 0 if it is missing or of another type. */
  function Figure(e: Event, dir: string, key: string): real {
    if dir in e.data && e.data[dir].Fields? && key in e.data[dir].m then
      var v := e.data[dir].m[key];
      if v.Float64? then v.r else if v.Int64? then v.i as real else 0.0
    else 0.0
  }

  /** The latency part of a direction. */
  function LatencyIn(e: Event, dir: string): map<string, Value> {
    if dir in e.data && e.data[dir].Fields? && "latency" in e.data[dir].m && e.data[dir].m["latency"].Fields?
    then e.data[dir].m["latency"].m
    else map[]
  }

  function Delay(m: map<string, Value>, key: string): int {
    if key in m && m[key].Duration? then m[key].ns else 0
  }

  ghost predicate ReadsDir(d: IODir, e: Event, dir: string) {
    var m := LatencyIn(e, dir);
    && d.totalBytes == Truncate(Figure(e, dir, "total"))
    && d.overall == Figure(e, dir, "overall")
    && d.overallWall == Figure(e, dir, "overall_wall")
    && d.latency.count == (if "count" in m && m["count"].Int64? then m["count"].i else 0)
    && d.latency.avg == Delay(m, "avg") && d.latency.p50 == Delay(m, "p50")
    && d.latency.p95 == Delay(m, "p95") && d.latency.max == Delay(m, "max")
  }

  lemma DirReads(e: Event, dir: string)
    ensures ReadsDir(IODirFromEvent(e, dir), e, dir)
  {
  }

  /** A scope shows the last report naming it: its read side under "r", its write side under "w". */
  lemma ScopeIsTheLast(trace: seq<Event>, scope: string, i: nat)
    requires LastNaming(trace, scope, i)
    ensures scope in Fold(trace).io
    ensures ReadsDir(Fold(trace).io[scope].read, trace[i], "r") && ReadsDir(Fold(trace).io[scope].write, trace[i], "w")
  {
    IoIsTheLast(trace, scope);
    DirReads(trace[i], "r");
    DirReads(trace[i], "w");
  }

  /** An event names a scope when it is an IO report with that text under "scope", which is not empty. */
  lemma NamesScope(e: Event, scope: string)
    ensures Names(e, scope) <==> e.kind.IoStats? && scope != "" && "scope" in e.data && e.data["scope"] == Str(scope)
  {
  }

  /** Truncation drops the fraction, toward zero. */
  lemma TruncateDrops(r: real)
    ensures r >= 0.0 ==> 0.0 <= Truncate(r) as real <= r < (Truncate(r) + 1) as real
    ensures r < 0.0 ==> (Truncate(r) - 1) as real < r <= Truncate(r) as real <= 0.0
  {
  }

  // ----- recent paths -----

  /** The path an event is about. */
  function PathName(e: Event): string {
    if "path" in e.data && e.data["path"].Str? then e.data["path"].s else ""
  }

  predicate Starts(e: Event, path: string) {
    e.kind == Entry(Paths, Seen) && PathName(e) == path
  }

  function Ends(path: string): Event -> bool {
    (e: Event) =>
      && (e.kind == Entry(Paths, Okay) || e.kind == Entry(Paths, Error) || e.kind == Entry(Paths, Cached))
      && PathName(e) == path
  }

  function OutcomeOf(): Event -> Option<Outcome> {
    (e: Event) => Some(if e.kind == Entry(Paths, Error) then Failed else Succeeded)
  }

  /** Event i starts the path, and no later one ends it. */
  ghost predicate StartedAt(trace: seq<Event>, path: string, i: nat) {
    i < |trace| && Starts(trace[i], path) && forall j :: i < j < |trace| ==> !Ends(path)(trace[j])
  }

  lemma PathOpIs(e: Event, path: string)
    ensures Starts(e, path) <==> PathOpOf(e) == Some(Start(path))
    ensures Ends(path)(e) <==> PathOpOf(e).Some? && PathOpOf(e).value.Settle? && PathOpOf(e).value.path == path
    ensures Ends(path)(e) ==> Some(PathOpOf(e).value.outcome) == OutcomeOf()(e)
  {
  }

  lemma LastOp(ops: seq<PathOp>, op: PathOp, path: string)
    ensures path in InFlight(ops + [op]) <==>
      if op.Start? then op.path == path || path in InFlight(ops) else op.path != path && path in InFlight(ops)
    ensures LastSettle(ops + [op], path) ==
      if op.Settle? && op.path == path then Some(op.outcome) else LastSettle(ops, path)
  {
    OpSnoc(ops, op);
    assert (ops + [op])[..|ops|] == ops;
  }

  /** What one more event does to a path. */
  lemma PathStep(before: seq<Event>, e: Event, path: string)
    ensures path in InFlight(PathOps(before + [e])) <==>
      Starts(e, path) || (!Ends(path)(e) && path in InFlight(PathOps(before)))
    ensures LastSettle(PathOps(before + [e]), path) ==
      if Ends(path)(e) then OutcomeOf()(e) else LastSettle(PathOps(before), path)
  {
    assert (before + [e])[..|before|] == before;
    PathOpIs(e, path);
    if PathOpOf(e).Some? {
      LastOp(PathOps(before), PathOpOf(e).value, path);
    } else {
      assert PathOps(before) + [] == PathOps(before);
    }
  }

  /** A path is in flight when some event starts it and none ends it afterwards. */
  lemma {:induction false} InFlightEvents(trace: seq<Event>, path: string)
    ensures path in InFlight(PathOps(trace)) <==> exists i :: StartedAt(trace, path, i)
  {
    if trace == [] {
    } else {
      var n := |trace| - 1;
      InFlightEvents(trace[..n], path);
      assert trace == trace[..n] + [trace[n]];
      PathStep(trace[..n], trace[n], path);
      if Starts(trace[n], path) {
        assert StartedAt(trace, path, n);
      } else if !Ends(path)(trace[n]) {
        assert forall i: nat :: StartedAt(trace, path, i) <==> StartedAt(trace[..n], path, i);
      }
    }
  }

  /** A path was last settled as its last ending event says: failed for a path error only. */
  lemma LastSettleEvents(trace: seq<Event>, path: string)
    ensures forall i: nat :: LastWhere(trace, Ends(path), i) ==>
              LastSettle(PathOps(trace), path) == OutcomeOf()(trace[i])
    ensures Nowhere(trace, Ends(path)) ==> LastSettle(PathOps(trace), path) == None
  {
    var at := (k: nat) => if k <= |trace| then LastSettle(PathOps(trace[..k]), path) else None;
    forall k | 0 <= k < |trace|
      ensures at(k + 1) == if Ends(path)(trace[k]) then OutcomeOf()(trace[k]) else at(k)
    {
      assert trace[..k + 1] == trace[..k] + [trace[k]];
      PathStep(trace[..k], trace[k], path);
    }
    LastLaw(trace, at, Ends(path), OutcomeOf(), |trace|);
    assert trace[..|trace|] == trace;
  }

  /** What a shown entry means, in events. */
  ghost predicate Witnessed(trace: seq<Event>, e: RecentPath) {
    match e.status
    case InProgress => exists i :: StartedAt(trace, e.path, i)
    case Settled(o) => exists i: nat :: LastWhere(trace, Ends(e.path), i) && OutcomeOf()(trace[i]) == Some(o)
  }

  lemma EntryWitnessed(trace: seq<Event>, e: RecentPath)
    requires e in Fold(trace).recentPaths
    ensures Witnessed(trace, e)
  {
    RecentIsWindow(trace);
    WindowTruthful(PathOps(trace), MAX_RECENT_PATHS);
    InFlightEvents(trace, e.path);
    LastSettleEvents(trace, e.path);
    LastExists(trace, Ends(e.path));
  }

  /**
   On every trace the streamed recent paths are at most five, those in progress first, with one settled
   entry a path; and each shows its path as the events left it.
   */
  lemma RecentEntries(trace: seq<Event>)
    ensures var shown := Fold(trace).recentPaths;
            && |shown| <= 5
            && Ordered(shown)
            && Distinct(Past(shown))
            && forall e :: e in shown ==> Witnessed(trace, e)
  {
    RecentIsWindow(trace);
    WindowTruthful(PathOps(trace), MAX_RECENT_PATHS);
    forall e | e in Fold(trace).recentPaths ensures Witnessed(trace, e) {
      EntryWitnessed(trace, e);
    }
  }

  /** With the documented discipline they are the first five of the open starts and final settles, newest first. */
  lemma RecentExact(trace: seq<Event>)
    requires Disciplined(PathOps(trace), 5)
    ensures Fold(trace).recentPaths == Take(OpenStarts(PathOps(trace)) + FinalSettles(PathOps(trace)), 5)
  {
    RecentIsWindow(trace);
    DisciplinedExact(PathOps(trace));
    UncappedIs(PathOps(trace));
  }
}
