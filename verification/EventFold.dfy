/** The event bus fold: what each kloset event does to the streamed state, and what a whole trace amounts to. */
module EventFold {
  import opened Prelude
  import opened SnapshotIds
  import opened RecentPaths

  // ----- events -----

  /** A value an event's data map may hold. */
  datatype Value =
    | Str(s: string)
    | Int64(i: int)
    | Uint64(u: u64)
    | Float64(r: real)
    | Duration(ns: int)
    | FileInfo(size: int)
    | Fields(m: map<string, Value>)
    | Opaque

  datatype Class = Paths | Dirs | Files | Xattrs | Symlinks | Objects | Chunks

  /** The bare event of a class, or its ".ok", ".error" or ".cached" form. */
  datatype Stage = Seen | Okay | Error | Cached

  datatype Kind =
    | WorkflowStart
    | Entry(class_: Class, stage: Stage)
    | FsSummary
    | ImportStart
    | VfsStart
    | VfsEnd
    | IndexStart
    | IndexEnd
    | CommitStart
    | IoStats
    | RunResult
    | Ignored            // every other type, workflow.end and snapshot.import.done included

  datatype Event = Event(kind: Kind, snapshot: Mac, data: map<string, Value>)

  // eventField: the value under a key if it has the right type

  function Field(e: Event, key: string): Value {
    if key in e.data then e.data[key] else Opaque
  }

  function StringField(e: Event, key: string): string {
    if Field(e, key).Str? then Field(e, key).s else ""
  }

  function Uint64Field(e: Event, key: string): u64 {
    if Field(e, key).Uint64? then Field(e, key).u else 0
  }

  function Int64Field(e: Event, key: string): int {
    if Field(e, key).Int64? then Field(e, key).i else 0
  }

  function FileSize(e: Event): int {
    if Field(e, "fileinfo").FileInfo? then Field(e, "fileinfo").size else 0
  }

  // ----- state -----

  datatype StateCounter = StateCounter(total: u64, okay: u64, error: u64, size: u64, cached: u64, cachedSize: u64)

  datatype Summary = Summary(present: bool, paths: u64, files: u64, directories: u64, symlinks: u64, xattrs: u64,
                             size: u64)

  datatype RunOutcome = RunOutcome(size: u64, errors: u64, nanoseconds: int)

  datatype Latency = Latency(count: int, avg: int, p50: int, p95: int, max: int)

  datatype IODir = IODir(totalBytes: int, overall: real, overallWall: real, latency: Latency)

  datatype IOScope = IOScope(read: IODir, write: IODir)

  datatype State = State(
    snapshotID: string,
    phase: string,
    summary: Summary,
    paths: StateCounter,
    dirs: StateCounter,
    files: StateCounter,
    xattrs: StateCounter,
    symlinks: StateCounter,
    objects: StateCounter,
    chunks: StateCounter,
    result: RunOutcome,
    io: map<string, IOScope>,
    recentPaths: seq<RecentPath>)

  const ZERO_COUNTER := StateCounter(0, 0, 0, 0, 0, 0)

  const NO_LATENCY := Latency(0, 0, 0, 0, 0)

  /** The zero State a listener starts from. */
  const ZERO_STATE := State("", "", Summary(false, 0, 0, 0, 0, 0, 0),
    ZERO_COUNTER, ZERO_COUNTER, ZERO_COUNTER, ZERO_COUNTER, ZERO_COUNTER, ZERO_COUNTER, ZERO_COUNTER,
    RunOutcome(0, 0, 0), map[], [])

  function Counter(s: State, c: Class): StateCounter {
    match c
    case Paths => s.paths
    case Dirs => s.dirs
    case Files => s.files
    case Xattrs => s.xattrs
    case Symlinks => s.symlinks
    case Objects => s.objects
    case Chunks => s.chunks
  }

  function SetCounter(s: State, c: Class, v: StateCounter): State {
    match c
    case Paths => s.(paths := v)
    case Dirs => s.(dirs := v)
    case Files => s.(files := v)
    case Xattrs => s.(xattrs := v)
    case Symlinks => s.(symlinks := v)
    case Objects => s.(objects := v)
    case Chunks => s.(chunks := v)
  }

  // ----- one event -----

  /** The bytes an ".ok" or ".cached" event accounts for: files carry a file info, xattrs a size. */
  function SizeOf(e: Event, c: Class): int {
    match c
    case Files => FileSize(e)
    case Xattrs => Int64Field(e, "size")
    case _ => 0
  }

  function Bump(v: StateCounter, stage: Stage, size: int): StateCounter {
    match stage
    case Seen => v.(total := Wrap64(v.total + 1))
    case Okay => v.(okay := Wrap64(v.okay + 1), size := Wrap64(v.size + size))
    case Error => v.(error := Wrap64(v.error + 1))
    case Cached => v.(cached := Wrap64(v.cached + 1), cachedSize := Wrap64(v.cachedSize + size))
  }

  /** What an event does to the recency list, if anything. */
  function PathOpOf(e: Event): Option<PathOp> {
    match e.kind
    case Entry(Paths, Seen) => Some(Start(StringField(e, "path")))
    case Entry(Paths, Okay) => Some(Settle(StringField(e, "path"), Succeeded))
    case Entry(Paths, Error) => Some(Settle(StringField(e, "path"), Failed))
    case Entry(Paths, Cached) => Some(Settle(StringField(e, "path"), Succeeded))
    case _ => None
  }

  function Recent(l: seq<RecentPath>, op: PathOp): seq<RecentPath> {
    Take(Apply(l, op), MAX_RECENT_PATHS)
  }

  function RealField(m: map<string, Value>, key: string): real {
    if key in m then
      match m[key]
      case Float64(r) => r
      case Int64(i) => i as real
      case _ => 0.0
    else 0.0
  }

  function DurationField(m: map<string, Value>, key: string): int {
    if key in m && m[key].Duration? then m[key].ns else 0
  }

  /** Go's conversion of a float to an integer: toward zero. */
  function Truncate(r: real): int {
    if r >= 0.0 then r.Floor else -((-r).Floor)
  }

  function LatencyFromDir(dir: map<string, Value>): Latency {
    if "latency" in dir && dir["latency"].Fields? then
      var m := dir["latency"].m;
      Latency(if "count" in m && m["count"].Int64? then m["count"].i else 0,
              DurationField(m, "avg"), DurationField(m, "p50"), DurationField(m, "p95"), DurationField(m, "max"))
    else NO_LATENCY
  }

  function IODirFromEvent(e: Event, key: string): IODir {
    var dir := if Field(e, key).Fields? then Field(e, key).m else map[];
    IODir(Truncate(RealField(dir, "total")), RealField(dir, "overall"), RealField(dir, "overall_wall"),
          LatencyFromDir(dir))
  }

  function ScopeOf(e: Event): IOScope {
    IOScope(IODirFromEvent(e, "r"), IODirFromEvent(e, "w"))
  }

  /** updateState on values. */
  function Step(s: State, e: Event): State {
    match e.kind
    case WorkflowStart => if !IsNilMac(e.snapshot) then s.(snapshotID := FormatHex(e.snapshot)) else s
    case Entry(c, stage) =>
      var s' := SetCounter(s, c, Bump(Counter(s, c), stage, SizeOf(e, c)));
      if PathOpOf(e).Some? then s'.(recentPaths := Recent(s.recentPaths, PathOpOf(e).value)) else s'
    case FsSummary =>
      var f, d := Uint64Field(e, "files"), Uint64Field(e, "directories");
      var l, x := Uint64Field(e, "symlinks"), Uint64Field(e, "xattrs");
      s.(summary := Summary(true, Wrap64(f + d + l + x), f, d, l, x, Uint64Field(e, "size")))
    case ImportStart => s.(phase := "processing")
    case VfsStart => s.(phase := "building VFS")
    case VfsEnd => s.(phase := "")
    case IndexStart => s.(phase := "indexing")
    case IndexEnd => s.(phase := "")
    case CommitStart => s.(phase := "committing")
    case IoStats =>
      var scope := StringField(e, "scope");
      if scope == "" then s else s.(io := s.io[scope := ScopeOf(e)])
    case RunResult =>
      var ns := if Field(e, "duration").Duration? then Field(e, "duration").ns else s.result.nanoseconds;
      s.(phase := "completed", result := RunOutcome(Uint64Field(e, "size"), Uint64Field(e, "errors"), ns))
    case Ignored => s
  }

  function Fold(trace: seq<Event>): State {
    if trace == [] then ZERO_STATE else Step(Fold(trace[..|trace| - 1]), trace[|trace| - 1])
  }

  lemma FoldSnoc(trace: seq<Event>, e: Event)
    ensures Fold(trace + [e]) == Step(Fold(trace), e)
  {
    assert (trace + [e])[..|trace|] == trace;
  }

  // ----- the listener -----

  lemma FilterSnoc<T>(s: seq<T>, i: nat, p: T -> bool)
    requires i < |s|
    ensures Filter(s[..i + 1], p) == Filter(s[..i], p) + if p(s[i]) then [s[i]] else []
  {
    assert s[..i + 1] == s[..i] + [s[i]];
    FilterConcat(s[..i], [s[i]], p);
  }

  /** One more entry of a list, as the two halves left by a settle see it. */
  lemma OthersSnoc(l: seq<RecentPath>, i: nat, path: string)
    requires i < |l|
    ensures var before, after, e := Without(l[..i], path), Without(l[..i + 1], path), l[i];
            && Active(after) == Active(before) + (if e.path != path && e.status.InProgress? then [e] else [])
            && Past(after) == Past(before) + (if e.path != path && e.status.Settled? then [e] else [])
  {
    var before, last := Without(l[..i], path), if l[i].path != path then [l[i]] else [];
    FilterSnoc(l, i, IsOther(path));
    FilterConcat(before, last, IsInProgress());
    FilterConcat(before, last, IsSettled());
  }

  /** The live state, mutated by every event under a lock. */
  class EventListener {
    var state: State

    constructor ()
      ensures state == ZERO_STATE
    {
      state := ZERO_STATE;
    }

    /** Splits the list in two by status and heads the in-progress part with the path. */
    method StartRecentPath(path: string)
      modifies this
      ensures state == old(state).(recentPaths := Recent(old(state).recentPaths, Start(path)))
    {
      var l := state.recentPaths;
      var inProgress, settled := [RecentPath(path, InProgress)], [];
      for i := 0 to |l|
        invariant inProgress == [RecentPath(path, InProgress)] + Active(l[..i])
        invariant settled == Past(l[..i])
        invariant state == old(state)
      {
        FilterSnoc(l, i, IsInProgress());
        FilterSnoc(l, i, IsSettled());
        if l[i].status.InProgress? {
          inProgress := inProgress + [l[i]];
        } else {
          settled := settled + [l[i]];
        }
      }
      assert l[..|l|] == l;
      state := state.(recentPaths := Take(inProgress + settled, MAX_RECENT_PATHS));
    }

    /** Drops every entry of the path, then splits the rest around its new, settled one. */
    method SettleRecentPath(path: string, outcome: Outcome)
      modifies this
      ensures state == old(state).(recentPaths := Recent(old(state).recentPaths, Settle(path, outcome)))
    {
      var l := state.recentPaths;
      var mid := RecentPath(path, Settled(outcome));
      var inProgress, settled := [], [mid];
      for i := 0 to |l|
        invariant inProgress == Active(Without(l[..i], path))
        invariant settled == [mid] + Past(Without(l[..i], path))
        invariant state == old(state)
      {
        OthersSnoc(l, i, path);
        if l[i].path == path {
          continue;
        }
        if l[i].status.InProgress? {
          inProgress := inProgress + [l[i]];
        } else {
          settled := settled + [l[i]];
        }
      }
      assert l[..|l|] == l;
      assert inProgress + settled == Apply(l, Settle(path, outcome));
      state := state.(recentPaths := Take(inProgress + settled, MAX_RECENT_PATHS));
    }

    /** Folds one event into the state. */
    method HandleEvent(e: Event)
      modifies this
      ensures state == Step(old(state), e)
    {
      match e.kind {
        case WorkflowStart =>
          if !IsNilMac(e.snapshot) {
            state := state.(snapshotID := FormatHex(e.snapshot));
          }
        case Entry(c, stage) =>
          state := SetCounter(state, c, Bump(Counter(state, c), stage, SizeOf(e, c)));
          if c == Paths {
            var path := StringField(e, "path");
            match stage {
              case Seen => StartRecentPath(path);
              case Okay => SettleRecentPath(path, Succeeded);
              case Error => SettleRecentPath(path, Failed);
              case Cached => SettleRecentPath(path, Succeeded);
            }
          }
        case IoStats =>
          var scope := StringField(e, "scope");
          if scope == "" {
            return;
          }
          state := state.(io := state.io[scope := ScopeOf(e)]);
        case FsSummary =>
          var f: int, d: int := Uint64Field(e, "files"), Uint64Field(e, "directories");
          var l: int, x: int := Uint64Field(e, "symlinks"), Uint64Field(e, "xattrs");
          state := state.(summary := Summary(true, Wrap64(f + d + l + x), f, d, l, x, Uint64Field(e, "size")));
        case ImportStart => state := state.(phase := "processing");
        case VfsStart => state := state.(phase := "building VFS");
        case VfsEnd => state := state.(phase := "");
        case IndexStart => state := state.(phase := "indexing");
        case IndexEnd => state := state.(phase := "");
        case CommitStart => state := state.(phase := "committing");
        case RunResult =>
          var r := RunOutcome(Uint64Field(e, "size"), Uint64Field(e, "errors"), state.result.nanoseconds);
          if Field(e, "duration").Duration? {
            r := r.(nanoseconds := Field(e, "duration").ns);
          }
          state := state.(phase := "completed", result := r);
        case Ignored =>
      }
    }
  }

  // ----- what a whole trace amounts to -----

  function Sum(trace: seq<Event>, f: Event -> int): int {
    if trace == [] then 0 else Sum(trace[..|trace| - 1], f) + f(trace[|trace| - 1])
  }

  lemma {:induction false} SumRemove(trace: seq<Event>, i: nat, f: Event -> int)
    requires i < |trace|
    ensures Sum(trace, f) == Sum(trace[..i] + trace[i + 1..], f) + f(trace[i])
  {
    var n := |trace| - 1;
    if i == n {
      assert trace[..i] + trace[i + 1..] == trace[..n];
    } else {
      SumRemove(trace[..n], i, f);
      RemoveBeforeLast(trace, i);
    }
  }

  lemma RemoveBeforeLast(trace: seq<Event>, i: nat)
    requires i < |trace| - 1
    ensures var n, rest := |trace| - 1, trace[..i] + trace[i + 1..];
            |rest| == n && rest[..n - 1] == trace[..n][..i] + trace[..n][i + 1..] && rest[n - 1] == trace[n]
  {
  }

  lemma RemoveOne(b: seq<Event>, i: nat)
    requires i < |b|
    ensures multiset(b[..i] + b[i + 1..]) == multiset(b) - multiset{b[i]}
  {
    assert b == b[..i] + ([b[i]] + b[i + 1..]);
  }

  lemma {:induction false} SumPermutation(a: seq<Event>, b: seq<Event>, f: Event -> int)
    requires multiset(a) == multiset(b)
    ensures Sum(a, f) == Sum(b, f)
  {
    if a == [] {
      assert |multiset(b)| == 0;
    } else {
      var n := |a| - 1;
      assert a[n] in multiset(b);
      var i :| 0 <= i < |b| && b[i] == a[n];
      RemoveOne(a, n);
      assert a[..n] + a[n + 1..] == a[..n];
      RemoveOne(b, i);
      SumPermutation(a[..n], b[..i] + b[i + 1..], f);
      SumRemove(b, i, f);
    }
  }

  function Is(c: Class, stage: Stage): Event -> int {
    (e: Event) => if e.kind == Entry(c, stage) then 1 else 0
  }

  function Bytes(c: Class, stage: Stage): Event -> int {
    (e: Event) => if e.kind == Entry(c, stage) then SizeOf(e, c) else 0
  }

  /** The counter of a class, computed from the whole trace at once. */
  function Tally(trace: seq<Event>, c: Class): StateCounter {
    StateCounter(
      Wrap64(Sum(trace, Is(c, Seen))),
      Wrap64(Sum(trace, Is(c, Okay))),
      Wrap64(Sum(trace, Is(c, Error))),
      Wrap64(Sum(trace, Bytes(c, Okay))),
      Wrap64(Sum(trace, Is(c, Cached))),
      Wrap64(Sum(trace, Bytes(c, Cached))))
  }

  lemma StepCounter(s: State, e: Event, c: Class)
    ensures Counter(Step(s, e), c) ==
      match e.kind
      case Entry(d, stage) => if c == d then Bump(Counter(s, c), stage, SizeOf(e, c)) else Counter(s, c)
      case _ => Counter(s, c)
  {
  }

  lemma SumSnoc(before: seq<Event>, e: Event, f: Event -> int)
    ensures Sum(before + [e], f) == Sum(before, f) + f(e)
  {
    assert (before + [e])[..|before|] == before;
  }

  lemma {:induction false} SumConcat(a: seq<Event>, b: seq<Event>, f: Event -> int)
    ensures Sum(a + b, f) == Sum(a, f) + Sum(b, f)
  {
    if b == [] {
      assert a + b == a;
    } else {
      var n := |b| - 1;
      SumConcat(a, b[..n], f);
      assert a + b == a + b[..n] + [b[n]];
      SumSnoc(a + b[..n], b[n], f);
    }
  }

  lemma SumSplit(trace: seq<Event>, cut: nat, f: Event -> int)
    requires cut <= |trace|
    ensures Sum(trace, f) == Sum(trace[..cut], f) + Sum(trace[cut..], f)
  {
    SumConcat(trace[..cut], trace[cut..], f);
    assert trace == trace[..cut] + trace[cut..];
  }

  lemma CountSnoc(before: seq<Event>, e: Event, c: Class, stage: Stage)
    ensures Wrap64(Sum(before + [e], Is(c, stage))) ==
      if e.kind == Entry(c, stage) then Wrap64(Wrap64(Sum(before, Is(c, stage))) + 1)
      else Wrap64(Sum(before, Is(c, stage)))
    ensures Wrap64(Sum(before + [e], Bytes(c, stage))) ==
      if e.kind == Entry(c, stage) then Wrap64(Wrap64(Sum(before, Bytes(c, stage))) + SizeOf(e, c))
      else Wrap64(Sum(before, Bytes(c, stage)))
  {
    SumSnoc(before, e, Is(c, stage));
    SumSnoc(before, e, Bytes(c, stage));
    WrapAdd(Sum(before, Is(c, stage)), 1);
    WrapAdd(Sum(before, Bytes(c, stage)), SizeOf(e, c));
  }

  /** The event count a counter keeps for a stage. */
  function Reading(v: StateCounter, stage: Stage): u64 {
    match stage
    case Seen => v.total
    case Okay => v.okay
    case Error => v.error
    case Cached => v.cached
  }

  /** The bytes a counter keeps for a stage. */
  function Volume(v: StateCounter, stage: Stage): u64 {
    match stage
    case Okay => v.size
    case Cached => v.cachedSize
    case _ => 0
  }

  lemma BumpReading(v: StateCounter, bumped: Stage, size: int, stage: Stage)
    ensures Reading(Bump(v, bumped, size), stage) ==
      if stage == bumped then Wrap64(Reading(v, stage) + 1) else Reading(v, stage)
    ensures stage.Okay? || stage.Cached? ==>
      Volume(Bump(v, bumped, size), stage) ==
        if stage == bumped then Wrap64(Volume(v, stage) + size) else Volume(v, stage)
  {
  }

  /** What a counter shows for a stage is the tally of the trace. */
  ghost predicate Tallied(v: StateCounter, trace: seq<Event>, c: Class, stage: Stage) {
    && Reading(v, stage) == Wrap64(Sum(trace, Is(c, stage)))
    && (stage.Okay? || stage.Cached? ==> Volume(v, stage) == Wrap64(Sum(trace, Bytes(c, stage))))
  }

  lemma TallyStep(s: State, before: seq<Event>, e: Event, c: Class, stage: Stage)
    requires Tallied(Counter(s, c), before, c, stage)
    ensures Tallied(Counter(Step(s, e), c), before + [e], c, stage)
  {
    CountSnoc(before, e, c, stage);
    StepCounter(s, e, c);
    if e.kind.Entry? && e.kind.class_ == c {
      BumpReading(Counter(s, c), e.kind.stage, SizeOf(e, c), stage);
    }
  }

  lemma {:induction false} StageTally(trace: seq<Event>, c: Class, stage: Stage)
    ensures Tallied(Counter(Fold(trace), c), trace, c, stage)
  {
    if trace == [] {
    } else {
      var n := |trace| - 1;
      StageTally(trace[..n], c, stage);
      TallyStep(Fold(trace[..n]), trace[..n], trace[n], c, stage);
      assert trace == trace[..n] + [trace[n]];
    }
  }

  /** Every counter is the number, or the summed bytes, of the events of its kind, modulo 2^64. */
  lemma CountersAreTallies(trace: seq<Event>, c: Class)
    ensures Counter(Fold(trace), c) == Tally(trace, c)
  {
    StageTally(trace, c, Seen);
    StageTally(trace, c, Okay);
    StageTally(trace, c, Error);
    StageTally(trace, c, Cached);
  }

  /** Counters and sizes do not depend on the order events arrive in. */
  lemma CountersIgnoreOrder(a: seq<Event>, b: seq<Event>, c: Class)
    requires multiset(a) == multiset(b)
    ensures Counter(Fold(a), c) == Counter(Fold(b), c)
  {
    CountersAreTallies(a, c);
    CountersAreTallies(b, c);
    SumPermutation(a, b, Is(c, Seen));
    SumPermutation(a, b, Is(c, Okay));
    SumPermutation(a, b, Is(c, Error));
    SumPermutation(a, b, Is(c, Cached));
    SumPermutation(a, b, Bytes(c, Okay));
    SumPermutation(a, b, Bytes(c, Cached));
  }

  lemma {:induction false} CountGrows(trace: seq<Event>, i: nat, c: Class, stage: Stage)
    requires i <= |trace|
    ensures 0 <= Sum(trace[..i], Is(c, stage)) <= Sum(trace, Is(c, stage)) <= |trace|
    decreases |trace|
  {
    if i == |trace| {
      assert trace[..i] == trace;
      if i > 0 {
        CountGrows(trace[..i - 1], i - 1, c, stage);
        assert trace[..i - 1][..i - 1] == trace[..i - 1];
      }
    } else {
      var n := |trace| - 1;
      CountGrows(trace[..n], i, c, stage);
      assert trace[..n][..i] == trace[..i];
    }
  }

  /** Along the prefixes of a trace of fewer than 2^64 events no event counter ever goes down. */
  lemma CountersNeverDecrease(trace: seq<Event>, i: nat, c: Class, stage: Stage)
    requires i <= |trace| < TWO_64
    ensures Reading(Counter(Fold(trace[..i]), c), stage) <= Reading(Counter(Fold(trace), c), stage)
  {
    StageTally(trace[..i], c, stage);
    StageTally(trace, c, stage);
    CountGrows(trace, i, c, stage);
    WrapSmall(Sum(trace[..i], Is(c, stage)));
    WrapSmall(Sum(trace, Is(c, stage)));
  }

  lemma {:induction false} CountZero(trace: seq<Event>, c: Class, stage: Stage)
    ensures 0 <= Sum(trace, Is(c, stage)) <= |trace|
    ensures Sum(trace, Is(c, stage)) == 0 <==> forall i :: 0 <= i < |trace| ==> trace[i].kind != Entry(c, stage)
  {
    if trace == [] {
    } else {
      CountZero(trace[..|trace| - 1], c, stage);
    }
  }

  /** A prefix of a trace gives an event counter its final value exactly when no event of that kind follows. */
  lemma CounterFinalIff(trace: seq<Event>, cut: nat, c: Class, stage: Stage)
    requires cut <= |trace| < TWO_64
    ensures var late := trace[cut..];
            Reading(Counter(Fold(trace[..cut]), c), stage) == Reading(Counter(Fold(trace), c), stage)
            <==> forall i :: 0 <= i < |late| ==> late[i].kind != Entry(c, stage)
  {
    SumSplit(trace, cut, Is(c, stage));
    ExactCount(trace[..cut], c, stage);
    ExactCount(trace, c, stage);
    CountZero(trace[cut..], c, stage);
  }

  lemma ExactCount(trace: seq<Event>, c: Class, stage: Stage)
    requires |trace| < TWO_64
    ensures Reading(Counter(Fold(trace), c), stage) == Sum(trace, Is(c, stage))
  {
    StageTally(trace, c, stage);
    CountZero(trace, c, stage);
    WrapSmall(Sum(trace, Is(c, stage)));
  }

  /** Does the event report fresh IO for this scope? */
  predicate Names(e: Event, scope: string) {
    e.kind.IoStats? && scope != "" && StringField(e, "scope") == scope
  }

  /** Event i is the last one naming the scope. */
  ghost predicate LastNaming(trace: seq<Event>, scope: string, i: nat) {
    i < |trace| && Names(trace[i], scope) && forall j :: i < j < |trace| ==> !Names(trace[j], scope)
  }

  lemma StepIo(s: State, e: Event, scope: string)
    ensures Names(e, scope) ==> scope in Step(s, e).io && Step(s, e).io[scope] == ScopeOf(e)
    ensures !Names(e, scope) ==> (scope in Step(s, e).io <==> scope in s.io)
    ensures !Names(e, scope) && scope in s.io ==> Step(s, e).io[scope] == s.io[scope]
  {
  }

  /** Per-scope IO is that of the last event naming the scope, and of no event at all if none does. */
  lemma {:induction false} IoIsTheLast(trace: seq<Event>, scope: string)
    ensures scope in Fold(trace).io <==> exists i: nat :: LastNaming(trace, scope, i)
    ensures forall i: nat :: LastNaming(trace, scope, i) ==>
              scope in Fold(trace).io && Fold(trace).io[scope] == ScopeOf(trace[i])
  {
    if trace == [] {
    } else {
      var n := |trace| - 1;
      var before, e := trace[..n], trace[n];
      IoIsTheLast(before, scope);
      StepIo(Fold(before), e, scope);
      if Names(e, scope) {
        assert LastNaming(trace, scope, n);
      } else {
        assert forall i: nat :: LastNaming(trace, scope, i) <==> LastNaming(before, scope, i);
      }
    }
  }

  /** The recency operations of a trace, in order. */
  function PathOps(trace: seq<Event>): seq<PathOp> {
    if trace == [] then []
    else
      var op := PathOpOf(trace[|trace| - 1]);
      PathOps(trace[..|trace| - 1]) + if op.Some? then [op.value] else []
  }

  lemma StepRecent(s: State, e: Event)
    ensures Step(s, e).recentPaths ==
      if PathOpOf(e).Some? then Recent(s.recentPaths, PathOpOf(e).value) else s.recentPaths
  {
  }

  lemma WindowSnoc(ops: seq<PathOp>, op: PathOp)
    ensures Window(ops + [op], MAX_RECENT_PATHS) == Recent(Window(ops, MAX_RECENT_PATHS), op)
  {
    assert (ops + [op])[..|ops|] == ops;
  }

  /** The streamed recent paths are the window of the trace's path events. */
  lemma {:induction false} RecentIsWindow(trace: seq<Event>)
    ensures Fold(trace).recentPaths == Window(PathOps(trace), MAX_RECENT_PATHS)
  {
    if trace == [] {
    } else {
      var before, e := trace[..|trace| - 1], trace[|trace| - 1];
      assert trace == before + [e];
      RecentIsWindow(before);
      RecentSnoc(before, e);
    }
  }

  lemma RecentSnoc(before: seq<Event>, e: Event)
    requires Fold(before).recentPaths == Window(PathOps(before), MAX_RECENT_PATHS)
    ensures Fold(before + [e]).recentPaths == Window(PathOps(before + [e]), MAX_RECENT_PATHS)
  {
    FoldSnoc(before, e);
    StepRecent(Fold(before), e);
    PathOpsSnoc(before, e);
  }

  lemma PathOpsSnoc(before: seq<Event>, e: Event)
    ensures Window(PathOps(before + [e]), MAX_RECENT_PATHS) ==
      if PathOpOf(e).Some? then Recent(Window(PathOps(before), MAX_RECENT_PATHS), PathOpOf(e).value)
      else Window(PathOps(before), MAX_RECENT_PATHS)
  {
    assert (before + [e])[..|before|] == before;
    if PathOpOf(e).Some? {
      WindowSnoc(PathOps(before), PathOpOf(e).value);
    } else {
      assert PathOps(before) + [] == PathOps(before);
    }
  }

  // ----- the errors a restore is judged on -----

  predicate IsEntryError(e: Event) {
    e.kind.Entry? && e.kind.stage.Error? && e.kind.class_ in {Paths, Files, Dirs, Symlinks, Xattrs}
  }

  function EntryErrorHit(): Event -> int {
    (e: Event) => if IsEntryError(e) then 1 else 0
  }

  function EntryErrors(trace: seq<Event>): int {
    Sum(trace, EntryErrorHit())
  }

  lemma {:induction false} EntryErrorsSplit(trace: seq<Event>)
    ensures EntryErrors(trace) ==
      Sum(trace, Is(Paths, Error)) + Sum(trace, Is(Files, Error)) + Sum(trace, Is(Dirs, Error))
                                  + Sum(trace, Is(Symlinks, Error)) + Sum(trace, Is(Xattrs, Error))
  {
    if trace == [] {
    } else {
      EntryErrorsSplit(trace[..|trace| - 1]);
    }
  }

  lemma {:induction false} EntryErrorsZero(trace: seq<Event>)
    ensures 0 <= EntryErrors(trace) <= |trace|
    ensures EntryErrors(trace) == 0 <==> forall i :: 0 <= i < |trace| ==> !IsEntryError(trace[i])
  {
    if trace == [] {
    } else {
      EntryErrorsZero(trace[..|trace| - 1]);
    }
  }

  /** The sum terminalError computes on a state. */
  function ErrorSum(s: State): u64 {
    Wrap64(s.paths.error + s.files.error + s.dirs.error + s.symlinks.error + s.xattrs.error)
  }

  lemma ErrorReading(trace: seq<Event>, c: Class)
    ensures Counter(Fold(trace), c).error == Wrap64(Sum(trace, Is(c, Error)))
  {
    StageTally(trace, c, Error);
  }

  lemma ErrorSumOf(s: State, p: int, f: int, d: int, l: int, x: int)
    requires s.paths.error == Wrap64(p) && s.files.error == Wrap64(f) && s.dirs.error == Wrap64(d)
    requires s.symlinks.error == Wrap64(l) && s.xattrs.error == Wrap64(x)
    ensures ErrorSum(s) == Wrap64(p + f + d + l + x)
  {
    WrapFive(p, f, d, l, x);
  }

  /** On the fold of a trace it is the number of its entry errors, modulo 2^64. */
  lemma ErrorSumCounts(trace: seq<Event>)
    ensures ErrorSum(Fold(trace)) == Wrap64(EntryErrors(trace))
  {
    EntryErrorsSplit(trace);
    ErrorReading(trace, Paths);
    ErrorReading(trace, Files);
    ErrorReading(trace, Dirs);
    ErrorReading(trace, Symlinks);
    ErrorReading(trace, Xattrs);
    ErrorSumOf(Fold(trace), Sum(trace, Is(Paths, Error)), Sum(trace, Is(Files, Error)), Sum(trace, Is(Dirs, Error)),
               Sum(trace, Is(Symlinks, Error)), Sum(trace, Is(Xattrs, Error)));
  }

  lemma WrapFive(p: int, f: int, d: int, l: int, x: int)
    ensures Wrap64(Wrap64(p) + Wrap64(f) + Wrap64(d) + Wrap64(l) + Wrap64(x)) == Wrap64(p + f + d + l + x)
  {
    WrapAdd(p, Wrap64(f) + Wrap64(d) + Wrap64(l) + Wrap64(x));
    WrapAdd(p + Wrap64(d) + Wrap64(l) + Wrap64(x), f);
    WrapAdd(p + f + Wrap64(l) + Wrap64(x), d);
    WrapAdd(p + f + d + Wrap64(x), l);
    WrapAdd(p + f + d + l, x);
  }

  /** A prefix of a trace gives the verdict's sum exactly when no entry error follows. */
  lemma ErrorSumFinalIff(trace: seq<Event>, cut: nat)
    requires cut <= |trace| < TWO_64
    ensures var late := trace[cut..];
            ErrorSum(Fold(trace[..cut])) == ErrorSum(Fold(trace))
            <==> forall i :: 0 <= i < |late| ==> !IsEntryError(late[i])
  {
    SumSplit(trace, cut, EntryErrorHit());
    ExactErrors(trace[..cut]);
    ExactErrors(trace);
    EntryErrorsZero(trace[cut..]);
  }

  lemma ExactErrors(trace: seq<Event>)
    requires |trace| < TWO_64
    ensures ErrorSum(Fold(trace)) == EntryErrors(trace)
  {
    ErrorSumCounts(trace);
    EntryErrorsZero(trace);
    WrapSmall(EntryErrors(trace));
  }
}
