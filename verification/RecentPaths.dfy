/**
 The recent-paths window: what is left of an unbounded recency list of path entries when every start
 and every settle of a path is followed by a cut at a cap.
 */
module RecentPaths {
  import opened Prelude

  const MAX_RECENT_PATHS := 5

  datatype Outcome = Succeeded | Failed

  /** "in-progress", or "ok" / "error". */
  datatype Status = InProgress | Settled(outcome: Outcome)

  datatype RecentPath = RecentPath(path: string, status: Status)

  /** What the event fold does to the list. */
  datatype PathOp = Start(path: string) | Settle(path: string, outcome: Outcome)

  // ----- one operation, as a specification -----

  function IsInProgress(): RecentPath -> bool {
    (e: RecentPath) => e.status.InProgress?
  }

  function IsSettled(): RecentPath -> bool {
    (e: RecentPath) => e.status.Settled?
  }

  function IsOther(path: string): RecentPath -> bool {
    (e: RecentPath) => e.path != path
  }

  function Active(l: seq<RecentPath>): seq<RecentPath> {
    Filter(l, IsInProgress())
  }

  function Past(l: seq<RecentPath>): seq<RecentPath> {
    Filter(l, IsSettled())
  }

  function Without(l: seq<RecentPath>, path: string): seq<RecentPath> {
    Filter(l, IsOther(path))
  }

  /** The operation on an unbounded list. */
  function Apply(l: seq<RecentPath>, op: PathOp): seq<RecentPath> {
    match op
    case Start(p) => [RecentPath(p, InProgress)] + Active(l) + Past(l)
    case Settle(p, o) => Active(Without(l, p)) + [RecentPath(p, Settled(o))] + Past(Without(l, p))
  }

  /** The uncapped recency list of a whole trace. */
  function Uncapped(ops: seq<PathOp>): seq<RecentPath> {
    if ops == [] then [] else Apply(Uncapped(ops[..|ops| - 1]), ops[|ops| - 1])
  }

  /** The window: the same operations with a cap after each one. */
  function Window(ops: seq<PathOp>, cap: nat): seq<RecentPath> {
    if ops == [] then [] else Take(Apply(Window(ops[..|ops| - 1], cap), ops[|ops| - 1]), cap)
  }

  // ----- order -----

  /** Every in-progress entry precedes every settled one. */
  ghost predicate Ordered(l: seq<RecentPath>) {
    l == Active(l) + Past(l)
  }

  lemma {:induction false} AllActive(l: seq<RecentPath>)
    requires forall i :: 0 <= i < |l| ==> l[i].status.InProgress?
    ensures Active(l) == l && Past(l) == []
  {
    if l == [] {
    } else {
      AllActive(l[1..]);
    }
  }

  lemma {:induction false} AllPast(l: seq<RecentPath>)
    requires forall i :: 0 <= i < |l| ==> l[i].status.Settled?
    ensures Past(l) == l && Active(l) == []
  {
    if l == [] {
    } else {
      AllPast(l[1..]);
    }
  }

  lemma ActiveMembers(l: seq<RecentPath>)
    ensures forall e :: e in Active(l) <==> e in l && e.status.InProgress?
    ensures forall e :: e in Past(l) <==> e in l && e.status.Settled?
  {
    forall e ensures e in Active(l) <==> e in l && e.status.InProgress? {
      FilterMembers(l, IsInProgress(), e);
    }
    forall e ensures e in Past(l) <==> e in l && e.status.Settled? {
      FilterMembers(l, IsSettled(), e);
    }
  }

  /** In-progress entries followed by settled ones are told apart again by the two filters. */
  lemma Partition(a: seq<RecentPath>, b: seq<RecentPath>)
    requires forall i :: 0 <= i < |a| ==> a[i].status.InProgress?
    requires forall i :: 0 <= i < |b| ==> b[i].status.Settled?
    ensures Active(a + b) == a && Past(a + b) == b && Ordered(a + b)
  {
    FilterConcat(a, b, IsInProgress());
    FilterConcat(a, b, IsSettled());
    AllActive(a);
    AllPast(a[..0]);
    AllPast(b);
  }

  lemma ApplyOrdered(l: seq<RecentPath>, op: PathOp)
    ensures Ordered(Apply(l, op))
  {
    match op
    case Start(p) =>
      ActiveMembers(l);
      Partition([RecentPath(p, InProgress)] + Active(l), Past(l));
    case Settle(p, o) =>
      var rest := Without(l, p);
      ActiveMembers(rest);
      Partition(Active(rest), [RecentPath(p, Settled(o))] + Past(rest));
      assert Apply(l, op) == Active(rest) + ([RecentPath(p, Settled(o))] + Past(rest));
  }

  lemma OrderedPrefix(l: seq<RecentPath>, cap: nat)
    requires Ordered(l)
    ensures Ordered(Take(l, cap))
    ensures Past(Take(l, cap)) <= Past(l)
  {
    ActiveMembers(l);
    var a, b := Active(l), Past(l);
    if |l| > cap {
      if cap <= |a| {
        assert Take(l, cap) == a[..cap] + [];
        Partition(a[..cap], []);
      } else {
        assert Take(l, cap) == a + b[..cap - |a|];
        Partition(a, b[..cap - |a|]);
      }
    }
  }

  // ----- the window never shows anything that is not in the list -----

  lemma ApplySubsequence(w: seq<RecentPath>, u: seq<RecentPath>, op: PathOp)
    requires Subsequence(w, u)
    ensures Subsequence(Apply(w, op), Apply(u, op))
  {
    match op
    case Start(p) =>
      var head := [RecentPath(p, InProgress)];
      SubsequenceRefl(head);
      SubsequenceFilter(w, u, IsInProgress());
      SubsequenceFilter(w, u, IsSettled());
      SubsequenceConcat(head, head, Active(w), Active(u));
      SubsequenceConcat(head + Active(w), head + Active(u), Past(w), Past(u));
    case Settle(p, o) =>
      var mid := [RecentPath(p, Settled(o))];
      SubsequenceRefl(mid);
      SubsequenceFilter(w, u, IsOther(p));
      SubsequenceFilter(Without(w, p), Without(u, p), IsInProgress());
      SubsequenceFilter(Without(w, p), Without(u, p), IsSettled());
      SubsequenceConcat(Active(Without(w, p)), Active(Without(u, p)), mid, mid);
      SubsequenceConcat(Active(Without(w, p)) + mid, Active(Without(u, p)) + mid, Past(Without(w, p)),
                        Past(Without(u, p)));
  }

  /** On every trace whatsoever the window is a subsequence of the uncapped list, within its cap. */
  lemma {:induction false} WindowSubsequence(ops: seq<PathOp>, cap: nat)
    ensures Subsequence(Window(ops, cap), Uncapped(ops))
    ensures |Window(ops, cap)| <= cap
    ensures Ordered(Window(ops, cap)) && Ordered(Uncapped(ops))
  {
    if ops == [] {
      Partition([], []);
    } else {
      var before, op := ops[..|ops| - 1], ops[|ops| - 1];
      WindowSubsequence(before, cap);
      ApplySubsequence(Window(before, cap), Uncapped(before), op);
      SubsequenceTake(Apply(Window(before, cap), op), Uncapped(ops), cap);
      ApplyOrdered(Window(before, cap), op);
      ApplyOrdered(Uncapped(before), op);
      OrderedPrefix(Apply(Window(before, cap), op), cap);
    }
  }

  // ----- when the window is exact -----

  /** The window shows the first cap entries of the list u. */
  ghost predicate Exact(w: seq<RecentPath>, u: seq<RecentPath>, cap: nat) {
    w == Take(u, cap)
  }

  /** The entries of u beyond the window. */
  function Hidden(u: seq<RecentPath>, cap: nat): seq<RecentPath> {
    if |u| <= cap then [] else u[cap..]
  }

  /**
   What a settle must find for an exact window to stay exact: nothing of the path is shown, or nothing
   else is hidden, or a single entry of the path is shown and no other path in progress is hidden.
   */
  predicate SettleVisible(u: seq<RecentPath>, path: string, cap: nat) {
    var shown := Take(u, cap);
    var others := Without(Hidden(u, cap), path);
    || |Without(shown, path)| == |shown|
    || others == []
    || (|Without(shown, path)| == |shown| - 1 && Active(others) == [])
  }

  lemma SplitAtCap(u: seq<RecentPath>, cap: nat)
    ensures u == Take(u, cap) + Hidden(u, cap)
    ensures Hidden(u, cap) != [] ==> |Take(u, cap)| == cap
  {
  }

  lemma {:induction false} PartitionSize(l: seq<RecentPath>)
    ensures |Active(l)| + |Past(l)| == |l|
  {
    if l == [] {
    } else {
      PartitionSize(l[1..]);
    }
  }

  /** What precedes an entry in progress is in progress. */
  lemma OrderedBefore(u: seq<RecentPath>, k: nat)
    requires Ordered(u) && k < |u| && u[k].status.InProgress?
    ensures forall i :: 0 <= i <= k ==> u[i].status.InProgress?
  {
    var a, b := Active(u), Past(u);
    if k >= |a| {
      assert u[k] == b[k - |a|];
      FilterMembers(u, IsSettled(), b[k - |a|]);
    }
    forall i | 0 <= i <= k ensures u[i].status.InProgress? {
      assert u[i] == a[i];
      FilterMembers(u, IsInProgress(), a[i]);
    }
  }

  /** If a path in progress is hidden, everything shown is in progress. */
  lemma HiddenActive(u: seq<RecentPath>, cap: nat)
    requires Ordered(u) && Active(Hidden(u, cap)) != []
    ensures Past(Take(u, cap)) == [] && Active(Take(u, cap)) == Take(u, cap)
  {
    var h := Hidden(u, cap);
    ActiveMembers(h);
    assert Active(h)[0] in h;
    var j :| 0 <= j < |h| && h[j] == Active(h)[0];
    assert u[cap + j] == h[j];
    OrderedBefore(u, cap + j);
    AllActive(Take(u, cap));
  }

  /** The five pieces a settle of p makes of a list cut at the cap. */
  lemma SettlePieces(u: seq<RecentPath>, cap: nat, p: string, o: Outcome)
    ensures var w, h := Without(Take(u, cap), p), Without(Hidden(u, cap), p);
            var mid := [RecentPath(p, Settled(o))];
            && Apply(Take(u, cap), Settle(p, o)) == Active(w) + mid + Past(w)
            && Apply(u, Settle(p, o)) == Active(w) + Active(h) + mid + Past(w) + Past(h)
            && |Active(w)| + |Past(w)| == |w| && |Active(h)| + |Past(h)| == |h|
  {
    SplitAtCap(u, cap);
    FilterConcat(Take(u, cap), Hidden(u, cap), IsOther(p));
    var w, h := Without(Take(u, cap), p), Without(Hidden(u, cap), p);
    FilterConcat(w, h, IsInProgress());
    FilterConcat(w, h, IsSettled());
    PartitionSize(w);
    PartitionSize(h);
    var mid := [RecentPath(p, Settled(o))];
    assert (Active(w) + Active(h)) + mid + (Past(w) + Past(h)) == Active(w) + Active(h) + mid + Past(w) + Past(h);
  }

  lemma {:induction false} WithoutActive(l: seq<RecentPath>, p: string)
    requires Past(l) == []
    ensures Past(Without(l, p)) == []
  {
    if l == [] {
    } else {
      WithoutActive(l[1..], p);
      if IsOther(p)(l[0]) {
        assert Without(l, p) == [l[0]] + Without(l[1..], p);
      } else {
        assert Without(l, p) == Without(l[1..], p);
      }
    }
  }

  lemma {:induction false} WithoutShrinks(l: seq<RecentPath>, p: string)
    ensures |Without(l, p)| <= |l|
    ensures Active(Without(l, p)) != [] ==> Active(l) != []
  {
    if l == [] {
    } else {
      WithoutShrinks(l[1..], p);
      if IsOther(p)(l[0]) {
        assert Without(l, p) == [l[0]] + Without(l[1..], p);
      } else {
        assert Without(l, p) == Without(l[1..], p);
      }
    }
  }

  /** Exactly when the condition above holds does settling keep the window exact. */
  lemma SettleExactIff(u: seq<RecentPath>, p: string, o: Outcome, cap: nat)
    requires Ordered(u) && cap >= 1
    ensures Exact(Take(Apply(Take(u, cap), Settle(p, o)), cap), Apply(u, Settle(p, o)), cap)
       <==> SettleVisible(u, p, cap)
  {
    var shown, hidden := Take(u, cap), Hidden(u, cap);
    var w, h := Without(shown, p), Without(hidden, p);
    var mid := [RecentPath(p, Settled(o))];
    var mine, full := Active(w) + mid + Past(w), Active(w) + Active(h) + mid + Past(w) + Past(h);
    SettlePieces(u, cap, p, o);
    WithoutShrinks(shown, p);
    WithoutShrinks(hidden, p);
    SplitAtCap(u, cap);
    if Active(h) != [] {
      HiddenActive(u, cap);
      WithoutActive(shown, p);
      SettleWithHiddenActive(w, h, mid, cap, |shown|);
    } else {
      SettleWithHiddenPast(w, h, mid, cap, |shown|);
    }
  }

  lemma SettleWithHiddenActive(w: seq<RecentPath>, h: seq<RecentPath>, mid: seq<RecentPath>, cap: nat, shown: nat)
    requires Past(w) == [] && Active(h) != [] && |Active(w)| == |w| <= shown == cap
    requires |mid| == 1 && mid[0].status.Settled?
    ensures Take(Active(w) + mid + Past(w), cap) == Take(Active(w) + Active(h) + mid + Past(w) + Past(h), cap)
       <==> |w| == shown
  {
    ActiveMembers(h);
    var mine, full := Active(w) + mid + Past(w), Active(w) + Active(h) + mid + Past(w) + Past(h);
    if |w| == shown {
      assert Take(mine, cap) == Active(w) == Take(full, cap);
    } else {
      assert Take(mine, cap)[|w|] == mid[0];
      assert Active(h)[0] in Active(h);
      assert Take(full, cap)[|w|] == Active(h)[0];
    }
  }

  lemma SettleWithHiddenPast(w: seq<RecentPath>, h: seq<RecentPath>, mid: seq<RecentPath>, cap: nat, shown: nat)
    requires Active(h) == [] && |Past(h)| == |h| && |Active(w)| + |Past(w)| == |w| <= shown <= cap
    requires h != [] ==> shown == cap
    requires |mid| == 1
    ensures Take(Active(w) + mid + Past(w), cap) == Take(Active(w) + Active(h) + mid + Past(w) + Past(h), cap)
       <==> |w| == shown || h == [] || |w| == shown - 1
  {
    var mine := Active(w) + mid + Past(w);
    assert Active(w) + Active(h) + mid + Past(w) + Past(h) == mine + Past(h);
    assert |mine| == |w| + 1;
    if h == [] {
      assert mine + Past(h) == mine;
    } else if |w| + 1 >= cap {
      assert Take(mine, cap) == Take(mine + Past(h), cap);
    } else {
      assert |Take(mine, cap)| < |Take(mine + Past(h), cap)|;
    }
  }

  /** Starting a path always keeps an exact window exact. */
  lemma StartExact(u: seq<RecentPath>, p: string, cap: nat)
    requires Ordered(u)
    ensures Exact(Take(Apply(Take(u, cap), Start(p)), cap), Apply(u, Start(p)), cap)
  {
    OrderedPrefix(u, cap);
    var head, w := [RecentPath(p, InProgress)], Take(u, cap);
    assert Apply(w, Start(p)) == head + w;
    assert Apply(u, Start(p)) == head + u;
  }

  /** After i operations the window shows the top of the uncapped list. */
  ghost predicate ExactAt(ops: seq<PathOp>, i: nat, cap: nat) {
    i <= |ops| && Exact(Window(ops[..i], cap), Uncapped(ops[..i]), cap)
  }

  /** Operation i, if a settle, finds what it needs in view. */
  ghost predicate VisibleAt(ops: seq<PathOp>, i: nat, cap: nat) {
    i < |ops| && (ops[i].Settle? ==> SettleVisible(Uncapped(ops[..i]), ops[i].path, cap))
  }

  ghost predicate AlwaysExact(ops: seq<PathOp>, cap: nat) {
    forall i :: 0 <= i <= |ops| ==> ExactAt(ops, i, cap)
  }

  ghost predicate AlwaysVisible(ops: seq<PathOp>, cap: nat) {
    forall i :: 0 <= i < |ops| ==> VisibleAt(ops, i, cap)
  }

  /** One more operation keeps an exact window exact if it is a start, and exactly if it is visible as a settle. */
  lemma NextExactIff(before: seq<PathOp>, op: PathOp, cap: nat)
    requires cap >= 1 && Exact(Window(before, cap), Uncapped(before), cap)
    ensures Exact(Window(before + [op], cap), Uncapped(before + [op]), cap)
       <==> (op.Settle? ==> SettleVisible(Uncapped(before), op.path, cap))
  {
    assert (before + [op])[..|before|] == before;
    WindowSubsequence(before, cap);
    match op
    case Start(p) => StartExact(Uncapped(before), p, cap);
    case Settle(p, o) => SettleExactIff(Uncapped(before), p, o, cap);
  }

  lemma NextExactAt(ops: seq<PathOp>, k: nat, cap: nat)
    requires k < |ops| && cap >= 1 && ExactAt(ops, k, cap)
    ensures ExactAt(ops, k + 1, cap) <==> VisibleAt(ops, k, cap)
  {
    PrefixSnoc(ops, k);
    NextExactIff(ops[..k], ops[k], cap);
  }

  /** If q says when p goes on to hold, p holds throughout exactly when q does. */
  lemma {:induction false} ChainIff(n: nat, p: nat -> bool, q: nat -> bool)
    requires p(0) && forall i :: 0 <= i < n && p(i) ==> (p(i + 1) <==> q(i))
    ensures (forall i :: 0 <= i <= n ==> p(i)) <==> (forall i :: 0 <= i < n ==> q(i))
  {
    if n == 0 {
    } else {
      ChainIff(n - 1, p, q);
      assert p(n - 1) ==> (p(n - 1 + 1) <==> q(n - 1));
    }
  }

  /** On any trace: the window is always exact if and only if every settle finds what it needs in view. */
  lemma AlwaysExactIff(ops: seq<PathOp>, cap: nat)
    requires cap >= 1
    ensures AlwaysExact(ops, cap) <==> AlwaysVisible(ops, cap)
  {
    var exact := (i: nat) => ExactAt(ops, i, cap);
    var visible := (i: nat) => VisibleAt(ops, i, cap);
    assert ExactAt(ops, 0, cap);
    forall i | 0 <= i < |ops| && exact(i)
      ensures exact(i + 1) <==> visible(i)
    {
      NextExactAt(ops, i, cap);
    }
    ChainIff(|ops|, exact, visible);
    forall i: nat ensures ExactAt(ops, i, cap) == exact(i) && VisibleAt(ops, i, cap) == visible(i) {
    }
  }

  lemma VisibleExact(ops: seq<PathOp>, cap: nat)
    requires cap >= 1 && AlwaysVisible(ops, cap)
    ensures Exact(Window(ops, cap), Uncapped(ops), cap)
  {
    AlwaysExactIff(ops, cap);
    assert ExactAt(ops, |ops|, cap) && ops[..|ops|] == ops;
  }

  /** With more paths in flight than the window holds, settling the newest leaves the window inexact. */
  lemma CrowdedWindowDrifts(u: seq<RecentPath>, o: Outcome, cap: nat)
    requires 1 <= cap < |u| && Distinct(u) && forall i :: 0 <= i < |u| ==> u[i].status.InProgress?
    ensures !Exact(Take(Apply(Take(u, cap), Settle(u[0].path, o)), cap), Apply(u, Settle(u[0].path, o)), cap)
  {
    var shown, hidden := Take(u, cap), Hidden(u, cap);
    AllActive(u);
    AllActive(hidden);
    WithoutOne(shown, 0);
    WithoutAbsent(hidden, u[0].path);
    SettleExactIff(u, u[0].path, o, cap);
  }

  /** Paths started one after the other. */
  function Starts(paths: seq<string>): seq<PathOp> {
    seq(|paths|, i requires 0 <= i < |paths| => Start(paths[i]))
  }

  /** Their uncapped list: all in progress, the newest first. */
  lemma {:induction false} StartsListed(paths: seq<string>)
    ensures Uncapped(Starts(paths)) ==
      seq(|paths|, i requires 0 <= i < |paths| => RecentPath(paths[|paths| - 1 - i], InProgress))
  {
    if paths == [] {
    } else {
      var n := |paths| - 1;
      var before := Uncapped(Starts(paths[..n]));
      StartsListed(paths[..n]);
      assert Starts(paths)[..n] == Starts(paths[..n]);
      AllActive(before);
      assert Uncapped(Starts(paths)) == [RecentPath(paths[n], InProgress)] + before;
    }
  }

  /** Starting more paths than the window holds and settling the newest first is enough for the window to drift. */
  lemma CrowdedTraceDrifts(paths: seq<string>, o: Outcome, cap: nat)
    requires 1 <= cap < |paths| && forall i, j :: 0 <= i < j < |paths| ==> paths[i] != paths[j]
    ensures var ops := Starts(paths) + [Settle(paths[|paths| - 1], o)];
            !Exact(Window(ops, cap), Uncapped(ops), cap)
  {
    var starts, settle := Starts(paths), Settle(paths[|paths| - 1], o);
    StartsListed(paths);
    StartsExact(starts, cap);
    SettleNewest(starts, settle, cap);
  }

  lemma StartsExact(ops: seq<PathOp>, cap: nat)
    requires cap >= 1 && forall i :: 0 <= i < |ops| ==> ops[i].Start?
    ensures Exact(Window(ops, cap), Uncapped(ops), cap)
  {
    VisibleExact(ops, cap);
  }

  lemma SettleNewest(before: seq<PathOp>, op: PathOp, cap: nat)
    requires Exact(Window(before, cap), Uncapped(before), cap) && op.Settle?
    requires var u := Uncapped(before);
             && 1 <= cap < |u| && Distinct(u) && op.path == u[0].path
             && forall i :: 0 <= i < |u| ==> u[i].status.InProgress?
    ensures !Exact(Window(before + [op], cap), Uncapped(before + [op]), cap)
  {
    assert (before + [op])[..|before|] == before;
    CrowdedWindowDrifts(Uncapped(before), op.outcome, cap);
  }

  // ----- traces on which it always is -----

  /** Paths started and not settled since. */
  function InFlight(ops: seq<PathOp>): set<string> {
    if ops == [] then {}
    else
      var before := InFlight(ops[..|ops| - 1]);
      match ops[|ops| - 1]
      case Start(p) => before + {p}
      case Settle(p, _) => before - {p}
  }

  /** Operation i starts p, and no later one settles it. */
  ghost predicate OpenStart(ops: seq<PathOp>, p: string, i: nat) {
    i < |ops| && ops[i] == Start(p) && forall j :: i < j < |ops| ==> !(ops[j].Settle? && ops[j].path == p)
  }

  lemma OpenStartStep(ops: seq<PathOp>, p: string, i: nat)
    requires ops != []
    ensures OpenStart(ops, p, i) <==>
      if i == |ops| - 1 then ops[i] == Start(p)
      else OpenStart(ops[..|ops| - 1], p, i) && !(ops[|ops| - 1].Settle? && ops[|ops| - 1].path == p)
  {
    var before := ops[..|ops| - 1];
    assert forall j :: 0 <= j < |before| ==> before[j] == ops[j];
  }

  lemma {:induction false} InFlightMeaning(ops: seq<PathOp>, p: string)
    ensures p in InFlight(ops) <==> exists i :: OpenStart(ops, p, i)
  {
    if ops == [] {
    } else {
      var n := |ops| - 1;
      InFlightMeaning(ops[..n], p);
      forall i: nat { OpenStartStep(ops, p, i); }
      if ops[n] == Start(p) {
        assert OpenStart(ops, p, n);
      } else if p in InFlight(ops) {
        var i :| OpenStart(ops[..n], p, i);
        assert OpenStart(ops, p, i);
      }
    }
  }

  function Mentioned(ops: seq<PathOp>): set<string> {
    if ops == [] then {} else Mentioned(ops[..|ops| - 1]) + {ops[|ops| - 1].path}
  }

  /** Fresh paths, at most cap in flight, and settles of in-flight paths only. */
  ghost predicate Disciplined(ops: seq<PathOp>, cap: nat) {
    forall i :: 0 <= i < |ops| ==>
      match ops[i]
      case Start(p) => p !in Mentioned(ops[..i]) && |InFlight(ops[..i])| < cap
      case Settle(p, _) => p in InFlight(ops[..i])
  }

  ghost predicate Distinct(l: seq<RecentPath>) {
    forall i, j :: 0 <= i < j < |l| ==> l[i].path != l[j].path
  }

  lemma {:induction false} FilterDistinct(l: seq<RecentPath>, p: RecentPath -> bool)
    requires Distinct(l)
    ensures Distinct(Filter(l, p))
  {
    if l == [] {
    } else {
      FilterDistinct(l[1..], p);
      var rest := Filter(l[1..], p);
      forall i | 0 <= i < |rest| ensures rest[i].path != l[0].path {
        FilterMembers(l[1..], p, rest[i]);
        var k :| 0 <= k < |l[1..]| && l[1..][k] == rest[i];
        assert l[k + 1] == rest[i];
      }
      assert Filter(l, p) == (if p(l[0]) then [l[0]] else []) + rest;
    }
  }

  lemma {:induction false} FilterCommutes(l: seq<RecentPath>, p: RecentPath -> bool, q: RecentPath -> bool)
    ensures Filter(Filter(l, p), q) == Filter(Filter(l, q), p)
  {
    if l == [] {
    } else {
      var hp := if p(l[0]) then [l[0]] else [];
      var hq := if q(l[0]) then [l[0]] else [];
      FilterCommutes(l[1..], p, q);
      FilterConcat(hp, Filter(l[1..], p), q);
      FilterConcat(hq, Filter(l[1..], q), p);
      assert Filter(hp, q) == Filter(hq, p);
    }
  }

  lemma WithoutMembers(l: seq<RecentPath>, p: string)
    ensures forall e :: e in Without(l, p) <==> e in l && e.path != p
  {
    forall e ensures e in Without(l, p) <==> e in l && e.path != p {
      FilterMembers(l, IsOther(p), e);
    }
  }

  lemma {:induction false} WithoutAbsent(l: seq<RecentPath>, p: string)
    requires forall i :: 0 <= i < |l| ==> l[i].path != p
    ensures Without(l, p) == l
  {
    if l == [] {
    } else {
      WithoutAbsent(l[1..], p);
    }
  }

  lemma {:induction false} WithoutOne(l: seq<RecentPath>, k: nat)
    requires k < |l| && Distinct(l)
    ensures |Without(l, l[k].path)| == |l| - 1
  {
    if k == 0 {
      WithoutAbsent(l[1..], l[0].path);
      assert Without(l, l[0].path) == Without(l[1..], l[0].path);
    } else {
      WithoutOne(l[1..], k - 1);
      assert Without(l, l[k].path) == [l[0]] + Without(l[1..], l[k].path);
    }
  }

  lemma {:induction false} DistinctFits(l: seq<RecentPath>, s: set<string>)
    requires Distinct(l) && forall e :: e in l ==> e.path in s
    ensures |l| <= |s|
  {
    if l == [] {
    } else {
      assert l[0] in l;
      forall e | e in l[1..] ensures e.path in s - {l[0].path} {
        var k :| 0 <= k < |l[1..]| && l[1..][k] == e;
        assert l[k + 1] == e && e in l;
      }
      DistinctFits(l[1..], s - {l[0].path});
    }
  }

  /** What a disciplined trace keeps true of its uncapped list. */
  ghost predicate Tidy(ops: seq<PathOp>, l: seq<RecentPath>) {
    && Ordered(l)
    && Distinct(l)
    && (forall e :: e in l && e.status.InProgress? ==> e.path in InFlight(ops))
    && (forall p :: p in InFlight(ops) ==> RecentPath(p, InProgress) in l)
    && (forall e :: e in l ==> e.path in Mentioned(ops))
  }

  lemma StartList(l: seq<RecentPath>, p: string)
    requires Ordered(l) && Distinct(l) && forall e :: e in l ==> e.path != p
    ensures Apply(l, Start(p)) == [RecentPath(p, InProgress)] + l && Distinct(Apply(l, Start(p)))
  {
    var head := [RecentPath(p, InProgress)];
    ConcatAssoc(head, Active(l), Past(l));
    assert forall i :: 0 <= i < |l| ==> l[i] in l;
  }

  lemma TidyStart(ops: seq<PathOp>, l: seq<RecentPath>, p: string)
    requires Tidy(ops, l) && p !in Mentioned(ops)
    ensures Tidy(ops + [Start(p)], Apply(l, Start(p)))
  {
    ApplyOrdered(l, Start(p));
    StartList(l, p);
    OpSnoc(ops, Start(p));
    StartMembers(l, p);
  }

  lemma StartMembers(l: seq<RecentPath>, p: string)
    ensures forall e :: e in [RecentPath(p, InProgress)] + l <==> e == RecentPath(p, InProgress) || e in l
  {
  }

  /** What one more operation does to the paths in flight and to those mentioned. */
  lemma OpSnoc(ops: seq<PathOp>, op: PathOp)
    ensures InFlight(ops + [op]) == if op.Start? then InFlight(ops) + {op.path} else InFlight(ops) - {op.path}
    ensures Mentioned(ops + [op]) == Mentioned(ops) + {op.path}
  {
    assert (ops + [op])[..|ops|] == ops;
  }

  /** Settling p in an ordered list: p's entries go, and the new one lands between the two parts. */
  lemma SettleShape(l: seq<RecentPath>, p: string)
    ensures Past(Without(l, p)) == Without(Past(l), p)
    ensures Ordered(l) ==> Without(l, p) == Active(Without(l, p)) + Past(Without(l, p))
  {
    FilterCommutes(l, IsInProgress(), IsOther(p));
    FilterCommutes(l, IsSettled(), IsOther(p));
    FilterConcat(Active(l), Past(l), IsOther(p));
  }

  lemma PastOfParts(a: seq<RecentPath>, mid: RecentPath, b: seq<RecentPath>)
    requires forall e :: e in a ==> e.status.InProgress?
    requires mid.status.Settled? && forall e :: e in b ==> e.status.Settled?
    ensures Past(a + [mid] + b) == [mid] + b
  {
    Partition(a, [mid] + b);
    assert a + [mid] + b == a + ([mid] + b);
  }

  lemma PastAfterSettle(l: seq<RecentPath>, p: string, o: Outcome)
    ensures Past(Apply(l, Settle(p, o))) == [RecentPath(p, Settled(o))] + Without(Past(l), p)
  {
    var rest := Without(l, p);
    SettleShape(l, p);
    ActiveMembers(rest);
    PastOfParts(Active(rest), RecentPath(p, Settled(o)), Past(rest));
  }

  lemma InsertDistinct(a: seq<RecentPath>, b: seq<RecentPath>, mid: RecentPath)
    requires Distinct(a + b) && forall i :: 0 <= i < |a + b| ==> (a + b)[i].path != mid.path
    ensures Distinct(a + [mid] + b)
  {
    var k, ab, l := |a|, a + b, a + [mid] + b;
    forall i, j | 0 <= i < j < |l| ensures l[i].path != l[j].path {
      var i', j' := if i < k then i else i - 1, if j < k then j else j - 1;
      assert i != k ==> l[i] == ab[i'];
      assert j != k ==> l[j] == ab[j'];
    }
  }

  lemma SettleDistinct(l: seq<RecentPath>, p: string, o: Outcome)
    requires Ordered(l) && Distinct(l)
    ensures Distinct(Apply(l, Settle(p, o)))
  {
    var rest := Without(l, p);
    SettleShape(l, p);
    WithoutMembers(l, p);
    FilterDistinct(l, IsOther(p));
    assert forall i :: 0 <= i < |rest| ==> rest[i] in rest && rest[i].path != p;
    InsertDistinct(Active(rest), Past(rest), RecentPath(p, Settled(o)));
  }

  lemma SettleMembers(l: seq<RecentPath>, p: string, o: Outcome)
    ensures forall e :: e in Apply(l, Settle(p, o)) <==> e == RecentPath(p, Settled(o)) || (e in l && e.path != p)
  {
    WithoutMembers(l, p);
    ActiveMembers(Without(l, p));
  }

  lemma TidySettle(ops: seq<PathOp>, l: seq<RecentPath>, p: string, o: Outcome)
    requires Tidy(ops, l)
    ensures Tidy(ops + [Settle(p, o)], Apply(l, Settle(p, o)))
  {
    ApplyOrdered(l, Settle(p, o));
    SettleDistinct(l, p, o);
    SettleMembers(l, p, o);
    OpSnoc(ops, Settle(p, o));
  }

  lemma DisciplinedPrefix(ops: seq<PathOp>, n: nat, cap: nat)
    requires n <= |ops| && Disciplined(ops, cap)
    ensures Disciplined(ops[..n], cap)
  {
    forall i | 0 <= i < n ensures ops[..n][..i] == ops[..i] {
    }
  }

  lemma TidyStep(before: seq<PathOp>, op: PathOp, cap: nat)
    requires Tidy(before, Uncapped(before)) && |InFlight(before)| <= cap
    requires op.Start? ==> op.path !in Mentioned(before) && |InFlight(before)| < cap
    requires op.Settle? ==> op.path in InFlight(before)
    ensures Tidy(before + [op], Uncapped(before + [op])) && |InFlight(before + [op])| <= cap
  {
    assert (before + [op])[..|before|] == before;
    match op
    case Start(p) => TidyStart(before, Uncapped(before), p);
    case Settle(p, o) => TidySettle(before, Uncapped(before), p, o);
  }

  lemma {:induction false} DisciplinedTidy(ops: seq<PathOp>, cap: nat)
    requires Disciplined(ops, cap)
    ensures Tidy(ops, Uncapped(ops)) && |InFlight(ops)| <= cap
  {
    if ops == [] {
      Partition([], []);
    } else {
      var n := |ops| - 1;
      assert ops == ops[..n] + [ops[n]];
      DisciplinedPrefix(ops, n, cap);
      DisciplinedTidy(ops[..n], cap);
      TidyStep(ops[..n], ops[n], cap);
    }
  }

  /** With room for everything in progress, an ordered list hides settled entries only. */
  lemma OnlyPastHidden(u: seq<RecentPath>, p: string, cap: nat)
    requires Ordered(u) && |Active(u)| <= cap
    ensures Active(Without(Hidden(u, cap), p)) == []
  {
    var hidden := Hidden(u, cap);
    ActiveMembers(u);
    forall i | 0 <= i < |hidden| ensures hidden[i].status.Settled? {
      assert hidden[i] == Past(u)[cap + i - |Active(u)|];
      assert hidden[i] in Past(u);
    }
    AllPast(hidden);
    WithoutShrinks(hidden, p);
  }

  /** In a tidy list with room for everything in flight, an in-flight path is in view. */
  lemma TidyVisible(ops: seq<PathOp>, u: seq<RecentPath>, p: string, cap: nat)
    requires Tidy(ops, u) && |InFlight(ops)| <= cap && p in InFlight(ops)
    ensures SettleVisible(u, p, cap)
  {
    var shown, e := Take(u, cap), RecentPath(p, InProgress);
    ActiveMembers(u);
    FilterDistinct(u, IsInProgress());
    DistinctFits(Active(u), InFlight(ops));
    assert e in Active(u);
    var k :| 0 <= k < |Active(u)| && Active(u)[k] == e;
    assert shown[k] == u[k] == e;
    assert Distinct(shown);
    WithoutOne(shown, k);
    OnlyPastHidden(u, p, cap);
  }

  /** On every disciplined trace the window is exactly the top of the uncapped list. */
  lemma DisciplinedExact(ops: seq<PathOp>)
    requires Disciplined(ops, MAX_RECENT_PATHS)
    ensures Window(ops, MAX_RECENT_PATHS) == Take(Uncapped(ops), MAX_RECENT_PATHS)
  {
    forall i | 0 <= i < |ops|
      ensures VisibleAt(ops, i, MAX_RECENT_PATHS)
    {
      DisciplinedPrefix(ops, i, MAX_RECENT_PATHS);
      DisciplinedTidy(ops[..i], MAX_RECENT_PATHS);
      if ops[i].Settle? {
        TidyVisible(ops[..i], Uncapped(ops[..i]), ops[i].path, MAX_RECENT_PATHS);
      }
    }
    VisibleExact(ops, MAX_RECENT_PATHS);
  }

  // ----- the uncapped list, all at once -----

  predicate SettledIn(ops: seq<PathOp>, path: string) {
    exists i :: 0 <= i < |ops| && ops[i].Settle? && ops[i].path == path
  }

  /** What a start leaves in the list, given what comes after it. */
  function OpenEntry(op: PathOp, later: seq<PathOp>): seq<RecentPath> {
    if op.Start? && !SettledIn(later, op.path) then [RecentPath(op.path, InProgress)] else []
  }

  /** What a settle does. */
  function FinalEntry(op: PathOp, later: seq<PathOp>): seq<RecentPath> {
    if op.Settle? && !SettledIn(later, op.path) then [RecentPath(op.path, Settled(op.outcome))] else []
  }

  /** The starts that no later operation settles, the newest first. */
  function OpenStarts(ops: seq<PathOp>): seq<RecentPath> {
    if ops == [] then [] else OpenStarts(ops[1..]) + OpenEntry(ops[0], ops[1..])
  }

  /** The settles that no later one of their path follows, the newest first. */
  function FinalSettles(ops: seq<PathOp>): seq<RecentPath> {
    if ops == [] then [] else FinalSettles(ops[1..]) + FinalEntry(ops[0], ops[1..])
  }

  lemma SettledInSnoc(ops: seq<PathOp>, op: PathOp, path: string)
    ensures SettledIn(ops + [op], path) <==> SettledIn(ops, path) || (op.Settle? && op.path == path)
  {
    var more := ops + [op];
    if SettledIn(ops, path) {
      var i :| 0 <= i < |ops| && ops[i].Settle? && ops[i].path == path;
      assert more[i] == ops[i];
    }
    assert more[|ops|] == op;
  }

  lemma WithoutSingle(e: RecentPath, p: string)
    ensures Without([e], p) == if e.path == p then [] else [e]
  {
    assert [e][1..] == [];
  }

  lemma EntrySnoc(first: PathOp, later: seq<PathOp>, op: PathOp)
    ensures OpenEntry(first, later + [op]) ==
      if op.Start? then OpenEntry(first, later) else Without(OpenEntry(first, later), op.path)
    ensures FinalEntry(first, later + [op]) ==
      if op.Start? then FinalEntry(first, later) else Without(FinalEntry(first, later), op.path)
  {
    SettledInSnoc(later, op, first.path);
    WithoutSingle(RecentPath(first.path, InProgress), op.path);
    if first.Settle? {
      WithoutSingle(RecentPath(first.path, Settled(first.outcome)), op.path);
    }
  }

  lemma {:induction false} OpenStartsSnoc(ops: seq<PathOp>, op: PathOp)
    ensures OpenStarts(ops + [op]) ==
      if op.Start? then [RecentPath(op.path, InProgress)] + OpenStarts(ops) else Without(OpenStarts(ops), op.path)
  {
    if ops == [] {
      assert (ops + [op])[1..] == [];
    } else {
      OpenStartsSnoc(ops[1..], op);
      assert (ops + [op])[1..] == ops[1..] + [op];
      EntrySnoc(ops[0], ops[1..], op);
      ConcatAssoc([RecentPath(op.path, InProgress)], OpenStarts(ops[1..]), OpenEntry(ops[0], ops[1..]));
      FilterConcat(OpenStarts(ops[1..]), OpenEntry(ops[0], ops[1..]), IsOther(op.path));
    }
  }

  lemma {:induction false} FinalSettlesSnoc(ops: seq<PathOp>, op: PathOp)
    ensures FinalSettles(ops + [op]) ==
      if op.Start? then FinalSettles(ops)
      else [RecentPath(op.path, Settled(op.outcome))] + Without(FinalSettles(ops), op.path)
  {
    if ops == [] {
      assert (ops + [op])[1..] == [];
    } else {
      FinalSettlesSnoc(ops[1..], op);
      assert (ops + [op])[1..] == ops[1..] + [op];
      EntrySnoc(ops[0], ops[1..], op);
      FilterConcat(FinalSettles(ops[1..]), FinalEntry(ops[0], ops[1..]), IsOther(op.path));
      if op.Settle? {
        ConcatAssoc([RecentPath(op.path, Settled(op.outcome))], Without(FinalSettles(ops[1..]), op.path),
                    Without(FinalEntry(ops[0], ops[1..]), op.path));
      }
    }
  }

  lemma PartsAfterStart(l: seq<RecentPath>, p: string)
    ensures Active(Apply(l, Start(p))) == [RecentPath(p, InProgress)] + Active(l) && Past(Apply(l, Start(p))) == Past(l)
  {
    ActiveMembers(l);
    Partition([RecentPath(p, InProgress)] + Active(l), Past(l));
  }

  lemma ActiveAfterSettle(l: seq<RecentPath>, p: string, o: Outcome)
    ensures Active(Apply(l, Settle(p, o))) == Without(Active(l), p)
  {
    var rest, mid := Without(l, p), [RecentPath(p, Settled(o))];
    FilterCommutes(l, IsInProgress(), IsOther(p));
    ActiveMembers(rest);
    Partition(Active(rest), mid + Past(rest));
    ConcatAssoc(Active(rest), mid, Past(rest));
  }

  /** In progress are the starts not settled since, then come the last settles of all paths; each newest first. */
  lemma {:induction false} UncappedIs(ops: seq<PathOp>)
    ensures Active(Uncapped(ops)) == OpenStarts(ops) && Past(Uncapped(ops)) == FinalSettles(ops)
    ensures Uncapped(ops) == OpenStarts(ops) + FinalSettles(ops)
  {
    if ops == [] {
    } else {
      var n := |ops| - 1;
      var l := Uncapped(ops[..n]);
      UncappedIs(ops[..n]);
      assert ops == ops[..n] + [ops[n]];
      OpenStartsSnoc(ops[..n], ops[n]);
      FinalSettlesSnoc(ops[..n], ops[n]);
      ApplyOrdered(l, ops[n]);
      match ops[n]
      case Start(p) => PartsAfterStart(l, p);
      case Settle(p, o) =>
        ActiveAfterSettle(l, p, o);
        PastAfterSettle(l, p, o);
    }
  }

  // ----- what every window entry means, on any trace -----

  /** The outcome of the latest settle of a path. */
  function LastSettle(ops: seq<PathOp>, p: string): Option<Outcome> {
    if ops == [] then None
    else if ops[|ops| - 1].Settle? && ops[|ops| - 1].path == p then Some(ops[|ops| - 1].outcome)
    else LastSettle(ops[..|ops| - 1], p)
  }

  /** Operation i settles p with outcome o, and no later one settles p. */
  ghost predicate FinalSettle(ops: seq<PathOp>, p: string, o: Outcome, i: nat) {
    i < |ops| && ops[i] == Settle(p, o) && forall j :: i < j < |ops| ==> !(ops[j].Settle? && ops[j].path == p)
  }

  lemma {:induction false} LastSettleMeaning(ops: seq<PathOp>, p: string, o: Outcome)
    ensures LastSettle(ops, p) == Some(o) <==> exists i :: FinalSettle(ops, p, o, i)
  {
    if ops == [] {
    } else {
      var n := |ops| - 1;
      var before := ops[..n];
      LastSettleMeaning(before, p, o);
      if ops[n].Settle? && ops[n].path == p {
        assert ops[n].outcome == o ==> FinalSettle(ops, p, o, n);
      } else {
        assert forall i: nat :: FinalSettle(ops, p, o, i) <==> FinalSettle(before, p, o, i) by {
          assert forall j :: 0 <= j < n ==> before[j] == ops[j];
        }
      }
    }
  }

  ghost predicate Truthful(ops: seq<PathOp>, l: seq<RecentPath>) {
    forall e :: e in l ==>
      match e.status
      case InProgress => e.path in InFlight(ops)
      case Settled(o) => LastSettle(ops, e.path) == Some(o)
  }

  lemma ApplyTruthful(ops: seq<PathOp>, l: seq<RecentPath>, op: PathOp)
    requires Truthful(ops, l)
    ensures Truthful(ops + [op], Apply(l, op))
  {
    var ops' := ops + [op];
    assert ops'[..|ops|] == ops;
    match op
    case Start(p) =>
      ActiveMembers(l);
      assert InFlight(ops') == InFlight(ops) + {p};
      assert forall q :: LastSettle(ops', q) == LastSettle(ops, q);
    case Settle(p, o) =>
      SettleMembers(l, p, o);
      assert InFlight(ops') == InFlight(ops) - {p};
      assert forall q :: q != p ==> LastSettle(ops', q) == LastSettle(ops, q);
      assert LastSettle(ops', p) == Some(o);
  }

  lemma ApplyPastDistinct(l: seq<RecentPath>, op: PathOp)
    requires Distinct(Past(l))
    ensures Distinct(Past(Apply(l, op)))
  {
    match op
    case Start(p) =>
      ActiveMembers(l);
      Partition([RecentPath(p, InProgress)] + Active(l), Past(l));
    case Settle(p, o) =>
      PastAfterSettle(l, p, o);
      FilterDistinct(Past(l), IsOther(p));
      WithoutMembers(Past(l), p);
      var rest := Without(Past(l), p);
      assert forall i :: 0 <= i < |rest| ==> rest[i] in rest && rest[i].path != p;
  }

  /** What the window shows is true, in order, within the cap, with one settled entry a path. */
  ghost predicate Sound(ops: seq<PathOp>, w: seq<RecentPath>, cap: nat) {
    && |w| <= cap
    && Ordered(w)
    && Distinct(Past(w))
    && Truthful(ops, w)
  }

  lemma CutSound(ops: seq<PathOp>, l: seq<RecentPath>, cap: nat)
    requires Ordered(l) && Distinct(Past(l)) && Truthful(ops, l)
    ensures Sound(ops, Take(l, cap), cap)
  {
    OrderedPrefix(l, cap);
    var w := Take(l, cap);
    assert forall i :: 0 <= i < |Past(w)| ==> Past(w)[i] == Past(l)[i];
    assert forall e :: e in w ==> e in l;
  }

  lemma SoundStep(before: seq<PathOp>, l: seq<RecentPath>, op: PathOp, cap: nat)
    requires Sound(before, l, cap)
    ensures Sound(before + [op], Take(Apply(l, op), cap), cap)
  {
    ApplyTruthful(before, l, op);
    ApplyPastDistinct(l, op);
    ApplyOrdered(l, op);
    CutSound(before + [op], Apply(l, op), cap);
  }

  /** On every trace. */
  lemma {:induction false} WindowTruthful(ops: seq<PathOp>, cap: nat)
    ensures Sound(ops, Window(ops, cap), cap)
  {
    if ops == [] {
      Partition([], []);
    } else {
      var n := |ops| - 1;
      assert ops == ops[..n] + [ops[n]];
      WindowTruthful(ops[..n], cap);
      SoundStep(ops[..n], Window(ops[..n], cap), ops[n], cap);
    }
  }

  /** Every entry of the window is one of the uncapped list. */
  lemma WindowMembers(ops: seq<PathOp>, cap: nat)
    ensures forall e :: e in Window(ops, cap) ==> e in Uncapped(ops)
  {
    WindowSubsequence(ops, cap);
    SubsequenceMembers(Window(ops, cap), Uncapped(ops));
  }

  /** With nothing left in flight nothing is shown in progress. */
  lemma NothingInProgress(ops: seq<PathOp>, cap: nat)
    requires InFlight(ops) == {}
    ensures forall e :: e in Window(ops, cap) ==> e.status.Settled?
  {
    WindowTruthful(ops, cap);
  }
}
