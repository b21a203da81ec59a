/** The sync driver: copy the selected snapshots the target does not list, count what fails. */
module Sync {
  import opened Prelude

  /** What copying one snapshot came to: its logical size, or a failure. */
  type Attempt = Option<u64>

  datatype SyncReport<T> = SyncReport(id: T, logicalSize: u64)

  datatype SyncsReport<T> = SyncsReport(logicalSize: u64, errors: u64, syncs: seq<SyncReport<T>>)

  function IsMissing<T(!new)>(present: set<T>): T -> bool {
    (id: T) => id !in present
  }

  /** The selected ids the target did not list when the run began: what the loop attempts, in order. */
  function Attempted<T(!new)>(selected: seq<T>, present: set<T>): seq<T> {
    Filter(selected, IsMissing(present))
  }

  /** What was copied when the k-th attempt answers outcomes(k). */
  function Copied<T>(attempted: seq<T>, outcomes: nat -> Attempt): seq<SyncReport<T>> {
    if attempted == [] then []
    else
      var n := |attempted| - 1;
      Copied(attempted[..n], outcomes) + if outcomes(n).Some? then [SyncReport(attempted[n], outcomes(n).value)] else []
  }

  /** What was not. */
  function NotCopied<T>(attempted: seq<T>, outcomes: nat -> Attempt): seq<T> {
    if attempted == [] then []
    else
      var n := |attempted| - 1;
      NotCopied(attempted[..n], outcomes) + if outcomes(n).Some? then [] else [attempted[n]]
  }

  function TotalSize<T>(syncs: seq<SyncReport<T>>): int {
    if syncs == [] then 0 else TotalSize(syncs[..|syncs| - 1]) + syncs[|syncs| - 1].logicalSize
  }

  function Ids<T>(syncs: seq<SyncReport<T>>): set<T> {
    set r | r in syncs :: r.id
  }

  /** The report of a whole run. */
  function ReportOf<T>(attempted: seq<T>, outcomes: nat -> Attempt): SyncsReport<T> {
    var syncs := Copied(attempted, outcomes);
    SyncsReport(Wrap64(TotalSize(syncs)), Wrap64(|NotCopied(attempted, outcomes)|), syncs)
  }

  lemma IdsSnoc<T>(syncs: seq<SyncReport<T>>, r: SyncReport<T>)
    ensures Ids(syncs + [r]) == Ids(syncs) + {r.id}
  {
    assert r in syncs + [r];
    assert forall q :: q in syncs + [r] <==> q in syncs || q == r;
  }

  lemma AttemptedSnoc<T(!new)>(selected: seq<T>, i: nat, present: set<T>)
    requires i < |selected|
    ensures Attempted(selected[..i + 1], present) ==
            Attempted(selected[..i], present) + if selected[i] in present then [] else [selected[i]]
    ensures selected[i] in present ==> Attempted(selected[..i + 1], present) == Attempted(selected[..i], present)
  {
    assert selected[..i + 1] == selected[..i] + [selected[i]];
    FilterConcat(selected[..i], [selected[i]], IsMissing(present));
  }

  /** A report with one more attempt in it. */
  function WithAttempt<T>(ssr: SyncsReport<T>, id: T, outcome: Attempt): SyncsReport<T> {
    match outcome
    case None => ssr.(errors := Wrap64(ssr.errors + 1))
    case Some(size) =>
      ssr.(logicalSize := Wrap64(ssr.logicalSize + size), syncs := ssr.syncs + [SyncReport(id, size)])
  }

  /** How one more attempt shows in the report. */
  lemma ReportSnoc<T>(attempted: seq<T>, id: T, outcomes: nat -> Attempt)
    ensures var before, after := ReportOf(attempted, outcomes), ReportOf(attempted + [id], outcomes);
            var outcome := outcomes(|attempted|);
            && after == WithAttempt(before, id, outcome)
            && Ids(after.syncs) == if outcome.Some? then Ids(before.syncs) + {id} else Ids(before.syncs)
  {
    assert (attempted + [id])[..|attempted|] == attempted;
    var syncs := Copied(attempted, outcomes);
    match outcomes(|attempted|)
    case None =>
      assert syncs + [] == syncs;
      WrapAdd(|NotCopied(attempted, outcomes)|, 1);
    case Some(size) =>
      var r := SyncReport(id, size);
      assert NotCopied(attempted, outcomes) + [] == NotCopied(attempted, outcomes);
      assert (syncs + [r])[..|syncs|] == syncs;
      WrapAdd(TotalSize(syncs), size);
      IdsSnoc(syncs, r);
  }

  /** The target after the attempts. */
  function TargetOf<T>(present: set<T>, attempted: seq<T>, outcomes: nat -> Attempt): set<T> {
    present + Ids(ReportOf(attempted, outcomes).syncs)
  }

  /** What one more attempt changes. */
  lemma AttemptStep<T(!new)>(attempted: seq<T>, id: T, present: set<T>, outcomes: nat -> Attempt)
    ensures var outcome := outcomes(|attempted|);
            && ReportOf(attempted + [id], outcomes) == WithAttempt(ReportOf(attempted, outcomes), id, outcome)
            && TargetOf(present, attempted + [id], outcomes) ==
               TargetOf(present, attempted, outcomes) + if outcome.Some? then {id} else {}
  {
    ReportSnoc(attempted, id, outcomes);
  }

  lemma AllAttempted<T(!new)>(selected: seq<T>, present: set<T>)
    ensures Attempted(selected[..|selected|], present) == Attempted(selected, present)
  {
    assert selected[..|selected|] == selected;
  }

  /** The target store as far as sync sees it. */
  class Target<T(==, !new)> {
    var snapshots: set<T>

    constructor (snapshots: set<T>)
      ensures this.snapshots == snapshots
    {
      this.snapshots := snapshots;
    }

    /** syncSnap: a successful copy adds the id to the target, a failed one adds nothing. */
    method CopySnapshot(id: T, outcome: Attempt) returns (r: Option<SyncReport<T>>)
      modifies this
      ensures r == (if outcome.Some? then Some(SyncReport(id, outcome.value)) else None)
      ensures snapshots == if outcome.Some? then old(snapshots) + {id} else old(snapshots)
    {
      match outcome
      case None => return None;
      case Some(size) =>
        snapshots := snapshots + {id};
        return Some(SyncReport(id, size));
    }

    /** One turn of the loop: a failure is counted, a success reported. */
    method TryCopy(ssr: SyncsReport<T>, id: T, outcome: Attempt) returns (next: SyncsReport<T>)
      modifies this
      ensures next == WithAttempt(ssr, id, outcome)
      ensures snapshots == if outcome.Some? then old(snapshots) + {id} else old(snapshots)
    {
      var r := CopySnapshot(id, outcome);
      if r.None? {
        return ssr.(errors := Wrap64(ssr.errors + 1));
      }
      return ssr.(logicalSize := Wrap64(ssr.logicalSize + r.value.logicalSize), syncs := ssr.syncs + [r.value]);
    }

    /** The loop of synchronize, under any outcome of each copy. */
    method Synchronize(selected: seq<T>, outcomes: nat -> Attempt) returns (ssr: SyncsReport<T>)
      modifies this
      ensures ssr == ReportOf(Attempted(selected, old(snapshots)), outcomes)
      ensures snapshots == old(snapshots) + Ids(ssr.syncs)
    {
      var present, n := snapshots, 0;
      ghost var done: seq<T> := [];
      ssr := SyncsReport(0, 0, []);
      for i := 0 to |selected|
        invariant done == Attempted(selected[..i], present) && n == |done|
        invariant ssr == ReportOf(done, outcomes)
        invariant snapshots == TargetOf(present, done, outcomes)
      {
        AttemptedSnoc(selected, i, present);
        if selected[i] in present {
          continue;
        }
        AttemptStep(done, selected[i], present, outcomes);
        done := done + [selected[i]];
        ssr := TryCopy(ssr, selected[i], outcomes(n));
        n := n + 1;
      }
      AllAttempted(selected, present);
    }
  }

  // ----- accounting -----

  lemma {:induction false} CopiedOrNot<T>(attempted: seq<T>, outcomes: nat -> Attempt)
    ensures |Copied(attempted, outcomes)| + |NotCopied(attempted, outcomes)| == |attempted|
  {
    if attempted == [] {
    } else {
      CopiedOrNot(attempted[..|attempted| - 1], outcomes);
    }
  }

  lemma {:induction false} SkippedOrAttempted<T(!new)>(selected: seq<T>, present: set<T>)
    ensures |Filter(selected, (id: T) => id in present)| + |Attempted(selected, present)| == |selected|
  {
    if selected == [] {
    } else {
      SkippedOrAttempted(selected[1..], present);
    }
  }

  /** Skipped + errors + syncs = selected (errors modulo 2^64), and the logical size is that of the syncs. */
  lemma Accounting<T(!new)>(selected: seq<T>, present: set<T>, outcomes: nat -> Attempt)
    ensures var report := ReportOf(Attempted(selected, present), outcomes);
            var skipped := |Filter(selected, (id: T) => id in present)|;
            && skipped + |report.syncs| <= |selected|
            && report.errors == Wrap64(|selected| - skipped - |report.syncs|)
            && report.logicalSize == Wrap64(TotalSize(report.syncs))
  {
    SkippedOrAttempted(selected, present);
    CopiedOrNot(Attempted(selected, present), outcomes);
  }

  /** How many of the first n attempts succeeded. */
  function Successes(outcomes: nat -> Attempt, n: nat): nat {
    if n == 0 then 0 else Successes(outcomes, n - 1) + if outcomes(n - 1).Some? then 1 else 0
  }

  /** The sizes of those, added up. */
  function SizeSum(outcomes: nat -> Attempt, n: nat): int {
    if n == 0 then 0 else SizeSum(outcomes, n - 1) + if outcomes(n - 1).Some? then outcomes(n - 1).value else 0
  }

  /** The copies reported are the successful attempts, in order, each with its own id and size. */
  lemma {:induction false} CopiedInOrder<T>(attempted: seq<T>, outcomes: nat -> Attempt)
    ensures var syncs := Copied(attempted, outcomes);
            && |syncs| == Successes(outcomes, |attempted|)
            && TotalSize(syncs) == SizeSum(outcomes, |attempted|)
            && forall k :: 0 <= k < |attempted| && outcomes(k).Some? ==>
                 && Successes(outcomes, k) < |syncs|
                 && syncs[Successes(outcomes, k)].id == attempted[k]
                 && syncs[Successes(outcomes, k)].logicalSize == outcomes(k).value
  {
    if attempted == [] {
    } else {
      var n := |attempted| - 1;
      var before, syncs := Copied(attempted[..n], outcomes), Copied(attempted, outcomes);
      CopiedInOrder(attempted[..n], outcomes);
      assert syncs == before || syncs[..|syncs| - 1] == before;
    }
  }

  lemma {:induction false} FailuresCounted<T>(attempted: seq<T>, outcomes: nat -> Attempt)
    ensures |NotCopied(attempted, outcomes)| == |attempted| - Successes(outcomes, |attempted|)
  {
    if attempted == [] {
    } else {
      FailuresCounted(attempted[..|attempted| - 1], outcomes);
    }
  }

  /** The report in terms of the outcomes: their failures counted, their sizes added, modulo 2^64. */
  lemma ReportOfOutcomes<T>(attempted: seq<T>, outcomes: nat -> Attempt)
    ensures var report, n := ReportOf(attempted, outcomes), |attempted|;
            && report.errors == Wrap64(n - Successes(outcomes, n))
            && report.logicalSize == Wrap64(SizeSum(outcomes, n))
            && |report.syncs| == Successes(outcomes, n)
            && forall k :: 0 <= k < n && outcomes(k).Some? ==>
                 && Successes(outcomes, k) < |report.syncs|
                 && report.syncs[Successes(outcomes, k)] ==
                    SyncReport(id := attempted[k], logicalSize := outcomes(k).value)
  {
    CopiedInOrder(attempted, outcomes);
    FailuresCounted(attempted, outcomes);
  }

  // ----- convergence -----

  lemma {:induction false} CopiedMeaning<T>(attempted: seq<T>, outcomes: nat -> Attempt, id: T)
    ensures id in Ids(Copied(attempted, outcomes))
       <==> exists k :: 0 <= k < |attempted| && attempted[k] == id && outcomes(k).Some?
  {
    if attempted == [] {
    } else {
      var n := |attempted| - 1;
      CopiedMeaning(attempted[..n], outcomes, id);
      if outcomes(n).Some? {
        IdsSnoc(Copied(attempted[..n], outcomes), SyncReport(attempted[n], outcomes(n).value));
      }
    }
  }

  lemma {:induction false} FilterTwice<T(!new)>(selected: seq<T>, present: set<T>, added: set<T>)
    ensures Attempted(selected, present + added) == Attempted(Attempted(selected, present), added)
  {
    if selected == [] {
    } else {
      FilterTwice(selected[1..], present, added);
      FilterConcat(if selected[0] in present then [] else [selected[0]], Attempted(selected[1..], present),
                   IsMissing(added));
      var first := if selected[0] in present then [] else [selected[0]];
      assert Attempted(selected, present) == first + Attempted(selected[1..], present);
      assert Attempted(selected, present + added) ==
             (if selected[0] in present + added then [] else [selected[0]]) + Attempted(selected[1..], present + added);
    }
  }

  /** No snapshot, selected more than once, had one copy fail and another succeed. */
  ghost predicate Consistent<T>(attempted: seq<T>, outcomes: nat -> Attempt) {
    forall j, k :: 0 <= j < |attempted| && 0 <= k < |attempted| && attempted[j] == attempted[k] ==>
      (outcomes(j).Some? <==> outcomes(k).Some?)
  }

  lemma {:induction false} MissingAreNotCopied<T(!new)>(attempted: seq<T>, outcomes: nat -> Attempt, copied: set<T>)
    requires forall k :: 0 <= k < |attempted| ==> (attempted[k] in copied <==> outcomes(k).Some?)
    ensures Attempted(attempted, copied) == NotCopied(attempted, outcomes)
  {
    if attempted == [] {
    } else {
      var n := |attempted| - 1;
      MissingAreNotCopied(attempted[..n], outcomes, copied);
      AttemptedSnoc(attempted, n, copied);
      assert attempted[..n + 1] == attempted;
    }
  }

  lemma {:induction false} NotCopiedMembers<T>(attempted: seq<T>, outcomes: nat -> Attempt, k: nat)
    requires k < |attempted| && outcomes(k).None?
    ensures attempted[k] in NotCopied(attempted, outcomes)
  {
    if k == |attempted| - 1 {
    } else {
      NotCopiedMembers(attempted[..|attempted| - 1], outcomes, k);
    }
  }

  /**
   A second run on the same selection attempts exactly the ids that failed, in order, if and only if no id
   was selected twice with different outcomes.
   */
  lemma SecondRun<T(!new)>(selected: seq<T>, present: set<T>, outcomes: nat -> Attempt)
    ensures var attempted := Attempted(selected, present);
            var target := present + Ids(Copied(attempted, outcomes));
            Attempted(selected, target) == NotCopied(attempted, outcomes) <==> Consistent(attempted, outcomes)
  {
    var attempted := Attempted(selected, present);
    var copied := Ids(Copied(attempted, outcomes));
    FilterTwice(selected, present, copied);
    forall id { CopiedMeaning(attempted, outcomes, id); }
    if Consistent(attempted, outcomes) {
      MissingAreNotCopied(attempted, outcomes, copied);
    } else {
      var j, k :| && 0 <= j < |attempted| && 0 <= k < |attempted| && attempted[j] == attempted[k]
                  && outcomes(j).Some? && outcomes(k).None?;
      NotCopiedMembers(attempted, outcomes, k);
      FilterMembers(attempted, IsMissing(copied), attempted[k]);
    }
  }

  lemma {:induction false} AttemptedDistinct<T(!new)>(selected: seq<T>, present: set<T>)
    requires forall i, j :: 0 <= i < j < |selected| ==> selected[i] != selected[j]
    ensures var a := Attempted(selected, present); forall i, j :: 0 <= i < j < |a| ==> a[i] != a[j]
  {
    if selected == [] {
    } else {
      AttemptedDistinct(selected[1..], present);
      var rest := Attempted(selected[1..], present);
      forall i | 0 <= i < |rest| ensures rest[i] != selected[0] {
        FilterMembers(selected[1..], IsMissing(present), rest[i]);
        assert rest[i] in rest;
      }
    }
  }

  /** On a selection without repetitions a second run attempts exactly the ids that failed, in order. */
  lemma SecondRunOfDistinct<T(!new)>(selected: seq<T>, present: set<T>, outcomes: nat -> Attempt)
    requires forall i, j :: 0 <= i < j < |selected| ==> selected[i] != selected[j]
    ensures var attempted := Attempted(selected, present);
            Attempted(selected, present + Ids(Copied(attempted, outcomes))) == NotCopied(attempted, outcomes)
  {
    AttemptedDistinct(selected, present);
    SecondRun(selected, present, outcomes);
  }
}
