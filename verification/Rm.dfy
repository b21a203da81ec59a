/** The rm operation: identifiers from the task config, all of them decoded, then the worker pool. */
module Rm {
  import opened Prelude
  import opened TaskConfig
  import opened SnapshotIds
  import opened RmPool

  datatype RmError = NoSource | BadId(error: ParseError) | StoreUnavailable

  /** The concurrency Main gives the context: never 0, whatever the flag says. */
  function Concurrency(flag: int, numCPU: int): (k: nat)
    ensures k >= 1
    ensures flag >= 1 ==> k == flag
    ensures flag <= 0 && numCPU >= 1 ==> k == numCPU
  {
    if flag <= 0 then (if numCPU > 1 then numCPU else 1) else flag
  }

  /** The pool run to its end under an arbitrary scheduler and arbitrary deletion outcomes. */
  method RunPool<T(!new)>(job: Job<T>) returns (report: RmReport<T>, ghost run: seq<Pool<T>>, ghost steps: seq<Step>)
    requires job.concurrency >= 1
    ensures Reported(job, run, steps, report)
  {
    var s := Init(job);
    InitInv(job);
    run, steps := [s], [];
    while !s.main.Returned?
      invariant Inv(job, s)
      invariant IsRun(job, run, steps) && run[|steps|] == s
      decreases Measure(s)
    {
      ghost var enabled := NoDeadlock(job, s);
      var step :| Enabled(job, s, step);
      StepInv(job, s, step);
      StepDecreases(job, s, step);
      Extend(job, run, steps, step);
      s := Next(job, s, step);
      run, steps := run + [s], steps + [step];
    }
    ReturnedReports(job, run, steps);
    report := s.report.value;
  }

  /** The identifiers decode to these MACs, one by one. */
  ghost predicate Decodes(ids: seq<string>, macs: seq<Mac>) {
    |macs| == |ids| && forall i :: 0 <= i < |ids| ==> ParseOne(ids[i]) == Ok(macs[i])
  }

  /** Why rm gives up before deleting anything, if it does. */
  ghost predicate Refused(hasSource: bool, ids: seq<string>, storeOpens: bool, e: RmError) {
    match e
    case NoSource => !hasSource
    case BadId(pe) =>
      && hasSource
      && exists k :: 0 <= k < |ids| && ParseOne(ids[k]) == Err(pe) && forall i :: 0 <= i < k ==> ParseOne(ids[i]).Ok?
    case StoreUnavailable => hasSource && ids != [] && !storeOpens && exists macs :: Decodes(ids, macs)
  }

  /** What rm reports on these MACs: nothing, for none; else what some run of the pool on them reported. */
  ghost predicate Answers(macs: seq<Mac>, concurrency: nat, report: RmReport<Mac>) {
    if macs == [] then report == RmReport(0, [])
    else exists run, steps :: Reported(Job(macs, concurrency), run, steps, report)
  }

  /**
   Removes the snapshots the config names, once every identifier has decoded; naming nothing succeeds
   without opening the store; otherwise the report is what the deletions of a run of the pool answered.
   */
  method Run(hasSource: bool, cfg: Config, storeOpens: bool, concurrencyFlag: int, numCPU: int)
    returns (r: Result<RmReport<Mac>, RmError>)
    ensures r.Err? ==> Refused(hasSource, IndexedList(cfg, "snapshot_ids"), storeOpens, r.error)
    ensures r.Ok? ==>
      var ids := IndexedList(cfg, "snapshot_ids");
      && hasSource && (ids != [] ==> storeOpens)
      && exists macs :: Decodes(ids, macs) && Answers(macs, Concurrency(concurrencyFlag, numCPU), r.value)
  {
    if !hasSource {
      return Err(NoSource);
    }
    var ids := ReadIndexedList(cfg, "snapshot_ids");
    var parsed := ParseSnapshotIds(ids);
    match parsed {
      case Err(e) =>
        return Err(BadId(e));
      case Ok(macs) =>
        assert Decodes(ids, macs);
        if |macs| == 0 {
          return Ok(RmReport(0, []));
        }
        if !storeOpens {
          return Err(StoreUnavailable);
        }
        var report, run, steps := RunPool(Job(macs, Concurrency(concurrencyFlag, numCPU)));
        assert Answers(macs, Concurrency(concurrencyFlag, numCPU), report);
        return Ok(report);
    }
  }
}
