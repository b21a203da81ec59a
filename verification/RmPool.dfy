/**
 The rm worker pool: a feeder, K deleting workers and a collector around a buffered and an
 unbuffered channel, as a state machine whose steps may be scheduled in any order.
 */
module RmPool {
  import opened Prelude

  datatype Worker<T> =
    | Idle               // at the top of "for snapshotID := range rmq"
    | Deleting(id: T)    // inside repo.DeleteSnapshot
    | Sending(id: T)     // blocked on "removed <- snapshotID"
    | Exited

  datatype Collector<T> = Receiving | Appending(id: T) | Finished

  datatype MainPc =
    | Feeding            // sending ids into rmq, then closing it
    | WaitingWorkers     // wg.Wait()
    | ClosingRemoved
    | WaitingCollector   // reportWG.Wait()
    | Reporting          // about to read the error count and the report
    | Returned

  datatype RmReport<T> = RmReport(errors: u64, snapshotIDs: seq<T>)

  /** The channels and goroutines of one rm run. `failed` is history: the ids whose deletion failed. */
  datatype Pool<T> = Pool(
    main: MainPc,
    todo: seq<T>,
    buffer: seq<T>,
    queueClosed: bool,
    workers: seq<Worker<T>>,
    removedClosed: bool,
    collector: Collector<T>,
    snapshotIDs: seq<T>,
    errors: u64,
    failed: seq<T>,
    report: Option<RmReport<T>>)

  /** The input: what to delete, and ctx.MaxConcurrency, both the queue's capacity and the worker count. */
  datatype Job<T> = Job(ids: seq<T>, concurrency: nat)

  datatype Step =
    | Feed
    | CloseQueue
    | Receive(w: nat)
    | Delete(w: nat, ok: bool)
    | Handoff(w: nat)
    | Append
    | Exit(w: nat)
    | WorkersJoined
    | CloseRemoved
    | CollectorExit
    | CollectorJoined
    | ReadReport

  function Init<T>(job: Job<T>): Pool<T> {
    Pool(Feeding, job.ids, [], false, seq(job.concurrency, _ => Idle), false, Receiving, [], 0, [], None)
  }

  predicate Enabled<T>(job: Job<T>, s: Pool<T>, step: Step) {
    match step
    case Feed => s.main.Feeding? && s.todo != [] && |s.buffer| < job.concurrency
    case CloseQueue => s.main.Feeding? && s.todo == []
    case Receive(w) => w < |s.workers| && s.workers[w].Idle? && s.buffer != []
    case Delete(w, _) => w < |s.workers| && s.workers[w].Deleting?
    case Handoff(w) => w < |s.workers| && s.workers[w].Sending? && s.collector.Receiving?
    case Append => s.collector.Appending?
    case Exit(w) => w < |s.workers| && s.workers[w].Idle? && s.buffer == [] && s.queueClosed
    case WorkersJoined => s.main.WaitingWorkers? && AllExited(s.workers)
    case CloseRemoved => s.main.ClosingRemoved?
    case CollectorExit => s.collector.Receiving? && s.removedClosed
    case CollectorJoined => s.main.WaitingCollector? && s.collector.Finished?
    case ReadReport => s.main.Reporting?
  }

  predicate AllExited<T>(workers: seq<Worker<T>>) {
    forall i :: 0 <= i < |workers| ==> workers[i].Exited?
  }

  function Next<T>(job: Job<T>, s: Pool<T>, step: Step): Pool<T>
    requires Enabled(job, s, step)
  {
    match step
    case Feed => s.(todo := s.todo[1..], buffer := s.buffer + [s.todo[0]])
    case CloseQueue => s.(main := WaitingWorkers, queueClosed := true)
    case Receive(w) => s.(workers := s.workers[w := Deleting(s.buffer[0])], buffer := s.buffer[1..])
    case Delete(w, ok) =>
      if ok then s.(workers := s.workers[w := Sending(s.workers[w].id)])
      else s.(workers := s.workers[w := Idle], errors := Wrap64(s.errors + 1), failed := s.failed + [s.workers[w].id])
    case Handoff(w) => s.(workers := s.workers[w := Idle], collector := Appending(s.workers[w].id))
    case Append => s.(collector := Receiving, snapshotIDs := s.snapshotIDs + [s.collector.id])
    case Exit(w) => s.(workers := s.workers[w := Exited])
    case WorkersJoined => s.(main := ClosingRemoved)
    case CloseRemoved => s.(main := WaitingCollector, removedClosed := true)
    case CollectorExit => s.(collector := Finished)
    case CollectorJoined => s.(main := Reporting)
    case ReadReport => s.(main := Returned, report := Some(RmReport(s.errors, s.snapshotIDs)))
  }

  /** No goroutine can take a step. */
  ghost predicate Stuck<T>(job: Job<T>, s: Pool<T>) {
    forall step :: !Enabled(job, s, step)
  }

  /** Step i leads from state i to the next. */
  ghost predicate StepAt<T>(job: Job<T>, run: seq<Pool<T>>, steps: seq<Step>, i: nat) {
    i < |steps| && i + 1 < |run| && Enabled(job, run[i], steps[i]) && run[i + 1] == Next(job, run[i], steps[i])
  }

  /** A run: the states gone through and the steps between them, under some schedule and some outcomes. */
  ghost predicate IsRun<T>(job: Job<T>, run: seq<Pool<T>>, steps: seq<Step>) {
    && |run| == |steps| + 1
    && run[0] == Init(job)
    && forall i :: 0 <= i < |steps| ==> StepAt(job, run, steps, i)
  }

  // ----- where the ids are -----

  ghost function HeldBy<T>(w: Worker<T>, x: T): nat {
    match w
    case Deleting(id) => if id == x then 1 else 0
    case Sending(id) => if id == x then 1 else 0
    case _ => 0
  }

  ghost function Held<T>(workers: seq<Worker<T>>, x: T): nat {
    if workers == [] then 0 else HeldBy(workers[0], x) + Held(workers[1..], x)
  }

  ghost function Pending<T>(c: Collector<T>, x: T): nat {
    if c.Appending? && c.id == x then 1 else 0
  }

  /** How many copies of x there are, wherever they currently are. */
  ghost function Copies<T>(s: Pool<T>, x: T): nat {
    multiset(s.todo)[x] + multiset(s.buffer)[x] + Held(s.workers, x) + Pending(s.collector, x)
    + multiset(s.snapshotIDs)[x] + multiset(s.failed)[x]
  }

  /** Not yet fed + buffered + held by workers or the collector + collected + failed = input. */
  ghost predicate Conserved<T(!new)>(job: Job<T>, s: Pool<T>) {
    forall x :: Copies(s, x) == multiset(job.ids)[x]
  }

  lemma {:induction false} HeldUpdate<T>(workers: seq<Worker<T>>, i: nat, w: Worker<T>, x: T)
    requires i < |workers|
    ensures Held(workers[i := w], x) + HeldBy(workers[i], x) == Held(workers, x) + HeldBy(w, x)
  {
    if i == 0 {
      assert workers[0 := w][1..] == workers[1..];
    } else {
      HeldUpdate(workers[1..], i - 1, w, x);
      assert workers[i := w][1..] == workers[1..][i - 1 := w];
    }
  }

  lemma {:induction false} NothingHeld<T>(workers: seq<Worker<T>>, x: T)
    requires forall i :: 0 <= i < |workers| ==> workers[i].Idle? || workers[i].Exited?
    ensures Held(workers, x) == 0
  {
    if workers == [] {
    } else {
      NothingHeld(workers[1..], x);
    }
  }

  lemma CountPushPop<T>(q: seq<T>, y: T, x: T)
    ensures multiset(q + [y])[x] == multiset(q)[x] + if x == y then 1 else 0
    ensures q != [] ==> multiset(q)[x] == multiset(q[1..])[x] + if x == q[0] then 1 else 0
  {
    if q != [] {
      assert q == [q[0]] + q[1..];
    }
  }

  // ----- the inductive invariant -----

  ghost predicate Inv<T(!new)>(job: Job<T>, s: Pool<T>) {
    && Conserved(job, s)
    && s.errors == Wrap64(|s.failed|)
    && |s.workers| == job.concurrency
    && |s.buffer| <= job.concurrency
    && (s.queueClosed <==> !s.main.Feeding?)
    && (s.queueClosed ==> s.todo == [])
    && (forall i :: 0 <= i < |s.workers| && s.workers[i].Exited? ==> s.queueClosed && s.buffer == [])
    && (s.main in {ClosingRemoved, WaitingCollector, Reporting, Returned} ==> AllExited(s.workers))
    && (s.removedClosed <==> s.main in {WaitingCollector, Reporting, Returned})
    && (s.collector.Finished? ==> s.removedClosed)
    && (s.main in {Reporting, Returned} ==> s.collector.Finished?)
    && s.report == (if s.main.Returned? then Some(RmReport(s.errors, s.snapshotIDs)) else None)
  }

  lemma InitInv<T(!new)>(job: Job<T>)
    ensures Inv(job, Init(job))
  {
    forall x ensures Copies(Init(job), x) == multiset(job.ids)[x] {
      NothingHeld(Init(job).workers, x);
    }
  }

  lemma WorkerStepConserves<T>(job: Job<T>, s: Pool<T>, step: Step, w: nat, x: T)
    requires Enabled(job, s, step)
    requires step == Receive(w) || step == Handoff(w) || step == Exit(w)
    ensures Copies(Next(job, s, step), x) == Copies(s, x)
  {
    HeldUpdate(s.workers, w, Next(job, s, step).workers[w], x);
    if step.Receive? {
      CountPushPop(s.buffer, s.buffer[0], x);
    }
  }

  lemma KeepConserves<T>(s: Pool<T>, w: nat, x: T)
    requires w < |s.workers| && s.workers[w].Deleting?
    ensures Copies(s.(workers := s.workers[w := Sending(s.workers[w].id)]), x) == Copies(s, x)
  {
    HeldUpdate(s.workers, w, Sending(s.workers[w].id), x);
  }

  lemma FailConserves<T>(s: Pool<T>, w: nat, x: T, errors: u64)
    requires w < |s.workers| && s.workers[w].Deleting?
    ensures var failed := s.failed + [s.workers[w].id];
            Copies(s.(workers := s.workers[w := Idle], errors := errors, failed := failed), x) == Copies(s, x)
  {
    HeldUpdate(s.workers, w, Idle, x);
    CountPushPop(s.failed, s.workers[w].id, x);
  }

  lemma QueueStepConserves<T>(job: Job<T>, s: Pool<T>, step: Step, x: T)
    requires Enabled(job, s, step) && (step.Feed? || step.Append?)
    ensures Copies(Next(job, s, step), x) == Copies(s, x)
  {
    if step.Feed? {
      CountPushPop(s.todo, s.todo[0], x);
      CountPushPop(s.buffer, s.todo[0], x);
    } else {
      CountPushPop(s.snapshotIDs, s.collector.id, x);
    }
  }

  lemma StepConserves<T>(job: Job<T>, s: Pool<T>, step: Step, x: T)
    requires Enabled(job, s, step)
    ensures Copies(Next(job, s, step), x) == Copies(s, x)
  {
    if step.Feed? || step.Append? {
      QueueStepConserves(job, s, step, x);
    } else if step.Delete? {
      if step.ok {
        KeepConserves(s, step.w, x);
      } else {
        FailConserves(s, step.w, x, Wrap64(s.errors + 1));
      }
    } else if step.Receive? || step.Handoff? || step.Exit? {
      WorkerStepConserves(job, s, step, step.w, x);
    }
  }

  lemma StepInv<T(!new)>(job: Job<T>, s: Pool<T>, step: Step)
    requires Inv(job, s) && Enabled(job, s, step)
    ensures Inv(job, Next(job, s, step))
  {
    forall x ensures Copies(Next(job, s, step), x) == multiset(job.ids)[x] {
      StepConserves(job, s, step, x);
    }
    WrapAdd(|s.failed|, 1);
  }

  // ----- termination -----

  function WorkerRank<T>(w: Worker<T>): nat {
    match w
    case Idle => 1
    case Deleting(_) => 5
    case Sending(_) => 4
    case Exited => 0
  }

  function WorkersRank<T>(workers: seq<Worker<T>>): nat {
    if workers == [] then 0 else WorkerRank(workers[0]) + WorkersRank(workers[1..])
  }

  function CollectorRank<T>(c: Collector<T>): nat {
    match c
    case Receiving => 1
    case Appending(_) => 3
    case Finished => 0
  }

  function MainRank(pc: MainPc): nat {
    match pc
    case Feeding => 5
    case WaitingWorkers => 4
    case ClosingRemoved => 3
    case WaitingCollector => 2
    case Reporting => 1
    case Returned => 0
  }

  /** A bound on the number of steps left, whatever the schedule. */
  function Measure<T>(s: Pool<T>): nat {
    6 * |s.todo| + 5 * |s.buffer| + WorkersRank(s.workers) + CollectorRank(s.collector) + MainRank(s.main)
  }

  lemma {:induction false} RankUpdate<T>(workers: seq<Worker<T>>, i: nat, w: Worker<T>)
    requires i < |workers|
    ensures WorkersRank(workers[i := w]) + WorkerRank(workers[i]) == WorkersRank(workers) + WorkerRank(w)
  {
    if i == 0 {
      assert workers[0 := w][1..] == workers[1..];
    } else {
      RankUpdate(workers[1..], i - 1, w);
      assert workers[i := w][1..] == workers[1..][i - 1 := w];
    }
  }

  lemma StepDecreases<T>(job: Job<T>, s: Pool<T>, step: Step)
    requires Enabled(job, s, step)
    ensures Measure(Next(job, s, step)) < Measure(s)
  {
    match step
    case Receive(w) => RankUpdate(s.workers, w, Deleting(s.buffer[0]));
    case Delete(w, ok) => RankUpdate(s.workers, w, if ok then Sending(s.workers[w].id) else Idle);
    case Handoff(w) => RankUpdate(s.workers, w, Idle);
    case Exit(w) => RankUpdate(s.workers, w, Exited);
    case _ =>
  }

  lemma {:induction false} IdleRank<T>(k: nat)
    ensures WorkersRank(seq<Worker<T>>(k, _ => Idle)) == k
  {
    if k == 0 {
    } else {
      var workers := seq<Worker<T>>(k, _ => Idle);
      assert workers[1..] == seq<Worker<T>>(k - 1, _ => Idle);
      IdleRank<T>(k - 1);
    }
  }

  // ----- progress -----

  /** With a worker there is always something to do until the run has returned: the pool cannot deadlock. */
  lemma NoDeadlock<T(!new)>(job: Job<T>, s: Pool<T>) returns (step: Step)
    requires job.concurrency >= 1 && Inv(job, s) && !s.main.Returned?
    ensures Enabled(job, s, step)
  {
    if s.collector.Appending? {
      return Append;
    }
    if w :| 0 <= w < |s.workers| && s.workers[w].Deleting? {
      return Delete(w, true);
    }
    if w :| 0 <= w < |s.workers| && s.workers[w].Sending? {
      return Handoff(w);
    }
    match s.main
    case Feeding =>
      if s.todo == [] {
        return CloseQueue;
      }
      return if |s.buffer| < job.concurrency then Feed else Receive(0);
    case WaitingWorkers =>
      if w :| 0 <= w < |s.workers| && !s.workers[w].Exited? {
        return if s.buffer == [] then Exit(w) else Receive(w);
      }
      return WorkersJoined;
    case ClosingRemoved => return CloseRemoved;
    case WaitingCollector => return if s.collector.Finished? then CollectorJoined else CollectorExit;
    case Reporting => return ReadReport;
  }

  /** With no worker and something to delete, the very first send blocks for ever. */
  lemma StuckWithoutWorkers<T>(job: Job<T>)
    requires job.concurrency == 0
    ensures job.ids != [] <==> Stuck(job, Init(job))
  {
    if job.ids == [] {
      assert Enabled(job, Init(job), CloseQueue);
    }
  }

  // ----- whole runs -----

  /** In every state of every run: nothing lost or duplicated, and at most Measure(Init) steps in all. */
  lemma {:induction false} RunInv<T(!new)>(job: Job<T>, run: seq<Pool<T>>, steps: seq<Step>, i: nat)
    requires IsRun(job, run, steps) && i < |run|
    ensures Inv(job, run[i])
    ensures Measure(run[i]) + i <= Measure(Init(job)) == 6 * |job.ids| + job.concurrency + 6
  {
    IdleRank<T>(job.concurrency);
    if i == 0 {
      InitInv(job);
    } else {
      RunInv(job, run, steps, i - 1);
      assert StepAt(job, run, steps, i - 1);
      StepInv(job, run[i - 1], steps[i - 1]);
      StepDecreases(job, run[i - 1], steps[i - 1]);
    }
  }

  /** No worker is ever about to send on `removed` once it is closed. */
  lemma NoSendOnClosed<T(!new)>(job: Job<T>, run: seq<Pool<T>>, steps: seq<Step>, i: nat, w: nat)
    requires IsRun(job, run, steps) && i < |run| && w < |run[i].workers| && run[i].removedClosed
    ensures run[i].workers[w].Exited?
  {
    RunInv(job, run, steps, i);
  }

  // ----- what a run did, read off its steps -----

  /** The id a worker holds when the deletion of it is answered by this step, if it is. */
  ghost function AnsweredBy<T>(s: Pool<T>, step: Step, ok: bool): seq<T> {
    if step.Delete? && step.ok == ok && step.w < |s.workers| && s.workers[step.w].Deleting? then [s.workers[step.w].id]
    else []
  }

  /** The ids whose deletion succeeded, or failed, in the first n steps, in order. */
  ghost function Answered<T>(run: seq<Pool<T>>, steps: seq<Step>, ok: bool, n: nat): seq<T>
    requires n <= |steps| < |run|
  {
    if n == 0 then [] else Answered(run, steps, ok, n - 1) + AnsweredBy(run[n - 1], steps[n - 1], ok)
  }

  /** The ids the workers took off the queue in the first n steps, in order. */
  ghost function Taken<T>(run: seq<Pool<T>>, steps: seq<Step>, n: nat): seq<T>
    requires n <= |steps| < |run|
  {
    if n == 0 then []
    else
      var before, s := Taken(run, steps, n - 1), run[n - 1];
      if steps[n - 1].Receive? && s.buffer != [] then before + [s.buffer[0]] else before
  }

  /** The queue is first in, first out: the workers take the ids in the order they were named. */
  lemma {:induction false} TakenInOrder<T>(job: Job<T>, run: seq<Pool<T>>, steps: seq<Step>, n: nat)
    requires IsRun(job, run, steps) && n <= |steps|
    ensures Taken(run, steps, n) + run[n].buffer + run[n].todo == job.ids
  {
    if n == 0 {
    } else {
      TakenInOrder(job, run, steps, n - 1);
      assert StepAt(job, run, steps, n - 1);
      TakenStep(job, run[n - 1], steps[n - 1], Taken(run, steps, n - 1));
    }
  }

  lemma TakenStep<T>(job: Job<T>, s: Pool<T>, step: Step, taken: seq<T>)
    requires Enabled(job, s, step)
    ensures var s' := Next(job, s, step);
            (if step.Receive? then taken + [s.buffer[0]] else taken) + s'.buffer + s'.todo == taken + s.buffer + s.todo
  {
    if step.Feed? {
      assert s.todo == [s.todo[0]] + s.todo[1..];
    } else if step.Receive? {
      assert s.buffer == [s.buffer[0]] + s.buffer[1..];
    }
  }

  /** The ids handed to the collector in the first n steps, in order. */
  ghost function Handed<T>(run: seq<Pool<T>>, steps: seq<Step>, n: nat): seq<T>
    requires n <= |steps| < |run|
  {
    if n == 0 then [] else Handed(run, steps, n - 1) + HandedBy(run[n - 1], steps[n - 1])
  }

  ghost function HandedBy<T>(s: Pool<T>, step: Step): seq<T> {
    if step.Handoff? && step.w < |s.workers| && s.workers[step.w].Sending? then [s.workers[step.w].id] else []
  }

  /** The collector keeps the order in which ids are handed to it. */
  lemma {:induction false} HandedInOrder<T>(job: Job<T>, run: seq<Pool<T>>, steps: seq<Step>, n: nat)
    requires IsRun(job, run, steps) && n <= |steps|
    ensures Handed(run, steps, n) == run[n].snapshotIDs + InHand(run[n].collector)
  {
    if n == 0 {
    } else {
      HandedInOrder(job, run, steps, n - 1);
      assert StepAt(job, run, steps, n - 1);
      HandedStep(job, run[n - 1], steps[n - 1]);
    }
  }

  ghost function InHand<T>(c: Collector<T>): seq<T> {
    if c.Appending? then [c.id] else []
  }

  lemma HandedStep<T>(job: Job<T>, s: Pool<T>, step: Step)
    requires Enabled(job, s, step)
    ensures var s' := Next(job, s, step);
            s.snapshotIDs + InHand(s.collector) + HandedBy(s, step) == s'.snapshotIDs + InHand(s'.collector)
  {
  }

  /** The failures of a run are the deletions answered by a failure. */
  lemma {:induction false} FailedAnswers<T>(job: Job<T>, run: seq<Pool<T>>, steps: seq<Step>, n: nat)
    requires IsRun(job, run, steps) && n <= |steps|
    ensures run[n].failed == Answered(run, steps, false, n)
  {
    if n == 0 {
    } else {
      FailedAnswers(job, run, steps, n - 1);
      assert StepAt(job, run, steps, n - 1);
      FailedStep(job, run[n - 1], steps[n - 1]);
    }
  }

  lemma FailedStep<T>(job: Job<T>, s: Pool<T>, step: Step)
    requires Enabled(job, s, step)
    ensures Next(job, s, step).failed == s.failed + AnsweredBy(s, step, false)
  {
  }

  ghost function SentBy<T>(w: Worker<T>, x: T): nat {
    if w.Sending? && w.id == x then 1 else 0
  }

  /** How many workers are about to hand over x, its deletion having succeeded. */
  ghost function Sent<T>(workers: seq<Worker<T>>, x: T): nat {
    if workers == [] then 0 else SentBy(workers[0], x) + Sent(workers[1..], x)
  }

  lemma {:induction false} SentUpdate<T>(workers: seq<Worker<T>>, i: nat, w: Worker<T>, x: T)
    requires i < |workers|
    ensures Sent(workers[i := w], x) + SentBy(workers[i], x) == Sent(workers, x) + SentBy(w, x)
  {
    if i == 0 {
      assert workers[0 := w][1..] == workers[1..];
    } else {
      SentUpdate(workers[1..], i - 1, w, x);
      assert workers[i := w][1..] == workers[1..][i - 1 := w];
    }
  }

  lemma {:induction false} NothingSent<T>(workers: seq<Worker<T>>, x: T)
    requires forall i :: 0 <= i < |workers| ==> !workers[i].Sending?
    ensures Sent(workers, x) == 0
  {
    if workers == [] {
    } else {
      NothingSent(workers[1..], x);
    }
  }

  /** Copies of x on their way to the report or in it. */
  ghost function Removed<T>(s: Pool<T>, x: T): nat {
    Sent(s.workers, x) + Pending(s.collector, x) + multiset(s.snapshotIDs)[x]
  }

  ghost function Once<T>(y: T, x: T): nat {
    if x == y then 1 else 0
  }

  lemma RemovedDelete<T>(job: Job<T>, s: Pool<T>, w: nat, ok: bool, x: T)
    requires Enabled(job, s, Delete(w, ok))
    ensures Removed(Next(job, s, Delete(w, ok)), x) == Removed(s, x) + if ok then Once(s.workers[w].id, x) else 0
  {
    SentUpdate(s.workers, w, if ok then Sending(s.workers[w].id) else Idle, x);
  }

  lemma RemovedWorker<T>(job: Job<T>, s: Pool<T>, step: Step, w: nat, x: T)
    requires Enabled(job, s, step)
    requires step == Receive(w) || step == Handoff(w) || step == Exit(w)
    ensures Removed(Next(job, s, step), x) == Removed(s, x)
  {
    SentUpdate(s.workers, w, Next(job, s, step).workers[w], x);
  }

  lemma RemovedAppend<T>(job: Job<T>, s: Pool<T>, x: T)
    requires Enabled(job, s, Append)
    ensures Removed(Next(job, s, Append), x) == Removed(s, x)
  {
    CountPushPop(s.snapshotIDs, s.collector.id, x);
  }

  lemma RemovedStep<T>(job: Job<T>, s: Pool<T>, step: Step, x: T)
    requires Enabled(job, s, step)
    ensures Removed(Next(job, s, step), x) ==
      Removed(s, x) + if step.Delete? && step.ok then Once(s.workers[step.w].id, x) else 0
  {
    if step.Delete? {
      RemovedDelete(job, s, step.w, step.ok, x);
    } else if step.Receive? || step.Handoff? || step.Exit? {
      RemovedWorker(job, s, step, step.w, x);
    } else if step.Append? {
      RemovedAppend(job, s, x);
    }
  }

  lemma AnsweredCount<T>(before: seq<T>, s: Pool<T>, step: Step, x: T)
    requires step.Delete? ==> step.w < |s.workers| && s.workers[step.w].Deleting?
    ensures multiset(before + AnsweredBy(s, step, true))[x] ==
      multiset(before)[x] + if step.Delete? && step.ok then Once(s.workers[step.w].id, x) else 0
  {
    if step.Delete? && step.ok {
      CountPushPop(before, s.workers[step.w].id, x);
    } else {
      assert before + [] == before;
    }
  }

  lemma RemovedNext<T>(job: Job<T>, run: seq<Pool<T>>, steps: seq<Step>, i: nat, before: seq<T>, x: T)
    requires IsRun(job, run, steps) && i < |steps| && multiset(before)[x] == Removed(run[i], x)
    ensures multiset(before + AnsweredBy(run[i], steps[i], true))[x] == Removed(run[i + 1], x)
  {
    assert StepAt(job, run, steps, i);
    RemovedStep(job, run[i], steps[i], x);
    AnsweredCount(before, run[i], steps[i], x);
  }

  lemma RemovedInit<T>(job: Job<T>, x: T)
    ensures Removed(Init(job), x) == 0
  {
    NothingSent(Init(job).workers, x);
  }

  /** At every moment what is on its way to the report, or in it, is what deletions answered with success. */
  lemma {:induction false} RemovedAnswers<T>(job: Job<T>, run: seq<Pool<T>>, steps: seq<Step>, n: nat, x: T)
    requires IsRun(job, run, steps) && n <= |steps|
    ensures multiset(Answered(run, steps, true, n))[x] == Removed(run[n], x)
  {
    if n == 0 {
      RemovedInit(job, x);
    } else {
      RemovedAnswers(job, run, steps, n - 1, x);
      RemovedNext(job, run, steps, n - 1, Answered(run, steps, true, n - 1), x);
    }
  }

  // ----- what the caller gets -----

  /** The report splits the input into removed and failed ids. */
  ghost predicate Accounts<T>(ids: seq<T>, report: RmReport<T>, failed: seq<T>) {
    && multiset(report.snapshotIDs) + multiset(failed) == multiset(ids)
    && report.errors == Wrap64(|failed|)
  }

  /**
   A run that has returned this report: it names the ids whose deletion was answered with success, as they
   were handed over, counts the others, and between them they are the ids to delete.
   */
  ghost predicate Reported<T>(job: Job<T>, run: seq<Pool<T>>, steps: seq<Step>, report: RmReport<T>) {
    && IsRun(job, run, steps)
    && run[|steps|].main.Returned?
    && report.snapshotIDs == Handed(run, steps, |steps|)
    && multiset(report.snapshotIDs) == multiset(Answered(run, steps, true, |steps|))
    && report.errors == Wrap64(|Answered(run, steps, false, |steps|)|)
    && Accounts(job.ids, report, Answered(run, steps, false, |steps|))
  }

  /**
   Every run that cannot continue has returned, whatever was scheduled and whatever the deletions
   answered; its report is what they answered, accounts for every id, and is still what the collector holds.
   */
  lemma EveryRunAccounts<T(!new)>(job: Job<T>, run: seq<Pool<T>>, steps: seq<Step>)
    requires job.concurrency >= 1 && IsRun(job, run, steps)
    requires Stuck(job, run[|steps|])
    ensures |steps| <= 6 * |job.ids| + job.concurrency + 6
    ensures var last := run[|steps|];
            && last.report == Some(RmReport(last.errors, last.snapshotIDs))
            && Reported(job, run, steps, last.report.value)
  {
    var last := run[|steps|];
    RunInv(job, run, steps, |steps|);
    if !last.main.Returned? {
      var step := NoDeadlock(job, last);
      assert false;
    }
    ReturnedReports(job, run, steps);
  }

  lemma ReturnedReports<T(!new)>(job: Job<T>, run: seq<Pool<T>>, steps: seq<Step>)
    requires job.concurrency >= 1 && IsRun(job, run, steps) && run[|steps|].main.Returned?
    ensures run[|steps|].report.Some? && Reported(job, run, steps, run[|steps|].report.value)
  {
    var last := run[|steps|];
    RunInv(job, run, steps, |steps|);
    ReturnedAccounts(job, last);
    FailedAnswers(job, run, steps, |steps|);
    HandedInOrder(job, run, steps, |steps|);
    forall x ensures multiset(last.snapshotIDs)[x] == multiset(Answered(run, steps, true, |steps|))[x] {
      RemovedAnswers(job, run, steps, |steps|, x);
      NothingSent(last.workers, x);
    }
  }

  lemma ReturnedAccounts<T(!new)>(job: Job<T>, s: Pool<T>)
    requires job.concurrency >= 1 && Inv(job, s) && s.main.Returned?
    ensures s.report.Some? && Accounts(job.ids, s.report.value, s.failed)
    ensures Stuck(job, s)
  {
    assert s.workers[0].Exited?;
    forall x ensures multiset(s.snapshotIDs)[x] + multiset(s.failed)[x] == multiset(job.ids)[x] {
      NothingHeld(s.workers, x);
      assert Copies(s, x) == multiset(job.ids)[x];
    }
  }

  lemma Extend<T>(job: Job<T>, run: seq<Pool<T>>, steps: seq<Step>, step: Step)
    requires IsRun(job, run, steps) && Enabled(job, run[|steps|], step)
    ensures IsRun(job, run + [Next(job, run[|steps|], step)], steps + [step])
  {
    var run', steps' := run + [Next(job, run[|steps|], step)], steps + [step];
    forall i | 0 <= i < |steps'| ensures StepAt(job, run', steps', i) {
      assert i < |steps| ==> StepAt(job, run, steps, i);
    }
  }

  // ----- every outcome can happen -----

  ghost predicate Reachable<T(!new)>(job: Job<T>, s: Pool<T>) {
    exists run, steps :: IsRun(job, run, steps) && run[|steps|] == s
  }

  lemma Go<T(!new)>(job: Job<T>, s: Pool<T>, step: Step)
    requires Reachable(job, s) && Enabled(job, s, step)
    ensures Reachable(job, Next(job, s, step))
  {
    var run, steps :| IsRun(job, run, steps) && run[|steps|] == s;
    Extend(job, run, steps, step);
    assert (run + [Next(job, s, step)])[|steps + [step]|] == Next(job, s, step);
  }

  /** The ids whose deletion is to succeed, or to fail, in order. */
  function Chosen<T>(ids: seq<T>, oks: seq<bool>, ok: bool): seq<T>
    requires |ids| == |oks|
  {
    if ids == [] then []
    else
      var n := |ids| - 1;
      Chosen(ids[..n], oks[..n], ok) + if oks[n] == ok then [ids[n]] else []
  }

  /** Nothing is under way. */
  ghost predicate Quiet<T>(job: Job<T>, s: Pool<T>) {
    && s.main.Feeding? && !s.queueClosed && s.buffer == [] && s.collector.Receiving? && !s.removedClosed
    && s.workers == seq<Worker<T>>(job.concurrency, _ => Idle)
  }

  /** The pool with the next id removed, or failed. */
  function Settled<T>(s: Pool<T>, ok: bool): Pool<T>
    requires s.todo != []
  {
    var rest := s.(todo := s.todo[1..]);
    if ok then rest.(snapshotIDs := s.snapshotIDs + [s.todo[0]])
    else rest.(errors := Wrap64(s.errors + 1), failed := s.failed + [s.todo[0]])
  }

  /** The next id, taken through the whole pool by its first worker. */
  lemma OneMore<T(!new)>(job: Job<T>, s: Pool<T>, ok: bool)
    requires job.concurrency >= 1 && Reachable(job, s) && Quiet(job, s) && s.todo != []
    ensures Reachable(job, Settled(s, ok))
  {
    var id, s1 := s.todo[0], s.(todo := s.todo[1..], buffer := [s.todo[0]]);
    Go(job, s, Feed);
    var s2 := s1.(workers := s.workers[0 := Deleting(id)], buffer := []);
    Go(job, s1, Receive(0));
    Go(job, s2, Delete(0, ok));
    assert s.workers[0 := Deleting(id)][0 := Idle] == s.workers;
    if ok {
      HandOver(job, s2.(workers := s2.workers[0 := Sending(id)]), s.workers, id);
    }
  }

  lemma HandOver<T(!new)>(job: Job<T>, s: Pool<T>, workers: seq<Worker<T>>, id: T)
    requires Reachable(job, s) && s.collector.Receiving? && s.workers != [] && s.workers[0] == Sending(id)
    requires workers == s.workers[0 := Idle]
    ensures Reachable(job, s.(workers := workers, snapshotIDs := s.snapshotIDs + [id]))
  {
    Go(job, s, Handoff(0));
    Go(job, s.(workers := workers, collector := Appending(id)), Append);
  }

  /** The pool with the first n ids dealt with as chosen. */
  function Midway<T>(job: Job<T>, oks: seq<bool>, n: nat): Pool<T>
    requires n <= |job.ids| == |oks|
  {
    var removed, failed := Chosen(job.ids[..n], oks[..n], true), Chosen(job.ids[..n], oks[..n], false);
    Init(job).(todo := job.ids[n..], snapshotIDs := removed, errors := Wrap64(|failed|), failed := failed)
  }

  lemma ChosenNext<T>(ids: seq<T>, oks: seq<bool>, n: nat, ok: bool)
    requires n < |ids| == |oks|
    ensures Chosen(ids[..n + 1], oks[..n + 1], ok) ==
      if oks[n] == ok then Chosen(ids[..n], oks[..n], ok) + [ids[n]] else Chosen(ids[..n], oks[..n], ok)
  {
    assert ids[..n + 1][..n] == ids[..n] && oks[..n + 1][..n] == oks[..n];
  }

  lemma {:induction false} MidwayReachable<T(!new)>(job: Job<T>, oks: seq<bool>, n: nat)
    requires job.concurrency >= 1 && n <= |job.ids| == |oks|
    ensures Reachable(job, Midway(job, oks, n))
  {
    if n == 0 {
      assert IsRun(job, [Init(job)], []);
    } else {
      MidwayReachable(job, oks, n - 1);
      OneMore(job, Midway(job, oks, n - 1), oks[n - 1]);
      MidwayNext(job, oks, n - 1);
    }
  }

  lemma MidwayNext<T>(job: Job<T>, oks: seq<bool>, n: nat)
    requires n < |job.ids| == |oks|
    ensures Midway(job, oks, n).todo != [] && Midway(job, oks, n + 1) == Settled(Midway(job, oks, n), oks[n])
  {
    ChosenNext(job.ids, oks, n, true);
    ChosenNext(job.ids, oks, n, false);
    RestNext(job.ids, n);
    WrapAdd(|Chosen(job.ids[..n], oks[..n], false)|, 1);
  }

  lemma RestNext<T>(ids: seq<T>, n: nat)
    requires n < |ids|
    ensures ids[n..] != [] && ids[n..][0] == ids[n] && ids[n..][1..] == ids[n + 1..]
  {
  }

  /** The first n workers have exited, the others are idle. */
  function Leaving<T>(concurrency: nat, n: nat): seq<Worker<T>> {
    seq(concurrency, i => if i < n then Exited else Idle)
  }

  lemma {:induction false} AllLeave<T(!new)>(job: Job<T>, s: Pool<T>, n: nat)
    requires Reachable(job, s) && s.buffer == [] && s.queueClosed && n <= job.concurrency
    requires s.workers == Leaving<T>(job.concurrency, 0)
    ensures Reachable(job, s.(workers := Leaving(job.concurrency, n)))
  {
    if n == 0 {
    } else {
      AllLeave(job, s, n - 1);
      Go(job, s.(workers := Leaving(job.concurrency, n - 1)), Exit(n - 1));
      assert Leaving<T>(job.concurrency, n - 1)[n - 1 := Exited] == Leaving<T>(job.concurrency, n);
    }
  }

  /** With nothing left to do the pool winds up and returns its report. */
  lemma WindUp<T(!new)>(job: Job<T>, s: Pool<T>) returns (last: Pool<T>)
    requires Reachable(job, s) && Quiet(job, s) && s.todo == []
    ensures Reachable(job, last) && last.main.Returned? && last.failed == s.failed
    ensures last.report == Some(RmReport(s.errors, s.snapshotIDs))
  {
    Go(job, s, CloseQueue);
    var s1 := s.(main := WaitingWorkers, queueClosed := true);
    assert s1.workers == Leaving<T>(job.concurrency, 0);
    AllLeave(job, s1, job.concurrency);
    last := s1.(workers := Leaving(job.concurrency, job.concurrency));
    Go(job, last, WorkersJoined);
    last := Next(job, last, WorkersJoined);
    Go(job, last, CloseRemoved);
    last := Next(job, last, CloseRemoved);
    Go(job, last, CollectorExit);
    last := Next(job, last, CollectorExit);
    Go(job, last, CollectorJoined);
    last := Next(job, last, CollectorJoined);
    Go(job, last, ReadReport);
    last := Next(job, last, ReadReport);
  }

  /** For every choice of which deletions fail, some run reports exactly that. */
  lemma EveryOutcomeHappens<T(!new)>(job: Job<T>, oks: seq<bool>) returns (run: seq<Pool<T>>, steps: seq<Step>)
    requires job.concurrency >= 1 && |job.ids| == |oks|
    ensures IsRun(job, run, steps) && run[|steps|].main.Returned?
    ensures run[|steps|].failed == Chosen(job.ids, oks, false)
    ensures run[|steps|].report == Some(RmReport(Wrap64(|Chosen(job.ids, oks, false)|), Chosen(job.ids, oks, true)))
  {
    var n := |job.ids|;
    MidwayReachable(job, oks, n);
    assert job.ids[..n] == job.ids && oks[..n] == oks;
    var last := WindUp(job, Midway(job, oks, n));
    run, steps :| IsRun(job, run, steps) && run[|steps|] == last;
  }
}
