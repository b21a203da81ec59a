/**
 The run protocol of Main: dispatch, state sampler, signal watcher, event listener and the main
 goroutine around one reply stream and one event bus, as steps scheduled in any order.
 */
module RunProtocol {
  import opened Prelude
  import opened EventFold
  import L = EventLaws
  import S = Samplers

  /** The sections of a report that terminalError reads: their error counts. */
  datatype Report = Report(backup: Option<int>, restore: Option<u64>, sync: Option<u64>)

  datatype Reason = DispatchError(message: string) | ErrorCount(count: int)

  datatype Reply =
    | LogReply(message: string)
    | InventoryReply(entry: string)
    | StateReply(emission: S.Emission)
    | ReportReply(report: Report)
    | FailureReply(op: string, reason: Reason)
    | SuccessReply

  // ----- the verdict -----

  datatype Verdict = Pass | Fail(count: int, report: Report) | NilDereference

  /** terminalError; a failed restore also writes its error count into the report. */
  function TerminalError(op: string, report: Option<Report>, st: State): Verdict {
    match report
    case None => Pass
    case Some(r) =>
      if op == "backup" then (if r.backup.Some? && r.backup.value > 0 then Fail(r.backup.value, r) else Pass)
      else if op == "restore" then
        (if ErrorSum(st) == 0 then Pass
         else if r.restore.None? then NilDereference
         else Fail(ErrorSum(st), r.(restore := Some(ErrorSum(st)))))
      else if op == "sync" then (if r.sync.Some? && r.sync.value > 0 then Fail(r.sync.value, r) else Pass)
      else Pass
  }

  /** The replies that close a stream. */
  function Ending(op: string, report: Option<Report>, err: Option<string>, st: State): seq<Reply> {
    match err
    case Some(m) => [FailureReply(op, DispatchError(m))]
    case None =>
      match TerminalError(op, report, st)
      case Fail(n, _) => [FailureReply(op, ErrorCount(n))]
      case Pass => (if report.Some? then [ReportReply(report.value)] else []) + [SuccessReply]
      case NilDereference => []
  }

  // ----- the actors -----

  datatype MainPc =
    | Dispatching
    | Stopping           // about to close(stateStop)
    | JoiningTasks       // wg.Wait()
    | ClosingBus
    | Draining           // listener.Wait()
    | Judging
    | Failing(reason: Reason)
    | Reporting(report: Report)
    | Succeeding
    | Exited
    | Crashed

  datatype Sampler =
    | Selecting
    | Sampling(final: bool)               // emit called, state not read yet
    | Emitting(emission: S.Emission, final: bool) // state read, reply not sent yet
    | SamplerDone

  datatype Watcher = Watching | Logging | WatcherDone

  datatype Listener = Receiving | Holding(event: Event) | ListenerDone

  /**
   One run. `ticks` is what the sampler read so far, its series being what Samplers makes of it; `trace`
   (every event emitted) and `cuts` (how many were folded at each state read) are history.
   */
  datatype Run = Run(
    main: MainPc,
    report: Option<Report>,
    err: Option<string>,
    stopped: bool,
    sampler: Sampler,
    ticks: seq<S.Tick>,
    watcher: Watcher,
    queue: seq<Event>,
    busClosed: bool,
    listener: Listener,
    state: State,
    out: seq<Reply>,
    trace: seq<Event>,
    cuts: seq<nat>)

  const INIT := Run(Dispatching, None, None, false, Selecting, [], Watching, [], false, Receiving, ZERO_STATE, [], [],
                    [])

  datatype Action =
    | Emit(event: Event)
    | Say(reply: Reply)
    | DispatchReturn(report: Option<Report>, err: Option<string>)
    | Tick
    | StopSampler
    | ReadState(cpu: Option<real>, rss: Option<u64>, at: (int, int, int))
    | SendState
    | Signal
    | LogSignal
    | StopWatcher
    | Receive
    | FoldEvent
    | ListenerExit
    | CloseStop
    | Joined
    | CloseBus
    | Drained
    | Judge
    | SendFailure
    | SendReport
    | SendSuccess

  // Whose step an action is.

  predicate OfDispatch(a: Action) {
    a.Emit? || a.Say? || a.DispatchReturn?
  }

  predicate OfSampler(a: Action) {
    a.Tick? || a.StopSampler? || a.ReadState? || a.SendState?
  }

  predicate OfWatcher(a: Action) {
    a.Signal? || a.LogSignal? || a.StopWatcher?
  }

  predicate OfListener(a: Action) {
    a.Receive? || a.FoldEvent? || a.ListenerExit?
  }

  predicate OfMain(a: Action) {
    || a.CloseStop? || a.Joined? || a.CloseBus? || a.Drained?
    || a.Judge? || a.SendFailure? || a.SendReport? || a.SendSuccess?
  }

  predicate Enabled(s: Run, a: Action) {
    match a
    case Emit(_) => s.main.Dispatching?
    case Say(r) => s.main.Dispatching? && (r.LogReply? || r.InventoryReply?)
    case DispatchReturn(_, _) => s.main.Dispatching?
    case Tick => s.sampler.Selecting?
    case StopSampler => s.sampler.Selecting? && s.stopped
    case ReadState(_, _, _) => s.sampler.Sampling?
    case SendState => s.sampler.Emitting?
    case Signal => s.watcher.Watching?
    case LogSignal => s.watcher.Logging?
    case StopWatcher => s.watcher.Watching? && s.stopped
    case Receive => s.listener.Receiving? && s.queue != []
    case FoldEvent => s.listener.Holding?
    case ListenerExit => s.listener.Receiving? && s.queue == [] && s.busClosed
    case CloseStop => s.main.Stopping?
    case Joined => s.main.JoiningTasks? && s.sampler.SamplerDone? && s.watcher.WatcherDone?
    case CloseBus => s.main.ClosingBus?
    case Drained => s.main.Draining? && s.listener.ListenerDone?
    case Judge => s.main.Judging?
    case SendFailure => s.main.Failing?
    case SendReport => s.main.Reporting?
    case SendSuccess => s.main.Succeeding?
  }

  /** How many events have been folded: all but those queued or in the listener's hands. */
  function Folded(s: Run): int {
    |s.trace| - |s.queue| - if s.listener.Holding? then 1 else 0
  }

  function AfterJudge(op: string, s: Run): MainPc {
    if s.err.Some? then Failing(DispatchError(s.err.value))
    else
      match TerminalError(op, s.report, s.state)
      case Fail(n, _) => Failing(ErrorCount(n))
      case NilDereference => Crashed
      case Pass => if s.report.Some? then Reporting(s.report.value) else Succeeding
  }

  function AfterRead(op: string, s: Run, t: S.Tick): Run
    requires s.sampler.Sampling? && Folded(s) >= 0
  {
    s.(sampler := Emitting(S.EmissionOf(op, s.ticks + [t], s.state), s.sampler.final),
       ticks := s.ticks + [t],
       cuts := s.cuts + [Folded(s)])
  }

  function DispatchNext(s: Run, a: Action): Run
    requires OfDispatch(a) && Enabled(s, a)
  {
    match a
    case Emit(e) => s.(queue := s.queue + [e], trace := s.trace + [e])
    case Say(r) => s.(out := s.out + [r])
    case DispatchReturn(report, err) => s.(main := Stopping, report := report, err := err)
  }

  function SamplerNext(op: string, s: Run, a: Action): Run
    requires OfSampler(a) && Enabled(s, a) && Folded(s) >= 0
  {
    match a
    case Tick => s.(sampler := Sampling(false))
    case StopSampler => s.(sampler := Sampling(true))
    case ReadState(cpu, rss, at) => AfterRead(op, s, S.Tick(cpu, rss, s.state.io, at))
    case SendState =>
      s.(sampler := if s.sampler.final then SamplerDone else Selecting, out := s.out + [StateReply(s.sampler.emission)])
  }

  function WatcherNext(s: Run, a: Action): Run
    requires OfWatcher(a) && Enabled(s, a)
  {
    match a
    case Signal => s.(watcher := Logging)
    case LogSignal => s.(watcher := WatcherDone, out := s.out + [LogReply("got signal")])
    case StopWatcher => s.(watcher := WatcherDone)
  }

  function ListenerNext(s: Run, a: Action): Run
    requires OfListener(a) && Enabled(s, a)
  {
    match a
    case Receive => s.(listener := Holding(s.queue[0]), queue := s.queue[1..])
    case FoldEvent => s.(listener := Receiving, state := Step(s.state, s.listener.event))
    case ListenerExit => s.(listener := ListenerDone)
  }

  function MainNext(op: string, s: Run, a: Action): Run
    requires OfMain(a) && Enabled(s, a)
  {
    match a
    case CloseStop => s.(main := JoiningTasks, stopped := true)
    case Joined => s.(main := ClosingBus)
    case CloseBus => s.(main := Draining, busClosed := true)
    case Drained => s.(main := Judging)
    case Judge => s.(main := AfterJudge(op, s))
    case SendFailure => s.(main := Exited, out := s.out + [FailureReply(op, s.main.reason)])
    case SendReport => s.(main := Succeeding, out := s.out + [ReportReply(s.main.report)])
    case SendSuccess => s.(main := Exited, out := s.out + [SuccessReply])
  }

  function Next(op: string, s: Run, a: Action): Run
    requires Enabled(s, a) && Folded(s) >= 0
  {
    if OfDispatch(a) then DispatchNext(s, a)
    else if OfSampler(a) then SamplerNext(op, s, a)
    else if OfWatcher(a) then WatcherNext(s, a)
    else if OfListener(a) then ListenerNext(s, a)
    else MainNext(op, s, a)
  }

  // ----- the inductive invariant, in four parts -----

  predicate Judged(pc: MainPc) {
    pc.Failing? || pc.Reporting? || pc.Succeeding? || pc.Exited? || pc.Crashed?
  }

  /** The sampler has been told to stop: its last emission is on its way or made. */
  predicate IsLast(t: Sampler) {
    t.SamplerDone? || ((t.Sampling? || t.Emitting?) && t.final)
  }

  /** Who has stopped when: the order of stop, join, close and drain. */
  ghost predicate Ordering(s: Run) {
    && (s.stopped <==> !s.main.Dispatching? && !s.main.Stopping?)
    && (IsLast(s.sampler) ==> s.stopped)
    && (s.main.ClosingBus? || s.main.Draining? || s.main.Judging? || Judged(s.main) ==>
          s.sampler.SamplerDone? && s.watcher.WatcherDone?)
    && (s.busClosed <==> s.main.Draining? || s.main.Judging? || Judged(s.main))
    && (s.listener.ListenerDone? ==> s.busClosed && s.queue == [])
    && (s.main.Judging? || Judged(s.main) ==> s.listener.ListenerDone?)
  }

  /** The live state is the fold of the events taken off the bus; the rest are still on their way. */
  ghost predicate Folding(s: Run) {
    && 0 <= Folded(s)
    && s.trace == s.trace[..Folded(s)] + (if s.listener.Holding? then [s.listener.event] else []) + s.queue
    && s.state == Fold(s.trace[..Folded(s)])
  }

  function EmissionsOf(out: seq<Reply>): seq<S.Emission> {
    if out == [] then []
    else
      var r := out[|out| - 1];
      EmissionsOf(out[..|out| - 1]) + if r.StateReply? then [r.emission] else []
  }

  /** The emissions made so far, sent or about to be. */
  function Emissions(s: Run): seq<S.Emission> {
    EmissionsOf(s.out) + if s.sampler.Emitting? then [s.sampler.emission] else []
  }

  /** How an operation's emissions are made of all the readings so far and the state of the moment. */
  type Emitter = (seq<S.Tick>, State) -> S.Emission

  function EmitterOf(op: string): Emitter {
    (ticks, st) => S.EmissionOf(op, ticks, st)
  }

  /** The k-th emission: the state st, sampled on top of what was read before. */
  ghost predicate Shows(emit: Emitter, e: S.Emission, ticks: seq<S.Tick>, k: nat, st: State) {
    k < |ticks| && ticks[k].io == st.io && e == emit(ticks[..k + 1], st)
  }

  predicate Growing(cuts: seq<nat>) {
    forall i, j :: 0 <= i <= j < |cuts| ==> cuts[i] <= cuts[j]
  }

  lemma GrowingSnoc(cuts: seq<nat>, next: nat)
    requires Growing(cuts) && forall i :: 0 <= i < |cuts| ==> cuts[i] <= next
    ensures Growing(cuts + [next])
  {
  }

  /** Each emission shows the state after some number of events, at(that number), and those numbers only grow. */
  ghost predicate Tracked(emit: Emitter, emissions: seq<S.Emission>, ticks: seq<S.Tick>, cuts: seq<nat>,
                          at: nat -> State, folded: int) {
    && |cuts| == |emissions| == |ticks|
    && Growing(cuts)
    && forall i :: 0 <= i < |cuts| ==> cuts[i] <= folded && Shows(emit, emissions[i], ticks, i, at(cuts[i]))
  }

  /** The folds of the prefixes of a trace. */
  function Folds(trace: seq<Event>): nat -> State {
    (k: nat) => L.StateAt(trace, k)
  }

  /** That holds of every emission so far, and the final one has been made once the sampler is done. */
  ghost predicate Sampled(op: string, s: Run) {
    && Tracked(EmitterOf(op), Emissions(s), s.ticks, s.cuts, Folds(s.trace), Folded(s))
    && (s.sampler.SamplerDone? ==> s.cuts != [])
  }

  predicate IsStreaming(r: Reply) {
    r.LogReply? || r.InventoryReply? || r.StateReply?
  }

  predicate AllStreaming(out: seq<Reply>) {
    forall i :: 0 <= i < |out| ==> IsStreaming(out[i])
  }

  /** The stream is a streaming part followed by the first n replies of the ending. */
  ghost predicate EndsWith(out: seq<Reply>, ending: seq<Reply>) {
    && |ending| <= |out|
    && AllStreaming(out[..|out| - |ending|])
    && out[|out| - |ending|..] == ending
  }

  ghost predicate Output(op: string, s: Run) {
    var ending := Ending(op, s.report, s.err, s.state);
    match s.main
    case Failing(reason) => AllStreaming(s.out) && ending == [FailureReply(op, reason)]
    case Reporting(r) => AllStreaming(s.out) && ending == [ReportReply(r), SuccessReply]
    case Succeeding => ending != [] && ending[|ending| - 1] == SuccessReply && EndsWith(s.out, ending[..|ending| - 1])
    case Exited => ending != [] && EndsWith(s.out, ending)
    case Crashed => AllStreaming(s.out) && s.err.None? && TerminalError(op, s.report, s.state).NilDereference?
    case _ => AllStreaming(s.out)
  }

  ghost predicate Inv(op: string, s: Run) {
    Ordering(s) && Folding(s) && Sampled(op, s) && Output(op, s)
  }

  lemma OrderingStep(op: string, s: Run, a: Action)
    requires Ordering(s) && Enabled(s, a) && Folded(s) >= 0
    ensures Ordering(Next(op, s, a))
  {
    if OfSampler(a) {
      OrderingSampler(op, s, a);
    } else if OfListener(a) {
      OrderingListener(s, a);
    } else if OfMain(a) {
      OrderingMain(op, s, a);
    }
  }

  lemma OrderingSampler(op: string, s: Run, a: Action)
    requires Ordering(s) && OfSampler(a) && Enabled(s, a) && Folded(s) >= 0
    ensures Ordering(SamplerNext(op, s, a))
  {
  }

  lemma OrderingListener(s: Run, a: Action)
    requires Ordering(s) && OfListener(a) && Enabled(s, a)
    ensures Ordering(ListenerNext(s, a))
  {
  }

  lemma OrderingMain(op: string, s: Run, a: Action)
    requires Ordering(s) && OfMain(a) && Enabled(s, a)
    ensures Ordering(MainNext(op, s, a))
  {
  }

  lemma FoldingFold(s: Run, s': Run)
    requires Folding(s) && s.listener.Holding?
    requires s' == s.(listener := Receiving, state := Step(s.state, s.listener.event))
    ensures Folding(s')
  {
    assert s.trace[..Folded(s) + 1] == s.trace[..Folded(s)] + [s.listener.event];
    FoldSnoc(s.trace[..Folded(s)], s.listener.event);
  }

  lemma FoldingEmit(s: Run, s': Run, e: Event)
    requires Folding(s) && s' == s.(queue := s.queue + [e], trace := s.trace + [e])
    ensures Folding(s')
  {
    assert s'.trace[..Folded(s)] == s.trace[..Folded(s)];
  }

  lemma FoldingReceive(s: Run, s': Run)
    requires Folding(s) && s.listener.Receiving? && s.queue != []
    requires s' == s.(listener := Holding(s.queue[0]), queue := s.queue[1..])
    ensures Folding(s')
  {
    assert s.queue == [s.queue[0]] + s.queue[1..];
    assert s.trace[..Folded(s)] + [] + s.queue == s.trace[..Folded(s)] + [s.queue[0]] + s.queue[1..];
  }

  /** Nothing has been emitted, taken off the bus or folded between the two. */
  ghost predicate SameBus(s: Run, s': Run) {
    s'.trace == s.trace && s'.queue == s.queue && s'.listener == s.listener && s'.state == s.state
  }

  /** The history of readings is the same. */
  ghost predicate SameReadings(s: Run, s': Run) {
    s'.cuts == s.cuts && s'.ticks == s.ticks
  }

  lemma SamplerKeeps(op: string, s: Run, a: Action)
    requires OfSampler(a) && Enabled(s, a) && Folded(s) >= 0
    ensures SameBus(s, SamplerNext(op, s, a))
    ensures if a.ReadState? then ReadingAdded(s, SamplerNext(op, s, a), a) else SameReadings(s, SamplerNext(op, s, a))
  {
  }

  lemma WatcherKeeps(s: Run, a: Action)
    requires OfWatcher(a) && Enabled(s, a)
    ensures SameBus(s, WatcherNext(s, a)) && SameReadings(s, WatcherNext(s, a))
  {
  }

  lemma MainKeeps(op: string, s: Run, a: Action)
    requires OfMain(a) && Enabled(s, a)
    ensures SameBus(s, MainNext(op, s, a)) && SameReadings(s, MainNext(op, s, a))
  {
  }

  lemma FoldingListener(s: Run, a: Action)
    requires Folding(s) && OfListener(a) && Enabled(s, a)
    ensures Folding(ListenerNext(s, a))
  {
    if a.FoldEvent? {
      FoldingFold(s, ListenerNext(s, a));
    } else if a.Receive? {
      FoldingReceive(s, ListenerNext(s, a));
    }
  }

  lemma FoldingDispatch(s: Run, a: Action)
    requires Folding(s) && OfDispatch(a) && Enabled(s, a)
    ensures Folding(DispatchNext(s, a))
  {
    if a.Emit? {
      FoldingEmit(s, DispatchNext(s, a), a.event);
    }
  }

  lemma FoldingStep(op: string, s: Run, a: Action)
    requires Folding(s) && Enabled(s, a)
    ensures Folding(Next(op, s, a))
  {
    if OfDispatch(a) {
      FoldingDispatch(s, a);
    } else if OfSampler(a) {
      SamplerKeeps(op, s, a);
    } else if OfWatcher(a) {
      WatcherKeeps(s, a);
    } else if OfListener(a) {
      FoldingListener(s, a);
    } else {
      MainKeeps(op, s, a);
    }
  }

  lemma FoldedStep(op: string, s: Run, a: Action)
    requires Folding(s) && Enabled(s, a)
    ensures Folded(Next(op, s, a)) <= |Next(op, s, a).trace|
    ensures var s' := Next(op, s, a);
            a.ReadState? ==> Folded(s') == Folded(s) && s'.trace == s.trace && s'.sampler.Emitting?
    ensures a.SendState? ==> Emissions(s) != []
    ensures Next(op, s, a).sampler.SamplerDone? ==> s.sampler.SamplerDone? || a.SendState?
  {
  }

  lemma EmissionsOfSnoc(out: seq<Reply>, r: Reply)
    ensures EmissionsOf(out + [r]) == EmissionsOf(out) + if r.StateReply? then [r.emission] else []
  {
    assert (out + [r])[..|out|] == out;
  }

  ghost predicate ReadingAdded(s: Run, s': Run, a: Action)
    requires a.ReadState?
  {
    s'.cuts == s.cuts + [Folded(s)] && s'.ticks == s.ticks + [TickOf(s, a)]
  }

  /** The history moves on by appending only. */
  lemma HistoryStep(op: string, s: Run, a: Action)
    requires Enabled(s, a) && Folded(s) >= 0
    ensures if a.ReadState? then ReadingAdded(s, Next(op, s, a), a) else SameReadings(s, Next(op, s, a))
    ensures Folded(s) <= Folded(Next(op, s, a)) && s.trace <= Next(op, s, a).trace
  {
    if OfSampler(a) {
      SamplerKeeps(op, s, a);
    } else if OfWatcher(a) {
      WatcherKeeps(s, a);
    } else if OfListener(a) {
      HistoryListener(s, a);
    } else if OfMain(a) {
      MainKeeps(op, s, a);
    }
  }

  lemma HistoryListener(s: Run, a: Action)
    requires OfListener(a) && Enabled(s, a)
    ensures var s' := ListenerNext(s, a);
            SameReadings(s, s') && Folded(s) <= Folded(s') && s'.trace == s.trace
  {
  }

  lemma OtherReplyStep(s: Run, s': Run, r: Reply)
    requires s'.out == s.out + [r] && !r.StateReply?
    requires s'.sampler == s.sampler
    ensures Emissions(s') == Emissions(s)
  {
    EmissionsOfSnoc(s.out, r);
    assert EmissionsOf(s.out) + [] == EmissionsOf(s.out);
  }

  function TickOf(s: Run, a: Action): S.Tick
    requires a.ReadState?
  {
    S.Tick(a.cpu, a.rss, s.state.io, a.at)
  }

  ghost predicate EmissionAdded(op: string, s: Run, s': Run, a: Action)
    requires a.ReadState?
  {
    Emissions(s') == Emissions(s) + [S.EmissionOf(op, s.ticks + [TickOf(s, a)], s.state)]
  }

  /** No step changes an emission already made; a reading adds one. */
  lemma EmissionsStep(op: string, s: Run, a: Action)
    requires Enabled(s, a) && Folded(s) >= 0
    ensures if a.ReadState? then EmissionAdded(op, s, Next(op, s, a), a) else Emissions(Next(op, s, a)) == Emissions(s)
  {
    if OfDispatch(a) {
      if a.Say? {
        OtherReplyStep(s, DispatchNext(s, a), a.reply);
      }
    } else if OfSampler(a) {
      EmissionsSampler(op, s, a);
    } else if OfWatcher(a) {
      EmissionsWatcher(s, a);
    } else if OfMain(a) {
      EmissionsMain(op, s, a);
    }
  }

  lemma EmissionsSampler(op: string, s: Run, a: Action)
    requires OfSampler(a) && Enabled(s, a) && Folded(s) >= 0
    ensures if a.ReadState? then EmissionAdded(op, s, SamplerNext(op, s, a), a)
            else Emissions(SamplerNext(op, s, a)) == Emissions(s)
  {
    assert EmissionsOf(s.out) + [] == EmissionsOf(s.out);
    if a.SendState? {
      EmissionsOfSnoc(s.out, StateReply(s.sampler.emission));
    }
  }

  lemma EmissionsWatcher(s: Run, a: Action)
    requires OfWatcher(a) && Enabled(s, a)
    ensures Emissions(WatcherNext(s, a)) == Emissions(s)
  {
    if a.LogSignal? {
      OtherReplyStep(s, WatcherNext(s, a), LogReply("got signal"));
    }
  }

  lemma EmissionsMain(op: string, s: Run, a: Action)
    requires OfMain(a) && Enabled(s, a)
    ensures Emissions(MainNext(op, s, a)) == Emissions(s)
  {
    if a.SendFailure? {
      OtherReplyStep(s, MainNext(op, s, a), FailureReply(op, s.main.reason));
    } else if a.SendReport? {
      OtherReplyStep(s, MainNext(op, s, a), ReportReply(s.main.report));
    } else if a.SendSuccess? {
      OtherReplyStep(s, MainNext(op, s, a), SuccessReply);
    }
  }

  /** What an emission shows stays right as more is read. */
  lemma ShowsOn(emit: Emitter, e: S.Emission, ticks: seq<S.Tick>, ticks': seq<S.Tick>, k: nat, st: State)
    requires Shows(emit, e, ticks, k, st) && ticks <= ticks'
    ensures Shows(emit, e, ticks', k, st)
  {
    assert ticks'[..k + 1] == ticks[..k + 1];
  }

  /** A new reading shows the state of the moment. */
  lemma ShowsNow(emit: Emitter, ticks: seq<S.Tick>, t: S.Tick, st: State)
    requires t.io == st.io
    ensures Shows(emit, emit(ticks + [t], st), ticks + [t], |ticks|, st)
  {
    assert (ticks + [t])[..|ticks| + 1] == ticks + [t];
  }

  lemma TrackedRead(emit: Emitter, emissions: seq<S.Emission>, ticks: seq<S.Tick>, cuts: seq<nat>, at: nat -> State,
                    folded: nat, e: S.Emission, t: S.Tick)
    requires Tracked(emit, emissions, ticks, cuts, at, folded)
    requires Shows(emit, e, ticks + [t], |ticks|, at(folded))
    ensures Tracked(emit, emissions + [e], ticks + [t], cuts + [folded], at, folded)
  {
    GrowingSnoc(cuts, folded);
    forall i | 0 <= i < |cuts|
      ensures Shows(emit, emissions[i], ticks + [t], i, at(cuts[i]))
    {
      ShowsOn(emit, emissions[i], ticks, ticks + [t], i, at(cuts[i]));
    }
  }

  lemma TrackedOn(emit: Emitter, emissions: seq<S.Emission>, ticks: seq<S.Tick>, cuts: seq<nat>, at: nat -> State,
                  folded: int, at': nat -> State, folded': int)
    requires Tracked(emit, emissions, ticks, cuts, at, folded)
    requires folded <= folded' && forall k: nat :: k <= folded ==> at'(k) == at(k)
    ensures Tracked(emit, emissions, ticks, cuts, at', folded')
  {
  }

  /** A longer trace has the same prefixes. */
  lemma FoldsOn(trace: seq<Event>, trace': seq<Event>, k: nat)
    requires trace <= trace' && k <= |trace|
    ensures Folds(trace')(k) == Folds(trace)(k)
  {
    assert trace'[..k] == trace[..k];
  }

  lemma SampledRead(op: string, s: Run, s': Run, a: Action)
    requires Folding(s) && Sampled(op, s) && a.ReadState? && !s'.sampler.SamplerDone?
    requires EmissionAdded(op, s, s', a) && ReadingAdded(s, s', a) && s'.trace == s.trace && Folded(s') == Folded(s)
    ensures Sampled(op, s')
  {
    var t := TickOf(s, a);
    assert Folds(s.trace)(Folded(s)) == s.state;
    ShowsNow(EmitterOf(op), s.ticks, t, s.state);
    TrackedRead(EmitterOf(op), Emissions(s), s.ticks, s.cuts, Folds(s.trace), Folded(s),
                S.EmissionOf(op, s.ticks + [t], s.state), t);
  }

  lemma SampledOn(op: string, s: Run, s': Run)
    requires Sampled(op, s) && SameReadings(s, s') && Emissions(s') == Emissions(s)
    requires s.trace <= s'.trace && 0 <= Folded(s) <= Folded(s') && Folded(s) <= |s.trace|
    requires s'.sampler.SamplerDone? ==> s.cuts != []
    ensures Sampled(op, s')
  {
    forall k: nat | k <= Folded(s) ensures Folds(s'.trace)(k) == Folds(s.trace)(k) {
      FoldsOn(s.trace, s'.trace, k);
    }
    TrackedOn(EmitterOf(op), Emissions(s), s.ticks, s.cuts, Folds(s.trace), Folded(s), Folds(s'.trace), Folded(s'));
  }

  lemma SampledStep(op: string, s: Run, a: Action)
    requires Folding(s) && Sampled(op, s) && Enabled(s, a)
    ensures Sampled(op, Next(op, s, a))
  {
    EmissionsStep(op, s, a);
    HistoryStep(op, s, a);
    FoldedStep(op, s, a);
    if a.ReadState? {
      SampledRead(op, s, Next(op, s, a), a);
    } else {
      SampledOn(op, s, Next(op, s, a));
    }
  }

  lemma EndsWithSnoc(out: seq<Reply>, ending: seq<Reply>, r: Reply)
    requires EndsWith(out, ending)
    ensures EndsWith(out + [r], ending + [r])
  {
    var k := |out| - |ending|;
    assert (out + [r])[..k] == out[..k];
    assert (out + [r])[k..] == out[k..] + [r];
  }

  lemma EndsWithNothing(out: seq<Reply>)
    ensures AllStreaming(out) <==> EndsWith(out, [])
  {
    assert out[..|out|] == out;
  }

  /** Until the verdict, everyone else only ever adds streaming replies; after it, nobody else acts. */
  lemma OutputOthers(op: string, s: Run, a: Action)
    requires Ordering(s) && Output(op, s) && Enabled(s, a) && Folded(s) >= 0
    requires !a.Judge? && !a.SendFailure? && !a.SendReport? && !a.SendSuccess?
    ensures Output(op, Next(op, s, a))
  {
    if !Judged(s.main) {
      assert !Judged(Next(op, s, a).main);
      assert AllStreaming(s.out);
      assert AllStreaming(Next(op, s, a).out);
    }
  }

  lemma OutputJudge(op: string, s: Run)
    requires Output(op, s) && s.main.Judging? && Folded(s) >= 0
    ensures Output(op, Next(op, s, Judge))
  {
    EndsWithNothing(s.out);
    var ending := Ending(op, s.report, s.err, s.state);
    if AfterJudge(op, s).Succeeding? {
      assert ending == [SuccessReply] && ending[..0] == [];
    }
  }

  lemma CompleteEnding(out: seq<Reply>, ending: seq<Reply>)
    requires ending != [] && EndsWith(out, ending[..|ending| - 1])
    ensures EndsWith(out + [ending[|ending| - 1]], ending)
  {
    EndsWithSnoc(out, ending[..|ending| - 1], ending[|ending| - 1]);
    assert ending[..|ending| - 1] + [ending[|ending| - 1]] == ending;
  }

  lemma BeginEnding(out: seq<Reply>, ending: seq<Reply>)
    requires ending != [] && AllStreaming(out)
    ensures EndsWith(out + [ending[0]], ending[..1])
  {
    EndsWithNothing(out);
    EndsWithSnoc(out, [], ending[0]);
    assert ending[..1] == [] + [ending[0]];
  }

  lemma OutputSuccess(op: string, s: Run)
    requires Output(op, s) && s.main.Succeeding? && Folded(s) >= 0
    ensures Output(op, Next(op, s, SendSuccess))
  {
    var ending := Ending(op, s.report, s.err, s.state);
    CompleteEnding(s.out, ending);
    var s' := Next(op, s, SendSuccess);
    assert s'.main == Exited && s'.out == s.out + [ending[|ending| - 1]];
    assert Ending(op, s'.report, s'.err, s'.state) == ending;
  }

  lemma OutputFailure(op: string, s: Run)
    requires Output(op, s) && s.main.Failing? && Folded(s) >= 0
    ensures Output(op, Next(op, s, SendFailure))
  {
    var ending := Ending(op, s.report, s.err, s.state);
    BeginEnding(s.out, ending);
    assert ending[..1] == ending;
  }

  lemma ReportOpens(out: seq<Reply>, ending: seq<Reply>, r: Report)
    requires AllStreaming(out) && ending == [ReportReply(r), SuccessReply]
    ensures ending != [] && ending[|ending| - 1] == SuccessReply
    ensures EndsWith(out + [ReportReply(r)], ending[..|ending| - 1])
  {
    BeginEnding(out, ending);
  }

  lemma OutputReport(op: string, s: Run)
    requires Output(op, s) && s.main.Reporting? && Folded(s) >= 0
    ensures Output(op, Next(op, s, SendReport))
  {
    ReportOpens(s.out, Ending(op, s.report, s.err, s.state), s.main.report);
  }

  lemma OutputStep(op: string, s: Run, a: Action)
    requires Ordering(s) && Output(op, s) && Enabled(s, a) && Folded(s) >= 0
    ensures Output(op, Next(op, s, a))
  {
    if a.Judge? {
      OutputJudge(op, s);
    } else if a.SendFailure? {
      OutputFailure(op, s);
    } else if a.SendReport? {
      OutputReport(op, s);
    } else if a.SendSuccess? {
      OutputSuccess(op, s);
    } else {
      OutputOthers(op, s, a);
    }
  }

  lemma InvStep(op: string, s: Run, a: Action)
    requires Inv(op, s) && Enabled(s, a)
    ensures Inv(op, Next(op, s, a))
  {
    OrderingStep(op, s, a);
    FoldingStep(op, s, a);
    SampledStep(op, s, a);
    OutputStep(op, s, a);
  }

  // ----- runs -----

  /** Action i leads from state i to the next. */
  ghost predicate StepAt(op: string, states: seq<Run>, actions: seq<Action>, i: nat) {
    && i < |actions| && i + 1 < |states|
    && Folded(states[i]) >= 0 && Enabled(states[i], actions[i]) && states[i + 1] == Next(op, states[i], actions[i])
  }

  /** A run: the states gone through and the actions between them. */
  ghost predicate IsRun(op: string, states: seq<Run>, actions: seq<Action>) {
    && |states| == |actions| + 1
    && states[0] == INIT
    && forall i :: 0 <= i < |actions| ==> StepAt(op, states, actions, i)
  }

  lemma {:induction false} RunInv(op: string, states: seq<Run>, actions: seq<Action>, i: nat)
    requires IsRun(op, states, actions) && i < |states|
    ensures Inv(op, states[i])
  {
    if i == 0 {
      assert Emissions(INIT) == [];
    } else {
      RunInv(op, states, actions, i - 1);
      assert StepAt(op, states, actions, i - 1);
      InvStep(op, states[i - 1], actions[i - 1]);
    }
  }

  /**
   The shape of every finished stream: streaming replies, then one failure, or one success with the
   report, if there is one, right before it. The verdict is taken on the fold of every event emitted,
   and nothing more can be sent.
   */
  lemma StreamShape(op: string, states: seq<Run>, actions: seq<Action>)
    requires IsRun(op, states, actions) && states[|actions|].main.Exited?
    ensures var s := states[|actions|];
            && s.state == Fold(s.trace)
            && Ending(op, s.report, s.err, Fold(s.trace)) != []
            && EndsWith(s.out, Ending(op, s.report, s.err, Fold(s.trace)))
            && (forall a :: !Enabled(s, a))
  {
    var s := states[|actions|];
    RunInv(op, states, actions, |actions|);
    assert s.trace[..|s.trace|] == s.trace;
    forall a ensures !Enabled(s, a) {
    }
  }

  /** An ending is a failure alone, success alone, or report then success: never a report with a failure. */
  lemma EndingShapes(op: string, report: Option<Report>, err: Option<string>, st: State)
    ensures var e := Ending(op, report, err, st);
            || e == []
            || (exists reason :: e == [FailureReply(op, reason)])
            || (report.None? && e == [SuccessReply])
            || (report.Some? && e == [ReportReply(report.value), SuccessReply])
    ensures Ending(op, report, err, st) == [] <==> err.None? && TerminalError(op, report, st).NilDereference?
  {
    if err.Some? {
      assert Ending(op, report, err, st) == [FailureReply(op, DispatchError(err.value))];
    } else if TerminalError(op, report, st).Fail? {
      assert Ending(op, report, err, st) == [FailureReply(op, ErrorCount(TerminalError(op, report, st).count))];
    }
  }

  /**
   A run that is over ended without a verdict exactly when a restore returned no error and a report
   without a restore section, while its entry errors were not 0 modulo 2^64. The restore operation
   always fills that section, so this is an input that dispatch never produces.
   */
  lemma CrashIff(op: string, states: seq<Run>, actions: seq<Action>)
    requires IsRun(op, states, actions) && (states[|actions|].main.Exited? || states[|actions|].main.Crashed?)
    ensures var s := states[|actions|];
            s.main.Crashed? <==>
              && op == "restore" && s.err.None?
              && s.report.Some? && s.report.value.restore.None?
              && Wrap64(EntryErrors(s.trace)) != 0
  {
    var s := states[|actions|];
    RunInv(op, states, actions, |actions|);
    assert s.trace[..|s.trace|] == s.trace;
    ErrorSumCounts(s.trace);
    EndingShapes(op, s.report, s.err, s.state);
  }

  /**
   A restore that returned a report and no error is failed exactly when the number of entry errors
   emitted is not a multiple of 2^64, and the failure carries that number.
   */
  lemma RestoreVerdict(states: seq<Run>, actions: seq<Action>)
    requires IsRun("restore", states, actions) && states[|actions|].main.Exited?
    requires states[|actions|].err.None? && states[|actions|].report.Some?
    ensures var s := states[|actions|];
            var errors := Wrap64(EntryErrors(s.trace));
            s.out != [] &&
            var last := s.out[|s.out| - 1];
            && last == (if errors == 0 then SuccessReply else FailureReply("restore", ErrorCount(errors)))
            && (|s.trace| < TWO_64 ==>
                  (last.FailureReply? <==> exists i :: 0 <= i < |s.trace| && IsEntryError(s.trace[i])))
  {
    var s := states[|actions|];
    LastReply("restore", states, actions);
    if |s.trace| < TWO_64 {
      SomeErrors(s.trace);
    }
  }

  lemma SomeErrors(trace: seq<Event>)
    requires |trace| < TWO_64
    ensures Wrap64(EntryErrors(trace)) != 0 <==> exists i :: 0 <= i < |trace| && IsEntryError(trace[i])
  {
    EntryErrorsZero(trace);
    WrapSmall(EntryErrors(trace));
  }

  /** What a report says about failures that no error was returned for. */
  predicate ReportsErrors(op: string, r: Report) {
    || (op == "backup" && r.backup.Some? && r.backup.value > 0)
    || (op == "sync" && r.sync.Some? && r.sync.value > 0)
  }

  /** The last replies of a stream are those of its ending, and the others are streaming. */
  lemma EndsWithParts(out: seq<Reply>, ending: seq<Reply>, i: nat)
    requires EndsWith(out, ending) && i < |out|
    ensures var k := |out| - |ending|;
            if i < k then IsStreaming(out[i]) else out[i] == ending[i - k]
  {
    var k := |out| - |ending|;
    assert i < k ==> out[..k][i] == out[i];
    assert i >= k ==> out[k..][i - k] == out[i];
  }

  /** When an ending is a success, for an operation other than restore. */
  lemma EndingVerdict(op: string, report: Option<Report>, err: Option<string>, st: State)
    requires op != "restore"
    ensures var e := Ending(op, report, err, st);
            && e != []
            && (e[|e| - 1] == SuccessReply <==> err.None? && (report.Some? ==> !ReportsErrors(op, report.value)))
            && (e[|e| - 1] == SuccessReply || e[|e| - 1].FailureReply?)
  {
  }

  /**
   A run of any other operation succeeds exactly when dispatch returned no error and a backup or sync
   report counts none.
   */
  lemma ReportVerdict(op: string, states: seq<Run>, actions: seq<Action>)
    requires IsRun(op, states, actions) && states[|actions|].main.Exited? && op != "restore"
    ensures var s := states[|actions|];
            && s.out != []
            && (s.out[|s.out| - 1] == SuccessReply
                <==> s.err.None? && (s.report.Some? ==> !ReportsErrors(op, s.report.value)))
            && (s.out[|s.out| - 1] == SuccessReply || s.out[|s.out| - 1].FailureReply?)
  {
    var s := states[|actions|];
    StreamShape(op, states, actions);
    EndingVerdict(op, s.report, s.err, Fold(s.trace));
    EndsWithParts(s.out, Ending(op, s.report, s.err, Fold(s.trace)), |s.out| - 1);
  }

  /** The reply a finished run must end with, from what dispatch returned and the entry errors it emitted. */
  function ClosingReply(op: string, report: Option<Report>, err: Option<string>, entryErrors: u64): Reply {
    if err.Some? then FailureReply(op, DispatchError(err.value))
    else if report.None? then SuccessReply
    else if op == "backup" && report.value.backup.Some? && report.value.backup.value > 0 then
      FailureReply(op, ErrorCount(report.value.backup.value))
    else if op == "sync" && report.value.sync.Some? && report.value.sync.value > 0 then
      FailureReply(op, ErrorCount(report.value.sync.value))
    else if op == "restore" && entryErrors != 0 then FailureReply(op, ErrorCount(entryErrors))
    else SuccessReply
  }

  lemma EndingOf(op: string, report: Option<Report>, err: Option<string>, st: State)
    ensures var e := Ending(op, report, err, st);
            && |e| <= 2
            && (e != [] ==> e[|e| - 1] == ClosingReply(op, report, err, ErrorSum(st)))
            && (|e| == 2 ==> report.Some? && e[0] == ReportReply(report.value))
            && (|e| == 1 && e[0] == SuccessReply ==> report.None?)
  {
  }

  /** How a stream that ends with its ending ends. */
  lemma ClosedBy(op: string, out: seq<Reply>, report: Option<Report>, err: Option<string>, st: State)
    requires Ending(op, report, err, st) != [] && EndsWith(out, Ending(op, report, err, st))
    ensures out != [] && out[|out| - 1] == ClosingReply(op, report, err, ErrorSum(st))
    ensures out[|out| - 1] == SuccessReply && report.Some? ==>
              |out| >= 2 && out[|out| - 2] == ReportReply(report.value)
  {
    var ending := Ending(op, report, err, st);
    EndingOf(op, report, err, st);
    EndsWithParts(out, ending, |out| - 1);
    if |ending| == 2 {
      EndsWithParts(out, ending, |out| - 2);
    }
  }

  /**
   What every finished run of every operation ends with: dispatch's error if there is one, else the count
   of errors in its backup or sync report or of a restore's entry errors, else success, after the report
   if there is one.
   */
  lemma LastReply(op: string, states: seq<Run>, actions: seq<Action>)
    requires IsRun(op, states, actions) && states[|actions|].main.Exited?
    ensures var s := states[|actions|];
            && s.out != []
            && s.out[|s.out| - 1] == ClosingReply(op, s.report, s.err, Wrap64(EntryErrors(s.trace)))
            && (s.out[|s.out| - 1] == SuccessReply && s.report.Some? ==>
                  |s.out| >= 2 && s.out[|s.out| - 2] == ReportReply(s.report.value))
  {
    var s := states[|actions|];
    StreamShape(op, states, actions);
    ErrorSumCounts(s.trace);
    ClosedBy(op, s.out, s.report, s.err, Fold(s.trace));
  }

  /** A failed restore also leaves its count in the report, and nothing else in it changes. */
  lemma RestoreCountWritten(report: Report, st: State)
    requires TerminalError("restore", Some(report), st).Fail?
    ensures var after := TerminalError("restore", Some(report), st).report;
            after.restore == Some(ErrorSum(st)) && after.backup == report.backup && after.sync == report.sync
  {
  }

  /** A report in a finished stream is dispatch's own and comes right before the success that ends it. */
  lemma ReportPosition(op: string, states: seq<Run>, actions: seq<Action>, i: nat)
    requires IsRun(op, states, actions) && states[|actions|].main.Exited?
    requires i < |states[|actions|].out| && states[|actions|].out[i].ReportReply?
    ensures var s := states[|actions|];
            i == |s.out| - 2 && s.out[i + 1] == SuccessReply && s.report == Some(s.out[i].report)
  {
    var s := states[|actions|];
    StreamShape(op, states, actions);
    ReportIn(op, s.out, s.report, s.err, Fold(s.trace), i);
  }

  lemma ReportIn(op: string, out: seq<Reply>, report: Option<Report>, err: Option<string>, st: State, i: nat)
    requires EndsWith(out, Ending(op, report, err, st)) && i < |out| && out[i].ReportReply?
    ensures i == |out| - 2 && out[i + 1] == SuccessReply && report == Some(out[i].report)
  {
    EndingShapes(op, report, err, st);
    EndsWithParts(out, Ending(op, report, err, st), i);
    EndsWithParts(out, Ending(op, report, err, st), |out| - 1);
  }

  /** The streamed states are folds of ever longer prefixes of the trace, and there is at least one. */
  lemma StreamedStates(op: string, states: seq<Run>, actions: seq<Action>)
    requires IsRun(op, states, actions) && states[|actions|].main.Exited?
    ensures var s := states[|actions|];
            && |s.cuts| == |EmissionsOf(s.out)| >= 1
            && (forall i, j :: 0 <= i <= j < |s.cuts| ==> s.cuts[i] <= s.cuts[j] <= |s.trace|)
            && (forall i :: 0 <= i < |s.cuts| ==> EmissionsOf(s.out)[i].state == Fold(s.trace[..s.cuts[i]]))
  {
    var s := states[|actions|];
    RunInv(op, states, actions, |actions|);
    assert Emissions(s) == EmissionsOf(s.out);
    forall i | 0 <= i < |s.cuts|
      ensures EmissionsOf(s.out)[i].state == Fold(s.trace[..s.cuts[i]])
    {
      assert Shows(EmitterOf(op), Emissions(s)[i], s.ticks, i, Folds(s.trace)(s.cuts[i]));
    }
  }

  /**
   The series sent with the k-th streamed state are thinned from k + 1 readings, each of which took its
   network and latency inputs from the very state streamed with it: a fold of a prefix of the trace.
   */
  lemma StreamedSeries(op: string, states: seq<Run>, actions: seq<Action>, k: nat)
    requires IsRun(op, states, actions) && states[|actions|].main.Exited?
    requires k < |EmissionsOf(states[|actions|].out)|
    ensures var s := states[|actions|];
            && |s.ticks| == |s.cuts| == |EmissionsOf(s.out)|
            && (forall i :: 0 <= i <= k ==> s.cuts[i] <= |s.trace| && s.ticks[i].io == Fold(s.trace[..s.cuts[i]]).io)
            && EmissionsOf(s.out)[k] == S.EmissionOf(op, s.ticks[..k + 1], Fold(s.trace[..s.cuts[k]]))
  {
    var s := states[|actions|];
    RunInv(op, states, actions, |actions|);
    assert Emissions(s) == EmissionsOf(s.out);
    forall i | 0 <= i <= k
      ensures Shows(EmitterOf(op), Emissions(s)[i], s.ticks, i, Folds(s.trace)(s.cuts[i]))
    {
    }
  }

  /** So each reading is that of the last IO reports among the events folded when it was taken. */
  lemma StreamedReadings(op: string, states: seq<Run>, actions: seq<Action>, k: nat)
    requires IsRun(op, states, actions) && states[|actions|].main.Exited?
    requires op == "backup" && k < |EmissionsOf(states[|actions|].out)|
    ensures var s := states[|actions|];
            && k < |s.ticks| && k < |s.cuts| && s.cuts[k] <= |s.trace|
            && S.NetworkReads(S.NetworkInput(S.NetworkScopes(op).0, S.NetworkScopes(op).1)(s.ticks[k]),
                              s.trace[..s.cuts[k]], s.ticks[k].at.1, "source", "storage")
  {
    StreamedSeries(op, states, actions, k);
    var s := states[|actions|];
    S.NetworkReadings(op, s.trace[..s.cuts[k]], s.ticks[k]);
  }

  /** Along a stream of fewer than 2^64 events no event counter of a streamed state ever goes down. */
  lemma StreamedCountersGrow(op: string, states: seq<Run>, actions: seq<Action>, i: nat, j: nat, c: Class, stage: Stage)
    requires IsRun(op, states, actions) && states[|actions|].main.Exited? && |states[|actions|].trace| < TWO_64
    requires i <= j < |EmissionsOf(states[|actions|].out)|
    ensures var streamed := EmissionsOf(states[|actions|].out);
            Reading(Counter(streamed[i].state, c), stage) <= Reading(Counter(streamed[j].state, c), stage)
  {
    StreamedStates(op, states, actions);
    var s := states[|actions|];
    var late := s.trace[..s.cuts[j]];
    CountersNeverDecrease(late, s.cuts[i], c, stage);
    assert late[..s.cuts[i]] == s.trace[..s.cuts[i]];
  }

  // ----- what a run was told, read off its actions -----

  /** The events emitted in the first n actions. */
  function EventsOf(actions: seq<Action>, n: nat): seq<Event>
    requires n <= |actions|
  {
    if n == 0 then []
    else if actions[n - 1].Emit? then EventsOf(actions, n - 1) + [actions[n - 1].event]
    else EventsOf(actions, n - 1)
  }

  /** What was said besides states and the ending: by dispatch, and by the watcher on a signal. */
  function SaidIn(actions: seq<Action>, n: nat): seq<Reply>
    requires n <= |actions|
  {
    if n == 0 then []
    else
      var before := SaidIn(actions, n - 1);
      match actions[n - 1]
      case Say(r) => before + [r]
      case LogSignal => before + [LogReply("got signal")]
      case _ => before
  }

  /** The log and inventory replies of a stream. */
  function Chatter(out: seq<Reply>): seq<Reply> {
    if out == [] then []
    else
      var before, r := Chatter(out[..|out| - 1]), out[|out| - 1];
      if r.LogReply? || r.InventoryReply? then before + [r] else before
  }

  lemma ChatterSnoc(out: seq<Reply>, r: Reply)
    ensures Chatter(out + [r]) == if r.LogReply? || r.InventoryReply? then Chatter(out) + [r] else Chatter(out)
  {
    assert (out + [r])[..|out|] == out;
  }

  lemma TraceStep(op: string, s: Run, a: Action)
    requires Enabled(s, a) && Folded(s) >= 0
    ensures Next(op, s, a).trace == if a.Emit? then s.trace + [a.event] else s.trace
  {
    if OfSampler(a) {
      SamplerKeeps(op, s, a);
    } else if OfWatcher(a) {
      WatcherKeeps(s, a);
    } else if OfListener(a) {
      HistoryListener(s, a);
    } else if OfMain(a) {
      MainKeeps(op, s, a);
    }
  }

  /** The trace is the events emitted, in order: none is lost, added or changed. */
  lemma {:induction false} TraceIsEmitted(op: string, states: seq<Run>, actions: seq<Action>, n: nat)
    requires IsRun(op, states, actions) && n <= |actions|
    ensures states[n].trace == EventsOf(actions, n)
  {
    if n == 0 {
    } else {
      TraceIsEmitted(op, states, actions, n - 1);
      assert StepAt(op, states, actions, n - 1);
      TraceStep(op, states[n - 1], actions[n - 1]);
    }
  }

  lemma SamplerOut(op: string, s: Run, a: Action)
    requires OfSampler(a) && Enabled(s, a) && Folded(s) >= 0
    ensures Chatter(SamplerNext(op, s, a).out) == Chatter(s.out)
  {
    if a.SendState? {
      ChatterSnoc(s.out, StateReply(s.sampler.emission));
    }
  }

  lemma MainOut(op: string, s: Run, a: Action)
    requires OfMain(a) && Enabled(s, a)
    ensures Chatter(MainNext(op, s, a).out) == Chatter(s.out)
  {
    if a.SendFailure? {
      ChatterSnoc(s.out, FailureReply(op, s.main.reason));
    } else if a.SendReport? {
      ChatterSnoc(s.out, ReportReply(s.main.report));
    } else if a.SendSuccess? {
      ChatterSnoc(s.out, SuccessReply);
    }
  }

  lemma ChatterStep(op: string, s: Run, a: Action)
    requires Enabled(s, a) && Folded(s) >= 0
    ensures Chatter(Next(op, s, a).out) ==
      if a.Say? then Chatter(s.out) + [a.reply]
      else if a.LogSignal? then Chatter(s.out) + [LogReply("got signal")]
      else Chatter(s.out)
  {
    if OfSampler(a) {
      SamplerOut(op, s, a);
    } else if OfMain(a) {
      MainOut(op, s, a);
    } else if a.Say? {
      ChatterSnoc(s.out, a.reply);
    } else if a.LogSignal? {
      ChatterSnoc(s.out, LogReply("got signal"));
    }
  }

  /** The log and inventory replies sent are what was said, in order. */
  lemma {:induction false} ChatterIsSaid(op: string, states: seq<Run>, actions: seq<Action>, n: nat)
    requires IsRun(op, states, actions) && n <= |actions|
    ensures Chatter(states[n].out) == SaidIn(actions, n)
  {
    if n == 0 {
    } else {
      ChatterIsSaid(op, states, actions, n - 1);
      assert StepAt(op, states, actions, n - 1);
      ChatterStep(op, states[n - 1], actions[n - 1]);
    }
  }

  lemma DispatchStep(op: string, s: Run, a: Action)
    requires Enabled(s, a) && Folded(s) >= 0 && !a.DispatchReturn?
    ensures var s' := Next(op, s, a);
            s'.report == s.report && s'.err == s.err && (s'.main.Dispatching? <==> s.main.Dispatching?)
  {
  }

  /** Report and error are the ones dispatch returned, at its one return. */
  lemma {:induction false} DispatchReturned(op: string, states: seq<Run>, actions: seq<Action>, n: nat) returns (k: nat)
    requires IsRun(op, states, actions) && n <= |actions| && !states[n].main.Dispatching?
    ensures k < n && actions[k] == DispatchReturn(states[n].report, states[n].err)
    ensures states[k].main.Dispatching? && !states[k + 1].main.Dispatching?
  {
    if n == 0 {
      assert false;
    } else {
      assert StepAt(op, states, actions, n - 1);
      if actions[n - 1].DispatchReturn? {
        k := n - 1;
      } else {
        DispatchStep(op, states[n - 1], actions[n - 1]);
        k := DispatchReturned(op, states, actions, n - 1);
      }
    }
  }

  /** The process readings behind the resource series, and all the clocks, are those taken. */
  lemma {:induction false} TicksAreRead(op: string, states: seq<Run>, actions: seq<Action>, n: nat)
    requires IsRun(op, states, actions) && n <= |actions|
    ensures |states[n].ticks| == |ReadingsOf(actions, n)|
    ensures forall i :: 0 <= i < |states[n].ticks| ==>
              var t := states[n].ticks[i]; ReadingsOf(actions, n)[i] == ReadState(t.cpu, t.rss, t.at)
  {
    if n == 0 {
    } else {
      TicksAreRead(op, states, actions, n - 1);
      assert StepAt(op, states, actions, n - 1);
      HistoryStep(op, states[n - 1], actions[n - 1]);
    }
  }

  function ReadingsOf(actions: seq<Action>, n: nat): seq<Action>
    requires n <= |actions|
  {
    if n == 0 then []
    else if actions[n - 1].ReadState? then ReadingsOf(actions, n - 1) + [actions[n - 1]]
    else ReadingsOf(actions, n - 1)
  }

  // ----- shutdown cannot hang -----

  function MainRank(pc: MainPc): nat {
    match pc
    case Dispatching => 9
    case Stopping => 8
    case JoiningTasks => 7
    case ClosingBus => 6
    case Draining => 5
    case Judging => 4
    case Reporting(_) => 2
    case Succeeding => 1
    case Failing(_) => 1
    case Exited => 0
    case Crashed => 0
  }

  function SamplerRank(t: Sampler): nat {
    match t
    case Selecting => 3
    case Sampling(final) => if final then 2 else 5
    case Emitting(_, final) => if final then 1 else 4
    case SamplerDone => 0
  }

  function WatcherRank(w: Watcher): nat {
    match w
    case Watching => 2
    case Logging => 1
    case WatcherDone => 0
  }

  function ListenerRank(l: Listener): nat {
    match l
    case Receiving => 1
    case Holding(_) => 2
    case ListenerDone => 0
  }

  function Remaining(s: Run): nat {
    MainRank(s.main) + SamplerRank(s.sampler) + WatcherRank(s.watcher) + ListenerRank(s.listener) + 2 * |s.queue|
  }

  lemma ShutdownSampler(op: string, s: Run, a: Action)
    requires OfSampler(a) && Enabled(s, a) && Folded(s) >= 0
    ensures Remaining(SamplerNext(op, s, a)) <= if a.Tick? then Remaining(s) + 2 else Remaining(s) - 1
    ensures SamplerNext(op, s, a).main == s.main
  {
  }

  lemma ShutdownWatcher(s: Run, a: Action)
    requires OfWatcher(a) && Enabled(s, a)
    ensures Remaining(WatcherNext(s, a)) < Remaining(s) && WatcherNext(s, a).main == s.main
  {
  }

  lemma ShutdownListener(s: Run, a: Action)
    requires OfListener(a) && Enabled(s, a)
    ensures Remaining(ListenerNext(s, a)) < Remaining(s) && ListenerNext(s, a).main == s.main
  {
  }

  lemma ShutdownMain(op: string, s: Run, a: Action)
    requires OfMain(a) && Enabled(s, a)
    ensures Remaining(MainNext(op, s, a)) < Remaining(s) && !MainNext(op, s, a).main.Dispatching?
  {
  }

  /** Once dispatch has returned every step but a ticker emission brings the end nearer. */
  lemma ShutdownStep(op: string, s: Run, a: Action)
    requires !s.main.Dispatching? && Enabled(s, a) && Folded(s) >= 0
    ensures Remaining(Next(op, s, a)) <= if a.Tick? then Remaining(s) + 2 else Remaining(s) - 1
    ensures !Next(op, s, a).main.Dispatching?
  {
    if OfSampler(a) {
      ShutdownSampler(op, s, a);
    } else if OfWatcher(a) {
      ShutdownWatcher(s, a);
    } else if OfListener(a) {
      ShutdownListener(s, a);
    } else {
      ShutdownMain(op, s, a);
    }
  }

  /** And until the end such a step is always possible. */
  lemma NoDeadlock(op: string, s: Run) returns (a: Action)
    requires Inv(op, s) && !s.main.Dispatching? && !s.main.Exited? && !s.main.Crashed?
    ensures Enabled(s, a) && !a.Tick?
  {
    match s.main
    case Stopping => return CloseStop;
    case JoiningTasks =>
      match s.sampler {
        case Selecting => return StopSampler;
        case Sampling(_) => return ReadState(None, None, (0, 0, 0));
        case Emitting(_, _) => return SendState;
        case SamplerDone =>
      }
      match s.watcher {
        case Watching => return StopWatcher;
        case Logging => return LogSignal;
        case WatcherDone => return Joined;
      }
    case ClosingBus => return CloseBus;
    case Draining =>
      match s.listener {
        case Holding(_) => return FoldEvent;
        case Receiving => return if s.queue == [] then ListenerExit else Receive;
        case ListenerDone => return Drained;
      }
    case Judging => return Judge;
    case Failing(_) => return SendFailure;
    case Reporting(_) => return SendReport;
    case Succeeding => return SendSuccess;
  }

  /** A run that nothing but the ticker could still carry on is over. */
  lemma OnlyTicksLeft(op: string, states: seq<Run>, actions: seq<Action>)
    requires IsRun(op, states, actions) && forall a :: Enabled(states[|actions|], a) ==> a.Tick?
    ensures states[|actions|].main.Exited? || states[|actions|].main.Crashed?
  {
    var s := states[|actions|];
    RunInv(op, states, actions, |actions|);
    assert Enabled(s, DispatchReturn(None, None)) <==> s.main.Dispatching?;
    if !s.main.Exited? && !s.main.Crashed? {
      var a := NoDeadlock(op, s);
    }
  }

  /** How many of the actions i, ..., j-1 are ticker emissions. */
  function Ticks(actions: seq<Action>, i: nat, j: nat): nat
    requires i <= j <= |actions|
  {
    if i == j then 0 else Ticks(actions, i, j - 1) + if actions[j - 1].Tick? then 1 else 0
  }

  lemma RunStep(op: string, states: seq<Run>, actions: seq<Action>, k: nat)
    requires IsRun(op, states, actions) && k < |actions| && !states[k].main.Dispatching?
    ensures !states[k + 1].main.Dispatching?
    ensures Remaining(states[k + 1]) <= if actions[k].Tick? then Remaining(states[k]) + 2 else Remaining(states[k]) - 1
  {
    assert StepAt(op, states, actions, k);
    ShutdownStep(op, states[k], actions[k]);
  }

  /** The length of a shutdown: bounded by what was pending when dispatch returned, plus three steps a tick. */
  lemma {:induction false} ShutdownBound(op: string, states: seq<Run>, actions: seq<Action>, i: nat, j: nat)
    requires IsRun(op, states, actions) && i <= j < |states| && !states[i].main.Dispatching?
    ensures !states[j].main.Dispatching?
    ensures j - i <= Remaining(states[i]) - Remaining(states[j]) + 3 * Ticks(actions, i, j)
    decreases j - i
  {
    if i == j {
    } else {
      ShutdownBound(op, states, actions, i, j - 1);
      RunStep(op, states, actions, j - 1);
    }
  }

  // ----- how current the last streamed state is -----

  /** The events that dispatch has emitted and the listener has not folded. */
  function OnBus(s: Run): seq<Event> {
    (if s.listener.Holding? then [s.listener.event] else []) + s.queue
  }

  /**
   The last emission of a run is read at one step k, after the last event has been emitted; what it
   misses of the trace is what was on the bus then.
   */
  lemma {:induction false} FinalRead(op: string, states: seq<Run>, actions: seq<Action>, i: nat) returns (k: nat)
    requires IsRun(op, states, actions) && 0 < i < |states|
    requires IsLast(states[i].sampler) && !states[i].sampler.Sampling?
    ensures k < i && actions[k].ReadState? && states[k].stopped
    ensures states[i].trace == states[k].trace && states[i].cuts == states[k].cuts + [Folded(states[k])]
    ensures 0 <= Folded(states[k]) <= |states[k].trace|
    ensures states[i].trace[Folded(states[k])..] == OnBus(states[k])
  {
    RunInv(op, states, actions, i - 1);
    LateStep(op, states, actions, i - 1);
    if actions[i - 1].ReadState? {
      k := i - 1;
      BusTail(states[k]);
    } else {
      k := FinalRead(op, states, actions, i - 1);
    }
  }

  lemma BusTail(s: Run)
    requires Folding(s)
    ensures Folded(s) <= |s.trace| && s.trace[Folded(s)..] == OnBus(s)
  {
    assert s.trace == s.trace[..Folded(s)] + OnBus(s);
  }

  /** Step j makes the final reading, or follows it: no event is emitted and nothing else is read. */
  lemma LateStep(op: string, states: seq<Run>, actions: seq<Action>, j: nat)
    requires IsRun(op, states, actions) && j < |actions| && Ordering(states[j])
    requires IsLast(states[j + 1].sampler) && !states[j + 1].sampler.Sampling?
    ensures states[j + 1].trace == states[j].trace
    ensures if actions[j].ReadState? then
              states[j].stopped && states[j + 1].cuts == states[j].cuts + [Folded(states[j])]
            else
              0 < j && states[j + 1].cuts == states[j].cuts && IsLast(states[j].sampler) && !states[j].sampler.Sampling?
  {
    assert StepAt(op, states, actions, j);
  }

  lemma LastCut(op: string, states: seq<Run>, actions: seq<Action>) returns (k: nat)
    requires IsRun(op, states, actions) && states[|actions|].main.Exited?
    ensures k < |actions| && actions[k].ReadState? && states[k].stopped
    ensures states[|actions|].cuts == states[k].cuts + [Folded(states[k])]
    ensures var s := states[|actions|];
            && s.cuts != [] && s.cuts[|s.cuts| - 1] <= |s.trace|
            && OnBus(states[k]) == s.trace[s.cuts[|s.cuts| - 1]..]
            && EmissionsOf(s.out) != []
            && EmissionsOf(s.out)[|EmissionsOf(s.out)| - 1].state == Fold(s.trace[..s.cuts[|s.cuts| - 1]])
  {
    RunInv(op, states, actions, |actions|);
    k := FinalRead(op, states, actions, |actions|);
    StreamedStates(op, states, actions);
  }

  /**
   The last streamed state has the error sum that the run is judged on exactly when no entry error was
   still on the bus at the final reading, the one step k that nothing is read after; and any of its event
   counters is final exactly when no event of that kind was.
   */
  lemma LastStateCurrentIff(op: string, states: seq<Run>, actions: seq<Action>, c: Class, stage: Stage) returns (k: nat)
    requires IsRun(op, states, actions) && states[|actions|].main.Exited? && |states[|actions|].trace| < TWO_64
    ensures k < |actions| && actions[k].ReadState? && states[k].stopped
    ensures states[|actions|].cuts == states[k].cuts + [Folded(states[k])]
    ensures var s, emissions, bus := states[|actions|], EmissionsOf(states[|actions|].out), OnBus(states[k]);
            emissions != [] &&
            var last := emissions[|emissions| - 1].state;
            && (ErrorSum(last) == ErrorSum(Fold(s.trace)) <==> forall i :: 0 <= i < |bus| ==> !IsEntryError(bus[i]))
            && (Reading(Counter(last, c), stage) == Reading(Counter(Fold(s.trace), c), stage)
                <==> forall i :: 0 <= i < |bus| ==> bus[i].kind != Entry(c, stage))
  {
    k := LastCut(op, states, actions);
    var s := states[|actions|];
    var cut := s.cuts[|s.cuts| - 1];
    ErrorSumFinalIff(s.trace, cut);
    CounterFinalIff(s.trace, cut, c, stage);
  }

  // ----- and any lag can happen -----

  ghost predicate Reachable(op: string, s: Run) {
    exists states, actions :: IsRun(op, states, actions) && states[|actions|] == s
  }

  lemma Extend(op: string, states: seq<Run>, actions: seq<Action>, a: Action, next: Run)
    requires IsRun(op, states, actions) && Folded(states[|actions|]) >= 0 && Enabled(states[|actions|], a)
    requires next == Next(op, states[|actions|], a)
    ensures IsRun(op, states + [next], actions + [a]) && (states + [next])[|actions + [a]|] == next
  {
    var states', actions' := states + [next], actions + [a];
    forall i | 0 <= i < |actions'| ensures StepAt(op, states', actions', i) {
      assert i < |actions| ==> StepAt(op, states, actions, i);
    }
  }

  lemma Go(op: string, s: Run, a: Action)
    requires Reachable(op, s) && Folded(s) >= 0 && Enabled(s, a)
    ensures Reachable(op, Next(op, s, a))
  {
    var states, actions :| IsRun(op, states, actions) && states[|actions|] == s;
    Extend(op, states, actions, a, Next(op, s, a));
  }

  /** Dispatch at work, `seen` folded already and `queue` not yet. */
  function Early(seen: seq<Event>, queue: seq<Event>): Run {
    INIT.(queue := queue, state := Fold(seen), trace := seen + queue)
  }

  lemma {:induction false} FoldEarly(op: string, seen: seq<Event>)
    ensures Reachable(op, Early(seen, []))
  {
    if seen == [] {
      assert IsRun(op, [INIT], []);
    } else {
      var n := |seen| - 1;
      var e, s := seen[n], Early(seen[..n], []);
      FoldEarly(op, seen[..n]);
      EmitAndFold(op, s, e);
      assert seen == seen[..n] + [e];
    }
  }

  lemma EmitAndFold(op: string, s: Run, e: Event)
    requires Reachable(op, s) && Folded(s) >= 0 && s.main.Dispatching? && s.listener.Receiving? && s.queue == []
    ensures Reachable(op, s.(state := Step(s.state, e), trace := s.trace + [e]))
  {
    Go(op, s, Emit(e));
    var s1 := s.(queue := [e], trace := s.trace + [e]);
    Go(op, s1, Receive);
    var s2 := s1.(listener := Holding(e), queue := []);
    Go(op, s2, FoldEvent);
  }

  lemma {:induction false} QueueEarly(op: string, seen: seq<Event>, queue: seq<Event>)
    ensures Reachable(op, Early(seen, queue))
  {
    if queue == [] {
      FoldEarly(op, seen);
    } else {
      var n := |queue| - 1;
      QueueEarly(op, seen, queue[..n]);
      Go(op, Early(seen, queue[..n]), Emit(queue[n]));
      assert queue == queue[..n] + [queue[n]];
      assert seen + queue == seen + queue[..n] + [queue[n]];
    }
  }

  /** A run after an emission, its sampler going on as `next`. */
  function AfterEmission(op: string, s: Run, next: Sampler, t: S.Tick): Run
    requires Folded(s) >= 0
  {
    s.(sampler := next, ticks := s.ticks + [t], cuts := s.cuts + [Folded(s)],
       out := s.out + [StateReply(S.EmissionOf(op, s.ticks + [t], s.state))])
  }

  /** Whenever the sampler waits it can tick: read, emit and wait again. */
  lemma TickAnyTime(op: string, s: Run, t: S.Tick)
    requires Reachable(op, s) && Folded(s) >= 0 && s.sampler.Selecting? && t.io == s.state.io
    ensures Reachable(op, AfterEmission(op, s, Selecting, t))
  {
    Go(op, s, Tick);
    EmitNow(op, s.(sampler := Sampling(false)), t);
  }

  /** While the watcher waits a signal can come, and is logged once. */
  lemma SignalAnyTime(op: string, s: Run)
    requires Reachable(op, s) && Folded(s) >= 0 && s.watcher.Watching?
    ensures Reachable(op, s.(watcher := WatcherDone, out := s.out + [LogReply("got signal")]))
  {
    Go(op, s, Signal);
    Go(op, s.(watcher := Logging), LogSignal);
  }

  lemma StopNow(op: string, s: Run, report: Option<Report>, err: Option<string>)
    requires Reachable(op, s) && Folded(s) >= 0 && s.main.Dispatching? && s.sampler.Selecting?
    ensures Reachable(op, s.(main := JoiningTasks, report := report, err := err, stopped := true,
                              sampler := Sampling(true)))
  {
    Go(op, s, DispatchReturn(report, err));
    var s1 := s.(main := Stopping, report := report, err := err);
    Go(op, s1, CloseStop);
    var s2 := s1.(main := JoiningTasks, stopped := true);
    Go(op, s2, StopSampler);
  }

  lemma EmitNow(op: string, s: Run, t: S.Tick)
    requires Reachable(op, s) && Folded(s) >= 0 && s.sampler.Sampling? && t.io == s.state.io
    ensures Reachable(op, AfterEmission(op, s, if s.sampler.final then SamplerDone else Selecting, t))
  {
    Go(op, s, ReadState(t.cpu, t.rss, t.at));
    Go(op, AfterRead(op, s, t), SendState);
  }

  lemma JoinAndClose(op: string, s: Run)
    requires Reachable(op, s) && Folded(s) >= 0 && s.main.JoiningTasks? && s.stopped
    requires s.sampler.SamplerDone? && s.watcher.Watching?
    ensures Reachable(op, s.(main := Draining, watcher := WatcherDone, busClosed := true))
  {
    Go(op, s, StopWatcher);
    var s1 := s.(watcher := WatcherDone);
    Go(op, s1, Joined);
    var s2 := s1.(main := ClosingBus);
    Go(op, s2, CloseBus);
  }

  /** Draining folds all that is left on the bus. */
  lemma {:induction false} DrainAll(op: string, s: Run)
    requires Reachable(op, s) && Folding(s) && s.listener.Receiving?
    ensures Reachable(op, s.(queue := [], state := Fold(s.trace)))
    decreases |s.queue|
  {
    if s.queue == [] {
      assert s.trace == s.trace[..Folded(s)];
    } else {
      var e := s.queue[0];
      var held := s.(listener := Holding(e), queue := s.queue[1..]);
      var next := s.(queue := s.queue[1..], state := Step(s.state, e));
      Go(op, s, Receive);
      FoldingReceive(s, held);
      Go(op, held, FoldEvent);
      FoldingFold(held, next);
      DrainAll(op, next);
    }
  }

  /** Once drained, a run that does not crash sends its ending. */
  lemma Conclude(op: string, s: Run)
    requires Reachable(op, s) && Folded(s) >= 0 && s.main.Draining? && s.busClosed
    requires s.listener.Receiving? && s.queue == []
    requires Ending(op, s.report, s.err, s.state) != []
    ensures Reachable(op, s.(listener := ListenerDone, main := Exited,
                              out := s.out + Ending(op, s.report, s.err, s.state)))
  {
    var ending := Ending(op, s.report, s.err, s.state);
    Go(op, s, ListenerExit);
    var s1 := s.(listener := ListenerDone);
    Go(op, s1, Drained);
    var s2 := s1.(main := Judging);
    Go(op, s2, Judge);
    var s3 := s2.(main := AfterJudge(op, s2));
    Deliver(op, s3, ending);
  }

  function Ended(op: string, s: Run): Run {
    var final := Fold(s.trace);
    s.(queue := [], state := final, listener := ListenerDone, main := Exited,
       out := s.out + Ending(op, s.report, s.err, final))
  }

  lemma DrainAndEnd(op: string, s: Run)
    requires Reachable(op, s) && Folding(s) && s.main.Draining? && s.busClosed && s.listener.Receiving?
    requires Ending(op, s.report, s.err, Fold(s.trace)) != []
    ensures Reachable(op, Ended(op, s))
  {
    DrainAll(op, s);
    Conclude(op, s.(queue := [], state := Fold(s.trace)));
  }

  lemma Deliver(op: string, s: Run, ending: seq<Reply>)
    requires Reachable(op, s) && Folded(s) >= 0
    requires match s.main
             case Failing(reason) => ending == [FailureReply(op, reason)]
             case Reporting(r) => ending == [ReportReply(r), SuccessReply]
             case Succeeding => ending == [SuccessReply]
             case _ => false
    ensures Reachable(op, s.(main := Exited, out := s.out + ending))
  {
    match s.main
    case Failing(reason) => Go(op, s, SendFailure);
    case Succeeding => Go(op, s, SendSuccess);
    case Reporting(r) =>
      Go(op, s, SendReport);
      Go(op, s.(main := Succeeding, out := s.out + [ReportReply(r)]), SendSuccess);
      assert s.out + [ReportReply(r)] + [SuccessReply] == s.out + ending;
  }

  /** The only emission made with `seen` folded and `late` still on the bus, which is then closed. */
  function Closing(op: string, seen: seq<Event>, late: seq<Event>, report: Option<Report>, err: Option<string>,
                   t: S.Tick): Run {
    Run(Draining, report, err, true, SamplerDone, [t], WatcherDone, late, true, Receiving, Fold(seen),
        [StateReply(S.EmissionOf(op, [t], Fold(seen)))], seen + late, [|seen|])
  }

  /** The run once that emission is sent. */
  function Emitted(op: string, seen: seq<Event>, late: seq<Event>, report: Option<Report>, err: Option<string>,
                   t: S.Tick): Run {
    Run(JoiningTasks, report, err, true, SamplerDone, [t], Watching, late, false, Receiving, Fold(seen),
        [StateReply(S.EmissionOf(op, [t], Fold(seen)))], seen + late, [|seen|])
  }

  lemma EmitLate(op: string, seen: seq<Event>, late: seq<Event>, report: Option<Report>, err: Option<string>, t: S.Tick)
    requires t.io == Fold(seen).io
    ensures Reachable(op, Emitted(op, seen, late, report, err, t))
  {
    var s := Early(seen, late);
    QueueEarly(op, seen, late);
    StopNow(op, s, report, err);
    EmitNow(op, s.(main := JoiningTasks, report := report, err := err, stopped := true, sampler := Sampling(true)), t);
  }

  lemma CloseLate(op: string, seen: seq<Event>, late: seq<Event>, report: Option<Report>, err: Option<string>,
                  t: S.Tick)
    requires t.io == Fold(seen).io
    ensures Reachable(op, Closing(op, seen, late, report, err, t))
  {
    EmitLate(op, seen, late, report, err, t);
    JoinAndClose(op, Emitted(op, seen, late, report, err, t));
  }

  /**
   Whatever is emitted, the final reading can come before any of it is folded or after any number of
   events: a complete run shows `seen` in its only streamed state and is judged on `seen + late`.
   */
  lemma LastStateCanLag(op: string, seen: seq<Event>, late: seq<Event>, report: Option<Report>, err: Option<string>,
                        t: S.Tick)
    returns (states: seq<Run>, actions: seq<Action>)
    requires t.io == Fold(seen).io && Ending(op, report, err, Fold(seen + late)) != []
    ensures IsRun(op, states, actions) && states[|actions|].main.Exited?
    ensures var s := states[|actions|];
            && s.trace == seen + late && s.cuts == [|seen|]
            && s.out == [StateReply(S.EmissionOf(op, [t], Fold(seen)))] + Ending(op, report, err, Fold(seen + late))
  {
    var s := Closing(op, seen, late, report, err, t);
    CloseLate(op, seen, late, report, err, t);
    assert s.trace[..|seen|] == seen;
    DrainAndEnd(op, s);
    states, actions :| IsRun(op, states, actions) && states[|actions|] == Ended(op, s);
  }

  /** So a restore whose only entry error is late shows no error at all, and is failed for one. */
  lemma LateErrorUnseen(e: Event, report: Report, t: S.Tick) returns (states: seq<Run>, actions: seq<Action>)
    requires IsEntryError(e) && report.restore.Some? && t.io == map[]
    ensures IsRun("restore", states, actions) && states[|actions|].main.Exited?
    ensures ErrorSum(ZERO_STATE) == 0
    ensures states[|actions|].out ==
      [StateReply(S.EmissionOf("restore", [t], ZERO_STATE)), FailureReply("restore", ErrorCount(1))]
  {
    ErrorSumCounts([e]);
    SumSnoc([], e, EntryErrorHit());
    assert [] + [e] == [e] && EntryErrors([e]) == 1;
    assert Ending("restore", Some(report), None, Fold([e])) == [FailureReply("restore", ErrorCount(1))];
    states, actions := LastStateCanLag("restore", [], [e], Some(report), None, t);
  }
}
