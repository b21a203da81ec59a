/**
 An inventory operation as a whole: the run protocol with the listing that dispatch carries out inside
 it, both moving in any interleaving, the listing's replies going to the run's stream.
 */
module InventoryRun {
  import opened Prelude
  import I = Inventory
  import E = EventFold
  import P = RunProtocol

  const OP := "inventory"

  /** Checking the source and starting the plugin, then listing; or turned down before that. */
  datatype Phase = Starting | Listing | Refused

  datatype Joint = Joint(phase: Phase, run: P.Run, stream: I.Stream)

  const INIT := Joint(Starting, P.INIT, I.INIT)

  datatype Action =
    | Refuse(message: string)
    | Start
    | List(step: I.Action)    // a step of the listing; its replies go out on the run's stream
    | Finish                  // dispatch returns the listing's result, and no report
    | Other(other: P.Action)  // any other step of the run

  predicate Enabled(job: I.Job, j: Joint, a: Action) {
    match a
    case Refuse(_) => j.phase.Starting?
    case Start => j.phase.Starting?
    case List(step) => j.phase.Listing? && I.Enabled(job, j.stream, step)
    case Finish => j.phase.Listing? && j.stream.caller.Returned? && j.run.main.Dispatching?
    case Other(step) =>
      P.Enabled(j.run, step) && !step.DispatchReturn? && !(step.Say? && step.reply.InventoryReply?)
  }

  /** How dispatch words an error is left open. */
  function Returned(run: P.Run, err: Option<string>): P.Run {
    run.(main := P.Stopping, report := None, err := err)
  }

  function Error(result: Option<I.ListError>, word: I.ListError -> string): Option<string> {
    if result.Some? then Some(word(result.value)) else None
  }

  function Next(job: I.Job, word: I.ListError -> string, j: Joint, a: Action): Joint
    requires Enabled(job, j, a) && P.Folded(j.run) >= 0
  {
    match a
    case Refuse(message) => j.(phase := Refused, run := Returned(j.run, Some(message)))
    case Start => j.(phase := Listing)
    case List(step) =>
      j.(stream := I.Next(job, j.stream, step),
         run := if step.Reply? then j.run.(out := j.run.out + [P.InventoryReply(j.stream.consumer.raw)]) else j.run)
    case Finish => j.(run := Returned(j.run, Error(j.stream.caller.result, word)))
    case Other(step) => j.(run := P.Next(OP, j.run, step))
  }

  ghost predicate StepAt(job: I.Job, word: I.ListError -> string, states: seq<Joint>, actions: seq<Action>, i: nat) {
    && i < |actions| && i + 1 < |states|
    && P.Folded(states[i].run) >= 0 && Enabled(job, states[i], actions[i])
    && states[i + 1] == Next(job, word, states[i], actions[i])
  }

  ghost predicate IsRun(job: I.Job, word: I.ListError -> string, states: seq<Joint>, actions: seq<Action>) {
    && |states| == |actions| + 1
    && states[0] == INIT
    && forall i :: 0 <= i < |actions| ==> StepAt(job, word, states, actions, i)
  }

  /** The inventory replies of a stream, in order. */
  function InventoryReplies(out: seq<P.Reply>): seq<string> {
    if out == [] then []
    else
      var r := out[|out| - 1];
      InventoryReplies(out[..|out| - 1]) + if r.InventoryReply? then [r.entry] else []
  }

  lemma RepliesSnoc(out: seq<P.Reply>, r: P.Reply)
    ensures InventoryReplies(out + [r]) ==
      if r.InventoryReply? then InventoryReplies(out) + [r.entry] else InventoryReplies(out)
  {
    assert (out + [r])[..|out|] == out;
  }

  /** Where dispatch stands and what it has returned. */
  ghost predicate Dispatched(word: I.ListError -> string, j: Joint) {
    match j.phase
    case Starting => j.run.main.Dispatching? && j.stream == I.INIT
    case Refused => !j.run.main.Dispatching? && j.run.report.None? && j.run.err.Some? && j.stream == I.INIT
    case Listing =>
      j.run.main.Dispatching? ||
      (j.stream.caller.Returned? && j.run.report.None? && j.run.err == Error(j.stream.caller.result, word))
  }

  ghost predicate Inv(job: I.Job, word: I.ListError -> string, j: Joint) {
    && P.Inv(OP, j.run)
    && I.Inv(job, j.stream)
    && Dispatched(word, j)
    && InventoryReplies(j.run.out) == j.stream.replies
  }

  // ----- every step keeps the two together -----

  lemma InvReturn(run: P.Run, err: Option<string>)
    requires P.Inv(OP, run) && run.main.Dispatching?
    ensures P.Inv(OP, Returned(run, err))
  {
    P.InvStep(OP, run, P.DispatchReturn(None, err));
  }

  /** A listing that still has something to reply has not returned, and so dispatch has not either. */
  lemma InvList(job: I.Job, word: I.ListError -> string, j: Joint, step: I.Action)
    requires Inv(job, word, j) && j.phase.Listing? && I.Enabled(job, j.stream, step)
    ensures Inv(job, word, Next(job, word, j, List(step)))
  {
    I.InvStep(job, j.stream, step);
    if j.stream.caller.Returned? {
      I.ReturnedStep(job, j.stream, step);
    }
    if step.Reply? {
      InvSay(j.run, j.stream.consumer.raw);
    }
  }

  lemma InvSay(run: P.Run, raw: string)
    requires P.Inv(OP, run) && run.main.Dispatching?
    ensures P.Inv(OP, run.(out := run.out + [P.InventoryReply(raw)]))
    ensures InventoryReplies(run.out + [P.InventoryReply(raw)]) == InventoryReplies(run.out) + [raw]
  {
    RepliesSnoc(run.out, P.InventoryReply(raw));
    P.InvStep(OP, run, P.Say(P.InventoryReply(raw)));
  }

  /** What a step of the run other than dispatch's return leaves alone. */
  ghost predicate SameDispatch(s: P.Run, s': P.Run) {
    && s'.report == s.report && s'.err == s.err
    && (s'.main.Dispatching? <==> s.main.Dispatching?)
    && InventoryReplies(s'.out) == InventoryReplies(s.out)
  }

  lemma DispatchSays(s: P.Run, step: P.Action)
    requires P.OfDispatch(step) && P.Enabled(s, step)
    requires !step.DispatchReturn? && !(step.Say? && step.reply.InventoryReply?)
    ensures SameDispatch(s, P.DispatchNext(s, step))
  {
    if step.Say? {
      RepliesSnoc(s.out, step.reply);
    }
  }

  lemma SamplerSays(s: P.Run, step: P.Action)
    requires P.OfSampler(step) && P.Enabled(s, step) && P.Folded(s) >= 0
    ensures SameDispatch(s, P.SamplerNext(OP, s, step))
  {
    if step.SendState? {
      RepliesSnoc(s.out, P.StateReply(s.sampler.emission));
    }
  }

  lemma WatcherSays(s: P.Run, step: P.Action)
    requires P.OfWatcher(step) && P.Enabled(s, step)
    ensures SameDispatch(s, P.WatcherNext(s, step))
  {
    if step.LogSignal? {
      RepliesSnoc(s.out, P.LogReply("got signal"));
    }
  }

  lemma MainSays(s: P.Run, step: P.Action)
    requires P.OfMain(step) && P.Enabled(s, step)
    ensures SameDispatch(s, P.MainNext(OP, s, step))
  {
    if step.SendFailure? {
      RepliesSnoc(s.out, P.FailureReply(OP, s.main.reason));
    } else if step.SendReport? {
      RepliesSnoc(s.out, P.ReportReply(s.main.report));
    } else if step.SendSuccess? {
      RepliesSnoc(s.out, P.SuccessReply);
    }
  }

  lemma OtherSays(s: P.Run, step: P.Action)
    requires P.Enabled(s, step) && P.Folded(s) >= 0
    requires !step.DispatchReturn? && !(step.Say? && step.reply.InventoryReply?)
    ensures SameDispatch(s, P.Next(OP, s, step))
  {
    if P.OfDispatch(step) {
      DispatchSays(s, step);
    } else if P.OfSampler(step) {
      SamplerSays(s, step);
    } else if P.OfWatcher(step) {
      WatcherSays(s, step);
    } else if P.OfMain(step) {
      MainSays(s, step);
    }
  }

  lemma InvStep(job: I.Job, word: I.ListError -> string, j: Joint, a: Action)
    requires Inv(job, word, j) && Enabled(job, j, a)
    ensures Inv(job, word, Next(job, word, j, a))
  {
    match a
    case Refuse(message) => InvReturn(j.run, Some(message));
    case Start =>
    case List(step) => InvList(job, word, j, step);
    case Finish => InvReturn(j.run, Error(j.stream.caller.result, word));
    case Other(step) =>
      P.InvStep(OP, j.run, step);
      OtherSays(j.run, step);
  }

  lemma {:induction false} RunInv(job: I.Job, word: I.ListError -> string, states: seq<Joint>, actions: seq<Action>,
                                  i: nat)
    requires IsRun(job, word, states, actions) && i < |states|
    ensures Inv(job, word, states[i])
  {
    if i == 0 {
      assert P.Emissions(P.INIT) == [];
    } else {
      RunInv(job, word, states, actions, i - 1);
      assert StepAt(job, word, states, actions, i - 1);
      InvStep(job, word, states[i - 1], actions[i - 1]);
    }
  }

  // ----- what the driver receives -----

  /** The replies that close an inventory stream. */
  lemma EndingOf(err: Option<string>, st: E.State)
    ensures P.Ending(OP, None, err, st) ==
      if err.Some? then [P.FailureReply(OP, P.DispatchError(err.value))] else [P.SuccessReply]
  {
  }

  /**
   However the sampler, the signal watcher, the provider and the consumer interleave, a finished stream
   carries the entries of a sequential listing, all that were delivered or those before the first that
   does not encode; and it ends in success exactly when the listing was begun, the provider returned no
   error and every entry was encoded.
   */
  lemma StreamedInventory(job: I.Job, word: I.ListError -> string, states: seq<Joint>, actions: seq<Action>)
    requires IsRun(job, word, states, actions) && states[|actions|].run.main.Exited?
    ensures var j := states[|actions|];
            var out, delivered := j.run.out, j.stream.delivered;
            var replies := InventoryReplies(out);
            && replies == I.Reference(job, delivered).replies
            && |replies| <= |delivered|
            && (forall i :: 0 <= i < |replies| ==> I.Carries(job, replies[i], delivered[i]))
            && out != []
            && (out[|out| - 1] == P.SuccessReply || out[|out| - 1].FailureReply?)
            && (out[|out| - 1] == P.SuccessReply <==>
                  && j.phase.Listing? && j.stream.listError.None?
                  && forall i :: 0 <= i < |delivered| ==> job.encode(I.Wire(delivered[i])).Some?)
            && (j.phase.Listing? ==>
                  && I.Answered(job, j.stream)
                  && (j.stream.caller.result.Some? ==>
                        out[|out| - 1] == P.FailureReply(OP, P.DispatchError(word(j.stream.caller.result.value)))))
  {
    var j := states[|actions|];
    RunInv(job, word, states, actions, |actions|);
    I.ReferenceCarries(job, j.stream.delivered);
    if j.phase.Listing? {
      I.ReturnedState(job, j.stream);
    }
    LastReply(j.run);
  }

  lemma LastReply(run: P.Run)
    requires P.Inv(OP, run) && run.main.Exited? && run.report.None?
    ensures run.out != []
    ensures run.out[|run.out| - 1] ==
      if run.err.Some? then P.FailureReply(OP, P.DispatchError(run.err.value)) else P.SuccessReply
  {
    EndingOf(run.err, run.state);
    P.EndsWithParts(run.out, P.Ending(OP, None, run.err, run.state), |run.out| - 1);
  }

  /** At every moment of every run, what has been streamed is a part of that. */
  lemma StreamedSoFar(job: I.Job, word: I.ListError -> string, states: seq<Joint>, actions: seq<Action>, i: nat)
    requires IsRun(job, word, states, actions) && i < |states|
    ensures InventoryReplies(states[i].run.out) <= I.Reference(job, states[i].stream.delivered).replies
  {
    RunInv(job, word, states, actions, i);
    var s := states[i].stream;
    if s.consumer.Encoding? {
      var n := |s.delivered| - 1;
      assert s.delivered == s.delivered[..n] + [s.delivered[n]];
      I.ReferenceSnoc(job, s.delivered[..n], s.delivered[n]);
    }
  }
}
