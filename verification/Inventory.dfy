/**
 Inventory streaming: a provider listing entries into an unbuffered channel, a consumer goroutine
 encoding and replying, and the caller waiting for both, as steps scheduled in any order.
 */
module Inventory {
  import opened Prelude

  // ----- the wire form -----

  datatype HostEndpoint = HostEndpoint(kind: string, endpoint: string, attributes: map<string, string>)

  /** An entry as the provider lists it. */
  datatype Entry = Entry(class_: string, subClass: string, tags: seq<string>, urn: string, name: string,
                         region: string, service: string, resource: string, details: string,
                         endpoints: seq<HostEndpoint>, country: string)

  datatype WireEndpoint = WireEndpoint(type_: string, endpoint: string, attributes: map<string, string>)

  datatype WireEntry = WireEntry(class_: string, subClass: string, tags: seq<string>, urn: string, name: string,
                                 region: string, service: string, resource: string, details: string,
                                 endpoints: seq<WireEndpoint>, country: string)

  function Wire(e: Entry): WireEntry {
    WireEntry(e.class_, e.subClass, e.tags, e.urn, e.name, e.region, e.service, e.resource, e.details,
              seq(|e.endpoints|, i requires 0 <= i < |e.endpoints| =>
                WireEndpoint(e.endpoints[i].kind, e.endpoints[i].endpoint, e.endpoints[i].attributes)),
              e.country)
  }

  /** wireEntry, appending the endpoints one by one. */
  method WireOf(e: Entry) returns (w: WireEntry)
    ensures w == Wire(e)
  {
    w := WireEntry(e.class_, e.subClass, e.tags, e.urn, e.name, e.region, e.service, e.resource, e.details, [],
                   e.country);
    for i := 0 to |e.endpoints|
      invariant w.(endpoints := Wire(e).endpoints) == Wire(e)
      invariant w.endpoints == Wire(e).endpoints[..i]
    {
      var ep := e.endpoints[i];
      w := w.(endpoints := w.endpoints + [WireEndpoint(ep.kind, ep.endpoint, ep.attributes)]);
    }
  }

  /** How the driver reads a wire entry: every field under its own name. */
  function Unwire(w: WireEntry): Entry {
    var endpoints := seq(|w.endpoints|, i requires 0 <= i < |w.endpoints| => UnwireEndpoint(w.endpoints[i]));
    Entry(class_ := w.class_, subClass := w.subClass, tags := w.tags, urn := w.urn, name := w.name,
          region := w.region, service := w.service, resource := w.resource, details := w.details,
          endpoints := endpoints, country := w.country)
  }

  function UnwireEndpoint(w: WireEndpoint): HostEndpoint {
    HostEndpoint(kind := w.type_, endpoint := w.endpoint, attributes := w.attributes)
  }

  /** Reading what was written gives the entry back, field by field. */
  lemma WireRoundTrip(e: Entry)
    ensures Unwire(Wire(e)) == e
  {
    assert Unwire(Wire(e)).endpoints == e.endpoints;
  }

  /** This reply encodes a wire entry that reads back as e. */
  ghost predicate Carries(job: Job, raw: string, e: Entry) {
    exists w :: job.encode(w) == Some(raw) && Unwire(w) == e
  }

  /** The replies of the reference carry the entries listed, one by one. */
  lemma ReferenceCarries(job: Job, entries: seq<Entry>)
    ensures var replies := Reference(job, entries).replies;
            |replies| <= |entries| && forall i :: 0 <= i < |replies| ==> Carries(job, replies[i], entries[i])
  {
    ReferenceMeaning(job, entries);
    var replies := Reference(job, entries).replies;
    forall i | 0 <= i < |replies|
      ensures Carries(job, replies[i], entries[i])
    {
      WireRoundTrip(entries[i]);
      assert job.encode(Wire(entries[i])) == Some(replies[i]);
    }
  }

  /** The wire form loses nothing: the driver can tell any two entries apart. */
  lemma WireInjective(a: Entry, b: Entry)
    requires Wire(a) == Wire(b)
    ensures a == b
  {
    WireRoundTrip(a);
    WireRoundTrip(b);
  }

  // ----- the actors -----

  datatype ListError = EncodeFailed(urn: string) | ProviderError(message: string)

  /** The calling goroutine: inside inv.List until the provider returns, then waiting on done. */
  datatype Caller =
    | Listing
    | Offering(e: Entry)      // blocked on a send into entries
    | AwaitingDone
    | Returned(result: Option<ListError>)

  datatype Consumer =
    | Receiving
    | Encoding(e: Entry)
    | Replying(raw: string)
    | Failing(e: Entry)       // about to put the error into done
    | Cancelling
    | Draining
    | Finished

  /** How entries encode, and whether the provider honours closing its channel before it returns. */
  datatype Job = Job(encode: WireEntry -> Option<string>, closes: bool)

  /** `delivered` is history: every entry the consumer took off the channel. */
  datatype Stream = Stream(
    caller: Caller,
    consumer: Consumer,
    closed: bool,
    done: Option<string>,     // the urn in the error put into done
    doneClosed: bool,
    cancelled: bool,
    listError: Option<string>,
    replies: seq<string>,
    delivered: seq<Entry>)

  const INIT := Stream(Listing, Receiving, false, None, false, false, None, [], [])

  datatype Action =
    | Offer(e: Entry)
    | Abandon                 // the provider gives up a send, should it watch a context that is cancelled
    | Close
    | Return(error: Option<string>)
    | TakeDone
    | HandOver
    | Encode
    | Reply
    | PutError
    | Cancel
    | Discard
    | EndOfEntries

  predicate Enabled(job: Job, s: Stream, a: Action) {
    match a
    case Offer(_) => s.caller.Listing? && !s.closed
    case Abandon => s.caller.Offering?
    case Close => s.caller.Listing? && !s.closed && job.closes
    case Return(_) => s.caller.Listing? && (job.closes ==> s.closed)
    case TakeDone => s.caller.AwaitingDone? && (s.done.Some? || s.doneClosed)
    case HandOver => s.caller.Offering? && s.consumer.Receiving?
    case Encode => s.consumer.Encoding?
    case Reply => s.consumer.Replying?
    case PutError => s.consumer.Failing? && s.done.None?
    case Cancel => s.consumer.Cancelling?
    case Discard => s.caller.Offering? && s.consumer.Draining?
    case EndOfEntries => (s.consumer.Receiving? || s.consumer.Draining?) && s.closed
  }

  function Next(job: Job, s: Stream, a: Action): Stream
    requires Enabled(job, s, a)
  {
    match a
    case Offer(e) => s.(caller := Offering(e))
    case Abandon => s.(caller := Listing)
    case Close => s.(closed := true)
    case Return(error) => s.(caller := AwaitingDone, listError := error)
    case TakeDone =>
      s.(caller := Returned(
        if s.done.Some? then Some(EncodeFailed(s.done.value))
        else if s.listError.Some? then Some(ProviderError(s.listError.value))
        else None))
    case HandOver => s.(caller := Listing, consumer := Encoding(s.caller.e), delivered := s.delivered + [s.caller.e])
    case Encode =>
      var r := job.encode(Wire(s.consumer.e));
      s.(consumer := if r.Some? then Replying(r.value) else Failing(s.consumer.e))
    case Reply => s.(consumer := Receiving, replies := s.replies + [s.consumer.raw])
    case PutError => s.(consumer := Cancelling, done := Some(s.consumer.e.urn))
    case Cancel => s.(consumer := Draining, cancelled := true)
    case Discard => s.(caller := Listing, delivered := s.delivered + [s.caller.e])
    case EndOfEntries => s.(consumer := Finished, doneClosed := true)
  }

  /** Action i leads from state i to the next. */
  ghost predicate StepAt(job: Job, states: seq<Stream>, actions: seq<Action>, i: nat) {
    && i < |actions| && i + 1 < |states|
    && Enabled(job, states[i], actions[i]) && states[i + 1] == Next(job, states[i], actions[i])
  }

  ghost predicate IsRun(job: Job, states: seq<Stream>, actions: seq<Action>) {
    && |states| == |actions| + 1
    && states[0] == INIT
    && forall i :: 0 <= i < |actions| ==> StepAt(job, states, actions, i)
  }

  /** A run that cannot go on, unless a blocked provider gives up its send, which nothing obliges it to. */
  ghost predicate Maximal(job: Job, states: seq<Stream>, actions: seq<Action>) {
    IsRun(job, states, actions) && forall a :: Enabled(job, states[|actions|], a) ==> a.Abandon?
  }

  // ----- the sequential reference -----

  datatype Outcome = Outcome(replies: seq<string>, bad: Option<Entry>)

  /** Encode and reply one entry after the other, stopping at the first that does not encode. */
  function Reference(job: Job, entries: seq<Entry>): Outcome {
    if entries == [] then Outcome([], None)
    else
      var before, e := Reference(job, entries[..|entries| - 1]), entries[|entries| - 1];
      if before.bad.Some? then before
      else
        match job.encode(Wire(e))
        case Some(raw) => Outcome(before.replies + [raw], None)
        case None => Outcome(before.replies, Some(e))
  }

  /** Its replies are the wire images of a prefix of the entries: all of them, or up to the first bad one. */
  lemma {:induction false} ReferenceMeaning(job: Job, entries: seq<Entry>)
    ensures var r := Reference(job, entries);
            && |r.replies| <= |entries|
            && (forall i :: 0 <= i < |r.replies| ==> job.encode(Wire(entries[i])) == Some(r.replies[i]))
            && (r.bad.None? ==> |r.replies| == |entries|)
            && (r.bad.Some? ==>
                  && |r.replies| < |entries| && entries[|r.replies|] == r.bad.value
                  && job.encode(Wire(r.bad.value)).None?)
  {
    if entries == [] {
    } else {
      ReferenceMeaning(job, entries[..|entries| - 1]);
    }
  }

  lemma BadMeaning(job: Job, entries: seq<Entry>)
    ensures Reference(job, entries).bad.Some? <==> exists i :: 0 <= i < |entries| && job.encode(Wire(entries[i])).None?
  {
    var r := Reference(job, entries);
    ReferenceMeaning(job, entries);
    if r.bad.Some? {
      assert job.encode(Wire(entries[|r.replies|])).None?;
    }
  }

  lemma ReferenceSnoc(job: Job, entries: seq<Entry>, e: Entry)
    ensures Reference(job, entries + [e]) ==
      var before := Reference(job, entries);
      if before.bad.Some? then before
      else if job.encode(Wire(e)).Some? then Outcome(before.replies + [job.encode(Wire(e)).value], None)
      else Outcome(before.replies, Some(e))
  {
    assert (entries + [e])[..|entries|] == entries;
  }

  // ----- the inductive invariant -----

  /** What the consumer has made of the entries delivered so far. */
  ghost predicate Consumed(job: Job, s: Stream) {
    match s.consumer
    case Receiving => Reference(job, s.delivered) == Outcome(s.replies, None) && s.done.None?
    case Encoding(e) =>
      && s.delivered != [] && s.delivered[|s.delivered| - 1] == e && s.done.None?
      && Reference(job, s.delivered[..|s.delivered| - 1]) == Outcome(s.replies, None)
    case Replying(raw) => Reference(job, s.delivered) == Outcome(s.replies + [raw], None) && s.done.None?
    case Failing(e) => Reference(job, s.delivered) == Outcome(s.replies, Some(e)) && s.done.None?
    case _ =>
      var r := Reference(job, s.delivered);
      && r.replies == s.replies
      && (s.consumer.Finished? || r.bad.Some?)
      && s.done == if r.bad.Some? then Some(r.bad.value.urn) else None
  }

  ghost predicate Inv(job: Job, s: Stream) {
    && Consumed(job, s)
    && (s.doneClosed <==> s.consumer.Finished?)
    && (s.doneClosed ==> s.closed)
    && (s.closed ==> job.closes && !s.caller.Offering?)
    && (s.caller.AwaitingDone? || s.caller.Returned? ==> job.closes ==> s.closed)
    && (s.caller.Returned? ==>
          && (s.done.Some? || s.doneClosed)
          && s.caller.result ==
             if s.done.Some? then Some(EncodeFailed(s.done.value))
             else if s.listError.Some? then Some(ProviderError(s.listError.value))
             else None)
  }

  lemma ConsumedStep(job: Job, s: Stream, a: Action)
    requires Inv(job, s) && Enabled(job, s, a)
    ensures Consumed(job, Next(job, s, a))
  {
    match a
    case HandOver =>
      assert (s.delivered + [s.caller.e])[..|s.delivered|] == s.delivered;
    case Discard =>
      ReferenceSnoc(job, s.delivered, s.caller.e);
    case Encode =>
      var n := |s.delivered| - 1;
      assert s.delivered == s.delivered[..n] + [s.delivered[n]];
      ReferenceSnoc(job, s.delivered[..n], s.consumer.e);
    case _ =>
  }

  lemma InvStep(job: Job, s: Stream, a: Action)
    requires Inv(job, s) && Enabled(job, s, a)
    ensures Inv(job, Next(job, s, a))
  {
    ConsumedStep(job, s, a);
  }

  lemma {:induction false} RunInv(job: Job, states: seq<Stream>, actions: seq<Action>, i: nat)
    requires IsRun(job, states, actions) && i < |states|
    ensures Inv(job, states[i])
  {
    if i == 0 {
    } else {
      RunInv(job, states, actions, i - 1);
      assert StepAt(job, states, actions, i - 1);
      InvStep(job, states[i - 1], actions[i - 1]);
    }
  }

  // ----- what streamEntries promises -----

  /** What a returned listing has sent and returned, in terms of a sequential one. */
  ghost predicate Answered(job: Job, s: Stream) {
    var r := Reference(job, s.delivered);
    && s.caller.Returned?
    && s.replies == r.replies
    && |s.replies| <= |s.delivered|
    && (forall i :: 0 <= i < |s.replies| ==> Carries(job, s.replies[i], s.delivered[i]))
    && s.caller.result == (if r.bad.Some? then Some(EncodeFailed(r.bad.value.urn))
                           else if s.listError.Some? then Some(ProviderError(s.listError.value))
                           else None)
    && (s.caller.result.None? <==>
          s.listError.None? && forall i :: 0 <= i < |s.delivered| ==> job.encode(Wire(s.delivered[i])).Some?)
  }

  lemma ReturnedState(job: Job, s: Stream)
    requires Inv(job, s) && s.caller.Returned?
    ensures Answered(job, s)
  {
    BadMeaning(job, s.delivered);
    ReferenceCarries(job, s.delivered);
  }

  /**
   Once returned, the replies are those of the sequential reference on the entries delivered, an encode
   error takes precedence over the provider's, and nil means the provider returned nil and every entry
   was encoded.
   */
  lemma ReturnedResult(job: Job, states: seq<Stream>, actions: seq<Action>)
    requires IsRun(job, states, actions) && states[|actions|].caller.Returned?
    ensures Answered(job, states[|actions|])
  {
    RunInv(job, states, actions, |actions|);
    ReturnedState(job, states[|actions|]);
  }

  /** After the return the consumer can at most wind down: no step adds a reply or changes the result. */
  lemma {:induction false} NothingAfterReturn(job: Job, states: seq<Stream>, actions: seq<Action>, i: nat, j: nat)
    requires IsRun(job, states, actions) && i <= j < |states| && states[i].caller.Returned?
    ensures states[j].caller == states[i].caller && states[j].replies == states[i].replies
    decreases j - i
  {
    if i == j {
    } else {
      NothingAfterReturn(job, states, actions, i, j - 1);
      RunInv(job, states, actions, j - 1);
      assert StepAt(job, states, actions, j - 1);
      ReturnedStep(job, states[j - 1], actions[j - 1]);
    }
  }

  lemma ReturnedStep(job: Job, s: Stream, a: Action)
    requires Inv(job, s) && Enabled(job, s, a) && s.caller.Returned?
    ensures Next(job, s, a).caller == s.caller && Next(job, s, a).replies == s.replies
  {
  }

  // ----- what the provider did, read off the actions -----

  /** The entries offered in the first n actions, but those given up again. */
  function Offered(actions: seq<Action>, n: nat): seq<Entry>
    requires n <= |actions|
  {
    if n == 0 then []
    else
      var before := Offered(actions, n - 1);
      match actions[n - 1]
      case Offer(e) => before + [e]
      case Abandon => if before == [] then [] else before[..|before| - 1]
      case _ => before
  }

  function InChannel(c: Caller): seq<Entry> {
    if c.Offering? then [c.e] else []
  }

  /** Every entry offered and not given up is delivered, in order and unchanged, but for the one still offered. */
  lemma {:induction false} DeliveredAreOffered(job: Job, states: seq<Stream>, actions: seq<Action>, n: nat)
    requires IsRun(job, states, actions) && n <= |actions|
    ensures Offered(actions, n) == states[n].delivered + InChannel(states[n].caller)
  {
    if n == 0 {
    } else {
      DeliveredAreOffered(job, states, actions, n - 1);
      assert StepAt(job, states, actions, n - 1);
      OfferedStep(job, states[n - 1], actions[n - 1]);
    }
  }

  lemma OfferedStep(job: Job, s: Stream, a: Action)
    requires Enabled(job, s, a)
    ensures var s' := Next(job, s, a);
            var before, after := s.delivered + InChannel(s.caller), s'.delivered + InChannel(s'.caller);
            match a
            case Offer(e) => after == before + [e]
            case Abandon => before != [] && after == before[..|before| - 1]
            case _ => after == before
  {
  }

  /** The provider's error in the result is the one it returned. */
  lemma {:induction false} ListReturned(job: Job, states: seq<Stream>, actions: seq<Action>, n: nat) returns (k: nat)
    requires IsRun(job, states, actions) && n <= |actions|
    requires states[n].caller.AwaitingDone? || states[n].caller.Returned?
    ensures k < n && actions[k] == Return(states[n].listError)
  {
    if n == 0 {
      assert false;
    } else {
      assert StepAt(job, states, actions, n - 1);
      if actions[n - 1].Return? {
        k := n - 1;
      } else {
        k := ListReturned(job, states, actions, n - 1);
      }
    }
  }

  predicate IsConsumerAction(a: Action) {
    a.Encode? || a.Reply? || a.PutError? || a.Cancel?
  }

  /** How many steps of its own separate the consumer from its next receive. */
  function Busy(c: Consumer): nat {
    match c
    case Encoding(_) => 3
    case Failing(_) => 2
    case Replying(_) => 1
    case Cancelling => 1
    case _ => 0
  }

  lemma BusyFalls(job: Job, s: Stream, a: Action)
    requires Enabled(job, s, a) && IsConsumerAction(a)
    ensures Busy(Next(job, s, a).consumer) < Busy(s.consumer) && Next(job, s, a).caller == s.caller
  {
  }

  /** A provider blocked on a send is let go after at most three steps of the consumer alone. */
  lemma OfferAccepted(job: Job, s: Stream) returns (a: Action)
    requires Inv(job, s) && s.caller.Offering?
    ensures Enabled(job, s, a)
    ensures if Busy(s.consumer) == 0 then (a.HandOver? || a.Discard?) else IsConsumerAction(a)
  {
    match s.consumer
    case Receiving => return HandOver;
    case Draining => return Discard;
    case Encoding(_) => return Encode;
    case Replying(_) => return Reply;
    case Failing(_) => return PutError;
    case Cancelling => return Cancel;
    case Finished =>
      assert false;
  }

  /** While a provider is blocked on a send, every step but the one that frees it brings the consumer nearer. */
  lemma OfferStep(job: Job, s: Stream, a: Action)
    requires Inv(job, s) && Enabled(job, s, a) && s.caller.Offering? && Next(job, s, a).caller.Offering?
    ensures Busy(Next(job, s, a).consumer) < Busy(s.consumer)
  {
  }

  /** No run keeps a provider blocked on a send for more than three steps, draining included. */
  lemma {:induction false} OfferBound(job: Job, states: seq<Stream>, actions: seq<Action>, i: nat, j: nat)
    requires IsRun(job, states, actions) && i <= j < |states|
    requires forall k :: i <= k <= j ==> states[k].caller.Offering?
    ensures j - i <= Busy(states[i].consumer) - Busy(states[j].consumer) <= 3
    decreases j - i
  {
    if i == j {
    } else {
      OfferBound(job, states, actions, i, j - 1);
      RunInv(job, states, actions, j - 1);
      assert StepAt(job, states, actions, j - 1);
      OfferStep(job, states[j - 1], actions[j - 1]);
    }
  }

  /** Steps left once the provider has returned: the caller's receive and what the consumer still has to do. */
  function ReleaseRank(s: Stream): nat {
    (if s.caller.AwaitingDone? then 1 else 0) +
    match s.consumer
    case Encoding(_) => 4
    case Failing(_) => 3
    case Replying(_) => 2
    case Cancelling => 2
    case Receiving => 1
    case Draining => 1
    case Finished => 0
  }

  /** From the provider's return on, every step of the caller or the consumer counts. */
  lemma ReleaseStep(job: Job, s: Stream, a: Action)
    requires Enabled(job, s, a) && (s.caller.AwaitingDone? || s.caller.Returned?)
    ensures ReleaseRank(Next(job, s, a)) < ReleaseRank(s)
    ensures Next(job, s, a).caller.AwaitingDone? || Next(job, s, a).caller.Returned?
  {
  }

  /** At most five steps can follow the provider's return. */
  lemma {:induction false} ReleaseBound(job: Job, states: seq<Stream>, actions: seq<Action>, i: nat, j: nat)
    requires IsRun(job, states, actions) && i <= j < |states| && states[i].caller.AwaitingDone?
    ensures states[j].caller.AwaitingDone? || states[j].caller.Returned?
    ensures j - i <= ReleaseRank(states[i]) - ReleaseRank(states[j]) <= 5
    decreases j - i
  {
    if i == j {
    } else {
      ReleaseBound(job, states, actions, i, j - 1);
      assert StepAt(job, states, actions, j - 1);
      ReleaseStep(job, states[j - 1], actions[j - 1]);
    }
  }

  /**
   With a provider that closes its channel there is a step to make until the caller has its answer; a
   blocked send never has to be given up for that.
   */
  lemma NoDeadlock(job: Job, s: Stream) returns (a: Action)
    requires Inv(job, s) && job.closes && !s.caller.Returned?
    ensures Enabled(job, s, a) && !a.Abandon?
  {
    if s.caller.Listing? {
      return if s.closed then Return(None) else Close;
    }
    if s.caller.Offering? {
      a := OfferAccepted(job, s);
      return;
    }
    if s.done.Some? || s.doneClosed {
      return TakeDone;
    }
    match s.consumer
    case Receiving => return EndOfEntries;
    case Encoding(_) => return Encode;
    case Replying(_) => return Reply;
    case Failing(_) => return PutError;
    case _ =>
      assert false;
  }

  /** After a provider that closed its channel returns, the caller gets its answer within five steps. */
  lemma CallerReleased(job: Job, states: seq<Stream>, actions: seq<Action>, i: nat)
    requires IsRun(job, states, actions) && job.closes
    requires i < |states| && states[i].caller.AwaitingDone?
    ensures |actions| - i <= 5
    ensures Maximal(job, states, actions) ==> states[|actions|].caller.Returned?
  {
    ReleaseBound(job, states, actions, i, |actions|);
    RunInv(job, states, actions, |actions|);
    if !states[|actions|].caller.Returned? {
      var a := NoDeadlock(job, states[|actions|]);
    }
  }

  /** With a provider that closes its channel, a run that cannot go on has returned. */
  lemma ClosedChannel(job: Job, states: seq<Stream>, actions: seq<Action>)
    requires Maximal(job, states, actions) && job.closes
    ensures states[|actions|].caller.Returned?
  {
    RunInv(job, states, actions, |actions|);
    if !states[|actions|].caller.Returned? {
      var a := NoDeadlock(job, states[|actions|]);
    }
  }

  /**
   With a provider that never closes its channel, a run that cannot go on has returned exactly when some
   entry failed to encode; otherwise the caller and the consumer wait for each other for ever.
   */
  lemma UnclosedChannel(job: Job, states: seq<Stream>, actions: seq<Action>)
    requires Maximal(job, states, actions) && !job.closes
    ensures var s := states[|actions|];
            && (s.caller.Returned? <==> exists i :: 0 <= i < |s.delivered| && job.encode(Wire(s.delivered[i])).None?)
            && (!s.caller.Returned? ==> s.caller.AwaitingDone? && s.consumer.Receiving?)
  {
    var s := states[|actions|];
    RunInv(job, states, actions, |actions|);
    StuckUnclosed(job, s);
    BadMeaning(job, s.delivered);
  }

  /** Where a run with an unclosed channel can come to a halt. */
  lemma StuckUnclosed(job: Job, s: Stream)
    requires Inv(job, s) && !job.closes && forall a :: Enabled(job, s, a) ==> a.Abandon?
    ensures s.caller.Returned? || (s.caller.AwaitingDone? && s.consumer.Receiving?)
    ensures s.caller.Returned? <==> Reference(job, s.delivered).bad.Some?
  {
    if s.caller.Offering? {
      var a := OfferAccepted(job, s);
    }
    assert !Enabled(job, s, Return(None)) && !Enabled(job, s, TakeDone);
    assert !Enabled(job, s, Encode) && !Enabled(job, s, Reply);
    assert !Enabled(job, s, PutError) && !Enabled(job, s, Cancel);
  }

  // ----- every listing can happen -----

  ghost predicate Reachable(job: Job, s: Stream) {
    exists states, actions :: IsRun(job, states, actions) && states[|actions|] == s
  }

  lemma Go(job: Job, s: Stream, a: Action)
    requires Reachable(job, s) && Enabled(job, s, a)
    ensures Reachable(job, Next(job, s, a))
  {
    var states, actions :| IsRun(job, states, actions) && states[|actions|] == s;
    Extend(job, states, actions, a);
  }

  lemma Extend(job: Job, states: seq<Stream>, actions: seq<Action>, a: Action)
    requires IsRun(job, states, actions) && Enabled(job, states[|actions|], a)
    ensures var next := Next(job, states[|actions|], a);
            IsRun(job, states + [next], actions + [a]) && (states + [next])[|actions + [a]|] == next
  {
    var states', actions' := states + [Next(job, states[|actions|], a)], actions + [a];
    forall i | 0 <= i < |actions'| ensures StepAt(job, states', actions', i) {
      assert i < |actions| ==> StepAt(job, states, actions, i);
    }
  }

  /** The listing with these entries delivered and dealt with, and none on its way. */
  function Between(job: Job, entries: seq<Entry>): Stream {
    var r := Reference(job, entries);
    var bad := r.bad.Some?;
    Stream(Listing, if bad then Draining else Receiving, false, if bad then Some(r.bad.value.urn) else None, false, bad,
           None, r.replies, entries)
  }

  lemma ListOne(job: Job, entries: seq<Entry>, e: Entry)
    requires Reachable(job, Between(job, entries))
    ensures Reachable(job, Between(job, entries + [e]))
  {
    var s := Between(job, entries);
    ReferenceSnoc(job, entries, e);
    Go(job, s, Offer(e));
    if s.consumer.Draining? {
      Go(job, s.(caller := Offering(e)), Discard);
    } else {
      Go(job, s.(caller := Offering(e)), HandOver);
      ConsumeOne(job, s.(consumer := Encoding(e), delivered := entries + [e]));
    }
  }

  lemma ConsumeOne(job: Job, s: Stream)
    requires Reachable(job, s) && s.consumer.Encoding? && s.done.None?
    ensures var raw := job.encode(Wire(s.consumer.e));
            Reachable(job, if raw.Some? then s.(consumer := Receiving, replies := s.replies + [raw.value])
                           else s.(consumer := Draining, done := Some(s.consumer.e.urn), cancelled := true))
  {
    var e := s.consumer.e;
    Go(job, s, Encode);
    if job.encode(Wire(e)).Some? {
      Go(job, s.(consumer := Replying(job.encode(Wire(e)).value)), Reply);
    } else {
      Go(job, s.(consumer := Failing(e)), PutError);
      Go(job, s.(consumer := Cancelling, done := Some(e.urn)), Cancel);
    }
  }

  lemma {:induction false} ListAll(job: Job, entries: seq<Entry>)
    ensures Reachable(job, Between(job, entries))
  {
    if entries == [] {
      assert IsRun(job, [INIT], []);
    } else {
      var n := |entries| - 1;
      ListAll(job, entries[..n]);
      ListOne(job, entries[..n], entries[n]);
      assert entries == entries[..n] + [entries[n]];
    }
  }

  /** Whatever a provider that closes its channel lists and returns, some run delivers all of it. */
  lemma EveryListingHappens(job: Job, entries: seq<Entry>, error: Option<string>)
    returns (states: seq<Stream>, actions: seq<Action>)
    requires job.closes
    ensures IsRun(job, states, actions)
    ensures var s := states[|actions|]; s.delivered == entries && s.listError == error && Answered(job, s)
  {
    var s := Between(job, entries);
    ListAll(job, entries);
    Go(job, s, Close);
    s := s.(closed := true);
    Go(job, s, Return(error));
    s := s.(caller := AwaitingDone, listError := error);
    Go(job, s, EndOfEntries);
    s := s.(consumer := Finished, doneClosed := true);
    Go(job, s, TakeDone);
    s := Next(job, s, TakeDone);
    states, actions :| IsRun(job, states, actions) && states[|actions|] == s;
    RunInv(job, states, actions, |actions|);
    ReturnedState(job, s);
  }
}
