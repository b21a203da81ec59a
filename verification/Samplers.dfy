/** The resource, network and latency samplers, and the state sampler that feeds all three. */
module Samplers {
  import opened Prelude
  import opened Decimation
  import opened EventFold
  import opened EventLaws

  const MAX_SAMPLES := 120

  datatype ResourceSample = ResourceSample(at: int, cpuPercent: real, memoryBytes: u64)

  datatype NetworkSample = NetworkSample(at: int, readBps: real, writeBps: real)

  datatype LatencySample = LatencySample(at: int, latency: Latency)

  const NO_DIR := IODir(0, 0.0, 0.0, NO_LATENCY)

  /** Go's read of a missing map key: the zero value. */
  function ScopeStats(io: map<string, IOScope>, scope: string): IOScope {
    if scope in io then io[scope] else IOScope(NO_DIR, NO_DIR)
  }

  /** The scopes counting as read and as write for an operation. */
  function NetworkScopes(op: string): (string, string) {
    match op
    case "backup" => ("source", "storage")
    case "restore" => ("storage", "destination")
    case "check" => ("storage", "")
    case "sync" => ("source-storage", "storage")
    case _ => ("", "")
  }

  function LatencyScope(op: string): string {
    if op == "backup" || op == "sync" then "storage" else ""
  }

  /** What one emission reads: the process (which may fail), the folded IO and three clock readings. */
  datatype Tick = Tick(cpu: Option<real>, rss: Option<u64>, io: map<string, IOScope>, at: (int, int, int))

  /** What each sampler makes of it: a sample, or nothing to admit. */
  function ResourceInput(): Tick -> Option<ResourceSample> {
    (t: Tick) =>
      if t.cpu.None? then None
      else Some(ResourceSample(t.at.0, t.cpu.value, if t.rss.Some? then t.rss.value else 0))
  }

  function NetworkInput(read: string, write: string): Tick -> Option<NetworkSample> {
    (t: Tick) =>
      if read == "" && write == "" then None
      else Some(NetworkSample(t.at.1,
                              if read == "" then 0.0 else ScopeStats(t.io, read).read.overallWall,
                              if write == "" then 0.0 else ScopeStats(t.io, write).write.overall))
  }

  function LatencyInput(scope: string): Tick -> Option<LatencySample> {
    (t: Tick) =>
      var latency := ScopeStats(t.io, scope).write.latency;
      if scope == "" || latency.count == 0 then None else Some(LatencySample(t.at.2, latency))
  }

  function AdmitOption<T>(s: Series<T>, x: Option<T>): Series<T> {
    if x.Some? then Admit(s, x.value, MAX_SAMPLES) else s
  }

  /** The thinning loop. */
  method Decimated<T>(samples: seq<T>) returns (kept: seq<T>)
    ensures kept == EveryOther(samples)
  {
    kept := [];
    var i := 0;
    while i < |samples|
      invariant i == 2 * |kept| <= |samples| + 1
      invariant forall j :: 0 <= j < |kept| ==> kept[j] == samples[2 * j]
    {
      kept := kept + [samples[i]];
      i := i + 2;
    }
  }

  class ResourceSampler {
    var samples: seq<ResourceSample>
    var stride: int
    var tick: int

    function Model(): Series<ResourceSample>
      reads this
    {
      Series(samples, stride, tick)
    }

    constructor ()
      ensures Model() == Empty()
    {
      samples, stride, tick := [], 1, 0;
    }

    method Sample(t: Tick)
      modifies this
      ensures Model() == AdmitOption(old(Model()), ResourceInput()(t))
    {
      if t.cpu.None? {
        return;
      }
      var rss: u64 := 0;
      if t.rss.Some? {
        rss := t.rss.value;
      }
      Record(ResourceSample(t.at.0, t.cpu.value, rss));
    }

    method Record(s: ResourceSample)
      modifies this
      ensures Model() == Admit(old(Model()), s, MAX_SAMPLES)
    {
      tick := tick + 1;
      if tick < stride {
        return;
      }
      tick := 0;
      samples := samples + [s];
      if |samples| > MAX_SAMPLES {
        Decimate();
      }
    }

    method Decimate()
      modifies this
      ensures Model() == Series(EveryOther(old(samples)), 2 * old(stride), old(tick))
    {
      samples := Decimated(samples);
      stride := stride * 2;
    }
  }

  class NetworkSampler {
    const readScope: string
    const writeScope: string
    var samples: seq<NetworkSample>
    var stride: int
    var tick: int

    function Model(): Series<NetworkSample>
      reads this
    {
      Series(samples, stride, tick)
    }

    constructor (op: string)
      ensures (readScope, writeScope) == NetworkScopes(op) && Model() == Empty()
    {
      readScope, writeScope := NetworkScopes(op).0, NetworkScopes(op).1;
      samples, stride, tick := [], 1, 0;
    }

    method Sample(t: Tick)
      modifies this
      ensures Model() == AdmitOption(old(Model()), NetworkInput(readScope, writeScope)(t))
    {
      if readScope == "" && writeScope == "" {
        return;
      }
      var readBps, writeBps := 0.0, 0.0;
      if readScope != "" {
        readBps := ScopeStats(t.io, readScope).read.overallWall;
      }
      if writeScope != "" {
        writeBps := ScopeStats(t.io, writeScope).write.overall;
      }
      tick := tick + 1;
      if tick < stride {
        return;
      }
      tick := 0;
      Record(NetworkSample(t.at.1, readBps, writeBps));
    }

    method Record(s: NetworkSample)
      modifies this
      ensures Model() == Push(old(Model()), s, MAX_SAMPLES)
    {
      samples := samples + [s];
      if |samples| > MAX_SAMPLES {
        samples := Decimated(samples);
        stride := stride * 2;
      }
    }
  }

  class LatencySampler {
    const scope: string
    var samples: seq<LatencySample>
    var stride: int
    var tick: int

    function Model(): Series<LatencySample>
      reads this
    {
      Series(samples, stride, tick)
    }

    constructor (op: string)
      ensures scope == LatencyScope(op) && Model() == Empty()
    {
      scope := LatencyScope(op);
      samples, stride, tick := [], 1, 0;
    }

    method Sample(t: Tick)
      modifies this
      ensures Model() == AdmitOption(old(Model()), LatencyInput(scope)(t))
    {
      if scope == "" {
        return;
      }
      var latency := ScopeStats(t.io, scope).write.latency;
      if latency.count == 0 {
        return;
      }
      tick := tick + 1;
      if tick < stride {
        return;
      }
      tick := 0;
      Record(LatencySample(t.at.2, latency));
    }

    method Record(s: LatencySample)
      modifies this
      ensures Model() == Push(old(Model()), s, MAX_SAMPLES)
    {
      samples := samples + [s];
      if |samples| > MAX_SAMPLES {
        samples := Decimated(samples);
        stride := stride * 2;
      }
    }
  }

  // ----- a whole run of emissions -----

  /** The inputs a sampler admits over a run. */
  function Inputs<T>(ticks: seq<Tick>, f: Tick -> Option<T>): seq<T> {
    if ticks == [] then []
    else
      var x := f(ticks[|ticks| - 1]);
      Inputs(ticks[..|ticks| - 1], f) + if x.Some? then [x.value] else []
  }

  lemma AdmitInputs<T>(ticks: seq<Tick>, t: Tick, f: Tick -> Option<T>)
    ensures AdmitAll(Inputs(ticks + [t], f), MAX_SAMPLES) == AdmitOption(AdmitAll(Inputs(ticks, f), MAX_SAMPLES), f(t))
  {
    assert (ticks + [t])[..|ticks|] == ticks;
    var before := Inputs(ticks, f);
    if f(t).Some? {
      assert (before + [f(t).value])[..|before|] == before;
    } else {
      assert before + [] == before;
    }
  }

  datatype Emission = Emission(state: State, resources: seq<ResourceSample>, network: seq<NetworkSample>,
                               latency: seq<LatencySample>)

  /** What is sent with a state: each series thinned from all that its sampler admitted, this time included. */
  function EmissionOf(op: string, ticks: seq<Tick>, st: State): Emission {
    var (read, write) := NetworkScopes(op);
    Emission(st,
             AdmitAll(Inputs(ticks, ResourceInput()), MAX_SAMPLES).samples,
             AdmitAll(Inputs(ticks, NetworkInput(read, write)), MAX_SAMPLES).samples,
             AdmitAll(Inputs(ticks, LatencyInput(LatencyScope(op))), MAX_SAMPLES).samples)
  }

  /** The sampling goroutine's own state; `ticks` is the history of its emissions. */
  class StateSampler {
    const op: string
    const resources: ResourceSampler
    const network: NetworkSampler
    const latency: LatencySampler
    ghost var ticks: seq<Tick>

    /** Each series is the thinned form of all the inputs its sampler admitted so far. */
    ghost predicate Valid()
      reads this, resources, network, latency
    {
      && (network.readScope, network.writeScope) == NetworkScopes(op)
      && latency.scope == LatencyScope(op)
      && resources.Model() == AdmitAll(Inputs(ticks, ResourceInput()), MAX_SAMPLES)
      && network.Model() == AdmitAll(Inputs(ticks, NetworkInput(NetworkScopes(op).0, NetworkScopes(op).1)), MAX_SAMPLES)
      && latency.Model() == AdmitAll(Inputs(ticks, LatencyInput(LatencyScope(op))), MAX_SAMPLES)
    }

    constructor (op: string)
      ensures Valid() && this.op == op && ticks == []
      ensures fresh(resources) && fresh(network) && fresh(latency)
    {
      this.op := op;
      resources := new ResourceSampler();
      network := new NetworkSampler(op);
      latency := new LatencySampler(op);
      ticks := [];
    }

    /** One emission: sample everything, then snapshot the three series into the outgoing state. */
    method Emit(st: State, cpu: Option<real>, rss: Option<u64>, at: (int, int, int)) returns (out: Emission)
      requires Valid()
      modifies this, resources, network, latency
      ensures Valid() && ticks == old(ticks) + [Tick(cpu, rss, st.io, at)]
      ensures out == EmissionOf(op, ticks, st)
    {
      var t := Tick(cpu, rss, st.io, at);
      resources.Sample(t);
      network.Sample(t);
      latency.Sample(t);
      AdmitInputs(ticks, t, ResourceInput());
      AdmitInputs(ticks, t, NetworkInput(network.readScope, network.writeScope));
      AdmitInputs(ticks, t, LatencyInput(latency.scope));
      ticks := ticks + [t];
      out := Emission(st, resources.samples, network.samples, latency.samples);
    }
  }

  // ----- what the streamed series mean -----

  /** Any of the three series over a run: on its grid, bounded, and thinned no more than needed. */
  lemma SeriesShape<T>(ticks: seq<Tick>, f: Tick -> Option<T>)
    requires Inputs(ticks, f) != []
    ensures var inputs := Inputs(ticks, f);
            var s := AdmitAll(inputs, MAX_SAMPLES);
            && IsGrid(s.samples, inputs, s.stride)
            && IsLeastStride(s.stride, |inputs|, MAX_SAMPLES)
            && 1 <= |s.samples| <= 120
            && s.samples[0] == inputs[0]
            && (s.stride > 1 ==> |s.samples| >= 61 && 60 * s.stride < |inputs|)
            && 0 <= |inputs| - 1 - (|s.samples| - 1) * s.stride < s.stride
  {
    OnlineIsOffline(Inputs(ticks, f), MAX_SAMPLES);
    Bounds(Inputs(ticks, f), MAX_SAMPLES);
  }

  lemma {:induction false} AllAdmitted<T>(ticks: seq<Tick>, f: Tick -> Option<T>)
    requires forall i :: 0 <= i < |ticks| ==> f(ticks[i]).Some?
    ensures |Inputs(ticks, f)| == |ticks|
    ensures forall i :: 0 <= i < |ticks| ==> Inputs(ticks, f)[i] == f(ticks[i]).value
  {
    if ticks == [] {
    } else {
      AllAdmitted(ticks[..|ticks| - 1], f);
    }
  }

  /**
   When every process read succeeds and the operation has a network scope, the i-th resource sample and
   the i-th network sample come from the same emission.
   */
  lemma ResourceAndNetworkAligned(ticks: seq<Tick>, op: string)
    requires ticks != [] && NetworkScopes(op) != ("", "")
    requires forall i :: 0 <= i < |ticks| ==> ticks[i].cpu.Some?
    ensures var r := AdmitAll(Inputs(ticks, ResourceInput()), MAX_SAMPLES);
            var net := NetworkInput(NetworkScopes(op).0, NetworkScopes(op).1);
            var n := AdmitAll(Inputs(ticks, net), MAX_SAMPLES);
            && |r.samples| == |n.samples|
            && forall i :: 0 <= i < |r.samples| ==>
                 && 0 <= i * r.stride < |ticks|
                 && ResourceInput()(ticks[i * r.stride]) == Some(r.samples[i])
                 && net(ticks[i * r.stride]) == Some(n.samples[i])
  {
    var net := NetworkInput(NetworkScopes(op).0, NetworkScopes(op).1);
    AllAdmitted(ticks, ResourceInput());
    AllAdmitted(ticks, net);
    SameGrid(Inputs(ticks, ResourceInput()), Inputs(ticks, net), MAX_SAMPLES);
  }

  lemma {:induction false} FirstAdmitted<T>(ticks: seq<Tick>, f: Tick -> Option<T>, k: nat)
    requires k < |ticks| && f(ticks[k]).Some? && forall i :: 0 <= i < k ==> f(ticks[i]).None?
    ensures Inputs(ticks, f) != [] && f(ticks[k]) == Some(Inputs(ticks, f)[0])
  {
    var n := |ticks| - 1;
    if k < n {
      FirstAdmitted(ticks[..n], f, k);
    } else {
      NothingAdmitted(ticks[..n], f);
    }
  }

  lemma {:induction false} NothingAdmitted<T>(ticks: seq<Tick>, f: Tick -> Option<T>)
    requires forall i :: 0 <= i < |ticks| ==> f(ticks[i]).None?
    ensures Inputs(ticks, f) == []
  {
    if ticks == [] {
    } else {
      NothingAdmitted(ticks[..|ticks| - 1], f);
    }
  }

  /** A failed first read breaks the alignment: the two series then start at different emissions. */
  lemma FailedReadMisaligns(ticks: seq<Tick>, op: string, k: nat)
    requires 0 < k < |ticks| && NetworkScopes(op) != ("", "")
    requires ticks[k].cpu.Some? && forall i :: 0 <= i < k ==> ticks[i].cpu.None?
    ensures var r := AdmitAll(Inputs(ticks, ResourceInput()), MAX_SAMPLES).samples;
            var net := NetworkInput(NetworkScopes(op).0, NetworkScopes(op).1);
            var n := AdmitAll(Inputs(ticks, net), MAX_SAMPLES).samples;
            r != [] && n != [] && ResourceInput()(ticks[k]) == Some(r[0]) && net(ticks[0]) == Some(n[0])
  {
    var net := NetworkInput(NetworkScopes(op).0, NetworkScopes(op).1);
    FirstAdmitted(ticks, ResourceInput(), k);
    FirstAdmitted(ticks, net, 0);
    SeriesShape(ticks, ResourceInput());
    SeriesShape(ticks, net);
  }

  // ----- what the readings are, in terms of the trace -----

  /** The rate r is the figure of the last IO report naming the scope, and 0 without one. */
  ghost predicate Rate(r: real, trace: seq<Event>, scope: string, dir: string, key: string) {
    && (forall i: nat :: LastNaming(trace, scope, i) ==> r == Figure(trace[i], dir, key))
    && ((forall i: nat :: !LastNaming(trace, scope, i)) ==> r == 0.0)
  }

  lemma ScopeRates(trace: seq<Event>, scope: string)
    ensures var stats := ScopeStats(Fold(trace).io, scope);
            && Rate(stats.read.overallWall, trace, scope, "r", "overall_wall")
            && Rate(stats.write.overall, trace, scope, "w", "overall")
  {
    IoIsTheLast(trace, scope);
    forall i: nat | LastNaming(trace, scope, i)
      ensures ReadsDir(Fold(trace).io[scope].read, trace[i], "r")
      ensures ReadsDir(Fold(trace).io[scope].write, trace[i], "w")
    {
      ScopeIsTheLast(trace, scope, i);
    }
  }

  /** A network reading taken with the trace folded: wall-clock reads of one scope, active writes of another. */
  ghost predicate NetworkReads(x: Option<NetworkSample>, trace: seq<Event>, at: int, read: string, write: string) {
    && x.Some? && x.value.at == at
    && Rate(x.value.readBps, trace, read, "r", "overall_wall")
    && Rate(x.value.writeBps, trace, write, "w", "overall")
  }

  /** Which scopes they are, for each operation; a check writes nothing, and no other operation is measured. */
  lemma NetworkReadings(op: string, trace: seq<Event>, t: Tick)
    requires t.io == Fold(trace).io
    ensures var x := NetworkInput(NetworkScopes(op).0, NetworkScopes(op).1)(t);
            && (op == "backup" ==> NetworkReads(x, trace, t.at.1, "source", "storage"))
            && (op == "restore" ==> NetworkReads(x, trace, t.at.1, "storage", "destination"))
            && (op == "sync" ==> NetworkReads(x, trace, t.at.1, "source-storage", "storage"))
            && (op == "check" ==>
                  && x.Some? && x.value.at == t.at.1 && x.value.writeBps == 0.0
                  && Rate(x.value.readBps, trace, "storage", "r", "overall_wall"))
            && (op !in {"backup", "restore", "sync", "check"} ==> x.None?)
  {
    ScopeRates(trace, "source");
    ScopeRates(trace, "storage");
    ScopeRates(trace, "destination");
    ScopeRates(trace, "source-storage");
  }

  /** The write latency in the last IO report naming the scope. */
  ghost predicate LatencyReads(l: Latency, e: Event) {
    var m := LatencyIn(e, "w");
    && l.count == (if "count" in m && m["count"].Int64? then m["count"].i else 0)
    && l.avg == Delay(m, "avg") && l.p50 == Delay(m, "p50") && l.p95 == Delay(m, "p95") && l.max == Delay(m, "max")
  }

  /** Backups and syncs sample the write latency of the storage once it has any; no other operation does. */
  lemma LatencyReadings(op: string, trace: seq<Event>, t: Tick)
    requires t.io == Fold(trace).io
    ensures var x := LatencyInput(LatencyScope(op))(t);
            && (op != "backup" && op != "sync" ==> x.None?)
            && (x.Some? ==>
                  && x.value.at == t.at.2 && x.value.latency.count != 0
                  && exists i: nat :: LastNaming(trace, "storage", i) && LatencyReads(x.value.latency, trace[i]))
            && (op == "backup" || op == "sync" ==>
                  forall i: nat, l ::
                    LastNaming(trace, "storage", i) && LatencyReads(l, trace[i]) && l.count != 0 ==> x.Some?)
  {
    IoIsTheLast(trace, "storage");
    forall i: nat | LastNaming(trace, "storage", i)
      ensures LatencyReads(Fold(trace).io["storage"].write.latency, trace[i])
    {
      ScopeIsTheLast(trace, "storage", i);
    }
  }

  /** A resource reading is the process's own, memory counting as 0 when it cannot be read. */
  lemma ResourceReadings(t: Tick)
    ensures var x := ResourceInput()(t);
            && (x.None? <==> t.cpu.None?)
            && (x.Some? ==>
                  && x.value.at == t.at.0 && x.value.cpuPercent == t.cpu.value
                  && x.value.memoryBytes == if t.rss.Some? then t.rss.value else 0)
  {
  }

  // ----- exactly when the resource and network series stay aligned -----

  /** The emissions at which a sampler admitted an input. */
  function Admitted<T>(ticks: seq<Tick>, f: Tick -> Option<T>): seq<nat> {
    if ticks == [] then []
    else
      var n := |ticks| - 1;
      Admitted(ticks[..n], f) + if f(ticks[n]).Some? then [n] else []
  }

  /** The emissions its stored samples come from. */
  function Kept<T>(ticks: seq<Tick>, f: Tick -> Option<T>): seq<nat> {
    AdmitAll(Admitted(ticks, f), MAX_SAMPLES).samples
  }

  lemma {:induction false} AdmittedInputs<T>(ticks: seq<Tick>, f: Tick -> Option<T>)
    ensures |Admitted(ticks, f)| == |Inputs(ticks, f)|
    ensures forall i :: 0 <= i < |Admitted(ticks, f)| ==>
              Admitted(ticks, f)[i] < |ticks| && f(ticks[Admitted(ticks, f)[i]]) == Some(Inputs(ticks, f)[i])
  {
    if ticks == [] {
    } else {
      AdmittedInputs(ticks[..|ticks| - 1], f);
    }
  }

  /** The i-th stored sample is what the i-th kept emission gave. */
  lemma KeptSamples<T>(ticks: seq<Tick>, f: Tick -> Option<T>)
    ensures var samples := AdmitAll(Inputs(ticks, f), MAX_SAMPLES).samples;
            && |Kept(ticks, f)| == |samples|
            && forall i :: 0 <= i < |samples| ==>
                 Kept(ticks, f)[i] < |ticks| && f(ticks[Kept(ticks, f)[i]]) == Some(samples[i])
  {
    AdmittedInputs(ticks, f);
    if Inputs(ticks, f) != [] {
      SameGrid(Admitted(ticks, f), Inputs(ticks, f), MAX_SAMPLES);
    }
  }

  /** The resource and the network series hold samples of the very same emissions. */
  predicate Aligned(ticks: seq<Tick>, op: string) {
    Kept(ticks, ResourceInput()) == Kept(ticks, NetworkInput(NetworkScopes(op).0, NetworkScopes(op).1))
  }

  /** Every process read succeeded. */
  predicate AllRead(ticks: seq<Tick>) {
    forall i :: 0 <= i < |ticks| ==> ticks[i].cpu.Some?
  }

  lemma {:induction false} AdmittedEverywhere<T>(ticks: seq<Tick>, f: Tick -> Option<T>)
    requires forall i :: 0 <= i < |ticks| ==> f(ticks[i]).Some?
    ensures Admitted(ticks, f) == seq(|ticks|, i => i)
  {
    if ticks == [] {
    } else {
      AdmittedEverywhere(ticks[..|ticks| - 1], f);
    }
  }

  /** A failed read leaves fewer inputs admitted than emissions made, for ever; good ones after it are all admitted. */
  lemma {:induction false} AdmittedAfterFailure(ticks: seq<Tick>, more: seq<Tick>)
    requires !AllRead(ticks) && AllRead(more)
    ensures |more| <= |Admitted(ticks + more, ResourceInput())| < |ticks| + |more|
  {
    var all := ticks + more;
    if more == [] {
      assert all == ticks;
      FewerAdmitted(ticks);
    } else {
      var n := |more| - 1;
      AdmittedAfterFailure(ticks, more[..n]);
      assert all[..|all| - 1] == ticks + more[..n];
    }
  }

  lemma {:induction false} FewerAdmitted(ticks: seq<Tick>)
    ensures |Admitted(ticks, ResourceInput())| <= |ticks|
    ensures !AllRead(ticks) ==> |Admitted(ticks, ResourceInput())| < |ticks|
  {
    if ticks == [] {
    } else {
      FewerAdmitted(ticks[..|ticks| - 1]);
    }
  }

  /** How many samples n inputs leave, when s is a power of two and they fill more than half of the cap with it. */
  lemma KeptCount<T>(inputs: seq<T>, h: nat, len: nat)
    requires 61 <= len <= MAX_SAMPLES && (len - 1) * Pow2(h) < |inputs| <= len * Pow2(h)
    ensures |AdmitAll(inputs, MAX_SAMPLES).samples| == len
  {
    var s, tick := Pow2(h), |inputs| - 1 - (len - 1) * Pow2(h);
    MulStep(len, s);
    CeilDivOf(|inputs|, len, s, tick);
    forall k: nat | Pow2(k) < s
      ensures CeilDiv(|inputs|, Pow2(k)) > MAX_SAMPLES
    {
      HalfStrideOverflows(|inputs|, len, tick, k, h, MAX_SAMPLES);
    }
    OnlineIsOffline(inputs, MAX_SAMPLES);
    LeastStrideUnique(AdmitAll(inputs, MAX_SAMPLES).stride, s, |inputs|, MAX_SAMPLES);
  }

  lemma {:induction false} Pow2Grows(n: nat)
    ensures n < Pow2(n)
  {
    if n == 0 {
    } else {
      Pow2Grows(n - 1);
    }
  }

  /** A failed read always shows in the end: after enough good ones the two series differ in length. */
  lemma FailureDrifts(ticks: seq<Tick>, op: string, t: Tick) returns (more: seq<Tick>)
    requires !AllRead(ticks) && t.cpu.Some? && NetworkScopes(op) != ("", "")
    ensures AllRead(more) && |Kept(ticks + more, ResourceInput())| == 100
    ensures |Kept(ticks + more, NetworkInput(NetworkScopes(op).0, NetworkScopes(op).1))| == 101
  {
    var net, h := NetworkInput(NetworkScopes(op).0, NetworkScopes(op).1), |ticks|;
    var s := Pow2(h);
    Pow2Grows(h);
    more := seq(100 * s + 1 - |ticks|, i => t);
    var all := ticks + more;
    AdmittedAfterFailure(ticks, more);
    AdmittedEverywhere(all, net);
    KeptCount(Admitted(all, ResourceInput()), h, 100);
    KeptCount(Admitted(all, net), h, 101);
  }

  /**
   The two series stay aligned for as long as reads succeed from here on, however long that is, exactly
   when every read so far succeeded and the operation has a network scope.
   */
  lemma AlignedIff(ticks: seq<Tick>, op: string)
    ensures (forall more :: AllRead(more) ==> Aligned(ticks + more, op))
       <==> AllRead(ticks) && NetworkScopes(op) != ("", "")
  {
    var net := NetworkInput(NetworkScopes(op).0, NetworkScopes(op).1);
    var good := Tick(Some(0.0), None, map[], (0, 0, 0));
    if NetworkScopes(op) == ("", "") {
      ScopelessDiffers(ticks, good, net);
      assert AllRead([good]) && !Aligned(ticks + [good], op);
    } else if AllRead(ticks) {
      forall more | AllRead(more) ensures Aligned(ticks + more, op) {
        AdmittedEverywhere(ticks + more, ResourceInput());
        AdmittedEverywhere(ticks + more, net);
      }
    } else {
      var more := FailureDrifts(ticks, op, good);
      assert AllRead(more) && !Aligned(ticks + more, op);
    }
  }

  lemma ScopelessDiffers(ticks: seq<Tick>, t: Tick, net: Tick -> Option<NetworkSample>)
    requires t.cpu.Some? && forall u :: net(u).None?
    ensures Kept(ticks + [t], ResourceInput()) != Kept(ticks + [t], net)
  {
    var all := ticks + [t];
    assert all[..|ticks|] == ticks;
    AdmittedInputs(all, ResourceInput());
    AdmittedInputs(all, net);
    NothingAdmitted(all, net);
    SeriesShape(all, ResourceInput());
    KeptSamples(all, ResourceInput());
    KeptSamples(all, net);
  }
}
