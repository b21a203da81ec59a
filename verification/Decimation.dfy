/**
 The self-decimating series behind the three samplers: its online step function and its offline
 closed form, for an arbitrary cap.
 */
module Decimation {
  import opened Prelude

  datatype Series<T> = Series(samples: seq<T>, stride: int, tick: int)

  function Empty<T>(): Series<T> {
    Series([], 1, 0)
  }

  /** Elements 0, 2, 4, ... */
  function EveryOther<T>(s: seq<T>): (r: seq<T>)
    ensures |r| == (|s| + 1) / 2
    ensures forall i :: 0 <= i < |r| ==> r[i] == s[2 * i]
  {
    seq((|s| + 1) / 2, i requires 0 <= i < (|s| + 1) / 2 => s[2 * i])
  }

  /** Append one sample; over the cap, keep every other one and double the stride. */
  function Push<T>(s: Series<T>, x: T, cap: nat): Series<T> {
    var grown := s.samples + [x];
    if |grown| > cap then s.(samples := EveryOther(grown), stride := 2 * s.stride) else s.(samples := grown)
  }

  /** One admitted input: only every stride-th one is stored. */
  function Admit<T>(s: Series<T>, x: T, cap: nat): Series<T> {
    if s.tick + 1 < s.stride then s.(tick := s.tick + 1) else Push(s.(tick := 0), x, cap)
  }

  function AdmitAll<T>(inputs: seq<T>, cap: nat): Series<T> {
    if inputs == [] then Empty()
    else Admit(AdmitAll(inputs[..|inputs| - 1], cap), inputs[|inputs| - 1], cap)
  }

  // ----- the offline closed form -----

  function CeilDiv(n: nat, s: nat): (q: nat)
    requires s >= 1
  {
    (n + s - 1) / s
  }

  function Pow2(k: nat): (p: nat)
    ensures p >= 1
  {
    if k == 0 then 1 else 2 * Pow2(k - 1)
  }

  /** s is the least power of two that brings n inputs under the cap. */
  ghost predicate IsLeastStride(s: int, n: nat, cap: nat) {
    && (exists k: nat :: s == Pow2(k))
    && CeilDiv(n, s) <= cap
    && forall k: nat :: Pow2(k) < s ==> CeilDiv(n, Pow2(k)) > cap
  }

  /** Inputs 0, s, 2s, ... */
  ghost predicate IsGrid<T>(samples: seq<T>, inputs: seq<T>, s: int) {
    && s >= 1
    && |samples| == CeilDiv(|inputs|, s)
    && forall i :: 0 <= i < |samples| ==> 0 <= i * s < |inputs| && samples[i] == inputs[i * s]
  }

  // ----- the inductive invariant of the online form -----

  ghost predicate OnGrid<T>(inputs: seq<T>, s: Series<T>, cap: nat, halvings: nat) {
    && 1 <= |s.samples| <= cap
    && s.stride == Pow2(halvings)
    && 0 <= s.tick < s.stride
    && |inputs| == (|s.samples| - 1) * s.stride + 1 + s.tick
    && (forall i :: 0 <= i < |s.samples| ==> 0 <= i * s.stride < |inputs| && s.samples[i] == inputs[i * s.stride])
    && (halvings > 0 ==> 2 * |s.samples| > cap)
  }

  /** How many times the series was thinned. */
  function Halvings<T>(inputs: seq<T>, cap: nat): nat {
    if inputs == [] then 0
    else
      var before := inputs[..|inputs| - 1];
      Halvings(before, cap) + if AdmitAll(inputs, cap).stride == AdmitAll(before, cap).stride then 0 else 1
  }

  lemma MulStep(len: int, s: int)
    ensures (len - 1) * s + s == len * s
  {
  }

  /** Between two stored inputs only the tick moves. */
  lemma SkipKeepsGrid<T>(inputs: seq<T>, s: Series<T>, x: T, cap: nat, h: nat)
    requires OnGrid(inputs, s, cap, h) && s.tick + 1 < s.stride
    ensures OnGrid(inputs + [x], Admit(s, x, cap), cap, h)
  {
  }

  /** A stored input lands on the grid while there is room. */
  lemma AppendKeepsGrid<T>(inputs: seq<T>, s: Series<T>, x: T, cap: nat, h: nat)
    requires OnGrid(inputs, s, cap, h) && s.tick + 1 >= s.stride && |s.samples| < cap
    ensures OnGrid(inputs + [x], Admit(s, x, cap), cap, h)
  {
    MulStep(|s.samples|, s.stride);
    var r := Admit(s, x, cap);
    forall i | 0 <= i < |r.samples|
      ensures 0 <= i * r.stride < |inputs + [x]| && r.samples[i] == (inputs + [x])[i * r.stride]
    {
      if i == |s.samples| {
        assert i * r.stride == |inputs|;
      } else {
        assert s.samples[i] == inputs[i * s.stride];
      }
    }
  }

  /** Overflowing an even cap drops to odd positions only: the newest sample survives, on the doubled grid. */
  lemma OverflowKeepsGrid<T>(inputs: seq<T>, s: Series<T>, x: T, cap: nat, h: nat)
    requires cap >= 2 && cap % 2 == 0
    requires OnGrid(inputs, s, cap, h) && s.tick + 1 >= s.stride && |s.samples| == cap
    ensures OnGrid(inputs + [x], Admit(s, x, cap), cap, h + 1)
  {
    var r := Admit(s, x, cap);
    var grown := s.samples + [x];
    MulStep(cap, s.stride);
    assert |inputs| == cap * s.stride;
    assert r.samples == EveryOther(grown) && |r.samples| == cap / 2 + 1;
    HalfGrid(cap, s.stride);
    forall i | 0 <= i < |r.samples|
      ensures 0 <= i * r.stride < |inputs + [x]| && r.samples[i] == (inputs + [x])[i * r.stride]
    {
      DoubleIndex(i, s.stride);
      if 2 * i == cap {
        assert grown[2 * i] == x;
      } else {
        assert grown[2 * i] == s.samples[2 * i] == inputs[2 * i * s.stride];
      }
    }
  }

  lemma DoubleIndex(i: int, s: int)
    ensures i * (2 * s) == (2 * i) * s
  {
  }

  lemma HalfGrid(cap: int, s: int)
    requires cap % 2 == 0
    ensures (cap / 2) * (2 * s) == cap * s
  {
    DoubleIndex(cap / 2, s);
  }

  /** After any n >= 1 inputs, for every even cap. */
  lemma {:induction false} AlwaysOnGrid<T>(inputs: seq<T>, cap: nat)
    requires cap >= 2 && cap % 2 == 0 && inputs != []
    ensures OnGrid(inputs, AdmitAll(inputs, cap), cap, Halvings(inputs, cap))
  {
    var before, x := inputs[..|inputs| - 1], inputs[|inputs| - 1];
    var s := AdmitAll(before, cap);
    assert inputs == before + [x];
    if before == [] {
      assert AdmitAll(inputs, cap) == Series([x], 1, 0);
    } else {
      AlwaysOnGrid(before, cap);
      var h := Halvings(before, cap);
      if s.tick + 1 < s.stride {
        SkipKeepsGrid(before, s, x, cap, h);
      } else if |s.samples| < cap {
        AppendKeepsGrid(before, s, x, cap, h);
      } else {
        OverflowKeepsGrid(before, s, x, cap, h);
      }
    }
  }

  // ----- online equals offline -----

  /** n - 1 = (len - 1) * s + tick pins down how many grid points n inputs have. */
  lemma CeilDivOf(n: nat, len: nat, s: nat, tick: nat)
    requires len >= 1 && tick < s && n == (len - 1) * s + 1 + tick
    ensures CeilDiv(n, s) == len
  {
    assert n + s - 1 == len * s + tick by {
      MulStep(len, s);
    }
    QuotientIs(n + s - 1, len, s, tick);
  }

  lemma QuotientIs(x: int, q: int, s: int, r: int)
    requires s >= 1 && x == q * s + r && 0 <= r < s
    ensures x / s == q
  {
    var q' := x / s;
    assert x == q' * s + x % s;
    assert (q - q') * s == x % s - r;
    assert (q' - q) * s == r - x % s;
    if q - q' >= 1 {
      MulAtLeast(q - q', s);
    } else if q' - q >= 1 {
      MulAtLeast(q' - q, s);
    }
  }

  lemma MulAtLeast(k: int, s: int)
    requires k >= 1 && s >= 0
    ensures k * s >= s
  {
    assert k * s == (k - 1) * s + s;
    assert (k - 1) * s >= 0;
  }

  /** More than cap full strides fit: a smaller stride would overflow. */
  lemma TooManyPoints(n: int, p: int, cap: nat)
    requires p >= 1 && n > cap * p
    ensures n + p - 1 >= 0 && CeilDiv(n, p) > cap
  {
    assert n + p - 1 >= (cap + 1) * p by {
      MulStep(cap + 1, p);
    }
    var q := (n + p - 1) / p;
    var r := (n + p - 1) % p;
    assert n + p - 1 == q * p + r;
    assert (cap + 1) * p == cap * p + p;
    if q <= cap {
      MulMono(q, cap, p);
    }
  }

  lemma MulMono(a: int, b: int, p: int)
    requires a <= b && p >= 0
    ensures a * p <= b * p
  {
    assert b * p == a * p + (b - a) * p;
    assert (b - a) * p >= 0;
  }

  lemma {:induction false} Pow2Mono(j: nat, k: nat)
    requires j <= k
    ensures Pow2(j) <= Pow2(k)
    ensures j < k ==> 2 * Pow2(j) <= Pow2(k)
  {
    if j == k {
    } else {
      Pow2Mono(j, k - 1);
    }
  }

  /** An invariant state is the offline state. */
  lemma OnGridIsOffline<T>(inputs: seq<T>, s: Series<T>, cap: nat, h: nat)
    requires OnGrid(inputs, s, cap, h) && cap % 2 == 0
    ensures IsGrid(s.samples, inputs, s.stride)
    ensures IsLeastStride(s.stride, |inputs|, cap)
  {
    CeilDivOf(|inputs|, |s.samples|, s.stride, s.tick);
    forall k: nat | Pow2(k) < s.stride
      ensures CeilDiv(|inputs|, Pow2(k)) > cap
    {
      HalfStrideOverflows(|inputs|, |s.samples|, s.tick, k, h, cap);
    }
  }

  /**
   The stateful series is the offline formula: inputs 0, s, 2s, ... for the least power of two s that
   fits the cap; and it was thinned log2(s) times.
   */
  lemma OnlineIsOffline<T>(inputs: seq<T>, cap: nat)
    requires cap >= 2 && cap % 2 == 0 && inputs != []
    ensures var s := AdmitAll(inputs, cap);
            && IsGrid(s.samples, inputs, s.stride)
            && IsLeastStride(s.stride, |inputs|, cap)
            && s.stride == Pow2(Halvings(inputs, cap))
  {
    AlwaysOnGrid(inputs, cap);
    OnGridIsOffline(inputs, AdmitAll(inputs, cap), cap, Halvings(inputs, cap));
  }

  lemma ManyStrides(n: int, len: int, stride: int, tick: nat, p: int, cap: nat)
    requires n == (len - 1) * stride + 1 + tick && len >= 1
    requires 2 * (len - 1) >= cap && stride >= 2 * p >= 2
    ensures n > cap * p
  {
    MulMono(2 * p, stride, len - 1);
    assert stride * (len - 1) == (len - 1) * stride;
    assert (2 * p) * (len - 1) == 2 * (len - 1) * p;
    MulMono(cap, 2 * (len - 1), p);
  }

  /** With more than half the cap in use, any smaller power of two would keep too many inputs. */
  lemma HalfStrideOverflows(n: nat, len: nat, tick: nat, k: nat, h: nat, cap: nat)
    requires n == (len - 1) * Pow2(h) + 1 + tick && len >= 1
    requires h > 0 ==> 2 * len > cap && cap % 2 == 0
    requires Pow2(k) < Pow2(h)
    ensures CeilDiv(n, Pow2(k)) > cap
  {
    var p := Pow2(k);
    if k >= h {
      Pow2Mono(h, k);
    } else {
      Pow2Mono(k, h);
      ManyStrides(n, len, Pow2(h), tick, p, cap);
      TooManyPoints(n, p, cap);
    }
  }

  lemma LeastStrideUnique(s: int, t: int, n: nat, cap: nat)
    requires IsLeastStride(s, n, cap) && IsLeastStride(t, n, cap)
    ensures s == t
  {
    var j: nat :| s == Pow2(j);
    var k: nat :| t == Pow2(k);
    assert !(Pow2(j) < t);
    assert !(Pow2(k) < s);
  }

  /** The offline formula has one answer, so it is a definition and not just a property. */
  lemma OfflineUnique<T>(a: seq<T>, b: seq<T>, inputs: seq<T>, s: int, t: int, cap: nat)
    requires IsGrid(a, inputs, s) && IsLeastStride(s, |inputs|, cap)
    requires IsGrid(b, inputs, t) && IsLeastStride(t, |inputs|, cap)
    ensures s == t && a == b
  {
    LeastStrideUnique(s, t, |inputs|, cap);
  }

  /** Bounds in every reachable state. */
  lemma Bounds<T>(inputs: seq<T>, cap: nat)
    requires cap >= 2 && cap % 2 == 0 && inputs != []
    ensures var s := AdmitAll(inputs, cap);
            && 1 <= |s.samples| <= cap
            && s.samples[0] == inputs[0]
            && (s.stride > 1 ==> |s.samples| >= cap / 2 + 1 && cap / 2 * s.stride < |inputs|)
            && 0 <= |inputs| - 1 - (|s.samples| - 1) * s.stride < s.stride
  {
    AlwaysOnGrid(inputs, cap);
    GridBounds(inputs, AdmitAll(inputs, cap), cap, Halvings(inputs, cap));
  }

  lemma GridBounds<T>(inputs: seq<T>, s: Series<T>, cap: nat, h: nat)
    requires OnGrid(inputs, s, cap, h) && cap % 2 == 0
    ensures s.samples[0] == inputs[0]
    ensures s.stride > 1 ==> |s.samples| >= cap / 2 + 1 && cap / 2 * s.stride < |inputs|
    ensures 0 <= |inputs| - 1 - (|s.samples| - 1) * s.stride < s.stride
  {
    assert s.samples[0] == inputs[0 * s.stride];
    if s.stride > 1 {
      assert h > 0;
      MulMono(cap / 2, |s.samples| - 1, s.stride);
    }
  }

  /** Two series fed the same number of inputs store the same positions of them. */
  lemma SameGrid<A, B>(a: seq<A>, b: seq<B>, cap: nat)
    requires cap >= 2 && cap % 2 == 0 && |a| == |b| && a != []
    ensures var s, t := AdmitAll(a, cap), AdmitAll(b, cap);
            && s.stride == t.stride >= 1 && |s.samples| == |t.samples|
            && forall i :: 0 <= i < |s.samples| ==>
                 0 <= i * s.stride < |a| && s.samples[i] == a[i * s.stride] && t.samples[i] == b[i * s.stride]
  {
    OnlineIsOffline(a, cap);
    OnlineIsOffline(b, cap);
    var s, t := AdmitAll(a, cap), AdmitAll(b, cap);
    LeastStrideUnique(s.stride, t.stride, |a|, cap);
  }

  // ----- an even cap is what makes it work -----

  /** Up to the cap nothing is thinned. */
  lemma {:induction false} BelowCap<T>(inputs: seq<T>, cap: nat)
    requires |inputs| <= cap
    ensures AdmitAll(inputs, cap) == Series(inputs, 1, 0)
  {
    if inputs == [] {
    } else {
      BelowCap(inputs[..|inputs| - 1], cap);
    }
  }

  /** On an odd cap the grid is lost three inputs after the cap: the newest sample is an odd position. */
  lemma OddCapLosesGrid(cap: nat)
    requires cap >= 3 && cap % 2 == 1
    ensures var inputs := seq(cap + 3, i => i);
            var s := AdmitAll(inputs, cap);
            s.stride == 2 && s.samples != [] && s.samples[|s.samples| - 1] == cap + 2 && !IsGrid(s.samples, inputs, 2)
  {
    var inputs := seq(cap + 3, i => i);
    BelowCap(inputs[..cap], cap);
    var a1, a2 := inputs[..cap + 1], inputs[..cap + 2];
    assert a1[..cap] == inputs[..cap] && a2[..cap + 1] == a1 && inputs[..cap + 2] == a2;
    var grown := inputs[..cap] + [a1[cap]];
    assert AdmitAll(a1, cap) == Series(EveryOther(grown), 2, 0);
    assert AdmitAll(a2, cap) == Series(EveryOther(grown), 2, 1);
    var kept := EveryOther(grown) + [inputs[cap + 2]];
    assert |kept| == (cap + 3) / 2 <= cap;
    assert AdmitAll(inputs, cap) == Series(kept, 2, 0);
    assert kept[|kept| - 1] == cap + 2;
    assert inputs[(|kept| - 1) * 2] == cap + 1;
  }

  ghost predicate ClosedFormHolds(cap: nat) {
    forall inputs: seq<int> :: inputs != [] ==>
      IsGrid(AdmitAll(inputs, cap).samples, inputs, AdmitAll(inputs, cap).stride)
  }

  /** Of all caps from 2 up, exactly the even ones keep the series on its grid. */
  lemma ClosedFormIffEven(cap: nat)
    requires cap >= 2
    ensures ClosedFormHolds(cap) <==> cap % 2 == 0
  {
    if cap % 2 == 0 {
      forall inputs: seq<int> | inputs != []
        ensures IsGrid(AdmitAll(inputs, cap).samples, inputs, AdmitAll(inputs, cap).stride)
      {
        OnlineIsOffline(inputs, cap);
      }
    } else {
      OddCapLosesGrid(cap);
    }
  }
}
