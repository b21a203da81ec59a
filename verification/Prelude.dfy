/** Shared vocabulary: optional values, results, Go's uint64 and a few facts about sequences. */
module Prelude {

  datatype Option<+T> = None | Some(value: T)

  datatype Result<+T, +E> = Ok(value: T) | Err(error: E)

  const TWO_64: int := 0x1_0000_0000_0000_0000

  /** A Go uint64. */
  type u64 = x: int | 0 <= x < TWO_64

  /** What a Go conversion to uint64, or uint64 arithmetic, leaves of an exact integer. */
  function Wrap64(n: int): u64 {
    n % TWO_64
  }

  lemma WrapSmall(n: int)
    requires 0 <= n < TWO_64
    ensures Wrap64(n) == n
  {
  }

  lemma WrapShift(x: int, q: int)
    ensures Wrap64(x + q * TWO_64) == Wrap64(x)
  {
    var k := x / TWO_64;
    assert x + q * TWO_64 == (k + q) * TWO_64 + Wrap64(x);
    QuotientUnique(x + q * TWO_64, k + q, Wrap64(x));
  }

  lemma QuotientUnique(x: int, q: int, r: int)
    requires x == q * TWO_64 + r && 0 <= r < TWO_64
    ensures x / TWO_64 == q && x % TWO_64 == r
  {
  }

  /** Wrapping at every step of a sum is the same as wrapping once at the end. */
  lemma WrapAdd(a: int, b: int)
    ensures Wrap64(Wrap64(a) + b) == Wrap64(a + b)
    ensures Wrap64(a + Wrap64(b)) == Wrap64(a + b)
  {
    WrapShift(Wrap64(a) + b, a / TWO_64);
    WrapShift(a + Wrap64(b), b / TWO_64);
  }

  function Take<T>(s: seq<T>, n: nat): seq<T> {
    if |s| <= n then s else s[..n]
  }

  /** The elements of s satisfying p, in order. */
  function Filter<T>(s: seq<T>, p: T -> bool): (r: seq<T>)
    ensures |r| <= |s|
  {
    if s == [] then [] else (if p(s[0]) then [s[0]] else []) + Filter(s[1..], p)
  }

  lemma {:induction false} FilterMembers<T>(s: seq<T>, p: T -> bool, x: T)
    ensures x in Filter(s, p) <==> x in s && p(x)
  {
    if s == [] {
    } else {
      FilterMembers(s[1..], p, x);
      assert s == [s[0]] + s[1..];
    }
  }

  lemma PrefixSnoc<T>(s: seq<T>, k: nat)
    requires k < |s|
    ensures s[..k + 1] == s[..k] + [s[k]]
  {
  }

  lemma ConcatAssoc<T>(x: seq<T>, y: seq<T>, z: seq<T>)
    ensures x + (y + z) == x + y + z
  {
  }

  lemma {:induction false} FilterConcat<T>(a: seq<T>, b: seq<T>, p: T -> bool)
    ensures Filter(a + b, p) == Filter(a, p) + Filter(b, p)
  {
    if a == [] {
      assert a + b == b;
    } else {
      FilterConcat(a[1..], b, p);
      assert (a + b)[1..] == a[1..] + b;
      ConcatAssoc(if p(a[0]) then [a[0]] else [], Filter(a[1..], p), Filter(b, p));
    }
  }

  /** a is b with some elements left out. */
  ghost predicate Subsequence<T>(a: seq<T>, b: seq<T>) {
    a == [] || (b != [] && ((a[0] == b[0] && Subsequence(a[1..], b[1..])) || Subsequence(a, b[1..])))
  }

  lemma {:induction false} SubsequenceRefl<T>(a: seq<T>)
    ensures Subsequence(a, a)
  {
    if a == [] {
    } else {
      SubsequenceRefl(a[1..]);
    }
  }

  lemma {:induction false} SubsequenceMembers<T>(a: seq<T>, b: seq<T>)
    requires Subsequence(a, b)
    ensures forall x :: x in a ==> x in b
  {
    if a == [] {
    } else {
      if a[0] == b[0] && Subsequence(a[1..], b[1..]) {
        SubsequenceMembers(a[1..], b[1..]);
        assert a == [a[0]] + a[1..];
      } else {
        SubsequenceMembers(a, b[1..]);
      }
    }
  }

  lemma {:induction false} SubsequenceTake<T>(a: seq<T>, b: seq<T>, n: nat)
    requires Subsequence(a, b)
    ensures Subsequence(Take(a, n), b)
  {
    if a == [] || n == 0 {
    } else {
      if a[0] == b[0] && Subsequence(a[1..], b[1..]) {
        SubsequenceTake(a[1..], b[1..], n - 1);
        assert Take(a, n)[1..] == Take(a[1..], n - 1);
      } else {
        SubsequenceTake(a, b[1..], n);
      }
    }
  }

  lemma {:induction false} SubsequenceFilter<T>(a: seq<T>, b: seq<T>, p: T -> bool)
    requires Subsequence(a, b)
    ensures Subsequence(Filter(a, p), Filter(b, p))
  {
    if a == [] {
    } else {
      if a[0] == b[0] && Subsequence(a[1..], b[1..]) {
        SubsequenceFilter(a[1..], b[1..], p);
        SubsequenceConcat(if p(a[0]) then [a[0]] else [], if p(a[0]) then [a[0]] else [], Filter(a[1..], p),
                          Filter(b[1..], p));
      } else {
        SubsequenceFilter(a, b[1..], p);
        SubsequenceConcat([], if p(b[0]) then [b[0]] else [], Filter(a, p), Filter(b[1..], p));
        assert [] + Filter(a, p) == Filter(a, p);
      }
    }
  }

  lemma {:induction false} SubsequenceConcat<T>(a: seq<T>, b: seq<T>, c: seq<T>, d: seq<T>)
    requires Subsequence(a, b) && Subsequence(c, d)
    ensures Subsequence(a + c, b + d)
  {
    if b == [] {
      assert a + c == c && b + d == d;
    } else {
      assert (b + d)[1..] == b[1..] + d;
      if a != [] && a[0] == b[0] && Subsequence(a[1..], b[1..]) {
        SubsequenceConcat(a[1..], b[1..], c, d);
        assert (a + c)[1..] == a[1..] + c;
      } else {
        SubsequenceConcat(a, b[1..], c, d);
      }
    }
  }
}
