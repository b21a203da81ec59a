/**
 The flattened string lists of a task config: a list under "key" is stored as "key.0", "key.1", ...
 and read back by probing indices until one is missing.
 */
module TaskConfig {

  type Config = map<string, string>

  /** "%d" of a natural number. */
  function Itoa(n: nat): (s: string)
    ensures s != []
    ensures forall i :: 0 <= i < |s| ==> '0' <= s[i] <= '9'
  {
    var digit := [('0' as int + n % 10) as char];
    if n < 10 then digit else Itoa(n / 10) + digit
  }

  /** "%s.%d" of a list key and an index. */
  function IndexKey(key: string, i: nat): string {
    key + "." + Itoa(i)
  }

  lemma {:induction false} ItoaInjective(m: nat, n: nat)
    requires Itoa(m) == Itoa(n)
    ensures m == n
  {
    var s := Itoa(m);
    assert s[|s| - 1] == ('0' as int + m % 10) as char == ('0' as int + n % 10) as char;
    assert m % 10 == n % 10;
    if m >= 10 {
      assert s[..|s| - 1] == Itoa(m / 10);
    }
    if n >= 10 {
      assert s[..|s| - 1] == Itoa(n / 10);
    }
    if m < 10 || n < 10 {
    } else {
      ItoaInjective(m / 10, n / 10);
    }
  }

  lemma LastDot(key: string, i: nat)
    ensures var s := IndexKey(key, i);
            s[|key|] == '.' && forall j :: |key| < j < |s| ==> s[j] != '.'
  {
    var s, digits := IndexKey(key, i), Itoa(i);
    assert forall j :: |key| < j < |s| ==> s[j] == digits[j - |key| - 1];
  }

  /** The last dot of an index key is the one before its digits, so key and index can be told apart. */
  lemma IndexKeyInjective(key1: string, i1: nat, key2: string, i2: nat)
    requires IndexKey(key1, i1) == IndexKey(key2, i2)
    ensures key1 == key2 && i1 == i2
  {
    LastDot(key1, i1);
    LastDot(key2, i2);
    assert |key1| == |key2|;
    var s := IndexKey(key1, i1);
    assert s[..|key1|] == key1 && s[..|key2|] == key2;
    assert s[|key1| + 1..] == Itoa(i1) && s[|key2| + 1..] == Itoa(i2);
    ItoaInjective(i1, i2);
  }

  /** The number a decimal text stands for. */
  function Decimal(s: string): int
    requires forall i :: 0 <= i < |s| ==> '0' <= s[i] <= '9'
  {
    if s == "" then 0 else 10 * Decimal(s[..|s| - 1]) + (s[|s| - 1] as int - '0' as int)
  }

  lemma {:induction false} ItoaDecimal(n: nat)
    ensures Decimal(Itoa(n)) == n
    ensures Itoa(n)[0] == '0' <==> n == 0
    ensures n == 0 ==> Itoa(n) == "0"
  {
    var s := Itoa(n);
    if n < 10 {
      assert s[..0] == "";
    } else {
      ItoaDecimal(n / 10);
      assert s[..|s| - 1] == Itoa(n / 10);
    }
  }

  /** The text of an index key: the list key, a dot, and the index in decimal with no leading zero. */
  lemma IndexKeyText(key: string, i: nat)
    ensures var s, digits := IndexKey(key, i), IndexKey(key, i)[|key| + 1..];
            && s[..|key| + 1] == key + "."
            && digits != ""
            && (forall j :: 0 <= j < |digits| ==> '0' <= digits[j] <= '9')
            && Decimal(digits) == i
            && (digits[0] == '0' <==> s == key + ".0")
  {
    var s := IndexKey(key, i);
    ItoaDecimal(i);
    assert s[|key| + 1..] == Itoa(i);
    assert s[..|key| + 1] == key + ".";
    if s == key + ".0" {
      assert s[|key| + 1..] == "0";
    }
  }

  /** What indexedList promises: the entries of the longest run of consecutive indices from 0. */
  ghost predicate IsMaximalRun(cfg: Config, key: string, out: seq<string>) {
    && (forall i :: 0 <= i < |out| ==> IndexKey(key, i) in cfg && cfg[IndexKey(key, i)] == out[i])
    && IndexKey(key, |out|) !in cfg
  }

  lemma MaximalRunUnique(cfg: Config, key: string, a: seq<string>, b: seq<string>)
    requires IsMaximalRun(cfg, key, a) && IsMaximalRun(cfg, key, b)
    ensures a == b
  {
    assert IndexKey(key, |a|) !in cfg && IndexKey(key, |b|) !in cfg;
    assert |a| == |b|;
  }

  ghost function FirstKeys(key: string, n: nat): set<string> {
    set i | 0 <= i < n :: IndexKey(key, i)
  }

  /** The first n keys of a list are n different keys. */
  lemma {:induction false} FirstKeysDiffer(key: string, n: nat)
    ensures |FirstKeys(key, n)| == n
  {
    if n == 0 {
    } else {
      FirstKeysDiffer(key, n - 1);
      FreshIndex(key, n - 1);
      FirstKeysNext(key, n - 1);
    }
  }

  lemma FirstKeysNext(key: string, n: nat)
    ensures FirstKeys(key, n + 1) == FirstKeys(key, n) + {IndexKey(key, n)}
  {
    forall k | k in FirstKeys(key, n + 1)
      ensures k in FirstKeys(key, n) || k == IndexKey(key, n)
    {
      var i :| 0 <= i < n + 1 && k == IndexKey(key, i);
    }
  }

  lemma FreshIndex(key: string, n: nat)
    ensures forall i :: 0 <= i < n ==> IndexKey(key, i) != IndexKey(key, n)
  {
    forall i | 0 <= i < n ensures IndexKey(key, i) != IndexKey(key, n) {
      if IndexKey(key, i) == IndexKey(key, n) {
        IndexKeyInjective(key, i, key, n);
      }
    }
  }

  lemma {:induction false} SubsetSize<T>(a: set<T>, b: set<T>)
    requires a <= b
    ensures |a| <= |b|
  {
    if a == {} {
    } else {
      var x :| x in a;
      SubsetSize(a - {x}, b - {x});
    }
  }

  /** Finding n consecutive indices takes a config of at least n entries: this bounds the open loop. */
  lemma RunFits(cfg: Config, key: string, n: nat)
    requires forall i :: 0 <= i < n ==> IndexKey(key, i) in cfg
    ensures n <= |cfg|
  {
    FirstKeysDiffer(key, n);
    SubsetSize(FirstKeys(key, n), cfg.Keys);
  }

  /** indexedList: probe key.0, key.1, ... with no bound but the first missing index. */
  method ReadIndexedList(cfg: Config, key: string) returns (out: seq<string>)
    ensures IsMaximalRun(cfg, key, out)
    ensures out == IndexedList(cfg, key)
  {
    out := [];
    var i := 0;
    RunFits(cfg, key, 0);
    while true
      invariant i == |out| <= |cfg|
      invariant forall j :: 0 <= j < i ==> IndexKey(key, j) in cfg && cfg[IndexKey(key, j)] == out[j]
      decreases |cfg| - i
    {
      if IndexKey(key, i) !in cfg {
        MaximalRunUnique(cfg, key, out, IndexedList(cfg, key));
        return;
      }
      out := out + [cfg[IndexKey(key, i)]];
      i := i + 1;
      RunFits(cfg, key, i);
    }
  }

  /** The same reader as a function, for the specifications that build on it. */
  function IndexedList(cfg: Config, key: string): (out: seq<string>)
    ensures IsMaximalRun(cfg, key, out)
  {
    IndexedListFrom(cfg, key, [])
  }

  function IndexedListFrom(cfg: Config, key: string, sofar: seq<string>): (out: seq<string>)
    requires forall i :: 0 <= i < |sofar| ==> IndexKey(key, i) in cfg && cfg[IndexKey(key, i)] == sofar[i]
    ensures IsMaximalRun(cfg, key, out)
    decreases |cfg| - |sofar|
  {
    if IndexKey(key, |sofar|) !in cfg then sofar
    else
      RunFits(cfg, key, |sofar| + 1);
      IndexedListFrom(cfg, key, sofar + [cfg[IndexKey(key, |sofar|)]])
  }

  /** Only the list's own index keys matter to a reading. */
  lemma ReadsOwnKeysOnly(a: Config, b: Config, key: string)
    requires forall i: nat :: (IndexKey(key, i) in a <==> IndexKey(key, i) in b)
    requires forall i: nat :: IndexKey(key, i) in a && IndexKey(key, i) in b ==>
               a[IndexKey(key, i)] == b[IndexKey(key, i)]
    ensures IndexedList(a, key) == IndexedList(b, key)
  {
    var xs := IndexedList(a, key);
    assert forall i :: 0 <= i < |xs| ==> IndexKey(key, i) in b;
    MaximalRunUnique(b, key, xs, IndexedList(b, key));
  }

  /** The control plane's side: store a list under contiguous indices. */
  function PutStringList(cfg: Config, key: string, xs: seq<string>): Config {
    if xs == [] then cfg
    else
      var n := |xs| - 1;
      PutStringList(cfg, key, xs[..n])[IndexKey(key, n) := xs[n]]
  }

  lemma {:induction false} PutStores(cfg: Config, key: string, xs: seq<string>, i: nat)
    requires i < |xs|
    ensures IndexKey(key, i) in PutStringList(cfg, key, xs)
    ensures PutStringList(cfg, key, xs)[IndexKey(key, i)] == xs[i]
  {
    var n := |xs| - 1;
    if i == n {
    } else {
      PutStores(cfg, key, xs[..n], i);
      if IndexKey(key, i) == IndexKey(key, n) {
        IndexKeyInjective(key, i, key, n);
      }
    }
  }

  /** A key that is not one of the stored indices is left as it was. */
  lemma {:induction false} PutKeeps(cfg: Config, key: string, xs: seq<string>, k: string)
    requires forall i :: 0 <= i < |xs| ==> k != IndexKey(key, i)
    ensures k in PutStringList(cfg, key, xs) <==> k in cfg
    ensures k in cfg ==> PutStringList(cfg, key, xs)[k] == cfg[k]
  {
    if xs == [] {
    } else {
      var n := |xs| - 1;
      PutKeeps(cfg, key, xs[..n], k);
    }
  }

  /** Storing then reading gives the list back exactly when no older entry continues it. */
  lemma RoundTrip(cfg: Config, key: string, xs: seq<string>)
    ensures IndexedList(PutStringList(cfg, key, xs), key) == xs <==> IndexKey(key, |xs|) !in cfg
  {
    var stored := PutStringList(cfg, key, xs);
    forall i | 0 <= i < |xs|
      ensures IndexKey(key, i) in stored && stored[IndexKey(key, i)] == xs[i]
    {
      PutStores(cfg, key, xs, i);
    }
    forall i | 0 <= i < |xs|
      ensures IndexKey(key, |xs|) != IndexKey(key, i)
    {
      if IndexKey(key, |xs|) == IndexKey(key, i) {
        IndexKeyInjective(key, |xs|, key, i);
      }
    }
    PutKeeps(cfg, key, xs, IndexKey(key, |xs|));
    if IndexKey(key, |xs|) !in cfg {
      MaximalRunUnique(stored, key, xs, IndexedList(stored, key));
    }
  }

  /** Storing one list never shows in another, whatever the two keys look like. */
  lemma OtherListUntouched(cfg: Config, key: string, xs: seq<string>, other: string)
    requires other != key
    ensures IndexedList(PutStringList(cfg, key, xs), other) == IndexedList(cfg, other)
  {
    forall i: nat
      ensures IndexKey(other, i) in PutStringList(cfg, key, xs) <==> IndexKey(other, i) in cfg
      ensures IndexKey(other, i) in cfg ==> PutStringList(cfg, key, xs)[IndexKey(other, i)] == cfg[IndexKey(other, i)]
    {
      forall j | 0 <= j < |xs|
        ensures IndexKey(other, i) != IndexKey(key, j)
      {
        if IndexKey(other, i) == IndexKey(key, j) {
          IndexKeyInjective(other, i, key, j);
        }
      }
      PutKeeps(cfg, key, xs, IndexKey(other, i));
    }
    ReadsOwnKeysOnly(PutStringList(cfg, key, xs), cfg, other);
  }

  /** Several lists stored into one config, one after the other. */
  function PutAll(cfg: Config, lists: seq<(string, seq<string>)>): Config {
    if lists == [] then cfg
    else
      var (key, xs) := lists[|lists| - 1];
      PutStringList(PutAll(cfg, lists[..|lists| - 1]), key, xs)
  }

  /** A key that indexes none of the stored lists is left as it was. */
  lemma {:induction false} PutAllKeeps(cfg: Config, lists: seq<(string, seq<string>)>, k: string)
    requires forall j, i :: 0 <= j < |lists| && 0 <= i ==> k != IndexKey(lists[j].0, i)
    ensures k in PutAll(cfg, lists) <==> k in cfg
    ensures k in cfg ==> PutAll(cfg, lists)[k] == cfg[k]
  {
    if lists == [] {
    } else {
      var n := |lists| - 1;
      PutAllKeeps(cfg, lists[..n], k);
      PutKeeps(PutAll(cfg, lists[..n]), lists[n].0, lists[n].1, k);
    }
  }

  /** A list stored under none of the keys reads as before. */
  lemma {:induction false} PutAllOther(cfg: Config, lists: seq<(string, seq<string>)>, other: string)
    requires forall j :: 0 <= j < |lists| ==> lists[j].0 != other
    ensures IndexedList(PutAll(cfg, lists), other) == IndexedList(cfg, other)
    ensures forall i: nat :: IndexKey(other, i) in PutAll(cfg, lists) <==> IndexKey(other, i) in cfg
  {
    forall i: nat
      ensures IndexKey(other, i) in PutAll(cfg, lists) <==> IndexKey(other, i) in cfg
      ensures IndexKey(other, i) in cfg ==> PutAll(cfg, lists)[IndexKey(other, i)] == cfg[IndexKey(other, i)]
    {
      forall j, i' | 0 <= j < |lists| && 0 <= i'
        ensures IndexKey(other, i) != IndexKey(lists[j].0, i')
      {
        if IndexKey(other, i) == IndexKey(lists[j].0, i') {
          IndexKeyInjective(other, i, lists[j].0, i');
        }
      }
      PutAllKeeps(cfg, lists, IndexKey(other, i));
    }
    ReadsOwnKeysOnly(PutAll(cfg, lists), cfg, other);
  }

  /** Any number of lists stored next to each other are all given back, if none of their keys was in use. */
  lemma {:induction false} PutAllRoundTrip(cfg: Config, lists: seq<(string, seq<string>)>, k: nat)
    requires k < |lists|
    requires forall i, j :: 0 <= i < j < |lists| ==> lists[i].0 != lists[j].0
    requires forall i: nat :: IndexKey(lists[k].0, i) !in cfg
    ensures IndexedList(PutAll(cfg, lists), lists[k].0) == lists[k].1
  {
    var n := |lists| - 1;
    var before := PutAll(cfg, lists[..n]);
    if k < n {
      PutAllRoundTrip(cfg, lists[..n], k);
      OtherListUntouched(before, lists[n].0, lists[n].1, lists[k].0);
    } else {
      PutAllOther(cfg, lists[..n], lists[n].0);
      RoundTrip(before, lists[n].0, lists[n].1);
    }
  }
}
