/** The plugin registry: plugins under a joined string key, first registration wins. */
module Registry {
  import opened Prelude

  const SECRET_PROVIDER := "secret_provider"
  const INVENTORY := "inventory"

  datatype Plugin = Plugin(name: string, version: string, type_: string, protocol: string, flags: int, exec: string,
                           args: seq<string>)

  datatype Connector = Connector(type_: string, protocols: seq<string>, executable: string, args: seq<string>,
                                 flags: int)

  datatype Manifest = Manifest(name: string, connectors: seq<Connector>)

  datatype RegistryError = PluginNotExist | PluginExist

  type Plugins = map<string, Plugin>

  // ----- keys -----

  /** The connector types keyed without their protocol. */
  predicate DropsProtocol(type_: string) {
    type_ == SECRET_PROVIDER || type_ == INVENTORY
  }

  /** The protocol a connector type is keyed by. */
  function KeyProtocol(type_: string, protocol: string): string {
    if DropsProtocol(type_) then "" else protocol
  }

  function PluginKey(name: string, version: string, type_: string, protocol: string): string {
    name + ":" + version + ":" + type_ + ":" + KeyProtocol(type_, protocol)
  }

  function KeyOf(p: Plugin): string {
    PluginKey(p.name, p.version, p.type_, p.protocol)
  }

  /** makePluginKey: writes the parts one after the other, reassigning the protocol on the way. */
  method MakePluginKey(name: string, version: string, type_: string, protocol: string) returns (b: string)
    ensures b == PluginKey(name, version, type_, protocol)
  {
    var p := protocol;
    b := name;
    b := b + ":";
    b := b + version;
    b := b + ":";
    b := b + type_;
    b := b + ":";
    if type_ == SECRET_PROVIDER || type_ == INVENTORY {
      p := "";
    }
    b := b + p;
  }

  predicate NoColon(s: string) {
    forall i :: 0 <= i < |s| ==> s[i] != ':'
  }

  /** A colon-free head is recovered from what a colon separates it from. */
  lemma HeadUnique(a: string, rest1: string, b: string, rest2: string)
    requires NoColon(a) && NoColon(b) && a + ":" + rest1 == b + ":" + rest2
    ensures a == b && rest1 == rest2
  {
    var s := a + ":" + rest1;
    assert s[|a|] == ':' && s[|b|] == ':';
    assert forall i :: 0 <= i < |a| ==> s[i] == a[i];
    assert forall i :: 0 <= i < |b| ==> s[i] == b[i];
    assert |a| == |b|;
    assert a == s[..|a|] == b;
    assert rest1 == s[|a| + 1..] == rest2;
  }

  lemma KeyShape(name: string, version: string, type_: string, protocol: string)
    ensures PluginKey(name, version, type_, protocol) ==
      name + ":" + (version + ":" + (type_ + ":" + KeyProtocol(type_, protocol)))
  {
  }

  /** Without colons in name, version and type, equal keys mean equal parts, up to the dropped protocol. */
  lemma KeyInjective(n1: string, v1: string, t1: string, p1: string, n2: string, v2: string, t2: string, p2: string)
    requires NoColon(n1) && NoColon(v1) && NoColon(t1) && NoColon(n2) && NoColon(v2) && NoColon(t2)
    ensures PluginKey(n1, v1, t1, p1) == PluginKey(n2, v2, t2, p2) <==>
            n1 == n2 && v1 == v2 && t1 == t2 && KeyProtocol(t1, p1) == KeyProtocol(t2, p2)
  {
    if PluginKey(n1, v1, t1, p1) == PluginKey(n2, v2, t2, p2) {
      KeyShape(n1, v1, t1, p1);
      KeyShape(n2, v2, t2, p2);
      var r1, r2 := t1 + ":" + KeyProtocol(t1, p1), t2 + ":" + KeyProtocol(t2, p2);
      HeadUnique(n1, v1 + ":" + r1, n2, v2 + ":" + r2);
      HeadUnique(v1, r1, v2, r2);
      HeadUnique(t1, KeyProtocol(t1, p1), t2, KeyProtocol(t2, p2));
    }
  }

  /** Two protocols of a plugin share a key exactly when they are equal or the type drops them. */
  lemma SharedKeyIff(name: string, version: string, type_: string, p1: string, p2: string)
    ensures PluginKey(name, version, type_, p1) == PluginKey(name, version, type_, p2)
       <==> p1 == p2 || type_ == "inventory" || type_ == "secret_provider"
  {
    var head := name + ":" + version + ":" + type_ + ":";
    assert PluginKey(name, version, type_, p1)[|head|..] == KeyProtocol(type_, p1);
    assert PluginKey(name, version, type_, p2)[|head|..] == KeyProtocol(type_, p2);
  }

  /** A text cut at its colons. */
  function Cells(s: string): seq<string> {
    if s == "" then [""]
    else
      var cells := Cells(s[..|s| - 1]);
      if s[|s| - 1] == ':' then cells + [""] else cells[..|cells| - 1] + [cells[|cells| - 1] + [s[|s| - 1]]]
  }

  lemma {:induction false} CellsJoin(a: string, b: string)
    requires NoColon(b)
    ensures Cells(a + ":" + b) == Cells(a) + [b]
  {
    var s := a + ":" + b;
    if b == "" {
      assert s[..|s| - 1] == a;
    } else {
      var init := b[..|b| - 1];
      CellsJoin(a, init);
      assert s[..|s| - 1] == a + ":" + init;
      assert b == init + [b[|b| - 1]];
    }
  }

  lemma {:induction false} OneCell(a: string)
    requires NoColon(a)
    ensures Cells(a) == [a]
  {
    if a == "" {
    } else {
      OneCell(a[..|a| - 1]);
      assert a == a[..|a| - 1] + [a[|a| - 1]];
    }
  }

  /** The text of a key without colons in its parts: name, version, type and kept protocol, in this order. */
  lemma KeyCells(name: string, version: string, type_: string, protocol: string)
    requires NoColon(name) && NoColon(version) && NoColon(type_) && NoColon(protocol)
    ensures Cells(PluginKey(name, version, type_, protocol)) ==
      [name, version, type_, if type_ == "inventory" || type_ == "secret_provider" then "" else protocol]
  {
    var kept := KeyProtocol(type_, protocol);
    OneCell(name);
    CellsJoin(name, version);
    CellsJoin(name + ":" + version, type_);
    CellsJoin(name + ":" + version + ":" + type_, kept);
  }

  /** Two protocol-dropping types joined by a colon, such as "inventory:inventory". */
  predicate DropsTwice(type_: string) {
    exists i :: 0 <= i < |type_| && type_[i] == ':' && DropsProtocol(type_[..i]) && DropsProtocol(type_[i + 1..])
  }

  /**
   The parts whose key can be read in one way only. No colon may stand in the name, the version or the
   protocol kept; nor in the type, except between two types that drop their protocol, where every other
   reading would have to drop a protocol that is there.
   */
  predicate Readable(name: string, version: string, type_: string, protocol: string) {
    var kept := KeyProtocol(type_, protocol);
    NoColon(name) && NoColon(version) && NoColon(kept) && (NoColon(type_) || (DropsTwice(type_) && kept != ""))
  }

  predicate SameParts(n1: string, v1: string, t1: string, p1: string, n2: string, v2: string, t2: string, p2: string) {
    n1 == n2 && v1 == v2 && t1 == t2 && KeyProtocol(t1, p1) == KeyProtocol(t2, p2)
  }

  /** Only these parts have their key. */
  ghost predicate Unambiguous(n: string, v: string, t: string, p: string) {
    forall n2, v2, t2, p2 :: PluginKey(n2, v2, t2, p2) == PluginKey(n, v, t, p) ==>
      SameParts(n2, v2, t2, p2, n, v, t, p)
  }

  /** How many colons a text holds. */
  function Colons(s: string): nat {
    multiset(s)[':']
  }

  lemma NoColonCounts(s: string)
    ensures NoColon(s) <==> Colons(s) == 0
  {
    assert ':' in s <==> ':' in multiset(s);
  }

  lemma ColonsJoin(s: string, a: string, b: string)
    requires s == a + ":" + b
    ensures Colons(s) == Colons(a) + 1 + Colons(b)
  {
    assert multiset(s) == multiset(a) + multiset(":") + multiset(b);
  }

  lemma PartsColons(key: string, n: string, v: string, t: string, kept: string)
    requires key == n + ":" + (v + ":" + (t + ":" + kept))
    ensures Colons(key) == Colons(n) + Colons(v) + Colons(t) + Colons(kept) + 3
  {
    ColonsJoin(key, n, v + ":" + (t + ":" + kept));
    ColonsJoin(v + ":" + (t + ":" + kept), v, t + ":" + kept);
    ColonsJoin(t + ":" + kept, t, kept);
  }

  /** A text with a colon, cut at its first one. */
  lemma Cut(s: string) returns (x: string, y: string)
    requires !NoColon(s)
    ensures s == x + ":" + y && NoColon(x) && Colons(s) == Colons(y) + 1
  {
    var i :| 0 <= i < |s| && s[i] == ':' && NoColon(s[..i]) by {
      FirstColon(s);
    }
    x, y := s[..i], s[i + 1..];
    CutAt(s, i);
    ColonsJoin(s, x, y);
    NoColonCounts(x);
  }

  lemma {:induction false} FirstColon(s: string)
    requires !NoColon(s)
    ensures exists i :: 0 <= i < |s| && s[i] == ':' && NoColon(s[..i])
  {
    var k :| 0 <= k < |s| && s[k] == ':';
    if NoColon(s[..k]) {
    } else {
      FirstColon(s[..k]);
      var i :| 0 <= i < k && s[..k][i] == ':' && NoColon(s[..k][..i]);
      assert s[..k][..i] == s[..i];
    }
  }

  /** A join whose head may hold a colon, read against one whose head does not. */
  lemma HeadOrCut(a: string, rest1: string, b: string, rest2: string) returns (tail: string)
    requires NoColon(b) && a + ":" + rest1 == b + ":" + rest2
    ensures if NoColon(a) then a == b && rest1 == rest2
            else a == b + ":" + tail && tail + ":" + rest1 == rest2 && Colons(a) == Colons(tail) + 1
  {
    if NoColon(a) {
      tail := "";
      HeadUnique(a, rest1, b, rest2);
    } else {
      var x, y := Cut(a);
      tail := y;
      JoinAssoc(x, tail, rest1);
      HeadUnique(x, tail + ":" + rest1, b, rest2);
    }
  }

  /** Moving a colon's neighbours from one side to the other. */
  lemma JoinAssoc(a: string, b: string, c: string)
    ensures (a + ":" + b) + ":" + c == a + ":" + (b + ":" + c)
  {
  }

  /**
   Reading a name, version, type and protocol out of n:v:a:b:kept, when one part has to take a colon
   and no protocol may follow the type a or the type b: only the type can.
   */
  lemma ReadName(n: string, v: string, a: string, b: string, kept: string, n2: string, v2: string, t2: string,
                 kept2: string)
    requires NoColon(n) && NoColon(v) && NoColon(a) && NoColon(b)
    requires kept != "" && (t2 == a || t2 == b ==> kept2 == "")
    requires Colons(n2) + Colons(v2) + Colons(t2) <= 1
    requires n2 + ":" + (v2 + ":" + (t2 + ":" + kept2)) == n + ":" + (v + ":" + (a + ":" + (b + ":" + kept)))
    ensures n2 == n && v2 == v && t2 == a + ":" + b && kept2 == kept
  {
    var tail := HeadOrCut(n2, v2 + ":" + (t2 + ":" + kept2), n, v + ":" + (a + ":" + (b + ":" + kept)));
    NoColonCounts(n2);
    if NoColon(n2) {
      ReadVersion(v, a, b, kept, v2, t2, kept2);
    } else {
      NoColonCounts(tail);
      NoColonCounts(v2);
      NoColonCounts(t2);
      ReadStraight(v, a, b, kept, tail, v2, t2, kept2);
      assert false;
    }
  }

  lemma ReadVersion(v: string, a: string, b: string, kept: string, v2: string, t2: string, kept2: string)
    requires NoColon(v) && NoColon(a) && NoColon(b)
    requires kept != "" && (t2 == a || t2 == b ==> kept2 == "")
    requires Colons(v2) + Colons(t2) <= 1
    requires v2 + ":" + (t2 + ":" + kept2) == v + ":" + (a + ":" + (b + ":" + kept))
    ensures v2 == v && t2 == a + ":" + b && kept2 == kept
  {
    var tail := HeadOrCut(v2, t2 + ":" + kept2, v, a + ":" + (b + ":" + kept));
    NoColonCounts(v2);
    if NoColon(v2) {
      ReadType(a, b, kept, t2, kept2);
    } else {
      NoColonCounts(tail);
      NoColonCounts(t2);
      HeadUnique(tail, t2 + ":" + kept2, a, b + ":" + kept);
      HeadUnique(t2, kept2, b, kept);
      assert false;
    }
  }

  lemma ReadType(a: string, b: string, kept: string, t2: string, kept2: string)
    requires NoColon(a) && NoColon(b) && (t2 == a ==> kept2 == "")
    requires Colons(t2) <= 1
    requires t2 + ":" + kept2 == a + ":" + (b + ":" + kept)
    ensures t2 == a + ":" + b && kept2 == kept
  {
    var tail := HeadOrCut(t2, kept2, a, b + ":" + kept);
    NoColonCounts(t2);
    if NoColon(t2) {
      assert false;
    } else {
      NoColonCounts(tail);
      HeadUnique(tail, kept2, b, kept);
    }
  }

  lemma ReadStraight(v: string, a: string, b: string, kept: string, v2: string, a2: string, b2: string, kept2: string)
    requires NoColon(v) && NoColon(a) && NoColon(b) && NoColon(v2) && NoColon(a2) && NoColon(b2)
    requires v2 + ":" + (a2 + ":" + (b2 + ":" + kept2)) == v + ":" + (a + ":" + (b + ":" + kept))
    ensures v2 == v && a2 == a && b2 == b && kept2 == kept
  {
    HeadUnique(v2, a2 + ":" + (b2 + ":" + kept2), v, a + ":" + (b + ":" + kept));
    HeadUnique(a2, b2 + ":" + kept2, a, b + ":" + kept);
    HeadUnique(b2, kept2, b, kept);
  }

  /** Parts without a colon but for one in the type. */
  lemma TwiceColons(n: string, v: string, a: string, b: string, kept: string)
    requires NoColon(n) && NoColon(v) && NoColon(kept) && NoColon(a) && NoColon(b)
    ensures Colons(n) + Colons(v) + Colons(a + ":" + b) + Colons(kept) == 1
  {
    ColonsJoin(a + ":" + b, a, b);
    NoColonCounts(n);
    NoColonCounts(v);
    NoColonCounts(a);
    NoColonCounts(b);
    NoColonCounts(kept);
  }

  lemma SameColons(key: string, n: string, v: string, t: string, kept: string, n2: string, v2: string, t2: string,
                   kept2: string)
    requires key == n + ":" + (v + ":" + (t + ":" + kept)) && key == n2 + ":" + (v2 + ":" + (t2 + ":" + kept2))
    ensures Colons(n2) + Colons(v2) + Colons(t2) + Colons(kept2) == Colons(n) + Colons(v) + Colons(t) + Colons(kept)
  {
    PartsColons(key, n, v, t, kept);
    PartsColons(key, n2, v2, t2, kept2);
  }

  lemma ReadableTwice(key: string, n: string, v: string, a: string, b: string, t: string, kept: string,
                      n2: string, v2: string, t2: string, kept2: string)
    requires NoColon(n) && NoColon(v) && NoColon(a) && NoColon(b) && NoColon(kept)
    requires t == a + ":" + b && kept != "" && (t2 == a || t2 == b ==> kept2 == "")
    requires key == n + ":" + (v + ":" + (t + ":" + kept)) && key == n2 + ":" + (v2 + ":" + (t2 + ":" + kept2))
    ensures n2 == n && v2 == v && t2 == t && kept2 == kept
  {
    SameColons(key, n, v, t, kept, n2, v2, t2, kept2);
    TwiceColons(n, v, a, b, kept);
    JoinAssoc(a, b, kept);
    ReadName(n, v, a, b, kept, n2, v2, t2, kept2);
  }

  lemma TwoTypes(t: string) returns (a: string, b: string)
    requires DropsTwice(t)
    ensures t == a + ":" + b && DropsProtocol(a) && DropsProtocol(b) && NoColon(a) && NoColon(b)
  {
    var i :| 0 <= i < |t| && t[i] == ':' && DropsProtocol(t[..i]) && DropsProtocol(t[i + 1..]);
    a, b := t[..i], t[i + 1..];
    CutAt(t, i);
    PlainDropping(a);
    PlainDropping(b);
  }

  lemma PlainDropping(t: string)
    requires DropsProtocol(t)
    ensures NoColon(t)
  {
  }

  lemma CutAt(s: string, i: nat)
    requires i < |s| && s[i] == ':'
    ensures s == s[..i] + ":" + s[i + 1..]
  {
  }

  lemma ReadablePlain(n: string, v: string, t: string, p: string, n2: string, v2: string, t2: string, p2: string)
    requires NoColon(n) && NoColon(v) && NoColon(t) && NoColon(KeyProtocol(t, p))
    requires PluginKey(n2, v2, t2, p2) == PluginKey(n, v, t, p)
    ensures SameParts(n2, v2, t2, p2, n, v, t, p)
  {
    KeyShape(n, v, t, p);
    KeyShape(n2, v2, t2, p2);
    SameColons(PluginKey(n2, v2, t2, p2), n, v, t, KeyProtocol(t, p), n2, v2, t2, KeyProtocol(t2, p2));
    NoColonCounts(n);
    NoColonCounts(v);
    NoColonCounts(t);
    NoColonCounts(KeyProtocol(t, p));
    NoColonCounts(n2);
    NoColonCounts(v2);
    NoColonCounts(t2);
    KeyInjective(n2, v2, t2, p2, n, v, t, p);
  }

  /** Readable parts share their key with no others. */
  lemma ReadableParts(n: string, v: string, t: string, p: string, n2: string, v2: string, t2: string, p2: string)
    requires Readable(n, v, t, p) && PluginKey(n2, v2, t2, p2) == PluginKey(n, v, t, p)
    ensures SameParts(n2, v2, t2, p2, n, v, t, p)
  {
    if NoColon(t) {
      ReadablePlain(n, v, t, p, n2, v2, t2, p2);
    } else {
      var a, b := TwoTypes(t);
      KeyShape(n, v, t, p);
      KeyShape(n2, v2, t2, p2);
      ReadableTwice(PluginKey(n, v, t, p), n, v, a, b, t, KeyProtocol(t, p), n2, v2, t2, KeyProtocol(t2, p2));
    }
  }

  /** Any part with a colon yields a second reading: other parts, with the same key. */
  lemma ColonMakesKeysClash(n: string, v: string, t: string,
                            p: string) returns (n2: string, v2: string, t2: string, p2: string)
    requires !Readable(n, v, t, p)
    ensures PluginKey(n2, v2, t2, p2) == PluginKey(n, v, t, p) && !SameParts(n2, v2, t2, p2, n, v, t, p)
  {
    var kept := KeyProtocol(t, p);
    if !NoColon(n) {
      var x, y := Cut(n);
      n2, v2, t2, p2 := x, y + ":" + v, t, p;
      NameClash(x, y, v, t, p);
    } else if !NoColon(v) {
      var x, y := Cut(v);
      n2, v2, t2, p2 := n + ":" + x, y, t, p;
      NameClash(n, x, y, t, p);
    } else if !NoColon(kept) {
      var x, y := Cut(kept);
      n2, v2, t2, p2 := n, v, t + ":" + x, y;
      ProtocolClash(n, v, t, p, x, y);
    } else {
      n2, v2, t2, p2 := TypeClash(n, v, t, p);
    }
  }

  /** The colon between name and version can be any of the colons they hold together. */
  lemma NameClash(x: string, y: string, z: string, t: string, p: string)
    ensures PluginKey(x + ":" + y, z, t, p) == PluginKey(x, y + ":" + z, t, p)
    ensures x != x + ":" + y
  {
    var rest := t + ":" + KeyProtocol(t, p);
    KeyShape(x + ":" + y, z, t, p);
    KeyShape(x, y + ":" + z, t, p);
    assert (x + ":" + y) + ":" + (z + ":" + rest) == x + ":" + ((y + ":" + z) + ":" + rest);
    assert |x| < |x + ":" + y|;
  }

  /** A colon in a protocol that is kept can be read as the one after the type. */
  lemma ProtocolClash(n: string, v: string, t: string, p: string, x: string, y: string)
    requires KeyProtocol(t, p) == x + ":" + y
    ensures PluginKey(n, v, t + ":" + x, y) == PluginKey(n, v, t, p) && t != t + ":" + x
  {
    assert (t + ":" + x)[|t|] == ':';
    KeyShape(n, v, t + ":" + x, y);
    KeyShape(n, v, t, p);
    assert (t + ":" + x) + ":" + y == t + ":" + (x + ":" + y);
  }

  /** A colon in the type can be read as the one after it, if the first half drops no protocol. */
  lemma LaterTypeClash(n: string, v: string, a: string, b: string, t: string, p: string)
    requires t == a + ":" + b && !DropsProtocol(a)
    ensures PluginKey(n, v, a, b + ":" + KeyProtocol(t, p)) == PluginKey(n, v, t, p)
  {
    KeyShape(n, v, a, b + ":" + KeyProtocol(t, p));
    KeyShape(n, v, t, p);
    JoinAssoc(a, b, KeyProtocol(t, p));
  }

  /** Or as the one before it, if the second half drops none that is there. */
  lemma EarlierTypeClash(n: string, v: string, a: string, b: string, t: string, p: string)
    requires t == a + ":" + b && (DropsProtocol(b) ==> KeyProtocol(t, p) == "")
    ensures PluginKey(n, v + ":" + a, b, KeyProtocol(t, p)) == PluginKey(n, v, t, p)
  {
    KeyShape(n, v + ":" + a, b, KeyProtocol(t, p));
    KeyShape(n, v, t, p);
    JoinAssoc(a, b, KeyProtocol(t, p));
    JoinAssoc(v, a, b + ":" + KeyProtocol(t, p));
  }

  lemma TypeClash(n: string, v: string, t: string, p: string) returns (n2: string, v2: string, t2: string, p2: string)
    requires !NoColon(t) && (!DropsTwice(t) || KeyProtocol(t, p) == "")
    ensures PluginKey(n2, v2, t2, p2) == PluginKey(n, v, t, p) && t2 != t
  {
    var a, b := Cut(t);
    if DropsProtocol(b) && KeyProtocol(t, p) != "" {
      NotTwice(t, a, b);
      n2, v2, t2, p2 := n, v, a, b + ":" + KeyProtocol(t, p);
      LaterTypeClash(n, v, a, b, t, p);
    } else {
      n2, v2, t2, p2 := n, v + ":" + a, b, KeyProtocol(t, p);
      EarlierTypeClash(n, v, a, b, t, p);
    }
    assert |t2| < |t|;
  }

  lemma NotTwice(t: string, a: string, b: string)
    requires t == a + ":" + b && !DropsTwice(t) && DropsProtocol(b)
    ensures !DropsProtocol(a)
  {
    assert t[..|a|] == a && t[|a| + 1..] == b && t[|a|] == ':';
  }

  /** Exactly the readable parts have a key of their own. */
  lemma UnambiguousIff(n: string, v: string, t: string, p: string)
    ensures Unambiguous(n, v, t, p) <==> Readable(n, v, t, p)
  {
    if Readable(n, v, t, p) {
      forall n2, v2, t2, p2 | PluginKey(n2, v2, t2, p2) == PluginKey(n, v, t, p)
        ensures SameParts(n2, v2, t2, p2, n, v, t, p)
      {
        ReadableParts(n, v, t, p, n2, v2, t2, p2);
      }
    } else {
      var n2, v2, t2, p2 := ColonMakesKeysClash(n, v, t, p);
    }
  }

  // ----- the specification on maps -----

  /** The plugins of a connector, one for each protocol, in order. */
  function OfConnector(name: string, version: string, c: Connector, exec: string, protocols: seq<string>): seq<Plugin> {
    if protocols == [] then []
    else
      OfConnector(name, version, c, exec, protocols[..|protocols| - 1])
      + [Plugin(name, version, c.type_, protocols[|protocols| - 1], c.flags, exec, c.args)]
  }

  /** The plugins of a manifest, in manifest order. */
  function OfConnectors(name: string, version: string, join: string -> string,
                        connectors: seq<Connector>): seq<Plugin> {
    if connectors == [] then []
    else
      var c := connectors[|connectors| - 1];
      OfConnectors(name, version, join, connectors[..|connectors| - 1])
      + OfConnector(name, version, c, join(c.executable), c.protocols)
  }

  function Add(reg: Plugins, p: Plugin): Plugins {
    if KeyOf(p) in reg then reg else reg[KeyOf(p) := p]
  }

  function AddAll(reg: Plugins, ps: seq<Plugin>): Plugins {
    if ps == [] then reg else Add(AddAll(reg, ps[..|ps| - 1]), ps[|ps| - 1])
  }

  function Keys(ps: seq<Plugin>): set<string> {
    if ps == [] then {} else Keys(ps[..|ps| - 1]) + {KeyOf(ps[|ps| - 1])}
  }

  function ConnectorKeys(name: string, version: string, type_: string, protocols: seq<string>): set<string> {
    if protocols == [] then {}
    else
      var last := protocols[|protocols| - 1];
      ConnectorKeys(name, version, type_, protocols[..|protocols| - 1]) + {PluginKey(name, version, type_, last)}
  }

  function ConnectorsKeys(name: string, version: string, connectors: seq<Connector>): set<string> {
    if connectors == [] then {}
    else
      var c := connectors[|connectors| - 1];
      ConnectorsKeys(name, version, connectors[..|connectors| - 1]) + ConnectorKeys(name, version, c.type_, c.protocols)
  }

  /** The keys of a manifest. */
  function ManifestKeys(m: Manifest, version: string): set<string> {
    ConnectorsKeys(m.name, version, m.connectors)
  }

  // ----- the registry -----

  class Registry {
    var plugins: Plugins

    constructor ()
      ensures plugins == map[]
    {
      plugins := map[];
    }

    method GetPlugin(name: string, version: string, type_: string,
                     protocol: string) returns (r: Result<Plugin, RegistryError>)
      ensures var key := PluginKey(name, version, type_, protocol);
              r == if key in plugins then Ok(plugins[key]) else Err(PluginNotExist)
    {
      var key := MakePluginKey(name, version, type_, protocol);
      if key !in plugins {
        return Err(PluginNotExist);
      }
      return Ok(plugins[key]);
    }

    method RegisterPlugin(p: Plugin) returns (r: Option<RegistryError>)
      modifies this
      ensures plugins == Add(old(plugins), p)
      ensures r == if KeyOf(p) in old(plugins) then Some(PluginExist) else None
    {
      var key := MakePluginKey(p.name, p.version, p.type_, p.protocol);
      if key in plugins {
        return Some(PluginExist);
      }
      plugins := plugins[key := p];
      return None;
    }

    /** Registers every connector under every protocol; a key already taken is skipped. */
    method RegisterPlugins(m: Manifest, version: string, join: string -> string)
      modifies this
      ensures plugins == AddAll(old(plugins), OfConnectors(m.name, version, join, m.connectors))
    {
      ghost var before := plugins;
      assert m.connectors[..|m.connectors|] == m.connectors;
      for i := 0 to |m.connectors|
        invariant plugins == AddAll(before, OfConnectors(m.name, version, join, m.connectors[..i]))
      {
        var c := m.connectors[i];
        ghost var done := OfConnectors(m.name, version, join, m.connectors[..i]);
        OfConnectorsNext(m.name, version, join, m.connectors, i);
        assert done + [] == done;
        for j := 0 to |c.protocols|
          invariant plugins ==
            AddAll(before, done + OfConnector(m.name, version, c, join(c.executable), c.protocols[..j]))
        {
          var p := Plugin(m.name, version, c.type_, c.protocols[j], c.flags, join(c.executable), c.args);
          AddNext(before, done, m.name, version, c, join(c.executable), j);
          var _ := RegisterPlugin(p);
        }
      }
    }

    method UnregisterPlugin(key: string) returns (r: Option<RegistryError>)
      modifies this
      ensures plugins == old(plugins) - {key}
      ensures r == if key in old(plugins) then None else Some(PluginNotExist)
    {
      if key !in plugins {
        return Some(PluginNotExist);
      }
      plugins := plugins - {key};
      return None;
    }

    /** Removes every key of the manifest, whoever registered it. */
    method UnregisterPlugins(m: Manifest, version: string)
      modifies this
      ensures plugins == old(plugins) - ManifestKeys(m, version)
    {
      ghost var before := plugins;
      assert m.connectors[..|m.connectors|] == m.connectors;
      for i := 0 to |m.connectors|
        invariant plugins == before - ConnectorsKeys(m.name, version, m.connectors[..i])
      {
        var c := m.connectors[i];
        ghost var done := ConnectorsKeys(m.name, version, m.connectors[..i]);
        ConnectorsKeysNext(m.name, version, m.connectors, i);
        for j := 0 to |c.protocols|
          invariant plugins == before - (done + ConnectorKeys(m.name, version, c.type_, c.protocols[..j]))
        {
          ConnectorKeysNext(m.name, version, c.type_, c.protocols, j);
          var key := MakePluginKey(m.name, version, c.type_, c.protocols[j]);
          var _ := UnregisterPlugin(key);
          DropMore(before, done, ConnectorKeys(m.name, version, c.type_, c.protocols[..j]), key);
        }
      }
    }
  }

  lemma ConnectorKeysNext(name: string, version: string, type_: string, protocols: seq<string>, j: nat)
    requires j < |protocols|
    ensures ConnectorKeys(name, version, type_, protocols[..j + 1])
         == ConnectorKeys(name, version, type_, protocols[..j]) + {PluginKey(name, version, type_, protocols[j])}
  {
    assert protocols[..j + 1][..j] == protocols[..j];
  }

  lemma ConnectorsKeysNext(name: string, version: string, connectors: seq<Connector>, i: nat)
    requires i < |connectors|
    ensures var c := connectors[i];
            ConnectorsKeys(name, version, connectors[..i + 1])
            == ConnectorsKeys(name, version, connectors[..i])
             + ConnectorKeys(name, version, c.type_, c.protocols[..|c.protocols|])
  {
    var c := connectors[i];
    assert connectors[..i + 1][..i] == connectors[..i];
    assert c.protocols[..|c.protocols|] == c.protocols;
  }

  lemma DropMore(reg: Plugins, done: set<string>, keys: set<string>, key: string)
    ensures reg - (done + keys) - {key} == reg - (done + (keys + {key}))
  {
    assert done + keys + {key} == done + (keys + {key});
  }

  lemma AddAllSnoc(reg: Plugins, ps: seq<Plugin>, p: Plugin)
    ensures AddAll(reg, ps + [p]) == Add(AddAll(reg, ps), p)
  {
    assert (ps + [p])[..|ps|] == ps;
  }

  lemma KeysSnoc(ps: seq<Plugin>, p: Plugin)
    ensures Keys(ps + [p]) == Keys(ps) + {KeyOf(p)}
  {
    assert (ps + [p])[..|ps|] == ps;
  }

  /** One more connector of a manifest. */
  lemma OfConnectorsNext(name: string, version: string, join: string -> string, connectors: seq<Connector>, i: nat)
    requires i < |connectors|
    ensures var c := connectors[i];
            OfConnectors(name, version, join, connectors[..i + 1])
            == OfConnectors(name, version, join, connectors[..i])
             + OfConnector(name, version, c, join(c.executable), c.protocols[..|c.protocols|])
  {
    var c := connectors[i];
    assert connectors[..i + 1][..i] == connectors[..i];
    assert c.protocols[..|c.protocols|] == c.protocols;
  }

  /** One more protocol of a connector, after the plugins done so far. */
  lemma OfConnectorNext(done: seq<Plugin>, name: string, version: string, c: Connector, exec: string, j: nat)
    requires j < |c.protocols|
    ensures done + OfConnector(name, version, c, exec, c.protocols[..j + 1])
         == done + OfConnector(name, version, c, exec, c.protocols[..j])
          + [Plugin(name, version, c.type_, c.protocols[j], c.flags, exec, c.args)]
  {
    assert c.protocols[..j + 1][..j] == c.protocols[..j];
    ConcatAssoc(done, OfConnector(name, version, c, exec, c.protocols[..j]),
                [Plugin(name, version, c.type_, c.protocols[j], c.flags, exec, c.args)]);
  }

  lemma AddNext(reg: Plugins, done: seq<Plugin>, name: string, version: string, c: Connector, exec: string, j: nat)
    requires j < |c.protocols|
    ensures AddAll(reg, done + OfConnector(name, version, c, exec, c.protocols[..j + 1]))
         == Add(AddAll(reg, done + OfConnector(name, version, c, exec, c.protocols[..j])),
                Plugin(name, version, c.type_, c.protocols[j], c.flags, exec, c.args))
  {
    OfConnectorNext(done, name, version, c, exec, j);
    AddAllSnoc(reg, done + OfConnector(name, version, c, exec, c.protocols[..j]),
               Plugin(name, version, c.type_, c.protocols[j], c.flags, exec, c.args));
  }

  // ----- the plugins of a manifest -----

  /** How many protocols the first n connectors have. */
  function ProtocolsBefore(connectors: seq<Connector>, n: nat): nat
    requires n <= |connectors|
  {
    if n == 0 then 0 else ProtocolsBefore(connectors, n - 1) + |connectors[n - 1].protocols|
  }

  /** What plugin p takes from the manifest's name, the package's version, a connector and a protocol. */
  ghost predicate MadeOf(p: Plugin, name: string, version: string, join: string -> string, c: Connector,
                         protocol: string) {
    && p.name == name && p.version == version
    && p.type_ == c.type_ && p.protocol == protocol
    && p.flags == c.flags && p.exec == join(c.executable) && p.args == c.args
  }

  lemma {:induction false} ConnectorOrder(name: string, version: string, join: string -> string, c: Connector,
                                          protocols: seq<string>)
    ensures var ps := OfConnector(name, version, c, join(c.executable), protocols);
            |ps| == |protocols| && forall j :: 0 <= j < |ps| ==> MadeOf(ps[j], name, version, join, c, protocols[j])
  {
    if protocols == [] {
    } else {
      ConnectorOrder(name, version, join, c, protocols[..|protocols| - 1]);
    }
  }

  lemma {:induction false} ProtocolsPrefix(connectors: seq<Connector>, k: nat, n: nat)
    requires n <= k <= |connectors|
    ensures ProtocolsBefore(connectors[..k], n) == ProtocolsBefore(connectors, n)
  {
    if n == 0 {
    } else {
      ProtocolsPrefix(connectors, k, n - 1);
    }
  }

  /** The plugin of protocol j of connector i, in its place in ps. */
  ghost predicate InPlace(ps: seq<Plugin>, name: string, version: string, join: string -> string,
                          connectors: seq<Connector>, i: nat, j: nat)
    requires i < |connectors| && j < |connectors[i].protocols|
  {
    var k := ProtocolsBefore(connectors, i) + j;
    k < |ps| && MadeOf(ps[k], name, version, join, connectors[i], connectors[i].protocols[j])
  }

  lemma StaysInPlace(before: seq<Plugin>, more: seq<Plugin>, name: string, version: string, join: string -> string,
                     connectors: seq<Connector>, i: nat, j: nat)
    requires i < |connectors| - 1 && j < |connectors[i].protocols|
    requires InPlace(before, name, version, join, connectors[..|connectors| - 1], i, j)
    ensures InPlace(before + more, name, version, join, connectors, i, j)
  {
    ProtocolsPrefix(connectors, |connectors| - 1, i);
  }

  lemma LastInPlace(before: seq<Plugin>, name: string, version: string, join: string -> string,
                    connectors: seq<Connector>, j: nat)
    requires connectors != [] && |before| == ProtocolsBefore(connectors, |connectors| - 1)
    requires j < |connectors[|connectors| - 1].protocols|
    ensures var c := connectors[|connectors| - 1];
            InPlace(before + OfConnector(name, version, c, join(c.executable), c.protocols), name, version, join,
                    connectors, |connectors| - 1, j)
  {
    var c := connectors[|connectors| - 1];
    ConnectorOrder(name, version, join, c, c.protocols);
  }

  /** There is one plugin for every protocol of every connector, connector after connector, and no other. */
  lemma {:induction false} ManifestOrder(name: string, version: string, join: string -> string,
                                         connectors: seq<Connector>)
    ensures var ps := OfConnectors(name, version, join, connectors);
            && |ps| == ProtocolsBefore(connectors, |connectors|)
            && forall i, j :: 0 <= i < |connectors| && 0 <= j < |connectors[i].protocols| ==>
                 InPlace(ps, name, version, join, connectors, i, j)
  {
    if connectors == [] {
    } else {
      var n := |connectors| - 1;
      var c, before := connectors[n], OfConnectors(name, version, join, connectors[..n]);
      var more := OfConnector(name, version, c, join(c.executable), c.protocols);
      ManifestOrder(name, version, join, connectors[..n]);
      ProtocolsPrefix(connectors, n, n);
      ConnectorOrder(name, version, join, c, c.protocols);
      forall i, j | 0 <= i < |connectors| && 0 <= j < |connectors[i].protocols|
        ensures InPlace(before + more, name, version, join, connectors, i, j)
      {
        if i < n {
          assert connectors[..n][i] == connectors[i];
          StaysInPlace(before, more, name, version, join, connectors, i, j);
        } else {
          LastInPlace(before, name, version, join, connectors, j);
        }
      }
    }
  }

  // ----- first registration wins -----

  /** ps[i] is the first of ps with its key. */
  ghost predicate FirstWith(ps: seq<Plugin>, key: string, i: nat) {
    i < |ps| && KeyOf(ps[i]) == key && forall j :: 0 <= j < i ==> KeyOf(ps[j]) != key
  }

  function FirstPlugin(ps: seq<Plugin>, key: string): Option<Plugin> {
    if ps == [] then None
    else
      var before, p := FirstPlugin(ps[..|ps| - 1], key), ps[|ps| - 1];
      if before.Some? then before else if KeyOf(p) == key then Some(p) else None
  }

  lemma {:induction false} FirstPluginMeaning(ps: seq<Plugin>, key: string)
    ensures match FirstPlugin(ps, key)
            case Some(p) => exists i: nat :: FirstWith(ps, key, i) && ps[i] == p
            case None => forall i :: 0 <= i < |ps| ==> KeyOf(ps[i]) != key
  {
    if ps == [] {
    } else {
      var n := |ps| - 1;
      FirstPluginMeaning(ps[..n], key);
      assert FirstPlugin(ps, key) == if FirstPlugin(ps[..n], key).Some? then FirstPlugin(ps[..n], key)
                                     else if KeyOf(ps[n]) == key then Some(ps[n]) else None;
      if FirstPlugin(ps[..n], key).Some? {
        var i: nat :| FirstWith(ps[..n], key, i) && ps[..n][i] == FirstPlugin(ps[..n], key).value;
        FirstWithStays(ps, n, key, i);
      } else {
        NoneBefore(ps, n, key);
      }
    }
  }

  lemma FirstWithStays(ps: seq<Plugin>, n: nat, key: string, i: nat)
    requires n <= |ps| && FirstWith(ps[..n], key, i)
    ensures FirstWith(ps, key, i) && ps[i] == ps[..n][i]
  {
    assert forall j :: 0 <= j < n ==> ps[..n][j] == ps[j];
  }

  lemma NoneBefore(ps: seq<Plugin>, n: nat, key: string)
    requires n < |ps| && forall i :: 0 <= i < n ==> KeyOf(ps[..n][i]) != key
    ensures forall i :: 0 <= i < n ==> KeyOf(ps[i]) != key
    ensures KeyOf(ps[n]) == key ==> FirstWith(ps, key, n)
  {
    assert forall j :: 0 <= j < n ==> ps[..n][j] == ps[j];
  }

  /** A lookup after registering finds what was there before, else the first plugin of that key, else nothing. */
  lemma {:induction false} FirstRegistrationWins(reg: Plugins, ps: seq<Plugin>, key: string)
    ensures key in AddAll(reg, ps) <==> key in reg || FirstPlugin(ps, key).Some?
    ensures key in reg ==> AddAll(reg, ps)[key] == reg[key]
    ensures key !in reg && FirstPlugin(ps, key).Some? ==> AddAll(reg, ps)[key] == FirstPlugin(ps, key).value
  {
    if ps == [] {
    } else {
      FirstRegistrationWins(reg, ps[..|ps| - 1], key);
    }
  }

  lemma {:induction false} AddAllKeys(reg: Plugins, ps: seq<Plugin>)
    ensures AddAll(reg, ps).Keys == reg.Keys + Keys(ps)
  {
    if ps == [] {
    } else {
      var before, p := ps[..|ps| - 1], ps[|ps| - 1];
      AddAllKeys(reg, before);
      KeysSnoc(before, p);
      assert ps == before + [p];
      assert Add(AddAll(reg, before), p).Keys == AddAll(reg, before).Keys + {KeyOf(p)};
    }
  }

  lemma {:induction false} AddAllKeeps(reg: Plugins, ps: seq<Plugin>)
    ensures forall k :: k in reg ==> k in AddAll(reg, ps) && AddAll(reg, ps)[k] == reg[k]
  {
    if ps == [] {
    } else {
      AddAllKeeps(reg, ps[..|ps| - 1]);
    }
  }

  /** Once a key is taken, registering under it again changes nothing. */
  lemma {:induction false} AddTaken(reg: Plugins, ps: seq<Plugin>)
    requires Keys(ps) <= reg.Keys
    ensures AddAll(reg, ps) == reg
  {
    if ps == [] {
    } else {
      var n := |ps| - 1;
      KeysSnoc(ps[..n], ps[n]);
      assert ps == ps[..n] + [ps[n]];
      AddTaken(reg, ps[..n]);
    }
  }

  /** Registering the same plugins twice is registering them once. */
  lemma RegisterIdempotent(reg: Plugins, ps: seq<Plugin>)
    ensures AddAll(AddAll(reg, ps), ps) == AddAll(reg, ps)
  {
    AddAllKeys(reg, ps);
    AddTaken(AddAll(reg, ps), ps);
  }

  lemma {:induction false} KeysConcat(a: seq<Plugin>, b: seq<Plugin>)
    ensures Keys(a + b) == Keys(a) + Keys(b)
  {
    if b == [] {
      assert a + b == a;
    } else {
      KeysConcat(a, b[..|b| - 1]);
      assert (a + b)[..|a + b| - 1] == a + b[..|b| - 1];
    }
  }

  lemma {:induction false} OfConnectorKeys(name: string, version: string, c: Connector, exec: string,
                                           protocols: seq<string>)
    ensures Keys(OfConnector(name, version, c, exec, protocols)) == ConnectorKeys(name, version, c.type_, protocols)
  {
    if protocols == [] {
    } else {
      var n := |protocols| - 1;
      OfConnectorKeys(name, version, c, exec, protocols[..n]);
      KeysSnoc(OfConnector(name, version, c, exec, protocols[..n]),
               Plugin(name, version, c.type_, protocols[n], c.flags, exec, c.args));
    }
  }

  /** The keys removed are those of the plugins registered. */
  lemma {:induction false} OfConnectorsKeys(name: string, version: string, join: string -> string,
                                            connectors: seq<Connector>)
    ensures Keys(OfConnectors(name, version, join, connectors)) == ConnectorsKeys(name, version, connectors)
  {
    if connectors == [] {
    } else {
      var n := |connectors| - 1;
      var c := connectors[n];
      OfConnectorsKeys(name, version, join, connectors[..n]);
      OfConnectorKeys(name, version, c, join(c.executable), c.protocols);
      KeysConcat(OfConnectors(name, version, join, connectors[..n]),
                 OfConnector(name, version, c, join(c.executable), c.protocols));
    }
  }

  /**
   Unregistering a manifest right after registering it restores the registry exactly when none of its
   keys was present before: otherwise the earlier plugin of that key is lost.
   */
  lemma UnregisterRestoresIff(reg: Plugins, m: Manifest, version: string, join: string -> string)
    ensures AddAll(reg, OfConnectors(m.name, version, join, m.connectors)) - ManifestKeys(m, version) == reg
       <==> reg.Keys !! ManifestKeys(m, version)
  {
    var ps, keys := OfConnectors(m.name, version, join, m.connectors), ManifestKeys(m, version);
    OfConnectorsKeys(m.name, version, join, m.connectors);
    AddAllKeys(reg, ps);
    AddAllKeeps(reg, ps);
    var undone := AddAll(reg, ps) - keys;
    if reg.Keys !! keys {
      assert undone.Keys == reg.Keys;
    } else {
      var k :| k in reg.Keys && k in keys;
      assert k !in undone;
    }
  }

  /** The protocols of an inventory connector collapse to one key, registered once and removed once. */
  lemma {:induction false} InventoryProtocolsCollapse(name: string, version: string, type_: string,
                                                      protocols: seq<string>)
    requires DropsProtocol(type_)
    ensures ConnectorKeys(name, version, type_, protocols) ==
      if protocols == [] then {} else {PluginKey(name, version, type_, "")}
  {
    if protocols == [] {
    } else {
      InventoryProtocolsCollapse(name, version, type_, protocols[..|protocols| - 1]);
    }
  }

  // ----- reachable registries -----

  datatype Op = Register(m: Manifest, version: string) | Unregister(m: Manifest, version: string)

  /** The registry after a run of registrations and removals. */
  function After(ops: seq<Op>, join: string -> string): Plugins {
    if ops == [] then map[]
    else
      var reg, op := After(ops[..|ops| - 1], join), ops[|ops| - 1];
      var ps := OfConnectors(op.m.name, op.version, join, op.m.connectors);
      if op.Register? then AddAll(reg, ps) else reg - ManifestKeys(op.m, op.version)
  }

  /** Every entry is stored under its own key. */
  ghost predicate WellKeyed(reg: Plugins) {
    forall k :: k in reg ==> KeyOf(reg[k]) == k
  }

  lemma {:induction false} AddKeepsKeys(reg: Plugins, ps: seq<Plugin>)
    requires WellKeyed(reg)
    ensures WellKeyed(AddAll(reg, ps))
  {
    if ps == [] {
    } else {
      AddKeepsKeys(reg, ps[..|ps| - 1]);
    }
  }

  lemma {:induction false} AlwaysWellKeyed(ops: seq<Op>, join: string -> string)
    ensures WellKeyed(After(ops, join))
  {
    if ops == [] {
    } else {
      var op := ops[|ops| - 1];
      AlwaysWellKeyed(ops[..|ops| - 1], join);
      AddKeepsKeys(After(ops[..|ops| - 1], join), OfConnectors(op.m.name, op.version, join, op.m.connectors));
    }
  }

  /** No colon in any name, version or type the run mentions. */
  ghost predicate ColonFree(ops: seq<Op>) {
    forall i :: 0 <= i < |ops| ==>
      NoColon(ops[i].m.name) && NoColon(ops[i].version) &&
      forall j :: 0 <= j < |ops[i].m.connectors| ==> NoColon(ops[i].m.connectors[j].type_)
  }

  ghost predicate PlainParts(p: Plugin) {
    NoColon(p.name) && NoColon(p.version) && NoColon(p.type_)
  }

  lemma {:induction false} ConnectorParts(name: string, version: string, c: Connector, exec: string,
                                          protocols: seq<string>)
    requires NoColon(name) && NoColon(version) && NoColon(c.type_)
    ensures forall p :: p in OfConnector(name, version, c, exec, protocols) ==> PlainParts(p)
  {
    if protocols == [] {
    } else {
      ConnectorParts(name, version, c, exec, protocols[..|protocols| - 1]);
    }
  }

  lemma {:induction false} ManifestParts(name: string, version: string, join: string -> string,
                                         connectors: seq<Connector>)
    requires NoColon(name) && NoColon(version)
    requires forall j :: 0 <= j < |connectors| ==> NoColon(connectors[j].type_)
    ensures forall p :: p in OfConnectors(name, version, join, connectors) ==> PlainParts(p)
  {
    if connectors == [] {
    } else {
      var n := |connectors| - 1;
      var c := connectors[n];
      ManifestParts(name, version, join, connectors[..n]);
      ConnectorParts(name, version, c, join(c.executable), c.protocols);
    }
  }

  lemma {:induction false} AddKeepsParts(reg: Plugins, ps: seq<Plugin>)
    requires forall k :: k in reg ==> PlainParts(reg[k])
    requires forall p :: p in ps ==> PlainParts(p)
    ensures forall k :: k in AddAll(reg, ps) ==> PlainParts(AddAll(reg, ps)[k])
  {
    if ps == [] {
    } else {
      assert ps[|ps| - 1] in ps;
      AddKeepsParts(reg, ps[..|ps| - 1]);
    }
  }

  lemma {:induction false} RunParts(ops: seq<Op>, join: string -> string)
    requires ColonFree(ops)
    ensures forall k :: k in After(ops, join) ==> PlainParts(After(ops, join)[k])
  {
    if ops == [] {
    } else {
      var n := |ops| - 1;
      var op := ops[n];
      assert ColonFree(ops[..n]) by {
        assert forall i :: 0 <= i < n ==> ops[..n][i] == ops[i];
      }
      RunParts(ops[..n], join);
      ManifestParts(op.m.name, op.version, join, op.m.connectors);
      AddKeepsParts(After(ops[..n], join), OfConnectors(op.m.name, op.version, join, op.m.connectors));
    }
  }

  /**
   In every registry reached by colon-free registrations and removals, a colon-free lookup that finds a
   plugin finds one of exactly the requested name, version and type, and protocol unless dropped.
   */
  lemma TypedLookup(ops: seq<Op>, join: string -> string, name: string, version: string, type_: string,
                    protocol: string)
    requires ColonFree(ops) && NoColon(name) && NoColon(version) && NoColon(type_)
    requires PluginKey(name, version, type_, protocol) in After(ops, join)
    ensures var p := After(ops, join)[PluginKey(name, version, type_, protocol)];
            && p.name == name && p.version == version && p.type_ == type_
            && KeyProtocol(type_, p.protocol) == KeyProtocol(type_, protocol)
  {
    var p := After(ops, join)[PluginKey(name, version, type_, protocol)];
    AlwaysWellKeyed(ops, join);
    RunParts(ops, join);
    KeyInjective(p.name, p.version, p.type_, p.protocol, name, version, type_, protocol);
  }

  /** The plugin stored under the key of a lookup, if any, is of exactly the parts asked for. */
  ghost predicate AnswersTyped(reg: Plugins, name: string, version: string, type_: string, protocol: string) {
    var key := PluginKey(name, version, type_, protocol);
    key in reg ==>
      var p := reg[key];
      SameParts(p.name, p.version, p.type_, p.protocol, name, version, type_, protocol)
  }

  /**
   A lookup is safe from plugins of other parts in every reachable registry, whatever was registered,
   exactly when the parts looked up are readable.
   */
  lemma TypedLookupIff(join: string -> string, name: string, version: string, type_: string, protocol: string)
    ensures (forall ops :: AnswersTyped(After(ops, join), name, version, type_, protocol))
       <==> Readable(name, version, type_, protocol)
  {
    if Readable(name, version, type_, protocol) {
      forall ops ensures AnswersTyped(After(ops, join), name, version, type_, protocol) {
        AlwaysWellKeyed(ops, join);
        var reg, key := After(ops, join), PluginKey(name, version, type_, protocol);
        if key in reg {
          assert KeyOf(reg[key]) == key;
          ReadableParts(name, version, type_, protocol, reg[key].name, reg[key].version, reg[key].type_,
                        reg[key].protocol);
        }
      }
    } else {
      var n2, v2, t2, p2 := ColonMakesKeysClash(name, version, type_, protocol);
      var ops := RegisterOne(join, n2, v2, t2, p2);
      assert !AnswersTyped(After(ops, join), name, version, type_, protocol);
    }
  }

  /** A run that registers one plugin of given parts. */
  lemma RegisterOne(join: string -> string, name: string, version: string, type_: string,
                    protocol: string) returns (ops: seq<Op>)
    ensures var reg := After(ops, join);
            var key := PluginKey(name, version, type_, protocol);
            && key in reg
            && reg[key].name == name && reg[key].version == version
            && reg[key].type_ == type_ && reg[key].protocol == protocol
  {
    var c := Connector(type_, [protocol], "", [], 0);
    var p := Plugin(name, version, type_, protocol, 0, join(""), []);
    ops := [Register(Manifest(name, [c]), version)];
    assert [c][..0] == [] && [protocol][..0] == [];
    assert OfConnector(name, version, c, join(""), [protocol]) == [p];
    assert OfConnectors(name, version, join, []) == [];
    assert OfConnectors(name, version, join, [c]) == [p];
    assert ops[..0] == [] && [p][..0] == [];
    assert AddAll(map[], [p]) == Add(map[], p);
  }
}
