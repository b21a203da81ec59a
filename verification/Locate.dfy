/** Locate options read from the flat task config, and what flattening them back and reading again gives. */
module Locate {
  import opened Prelude
  import opened TaskConfig

  datatype Filters = Filters(
    before: int, since: int,
    name: string, category: string, environment: string, perimeter: string, job: string, dataset: string,
    tags: seq<string>, ignoreTags: seq<string>, latest: bool, ids: seq<string>,
    types: seq<string>, origins: seq<string>, roots: seq<string>, dataClasses: seq<string>)

  datatype Period = Period(keep: int, cap: int)

  datatype Options = Options(filters: Filters, groupBy: string, periods: seq<Period>)

  /** The periods, in the order they are read. */
  const PERIODS := ["minute", "hour", "day", "week", "month", "year",
                    "monday", "tuesday", "wednesday", "thursday", "friday", "saturday", "sunday"]

  /** Go's parsers of times (as nanoseconds), integers and unsigned integers, and the clock. */
  datatype World = World(parseTime: string -> Option<int>, atoi: string -> Option<int>,
                         parseUint: string -> Option<u64>, now: int)

  /** strconv.ParseBool. */
  function ParseBool(v: string): Option<bool> {
    if v in ["1", "t", "T", "TRUE", "true", "True"] then Some(true)
    else if v in ["0", "f", "F", "FALSE", "false", "False"] then Some(false)
    else None
  }

  function FormatBool(b: bool): string {
    if b then "true" else "false"
  }

  // ----- one key -----

  function Str(cfg: Config, key: string, old_: string): string {
    if key in cfg then cfg[key] else old_
  }

  function Bool(cfg: Config, key: string, old_: bool): bool {
    if key in cfg && ParseBool(cfg[key]).Some? then ParseBool(cfg[key]).value else old_
  }

  function When(w: World, cfg: Config, key: string, old_: int): int {
    if key in cfg && w.parseTime(cfg[key]).Some? then w.parseTime(cfg[key]).value else old_
  }

  function Number(w: World, cfg: Config, key: string, old_: int): int {
    if key in cfg && w.atoi(cfg[key]).Some? then w.atoi(cfg[key]).value else old_
  }

  /** Go's 64-bit signed arithmetic. */
  function Int64(x: int): int {
    (x + 0x8000_0000_0000_0000) % TWO_64 - 0x8000_0000_0000_0000
  }

  /** now.Add(-time.Duration(secs) * time.Second). */
  function Window(w: World, cfg: Config, key: string, old_: int): int {
    if key in cfg && w.parseUint(cfg[key]).Some? then
      var secs: int := w.parseUint(cfg[key]).value;
      w.now + Int64(-secs * 1_000_000_000)
    else old_
  }

  function KeepKey(name: string): string {
    "locate.period." + name + ".keep"
  }

  function CapKey(name: string): string {
    "locate.period." + name + ".cap"
  }

  function ReadPeriod(w: World, cfg: Config, name: string, old_: Period): Period {
    Period(Number(w, cfg, KeepKey(name), old_.keep), Number(w, cfg, CapKey(name), old_.cap))
  }

  function ReadPeriods(w: World, cfg: Config, old_: seq<Period>): seq<Period>
    requires |old_| == |PERIODS|
  {
    seq(|PERIODS|, i requires 0 <= i < |PERIODS| => ReadPeriod(w, cfg, PERIODS[i], old_[i]))
  }

  // ----- all of them -----

  /** The filters the locate namespace gives. */
  function NamespaceFilters(w: World, cfg: Config, f: Filters): Filters {
    Filters(
      When(w, cfg, "locate.filter.before", f.before),
      When(w, cfg, "locate.filter.since", f.since),
      Str(cfg, "locate.filter.name", f.name),
      Str(cfg, "locate.filter.category", f.category),
      Str(cfg, "locate.filter.environment", f.environment),
      Str(cfg, "locate.filter.perimeter", f.perimeter),
      Str(cfg, "locate.filter.job", f.job),
      Str(cfg, "locate.filter.dataset", f.dataset),
      IndexedList(cfg, "locate.filter.tags"),
      IndexedList(cfg, "locate.filter.ignore_tags"),
      Bool(cfg, "locate.filter.latest", f.latest),
      IndexedList(cfg, "locate.filter.ids"),
      IndexedList(cfg, "locate.filter.types"),
      IndexedList(cfg, "locate.filter.origins"),
      IndexedList(cfg, "locate.filter.roots"),
      IndexedList(cfg, "locate.filter.data_classes"))
  }

  /** The top-level keys over them. */
  function TopLevelFilters(w: World, cfg: Config, f: Filters): Filters {
    var labels, id := IndexedList(cfg, "labels"), Str(cfg, "snapshot_id", "");
    f.(before := Window(w, cfg, "before", f.before),
       since := Window(w, cfg, "after", f.since),
       tags := if labels != [] then labels else f.tags,
       latest := Bool(cfg, "latest", f.latest),
       ids := if id != "" then [id] else f.ids)
  }

  /** The filters a config resolves to, from the defaults: what the last writer of each field leaves. */
  function ResolveFilters(w: World, cfg: Config, f: Filters): Filters {
    TopLevelFilters(w, cfg, NamespaceFilters(w, cfg, f))
  }

  function Resolve(w: World, cfg: Config, d: Options): Options
    requires |d.periods| == |PERIODS|
  {
    Options(ResolveFilters(w, cfg, d.filters), Str(cfg, "locate.group_by", d.groupBy), ReadPeriods(w, cfg, d.periods))
  }

  /** The options being filled in, field by field. */
  class LocateOptions {
    var o: Options

    constructor (defaults: Options)
      ensures o == defaults
    {
      o := defaults;
    }

    method LoadPeriods(w: World, cfg: Config)
      requires |o.periods| == |PERIODS|
      modifies this
      ensures o == old(o).(periods := ReadPeriods(w, cfg, old(o).periods))
    {
      var before, periods := o.periods, o.periods;
      for i := 0 to |PERIODS|
        invariant |periods| == |PERIODS|
        invariant forall j :: 0 <= j < i ==> periods[j] == ReadPeriod(w, cfg, PERIODS[j], before[j])
        invariant forall j :: i <= j < |PERIODS| ==> periods[j] == before[j]
      {
        periods := periods[i := ReadPeriod(w, cfg, PERIODS[i], periods[i])];
      }
      assert periods == ReadPeriods(w, cfg, before);
      o := o.(periods := periods);
    }

    method LoadNamespaceFilters(w: World, cfg: Config)
      modifies this
      ensures o == old(o).(filters := NamespaceFilters(w, cfg, old(o).filters))
    {
      var f := o.filters;
      f := f.(before := When(w, cfg, "locate.filter.before", f.before));
      f := f.(since := When(w, cfg, "locate.filter.since", f.since));
      f := f.(name := Str(cfg, "locate.filter.name", f.name));
      f := f.(category := Str(cfg, "locate.filter.category", f.category));
      f := f.(environment := Str(cfg, "locate.filter.environment", f.environment));
      f := f.(perimeter := Str(cfg, "locate.filter.perimeter", f.perimeter));
      f := f.(job := Str(cfg, "locate.filter.job", f.job));
      f := f.(dataset := Str(cfg, "locate.filter.dataset", f.dataset));
      var list := ReadIndexedList(cfg, "locate.filter.tags");
      f := f.(tags := list);
      list := ReadIndexedList(cfg, "locate.filter.ignore_tags");
      f := f.(ignoreTags := list);
      f := f.(latest := Bool(cfg, "locate.filter.latest", f.latest));
      list := ReadIndexedList(cfg, "locate.filter.ids");
      f := f.(ids := list);
      list := ReadIndexedList(cfg, "locate.filter.types");
      f := f.(types := list);
      list := ReadIndexedList(cfg, "locate.filter.origins");
      f := f.(origins := list);
      list := ReadIndexedList(cfg, "locate.filter.roots");
      f := f.(roots := list);
      list := ReadIndexedList(cfg, "locate.filter.data_classes");
      f := f.(dataClasses := list);
      o := o.(filters := f);
    }

    method FoldTopLevel(w: World, cfg: Config)
      modifies this
      ensures o == old(o).(filters := TopLevelFilters(w, cfg, old(o).filters))
    {
      var f := o.filters;
      var labels := ReadIndexedList(cfg, "labels");
      if |labels| != 0 {
        f := f.(tags := labels);
      }
      f := f.(latest := Bool(cfg, "latest", f.latest));
      if "snapshot_id" in cfg && cfg["snapshot_id"] != "" {
        f := f.(ids := [cfg["snapshot_id"]]);
      }
      f := f.(before := Window(w, cfg, "before", f.before));
      f := f.(since := Window(w, cfg, "after", f.since));
      o := o.(filters := f);
    }

    /** locateOptions: the locate namespace first, then the top-level keys over it. */
    method Load(w: World, cfg: Config)
      requires |o.periods| == |PERIODS|
      modifies this
      ensures o == Resolve(w, cfg, old(o))
    {
      LoadNamespaceFilters(w, cfg);
      o := o.(groupBy := Str(cfg, "locate.group_by", o.groupBy));
      LoadPeriods(w, cfg);
      FoldTopLevel(w, cfg);
    }
  }

  // ----- what each option is, from the keys -----

  /** The number of seconds under a key, if it is one. */
  function Seconds(w: World, cfg: Config, key: string): Option<u64> {
    if key in cfg then w.parseUint(cfg[key]) else None
  }

  function TimeAt(w: World, cfg: Config, key: string): Option<int> {
    if key in cfg then w.parseTime(cfg[key]) else None
  }

  /** A time filter: so many seconds ago by the relative key, else the time under the other, else the default. */
  ghost predicate IsTime(w: World, cfg: Config, relative: string, absolute: string, default_: int, got: int) {
    var secs, time := Seconds(w, cfg, relative), TimeAt(w, cfg, absolute);
    && (secs.Some? && secs.value <= 9_223_372_036 ==> got == w.now - secs.value * 1_000_000_000)
    && (secs.None? && time.Some? ==> got == time.value)
    && (secs.None? && time.None? ==> got == default_)
  }

  /** The relative windows win over the absolute times; "before" bounds one side and "after" the other. */
  lemma ResolvedTimes(w: World, cfg: Config, d: Options)
    requires |d.periods| == |PERIODS|
    ensures var f := Resolve(w, cfg, d).filters;
            && IsTime(w, cfg, "before", "locate.filter.before", d.filters.before, f.before)
            && IsTime(w, cfg, "after", "locate.filter.since", d.filters.since, f.since)
  {
  }

  ghost predicate IsText(cfg: Config, key: string, default_: string, got: string) {
    if key in cfg then got == cfg[key] else got == default_
  }

  lemma ResolvedTexts(w: World, cfg: Config, d: Options)
    requires |d.periods| == |PERIODS|
    ensures var o := Resolve(w, cfg, d);
            && IsText(cfg, "locate.filter.name", d.filters.name, o.filters.name)
            && IsText(cfg, "locate.filter.category", d.filters.category, o.filters.category)
            && IsText(cfg, "locate.filter.environment", d.filters.environment, o.filters.environment)
            && IsText(cfg, "locate.filter.perimeter", d.filters.perimeter, o.filters.perimeter)
            && IsText(cfg, "locate.filter.job", d.filters.job, o.filters.job)
            && IsText(cfg, "locate.filter.dataset", d.filters.dataset, o.filters.dataset)
            && IsText(cfg, "locate.group_by", d.groupBy, o.groupBy)
  {
  }

  /** A truth value under a key, if it is one. */
  function Truth(cfg: Config, key: string): Option<bool> {
    if key in cfg then ParseBool(cfg[key]) else None
  }

  /**
   The lists are those flattened under their own keys, whatever the defaults; labels win over tags, a
   snapshot id over ids and the top-level "latest" over the other.
   */
  lemma ResolvedLists(w: World, cfg: Config, d: Options)
    requires |d.periods| == |PERIODS|
    ensures var f := Resolve(w, cfg, d).filters;
            && (if IndexKey("labels", 0) in cfg then IsMaximalRun(cfg, "labels", f.tags)
                else IsMaximalRun(cfg, "locate.filter.tags", f.tags))
            && (if "snapshot_id" in cfg && cfg["snapshot_id"] != "" then f.ids == [cfg["snapshot_id"]]
                else IsMaximalRun(cfg, "locate.filter.ids", f.ids))
            && IsMaximalRun(cfg, "locate.filter.ignore_tags", f.ignoreTags)
            && IsMaximalRun(cfg, "locate.filter.types", f.types)
            && IsMaximalRun(cfg, "locate.filter.origins", f.origins)
            && IsMaximalRun(cfg, "locate.filter.roots", f.roots)
            && IsMaximalRun(cfg, "locate.filter.data_classes", f.dataClasses)
            && f.latest == (if Truth(cfg, "latest").Some? then Truth(cfg, "latest").value
                            else if Truth(cfg, "locate.filter.latest").Some?
                            then Truth(cfg, "locate.filter.latest").value
                            else d.filters.latest)
  {
    LabelsEmptyIff(cfg);
  }

  lemma LabelsEmptyIff(cfg: Config)
    ensures IndexedList(cfg, "labels") == [] <==> IndexKey("labels", 0) !in cfg
  {
    var labels := IndexedList(cfg, "labels");
    assert IsMaximalRun(cfg, "labels", labels);
    if labels != [] {
      assert IndexKey("labels", 0) in cfg;
    }
  }

  /** A number under a key, if it is one. */
  function IntegerAt(w: World, cfg: Config, key: string): Option<int> {
    if key in cfg then w.atoi(cfg[key]) else None
  }

  /** One retention period: each of its two numbers under its own key, else as it was. */
  ghost predicate IsPeriod(w: World, cfg: Config, name: string, default_: Period, got: Period) {
    var keep := IntegerAt(w, cfg, "locate.period." + name + ".keep");
    var cap := IntegerAt(w, cfg, "locate.period." + name + ".cap");
    && got.keep == (if keep.Some? then keep.value else default_.keep)
    && got.cap == (if cap.Some? then cap.value else default_.cap)
  }

  /** Each period is read under its own name. */
  lemma ResolvedPeriods(w: World, cfg: Config, d: Options, i: nat)
    requires |d.periods| == |PERIODS| && i < 13
    ensures var names := ["minute", "hour", "day", "week", "month", "year",
                          "monday", "tuesday", "wednesday", "thursday", "friday", "saturday", "sunday"];
            && |Resolve(w, cfg, d).periods| == 13
            && IsPeriod(w, cfg, names[i], d.periods[i], Resolve(w, cfg, d).periods[i])
  {
    assert Resolve(w, cfg, d).periods[i] == ReadPeriod(w, cfg, PERIODS[i], d.periods[i]);
    PeriodRead(w, cfg, PERIODS[i], d.periods[i]);
  }

  lemma PeriodRead(w: World, cfg: Config, name: string, old_: Period)
    ensures IsPeriod(w, cfg, name, old_, ReadPeriod(w, cfg, name, old_))
  {
  }

  // ----- which keys matter -----

  const SCALAR_KEYS := [
    "locate.filter.before", "locate.filter.since", "locate.filter.name", "locate.filter.category",
    "locate.filter.environment", "locate.filter.perimeter", "locate.filter.job", "locate.filter.dataset",
    "locate.filter.latest", "locate.group_by", "latest", "snapshot_id", "before", "after"]

  const LIST_KEYS := [
    "locate.filter.tags", "locate.filter.ignore_tags", "locate.filter.ids", "locate.filter.types",
    "locate.filter.origins", "locate.filter.roots", "locate.filter.data_classes", "labels"]

  /** The keys the contract documents. */
  ghost predicate Documented(k: string) {
    || k in SCALAR_KEYS
    || (exists j, i: nat :: 0 <= j < |LIST_KEYS| && k == IndexKey(LIST_KEYS[j], i))
    || (exists j :: 0 <= j < |PERIODS| && (k == KeepKey(PERIODS[j]) || k == CapKey(PERIODS[j])))
  }

  ghost predicate AgreeOn(a: Config, b: Config, k: string) {
    (k in a <==> k in b) && (k in a ==> a[k] == b[k])
  }

  /** The two configs give the same answers on everything documented. */
  ghost predicate SameDocumented(a: Config, b: Config) {
    forall k :: Documented(k) ==> AgreeOn(a, b, k)
  }

  lemma AgreeOnScalar(a: Config, b: Config, i: nat)
    requires i < |SCALAR_KEYS| && SameDocumented(a, b)
    ensures AgreeOn(a, b, SCALAR_KEYS[i])
  {
    assert Documented(SCALAR_KEYS[i]);
  }

  lemma AgreeOnList(a: Config, b: Config, j: nat)
    requires j < |LIST_KEYS| && SameDocumented(a, b)
    ensures IndexedList(a, LIST_KEYS[j]) == IndexedList(b, LIST_KEYS[j])
  {
    forall i: nat ensures AgreeOn(a, b, IndexKey(LIST_KEYS[j], i)) {
      assert Documented(IndexKey(LIST_KEYS[j], i));
    }
    ReadsOwnKeysOnly(a, b, LIST_KEYS[j]);
  }

  lemma AgreeOnPeriods(w: World, a: Config, b: Config, old_: seq<Period>)
    requires |old_| == |PERIODS| && SameDocumented(a, b)
    ensures ReadPeriods(w, a, old_) == ReadPeriods(w, b, old_)
  {
    forall j | 0 <= j < |PERIODS|
      ensures ReadPeriod(w, a, PERIODS[j], old_[j]) == ReadPeriod(w, b, PERIODS[j], old_[j])
    {
      assert Documented(KeepKey(PERIODS[j])) && Documented(CapKey(PERIODS[j]));
    }
  }

  lemma AgreeOnStrings(a: Config, b: Config, f: Filters)
    requires SameDocumented(a, b)
    ensures Str(a, "locate.filter.name", f.name) == Str(b, "locate.filter.name", f.name)
    ensures Str(a, "locate.filter.category", f.category) == Str(b, "locate.filter.category", f.category)
    ensures Str(a, "locate.filter.environment", f.environment) == Str(b, "locate.filter.environment", f.environment)
    ensures Str(a, "locate.filter.perimeter", f.perimeter) == Str(b, "locate.filter.perimeter", f.perimeter)
    ensures Str(a, "locate.filter.job", f.job) == Str(b, "locate.filter.job", f.job)
    ensures Str(a, "locate.filter.dataset", f.dataset) == Str(b, "locate.filter.dataset", f.dataset)
  {
    AgreeOnScalar(a, b, 2);
    AgreeOnScalar(a, b, 3);
    AgreeOnScalar(a, b, 4);
    AgreeOnScalar(a, b, 5);
    AgreeOnScalar(a, b, 6);
    AgreeOnScalar(a, b, 7);
  }

  lemma AgreeOnOthers(w: World, a: Config, b: Config, d: Options)
    requires SameDocumented(a, b)
    ensures var f := d.filters;
            && Window(w, a, "before", When(w, a, "locate.filter.before", f.before))
            == Window(w, b, "before", When(w, b, "locate.filter.before", f.before))
            && Window(w, a, "after", When(w, a, "locate.filter.since", f.since))
            == Window(w, b, "after", When(w, b, "locate.filter.since", f.since))
            && Bool(a, "latest", Bool(a, "locate.filter.latest", f.latest))
            == Bool(b, "latest", Bool(b, "locate.filter.latest", f.latest))
            && Str(a, "snapshot_id", "") == Str(b, "snapshot_id", "")
            && Str(a, "locate.group_by", d.groupBy) == Str(b, "locate.group_by", d.groupBy)
  {
    AgreeOnScalar(a, b, 0);
    AgreeOnScalar(a, b, 1);
    AgreeOnScalar(a, b, 8);
    AgreeOnScalar(a, b, 9);
    AgreeOnScalar(a, b, 10);
    AgreeOnScalar(a, b, 11);
    AgreeOnScalar(a, b, 12);
    AgreeOnScalar(a, b, 13);
  }

  lemma AgreeOnLists(a: Config, b: Config)
    requires SameDocumented(a, b)
    ensures IndexedList(a, "labels") == IndexedList(b, "labels")
    ensures IndexedList(a, "locate.filter.tags") == IndexedList(b, "locate.filter.tags")
    ensures IndexedList(a, "locate.filter.ignore_tags") == IndexedList(b, "locate.filter.ignore_tags")
    ensures IndexedList(a, "locate.filter.ids") == IndexedList(b, "locate.filter.ids")
    ensures IndexedList(a, "locate.filter.types") == IndexedList(b, "locate.filter.types")
    ensures IndexedList(a, "locate.filter.origins") == IndexedList(b, "locate.filter.origins")
    ensures IndexedList(a, "locate.filter.roots") == IndexedList(b, "locate.filter.roots")
    ensures IndexedList(a, "locate.filter.data_classes") == IndexedList(b, "locate.filter.data_classes")
  {
    AgreeOnList(a, b, 0);
    AgreeOnList(a, b, 1);
    AgreeOnList(a, b, 2);
    AgreeOnList(a, b, 3);
    AgreeOnList(a, b, 4);
    AgreeOnList(a, b, 5);
    AgreeOnList(a, b, 6);
    AgreeOnList(a, b, 7);
  }

  /** Keys outside the documented set never affect the result. */
  lemma OnlyDocumentedKeysMatter(w: World, a: Config, b: Config, d: Options)
    requires |d.periods| == |PERIODS| && SameDocumented(a, b)
    ensures Resolve(w, a, d) == Resolve(w, b, d)
  {
    AgreeOnStrings(a, b, d.filters);
    AgreeOnOthers(w, a, b, d);
    AgreeOnLists(a, b);
    AgreeOnPeriods(w, a, b, d.periods);
  }

  // ----- flattening the filters back -----

  const FILTER_LISTS := [
    "locate.filter.tags", "locate.filter.ignore_tags", "locate.filter.ids", "locate.filter.types",
    "locate.filter.origins", "locate.filter.roots", "locate.filter.data_classes"]

  const FILTER_SCALARS := [
    "locate.filter.name", "locate.filter.category", "locate.filter.environment", "locate.filter.perimeter",
    "locate.filter.job", "locate.filter.dataset", "locate.filter.latest"]

  /** A key holding part of a flattened list filter. */
  ghost predicate IsListEntry(k: string) {
    exists j, i: nat :: 0 <= j < |FILTER_LISTS| && k == IndexKey(FILTER_LISTS[j], i)
  }

  /** A config without its list filters. */
  ghost function Stripped(cfg: Config): Config {
    map k | k in cfg && !IsListEntry(k) :: cfg[k]
  }

  /** The string and boolean filters, written over the old ones. */
  function PutScalars(cfg: Config, f: Filters): Config {
    cfg["locate.filter.name" := f.name]["locate.filter.category" := f.category]
       ["locate.filter.environment" := f.environment]
       ["locate.filter.perimeter" := f.perimeter]["locate.filter.job" := f.job]["locate.filter.dataset" := f.dataset]
       ["locate.filter.latest" := FormatBool(f.latest)]
  }

  function Lists(f: Filters): seq<(string, seq<string>)> {
    [(FILTER_LISTS[0], f.tags), (FILTER_LISTS[1], f.ignoreTags), (FILTER_LISTS[2], f.ids), (FILTER_LISTS[3], f.types),
     (FILTER_LISTS[4], f.origins), (FILTER_LISTS[5], f.roots), (FILTER_LISTS[6], f.dataClasses)]
  }

  /** A config with its list, string and boolean filters replaced by the flattened f. */
  ghost function Refill(cfg: Config, f: Filters): Config {
    PutAll(PutScalars(Stripped(cfg), f), Lists(f))
  }

  /** Index keys end in a digit, and so differ from every key that does not. */
  predicate EndsInLetter(k: string) {
    k != [] && !('0' <= k[|k| - 1] <= '9')
  }

  lemma LettersAreNoIndex(k: string)
    requires EndsInLetter(k)
    ensures forall key: string, i: nat :: k != IndexKey(key, i)
  {
    forall key: string, i: nat ensures k != IndexKey(key, i) {
      var s, digits := IndexKey(key, i), Itoa(i);
      assert s[|s| - 1] == digits[|digits| - 1];
    }
  }

  /** A scalar key outside the refilled ones reads as before. */
  lemma RefillKeeps(cfg: Config, f: Filters, k: string)
    requires EndsInLetter(k) && k !in FILTER_SCALARS
    ensures AgreeOn(Refill(cfg, f), cfg, k)
  {
    LettersAreNoIndex(k);
    PutAllKeeps(PutScalars(Stripped(cfg), f), Lists(f), k);
    assert FILTER_SCALARS[0] in FILTER_SCALARS;
    assert !IsListEntry(k);
    assert forall j :: 0 <= j < |FILTER_SCALARS| ==> k != FILTER_SCALARS[j];
    ScalarsKeep(Stripped(cfg), f, k);
  }

  lemma ScalarsKeep(cfg: Config, f: Filters, k: string)
    requires forall j :: 0 <= j < |FILTER_SCALARS| ==> k != FILTER_SCALARS[j]
    ensures AgreeOn(PutScalars(cfg, f), cfg, k)
  {
    assert k != FILTER_SCALARS[0] && k != FILTER_SCALARS[1] && k != FILTER_SCALARS[2] && k != FILTER_SCALARS[3];
    assert k != FILTER_SCALARS[4] && k != FILTER_SCALARS[5] && k != FILTER_SCALARS[6];
  }

  /** The value PutScalars leaves under each of its keys: the keys all differ in length. */
  function ScalarValue(f: Filters, j: nat): string
    requires j < |FILTER_SCALARS|
  {
    [f.name, f.category, f.environment, f.perimeter, f.job, f.dataset, FormatBool(f.latest)][j]
  }

  lemma ScalarsStored(cfg: Config, f: Filters, j: nat)
    requires j < |FILTER_SCALARS|
    ensures FILTER_SCALARS[j] in PutScalars(cfg, f) && PutScalars(cfg, f)[FILTER_SCALARS[j]] == ScalarValue(f, j)
  {
    assert |FILTER_SCALARS[0]| == 18 && |FILTER_SCALARS[1]| == 22;
    assert |FILTER_SCALARS[2]| == 25 && |FILTER_SCALARS[3]| == 23;
    assert |FILTER_SCALARS[4]| == 17 && |FILTER_SCALARS[5]| == 21 && |FILTER_SCALARS[6]| == 20;
  }

  lemma RefillStores(cfg: Config, f: Filters, j: nat)
    requires j < |FILTER_SCALARS| && EndsInLetter(FILTER_SCALARS[j])
    ensures FILTER_SCALARS[j] in Refill(cfg, f) && Refill(cfg, f)[FILTER_SCALARS[j]] == ScalarValue(f, j)
  {
    LettersAreNoIndex(FILTER_SCALARS[j]);
    ScalarsStored(Stripped(cfg), f, j);
    PutAllKeeps(PutScalars(Stripped(cfg), f), Lists(f), FILTER_SCALARS[j]);
  }

  lemma ListKeysDistinct()
    ensures forall i, j :: 0 <= i < j < |FILTER_LISTS| ==> FILTER_LISTS[i] != FILTER_LISTS[j]
    ensures forall j :: 0 <= j < |FILTER_LISTS| ==> FILTER_LISTS[j] != "labels"
  {
    assert |FILTER_LISTS[0]| == 18 && |FILTER_LISTS[1]| == 25 && |FILTER_LISTS[2]| == 17 && |FILTER_LISTS[3]| == 19;
    assert |FILTER_LISTS[4]| == 21 && |FILTER_LISTS[5]| == 19 && |FILTER_LISTS[6]| == 26;
    assert FILTER_LISTS[3][14] == 't' && FILTER_LISTS[5][14] == 'r';
  }

  lemma ScalarsEndInLetters()
    ensures forall j :: 0 <= j < |FILTER_SCALARS| ==> EndsInLetter(FILTER_SCALARS[j])
  {
    assert FILTER_SCALARS[0][17] == 'e' && FILTER_SCALARS[1][21] == 'y';
    assert FILTER_SCALARS[2][24] == 't' && FILTER_SCALARS[3][22] == 'r';
    assert FILTER_SCALARS[4][16] == 'b' && FILTER_SCALARS[5][20] == 't' && FILTER_SCALARS[6][19] == 't';
  }

  /** Index keys are none of the scalar keys. */
  lemma IndexIsNoScalar(key: string, i: nat)
    ensures forall j :: 0 <= j < |FILTER_SCALARS| ==> IndexKey(key, i) != FILTER_SCALARS[j]
  {
    ScalarsEndInLetters();
    forall j | 0 <= j < |FILTER_SCALARS| ensures IndexKey(key, i) != FILTER_SCALARS[j] {
      LettersAreNoIndex(FILTER_SCALARS[j]);
    }
  }

  lemma RefillLists(cfg: Config, f: Filters, j: nat)
    requires j < |FILTER_LISTS|
    ensures IndexedList(Refill(cfg, f), FILTER_LISTS[j]) == Lists(f)[j].1
  {
    ListKeysDistinct();
    forall i: nat ensures IndexKey(FILTER_LISTS[j], i) !in PutScalars(Stripped(cfg), f) {
      IndexIsNoScalar(FILTER_LISTS[j], i);
      ScalarsKeep(Stripped(cfg), f, IndexKey(FILTER_LISTS[j], i));
      assert IsListEntry(IndexKey(FILTER_LISTS[j], i));
    }
    assert forall k :: 0 <= k < |Lists(f)| ==> Lists(f)[k].0 == FILTER_LISTS[k];
    PutAllRoundTrip(PutScalars(Stripped(cfg), f), Lists(f), j);
  }

  lemma RefillLabels(cfg: Config, f: Filters)
    ensures IndexedList(Refill(cfg, f), "labels") == IndexedList(cfg, "labels")
  {
    ListKeysDistinct();
    assert forall k :: 0 <= k < |Lists(f)| ==> Lists(f)[k].0 == FILTER_LISTS[k];
    PutAllOther(PutScalars(Stripped(cfg), f), Lists(f), "labels");
    forall i: nat ensures AgreeOn(PutScalars(Stripped(cfg), f), cfg, IndexKey("labels", i)) {
      var k := IndexKey("labels", i);
      IndexIsNoScalar("labels", i);
      ScalarsKeep(Stripped(cfg), f, k);
      if IsListEntry(k) {
        var j: nat, i': nat :| 0 <= j < |FILTER_LISTS| && k == IndexKey(FILTER_LISTS[j], i');
        IndexKeyInjective("labels", i, FILTER_LISTS[j], i');
      }
    }
    ReadsOwnKeysOnly(PutScalars(Stripped(cfg), f), cfg, "labels");
  }

  lemma RefillStrings(cfg: Config, f: Filters, g: Filters)
    ensures Str(Refill(cfg, f), "locate.filter.name", g.name) == f.name
    ensures Str(Refill(cfg, f), "locate.filter.category", g.category) == f.category
    ensures Str(Refill(cfg, f), "locate.filter.environment", g.environment) == f.environment
    ensures Str(Refill(cfg, f), "locate.filter.perimeter", g.perimeter) == f.perimeter
    ensures Str(Refill(cfg, f), "locate.filter.job", g.job) == f.job
    ensures Str(Refill(cfg, f), "locate.filter.dataset", g.dataset) == f.dataset
    ensures Bool(Refill(cfg, f), "locate.filter.latest", g.latest) == f.latest
  {
    ScalarsEndInLetters();
    RefillStores(cfg, f, 0);
    RefillStores(cfg, f, 1);
    RefillStores(cfg, f, 2);
    RefillStores(cfg, f, 3);
    RefillStores(cfg, f, 4);
    RefillStores(cfg, f, 5);
    RefillStores(cfg, f, 6);
    assert ["1", "t", "T", "TRUE", "true", "True"][4] == "true";
    assert ["0", "f", "F", "FALSE", "false", "False"][4] == "false";
    assert ParseBool(FormatBool(f.latest)) == Some(f.latest);
  }

  /** None of the refilled scalar keys is as short as a top-level key or belongs to another namespace. */
  lemma OutsideFilters(k: string)
    requires |k| < 17 || (|k| > 13 && k[7] == 'p') || (|k| == 20 && k[14] == 'b') || (|k| == 19)
    ensures k !in FILTER_SCALARS
  {
    assert |FILTER_SCALARS[0]| == 18 && |FILTER_SCALARS[1]| == 22;
    assert |FILTER_SCALARS[2]| == 25 && |FILTER_SCALARS[3]| == 23;
    assert |FILTER_SCALARS[4]| == 17 && |FILTER_SCALARS[5]| == 21 && |FILTER_SCALARS[6]| == 20;
    assert FILTER_SCALARS[6][14] == 'l';
    assert forall j :: 0 <= j < |FILTER_SCALARS| ==> FILTER_SCALARS[j][7] == 'f';
  }

  lemma RefillOthers(cfg: Config, f: Filters)
    ensures AgreeOn(Refill(cfg, f), cfg, "latest") && AgreeOn(Refill(cfg, f), cfg, "snapshot_id")
    ensures AgreeOn(Refill(cfg, f), cfg, "before") && AgreeOn(Refill(cfg, f), cfg, "after")
    ensures AgreeOn(Refill(cfg, f), cfg, "locate.group_by")
  {
    OutsideFilters("latest");
    RefillKeeps(cfg, f, "latest");
    OutsideFilters("snapshot_id");
    RefillKeeps(cfg, f, "snapshot_id");
    OutsideFilters("before");
    RefillKeeps(cfg, f, "before");
    OutsideFilters("after");
    RefillKeeps(cfg, f, "after");
    OutsideFilters("locate.group_by");
    RefillKeeps(cfg, f, "locate.group_by");
  }

  lemma RefillTimes(cfg: Config, f: Filters)
    ensures AgreeOn(Refill(cfg, f), cfg, "locate.filter.before") && AgreeOn(Refill(cfg, f), cfg, "locate.filter.since")
  {
    assert |"locate.filter.before"| == 20 && "locate.filter.before"[14] == 'b' && "locate.filter.before"[19] == 'e';
    OutsideFilters("locate.filter.before");
    RefillKeeps(cfg, f, "locate.filter.before");
    assert |"locate.filter.since"| == 19 && "locate.filter.since"[18] == 'e';
    OutsideFilters("locate.filter.since");
    RefillKeeps(cfg, f, "locate.filter.since");
  }

  lemma RefillPeriods(w: World, cfg: Config, f: Filters, old_: seq<Period>)
    requires |old_| == |PERIODS|
    ensures ReadPeriods(w, Refill(cfg, f), old_) == ReadPeriods(w, cfg, old_)
  {
    forall j | 0 <= j < |PERIODS|
      ensures ReadPeriod(w, Refill(cfg, f), PERIODS[j], old_[j]) == ReadPeriod(w, cfg, PERIODS[j], old_[j])
    {
      var keep, cap := KeepKey(PERIODS[j]), CapKey(PERIODS[j]);
      assert keep[7] == 'p' && cap[7] == 'p';
      assert keep[|keep| - 1] == ".keep"[4] == 'p' && cap[|cap| - 1] == ".cap"[3] == 'p';
      OutsideFilters(keep);
      RefillKeeps(cfg, f, keep);
      OutsideFilters(cap);
      RefillKeeps(cfg, f, cap);
    }
  }

  lemma RefillAllLists(cfg: Config, f: Filters)
    ensures IndexedList(Refill(cfg, f), "locate.filter.tags") == f.tags
    ensures IndexedList(Refill(cfg, f), "locate.filter.ignore_tags") == f.ignoreTags
    ensures IndexedList(Refill(cfg, f), "locate.filter.ids") == f.ids
    ensures IndexedList(Refill(cfg, f), "locate.filter.types") == f.types
    ensures IndexedList(Refill(cfg, f), "locate.filter.origins") == f.origins
    ensures IndexedList(Refill(cfg, f), "locate.filter.roots") == f.roots
    ensures IndexedList(Refill(cfg, f), "locate.filter.data_classes") == f.dataClasses
  {
    RefillLists(cfg, f, 0);
    RefillLists(cfg, f, 1);
    RefillLists(cfg, f, 2);
    RefillLists(cfg, f, 3);
    RefillLists(cfg, f, 4);
    RefillLists(cfg, f, 5);
    RefillLists(cfg, f, 6);
  }

  /** What the refilled config r says, whatever else it holds: the filters f, and the other keys as in cfg. */
  ghost predicate Carries(r: Config, cfg: Config, f: Filters, g: Filters) {
    && Str(r, "locate.filter.name", g.name) == f.name
    && Str(r, "locate.filter.category", g.category) == f.category
    && Str(r, "locate.filter.environment", g.environment) == f.environment
    && Str(r, "locate.filter.perimeter", g.perimeter) == f.perimeter
    && Str(r, "locate.filter.job", g.job) == f.job
    && Str(r, "locate.filter.dataset", g.dataset) == f.dataset
    && Bool(r, "locate.filter.latest", g.latest) == f.latest
    && CarriesLists(r, f)
    && CarriesOthers(r, cfg)
  }

  ghost predicate CarriesLists(r: Config, f: Filters) {
    && IndexedList(r, "locate.filter.tags") == f.tags
    && IndexedList(r, "locate.filter.ignore_tags") == f.ignoreTags
    && IndexedList(r, "locate.filter.ids") == f.ids
    && IndexedList(r, "locate.filter.types") == f.types
    && IndexedList(r, "locate.filter.origins") == f.origins
    && IndexedList(r, "locate.filter.roots") == f.roots
    && IndexedList(r, "locate.filter.data_classes") == f.dataClasses
  }

  ghost predicate CarriesOthers(r: Config, cfg: Config) {
    && AgreeOn(r, cfg, "latest") && AgreeOn(r, cfg, "snapshot_id")
    && AgreeOn(r, cfg, "before") && AgreeOn(r, cfg, "after")
    && AgreeOn(r, cfg, "locate.filter.before") && AgreeOn(r, cfg, "locate.filter.since")
    && IndexedList(r, "labels") == IndexedList(cfg, "labels")
  }

  lemma RefillCarries(cfg: Config, f: Filters, g: Filters)
    ensures Carries(Refill(cfg, f), cfg, f, g)
  {
    RefillStrings(cfg, f, g);
    RefillOthers(cfg, f);
    RefillTimes(cfg, f);
    RefillLabels(cfg, f);
    RefillAllLists(cfg, f);
  }

  /** Does the key hold a number of seconds back from now? */
  predicate Relative(w: World, cfg: Config, key: string) {
    key in cfg && w.parseUint(cfg[key]).Some?
  }

  /** Filters resolved at one time, as they are at a later one: relative windows move on with the clock. */
  function Later(w: World, cfg: Config, f: Filters, now: int): Filters {
    f.(before := f.before + (if Relative(w, cfg, "before") then now - w.now else 0),
       since := f.since + (if Relative(w, cfg, "after") then now - w.now else 0))
  }

  lemma CarriedTimes(w: World, r: Config, cfg: Config, g: Filters, now: int)
    requires CarriesOthers(r, cfg)
    ensures var f, f' := ResolveFilters(w, cfg, g), ResolveFilters(w.(now := now), r, g);
            f'.before == Later(w, cfg, f, now).before && f'.since == Later(w, cfg, f, now).since
  {
  }

  lemma CarriedFilters(w: World, r: Config, cfg: Config, g: Filters, now: int)
    requires Carries(r, cfg, ResolveFilters(w, cfg, g), g)
    ensures ResolveFilters(w.(now := now), r, g) == Later(w, cfg, ResolveFilters(w, cfg, g), now)
  {
    CarriedTimes(w, r, cfg, g, now);
  }

  /**
   Flattening the resolved filters back into any config, next to the keys that produced them, and
   resolving again gives the same options; at another time, the same but for the relative windows,
   which move by exactly the time gone by.
   */
  lemma ResolveFixpoint(w: World, cfg: Config, d: Options, now: int)
    requires |d.periods| == |PERIODS|
    ensures var o := Resolve(w, cfg, d);
            Resolve(w.(now := now), Refill(cfg, o.filters), d) == o.(filters := Later(w, cfg, o.filters, now))
  {
    var f := Resolve(w, cfg, d).filters;
    RefillCarries(cfg, f, d.filters);
    CarriedFilters(w, Refill(cfg, f), cfg, d.filters, now);
    RefillOthers(cfg, f);
    RefillPeriods(w.(now := now), cfg, f, d.periods);
    assert ReadPeriods(w.(now := now), cfg, d.periods) == ReadPeriods(w, cfg, d.periods);
  }

  /** The options come back the same exactly when no time has gone by or no window is relative. */
  lemma ResolveIdempotentIff(w: World, cfg: Config, d: Options, now: int)
    requires |d.periods| == |PERIODS|
    ensures Resolve(w.(now := now), Refill(cfg, Resolve(w, cfg, d).filters), d) == Resolve(w, cfg, d)
       <==> now == w.now || (!Relative(w, cfg, "before") && !Relative(w, cfg, "after"))
  {
    var o := Resolve(w, cfg, d);
    ResolveFixpoint(w, cfg, d, now);
    assert o.(filters := Later(w, cfg, o.filters, now)) == o <==> Later(w, cfg, o.filters, now) == o.filters;
  }
}
