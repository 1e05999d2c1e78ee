/**
 * The query parser: records how results are to be sorted and grouped, then
 * sorts the caller's list in place and splits it into named groups.
 */
module QueryParser {
  import opened Wrappers
  import opened Values
  import opened Seqs
  import opened OrderedDicts
  import opened QueryErrors
  import opened ServerProperties
  import opened Sorting

  /** The prop handler's `get_prop(obj, prop)`. */
  type PropGetter = (Record, ServerProperty) -> Value

  /** The prop handler's `check_supported(prop)`. */
  type SupportCheck = ServerProperty -> bool

  const UngroupedName: string := "ungrouped results"

  /** The membership test of one group. */
  datatype GroupTest =
      /** The record's value is one of the group's listed values. */
    | InRange(prop: ServerProperty, vals: seq<Value>)
      /** The record's value is in none of the listed ranges. */
    | OutsideRanges(prop: ServerProperty, vals: seq<Value>)
      /** The record's value equals the group's value. */
    | HasValue(prop: ServerProperty, val: Value)

  predicate Matches(getProp: PropGetter, t: GroupTest, r: Record) {
    match t
    case InRange(p, vs) => InValues(getProp(r, p), vs)
    case OutsideRanges(p, vs) => !InValues(getProp(r, p), vs)
    case HasValue(p, v) => PyEq(getProp(r, p), v)
  }

  /** The test as a predicate on records, for filtering. */
  function Test(getProp: PropGetter, t: GroupTest): Record -> bool {
    (r: Record) => Matches(getProp, t, r)
  }

  datatype ParserOutput =
    | Flat(records: seq<Record>)
    | Grouped(groups: Entries<string, seq<Record>>)

  /** `_check_prop_valid`. */
  function CheckPropValid(supported: SupportCheck, prop: ServerProperty): (r: Outcome<QueryError>)
    ensures r.Pass? <==> supported(prop)
    ensures r.Fail? ==> r.error == QueryPropertyMappingError(NotSupportedByPropHandler)
  {
    if supported(prop) then Pass else Fail(QueryPropertyMappingError(NotSupportedByPropHandler))
  }

  /** How many leading sort specs name supported properties. */
  function SupportedPrefix(supported: SupportCheck, specs: seq<(ServerProperty, bool)>): (n: nat)
    ensures n <= |specs|
    ensures forall i :: 0 <= i < n ==> supported(specs[i].0)
    ensures n < |specs| ==> !supported(specs[n].0)
    decreases |specs|
  {
    if |specs| == 0 || !supported(specs[0].0) then 0
    else 1 + SupportedPrefix(supported, specs[1..])
  }

  /** The sort passes `_run_sort` performs for the recorded specs. */
  function SortKeys(getProp: PropGetter, sortBy: Entries<ServerProperty, bool>): (ks: seq<SortKey<Record>>)
    ensures |ks| == |sortBy|
  {
    seq(|sortBy|, i requires 0 <= i < |sortBy| => SortKey((r: Record) => getProp(r, sortBy[i].0), sortBy[i].1))
  }

  /** The explicit groups of one `parse_group_by` call, in the order of its dictionary. */
  function RangeTests(prop: ServerProperty, ranges: Entries<string, seq<Value>>): (ts: seq<(string, GroupTest)>)
    ensures |ts| == |ranges|
  {
    seq(|ranges|, i requires 0 <= i < |ranges| => (ranges[i].0, InRange(prop, ranges[i].1)))
  }

  /** `all_prop_list`: every value listed in any range. */
  function RangeValues(ranges: Entries<string, seq<Value>>): (vs: seq<Value>)
    ensures forall v :: InValues(v, vs) <==> exists i :: 0 <= i < |ranges| && InValues(v, ranges[i].1)
    decreases |ranges|
  {
    if |ranges| == 0 then []
    else
      var pre := ranges[..|ranges| - 1];
      var vs := RangeValues(pre) + ranges[|ranges| - 1].1;
      assert forall v :: InValues(v, vs) <==> InValues(v, RangeValues(pre)) || InValues(v, ranges[|ranges| - 1].1) by {
        forall v ensures InValues(v, vs) <==> InValues(v, RangeValues(pre)) || InValues(v, ranges[|ranges| - 1].1) {
          if InValues(v, vs) {
            var k :| 0 <= k < |vs| && PyEq(v, vs[k]);
            if k >= |RangeValues(pre)| {
              assert vs[k] == ranges[|ranges| - 1].1[k - |RangeValues(pre)|];
            }
          }
          if InValues(v, RangeValues(pre)) {
            var k :| 0 <= k < |RangeValues(pre)| && PyEq(v, RangeValues(pre)[k]);
            assert vs[k] == RangeValues(pre)[k];
          }
          if InValues(v, ranges[|ranges| - 1].1) {
            var k :| 0 <= k < |ranges[|ranges| - 1].1| && PyEq(v, ranges[|ranges| - 1].1[k]);
            assert vs[|RangeValues(pre)| + k] == ranges[|ranges| - 1].1[k];
          }
        }
      }
      assert forall i :: 0 <= i < |pre| ==> pre[i] == ranges[i];
      vs
  }

  /** The group mappings after one successful `parse_group_by`. */
  function WithRanges(gm: Entries<string, GroupTest>, prop: ServerProperty,
                      ranges: Option<Entries<string, seq<Value>>>, includeMissing: bool): Entries<string, GroupTest>
  {
    if ranges.None? || |ranges.value| == 0 then gm
    else
      var g := UpdateAll(gm, RangeTests(prop, ranges.value));
      if includeMissing then Update(g, UngroupedName, OutsideRanges(prop, RangeValues(ranges.value))) else g
  }

  /** The grouped property's value of every record, in order. */
  function ColumnValues(getProp: PropGetter, objs: seq<Record>, prop: ServerProperty): (vs: seq<Value>)
    ensures |vs| == |objs|
    ensures forall i :: 0 <= i < |objs| ==> vs[i] == getProp(objs[i], prop)
  {
    seq(|objs|, i requires 0 <= i < |objs| => getProp(objs[i], prop))
  }

  const PyEqFn: (Value, Value) -> bool := (a: Value, b: Value) => PyEq(a, b)

  lemma PyEqFnIsEquivalence()
    ensures IsEquivalence(PyEqFn)
  {
    forall a, b, c ensures PyEq(a, a) && (PyEq(a, b) ==> PyEq(b, a)) && (PyEq(a, b) && PyEq(b, c) ==> PyEq(a, c)) {
      PyEqIsEquivalence(a, b, c);
    }
  }

  /** The keys of the ordered dict `{get_prop(obj, prop): None for obj in obj_list}`. */
  function UniqueVals(getProp: PropGetter, objs: seq<Record>, prop: ServerProperty): seq<Value> {
    DedupBy(ColumnValues(getProp, objs, prop), PyEqFn)
  }

  /** The name of the automatic group for value `v`. */
  function GroupName(prop: ServerProperty, v: Value): string {
    prop.Name() + " with value " + Show(v)
  }

  function ValueGroups(prop: ServerProperty, vals: seq<Value>): (gs: seq<(string, GroupTest)>)
    ensures |gs| == |vals|
  {
    seq(|vals|, i requires 0 <= i < |vals| => (GroupName(prop, vals[i]), HasValue(prop, vals[i])))
  }

  /**
   * `_build_unique_val_groups`: one group per distinct value, by dict update.
   * The result is a dictionary, and each of its groups is named after a value
   * some record has and accepts the records with that value.
   */
  function BuildUniqueValGroups(getProp: PropGetter, objs: seq<Record>, prop: ServerProperty): (g: Entries<string, GroupTest>)
    ensures UniqueKeys(g)
    ensures forall e :: e in g ==>
              e.1.HasValue? && e.1.prop == prop && e.0 == GroupName(prop, e.1.val) &&
              e.1.val in ColumnValues(getProp, objs, prop)
  {
    var vals := UniqueVals(getProp, objs, prop);
    var groups := ValueGroups(prop, vals);
    UpdateAllKeepsUnique([], groups);
    UpdateAllEntriesFrom([], groups);
    PyEqFnIsEquivalence();
    DedupCovers(ColumnValues(getProp, objs, prop), PyEqFn);
    assert forall e :: e in groups ==> e.1.HasValue? && e.1.prop == prop && e.0 == GroupName(prop, e.1.val) && e.1.val in vals;
    UpdateAll([], groups)
  }

  /** `_run_group_by`: each group holds the records its test accepts, in input order. */
  function RunGroupBy(getProp: PropGetter, objs: seq<Record>, gm: Entries<string, GroupTest>): (r: Entries<string, seq<Record>>)
    ensures |r| == |gm|
    ensures forall i :: 0 <= i < |gm| ==> r[i].0 == gm[i].0
    ensures forall i, x :: 0 <= i < |gm| ==> (x in r[i].1 <==> x in objs && Matches(getProp, gm[i].1, x))
  {
    seq(|gm|, i requires 0 <= i < |gm| => (gm[i].0, Filter(objs, Test(getProp, gm[i].1))))
  }

  // ---------------------------------------------------------------------
  // What the recorded configuration means
  // ---------------------------------------------------------------------

  /** A repeated sort property keeps its first position and takes its last flag. */
  lemma RecordedSortSpecs(kvs: seq<(ServerProperty, bool)>)
    ensures Keys(UpdateAll([], kvs)) == DedupBy(Keys(kvs), SameKey<ServerProperty>())
    ensures forall p :: Get(UpdateAll([], kvs), p) == LastValue(kvs, p)
  {
    KeysUpdateAll(kvs);
    forall p ensures Get(UpdateAll([], kvs), p) == LastValue(kvs, p) {
      GetUpdateAll([], kvs, p);
    }
  }

  /** A named range becomes a group testing membership in exactly its own list. */
  lemma {:induction false} ExplicitGroupTest(gm: Entries<string, GroupTest>, prop: ServerProperty,
                                             rs: Entries<string, seq<Value>>, includeMissing: bool, i: nat)
    requires UniqueKeys(rs) && i < |rs|
    requires !(includeMissing && rs[i].0 == UngroupedName)
    ensures Get(WithRanges(gm, prop, Some(rs), includeMissing), rs[i].0) == Some(InRange(prop, rs[i].1))
  {
    var tests := RangeTests(prop, rs);
    assert UniqueKeys(tests) by {
      assert forall j :: 0 <= j < |rs| ==> tests[j].0 == rs[j].0;
    }
    LastValueUnique(tests, i);
    GetUpdateAll(gm, tests, rs[i].0);
    if includeMissing {
      GetUpdate(UpdateAll(gm, tests), UngroupedName, OutsideRanges(prop, RangeValues(rs)), rs[i].0);
    }
  }

  /** "ungrouped results" accepts exactly the records whose value lies in no range. */
  lemma UngroupedGroupTest(getProp: PropGetter, gm: Entries<string, GroupTest>, prop: ServerProperty,
                           rs: Entries<string, seq<Value>>, r: Record)
    requires |rs| > 0
    ensures Get(WithRanges(gm, prop, Some(rs), true), UngroupedName) == Some(OutsideRanges(prop, RangeValues(rs)))
    ensures Matches(getProp, OutsideRanges(prop, RangeValues(rs)), r) <==>
              forall i :: 0 <= i < |rs| ==> !Matches(getProp, InRange(prop, rs[i].1), r)
  {
    GetUpdate(UpdateAll(gm, RangeTests(prop, rs)), UngroupedName, OutsideRanges(prop, RangeValues(rs)), UngroupedName);
  }

  /** `parse_group_by` never removes or reorders groups recorded before. */
  lemma ParseGroupByNeverClears(gm: Entries<string, GroupTest>, prop: ServerProperty,
                                ranges: Option<Entries<string, seq<Value>>>, includeMissing: bool)
    ensures |gm| <= |WithRanges(gm, prop, ranges, includeMissing)|
    ensures Keys(WithRanges(gm, prop, ranges, includeMissing))[..|gm|] == Keys(gm)
  {
    if ranges.Some? && |ranges.value| > 0 {
      var g := UpdateAll(gm, RangeTests(prop, ranges.value));
      KeysUpdateAllExtends(gm, RangeTests(prop, ranges.value));
      if includeMissing {
        var g' := Update(g, UngroupedName, OutsideRanges(prop, RangeValues(ranges.value)));
        KeysUpdate(g, UngroupedName, OutsideRanges(prop, RangeValues(ranges.value)));
        assert Keys(g')[..|g|] == Keys(g);
        assert Keys(g')[..|gm|] == Keys(g')[..|g|][..|gm|];
      }
    } else {
      assert Keys(gm)[..|gm|] == Keys(gm);
    }
  }

  // ---------------------------------------------------------------------
  // What the groups hold
  // ---------------------------------------------------------------------

  /** The group of a given name holds exactly the records its test accepts, in input order. */
  lemma {:induction false} GroupByName(getProp: PropGetter, objs: seq<Record>, gm: Entries<string, GroupTest>, name: string)
    ensures Get(RunGroupBy(getProp, objs, gm), name).Some? <==> Get(gm, name).Some?
    ensures Get(gm, name).Some? ==>
              Get(RunGroupBy(getProp, objs, gm), name).value == Filter(objs, Test(getProp, Get(gm, name).value))
    decreases |gm|
  {
    if |gm| > 0 {
      assert RunGroupBy(getProp, objs, gm)[1..] == RunGroupBy(getProp, objs, gm[1..]);
      GroupByName(getProp, objs, gm[1..], name);
    }
  }

  /** Grouping keeps the sorted order inside every group. */
  lemma GroupsKeepSortOrder(s: seq<Record>, ks: seq<SortKey<Record>>, p: Record -> bool)
    requires LexSorted(s, ks)
    ensures LexSorted(Filter(s, p), ks)
  {
    var rel := (x: Record, y: Record) => !LexBefore(ks, y, x);
    assert Pairwise(s, rel);
    FilterPairwise(s, p, rel);
    var f := Filter(s, p);
    forall i, j | 0 <= i < j < |f| ensures !LexBefore(ks, f[j], f[i]) {
      assert rel(f[i], f[j]);
    }
  }

  /** With distinct names, the automatic groups are one per distinct value, in first-seen order. */
  lemma UniqueValGroupsFirstSeen(getProp: PropGetter, objs: seq<Record>, prop: ServerProperty)
    requires UniqueKeys(ValueGroups(prop, UniqueVals(getProp, objs, prop)))
    ensures BuildUniqueValGroups(getProp, objs, prop) == ValueGroups(prop, FirstOccurrences(ColumnValues(getProp, objs, prop), PyEqFn))
  {
    UpdateAllFresh([], ValueGroups(prop, UniqueVals(getProp, objs, prop)));
    assert [] + ValueGroups(prop, UniqueVals(getProp, objs, prop)) == ValueGroups(prop, UniqueVals(getProp, objs, prop));
    PyEqFnIsEquivalence();
    DedupIsFirstOccurrences(ColumnValues(getProp, objs, prop), PyEqFn);
  }

  /** Distinct values with a representative of `v` among them: exactly one value group accepts `v`. */
  lemma ValueGroupsPartition(getProp: PropGetter, prop: ServerProperty, vals: seq<Value>, o: Record)
    requires forall i, j :: 0 <= i < j < |vals| ==> !PyEq(vals[i], vals[j])
    requires exists i :: 0 <= i < |vals| && PyEq(vals[i], getProp(o, prop))
    ensures exists i :: 0 <= i < |vals| && Matches(getProp, ValueGroups(prop, vals)[i].1, o)
    ensures forall i, j :: 0 <= i < |vals| && 0 <= j < |vals| &&
              Matches(getProp, ValueGroups(prop, vals)[i].1, o) && Matches(getProp, ValueGroups(prop, vals)[j].1, o)
              ==> i == j
  {
    var g := ValueGroups(prop, vals);
    var v := getProp(o, prop);
    var i :| 0 <= i < |vals| && PyEq(vals[i], v);
    PyEqIsEquivalence(vals[i], v, vals[i]);
    assert Matches(getProp, g[i].1, o);
    forall i, j | 0 <= i < |vals| && 0 <= j < |vals| && Matches(getProp, g[i].1, o) && Matches(getProp, g[j].1, o)
      ensures i == j
    {
      PyEqIsEquivalence(vals[i], v, vals[j]);
      PyEqIsEquivalence(v, vals[i], vals[j]);
    }
  }

  /** With distinct names, every record falls in exactly one automatic group. */
  lemma UniqueValGroupsPartition(getProp: PropGetter, objs: seq<Record>, prop: ServerProperty, k: nat)
    requires UniqueKeys(ValueGroups(prop, UniqueVals(getProp, objs, prop)))
    requires k < |objs|
    ensures var g := BuildUniqueValGroups(getProp, objs, prop);
            && (exists i :: 0 <= i < |g| && Matches(getProp, g[i].1, objs[k]))
            && (forall i, j :: 0 <= i < |g| && 0 <= j < |g| && Matches(getProp, g[i].1, objs[k]) &&
                  Matches(getProp, g[j].1, objs[k])
                  ==> i == j)
  {
    var vals := UniqueVals(getProp, objs, prop);
    var g := ValueGroups(prop, vals);
    assert BuildUniqueValGroups(getProp, objs, prop) == g by {
      UpdateAllFresh([], g);
      assert [] + g == g;
    }
    var col := ColumnValues(getProp, objs, prop);
    assert col[k] == getProp(objs[k], prop);
    assert (exists i :: 0 <= i < |vals| && PyEq(vals[i], getProp(objs[k], prop)))
        && (forall i, j :: 0 <= i < j < |vals| ==> !PyEq(vals[i], vals[j])) by {
      PyEqFnIsEquivalence();
      DedupCovers(col, PyEqFn);
      var i :| 0 <= i < |vals| && PyEqFn(vals[i], col[k]);
      assert PyEq(vals[i], getProp(objs[k], prop));
    }
    ValueGroupsPartition(getProp, prop, vals, objs[k]);
  }

  /** A non-empty list always yields at least one automatic group. */
  lemma UniqueValGroupsNonEmpty(getProp: PropGetter, objs: seq<Record>, prop: ServerProperty)
    requires |objs| > 0
    ensures |BuildUniqueValGroups(getProp, objs, prop)| > 0
  {
    var col := ColumnValues(getProp, objs, prop);
    assert |UniqueVals(getProp, objs, prop)| > 0 by {
      PyEqFnIsEquivalence();
      DedupCovers(col, PyEqFn);
      assert HasEq(UniqueVals(getProp, objs, prop), col[0], PyEqFn);
    }
    var kvs := ValueGroups(prop, UniqueVals(getProp, objs, prop));
    assert UpdateAll([], kvs) == Update(UpdateAll([], kvs[..|kvs| - 1]), kvs[|kvs| - 1].0, kvs[|kvs| - 1].1);
  }

  /** A prop getter for records that are their own property value. */
  function OwnValue(r: Record, p: ServerProperty): Value {
    r
  }

  lemma CollidingValues()
    ensures UniqueVals(OwnValue, [VInt(1), VStr("1")], ServerName) == [VInt(1), VStr("1")]
  {
    var objs := [VInt(1), VStr("1")];
    var col := ColumnValues(OwnValue, objs, ServerName);
    assert |col| == 2 && col[0] == VInt(1) && col[1] == VStr("1");
    assert col[..1] == [VInt(1)];
    assert DedupBy(col[..1], PyEqFn) == [VInt(1)] by {
      assert col[..1][..0] == [];
    }
    assert !PyEqFn(VInt(1), VStr("1"));
  }

  lemma CollidingNames()
    ensures GroupName(ServerName, VInt(1)) == "SERVER_NAME with value 1"
    ensures GroupName(ServerName, VStr("1")) == "SERVER_NAME with value 1"
  {
    assert Show(VInt(1)) == "1";
  }

  /** Deduplicating 2, 1, 2, 3 keeps 2, 1 and 3. */
  lemma FirstSeenDedup()
    ensures DedupBy([VInt(2), VInt(1), VInt(2), VInt(3)], PyEqFn) == [VInt(2), VInt(1), VInt(3)]
  {
    var col := [VInt(2), VInt(1), VInt(2), VInt(3)];
    assert col[..3][..2] == col[..2];
    assert col[..2][..1] == [VInt(2)];
    assert col[..1] == [VInt(2)] && col[..1][..0] == [];
    assert DedupBy(col[..1], PyEqFn) == [VInt(2)];
    assert !PyEqFn(VInt(2), VInt(1));
    assert DedupBy(col[..2], PyEqFn) == [VInt(2), VInt(1)];
    assert HasEq([VInt(2), VInt(1)], VInt(2), PyEqFn);
    assert col[..3] == col[..4][..3];
    assert !HasEq([VInt(2), VInt(1)], VInt(3), PyEqFn);
  }

  /** The values 2, 1, 2, 3 give automatic groups for 2, 1 and 3, in that order. */
  lemma FirstSeenOrderExample()
    ensures UniqueVals(OwnValue, [VInt(2), VInt(1), VInt(2), VInt(3)], ServerStatus) == [VInt(2), VInt(1), VInt(3)]
  {
    var col := ColumnValues(OwnValue, [VInt(2), VInt(1), VInt(2), VInt(3)], ServerStatus);
    assert |col| == 4 && col[0] == VInt(2) && col[1] == VInt(1) && col[2] == VInt(2) && col[3] == VInt(3);
    assert col == [VInt(2), VInt(1), VInt(2), VInt(3)];
    FirstSeenDedup();
  }

  /** Ranges "low" = [1, 2] and "high" = [3, 4] with the ungrouped group give three groups, in that order. */
  lemma RangesExampleMappings()
    ensures WithRanges([], ServerStatus, Some([("low", [VInt(1), VInt(2)]), ("high", [VInt(3), VInt(4)])]), true)
            == [("low", InRange(ServerStatus, [VInt(1), VInt(2)])), ("high", InRange(ServerStatus, [VInt(3), VInt(4)])),
                (UngroupedName, OutsideRanges(ServerStatus, [VInt(1), VInt(2), VInt(3), VInt(4)]))]
  {
    var rs := [("low", [VInt(1), VInt(2)]), ("high", [VInt(3), VInt(4)])];
    assert rs[..1] == [("low", [VInt(1), VInt(2)])] && rs[..1][..0] == [];
    assert RangeValues(rs[..1]) == [VInt(1), VInt(2)];
    assert RangeValues(rs) == [VInt(1), VInt(2), VInt(3), VInt(4)];
    var tests := RangeTests(ServerStatus, rs);
    var lo, hi := tests[0], tests[1];
    assert lo == ("low", InRange(ServerStatus, [VInt(1), VInt(2)]));
    assert hi == ("high", InRange(ServerStatus, [VInt(3), VInt(4)]));
    assert tests[..1] == [lo] && tests[..1][..0] == [];
    assert UpdateAll([], tests[..1]) == [lo];
    assert [lo][1..] == [];
    assert UpdateAll([], tests) == Update([lo], "high", hi.1) == [lo, hi];
    assert [lo, hi][1..] == [hi] && [hi][1..] == [];
  }

  /** The values 1 and '1' both render as "1": the later group replaces the earlier one. */
  lemma NameCollisionDropsGroup()
    ensures BuildUniqueValGroups(OwnValue, [VInt(1), VStr("1")], ServerName)
            == [("SERVER_NAME with value 1", HasValue(ServerName, VStr("1")))]
    ensures RunGroupBy(OwnValue, [VInt(1), VStr("1")], BuildUniqueValGroups(OwnValue, [VInt(1), VStr("1")], ServerName))
            == [("SERVER_NAME with value 1", [VStr("1")])]
  {
    var objs := [VInt(1), VStr("1")];
    CollidingValues();
    CollidingNames();
    var name := "SERVER_NAME with value 1";
    var x, y := HasValue(ServerName, VInt(1)), HasValue(ServerName, VStr("1"));
    var vg := ValueGroups(ServerName, objs);
    assert vg == [(name, x), (name, y)];
    assert vg[..1] == [(name, x)];
    assert vg[..1][..0] == [];
    assert UpdateAll([], vg[..1]) == [(name, x)];
    assert Update([(name, x)], name, y) == [(name, y)];
    var f := Test(OwnValue, y);
    assert !f(VInt(1)) && f(VStr("1"));
    assert Filter(objs, f) == [VStr("1")] by {
      assert objs[1..] == [VStr("1")];
      assert objs[1..][1..] == [];
    }
  }

  class QueryParser {
    const getProp: PropGetter
    const supported: SupportCheck

    /** `_sort_by`: property to descending flag, in the order given. */
    var sortBy: Entries<ServerProperty, bool>
    /** `_group_by`. */
    var groupBy: Option<ServerProperty>
    /** `_group_mappings`: group name to membership test. */
    var groupMappings: Entries<string, GroupTest>

    constructor (propGetter: PropGetter, propSupported: SupportCheck)
      ensures getProp == propGetter && supported == propSupported
      ensures sortBy == [] && groupBy == None && groupMappings == []
    {
      getProp := propGetter;
      supported := propSupported;
      sortBy := [];
      groupBy := None;
      groupMappings := [];
    }

    /** `parse_sort_by`: record the specs up to the first unsupported property. */
    method ParseSortBy(specs: seq<(ServerProperty, bool)>) returns (r: Outcome<QueryError>)
      modifies this
      ensures groupBy == old(groupBy) && groupMappings == old(groupMappings)
      ensures sortBy == UpdateAll([], specs[..SupportedPrefix(supported, specs)])
      ensures r.Pass? <==> SupportedPrefix(supported, specs) == |specs|
      ensures r.Fail? ==> r.error == QueryPropertyMappingError(NotSupportedByPropHandler)
    {
      ghost var n := SupportedPrefix(supported, specs);
      sortBy := [];
      var i := 0;
      while i < |specs|
        invariant 0 <= i <= |specs|
        invariant i <= n
        invariant sortBy == UpdateAll([], specs[..i])
        invariant groupBy == old(groupBy) && groupMappings == old(groupMappings)
      {
        var (prop, descending) := specs[i];
        var valid := CheckPropValid(supported, prop);
        if valid.Fail? {
          return valid;
        }
        assert specs[..i + 1][..i] == specs[..i];
        sortBy := Update(sortBy, prop, descending);
        i := i + 1;
      }
      assert specs[..i] == specs;
      return Pass;
    }

    /** `parse_group_by`: set the grouped property and add the explicit groups. */
    method ParseGroupBy(prop: ServerProperty, ranges: Option<Entries<string, seq<Value>>>, includeMissing: bool)
      returns (r: Outcome<QueryError>)
      modifies this
      ensures sortBy == old(sortBy)
      ensures r.Pass? <==> supported(prop)
      ensures r.Fail? ==> r.error == QueryPropertyMappingError(NotSupportedByPropHandler) &&
                            groupBy == old(groupBy) && groupMappings == old(groupMappings)
      ensures r.Pass? ==> groupBy == Some(prop) &&
                            groupMappings == WithRanges(old(groupMappings), prop, ranges, includeMissing)
    {
      var valid := CheckPropValid(supported, prop);
      if valid.Fail? {
        return valid;
      }
      groupBy := Some(prop);
      if ranges.Some? && |ranges.value| > 0 {
        var rs := ranges.value;
        ghost var tests := RangeTests(prop, rs);
        var allVals: seq<Value> := [];
        var i := 0;
        while i < |rs|
          invariant 0 <= i <= |rs|
          invariant groupMappings == UpdateAll(old(groupMappings), tests[..i])
          invariant allVals == RangeValues(rs[..i])
          invariant sortBy == old(sortBy) && groupBy == Some(prop)
        {
          var (name, vals) := rs[i];
          assert tests[..i + 1][..i] == tests[..i];
          assert rs[..i + 1][..i] == rs[..i];
          groupMappings := Update(groupMappings, name, InRange(prop, vals));
          allVals := allVals + vals;
          i := i + 1;
        }
        assert tests[..i] == tests && rs[..i] == rs;
        if includeMissing {
          groupMappings := Update(groupMappings, UngroupedName, OutsideRanges(prop, allVals));
        }
      }
      return Pass;
    }

    /** `run_parser(obj_list)`: sort the list in place, then group it if a group-by is set. */
    method RunParser(objs: array<Record>) returns (out: ParserOutput)
      modifies this, objs
      ensures sortBy == old(sortBy) && groupBy == old(groupBy)
      ensures objs.Length == 0 ==> out == Flat([]) && groupMappings == old(groupMappings)
      ensures objs[..] == SortAll(old(objs[..]), SortKeys(getProp, sortBy))
      ensures objs.Length > 0 && groupBy.None? ==> out == Flat(objs[..]) && groupMappings == old(groupMappings)
      ensures objs.Length > 0 && groupBy.Some? ==>
                groupMappings == (if old(groupMappings) == [] then BuildUniqueValGroups(getProp, objs[..], groupBy.value)
                                  else old(groupMappings)) &&
                out == Grouped(RunGroupBy(getProp, objs[..], groupMappings))
    {
      if objs.Length == 0 {
        assert objs[..] == [];
        return Flat([]);
      }
      if |sortBy| > 0 {
        RunSort(objs, SortKeys(getProp, sortBy));
      }
      if groupBy.Some? {
        if |groupMappings| == 0 {
          groupMappings := BuildUniqueValGroups(getProp, objs[..], groupBy.value);
        }
        return Grouped(RunGroupBy(getProp, objs[..], groupMappings));
      }
      return Flat(objs[..]);
    }
  }

  /**
   * Groups derived on the first grouped run are stored and reused: a second
   * run is split by the first list's values, whatever its own values are.
   */
  method AutoGroupsCached(getProp: PropGetter, supported: SupportCheck, prop: ServerProperty,
                          first: array<Record>, second: array<Record>)
    returns (out: ParserOutput)
    requires supported(prop) && first.Length > 0
    modifies first, second
    ensures second.Length == 0 ==> out == Flat([])
    ensures second.Length > 0 ==>
              out == Grouped(RunGroupBy(getProp, second[..], BuildUniqueValGroups(getProp, first[..], prop)))
  {
    var parser := new QueryParser(getProp, supported);
    var r := parser.ParseGroupBy(prop, None, false);
    var firstOut := parser.RunParser(first);
    UniqueValGroupsNonEmpty(getProp, first[..], prop);
    out := parser.RunParser(second);
  }
}
