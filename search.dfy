/** The search and close-call settings (`Search` in
    pyuniden/other_classes.py): the global lockout poll and the defaulting
    `load` applies to the dictionaries it is given. */
module Searches {
  import opened Wrappers
  import opened Errors
  import opened Protocol
  import opened Chains
  import opened Util

  /** How `load` turns a value it is given into the one it stores. */
  datatype Convert =
    | Keep
      /** A label looked up in one of the `scanner_*` tables; a missing label
          is a `KeyError`. */
    | Lookup(table: map<string, string>)
      /** `frq_to_scanner`. */
    | Frequency
      /** A conversion through `float` (`str(100*float(x))` and the like);
          `None` where `float` raises. */
    | Scale(scale: string -> Option<string>)

  /** The label tables `load` reads; they live outside the modelled files,
      so they are parameters. */
  datatype Tables = Tables(onOff: map<string, string>, ctcssDcs: map<string, string>,
                           alertTones: map<string, string>, alertLevels: map<string, string>,
                           lockout: map<string, string>, ccModes: map<string, string>,
                           alertPatterns: map<string, string>,
                           step: string -> Option<string>, intStep: string -> Option<string>)

  function Converted(c: Convert, v: string): (r: Result<string, Error>)
    ensures c.Keep? ==> r == Success(v)
    ensures c.Lookup? ==> (r.Success? <==> v in c.table) && (r.Success? ==> r.value == c.table[v])
  {
    match c
    case Keep => Success(v)
    case Lookup(table) => if v in table then Success(table[v]) else Failure(KeyError(v))
    case Frequency => FrqToScanner(v)
    case Scale(scale) => if scale(v).Some? then Success(scale(v).value) else Failure(FloatError(v))
  }

  /** One `if key not in given: ... else: ...` pair of `load`. */
  datatype Field = Field(key: string, conv: Convert)

  function Keys(plan: seq<Field>): (keys: seq<string>)
    ensures |keys| == |plan| && forall i :: 0 <= i < |plan| ==> keys[i] == plan[i].key
  {
    if |plan| == 0 then [] else [plan[0].key] + Keys(plan[1..])
  }

  ghost predicate Distinct(plan: seq<Field>)
  {
    forall i, j :: 0 <= i < j < |plan| ==> plan[i].key != plan[j].key
  }

  /** Each key mapped to the empty string: the literal default records. */
  function Blanks(keys: seq<string>): (m: map<string, string>)
    ensures forall k :: k in m <==> k in keys
    ensures forall k :: k in m ==> m[k] == ""
  {
    map k | k in keys :: ""
  }

  function SrchCloseCallPlan(t: Tables): seq<Field>
  {
    [Field("agc_analog", Lookup(t.onOff)), Field("agc_digital", Lookup(t.onOff)),
     Field("attenuate", Lookup(t.onOff)), Field("bscreen", Keep), Field("code_srch", Lookup(t.ctcssDcs)),
     Field("delay", Keep), Field("max_store", Keep), Field("modulation", Keep), Field("p25waiting", Keep),
     Field("repeater", Lookup(t.onOff))]
  }

  function CloseCallPlan(t: Tables): seq<Field>
  {
    [Field("band", Keep), Field("beep", Lookup(t.alertTones)), Field("color", Keep), Field("hold", Keep),
     Field("level", Lookup(t.alertLevels)), Field("lockout", Lookup(t.lockout)), Field("mode", Lookup(t.ccModes)),
     Field("number_tag", Keep), Field("override", Lookup(t.onOff)), Field("pattern", Lookup(t.alertPatterns)),
     Field("pause", Keep), Field("quick_key", Keep)]
  }

  function BandScopePlan(t: Tables): seq<Field>
  {
    [Field("frequency", Frequency), Field("max_hold", Keep), Field("span", Keep), Field("step", Scale(t.step))]
  }

  function CustomSearchPlan(t: Tables): seq<Field>
  {
    [Field("agc_analog", Lookup(t.onOff)), Field("agc_digital", Lookup(t.onOff)),
     Field("attenuation", Lookup(t.onOff)), Field("cch", Lookup(t.onOff)), Field("delay", Keep),
     Field("hold", Keep), Field("limit_l", Frequency), Field("limit_h", Frequency),
     Field("lockout", Lookup(t.lockout)), Field("modulation", Keep), Field("name", Keep),
     Field("number_tag", Keep), Field("p25waiting", Keep), Field("quick_key", Keep),
     Field("start_key", Keep), Field("step", Scale(t.intStep))]
  }

  function ServiceSearchPlan(t: Tables): seq<Field>
  {
    [Field("agc_analog", Lookup(t.onOff)), Field("agc_digital", Lookup(t.onOff)),
     Field("attenuation", Lookup(t.onOff)), Field("delay", Keep), Field("hold", Keep),
     Field("lockout", Lookup(t.lockout)), Field("number_tag", Keep), Field("p25waiting", Keep),
     Field("quick_key", Keep), Field("start_key", Keep)]
  }

  /** The broadcast-screen band record keys. */
  const BandKeys: seq<string> := ["limit_l", "limit_h"]

  /** The service searches `load` and `set_data` visit. */
  const ServiceIndexes: seq<int> := [1, 2, 3, 4, 5, 6, 7, 8, 9, 11, 12, 15]

  /** A dictionary after some of `load`'s updates, and whether they all ran. */
  datatype Loaded = Loaded(dict: map<string, string>, outcome: Outcome<Error>)

  /** `plan`'s updates applied in place to `m`: a key absent from `given`
      becomes the empty string, a present one its converted value; the
      first conversion that raises stops the run with the updates so far. */
  function LoadFields(m: map<string, string>, plan: seq<Field>, given: map<string, string>): Loaded
    decreases |plan|
  {
    if |plan| == 0 then Loaded(m, Pass)
    else
      var f := plan[0];
      if f.key !in given then LoadFields(m[f.key := ""], plan[1..], given)
      else
        match Converted(f.conv, given[f.key])
        case Failure(e) => Loaded(m, Fail(e))
        case Success(v) => LoadFields(m[f.key := v], plan[1..], given)
  }

  /** What `load` promises for one field once it has run. */
  ghost predicate FieldLoaded(f: Field, given: map<string, string>, d: map<string, string>)
  {
    f.key in d
    && (if f.key in given then Converted(f.conv, given[f.key]) == Success(d[f.key]) else d[f.key] == "")
  }

  ghost predicate AllLoaded(plan: seq<Field>, given: map<string, string>, d: map<string, string>)
  {
    forall i :: 0 <= i < |plan| ==> FieldLoaded(plan[i], given, d)
  }

  /** A field whose given value the conversion rejects. */
  ghost predicate Rejects(f: Field, given: map<string, string>)
  {
    f.key in given && Converted(f.conv, given[f.key]).Failure?
  }

  /** The first field of a plan of distinct keys: the rest is distinct too,
      and holds no field under the first one's key. */
  lemma DistinctFirst(plan: seq<Field>)
    requires |plan| > 0 && Distinct(plan)
    ensures Distinct(plan[1..])
    ensures plan[0].key !in Keys(plan[1..])
    ensures Keys(plan) == [plan[0].key] + Keys(plan[1..])
  {
    var rest := plan[1..];
    forall i, j | 0 <= i < j < |rest| ensures rest[i].key != rest[j].key {
      assert rest[i] == plan[i + 1] && rest[j] == plan[j + 1];
    }
    forall j | 0 <= j < |rest| ensures Keys(rest)[j] != plan[0].key {
      assert rest[j] == plan[j + 1];
    }
  }

  /** The value the first field of a plan is given, when it is not rejected. */
  function FirstValue(f: Field, given: map<string, string>): string
    requires !Rejects(f, given)
  {
    if f.key in given then Converted(f.conv, given[f.key]).value else ""
  }

  /** A run of updates sets every planned key as `load` promises, leaves the
      other keys alone, and fails exactly when one of the given values is
      rejected. */
  lemma LoadFieldsMeaning(m: map<string, string>, plan: seq<Field>, given: map<string, string>)
    requires Distinct(plan)
    ensures var l := LoadFields(m, plan, given);
            (l.outcome.Pass? ==> AllLoaded(plan, given, l.dict))
            && (l.outcome.Fail? <==> exists i :: 0 <= i < |plan| && Rejects(plan[i], given))
            && (forall k :: k !in Keys(plan) ==> (k in l.dict <==> k in m) && (k in m ==> l.dict[k] == m[k]))
  {
    LoadFieldsKeep(m, plan, given);
    LoadFieldsStops(m, plan, given);
    LoadFieldsSets(m, plan, given);
  }

  /** Keys outside the plan are left alone. */
  lemma {:induction false} LoadFieldsKeep(m: map<string, string>, plan: seq<Field>, given: map<string, string>)
    requires Distinct(plan)
    ensures var l := LoadFields(m, plan, given);
            forall k :: k !in Keys(plan) ==> (k in l.dict <==> k in m) && (k in m ==> l.dict[k] == m[k])
    decreases |plan|
  {
    if |plan| > 0 {
      DistinctFirst(plan);
      if !Rejects(plan[0], given) {
        LoadFieldsKeep(m[plan[0].key := FirstValue(plan[0], given)], plan[1..], given);
      }
    }
  }

  /** The run fails exactly when some given value is rejected. */
  lemma {:induction false} LoadFieldsStops(m: map<string, string>, plan: seq<Field>, given: map<string, string>)
    ensures LoadFields(m, plan, given).outcome.Fail? <==> exists i :: 0 <= i < |plan| && Rejects(plan[i], given)
    decreases |plan|
  {
    if |plan| > 0 {
      var rest := plan[1..];
      if Rejects(plan[0], given) {
        assert Rejects(plan[0], given);
      } else {
        var m' := m[plan[0].key := FirstValue(plan[0], given)];
        LoadFieldsStops(m', rest, given);
        if LoadFields(m', rest, given).outcome.Fail? {
          var i :| 0 <= i < |rest| && Rejects(rest[i], given);
          assert plan[i + 1] == rest[i];
        } else {
          forall i | 0 <= i < |plan| ensures !Rejects(plan[i], given) {
            if i > 0 { assert plan[i] == rest[i - 1]; }
          }
        }
      }
    }
  }

  /** A run that does not fail sets every planned key as promised. */
  lemma {:induction false} LoadFieldsSets(m: map<string, string>, plan: seq<Field>, given: map<string, string>)
    requires Distinct(plan)
    ensures var l := LoadFields(m, plan, given);
            l.outcome.Pass? ==> AllLoaded(plan, given, l.dict)
    decreases |plan|
  {
    if |plan| > 0 && !Rejects(plan[0], given) {
      var f := plan[0];
      var rest := plan[1..];
      DistinctFirst(plan);
      var m' := m[f.key := FirstValue(f, given)];
      var l := LoadFields(m', rest, given);
      LoadFieldsSets(m', rest, given);
      if l.outcome.Pass? {
        LoadFieldsKeep(m', rest, given);
        forall i | 0 <= i < |plan| ensures FieldLoaded(plan[i], given, l.dict) {
          if i > 0 {
            assert plan[i] == rest[i - 1];
          }
        }
      }
    }
  }

  /** With nothing given, the updates set every planned key to the empty
      string: the literal default records are what loading an empty
      dictionary would give. */
  lemma {:induction false} LoadNothingIsBlank(m: map<string, string>, plan: seq<Field>)
    ensures LoadFields(m, plan, map[]) == Loaded(m + Blanks(Keys(plan)), Pass)
    decreases |plan|
  {
    if |plan| == 0 {
      assert m + Blanks([]) == m;
    } else {
      var k := plan[0].key;
      LoadNothingIsBlank(m[k := ""], plan[1..]);
      assert Keys(plan) == [k] + Keys(plan[1..]);
      var lhs := m[k := ""] + Blanks(Keys(plan[1..]));
      var rhs := m + Blanks(Keys(plan));
      assert forall x :: x in lhs <==> x in rhs;
      assert forall x :: x in lhs ==> lhs[x] == rhs[x];
      assert lhs == rhs;
    }
  }

  /** The broadcast-screen band record `load` builds from a given one:
      both limits through `frq_to_scanner`, a missing limit a `KeyError`. */
  function BandRecord(g: map<string, string>): (r: Result<map<string, string>, Error>)
    ensures r.Success? ==> r.value.Keys == {"limit_l", "limit_h"} && "limit_l" in g && "limit_h" in g
                           && FrqToScanner(g["limit_l"]) == Success(r.value["limit_l"])
                           && FrqToScanner(g["limit_h"]) == Success(r.value["limit_h"])
    ensures r.Failure? <==> "limit_l" !in g || FrqToScanner(g["limit_l"]).Failure?
                            || "limit_h" !in g || FrqToScanner(g["limit_h"]).Failure?
  {
    if "limit_l" !in g then Failure(KeyError("limit_l"))
    else match FrqToScanner(g["limit_l"])
      case Failure(e) => Failure(e)
      case Success(lo) =>
        if "limit_h" !in g then Failure(KeyError("limit_h"))
        else match FrqToScanner(g["limit_h"])
          case Failure(e) => Failure(e)
          case Success(hi) => Success(map["limit_l" := lo, "limit_h" := hi])
  }

  /** The arguments of `load`; each defaults to an empty dictionary or list. */
  datatype LoadArgs = LoadArgs(srchCloseCall: map<string, string>, searchKey: seq<string>,
                               closeCall: map<string, string>, customSearchGroup: seq<string>,
                               bandScope: map<string, string>, bcastBands: map<int, map<string, string>>,
                               customSearch: map<int, map<string, string>>, globalLoutFrqs: seq<string>,
                               serviceSearch: map<int, map<string, string>>)

  datatype SearchValue = SearchValue(srchCloseCall: map<string, string>, closeCall: map<string, string>,
                                     bandScope: map<string, string>, bcastBands: map<int, map<string, string>>,
                                     customSearch: map<int, map<string, string>>,
                                     serviceSearch: map<int, map<string, string>>,
                                     searchKey: seq<string>, customSearchGroup: seq<string>,
                                     globalLoutFrqs: seq<string>)

  /** The settings after a stage of `load`, and whether it ran to its end. */
  datatype Stage = Stage(value: SearchValue, outcome: Outcome<Error>)

  /** The three flat dictionaries, in place. */
  function LoadDicts(v: SearchValue, t: Tables, a: LoadArgs): Stage
  {
    LoadDictsWith(v, SrchCloseCallPlan(t), CloseCallPlan(t), BandScopePlan(t), a)
  }

  /** The three flat dictionaries, each loaded by its own plan. */
  function LoadDictsWith(v: SearchValue, sp: seq<Field>, cp: seq<Field>, bp: seq<Field>, a: LoadArgs): Stage
  {
    var s := LoadFields(v.srchCloseCall, sp, a.srchCloseCall);
    var v1 := v.(srchCloseCall := s.dict);
    if s.outcome.Fail? then Stage(v1, s.outcome)
    else
      var c := LoadFields(v.closeCall, cp, a.closeCall);
      var v2 := v1.(closeCall := c.dict);
      if c.outcome.Fail? then Stage(v2, c.outcome)
      else
        var b := LoadFields(v.bandScope, bp, a.bandScope);
        Stage(v2.(bandScope := b.dict), b.outcome)
  }

  /** One round of `for i in range(0,10)`: the broadcast-screen band, then
      the custom search, each replaced as a whole. */
  function LoadBandAt(v: SearchValue, plan: seq<Field>, a: LoadArgs, i: int): Stage
  {
    var b := if i in a.bcastBands then BandRecord(a.bcastBands[i]) else Success(Blanks(BandKeys));
    if b.Failure? then Stage(v, Fail(b.error))
    else
      var v1 := v.(bcastBands := v.bcastBands[i := b.value]);
      if i !in a.customSearch then
        Stage(v1.(customSearch := v1.customSearch[i := Blanks(Keys(plan))]), Pass)
      else
        var c := LoadFields(map[], plan, a.customSearch[i]);
        Stage(v1.(customSearch := v1.customSearch[i := c.dict]), c.outcome)
  }

  /** The rounds `i` to 9. */
  function LoadBandsFrom(v: SearchValue, plan: seq<Field>, a: LoadArgs, i: nat): Stage
    decreases 10 - i
  {
    if i >= 10 then Stage(v, Pass)
    else
      var s := LoadBandAt(v, plan, a, i);
      if s.outcome.Fail? then s else LoadBandsFrom(s.value, plan, a, i + 1)
  }

  /** One round of `for i in indexes`: the service search, replaced as a whole. */
  function LoadServiceAt(v: SearchValue, plan: seq<Field>, a: LoadArgs, i: int): Stage
  {
    if i !in a.serviceSearch then
      Stage(v.(serviceSearch := v.serviceSearch[i := Blanks(Keys(plan))]), Pass)
    else
      var c := LoadFields(map[], plan, a.serviceSearch[i]);
      Stage(v.(serviceSearch := v.serviceSearch[i := c.dict]), c.outcome)
  }

  /** The rounds for the indexes `idx`, in order. */
  function LoadServicesFrom(v: SearchValue, plan: seq<Field>, a: LoadArgs, idx: seq<int>): Stage
    decreases |idx|
  {
    if |idx| == 0 then Stage(v, Pass)
    else
      var s := LoadServiceAt(v, plan, a, idx[0]);
      if s.outcome.Fail? then s else LoadServicesFrom(s.value, plan, a, idx[1..])
  }

  /** The three lists, which cannot raise. */
  function LoadLists(v: SearchValue, a: LoadArgs): SearchValue
  {
    v.(searchKey := if |a.searchKey| == 4 then a.searchKey else ["", "", "", ""],
       customSearchGroup := if |a.customSearchGroup| == 10 then a.customSearchGroup
                            else ["", "", "", "", "", "", "", "", "", ""],
       globalLoutFrqs := if |a.globalLoutFrqs| > 1 then a.globalLoutFrqs else v.globalLoutFrqs)
  }

  /** `Search.load`, stage by stage; the first error ends it. */
  function LoadSettings(v: SearchValue, t: Tables, a: LoadArgs): Stage
  {
    var d := LoadDicts(v, t, a);
    if d.outcome.Fail? then d else LoadRecords(d.value, CustomSearchPlan(t), ServiceSearchPlan(t), ServiceIndexes, a)
  }

  /** What follows the flat dictionaries: the indexed records, then the lists. */
  function LoadRecords(v: SearchValue, cplan: seq<Field>, splan: seq<Field>, idx: seq<int>, a: LoadArgs): Stage
  {
    var b := LoadBandsFrom(v, cplan, a, 0);
    if b.outcome.Fail? then b else LoadServicesAndLists(b.value, splan, idx, a)
  }

  function LoadServicesAndLists(v: SearchValue, splan: seq<Field>, idx: seq<int>, a: LoadArgs): Stage
  {
    var s := LoadServicesFrom(v, splan, a, idx);
    if s.outcome.Fail? then s else Stage(LoadLists(s.value, a), Pass)
  }

  /** Band round `i` as `load` promises it. */
  ghost predicate BandLoaded(plan: seq<Field>, a: LoadArgs, r: SearchValue, i: int)
  {
    i in r.bcastBands && i in r.customSearch
    && (i !in a.bcastBands ==> r.bcastBands[i] == Blanks(BandKeys))
    && (i in a.bcastBands ==> BandRecord(a.bcastBands[i]) == Success(r.bcastBands[i]))
    && (i !in a.customSearch ==> r.customSearch[i] == Blanks(Keys(plan)))
    && (i in a.customSearch ==> AllLoaded(plan, a.customSearch[i], r.customSearch[i]))
  }

  ghost predicate ServiceLoaded(plan: seq<Field>, a: LoadArgs, r: SearchValue, i: int)
  {
    i in r.serviceSearch
    && (i !in a.serviceSearch ==> r.serviceSearch[i] == Blanks(Keys(plan)))
    && (i in a.serviceSearch ==> AllLoaded(plan, a.serviceSearch[i], r.serviceSearch[i]))
  }

  lemma SrchCloseCallDistinct(t: Tables) ensures Distinct(SrchCloseCallPlan(t)) { }
  lemma CloseCallDistinct(t: Tables) ensures Distinct(CloseCallPlan(t)) { }
  lemma BandScopeDistinct(t: Tables) ensures Distinct(BandScopePlan(t)) { }
  lemma CustomSearchDistinct(t: Tables) ensures Distinct(CustomSearchPlan(t)) { }
  lemma ServiceSearchDistinct(t: Tables) ensures Distinct(ServiceSearchPlan(t)) { }

  /** The flat dictionaries as `load` promises them. */
  ghost predicate DictsLoaded(t: Tables, a: LoadArgs, r: SearchValue)
  {
    AllLoaded(SrchCloseCallPlan(t), a.srchCloseCall, r.srchCloseCall)
    && AllLoaded(CloseCallPlan(t), a.closeCall, r.closeCall)
    && AllLoaded(BandScopePlan(t), a.bandScope, r.bandScope)
  }

  /** `m` and `m0` agree outside the indexes `lo` to `hi - 1`. */
  ghost predicate SameOutside<T>(m: map<int, T>, m0: map<int, T>, lo: int, hi: int)
  {
    forall j :: !(lo <= j < hi) ==> (j in m <==> j in m0) && (j in m0 ==> m[j] == m0[j])
  }

  /** Only the band and custom-search records differ. */
  ghost predicate OnlyBands(r: SearchValue, v: SearchValue)
  {
    r.srchCloseCall == v.srchCloseCall && r.closeCall == v.closeCall && r.bandScope == v.bandScope
    && r.serviceSearch == v.serviceSearch && r.searchKey == v.searchKey
    && r.customSearchGroup == v.customSearchGroup && r.globalLoutFrqs == v.globalLoutFrqs
  }

  /** Only the service-search records differ. */
  ghost predicate OnlyServices(r: SearchValue, v: SearchValue)
  {
    r.srchCloseCall == v.srchCloseCall && r.closeCall == v.closeCall && r.bandScope == v.bandScope
    && r.bcastBands == v.bcastBands && r.customSearch == v.customSearch && r.searchKey == v.searchKey
    && r.customSearchGroup == v.customSearchGroup && r.globalLoutFrqs == v.globalLoutFrqs
  }

  /** The flat dictionaries: each planned key as promised, and nothing but
      those three dictionaries touched. */
  lemma LoadDictsMeaning(v: SearchValue, t: Tables, a: LoadArgs)
    ensures var d := LoadDicts(v, t, a).value;
            d.bcastBands == v.bcastBands && d.customSearch == v.customSearch
            && d.serviceSearch == v.serviceSearch && d.searchKey == v.searchKey
            && d.customSearchGroup == v.customSearchGroup && d.globalLoutFrqs == v.globalLoutFrqs
    ensures LoadDicts(v, t, a).outcome.Pass? ==> DictsLoaded(t, a, LoadDicts(v, t, a).value)
  {
    SrchCloseCallDistinct(t);
    CloseCallDistinct(t);
    BandScopeDistinct(t);
    LoadDictsWithMeaning(v, SrchCloseCallPlan(t), CloseCallPlan(t), BandScopePlan(t), a);
  }

  /** The same for any three plans of distinct keys. */
  lemma LoadDictsWithMeaning(v: SearchValue, sp: seq<Field>, cp: seq<Field>, bp: seq<Field>, a: LoadArgs)
    requires Distinct(sp) && Distinct(cp) && Distinct(bp)
    ensures var d := LoadDictsWith(v, sp, cp, bp, a).value;
            d.bcastBands == v.bcastBands && d.customSearch == v.customSearch
            && d.serviceSearch == v.serviceSearch && d.searchKey == v.searchKey
            && d.customSearchGroup == v.customSearchGroup && d.globalLoutFrqs == v.globalLoutFrqs
    ensures var d := LoadDictsWith(v, sp, cp, bp, a);
            d.outcome.Pass? ==> AllLoaded(sp, a.srchCloseCall, d.value.srchCloseCall)
                                && AllLoaded(cp, a.closeCall, d.value.closeCall)
                                && AllLoaded(bp, a.bandScope, d.value.bandScope)
  {
    LoadFieldsSets(v.srchCloseCall, sp, a.srchCloseCall);
    LoadFieldsSets(v.closeCall, cp, a.closeCall);
    LoadFieldsSets(v.bandScope, bp, a.bandScope);
  }

  /** Band round `i` keeps its promise and touches only record `i`. */
  lemma LoadBandAtMeaning(v: SearchValue, plan: seq<Field>, a: LoadArgs, i: int)
    requires Distinct(plan)
    ensures var s := LoadBandAt(v, plan, a, i).value;
            OnlyBands(s, v) && SameOutside(s.bcastBands, v.bcastBands, i, i + 1)
            && SameOutside(s.customSearch, v.customSearch, i, i + 1)
    ensures LoadBandAt(v, plan, a, i).outcome.Pass? ==> BandLoaded(plan, a, LoadBandAt(v, plan, a, i).value, i)
  {
    if i in a.customSearch {
      LoadFieldsMeaning(map[], plan, a.customSearch[i]);
    }
  }

  /** `BandLoaded` depends only on record `i`. */
  lemma BandLoadedKept(plan: seq<Field>, a: LoadArgs, r: SearchValue, r': SearchValue, i: int)
    requires BandLoaded(plan, a, r, i)
    requires i in r'.bcastBands && r'.bcastBands[i] == r.bcastBands[i]
    requires i in r'.customSearch && r'.customSearch[i] == r.customSearch[i]
    ensures BandLoaded(plan, a, r', i)
  {
  }

  /** Rounds `i` to 9 keep their promises and touch nothing else. */
  lemma {:induction false} LoadBandsMeaning(v: SearchValue, plan: seq<Field>, a: LoadArgs, i: nat)
    requires i <= 10 && Distinct(plan)
    ensures var s := LoadBandsFrom(v, plan, a, i).value;
            OnlyBands(s, v) && SameOutside(s.bcastBands, v.bcastBands, i, 10)
            && SameOutside(s.customSearch, v.customSearch, i, 10)
    ensures LoadBandsFrom(v, plan, a, i).outcome.Pass? ==>
              forall j :: i <= j < 10 ==> BandLoaded(plan, a, LoadBandsFrom(v, plan, a, i).value, j)
    decreases 10 - i
  {
    if i < 10 {
      var s1 := LoadBandAt(v, plan, a, i);
      LoadBandAtMeaning(v, plan, a, i);
      if s1.outcome.Pass? {
        LoadBandsMeaning(s1.value, plan, a, i + 1);
        var s := LoadBandsFrom(s1.value, plan, a, i + 1);
        assert LoadBandsFrom(v, plan, a, i) == s;
        BandsCompose(v, s1.value, s.value, i);
        if s.outcome.Pass? {
          BandLoadedKept(plan, a, s1.value, s.value, i);
        }
      }
    }
  }

  /** Round `i`, then rounds `i + 1` to 9, touch only the band and custom
      search records `i` to 9. */
  lemma BandsCompose(v: SearchValue, s1: SearchValue, s: SearchValue, i: int)
    requires i < 10
    requires OnlyBands(s1, v) && SameOutside(s1.bcastBands, v.bcastBands, i, i + 1)
    requires SameOutside(s1.customSearch, v.customSearch, i, i + 1)
    requires OnlyBands(s, s1) && SameOutside(s.bcastBands, s1.bcastBands, i + 1, 10)
    requires SameOutside(s.customSearch, s1.customSearch, i + 1, 10)
    ensures OnlyBands(s, v) && SameOutside(s.bcastBands, v.bcastBands, i, 10)
    ensures SameOutside(s.customSearch, v.customSearch, i, 10)
    ensures i in s1.bcastBands ==> i in s.bcastBands && s.bcastBands[i] == s1.bcastBands[i]
    ensures i in s1.customSearch ==> i in s.customSearch && s.customSearch[i] == s1.customSearch[i]
  {
    SameOutsideCompose(v.bcastBands, s1.bcastBands, s.bcastBands, i);
    SameOutsideCompose(v.customSearch, s1.customSearch, s.customSearch, i);
  }

  lemma SameOutsideCompose<T>(m0: map<int, T>, m1: map<int, T>, m: map<int, T>, i: int)
    requires i < 10 && SameOutside(m1, m0, i, i + 1) && SameOutside(m, m1, i + 1, 10)
    ensures SameOutside(m, m0, i, 10)
    ensures i in m1 ==> i in m && m[i] == m1[i]
  {
    forall j | !(i <= j < 10) ensures (j in m <==> j in m0) && (j in m0 ==> m[j] == m0[j]) {
      assert !(i <= j < i + 1) && !(i + 1 <= j < 10);
    }
  }

  ghost predicate NoRepeats(idx: seq<int>)
  {
    forall i, j :: 0 <= i < j < |idx| ==> idx[i] != idx[j]
  }

  /** `m` and `m0` agree at every index outside `idx`. */
  ghost predicate SameBeside<T>(m: map<int, T>, m0: map<int, T>, idx: seq<int>)
  {
    forall j :: j !in idx ==> (j in m <==> j in m0) && (j in m0 ==> m[j] == m0[j])
  }

  lemma ServiceIndexesDistinct() ensures NoRepeats(ServiceIndexes) { }

  /** The first of some indexes without repeats: the rest has none, and
      does not hold the first. */
  lemma NoRepeatsFirst(idx: seq<int>)
    requires |idx| > 0 && NoRepeats(idx)
    ensures NoRepeats(idx[1..]) && idx[0] !in idx[1..]
  {
    var rest := idx[1..];
    forall p, q | 0 <= p < q < |rest| ensures rest[p] != rest[q] {
      assert rest[p] == idx[p + 1] && rest[q] == idx[q + 1];
    }
    forall p | 0 <= p < |rest| ensures rest[p] != idx[0] {
      assert rest[p] == idx[p + 1];
    }
  }

  /** Service round `i` keeps its promise and touches only record `i`. */
  lemma LoadServiceAtMeaning(v: SearchValue, plan: seq<Field>, a: LoadArgs, i: int)
    requires Distinct(plan)
    ensures var s := LoadServiceAt(v, plan, a, i).value;
            OnlyServices(s, v) && SameOutside(s.serviceSearch, v.serviceSearch, i, i + 1)
    ensures LoadServiceAt(v, plan, a, i).outcome.Pass? ==> ServiceLoaded(plan, a, LoadServiceAt(v, plan, a, i).value, i)
  {
    if i in a.serviceSearch {
      LoadFieldsSets(map[], plan, a.serviceSearch[i]);
    }
  }

  lemma ServiceLoadedKept(plan: seq<Field>, a: LoadArgs, r: SearchValue, r': SearchValue, i: int)
    requires ServiceLoaded(plan, a, r, i)
    requires i in r'.serviceSearch && r'.serviceSearch[i] == r.serviceSearch[i]
    ensures ServiceLoaded(plan, a, r', i)
  {
  }

  /** The service rounds for `idx` keep their promises and touch nothing else. */
  lemma {:induction false} LoadServicesMeaning(v: SearchValue, plan: seq<Field>, a: LoadArgs, idx: seq<int>)
    requires NoRepeats(idx) && Distinct(plan)
    ensures var s := LoadServicesFrom(v, plan, a, idx).value;
            OnlyServices(s, v) && SameBeside(s.serviceSearch, v.serviceSearch, idx)
    ensures LoadServicesFrom(v, plan, a, idx).outcome.Pass? ==>
              forall x :: x in idx ==> ServiceLoaded(plan, a, LoadServicesFrom(v, plan, a, idx).value, x)
    decreases |idx|
  {
    if |idx| > 0 {
      var i, rest := idx[0], idx[1..];
      assert idx == [i] + rest;
      NoRepeatsFirst(idx);
      var s1 := LoadServiceAt(v, plan, a, i);
      LoadServiceAtMeaning(v, plan, a, i);
      if s1.outcome.Pass? {
        LoadServicesMeaning(s1.value, plan, a, rest);
        var s := LoadServicesFrom(s1.value, plan, a, rest);
        assert LoadServicesFrom(v, plan, a, idx) == s;
        ServicesCompose(v, s1.value, s.value, i, rest);
        if s.outcome.Pass? {
          ServiceLoadedKept(plan, a, s1.value, s.value, i);
        }
      }
    }
  }

  /** Round `i`, then the rounds for `rest`, touch only the service records
      at `i` and in `rest`. */
  lemma ServicesCompose(v: SearchValue, s1: SearchValue, s: SearchValue, i: int, rest: seq<int>)
    requires OnlyServices(s1, v) && SameOutside(s1.serviceSearch, v.serviceSearch, i, i + 1)
    requires OnlyServices(s, s1) && SameBeside(s.serviceSearch, s1.serviceSearch, rest)
    requires i !in rest
    ensures OnlyServices(s, v) && SameBeside(s.serviceSearch, v.serviceSearch, [i] + rest)
    ensures i in s1.serviceSearch ==> i in s.serviceSearch && s.serviceSearch[i] == s1.serviceSearch[i]
  {
  }

  /** `Search.load`, once it has run to its end: every expected key of the
      flat dictionaries and of each record is the converted given value,
      or the empty string where none was given; a record not given at all
      is all blanks; the search key and the custom search group are kept
      only at their exact lengths, and the global lockout list only when it
      has more than one element. */
  lemma LoadMeaning(v: SearchValue, t: Tables, a: LoadArgs)
    ensures var r := LoadSettings(v, t, a);
            r.outcome.Pass? ==>
              DictsLoaded(t, a, r.value)
              && (forall i :: 0 <= i < 10 ==> BandLoaded(CustomSearchPlan(t), a, r.value, i))
              && (forall x :: x in ServiceIndexes ==> ServiceLoaded(ServiceSearchPlan(t), a, r.value, x))
              && r.value.searchKey == (if |a.searchKey| == 4 then a.searchKey else ["", "", "", ""])
              && r.value.customSearchGroup == (if |a.customSearchGroup| == 10 then a.customSearchGroup
                                               else ["", "", "", "", "", "", "", "", "", ""])
              && r.value.globalLoutFrqs == (if |a.globalLoutFrqs| > 1 then a.globalLoutFrqs else v.globalLoutFrqs)
  {
    var d := LoadDicts(v, t, a);
    LoadDictsMeaning(v, t, a);
    if d.outcome.Pass? {
      CustomSearchDistinct(t);
      ServiceSearchDistinct(t);
      ServiceIndexesDistinct();
      LoadRecordsMeaning(d.value, CustomSearchPlan(t), ServiceSearchPlan(t), ServiceIndexes, a);
    }
  }

  /** What follows the flat dictionaries, for any plans of distinct keys and
      indexes without repeats: the dictionaries are kept, the records are
      loaded, and the lists are as `LoadLists` leaves them. */
  lemma LoadRecordsMeaning(v: SearchValue, cplan: seq<Field>, splan: seq<Field>, idx: seq<int>, a: LoadArgs)
    requires Distinct(cplan) && Distinct(splan) && NoRepeats(idx)
    ensures var r := LoadRecords(v, cplan, splan, idx, a);
            r.outcome.Pass? ==>
              r.value.srchCloseCall == v.srchCloseCall && r.value.closeCall == v.closeCall
              && r.value.bandScope == v.bandScope
              && (forall i :: 0 <= i < 10 ==> BandLoaded(cplan, a, r.value, i))
              && (forall x :: x in idx ==> ServiceLoaded(splan, a, r.value, x))
              && r.value.searchKey == (if |a.searchKey| == 4 then a.searchKey else ["", "", "", ""])
              && r.value.customSearchGroup == (if |a.customSearchGroup| == 10 then a.customSearchGroup
                                               else ["", "", "", "", "", "", "", "", "", ""])
              && r.value.globalLoutFrqs == (if |a.globalLoutFrqs| > 1 then a.globalLoutFrqs else v.globalLoutFrqs)
  {
    LoadBandsMeaning(v, cplan, a, 0);
    var b := LoadBandsFrom(v, cplan, a, 0);
    if b.outcome.Pass? {
      LoadServicesMeaning(b.value, splan, a, idx);
      var s := LoadServicesFrom(b.value, splan, a, idx);
      if s.outcome.Pass? {
        var r := LoadLists(s.value, a);
        forall i | 0 <= i < 10 ensures BandLoaded(cplan, a, r, i) {
          BandLoadedKept(cplan, a, b.value, r, i);
        }
        forall x | x in idx ensures ServiceLoaded(splan, a, r, x) {
          ServiceLoadedKept(splan, a, s.value, r, x);
        }
      }
    }
  }

  class Search {
    const link: Link
    var srchCloseCall: map<string, string>
    var closeCall: map<string, string>
    var bandScope: map<string, string>
    var bcastBands: map<int, map<string, string>>
    var customSearch: map<int, map<string, string>>
    var serviceSearch: map<int, map<string, string>>
    var searchKey: seq<string>
    var customSearchGroup: seq<string>
    var globalLoutFrqs: seq<string>

    function Value(): SearchValue
      reads this
    {
      SearchValue(srchCloseCall, closeCall, bandScope, bcastBands, customSearch, serviceSearch,
                  searchKey, customSearchGroup, globalLoutFrqs)
    }

    /** `Search(scanner)`: every dictionary and list empty. */
    constructor (link: Link)
      ensures this.link == link
      ensures Value() == SearchValue(map[], map[], map[], map[], map[], map[], [], [], [])
    {
      this.link := link;
      srchCloseCall, closeCall, bandScope := map[], map[], map[];
      bcastBands, customSearch, serviceSearch := map[], map[], map[];
      searchKey, customSearchGroup, globalLoutFrqs := [], [], [];
    }

    /** `get_global_lockout_frqs`: GLF until the returned frequency reads as
        -1; the list, that -1 included, replaces the stored one only when
        the poll ends normally. */
    method GetGlobalLockoutFrqs(ghost fuel: nat) returns (r: Outcome<Error>)
      requires Poll(link.device, "GLF", fuel).outcome != Fail(Diverges)
      modifies this, link
      ensures var p := Poll(old(link.device), "GLF", fuel);
              link.device == p.dev && link.log == old(link.log) + p.sent && r == p.outcome
              && Value() == old(Value()).(globalLoutFrqs := if r.Pass? then p.tokens else old(globalLoutFrqs))
    {
      var tokens;
      r, tokens := PollTokens(link, "GLF", fuel);
      if r.Pass? {
        globalLoutFrqs := tokens;
      }
    }

    /** `Search.load`. */
    method Load(t: Tables, a: LoadArgs) returns (r: Outcome<Error>)
      modifies this
      ensures var s := LoadSettings(old(Value()), t, a);
              Value() == s.value && r == s.outcome
    {
      r := LoadDictionaries(t, a);
      if r.Pass? {
        r := LoadRest(CustomSearchPlan(t), ServiceSearchPlan(t), ServiceIndexes, a);
      }
    }

    method LoadRest(cplan: seq<Field>, splan: seq<Field>, idx: seq<int>, a: LoadArgs) returns (r: Outcome<Error>)
      modifies this
      ensures var s := LoadRecords(old(Value()), cplan, splan, idx, a);
              Value() == s.value && r == s.outcome
    {
      r := LoadBands(cplan, a);
      if r.Pass? {
        r := LoadServicesThenLists(splan, idx, a);
      }
    }

    method LoadServicesThenLists(splan: seq<Field>, idx: seq<int>, a: LoadArgs) returns (r: Outcome<Error>)
      modifies this
      ensures var s := LoadServicesAndLists(old(Value()), splan, idx, a);
              Value() == s.value && r == s.outcome
    {
      r := LoadServices(splan, idx, a);
      if r.Fail? {
        return;
      }
      searchKey := if |a.searchKey| == 4 then a.searchKey else ["", "", "", ""];
      customSearchGroup := if |a.customSearchGroup| == 10 then a.customSearchGroup
                           else ["", "", "", "", "", "", "", "", "", ""];
      if |a.globalLoutFrqs| > 1 {
        globalLoutFrqs := a.globalLoutFrqs;
      }
    }

    /** The close-call, search close-call and band-scope dictionaries,
        updated in place. */
    method LoadDictionaries(t: Tables, a: LoadArgs) returns (r: Outcome<Error>)
      modifies this
      ensures var s := LoadDicts(old(Value()), t, a);
              Value() == s.value && r == s.outcome
    {
      var s := LoadFields(srchCloseCall, SrchCloseCallPlan(t), a.srchCloseCall);
      srchCloseCall := s.dict;
      if s.outcome.Fail? {
        return s.outcome;
      }
      var c := LoadFields(closeCall, CloseCallPlan(t), a.closeCall);
      closeCall := c.dict;
      if c.outcome.Fail? {
        return c.outcome;
      }
      var b := LoadFields(bandScope, BandScopePlan(t), a.bandScope);
      bandScope := b.dict;
      r := b.outcome;
    }

    /** `for i in range(0,10)`: each broadcast-screen band and custom search. */
    method LoadBands(plan: seq<Field>, a: LoadArgs) returns (r: Outcome<Error>)
      modifies this
      ensures var s := LoadBandsFrom(old(Value()), plan, a, 0);
              Value() == s.value && r == s.outcome
    {
      ghost var whole := LoadBandsFrom(Value(), plan, a, 0);
      var i := 0;
      while i < 10
        invariant 0 <= i <= 10
        invariant whole == LoadBandsFrom(Value(), plan, a, i)
      {
        r := LoadBand(plan, a, i);
        if r.Fail? {
          return;
        }
        i := i + 1;
      }
      r := Pass;
    }

    /** One round: the band record replaced, then the custom-search record. */
    method LoadBand(plan: seq<Field>, a: LoadArgs, i: int) returns (r: Outcome<Error>)
      modifies this
      ensures var s := LoadBandAt(old(Value()), plan, a, i);
              Value() == s.value && r == s.outcome
    {
      var b := if i in a.bcastBands then BandRecord(a.bcastBands[i]) else Success(Blanks(BandKeys));
      if b.Failure? {
        return Fail(b.error);
      }
      bcastBands := bcastBands[i := b.value];
      if i !in a.customSearch {
        customSearch := customSearch[i := Blanks(Keys(plan))];
        r := Pass;
      } else {
        var c := LoadFields(map[], plan, a.customSearch[i]);
        customSearch := customSearch[i := c.dict];
        r := c.outcome;
      }
    }

    /** `for i in indexes`: each service search. */
    method LoadServices(plan: seq<Field>, idx: seq<int>, a: LoadArgs) returns (r: Outcome<Error>)
      modifies this
      ensures var s := LoadServicesFrom(old(Value()), plan, a, idx);
              Value() == s.value && r == s.outcome
    {
      ghost var whole := LoadServicesFrom(Value(), plan, a, idx);
      var j := 0;
      while j < |idx|
        invariant 0 <= j <= |idx|
        invariant whole == LoadServicesFrom(Value(), plan, a, idx[j..])
      {
        assert idx[j..][0] == idx[j] && idx[j..][1..] == idx[j + 1..];
        r := LoadService(plan, a, idx[j]);
        if r.Fail? {
          return;
        }
        j := j + 1;
      }
      r := Pass;
    }

    method LoadService(plan: seq<Field>, a: LoadArgs, i: int) returns (r: Outcome<Error>)
      modifies this
      ensures var s := LoadServiceAt(old(Value()), plan, a, i);
              Value() == s.value && r == s.outcome
    {
      if i !in a.serviceSearch {
        serviceSearch := serviceSearch[i := Blanks(Keys(plan))];
        r := Pass;
      } else {
        var c := LoadFields(map[], plan, a.serviceSearch[i]);
        serviceSearch := serviceSearch[i := c.dict];
        r := c.outcome;
      }
    }
  }
}
