/**
 * Query-parameter coverage of one operation: for each declared parameter,
 * keyed by location and name, the set of distinct values seen so far, the
 * number of distinct values that counts as full coverage, and whether an
 * empty value is allowed. Only query parameters are ever recorded.
 */
module QueryParams {
  import opened Wrappers
  import opened Text
  import opened Sorting
  import opened Tables

  const ParamInQuery: string := "query"
  const ParamInPath: string := "path"
  const ParamInHeader: string := "header"
  const ParamInBody: string := "body"
  const ParamInForm: string := "form"

  /** The number of distinct values a parameter needs, per location, to be fully covered. */
  datatype FullCoverageMinVariants = FullCoverageMinVariants(
    paramInQuery: int, paramInPath: int, paramInHeader: int, paramInBody: int, paramInForm: int)
  {
    function MinVariantsFor(paramIn: string): (r: int)
      ensures paramIn == ParamInQuery ==> r == paramInQuery
      ensures paramIn == ParamInPath ==> r == paramInPath
      ensures paramIn == ParamInHeader ==> r == paramInHeader
      ensures paramIn == ParamInBody ==> r == paramInBody
      ensures paramIn == ParamInForm ==> r == paramInForm
      ensures paramIn !in {ParamInQuery, ParamInPath, ParamInHeader, ParamInBody, ParamInForm} ==> r == 0
    {
      match paramIn
      case "query" => paramInQuery
      case "path" => paramInPath
      case "header" => paramInHeader
      case "body" => paramInBody
      case "form" => paramInForm
      case _ => 0
    }
  }

  /** A configuration function; Go's version edits the struct through a pointer. */
  type ConfigFn = FullCoverageMinVariants -> FullCoverageMinVariants

  function DefaultMinVariants(): FullCoverageMinVariants
  {
    FullCoverageMinVariants(2, 2, 2, 2, 0)
  }

  /** The configuration functions applied one after another, first to last. */
  function ApplyConfig(conf: FullCoverageMinVariants, fns: seq<ConfigFn>): FullCoverageMinVariants
    decreases |fns|
  {
    if fns == [] then conf else ApplyConfig(fns[0](conf), fns[1..])
  }

  /** Applying a list of configuration functions is applying its parts in turn, so later ones override earlier ones. */
  lemma {:induction false} ApplyConfigConcat(conf: FullCoverageMinVariants, fs: seq<ConfigFn>, gs: seq<ConfigFn>)
    ensures ApplyConfig(conf, fs + gs) == ApplyConfig(ApplyConfig(conf, fs), gs)
    decreases |fs|
  {
    if fs != [] {
      assert (fs + gs)[1..] == fs[1..] + gs;
      ApplyConfigConcat(fs[0](conf), fs[1..], gs);
    } else {
      assert fs + gs == gs;
    }
  }

  /** NewFullCoverageMinVariants: query, path, header and body default to 2, form to 0; then each function in order. */
  method NewFullCoverageMinVariants(configFns: seq<ConfigFn>) returns (conf: FullCoverageMinVariants)
    ensures conf == ApplyConfig(DefaultMinVariants(), configFns)
    ensures configFns == [] ==> (conf.paramInQuery == 2 && conf.paramInPath == 2 && conf.paramInHeader == 2
                                 && conf.paramInBody == 2 && conf.paramInForm == 0)
  {
    conf := FullCoverageMinVariants(2, 2, 2, 2, 0);
    for i := 0 to |configFns|
      invariant ApplyConfig(DefaultMinVariants(), configFns) == ApplyConfig(conf, configFns[i..])
    {
      assert configFns[i..][1..] == configFns[i + 1..];
      conf := configFns[i](conf);
    }
  }

  // ---------------------------------------------------------------------------
  // The declared parameters and the table built from them

  /** A declared parameter: its location ("in"), name, required flag and enum of allowed values. */
  datatype Parameter = Parameter(location: string, name: string, required: bool, enum: seq<string>)

  /** The part of an OpenAPI operation the core reads. */
  datatype Operation = Operation(parameters: seq<Parameter>, responses: Option<set<int>>)

  datatype ParamValues = ParamValues(coveredSet: set<string>, minVariants: int, emptyAllowed: bool)

  /** location -> name -> values seen. */
  type ParamTable = map<string, map<string, ParamValues>>

  /** The entry a declared parameter starts with. */
  function InitialValues(p: Parameter, cv: FullCoverageMinVariants): ParamValues
  {
    ParamValues({}, if |p.enum| > 0 then |p.enum| else cv.MinVariantsFor(p.location), !p.required)
  }

  /** The table after declaring p: its (location, name) entry is (re)set. */
  function Declare(t: ParamTable, p: Parameter, cv: FullCoverageMinVariants): ParamTable
  {
    var row := if p.location in t then t[p.location] else map[];
    t[p.location := row[p.name := InitialValues(p, cv)]]
  }

  /** The table the declared parameters produce, in declaration order. */
  function ParamTableOf(ps: seq<Parameter>, cv: FullCoverageMinVariants): ParamTable
  {
    if ps == [] then map[] else Declare(ParamTableOf(ps[..|ps| - 1], cv), ps[|ps| - 1], cv)
  }

  predicate Declares(p: Parameter, location: string, name: string)
  {
    p.location == location && p.name == name
  }

  /** The i-th parameter is the last declaration of its (location, name). */
  predicate LastDeclaration(ps: seq<Parameter>, i: nat)
    requires i < |ps|
  {
    forall j :: i < j < |ps| ==> !Declares(ps[j], ps[i].location, ps[i].name)
  }

  /** There is an entry for a (location, name) exactly when some parameter declares it. */
  lemma {:induction false} ParamTableOfKeys(ps: seq<Parameter>, cv: FullCoverageMinVariants, loc: string, name: string)
    ensures var t := ParamTableOf(ps, cv);
      (loc in t && name in t[loc]) <==> exists i :: 0 <= i < |ps| && Declares(ps[i], loc, name)
    decreases |ps|
  {
    if ps != [] {
      var init := ps[..|ps| - 1];
      var p := ps[|ps| - 1];
      ParamTableOfKeys(init, cv, loc, name);
      if exists i :: 0 <= i < |ps| && Declares(ps[i], loc, name) {
        var i :| 0 <= i < |ps| && Declares(ps[i], loc, name);
        if i < |init| {
          assert Declares(init[i], loc, name);
        }
      }
      if exists i :: 0 <= i < |init| && Declares(init[i], loc, name) {
        var i :| 0 <= i < |init| && Declares(init[i], loc, name);
        assert Declares(ps[i], loc, name);
      }
    }
  }

  /** Each entry is the initial value of the last parameter declared with its location and name. */
  lemma {:induction false} ParamTableOfLastWins(ps: seq<Parameter>, cv: FullCoverageMinVariants, i: nat)
    requires i < |ps| && LastDeclaration(ps, i)
    ensures var t := ParamTableOf(ps, cv);
      ps[i].location in t && ps[i].name in t[ps[i].location] && t[ps[i].location][ps[i].name] == InitialValues(ps[i], cv)
    decreases |ps|
  {
    if i < |ps| - 1 {
      var init := ps[..|ps| - 1];
      assert init[i] == ps[i];
      assert !Declares(ps[|ps| - 1], ps[i].location, ps[i].name);
      assert LastDeclaration(init, i);
      ParamTableOfLastWins(init, cv, i);
    }
  }

  // ---------------------------------------------------------------------------
  // Recording query values

  /** The string form of one query parameter's values: "" for none, the value for one, else sorted, each followed by ','. */
  function Flatten(vals: seq<string>): string
  {
    if |vals| == 0 then ""
    else if |vals| == 1 then vals[0]
    else JoinWithCommas(SortBy(vals, StrLe))
  }

  /** Every string followed by a ','. */
  function JoinWithCommas(s: seq<string>): string
  {
    if s == [] then "" else JoinWithCommas(s[..|s| - 1]) + s[|s| - 1] + ","
  }

  function TotalLength(s: seq<string>): nat
  {
    if s == [] then 0 else |s[0]| + TotalLength(s[1..])
  }

  lemma StrLeTotalOrder()
    ensures TotalOrder(StrLe)
  {
    forall a, b ensures StrLe(a, b) || StrLe(b, a) { StrLeTotal(a, b); }
    forall a, b | StrLe(a, b) && StrLe(b, a) ensures a == b { StrLeAntisymmetric(a, b); }
    forall a, b, c | StrLe(a, b) && StrLe(b, c) ensures StrLe(a, c) { StrLeTransitive(a, b, c); }
  }

  /** The flattened form does not depend on the order of the values. */
  lemma FlattenOrderIndependent(a: seq<string>, b: seq<string>)
    requires multiset(a) == multiset(b)
    ensures Flatten(a) == Flatten(b)
  {
    assert |a| == |multiset(a)| == |multiset(b)| == |b|;
    if |a| == 1 {
      assert a[0] in multiset(b);
    } else if |a| >= 2 {
      StrLeTotalOrder();
      SortByCanonical(a, b, StrLe);
    }
  }

  lemma {:induction false} TotalLengthAppend(s: seq<string>, x: string)
    ensures TotalLength(s + [x]) == TotalLength(s) + |x|
    decreases |s|
  {
    if s != [] {
      assert (s + [x])[1..] == s[1..] + [x];
      TotalLengthAppend(s[1..], x);
    }
  }

  lemma {:induction false} JoinLength(s: seq<string>)
    ensures |JoinWithCommas(s)| == TotalLength(s) + |s|
    decreases |s|
  {
    if s != [] {
      JoinLength(s[..|s| - 1]);
      TotalLengthAppend(s[..|s| - 1], s[|s| - 1]);
      assert s[..|s| - 1] + [s[|s| - 1]] == s;
    }
  }

  lemma {:induction false} InsertLength(x: string, s: seq<string>)
    ensures TotalLength(Insert(x, s, StrLe)) == |x| + TotalLength(s)
    decreases |s|
  {
    if s != [] && !StrLe(x, s[0]) {
      InsertLength(x, s[1..]);
    }
  }

  lemma {:induction false} SortLength(s: seq<string>)
    ensures TotalLength(SortBy(s, StrLe)) == TotalLength(s)
    decreases |s|
  {
    if s != [] {
      SortLength(s[1..]);
      InsertLength(s[0], SortBy(s[1..], StrLe));
    }
  }

  /** With two or more values the result has every value and one ',' per value. */
  lemma FlattenLength(vals: seq<string>)
    requires |vals| >= 2
    ensures |Flatten(vals)| == TotalLength(vals) + |vals|
  {
    JoinLength(SortBy(vals, StrLe));
    SortLength(vals);
    assert |SortBy(vals, StrLe)| == |multiset(SortBy(vals, StrLe))| == |multiset(vals)| == |vals|;
  }

  /** flattenStringSlice: sorts its argument in place when it has two or more values. */
  method FlattenStringSlice(strs: array<string>) returns (r: string)
    modifies strs
    ensures r == Flatten(old(strs[..]))
    ensures multiset(strs[..]) == multiset(old(strs[..]))
    ensures strs.Length >= 2 ==> Sorted(strs[..], StrLe)
    ensures strs.Length < 2 ==> strs[..] == old(strs[..])
  {
    if strs.Length == 0 {
      return "";
    }
    if strs.Length == 1 {
      return strs[0];
    }
    StrLeTotalOrder();
    InsertionSort(strs, StrLe);
    r := "";
    for i := 0 to strs.Length
      invariant r == JoinWithCommas(strs[..i])
    {
      assert strs[..i + 1][..i] == strs[..i];
      r := r + strs[i] + ",";
    }
    assert strs[..strs.Length] == strs[..];
    SortBySorted(old(strs[..]), StrLe);
    SortedUnique(strs[..], SortBy(old(strs[..]), StrLe), StrLe);
  }

  /** The query entries after recording a request's query: each declared name present gains its flattened value. */
  function RecordQuery(pvals: map<string, ParamValues>, query: map<string, seq<string>>): map<string, ParamValues>
  {
    map k | k in pvals :: if k in query then pvals[k].(coveredSet := pvals[k].coveredSet + {Flatten(query[k])}) else pvals[k]
  }

  /** RecordQuery applied only to the query names that are no longer pending. */
  ghost function RecordQueryPart(pvals: map<string, ParamValues>, query: map<string, seq<string>>, pending: set<string>): map<string, ParamValues>
  {
    map k | k in pvals :: if k in query && k !in pending then RecordQuery(pvals, query)[k] else pvals[k]
  }

  /** With every name pending nothing is recorded; with none pending all of RecordQuery is. */
  lemma RecordQueryPartEnds(pvals: map<string, ParamValues>, query: map<string, seq<string>>)
    ensures RecordQueryPart(pvals, query, query.Keys) == pvals
    ensures RecordQueryPart(pvals, query, {}) == RecordQuery(pvals, query)
  {
  }

  /** Recording one more pending name. */
  lemma RecordQueryPartStep(pvals: map<string, ParamValues>, query: map<string, seq<string>>, pending: set<string>, k: string)
    requires k in pending && k in query
    ensures k in pvals ==>
      RecordQueryPart(pvals, query, pending)[k := pvals[k].(coveredSet := pvals[k].coveredSet + {Flatten(query[k])})]
        == RecordQueryPart(pvals, query, pending - {k})
    ensures k !in pvals ==> RecordQueryPart(pvals, query, pending) == RecordQueryPart(pvals, query, pending - {k})
  {
  }

  /** The table after Record: only the query location changes; path, header, body and form are not recorded. */
  function Recorded(t: ParamTable, query: map<string, seq<string>>): ParamTable
  {
    if ParamInQuery in t then t[ParamInQuery := RecordQuery(t[ParamInQuery], query)] else t
  }

  /**
   * Recording keeps the same entries, only grows covered sets, keeps the
   * thresholds, records every declared query name the request carries, and
   * leaves undeclared names and other locations alone.
   */
  lemma RecordedGrows(t: ParamTable, query: map<string, seq<string>>)
    ensures var t' := Recorded(t, query);
      && t'.Keys == t.Keys
      && (forall loc :: loc in t ==> t'[loc].Keys == t[loc].Keys)
      && (forall loc, name :: loc in t && name in t[loc] ==>
            t[loc][name].coveredSet <= t'[loc][name].coveredSet
            && t'[loc][name].minVariants == t[loc][name].minVariants
            && t'[loc][name].emptyAllowed == t[loc][name].emptyAllowed)
      && (forall loc :: loc in t && loc != ParamInQuery ==> t'[loc] == t[loc])
      && (forall name :: ParamInQuery in t && name in t[ParamInQuery] && name in query ==>
            Flatten(query[name]) in t'[ParamInQuery][name].coveredSet)
      && (forall name :: ParamInQuery in t && name in t[ParamInQuery] && name !in query ==>
            t'[ParamInQuery][name] == t[ParamInQuery][name])
  {
  }

  /** The query ?limit=5 against a declared `limit` covers the value "5". */
  lemma RecordLimitFive(t: ParamTable)
    requires t == map[ParamInQuery := map["limit" := ParamValues({}, 0, true)]]
    ensures Recorded(t, map["limit" := ["5"]])[ParamInQuery]["limit"].coveredSet == {"5"}
  {
  }

  // ---------------------------------------------------------------------------
  // Reports

  datatype ParamCoverage = ParamCoverage(name: string, fullCoverageMinVariants: int, coveredValues: seq<string>)

  datatype ParamsCoverage = ParamsCoverage(params: seq<ParamCoverage>)

  /** An entry reports a parameter's name and its covered values, each once, and leaves the threshold at 0. */
  ghost predicate Reports(pc: ParamCoverage, name: string, pv: ParamValues)
  {
    && pc.name == name
    && pc.fullCoverageMinVariants == 0
    && NoDuplicates(pc.coveredValues)
    && (forall v :: v in pc.coveredValues <==> v in pv.coveredSet)
  }

  /** rep lists every (location, name) entry of t exactly once, in the order given by origin. */
  ghost predicate ReportedFrom(t: ParamTable, rep: ParamsCoverage, origin: seq<(string, string)>)
  {
    && |origin| == |rep.params|
    && NoDuplicates(origin)
    && (forall e :: e in origin <==> e in Pairs(t))
    && (forall i :: 0 <= i < |origin| ==>
          origin[i].0 in t && origin[i].1 in t[origin[i].0] && Reports(rep.params[i], origin[i].1, t[origin[i].0][origin[i].1]))
  }

  ghost predicate ReportOf(t: ParamTable, rep: ParamsCoverage)
  {
    exists origin :: ReportedFrom(t, rep, origin)
  }

  /** A report has exactly as many entries as the table has parameters. */
  lemma ReportSize(t: ParamTable, rep: ParamsCoverage, origin: seq<(string, string)>)
    requires ReportedFrom(t, rep, origin)
    ensures |rep.params| == |Pairs(t)|
  {
    DistinctCard(origin);
    assert (set e | e in origin) == Pairs(t);
  }

  // ---------------------------------------------------------------------------

  /**
   * recordInQuery: each query name that is a declared parameter gains its
   * flattened values as a covered value. The entries are values here, so
   * the updated map is returned.
   */
  method RecordInQuery(pvals: map<string, ParamValues>, query: map<string, seq<string>>)
    returns (r: map<string, ParamValues>)
    ensures r == RecordQuery(pvals, query)
  {
    r := pvals;
    if |pvals| == 0 {
      return;
    }
    var pending := query.Keys;
    RecordQueryPartEnds(pvals, query);
    while pending != {}
      invariant pending <= query.Keys
      invariant r == RecordQueryPart(pvals, query, pending)
    {
      var k :| k in pending;
      RecordQueryPartStep(pvals, query, pending, k);
      if k in r {
        var vals := new string[|query[k]|](i requires 0 <= i < |query[k]| => query[k][i]);
        assert vals[..] == query[k];
        var flat := FlattenStringSlice(vals);
        r := r[k := r[k].(coveredSet := r[k].coveredSet + {flat})];
      }
      pending := pending - {k};
    }
  }

  class ParamsCoverageChecker {
    var byPlaceAndName: ParamTable

    /** The zero checker (a nil map), used when an operation could not be read. */
    constructor Empty()
      ensures byPlaceAndName == map[]
    {
      byPlaceAndName := map[];
    }

    constructor FromTable(t: ParamTable)
      ensures byPlaceAndName == t
    {
      byPlaceAndName := t;
    }

    /** Records the request's query values; the other locations have no extraction. */
    method Record(query: map<string, seq<string>>)
      modifies this
      ensures byPlaceAndName == Recorded(old(byPlaceAndName), query)
    {
      if ParamInQuery in byPlaceAndName {
        var pvals := RecordInQuery(byPlaceAndName[ParamInQuery], query);
        byPlaceAndName := byPlaceAndName[ParamInQuery := pvals];
      }
    }

    /** The number of distinct (location, name) entries. */
    method NumParams() returns (cnt: nat)
      ensures cnt == |Pairs(byPlaceAndName)|
    {
      cnt := 0;
      var pending := byPlaceAndName.Keys;
      while pending != {}
        invariant pending <= byPlaceAndName.Keys
        invariant cnt == |PairsOver(byPlaceAndName, byPlaceAndName.Keys - pending)|
      {
        var loc :| loc in pending;
        PairsOverAdd(byPlaceAndName, byPlaceAndName.Keys - pending, loc);
        assert byPlaceAndName.Keys - (pending - {loc}) == (byPlaceAndName.Keys - pending) + {loc};
        cnt := cnt + |byPlaceAndName[loc]|;
        pending := pending - {loc};
      }
      assert byPlaceAndName.Keys - pending == byPlaceAndName.Keys;
      PairsOverAll(byPlaceAndName);
    }

    ghost predicate Reported(pc: ParamCoverage, e: (string, string))
      reads this
    {
      e.0 in byPlaceAndName && e.1 in byPlaceAndName[e.0] && Reports(pc, e.1, byPlaceAndName[e.0][e.1])
    }

    /** One entry per parameter, in an unspecified order; FullCoverageMinVariants is left at 0. */
    method Report() returns (rep: ParamsCoverage, ghost origin: seq<(string, string)>)
      ensures ReportedFrom(byPlaceAndName, rep, origin)
      ensures ReportOf(byPlaceAndName, rep)
    {
      var np := NumParams();
      if np == 0 {
        assert Pairs(byPlaceAndName) == {};
        rep, origin := ParamsCoverage([]), [];
        assert ReportedFrom(byPlaceAndName, rep, origin);
        return;
      }
      var params: seq<ParamCoverage> := [];
      origin := [];
      var locs := byPlaceAndName.Keys;
      while locs != {}
        invariant locs <= byPlaceAndName.Keys
        invariant |origin| == |params| && NoDuplicates(origin)
        invariant forall e :: e in origin <==> e in PairsOver(byPlaceAndName, byPlaceAndName.Keys - locs)
        invariant forall i :: 0 <= i < |origin| ==> Reported(params[i], origin[i])
      {
        var loc :| loc in locs;
        var namedParams := byPlaceAndName[loc];
        var names := namedParams.Keys;
        while names != {}
          invariant names <= namedParams.Keys
          invariant |origin| == |params| && NoDuplicates(origin)
          invariant forall e :: e in origin <==> e in PairsOver(byPlaceAndName, byPlaceAndName.Keys - locs) || (e.0 == loc && e.1 in namedParams && e.1 !in names)
          invariant forall i :: 0 <= i < |origin| ==> Reported(params[i], origin[i])
        {
          var name :| name in names;
          var covered := Elements(namedParams[name].coveredSet);
          params := params + [ParamCoverage(name, 0, covered)];
          origin := origin + [(loc, name)];
          names := names - {name};
        }
        locs := locs - {loc};
      }
      PairsOverAll(byPlaceAndName);
      assert byPlaceAndName.Keys - locs == byPlaceAndName.Keys;
      rep := ParamsCoverage(params);
      assert ReportedFrom(byPlaceAndName, rep, origin);
    }
  }

  /** NewParamsCoverageChecker's loop: one entry per declared parameter, later duplicates overwriting earlier ones. */
  method BuildParamTable(ps: seq<Parameter>, cv: FullCoverageMinVariants) returns (t: ParamTable)
    ensures t == ParamTableOf(ps, cv)
  {
    t := map[];
    for i := 0 to |ps|
      invariant t == ParamTableOf(ps[..i], cv)
    {
      var param := ps[i];
      var minCovVariants: int;
      if |param.enum| > 0 {
        minCovVariants := |param.enum|;
      } else {
        minCovVariants := cv.MinVariantsFor(param.location);
      }
      if param.location !in t {
        t := t[param.location := map[]];
      }
      t := t[param.location := t[param.location][param.name := ParamValues({}, minCovVariants, !param.required)]];
      assert ps[..i + 1][..i] == ps[..i];
    }
    assert ps[..|ps|] == ps;
  }

  /** A nil operation is an error; otherwise the checker holds the table of its declared parameters. */
  method NewParamsCoverageChecker(opSpec: Option<Operation>, cv: FullCoverageMinVariants)
    returns (r: Result<ParamsCoverageChecker, string>)
    ensures opSpec.None? ==> r.Failure?
    ensures opSpec.Some? ==> r.Success? && fresh(r.value) && r.value.byPlaceAndName == ParamTableOf(opSpec.value.parameters, cv)
  {
    if opSpec.None? {
      return Failure("nil spec.Operation");
    }
    var t := BuildParamTable(opSpec.value.parameters, cv);
    var pcc := new ParamsCoverageChecker.FromTable(t);
    return Success(pcc);
  }

  /** A declared `limit` query parameter gives one entry. */
  lemma LimitIsOneParam(cv: FullCoverageMinVariants)
    ensures Pairs(ParamTableOf([Parameter(ParamInQuery, "limit", false, [])], cv)) == {(ParamInQuery, "limit")}
  {
    assert ParamTableOf([Parameter(ParamInQuery, "limit", false, [])], cv) == map[ParamInQuery := map["limit" := ParamValues({}, cv.paramInQuery, true)]];
  }
}
