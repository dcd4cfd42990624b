/**
 * The coverage engine. It is built from an API description: every
 * (method, path template) operation gets a tracker. The tracker knows the
 * operation's documented status codes and its declared parameters.
 * Each recorded exchange is matched against the templates. The observed
 * status code is then marked on the matching tracker: as covered when the
 * code is documented, as undocumented otherwise. A report lists every
 * tracker.
 *
 * The path operations the engine borrows from the host library are
 * function-valued parameters:
 *   - `clean` stands for Clean, which tidies a request path;
 *   - `join` stands for Join, which prefixes the base path.
 * The base path is taken already cleaned.
 */
module Coverage {
  import opened Wrappers
  import opened Text
  import opened Sorting
  import opened Tables
  import opened PathMatch
  import Proxy
  import QP = QueryParams

  // ---------------------------------------------------------------------------
  // Base path

  /**
   * The base path as the engine keeps it: one trailing '/' dropped, and
   * the "." that an unset base path cleans to read as "/". A root base
   * path "/" therefore becomes "".
   */
  function NormalizeBasePath(cleaned: string): (bp: string)
    ensures cleaned == "." ==> bp == "/"
    ensures cleaned == "/" ==> bp == ""
    ensures cleaned == "./" ==> bp == "/"
    ensures cleaned != "./" && (cleaned == [] || cleaned[|cleaned| - 1] != '/') && cleaned != "." ==> bp == cleaned
    ensures cleaned != "./" && |cleaned| > 0 && cleaned[|cleaned| - 1] == '/' ==> bp == cleaned[..|cleaned| - 1]
  {
    var trimmed := if |cleaned| > 0 && cleaned[|cleaned| - 1] == '/' then cleaned[..|cleaned| - 1] else cleaned;
    if trimmed == "." then "/" else trimmed
  }

  // ---------------------------------------------------------------------------
  // Status-code sets

  /** s lists the keys of m, each once, in strictly ascending order. */
  ghost predicate KeysAscending(m: map<int, bool>, s: seq<int>)
  {
    && (forall i, j :: 0 <= i < j < |s| ==> s[i] < s[j])
    && (forall k :: k in m <==> k in s)
    && |s| == |m|
  }

  function IntLe(x: int, y: int): bool
  {
    x <= y
  }

  /** intSetToSlice: the keys of a set-as-map, sorted ascending. */
  method IntSetToSlice(im: map<int, bool>) returns (r: seq<int>)
    ensures KeysAscending(im, r)
  {
    if |im| == 0 {
      return [];
    }
    var keys := Elements(im.Keys);
    var a := new int[|keys|](i requires 0 <= i < |keys| => keys[i]);
    assert a[..] == keys;
    InsertionSort(a, IntLe);
    r := a[..];
    PermutationKeepsDistinct(keys, r);
    forall k
      ensures k in im <==> k in r
    {
      assert k in keys <==> k in multiset(keys);
      assert k in r <==> k in multiset(r);
    }
  }

  // ---------------------------------------------------------------------------
  // Endpoint trackers

  /**
   * One tracker per (path template, method). Each status-code map holds
   * false while a code is unseen and true once it has been observed.
   * Go's trackers are pointers whose maps are updated in place. No two
   * entries of the engine share one, so here a tracker is a value that
   * the engine replaces.
   */
  datatype EndpointCovTracker = EndpointCovTracker(
    path: string,
    statusCodes: map<int, bool>,
    undocumentedStatusCodes: map<int, bool>,
    params: QP.ParamsCoverageChecker)
  {
    /** The tracker's report line, labelled with the given method string. */
    method Report(httpMethod: string) returns (r: EndpointCoverage)
      ensures Describes(httpMethod, this, r)
    {
      var codes := IntSetToSlice(statusCodes);
      var undocumented := IntSetToSlice(undocumentedStatusCodes);
      var pc, origin := params.Report();
      r := EndpointCoverage(httpMethod, path, codes, undocumented, pc);
    }

    /** The report line as evidently intended: only the documented codes observed so far. */
    method ReportObserved(httpMethod: string) returns (r: EndpointCoverage)
      ensures DescribesObserved(httpMethod, this, r)
    {
      var codes := IntSetToSlice(ObservedOnly(statusCodes));
      var undocumented := IntSetToSlice(undocumentedStatusCodes);
      var pc, origin := params.Report();
      r := EndpointCoverage(httpMethod, path, codes, undocumented, pc);
    }
  }

  datatype EndpointCoverage = EndpointCoverage(
    httpMethod: string,
    path: string,
    statusCodes: seq<int>,
    undocumentedStatusCodes: seq<int>,
    params: QP.ParamsCoverage)

  /** The documented codes that have been observed. */
  function ObservedOnly(m: map<int, bool>): (o: map<int, bool>)
    ensures forall c :: c in o <==> c in m && m[c]
  {
    map c | c in m && m[c] :: true
  }

  /**
   * ec reports tracker t under the label httpMethod: the template, the
   * given documented codes and the undocumented codes, both sorted, and
   * the parameter report.
   */
  ghost predicate DescribesWith(httpMethod: string, t: EndpointCovTracker, codes: map<int, bool>, ec: EndpointCoverage)
    reads t.params
  {
    && ec.httpMethod == httpMethod
    && ec.path == t.path
    && KeysAscending(codes, ec.statusCodes)
    && KeysAscending(t.undocumentedStatusCodes, ec.undocumentedStatusCodes)
    && QP.ReportOf(t.params.byPlaceAndName, ec.params)
  }

  /** As written: every documented code is listed, observed or not. */
  ghost predicate Describes(httpMethod: string, t: EndpointCovTracker, ec: EndpointCoverage)
    reads t.params
  {
    DescribesWith(httpMethod, t, t.statusCodes, ec)
  }

  /** As evidently intended: only the documented codes observed so far are listed. */
  ghost predicate DescribesObserved(httpMethod: string, t: EndpointCovTracker, ec: EndpointCoverage)
    reads t.params
  {
    DescribesWith(httpMethod, t, ObservedOnly(t.statusCodes), ec)
  }

  /** The sorted keys of a one-key map are that key alone. */
  lemma KeysAscendingSingleton(m: map<int, bool>, s: seq<int>, k: int)
    requires KeysAscending(m, s) && m.Keys == {k}
    ensures s == [k]
  {
    assert k in s;
    assert |s| == 1;
  }

  /** The sorted keys of an empty map are empty. */
  lemma KeysAscendingEmpty(m: map<int, bool>, s: seq<int>)
    requires KeysAscending(m, s) && m == map[]
    ensures s == []
  {
  }

  /** The parameter table of a tracker for opSpec, under the default thresholds. */
  function TrackerTable(opSpec: Option<QP.Operation>): QP.ParamTable
  {
    if opSpec.Some? then QP.ParamTableOf(opSpec.value.parameters, QP.DefaultMinVariants()) else map[]
  }

  /**
   * newEndpointCoverageTracker: no codes yet and a parameter checker
   * under the default thresholds. A missing operation falls back to the
   * empty checker.
   */
  method NewEndpointCoverageTracker(specPath: string, opSpec: Option<QP.Operation>) returns (e: EndpointCovTracker)
    ensures fresh(e.params)
    ensures e.path == specPath && e.statusCodes == map[] && e.undocumentedStatusCodes == map[]
    ensures e.params.byPlaceAndName == TrackerTable(opSpec)
  {
    var covVariants := QP.NewFullCoverageMinVariants([]);
    var res := QP.NewParamsCoverageChecker(opSpec, covVariants);
    var pcc: QP.ParamsCoverageChecker;
    if res.Failure? {
      pcc := new QP.ParamsCoverageChecker.Empty();
    } else {
      pcc := res.value;
    }
    e := EndpointCovTracker(specPath, map[], map[], pcc);
  }

  /** The status codes an operation documents. */
  function Documented(op: QP.Operation): set<int>
  {
    if op.responses.Some? then op.responses.value else {}
  }

  /** A tracker as NewCoverageChecker leaves it for operation op filed under specPath. */
  ghost predicate Seeded(t: EndpointCovTracker, specPath: string, op: QP.Operation)
    reads t.params
  {
    && t.path == specPath
    && t.statusCodes == (map c | c in Documented(op) :: false)
    && t.undocumentedStatusCodes == map[]
    && t.params.byPlaceAndName == TrackerTable(Some(op))
  }

  /** The effect of one observed status code on a tracker. */
  function Observe(e: EndpointCovTracker, code: int): EndpointCovTracker
  {
    if code in e.statusCodes then e.(statusCodes := e.statusCodes[code := true])
    else e.(undocumentedStatusCodes := e.undocumentedStatusCodes[code := true])
  }

  /** Codes observed one after the other. */
  function ObserveAll(e: EndpointCovTracker, codes: seq<int>): EndpointCovTracker
    decreases |codes|
  {
    if codes == [] then e else ObserveAll(Observe(e, codes[0]), codes[1..])
  }

  /** Documented and undocumented codes never overlap, and an undocumented code is only ever true. */
  predicate Consistent(e: EndpointCovTracker)
  {
    && e.statusCodes.Keys !! e.undocumentedStatusCodes.Keys
    && (forall c :: c in e.undocumentedStatusCodes ==> e.undocumentedStatusCodes[c])
  }

  /** A seeded tracker is consistent. */
  lemma SeededConsistent(t: EndpointCovTracker, specPath: string, op: QP.Operation)
    requires Seeded(t, specPath, op)
    ensures Consistent(t) && t.statusCodes.Keys == Documented(op)
    ensures forall c :: c in t.statusCodes ==> !t.statusCodes[c]
  {
  }

  /**
   * One observation leaves the set of documented codes alone. A documented
   * code is marked covered; any other code joins the undocumented ones.
   */
  lemma ObserveMarks(e: EndpointCovTracker, code: int)
    requires Consistent(e)
    ensures var r := Observe(e, code);
      && Consistent(r)
      && r.path == e.path && r.params == e.params
      && r.statusCodes.Keys == e.statusCodes.Keys
      && (code in e.statusCodes <==> code in r.statusCodes && r.statusCodes[code])
      && (code !in e.statusCodes <==> code in r.undocumentedStatusCodes.Keys - e.undocumentedStatusCodes.Keys || code in e.undocumentedStatusCodes)
      && (forall c :: c in e.statusCodes && e.statusCodes[c] ==> r.statusCodes[c])
      && e.undocumentedStatusCodes.Keys <= r.undocumentedStatusCodes.Keys
  {
  }

  /** Observing the same code twice is observing it once. */
  lemma ObserveIdempotent(e: EndpointCovTracker, code: int)
    ensures Observe(Observe(e, code), code) == Observe(e, code)
  {
  }

  /**
   * After any run of observations, a documented code is covered exactly
   * when it was covered before or occurred in the run. The undocumented
   * codes are the earlier ones plus every undocumented code of the run.
   */
  lemma {:induction false} ObserveAllEffect(e: EndpointCovTracker, codes: seq<int>)
    requires Consistent(e)
    ensures var r := ObserveAll(e, codes);
      && Consistent(r)
      && r.path == e.path && r.params == e.params
      && r.statusCodes == (map c | c in e.statusCodes :: e.statusCodes[c] || c in codes)
      && (forall c :: c in r.undocumentedStatusCodes <==> c in e.undocumentedStatusCodes || (c in codes && c !in e.statusCodes))
    decreases |codes|
  {
    if codes != [] {
      var e1 := Observe(e, codes[0]);
      ObserveMarks(e, codes[0]);
      ObserveAllEffect(e1, codes[1..]);
      var r := ObserveAll(e, codes);
      assert r == ObserveAll(e1, codes[1..]);
      assert forall c :: c in codes <==> c == codes[0] || c in codes[1..] by {
        assert codes == [codes[0]] + codes[1..];
      }
      forall c | c in e.statusCodes
        ensures c in r.statusCodes && r.statusCodes[c] == (e.statusCodes[c] || c in codes)
      {
      }
      assert r.statusCodes.Keys == e.statusCodes.Keys;
    }
  }

  /** The order of observations does not matter: runs with the same codes leave the same tracker. */
  lemma ObserveAllOrderIndependent(e: EndpointCovTracker, a: seq<int>, b: seq<int>)
    requires Consistent(e)
    requires forall c :: c in a <==> c in b
    ensures ObserveAll(e, a) == ObserveAll(e, b)
  {
    ObserveAllEffect(e, a);
    ObserveAllEffect(e, b);
    var ra := ObserveAll(e, a);
    var rb := ObserveAll(e, b);
    assert ra.statusCodes == rb.statusCodes by {
      forall c | c in e.statusCodes
        ensures (e.statusCodes[c] || c in a) == (e.statusCodes[c] || c in b)
      {
      }
    }
    assert ra.undocumentedStatusCodes == rb.undocumentedStatusCodes by {
      assert forall c :: c in ra.undocumentedStatusCodes <==> c in rb.undocumentedStatusCodes;
      assert ra.undocumentedStatusCodes.Keys == rb.undocumentedStatusCodes.Keys;
      forall c | c in ra.undocumentedStatusCodes
        ensures ra.undocumentedStatusCodes[c] == rb.undocumentedStatusCodes[c]
      {
      }
    }
  }

  /** A documented 200 and an undocumented 418 on a fresh tracker documenting 200 and 404. */
  lemma ObserveScenario(p: QP.ParamsCoverageChecker)
    ensures var t := EndpointCovTracker("/pets", map[200 := false, 404 := false], map[], p);
      var r := ObserveAll(t, [200, 418]);
      r.statusCodes == map[200 := true, 404 := false] && r.undocumentedStatusCodes == map[418 := true]
  {
    var t := EndpointCovTracker("/pets", map[200 := false, 404 := false], map[], p);
    assert Observe(t, 200).statusCodes == map[200 := true, 404 := false];
    assert 418 !in Observe(t, 200).statusCodes;
  }

  /**
   * A request answered with an undocumented 404, on a tracker documenting
   * only 200. As written, the report still lists 200 as a status code.
   */
  lemma UnobservedCodeReported(p: QP.ParamsCoverageChecker, ec: EndpointCoverage)
    requires Describes("GET", Observe(EndpointCovTracker("/pets", map[200 := false], map[], p), 404), ec)
    ensures ec.statusCodes == [200] && ec.undocumentedStatusCodes == [404]
  {
    var t := Observe(EndpointCovTracker("/pets", map[200 := false], map[], p), 404);
    assert t.statusCodes == map[200 := false];
    assert t.undocumentedStatusCodes == map[404 := true];
    KeysAscendingSingleton(t.statusCodes, ec.statusCodes, 200);
    KeysAscendingSingleton(t.undocumentedStatusCodes, ec.undocumentedStatusCodes, 404);
  }

  /** The same request under the intended report: no status code observed, 404 undocumented. */
  lemma UnobservedCodeOmitted(p: QP.ParamsCoverageChecker, ec: EndpointCoverage)
    requires DescribesObserved("GET", Observe(EndpointCovTracker("/pets", map[200 := false], map[], p), 404), ec)
    ensures ec.statusCodes == [] && ec.undocumentedStatusCodes == [404]
  {
    var t := Observe(EndpointCovTracker("/pets", map[200 := false], map[], p), 404);
    assert t.statusCodes == map[200 := false];
    assert ObservedOnly(t.statusCodes) == map[];
    assert t.undocumentedStatusCodes == map[404 := true];
    KeysAscendingEmpty(ObservedOnly(t.statusCodes), ec.statusCodes);
    KeysAscendingSingleton(t.undocumentedStatusCodes, ec.undocumentedStatusCodes, 404);
  }

  /**
   * As written, ingesting a response only observes its status code: a
   * tracker whose operation declares the query parameter `limit` keeps
   * `limit` uncovered, whatever the request's query.
   */
  lemma QueryIgnoredAsWritten(t: EndpointCovTracker, code: int)
    requires t.params.byPlaceAndName == QP.ParamTableOf([QP.Parameter(QP.ParamInQuery, "limit", false, [])], QP.DefaultMinVariants())
    ensures Observe(t, code).params.byPlaceAndName[QP.ParamInQuery]["limit"].coveredSet == {}
  {
    assert QP.ParamTableOf([QP.Parameter(QP.ParamInQuery, "limit", false, [])], QP.DefaultMinVariants())
      == map[QP.ParamInQuery := map["limit" := QP.ParamValues({}, 2, true)]];
  }

  // ---------------------------------------------------------------------------
  // The engine's tables while they are built

  /** path template -> upper-cased method -> tracker */
  type Covered = map<string, map<string, EndpointCovTracker>>

  /** cov with ec filed under (routePath, mU); the row is created when missing. */
  function Put(cov: Covered, routePath: string, mU: string, ec: EndpointCovTracker): Covered
  {
    cov[routePath := (if routePath in cov then cov[routePath] else map[])[mU := ec]]
  }

  /** A matcher's records after AddRoute(httpMethod, path). */
  function Filed(records: map<string, seq<Record>>, httpMethod: string, path: string): map<string, seq<Record>>
  {
    var mn := ToUpper(httpMethod);
    records[mn := (if mn in records then records[mn] else []) + [Record(ConvertTemplate(path), path)]]
  }

  /** Every operation in done has a tracker under its joined path and upper-cased method. */
  ghost predicate Complete(cov: Covered, done: set<(string, string)>, bp: string, join: (string, string) -> string)
  {
    forall e :: e in done ==> join(bp, e.1) in cov && ToUpper(e.0) in cov[join(bp, e.1)]
  }

  /** Every operation in done has its converted template filed in the matcher. */
  ghost predicate Registered(records: map<string, seq<Record>>, done: set<(string, string)>, bp: string, join: (string, string) -> string)
  {
    forall e :: e in done ==>
      ToUpper(e.0) in records && Record(ConvertTemplate(join(bp, e.1)), join(bp, e.1)) in records[ToUpper(e.0)]
  }

  /** Every stored template value, under its method, has a tracker. */
  ghost predicate Tracked(records: map<string, seq<Record>>, cov: Covered)
  {
    forall m, i :: m in records && 0 <= i < |records[m]| ==> records[m][i].value in cov && m in cov[records[m][i].value]
  }

  ghost function TrackerObjects(cov: Covered): set<QP.ParamsCoverageChecker>
  {
    set rp, mU | rp in cov && mU in cov[rp] :: cov[rp][mU].params
  }

  /** Every tracker is a seeded tracker of some operation in done that lands on its entry. */
  ghost predicate AllSeeded(cov: Covered, done: set<(string, string)>, ops: map<string, map<string, QP.Operation>>,
                            bp: string, join: (string, string) -> string)
    reads TrackerObjects(cov)
  {
    forall rp, mU :: rp in cov && mU in cov[rp] ==>
      exists e :: e in done && e.0 in ops && e.1 in ops[e.0] && rp == join(bp, e.1) && mU == ToUpper(e.0)
                  && Seeded(cov[rp][mU], e.1, ops[e.0][e.1])
  }

  lemma StepComplete(cov: Covered, done: set<(string, string)>, bp: string, join: (string, string) -> string,
                     m: string, p: string, ec: EndpointCovTracker)
    requires Complete(cov, done, bp, join)
    ensures Complete(Put(cov, join(bp, p), ToUpper(m), ec), done + {(m, p)}, bp, join)
  {
  }

  lemma StepRegistered(records: map<string, seq<Record>>, done: set<(string, string)>, bp: string,
                       join: (string, string) -> string, m: string, p: string)
    requires Registered(records, done, bp, join)
    ensures Registered(Filed(records, m, join(bp, p)), done + {(m, p)}, bp, join)
  {
    var after: map<string, seq<Record>> := Filed(records, m, join(bp, p));
    forall e | e in done + {(m, p)}
      ensures ToUpper(e.0) in after && Record(ConvertTemplate(join(bp, e.1)), join(bp, e.1)) in after[ToUpper(e.0)]
    {
      if e != (m, p) && ToUpper(e.0) == ToUpper(m) {
        assert records[ToUpper(e.0)] <= after[ToUpper(e.0)];
      }
    }
  }

  lemma StepTracked(records: map<string, seq<Record>>, cov: Covered, m: string, rp: string, ec: EndpointCovTracker)
    requires Tracked(records, cov)
    ensures Tracked(Filed(records, m, rp), Put(cov, rp, ToUpper(m), ec))
  {
    var after: map<string, seq<Record>> := Filed(records, m, rp);
    var cov' := Put(cov, rp, ToUpper(m), ec);
    forall mm: string, i: int | mm in after && 0 <= i < |after[mm]|
      ensures after[mm][i].value in cov' && mm in cov'[after[mm][i].value]
    {
      if mm == ToUpper(m) && i == |after[mm]| - 1 {
        assert after[mm][i].value == rp;
      } else {
        assert after[mm][i] == records[mm][i];
      }
    }
  }

  lemma StepSeeded(cov: Covered, done: set<(string, string)>, ops: map<string, map<string, QP.Operation>>,
                   bp: string, join: (string, string) -> string, m: string, p: string, ec: EndpointCovTracker)
    requires AllSeeded(cov, done, ops, bp, join)
    requires m in ops && p in ops[m] && Seeded(ec, p, ops[m][p])
    ensures AllSeeded(Put(cov, join(bp, p), ToUpper(m), ec), done + {(m, p)}, ops, bp, join)
  {
    var cov' := Put(cov, join(bp, p), ToUpper(m), ec);
    forall rp, mU | rp in cov' && mU in cov'[rp]
      ensures exists e :: e in done + {(m, p)} && e.0 in ops && e.1 in ops[e.0] && rp == join(bp, e.1) && mU == ToUpper(e.0)
                          && Seeded(cov'[rp][mU], e.1, ops[e.0][e.1])
    {
      if rp == join(bp, p) && mU == ToUpper(m) {
        assert (m, p) in done + {(m, p)};
      } else {
        assert cov'[rp][mU] == cov[rp][mU];
        var e :| e in done && e.0 in ops && e.1 in ops[e.0] && rp == join(bp, e.1) && mU == ToUpper(e.0)
                 && Seeded(cov[rp][mU], e.1, ops[e.0][e.1]);
        assert e in done + {(m, p)};
      }
    }
  }

  /** Every tracker of the engine is consistent. */
  predicate AllConsistent(cov: Covered)
  {
    forall rp, mU :: rp in cov && mU in cov[rp] ==> Consistent(cov[rp][mU])
  }

  /** Seeded trackers are consistent, so the engine starts consistent. */
  lemma SeededAllConsistent(cov: Covered, done: set<(string, string)>, ops: map<string, map<string, QP.Operation>>,
                            bp: string, join: (string, string) -> string)
    requires AllSeeded(cov, done, ops, bp, join)
    ensures AllConsistent(cov)
  {
    forall rp, mU | rp in cov && mU in cov[rp]
      ensures Consistent(cov[rp][mU])
    {
      var e :| e in done && e.0 in ops && e.1 in ops[e.0] && rp == join(bp, e.1) && mU == ToUpper(e.0)
               && Seeded(cov[rp][mU], e.1, ops[e.0][e.1]);
      SeededConsistent(cov[rp][mU], e.1, ops[e.0][e.1]);
    }
  }

  /** Observing a code on one tracker keeps the whole engine consistent. */
  lemma ObserveKeepsAllConsistent(cov: Covered, rp: string, mU: string, code: int)
    requires AllConsistent(cov) && rp in cov && mU in cov[rp]
    ensures AllConsistent(cov[rp := cov[rp][mU := Observe(cov[rp][mU], code)]])
  {
    ObserveMarks(cov[rp][mU], code);
  }

  /** The four facts NewCoverageChecker keeps while it files the operations in done. */
  ghost predicate Indexed(cov: Covered, records: map<string, seq<Record>>, done: set<(string, string)>,
                          ops: map<string, map<string, QP.Operation>>, bp: string, join: (string, string) -> string)
    reads TrackerObjects(cov)
  {
    && Complete(cov, done, bp, join)
    && Registered(records, done, bp, join)
    && Tracked(records, cov)
    && AllSeeded(cov, done, ops, bp, join)
  }

  lemma StepIndexed(cov: Covered, records: map<string, seq<Record>>, done: set<(string, string)>,
                    ops: map<string, map<string, QP.Operation>>, bp: string, join: (string, string) -> string,
                    m: string, p: string, ec: EndpointCovTracker)
    requires Indexed(cov, records, done, ops, bp, join)
    requires m in ops && p in ops[m] && Seeded(ec, p, ops[m][p])
    ensures Indexed(Put(cov, join(bp, p), ToUpper(m), ec), Filed(records, m, join(bp, p)), done + {(m, p)}, ops, bp, join)
  {
    StepComplete(cov, done, bp, join, m, p, ec);
    StepRegistered(records, done, bp, join, m, p);
    StepTracked(records, cov, m, join(bp, p), ec);
    StepSeeded(cov, done, ops, bp, join, m, p, ec);
  }

  /** The documented status codes of an operation, none of them seen yet. */
  method SeedStatusCodes(def: QP.Operation) returns (codes: map<int, bool>)
    ensures codes == map c | c in Documented(def) :: false
  {
    codes := map[];
    if def.responses.Some? {
      var documented := Elements(def.responses.value);
      for i := 0 to |documented|
        invariant codes == map c | c in documented[..i] :: false
      {
        assert documented[..i + 1] == documented[..i] + [documented[i]];
        codes := codes[documented[i] := false];
      }
      assert documented[..|documented|] == documented;
    }
  }

  /**
   * One pass of NewCoverageChecker's inner loop. A tracker is made for
   * operation def at specPath. The joined template is filed under method
   * m. The tracker is filed under the joined path and upper-cased method.
   */
  method FileOperation(pm: PathMatcher, cov: Covered, bp: string, m: string, specPath: string, def: QP.Operation,
                       join: (string, string) -> string, ghost ops: map<string, map<string, QP.Operation>>,
                       ghost done: set<(string, string)>)
    returns (cov': Covered)
    requires m in ops && specPath in ops[m] && def == ops[m][specPath]
    requires pm.Valid() && Indexed(cov, pm.records, done, ops, bp, join)
    modifies pm`records
    ensures pm.Valid() && Indexed(cov', pm.records, done + {(m, specPath)}, ops, bp, join)
  {
    var mU := ToUpper(m);
    var routePath := join(bp, specPath);
    var ec := NewEndpointCoverageTracker(specPath, Some(def));
    ghost var before := pm.records;
    pm.AddRoute(m, routePath);
    var codes := SeedStatusCodes(def);
    ec := ec.(statusCodes := codes);
    var row := if routePath in cov then cov[routePath] else map[];
    cov' := cov[routePath := row[mU := ec]];
    StepIndexed(cov, before, done, ops, bp, join, m, specPath, ec);
  }

  /** NewCoverageChecker's inner loop: every operation of method m, in map order. */
  method FileMethod(pm: PathMatcher, cov: Covered, bp: string, m: string, mops: map<string, QP.Operation>,
                    join: (string, string) -> string, ghost ops: map<string, map<string, QP.Operation>>,
                    ghost done: set<(string, string)>)
    returns (cov': Covered)
    requires m in ops && mops == ops[m]
    requires pm.Valid() && Indexed(cov, pm.records, done, ops, bp, join)
    modifies pm`records
    ensures pm.Valid() && Indexed(cov', pm.records, done + Row(m, mops.Keys), ops, bp, join)
  {
    cov' := cov;
    var paths := mops.Keys;
    while paths != {}
      invariant paths <= mops.Keys
      invariant pm.Valid() && Indexed(cov', pm.records, done + Row(m, mops.Keys - paths), ops, bp, join)
    {
      var specPath :| specPath in paths;
      cov' := FileOperation(pm, cov', bp, m, specPath, mops[specPath], join, ops, done + Row(m, mops.Keys - paths));
      RowStep(done, m, mops.Keys, paths, specPath);
      paths := paths - {specPath};
    }
    NonePending(mops.Keys, paths);
  }

  /** NewCoverageChecker's body: the normalised base path, the filled matcher and the trackers. */
  method NewTables(cleanedBasePath: string, ops: map<string, map<string, QP.Operation>>, join: (string, string) -> string)
    returns (pm: PathMatcher, bp: string, cov: Covered)
    ensures fresh(pm) && pm.Valid() && pm.routers == BuiltRouters(pm.records)
    ensures bp == NormalizeBasePath(cleanedBasePath)
    ensures Indexed(cov, pm.records, Pairs(ops), ops, bp, join)
    ensures AllConsistent(cov)
  {
    bp := NormalizeBasePath(cleanedBasePath);
    cov := map[];
    pm := new PathMatcher();
    var methods := ops.Keys;
    while methods != {}
      invariant methods <= ops.Keys
      invariant pm.Valid() && Indexed(cov, pm.records, PairsOver(ops, ops.Keys - methods), ops, bp, join)
    {
      var m :| m in methods;
      cov := FileMethod(pm, cov, bp, m, ops[m], join, ops, PairsOver(ops, ops.Keys - methods));
      PairsOverStep(ops, methods, m);
      methods := methods - {m};
    }
    NonePending(ops.Keys, methods);
    PairsOverAll(ops);
    SeededAllConsistent(cov, Pairs(ops), ops, bp, join);
    pm.Build();
  }

  // ---------------------------------------------------------------------------
  // The engine

  /**
   * NewCoverageChecker. Every operation is filed under its joined path
   * and upper-cased method: as a template in the matcher, and as a
   * seeded tracker in covered. When two operations land on the same
   * entry, one of them is kept.
   */
  method NewCoverageChecker(cleanedBasePath: string, ops: map<string, map<string, QP.Operation>>, join: (string, string) -> string)
    returns (cc: CoverageChecker)
    ensures fresh(cc) && cc.Valid()
    ensures cc.basePath == NormalizeBasePath(cleanedBasePath)
    ensures Indexed(cc.covered, cc.pathMatcher.records, Pairs(ops), ops, cc.basePath, join)
  {
    var pm, bp, cov := NewTables(cleanedBasePath, ops, join);
    cc := new CoverageChecker(pm, bp, cov);
  }

  class CoverageChecker {
    const pathMatcher: PathMatcher
    var basePath: string
    var covered: Covered

    /**
     * The routers are built from the matcher's records, every stored
     * template has a tracker, and every tracker keeps its documented and
     * undocumented codes apart.
     */
    ghost predicate Valid()
      reads this, pathMatcher
    {
      && pathMatcher.Valid()
      && pathMatcher.routers == BuiltRouters(pathMatcher.records)
      && Tracked(pathMatcher.records, covered)
      && AllConsistent(covered)
    }

    /** An engine over a filled matcher and its trackers. */
    constructor (pathMatcher: PathMatcher, basePath: string, covered: Covered)
      ensures this.pathMatcher == pathMatcher && this.basePath == basePath && this.covered == covered
    {
      this.pathMatcher := pathMatcher;
      this.basePath := basePath;
      this.covered := covered;
    }

    /**
     * ProcessRecordedResponse. The request's cleaned path is looked up
     * under its method. No match leaves the engine unchanged. A match
     * always has a tracker, and the recorded status code is observed on
     * it; every other tracker stays as it was.
     */
    method ProcessRecordedResponse(rec: Proxy.ResponseWriterRecorder, clean: string -> string, lookup: Lookup)
      requires Valid() && Honest(lookup)
      modifies this`covered
      ensures Valid()
      ensures var matched := Resolve(pathMatcher.routers, rec.req.httpMethod, clean(rec.req.path), lookup);
        && (matched.None? ==> covered == old(covered))
        && (matched.Some? ==>
              var mp := matched.value;
              && mp.path in old(covered) && mp.httpMethod in old(covered)[mp.path]
              && covered == old(covered)[mp.path := old(covered)[mp.path][mp.httpMethod := Observe(old(covered)[mp.path][mp.httpMethod], rec.statusCode)]])
    {
      var reqPath := clean(rec.req.path);
      var matched := pathMatcher.LookupRoute(rec.req.httpMethod, reqPath, lookup);
      if matched.None? {
        return;
      }
      ResolveFindsAddedTemplate(pathMatcher.records, rec.req.httpMethod, reqPath, lookup);
      MarkStatus(matched.value.path, matched.value.httpMethod, rec.statusCode);
    }

    /** The locked part of ProcessRecordedResponse: the tracker at (routePath, mU) observes code. */
    method MarkStatus(routePath: string, mU: string, code: int)
      requires Valid() && routePath in covered && mU in covered[routePath]
      modifies this`covered
      ensures Valid()
      ensures covered == old(covered)[routePath := old(covered)[routePath][mU := Observe(old(covered)[routePath][mU], code)]]
    {
      var e := covered[routePath][mU];
      ObserveKeepsAllConsistent(covered, routePath, mU, code);
      if code in e.statusCodes {
        e := e.(statusCodes := e.statusCodes[code := true]);
      } else {
        e := e.(undocumentedStatusCodes := e.undocumentedStatusCodes[code := true]);
      }
      covered := covered[routePath := covered[routePath][mU := e]];
    }

    /**
     * Ingestion as evidently intended: ProcessRecordedResponse, and then
     * the request's query handed to the matched tracker's parameter
     * checker. Every other parameter checker is left alone.
     */
    method Ingest(rec: Proxy.ResponseWriterRecorder, clean: string -> string, lookup: Lookup)
      requires Valid() && Honest(lookup)
      modifies this`covered, TrackerObjects(covered)
      ensures Valid()
      ensures var matched := Resolve(pathMatcher.routers, rec.req.httpMethod, clean(rec.req.path), lookup);
        && (matched.None? ==> covered == old(covered))
        && (matched.None? ==> forall rp, mU :: rp in old(covered) && mU in old(covered)[rp] ==> unchanged(old(covered)[rp][mU].params))
        && (matched.Some? ==>
              var mp := matched.value;
              && mp.path in old(covered) && mp.httpMethod in old(covered)[mp.path]
              && covered == old(covered)[mp.path := old(covered)[mp.path][mp.httpMethod := Observe(old(covered)[mp.path][mp.httpMethod], rec.statusCode)]]
              && var pcc := old(covered)[mp.path][mp.httpMethod].params;
              && pcc.byPlaceAndName == QP.Recorded(old(pcc.byPlaceAndName), rec.req.query)
              && forall rp, mU :: rp in old(covered) && mU in old(covered)[rp] && old(covered)[rp][mU].params != pcc ==>
                   unchanged(old(covered)[rp][mU].params))
    {
      var reqPath := clean(rec.req.path);
      var matched := pathMatcher.LookupRoute(rec.req.httpMethod, reqPath, lookup);
      if matched.None? {
        return;
      }
      ResolveFindsAddedTemplate(pathMatcher.records, rec.req.httpMethod, reqPath, lookup);
      var mp := matched.value;
      var pcc := covered[mp.path][mp.httpMethod].params;
      assert pcc in TrackerObjects(covered);
      MarkStatus(mp.path, mp.httpMethod, rec.statusCode);
      pcc.Record(rec.req.query);
    }

    /**
     * The line for entry e of covered. As written it lists every documented
     * code and is labelled with the path template; corrected, it lists the
     * observed documented codes and is labelled with the method.
     */
    ghost predicate ReportsEntry(e: (string, string), ec: EndpointCoverage, corrected: bool)
      reads this, if e.0 in covered && e.1 in covered[e.0] then {covered[e.0][e.1].params} else {}
    {
      && e.0 in covered && e.1 in covered[e.0]
      && (if corrected then DescribesObserved(e.1, covered[e.0][e.1], ec) else Describes(e.0, covered[e.0][e.1], ec))
    }

    /** The line for one tracker. */
    method Line(routePath: string, mU: string, corrected: bool) returns (ec: EndpointCoverage)
      requires routePath in covered && mU in covered[routePath]
      ensures ReportsEntry((routePath, mU), ec, corrected)
    {
      var t := covered[routePath][mU];
      if corrected {
        ec := t.ReportObserved(mU);
      } else {
        ec := t.Report(routePath);
      }
    }

    /** The inner loop of Report: the lines of every tracker under one path template, appended. */
    method AppendRow(routePath: string, corrected: bool, lines0: seq<EndpointCoverage>, ghost origin0: seq<(string, string)>,
                     ghost before: set<(string, string)>)
      returns (lines: seq<EndpointCoverage>, ghost origin: seq<(string, string)>)
      requires routePath in covered
      requires |lines0| == |origin0| && NoDuplicates(origin0)
      requires forall e :: e in origin0 <==> e in before
      requires forall e :: e in before ==> e.0 != routePath
      requires forall i :: 0 <= i < |origin0| ==> ReportsEntry(origin0[i], lines0[i], corrected)
      ensures |lines| == |origin| && NoDuplicates(origin)
      ensures forall e :: e in origin <==> e in before || e in Row(routePath, covered[routePath].Keys)
      ensures forall i :: 0 <= i < |origin| ==> ReportsEntry(origin[i], lines[i], corrected)
    {
      lines, origin := lines0, origin0;
      var methods := covered[routePath].Keys;
      while methods != {}
        invariant methods <= covered[routePath].Keys
        invariant |lines| == |origin| && NoDuplicates(origin)
        invariant forall e :: e in origin <==> e in before || (e.0 == routePath && e.1 in covered[routePath] && e.1 !in methods)
        invariant forall i :: 0 <= i < |origin| ==> ReportsEntry(origin[i], lines[i], corrected)
      {
        var mU :| mU in methods;
        var ec := Line(routePath, mU, corrected);
        lines := lines + [ec];
        origin := origin + [(routePath, mU)];
        methods := methods - {mU};
      }
    }

    /** The nested loop of Report: one line per tracker, in map order. */
    method Lines(corrected: bool) returns (lines: seq<EndpointCoverage>, ghost origin: seq<(string, string)>)
      ensures |lines| == |Pairs(covered)|
      ensures |origin| == |lines|
      ensures NoDuplicates(origin) && (forall e :: e in origin <==> e in Pairs(covered))
      ensures forall i :: 0 <= i < |origin| ==> ReportsEntry(origin[i], lines[i], corrected)
    {
      lines := [];
      origin := [];
      var paths := covered.Keys;
      while paths != {}
        invariant paths <= covered.Keys
        invariant |lines| == |origin| && NoDuplicates(origin)
        invariant forall e :: e in origin <==> e in PairsOver(covered, covered.Keys - paths)
        invariant forall i :: 0 <= i < |origin| ==> ReportsEntry(origin[i], lines[i], corrected)
      {
        var routePath :| routePath in paths;
        lines, origin := AppendRow(routePath, corrected, lines, origin, PairsOver(covered, covered.Keys - paths));
        PairsOverStep(covered, paths, routePath);
        paths := paths - {routePath};
      }
      NonePending(covered.Keys, paths);
      PairsOverAll(covered);
      DistinctCard(origin);
      assert (set e | e in origin) == Pairs(covered);
    }

    /**
     * Report as written. The slice is made with length |covered| and then
     * appended to, so it opens with |covered| nil entries. Every tracker
     * follows once, labelled with its path template instead of its method.
     */
    method Report() returns (eps: seq<Option<EndpointCoverage>>, ghost origin: seq<(string, string)>)
      ensures |eps| == |covered| + |origin| && |origin| == |Pairs(covered)|
      ensures forall i :: 0 <= i < |covered| ==> eps[i] == None
      ensures NoDuplicates(origin) && (forall e :: e in origin <==> e in Pairs(covered))
      ensures forall i :: |covered| <= i < |eps| ==>
        eps[i].Some? && ReportsEntry(origin[i - |covered|], eps[i].value, false)
    {
      var lines;
      lines, origin := Lines(false);
      eps := seq(|covered|, _ => None) + seq(|lines|, i requires 0 <= i < |lines| => Some(lines[i]));
    }

    /**
     * Report as evidently intended: exactly one entry per tracker, no nil
     * padding, each labelled with its method.
     */
    method ReportEndpoints() returns (eps: seq<EndpointCoverage>, ghost origin: seq<(string, string)>)
      ensures |eps| == |Pairs(covered)|
      ensures |origin| == |eps|
      ensures NoDuplicates(origin) && (forall e :: e in origin <==> e in Pairs(covered))
      ensures forall i :: 0 <= i < |origin| ==> ReportsEntry(origin[i], eps[i], true)
    {
      eps, origin := Lines(true);
    }
  }
}
