/**
 * The path matcher: OpenAPI route templates are filed per upper-cased HTTP
 * method, rewritten from `{name}` placeholders to `:name` patterns, and
 * compiled into one trie router per method.
 *
 * The trie router (denco) is a library outside this model. A Router is
 * represented by the records it was built from, and its Lookup is the
 * function-valued parameter `lookup`; Honest states the one thing the model
 * relies on from it, that a value it finds is a value it was given.
 */
module PathMatch {
  import opened Wrappers
  import opened Text

  /** denco.Record: the converted pattern and the original template stored with it. */
  datatype Record = Record(key: string, value: string)

  /** A built denco router, known by the records it was built from. */
  datatype Router = Router(records: seq<Record>)

  /** A captured route parameter, as denco reports it. */
  datatype Param = Param(name: string, value: string)

  /** The stored value a router returns: an interface{} that may or may not hold a string. */
  datatype Stored = StrValue(s: string) | NonString

  datatype RouterHit = RouterHit(found: bool, value: Stored, params: seq<Param>)

  type Lookup = (Router, string) -> RouterHit

  datatype MatchedPath = MatchedPath(httpMethod: string, path: string, params: map<string, string>)

  /** A router only returns values of its own records. */
  ghost predicate Honest(lookup: Lookup)
  {
    forall r: Router, p: string :: lookup(r, p).found && lookup(r, p).value.StrValue? ==>
      exists i :: 0 <= i < |r.records| && r.records[i].value == lookup(r, p).value.s
  }

  // ---------------------------------------------------------------------------
  // Template conversion: the regular expression {(.+?)}([^/]*) replaced by :$1

  /** The first '}' at or after j, provided no newline comes before it ('.' does not match a newline). */
  function CloseBrace(s: string, j: nat): (k: Option<nat>)
    ensures k.Some? ==> j <= k.value < |s| && s[k.value] == '}'
    ensures k.Some? ==> forall i :: j <= i < k.value ==> s[i] != '}' && s[i] != '\n'
    ensures k.None? ==> forall i :: j <= i < |s| && s[i] == '}' ==> exists m :: j <= m < i && s[m] == '\n'
    decreases |s| - j
  {
    if j >= |s| then None
    else if s[j] == '\n' then None
    else if s[j] == '}' then Some(j)
    else CloseBrace(s, j + 1)
  }

  /** The end of the path segment that starts at k: the next '/' or the end of the string. */
  function SegmentEnd(s: string, k: nat): (e: nat)
    requires k <= |s|
    ensures k <= e <= |s|
    ensures e < |s| ==> s[e] == '/'
    ensures forall i :: k <= i < e ==> s[i] != '/'
    decreases |s| - k
  {
    if k == |s| || s[k] == '/' then k else SegmentEnd(s, k + 1)
  }

  /** Does a placeholder match start at the beginning of s? */
  predicate OpensPlaceholder(s: string)
  {
    |s| >= 3 && s[0] == '{' && s[1] != '\n' && CloseBrace(s, 2).Some?
  }

  /**
   * ReplaceAllString(path, ":$1") for the pattern {(.+?)}([^/]*): scanning
   * left to right, each '{' that starts a match is replaced, together with the
   * name, the closing brace and the rest of the segment, by ':' and the name.
   */
  function ConvertTemplate(path: string): (conv: string)
    decreases |path|
  {
    if path == [] then []
    else if OpensPlaceholder(path) then
      var k := CloseBrace(path, 2).value;
      [':'] + path[1..k] + ConvertTemplate(path[SegmentEnd(path, k + 1)..])
    else
      [path[0]] + ConvertTemplate(path[1..])
  }

  /** A template without '{' is a literal path and is not changed. */
  lemma {:induction false} ConvertLiteral(path: string)
    requires forall i :: 0 <= i < |path| ==> path[i] != '{'
    ensures ConvertTemplate(path) == path
    decreases |path|
  {
    if path != [] {
      ConvertLiteral(path[1..]);
    }
  }

  /** One step of the conversion at a character that does not open a placeholder. */
  lemma ConvertCopiesHead(s: string)
    requires s != [] && s[0] != '{'
    ensures ConvertTemplate(s) == [s[0]] + ConvertTemplate(s[1..])
  {
  }

  /**
   * One step of the conversion at a placeholder: s opens with '{', its first
   * '}' after the name is at k, and the segment after it ends at e.
   */
  lemma ConvertReplacesHead(s: string, k: nat, e: nat)
    requires 2 <= k < e <= |s| && s[0] == '{' && s[1] != '\n' && s[k] == '}'
    requires forall i :: 2 <= i < k ==> s[i] != '}' && s[i] != '\n'
    requires forall i :: k < i < e ==> s[i] != '/'
    requires e == |s| || s[e] == '/'
    ensures ConvertTemplate(s) == [':'] + s[1..k] + ConvertTemplate(s[e..])
  {
    CloseBraceAt(s, 2, k);
    SegmentEndAt(s, k + 1, e);
  }

  /** Literal text in front of a template is copied unchanged. */
  lemma {:induction false} ConvertLiteralPrefix(lit: string, rest: string)
    requires forall i :: 0 <= i < |lit| ==> lit[i] != '{'
    ensures ConvertTemplate(lit + rest) == lit + ConvertTemplate(rest)
    decreases |lit|
  {
    if lit != [] {
      var s := lit + rest;
      assert s[0] == lit[0];
      ConvertCopiesHead(s);
      assert s[1..] == lit[1..] + rest;
      ConvertLiteralPrefix(lit[1..], rest);
      calc {
        ConvertTemplate(s);
        [lit[0]] + ConvertTemplate(lit[1..] + rest);
        [lit[0]] + (lit[1..] + ConvertTemplate(rest));
        { assert lit == [lit[0]] + lit[1..]; }
        lit + ConvertTemplate(rest);
      }
    } else {
      assert lit + rest == rest;
    }
  }

  /** Conversion never lengthens a template: each placeholder loses at least its braces. */
  lemma {:induction false} ConvertShortens(path: string)
    ensures |ConvertTemplate(path)| <= |path|
    decreases |path|
  {
    if path != [] {
      if OpensPlaceholder(path) {
        var k := CloseBrace(path, 2).value;
        ConvertShortens(path[SegmentEnd(path, k + 1)..]);
      } else {
        ConvertShortens(path[1..]);
      }
    }
  }

  lemma ConvertPetsId()
    ensures ConvertTemplate("/pets/{id}") == "/pets/:id"
  {
    ConvertLastPlaceholder("/pets/", "id", "");
    assert "/pets/" + ("{" + "id" + "}" + "") == "/pets/{id}";
  }

  /** Text after the closing brace, up to the next '/', is dropped along with the braces. */
  lemma ConvertDropsSuffix()
    ensures ConvertTemplate("/f/{id}.json") == "/f/:id"
  {
    ConvertLastPlaceholder("/f/", "id", ".json");
    assert "/f/" + ("{" + "id" + "}" + ".json") == "/f/{id}.json";
  }

  /** CloseBrace finds the first '}' when nothing before it is a '}' or a newline. */
  lemma {:induction false} CloseBraceAt(s: string, j: nat, k: nat)
    requires j <= k < |s| && s[k] == '}'
    requires forall i :: j <= i < k ==> s[i] != '}' && s[i] != '\n'
    ensures CloseBrace(s, j) == Some(k)
    decreases k - j
  {
    if j < k {
      CloseBraceAt(s, j + 1, k);
    }
  }

  /** SegmentEnd stops at the first '/' after k, or at the end of the string. */
  lemma {:induction false} SegmentEndAt(s: string, k: nat, e: nat)
    requires k <= e <= |s|
    requires forall i :: k <= i < e ==> s[i] != '/'
    requires e == |s| || s[e] == '/'
    ensures SegmentEnd(s, k) == e
    decreases e - k
  {
    if k < e {
      SegmentEndAt(s, k + 1, e);
    }
  }

  /**
   * The general rewrite: a placeholder `{name}` followed by the rest of its
   * segment becomes `:name`, and conversion goes on at the next '/'.
   */
  lemma ConvertPlaceholder(name: string, suffix: string, rest: string)
    requires |name| >= 1
    requires forall i :: 0 <= i < |name| ==> name[i] != '\n'
    requires forall i :: 1 <= i < |name| ==> name[i] != '}'
    requires forall i :: 0 <= i < |suffix| ==> suffix[i] != '/'
    requires rest == [] || rest[0] == '/'
    ensures ConvertTemplate("{" + name + "}" + suffix + rest) == ":" + name + ConvertTemplate(rest)
  {
    var s := "{" + name + "}" + suffix + rest;
    var k := |name| + 1;
    var e := k + 1 + |suffix|;
    PlaceholderShape(name, suffix, rest);
    ConvertReplacesHead(s, k, e);
  }

  /** Where the braces, the suffix and the rest sit in "{" + name + "}" + suffix + rest. */
  lemma PlaceholderShape(name: string, suffix: string, rest: string)
    requires |name| >= 1
    requires forall i :: 0 <= i < |name| ==> name[i] != '\n'
    requires forall i :: 1 <= i < |name| ==> name[i] != '}'
    requires forall i :: 0 <= i < |suffix| ==> suffix[i] != '/'
    requires rest == [] || rest[0] == '/'
    ensures var s, k, e := "{" + name + "}" + suffix + rest, |name| + 1, |name| + 2 + |suffix|;
      && 2 <= k < e <= |s| && s[0] == '{' && s[1] != '\n' && s[k] == '}'
      && (forall i :: 2 <= i < k ==> s[i] != '}' && s[i] != '\n')
      && (forall i :: k < i < e ==> s[i] != '/')
      && (e == |s| || s[e] == '/')
      && s[1..k] == name && s[e..] == rest
  {
    var s := "{" + name + "}" + suffix + rest;
    var k := |name| + 1;
    var e := k + 1 + |suffix|;
    assert s[k] == '}';
    forall i | 2 <= i < k
      ensures s[i] != '}' && s[i] != '\n'
    {
      assert s[i] == name[i - 1];
    }
    assert s[1] == name[0];
    forall i | k < i < e
      ensures s[i] != '/'
    {
      assert s[i] == suffix[i - k - 1];
    }
    if rest != [] {
      assert s[e] == rest[0];
    }
    assert s[1..k] == name;
    assert s[e..] == rest;
  }

  /** A literal prefix followed by one placeholder that ends the template. */
  lemma ConvertLastPlaceholder(lit: string, name: string, suffix: string)
    requires forall i :: 0 <= i < |lit| ==> lit[i] != '{'
    requires |name| >= 1
    requires forall i :: 0 <= i < |name| ==> name[i] != '\n' && name[i] != '}'
    requires forall i :: 0 <= i < |suffix| ==> suffix[i] != '/'
    ensures ConvertTemplate(lit + ("{" + name + "}" + suffix)) == lit + (":" + name)
  {
    var t := "{" + name + "}" + suffix;
    assert t + [] == t;
    ConvertPlaceholder(name, suffix, []);
    ConvertLiteralPrefix(lit, t);
    assert ":" + name + ConvertTemplate([]) == ":" + name;
  }

  // ---------------------------------------------------------------------------
  // Captured parameters

  /**
   * The parameter map as pathmatcher.go builds it: each captured name is set
   * to mp[p.Value], the map's own entry for the captured VALUE, which is ""
   * unless that value happens to be a name set before, whose entry is "" too.
   */
  function AsWrittenParams(ps: seq<Param>): (mp: map<string, string>)
    ensures forall k :: k in mp <==> exists i :: 0 <= i < |ps| && ps[i].name == k
    ensures forall k :: k in mp ==> mp[k] == ""
  {
    if ps == [] then map[]
    else
      var mp := AsWrittenParams(ps[..|ps| - 1]);
      var p := ps[|ps| - 1];
      mp[p.name := if p.value in mp then mp[p.value] else ""]
  }

  /** One more captured parameter, as the code's loop adds it. */
  lemma AsWrittenParamsStep(ps: seq<Param>, i: nat)
    requires i < |ps|
    ensures var mp := AsWrittenParams(ps[..i]);
      AsWrittenParams(ps[..i + 1]) == mp[ps[i].name := if ps[i].value in mp then mp[ps[i].value] else ""]
  {
    assert ps[..i + 1][..i] == ps[..i];
  }

  /** The evidently intended map: each captured name to its captured value (the last one wins). */
  function CapturedParams(ps: seq<Param>): (mp: map<string, string>)
    ensures forall k :: k in mp <==> exists i :: 0 <= i < |ps| && ps[i].name == k
  {
    if ps == [] then map[]
    else
      var p := ps[|ps| - 1];
      CapturedParams(ps[..|ps| - 1])[p.name := p.value]
  }

  /** In the intended map, a name holds the value of its last capture. */
  lemma {:induction false} CapturedParamsLastWins(ps: seq<Param>, i: nat)
    requires i < |ps|
    requires forall j :: i < j < |ps| ==> ps[j].name != ps[i].name
    ensures ps[i].name in CapturedParams(ps) && CapturedParams(ps)[ps[i].name] == ps[i].value
    decreases |ps|
  {
    if i < |ps| - 1 {
      var init := ps[..|ps| - 1];
      assert init[i] == ps[i];
      CapturedParamsLastWins(init, i);
    }
  }

  /** On `/pets/42` against `/pets/:id` the code yields id = "" where id = "42" is meant. */
  lemma CapturedValueLost()
    ensures AsWrittenParams([Param("id", "42")]) == map["id" := ""]
    ensures CapturedParams([Param("id", "42")]) == map["id" := "42"]
  {
  }

  // ---------------------------------------------------------------------------
  // Lookup

  /** What LookupRoute answers for a request, given the routers built so far. */
  function Resolve(routers: map<string, Router>, httpMethod: string, pathWithParams: string, lookup: Lookup): Option<MatchedPath>
  {
    var mn := ToUpper(httpMethod);
    if mn !in routers then None
    else
      var hit := lookup(routers[mn], pathWithParams);
      if !hit.found || hit.value.NonString? then None
      else Some(MatchedPath(mn, hit.value.s, AsWrittenParams(hit.params)))
  }

  /** One router per method that has records, each built from exactly those records. */
  function BuiltRouters(records: map<string, seq<Record>>): (routers: map<string, Router>)
    ensures routers.Keys == records.Keys
  {
    map m | m in records :: Router(records[m])
  }

  /** Before Build there are no routers and every lookup misses. */
  lemma ResolveBeforeBuild(httpMethod: string, pathWithParams: string, lookup: Lookup)
    ensures Resolve(map[], httpMethod, pathWithParams, lookup) == None
  {
  }

  /** Method names match regardless of case. */
  lemma ResolveIgnoresCase(routers: map<string, Router>, m1: string, m2: string, p: string, lookup: Lookup)
    requires ToUpper(m1) == ToUpper(m2)
    ensures Resolve(routers, m1, p, lookup) == Resolve(routers, m2, p, lookup)
  {
  }

  /** A miss, or a stored value that is not a string, yields no match. */
  lemma ResolveMiss(routers: map<string, Router>, httpMethod: string, p: string, lookup: Lookup)
    requires ToUpper(httpMethod) in routers
    requires !lookup(routers[ToUpper(httpMethod)], p).found || lookup(routers[ToUpper(httpMethod)], p).value.NonString?
    ensures Resolve(routers, httpMethod, p, lookup) == None
  {
  }

  /**
   * A hit carries the upper-cased method, the stored (unconverted) template,
   * and one parameter per captured name, each with the value "".
   */
  lemma ResolveHit(routers: map<string, Router>, httpMethod: string, p: string, lookup: Lookup)
    requires Resolve(routers, httpMethod, p, lookup).Some?
    ensures var m := Resolve(routers, httpMethod, p, lookup).value;
      var hit := lookup(routers[ToUpper(httpMethod)], p);
      && m.httpMethod == ToUpper(httpMethod)
      && hit.found && m.path == hit.value.s
      && (forall k :: k in m.params <==> exists i :: 0 <= i < |hit.params| && hit.params[i].name == k)
      && (forall k :: k in m.params ==> m.params[k] == "")
  {
  }

  /** With routers built from the records, a match names a template that was added under that method. */
  lemma ResolveFindsAddedTemplate(records: map<string, seq<Record>>, httpMethod: string, p: string, lookup: Lookup)
    requires Honest(lookup)
    requires Resolve(BuiltRouters(records), httpMethod, p, lookup).Some?
    ensures var m := Resolve(BuiltRouters(records), httpMethod, p, lookup).value;
      m.httpMethod in records && exists i :: 0 <= i < |records[m.httpMethod]| && records[m.httpMethod][i].value == m.path
  {
    var mn := ToUpper(httpMethod);
    var hit := lookup(BuiltRouters(records)[mn], p);
    assert hit.found && hit.value.StrValue?;
  }

  // ---------------------------------------------------------------------------

  class PathMatcher {
    var records: map<string, seq<Record>>
    var routers: map<string, Router>

    /** Every method key has records; every router was built from a prefix of its method's records. */
    ghost predicate Valid()
      reads this
    {
      && (forall m :: m in records ==> records[m] != [])
      && (forall m :: m in routers ==> m in records && routers[m].records <= records[m])
    }

    /** NewPathMatcher: no records and (a nil map of) no routers. */
    constructor ()
      ensures Valid() && records == map[] && routers == map[]
    {
      records := map[];
      routers := map[];
    }

    /** Files the converted template, with the original as its value, under the upper-cased method. */
    method AddRoute(httpMethod: string, path: string)
      requires Valid()
      modifies this`records
      ensures Valid()
      ensures var mn := ToUpper(httpMethod);
        records == old(records)[mn := (if mn in old(records) then old(records)[mn] else []) + [Record(ConvertTemplate(path), path)]]
    {
      var mn := ToUpper(httpMethod);
      var conv := ConvertTemplate(path);
      var record := Record(conv, path);
      var previous := if mn in records then records[mn] else [];
      records := records[mn := previous + [record]];
    }

    /** Replaces the routers by one per method, built from all its records; build errors are ignored. */
    method Build()
      requires Valid()
      modifies this`routers
      ensures Valid()
      ensures routers == BuiltRouters(records)
    {
      var built: map<string, Router> := map[];
      var pending := records.Keys;
      while pending != {}
        invariant pending <= records.Keys
        invariant built.Keys == records.Keys - pending
        invariant forall m :: m in built ==> built[m] == Router(records[m])
      {
        var m :| m in pending;
        built := built[m := Router(records[m])];
        pending := pending - {m};
      }
      routers := built;
    }

    method LookupRoute(httpMethod: string, pathWithParams: string, lookup: Lookup) returns (r: Option<MatchedPath>)
      ensures r == Resolve(routers, httpMethod, pathWithParams, lookup)
    {
      var mn := ToUpper(httpMethod);
      if mn !in routers {
        return None;
      }
      var hit := lookup(routers[mn], pathWithParams);
      if !hit.found {
        return None;
      }
      if hit.value.NonString? {
        return None;
      }
      var mp: map<string, string> := map[];
      for i := 0 to |hit.params|
        invariant mp == AsWrittenParams(hit.params[..i])
      {
        AsWrittenParamsStep(hit.params, i);
        var p := hit.params[i];
        mp := mp[p.name := if p.value in mp then mp[p.value] else ""];
      }
      assert hit.params[..|hit.params|] == hit.params;
      return Some(MatchedPath(mn, hit.value.s, mp));
    }
  }
}
