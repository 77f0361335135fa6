/**
 * The example handler of lib/STSExampleHandler.js: it turns one `x-amples`
 * entry into a request, picks the client authorizations to send with it, and
 * checks the response. After a successful subset check the example can
 * install a new credential (`authProviderFor`) or rewrite a parameter's
 * `x-ample` default (`paramProviderFor`) from the response, so what later
 * examples send depends on the ones before them.
 */
module ExampleHandler {
  import opened Js
  import opened AuthHelper
  import opened Template
  import opened SchemaValidator
  import opened Subset

  /** An entry of `operation.parameters`: its name and its `x-ample` default. */
  datatype Parameter = Parameter(name: string, xAmple: Json)

  /**
   * A swagger-client operation. Its `parameters` array is shared by every
   * test of the operation, and `dispatchParams` rewrites it.
   */
  class Operation {
    const nickname: string
    const path: string
    const verb: string
    const responses: Json
    const successResponse: Json
    var parameters: Option<seq<Parameter>>

    constructor (nickname: string, path: string, verb: string, responses: Json, successResponse: Json,
                 parameters: Option<seq<Parameter>>)
      ensures this.nickname == nickname && this.path == path && this.verb == verb
      ensures this.responses == responses && this.successResponse == successResponse
      ensures this.parameters == parameters
    {
      this.nickname := nickname;
      this.path := path;
      this.verb := verb;
      this.responses := responses;
      this.successResponse := successResponse;
      this.parameters := parameters;
    }
  }

  // ---------------------------------------------------------------------------
  // Default request values (`buildDefaultRequest`)
  // ---------------------------------------------------------------------------

  /** What the global parameter `name` contributes: its `x-ample`, when it has a truthy one. */
  function GlobalDefault(globals: Json, name: string): Option<Json>
  {
    var parameter := Get(globals, name);
    if Truthy(parameter) && Truthy(Get(parameter, "x-ample")) then Some(Get(parameter, "x-ample")) else None
  }

  /** The last operation parameter called `name` with a truthy `x-ample`, which wins the loop. */
  function LastDefault(ps: seq<Parameter>, name: string): Option<Json>
  {
    if ps == [] then None
    else match LastDefault(ps[1..], name)
      case Some(v) => Some(v)
      case None => if ps[0].name == name && Truthy(ps[0].xAmple) then Some(ps[0].xAmple) else None
  }

  /** The first loop: every global parameter in key order. */
  function GlobalDefaults(acc: OMap<Json>, globals: Json, names: seq<string>): OMap<Json>
    decreases |names|
  {
    if names == [] then acc
    else
      var next := match GlobalDefault(globals, names[0])
        case Some(v) => Put(acc, names[0], v)
        case None => acc;
      GlobalDefaults(next, globals, names[1..])
  }

  /** The second loop: every operation parameter in order. */
  function OperationDefaults(acc: OMap<Json>, ps: seq<Parameter>): OMap<Json>
    decreases |ps|
  {
    if ps == [] then acc
    else
      var next := if Truthy(ps[0].xAmple) then Put(acc, ps[0].name, ps[0].xAmple) else acc;
      OperationDefaults(next, ps[1..])
  }

  /** The request `buildDefaultRequest` returns, for the global parameters and the operation's. */
  function DefaultRequest(globals: Json, params: Option<seq<Parameter>>): OMap<Json>
  {
    var fromGlobals := if Truthy(globals) then GlobalDefaults([], globals, ObjKeys(globals)) else [];
    if params.Some? then OperationDefaults(fromGlobals, params.value) else fromGlobals
  }

  lemma {:induction false} LookupGlobalDefaults(acc: OMap<Json>, globals: Json, names: seq<string>, k: string)
    ensures Lookup(GlobalDefaults(acc, globals, names), k) ==
      if k in names && GlobalDefault(globals, k).Some? then GlobalDefault(globals, k) else Lookup(acc, k)
    decreases |names|
  {
    if names != [] {
      var next := match GlobalDefault(globals, names[0])
        case Some(v) => Put(acc, names[0], v)
        case None => acc;
      LookupGlobalDefaults(next, globals, names[1..], k);
      if GlobalDefault(globals, names[0]).Some? {
        LookupPut(acc, names[0], GlobalDefault(globals, names[0]).value, k);
      }
    }
  }

  lemma {:induction false} LookupOperationDefaults(acc: OMap<Json>, ps: seq<Parameter>, k: string)
    ensures Lookup(OperationDefaults(acc, ps), k) ==
      if LastDefault(ps, k).Some? then LastDefault(ps, k) else Lookup(acc, k)
    decreases |ps|
  {
    if ps != [] {
      var next := if Truthy(ps[0].xAmple) then Put(acc, ps[0].name, ps[0].xAmple) else acc;
      LookupOperationDefaults(next, ps[1..], k);
      if Truthy(ps[0].xAmple) {
        LookupPut(acc, ps[0].name, ps[0].xAmple, k);
      }
    }
  }

  /**
   * A default request holds, under each name, the `x-ample` of the last
   * operation parameter of that name that has a truthy one, and otherwise
   * the global parameter's truthy `x-ample`; parameters without one add nothing.
   */
  lemma DefaultRequestLookup(globals: Json, params: Option<seq<Parameter>>, k: string)
    ensures Lookup(DefaultRequest(globals, params), k) ==
      if params.Some? && LastDefault(params.value, k).Some? then LastDefault(params.value, k)
      else GlobalDefault(globals, k)
  {
    var fromGlobals := if Truthy(globals) then GlobalDefaults([], globals, ObjKeys(globals)) else [];
    if Truthy(globals) {
      LookupGlobalDefaults([], globals, ObjKeys(globals), k);
      if GlobalDefault(globals, k).Some? {
        assert globals.JObj?;
        assert k in Keys(globals.fields);
      }
    } else {
      assert GlobalDefault(globals, k) == None;
    }
    assert Lookup(fromGlobals, k) == GlobalDefault(globals, k);
    if params.Some? {
      LookupOperationDefaults(fromGlobals, params.value, k);
    }
  }

  // ---------------------------------------------------------------------------
  // The request (`buildRequest`)
  // ---------------------------------------------------------------------------

  /** The own properties `Object.assign` copies from a source. */
  function Fields(v: Json): OMap<Json>
  {
    if v.JObj? then v.fields else []
  }

  /** Defaults, then the example's headers, then its parameters, then `body`. */
  function RequestFor(defaults: OMap<Json>, example: Json): OMap<Json>
  {
    var request := Get(example, "request");
    var withHeaders := Assign(defaults, Fields(Get(request, "headers")));
    var withParameters := Assign(withHeaders, Fields(Get(request, "parameters")));
    Put(withParameters, "body", Get(request, "body"))
  }

  /**
   * `body` is always the example's body; otherwise an example parameter
   * beats a header of the same name, and a header beats a default.
   */
  lemma RequestPrecedence(defaults: OMap<Json>, example: Json, k: string)
    ensures Lookup(RequestFor(defaults, example), "body") == Some(Get(Get(example, "request"), "body"))
    ensures k != "body" ==> (Lookup(RequestFor(defaults, example), k) ==
      var request := Get(example, "request");
      var parameters := Lookup(Fields(Get(request, "parameters")), k);
      var headers := Lookup(Fields(Get(request, "headers")), k);
      if parameters.Some? then parameters else if headers.Some? then headers else Lookup(defaults, k))
  {
    var request := Get(example, "request");
    var withHeaders := Assign(defaults, Fields(Get(request, "headers")));
    var withParameters := Assign(withHeaders, Fields(Get(request, "parameters")));
    LookupPut(withParameters, "body", Get(request, "body"), "body");
    LookupPut(withParameters, "body", Get(request, "body"), k);
    LookupAssign(withHeaders, Fields(Get(request, "parameters")), k);
    LookupAssign(defaults, Fields(Get(request, "headers")), k);
  }

  // ---------------------------------------------------------------------------
  // Normalised examples (`normalizeExample`)
  // ---------------------------------------------------------------------------

  /** A value `if (!x) x = {}` followed by property writes accepts: absent, or an object. */
  predicate Fillable(v: Json)
  {
    !Truthy(v) || v.JObj?
  }

  /** `after` is `before` with `key` set to `fallback` when it was falsy, and nothing else changed. */
  predicate FilledKey(before: Json, after: Json, key: string, fallback: Json)
  {
    Get(after, key) == (if Truthy(Get(before, key)) then Get(before, key) else fallback)
  }

  /** `if (!v) v = {}`: a falsy value becomes an empty object, which reads the same under every key. */
  function ObjectOrEmpty(v: Json): (r: Json)
    requires Fillable(v)
    ensures r.JObj? && forall k :: Get(r, k) == Get(v, k)
  {
    if Truthy(v) then v
    else JObj([])
  }

  /** `if (!v[key]) v[key] = fallback` on an object. */
  method FillKey(v: Json, key: string, fallback: Json) returns (r: Json)
    requires v.JObj?
    ensures r.JObj? && FilledKey(v, r, key, fallback)
    ensures forall k :: k != key ==> Get(r, k) == Get(v, k)
  {
    r := v;
    if !Truthy(Get(v, key)) {
      r := SetMember(v, key, fallback).value;
    }
  }

  ghost predicate SameOtherKeys(before: Json, after: Json, a: string, b: string, c: string)
  {
    forall k :: k != a && k != b && k != c ==> Get(after, k) == Get(before, k)
  }

  /** What `normalizeExample(code, example)` promises of its result `normal`. */
  ghost predicate Normalized(code: string, example: Json, normal: Json)
  {
    var request, request' := Get(example, "request"), Get(normal, "request");
    var response, response' := Get(example, "response"), Get(normal, "response");
    normal.JObj? && request'.JObj? && response'.JObj?
    && FilledKey(request, request', "parameters", JObj([]))
    && FilledKey(request, request', "headers", JObj([]))
    && FilledKey(request, request', "body", JObj([]))
    && SameOtherKeys(request, request', "parameters", "headers", "body")
    && FilledKey(response, response', "status", ParseInt(code))
    && SameOtherKeys(response, response', "status", "status", "status")
    && SameOtherKeys(example, normal, "request", "response", "response")
  }

  /** Writing the filled request and then the filled response back into the example normalises it. */
  lemma NormalizedParts(code: string, example: Json, request': Json, response': Json)
    requires example.JObj? && request'.JObj? && response'.JObj?
    requires FilledKey(Get(example, "request"), request', "parameters", JObj([]))
    requires FilledKey(Get(example, "request"), request', "headers", JObj([]))
    requires FilledKey(Get(example, "request"), request', "body", JObj([]))
    requires SameOtherKeys(Get(example, "request"), request', "parameters", "headers", "body")
    requires FilledKey(Get(example, "response"), response', "status", ParseInt(code))
    requires SameOtherKeys(Get(example, "response"), response', "status", "status", "status")
    ensures Normalized(code, example, SetMember(SetMember(example, "request", request').value, "response", response').value)
  {
    var copy := SetMember(example, "request", request').value;
    var normal := SetMember(copy, "response", response').value;
    assert Get(normal, "request") == request';
    assert Get(normal, "response") == response';
    forall k | k != "request" && k != "response" ensures Get(normal, k) == Get(example, k) {
      assert Get(normal, k) == Get(copy, k);
    }
  }

  // ---------------------------------------------------------------------------
  // Credentials from responses (`dispatchAuth`)
  // ---------------------------------------------------------------------------

  /**
   * One strategy of `authProviderFor`: when the client defines it and the
   * provider has a truthy `x-ample`, the template is evaluated against the
   * response and the result is added. Reading a property of an undefined
   * `securityDefinitions` or of a null provider entry throws.
   */
  function AuthStep(entries: OMap<Authorization>, securityDefinitions: Json, providers: Json, response: Json,
                    name: string): Result<OMap<Authorization>, Failure>
  {
    match Member(securityDefinitions, name)
    case Err(e) => Err(e)
    case Ok(definition) =>
      if !Truthy(definition) then Ok(entries)
      else
        match Member(Get(providers, name), "x-ample")
        case Err(e) => Err(e)
        case Ok(template) =>
          if !Truthy(template) then Ok(entries)
          else
            match Eval(response, ToJsString(template))
            case Err(e) => Err(e)
            case Ok(credential) => Ok(AddSpec(entries, securityDefinitions, name, JStr(credential)))
  }

  /** The loop of `dispatchAuth` over `names`; the first failure stops it, keeping what was written. */
  function DispatchAuthSpec(entries: OMap<Authorization>, securityDefinitions: Json, providers: Json, response: Json,
                            names: seq<string>): (OMap<Authorization>, Option<Failure>)
    decreases |names|
  {
    if names == [] then (entries, None)
    else
      match AuthStep(entries, securityDefinitions, providers, response, names[0])
      case Err(e) => (entries, Some(e))
      case Ok(next) => DispatchAuthSpec(next, securityDefinitions, providers, response, names[1..])
  }

  /**
   * An entry is rewritten only for a strategy that is listed, defined by the
   * client, and given a truthy `x-ample`; every other entry reads as before.
   */
  lemma {:induction false} DispatchAuthUntouched(entries: OMap<Authorization>, securityDefinitions: Json, providers: Json,
                                                 response: Json, names: seq<string>, k: string)
    requires !(k in names && Truthy(Get(securityDefinitions, k)) && Truthy(Get(Get(providers, k), "x-ample")))
    ensures Lookup(DispatchAuthSpec(entries, securityDefinitions, providers, response, names).0, k) == Lookup(entries, k)
    decreases |names|
  {
    if names != [] {
      match AuthStep(entries, securityDefinitions, providers, response, names[0]) {
        case Err(_) =>
        case Ok(next) =>
          if names[0] != k {
            var template := Get(Get(providers, names[0]), "x-ample");
            match Eval(response, ToJsString(template)) {
              case Err(_) =>
              case Ok(credential) => AddTouchesOneKey(entries, securityDefinitions, names[0], JStr(credential), k);
            }
          }
          assert Lookup(next, k) == Lookup(entries, k);
          DispatchAuthUntouched(next, securityDefinitions, providers, response, names[1..], k);
      }
    }
  }

  /**
   * When the loop completes, a listed strategy that the client defines and
   * that has a truthy `x-ample` holds what `add` makes of the evaluated
   * template (or its old entry, when `add` ignores the credential).
   */
  lemma {:induction false} DispatchAuthInstalls(entries: OMap<Authorization>, securityDefinitions: Json, providers: Json,
                                                response: Json, names: seq<string>, k: string)
    requires forall a, b :: 0 <= a < b < |names| ==> names[a] != names[b]
    requires k in names && Truthy(Get(securityDefinitions, k)) && Truthy(Get(Get(providers, k), "x-ample"))
    ensures var (after, failure) := DispatchAuthSpec(entries, securityDefinitions, providers, response, names);
      var credential := Eval(response, ToJsString(Get(Get(providers, k), "x-ample")));
      failure.None? ==> (credential.Ok? &&
        Lookup(after, k) == match Resolve(securityDefinitions, k, JStr(credential.value))
          case Some(a) => Some(a)
          case None => Lookup(entries, k))
    decreases |names|
  {
    match AuthStep(entries, securityDefinitions, providers, response, names[0]) {
      case Err(_) =>
      case Ok(next) =>
        if names[0] == k {
          assert k !in names[1..] by {
            forall i | 0 <= i < |names[1..]| ensures names[1..][i] != k {
              assert names[1..][i] == names[i + 1];
            }
          }
          var credential := Eval(response, ToJsString(Get(Get(providers, k), "x-ample")));
          DispatchAuthUntouched(next, securityDefinitions, providers, response, names[1..], k);
          AddWritesResolved(entries, securityDefinitions, k, JStr(credential.value));
        } else {
          var template := Get(Get(providers, names[0]), "x-ample");
          match Eval(response, ToJsString(template)) {
            case Err(_) =>
            case Ok(credential) => AddTouchesOneKey(entries, securityDefinitions, names[0], JStr(credential), k);
          }
          assert Lookup(next, k) == Lookup(entries, k);
          assert k in names[1..];
          DispatchAuthInstalls(next, securityDefinitions, providers, response, names[1..], k);
        }
    }
  }

  // ---------------------------------------------------------------------------
  // Parameter defaults from responses (`dispatchParams`)
  // ---------------------------------------------------------------------------

  /** The parameter defaults `buildDefaultRequest` reads: the operation's and the global ones. */
  datatype Defaults = Defaults(params: Option<seq<Parameter>>, globals: Json)

  function Names(ps: seq<Parameter>): (r: seq<string>)
    ensures |r| == |ps| && forall i :: 0 <= i < |ps| ==> r[i] == ps[i].name
  {
    if ps == [] then [] else [ps[0].name] + Names(ps[1..])
  }

  /** `k` names at most one entry. */
  predicate AtMostOnce(names: seq<string>, k: string)
  {
    forall i, j :: 0 <= i < |names| && 0 <= j < |names| && names[i] == k && names[j] == k ==> i == j
  }

  /** `find` the first parameter called `name` and set its `x-ample`. */
  function SetFirst(ps: seq<Parameter>, name: string, x: Json): (r: seq<Parameter>)
    ensures Names(r) == Names(ps)
  {
    if ps == [] then []
    else if ps[0].name == name then [Parameter(name, x)] + ps[1..]
    else [ps[0]] + SetFirst(ps[1..], name, x)
  }

  /**
   * One name of `paramProviderFor`: `find` on an undefined `operation.parameters`
   * throws; the template is evaluated; the first operation parameter of that
   * name gets the result; then, when the global parameter of that name is
   * truthy, it gets it too. Reading a property of an undefined global
   * parameter list, or writing one on a global parameter that is not an
   * object, throws after the operation parameter was written.
   */
  function ParamStep(d: Defaults, providers: Json, response: Json, name: string): (Defaults, Option<Failure>)
  {
    if d.params.None? then (d, Some(TypeError("operation.parameters is undefined")))
    else
      match Member(Get(providers, name), "x-ample")
      case Err(e) => (d, Some(e))
      case Ok(template) =>
        match Eval(response, ToJsString(template))
        case Err(e) => (d, Some(e))
        case Ok(value) =>
          var (globals', failure) := WriteGlobal(d.globals, name, value);
          (Defaults(Some(SetFirst(d.params.value, name, JStr(value))), globals'), failure)
  }

  /**
   * The second half of a step: a truthy global parameter `name` gets `value`
   * as its `x-ample`. Reading it from undefined global parameters, or writing
   * on it when it is not an object, throws and leaves the globals as they were.
   */
  function WriteGlobal(globals: Json, name: string, value: string): (r: (Json, Option<Failure>))
    ensures r.1.None? <==> Member(globals, name).Ok? && (Truthy(Get(globals, name)) ==> Get(globals, name).JObj?)
    ensures r.1.Some? || !Truthy(Get(globals, name)) ==> r.0 == globals
    ensures forall k :: k != name ==> Get(r.0, k) == Get(globals, k)
  {
    match Member(globals, name)
    case Err(e) => (globals, Some(e))
    case Ok(global) =>
      if !Truthy(global) then (globals, None)
      else
        match SetMember(global, "x-ample", JStr(value))
        case Err(e) => (globals, Some(e))
        case Ok(global') =>
          assert globals.JObj?;
          (SetMember(globals, name, global').value, None)
  }

  /** The loop of `dispatchParams` over `names`; the first failure stops it, keeping what was written. */
  function DispatchParamsSpec(d: Defaults, providers: Json, response: Json, names: seq<string>): (Defaults, Option<Failure>)
    decreases |names|
  {
    if names == [] then (d, None)
    else
      var (next, failure) := ParamStep(d, providers, response, names[0]);
      if failure.Some? then (next, failure)
      else DispatchParamsSpec(next, providers, response, names[1..])
  }

  /** What a default request holds under `k`. */
  function DefaultOf(d: Defaults, k: string): Option<Json>
  {
    Lookup(DefaultRequest(d.globals, d.params), k)
  }

  lemma {:induction false} SetFirstOther(ps: seq<Parameter>, n: string, x: Json, k: string)
    requires n != k
    ensures LastDefault(SetFirst(ps, n, x), k) == LastDefault(ps, k)
  {
    if ps != [] {
      var r := SetFirst(ps, n, x);
      if ps[0].name == n {
        assert r[0] == Parameter(n, x) && r[1..] == ps[1..];
      } else {
        assert r[0] == ps[0] && r[1..] == SetFirst(ps[1..], n, x);
        SetFirstOther(ps[1..], n, x, k);
      }
    }
  }

  lemma {:induction false} NoNameNoDefault(ps: seq<Parameter>, k: string)
    requires k !in Names(ps)
    ensures LastDefault(ps, k) == None
  {
    if ps != [] {
      assert Names(ps[1..]) == Names(ps)[1..];
      NoNameNoDefault(ps[1..], k);
    }
  }

  lemma {:induction false} SetFirstSelf(ps: seq<Parameter>, k: string, x: Json)
    requires AtMostOnce(Names(ps), k)
    ensures LastDefault(SetFirst(ps, k, x), k) == if k in Names(ps) && Truthy(x) then Some(x) else None
  {
    if ps == [] {
    } else {
      var r := SetFirst(ps, k, x);
      assert Names(ps[1..]) == Names(ps)[1..];
      if ps[0].name == k {
        assert r[0] == Parameter(k, x) && r[1..] == ps[1..];
        assert k !in Names(ps[1..]) by {
          forall i | 0 <= i < |ps[1..]| ensures Names(ps[1..])[i] != k {
            assert Names(ps)[i + 1] == Names(ps[1..])[i];
          }
        }
        NoNameNoDefault(ps[1..], k);
      } else {
        assert r[0] == ps[0] && r[1..] == SetFirst(ps[1..], k, x);
        assert AtMostOnce(Names(ps[1..]), k) by {
          forall i, j | 0 <= i < |ps[1..]| && 0 <= j < |ps[1..]| && Names(ps[1..])[i] == k && Names(ps[1..])[j] == k
            ensures i == j
          {
            assert Names(ps)[i + 1] == k && Names(ps)[j + 1] == k;
          }
        }
        assert k in Names(ps) <==> k in Names(ps[1..]);
        SetFirstSelf(ps[1..], k, x);
      }
    }
  }

  /** A step for another name leaves what the default request holds under `k` as it was. */
  lemma ParamStepOther(d: Defaults, providers: Json, response: Json, n: string, k: string)
    requires n != k
    ensures var next := ParamStep(d, providers, response, n).0;
      DefaultOf(next, k) == DefaultOf(d, k) && next.params.Some? == d.params.Some?
      && (d.params.Some? ==> Names(next.params.value) == Names(d.params.value))
      && Get(next.globals, k) == Get(d.globals, k)
  {
    var next := ParamStep(d, providers, response, n).0;
    if d.params.Some? {
      match Member(Get(providers, n), "x-ample") {
        case Err(_) =>
          assert next == d;
        case Ok(template) =>
          match Eval(response, ToJsString(template)) {
            case Err(_) =>
              assert next == d;
            case Ok(value) =>
              assert next.params == Some(SetFirst(d.params.value, n, JStr(value)));
              assert next.globals == WriteGlobal(d.globals, n, value).0;
              SetFirstOther(d.params.value, n, JStr(value), k);
          }
      }
    }
    assert Get(next.globals, k) == Get(d.globals, k);
    assert GlobalDefault(next.globals, k) == GlobalDefault(d.globals, k);
    DefaultRequestLookup(d.globals, d.params, k);
    DefaultRequestLookup(next.globals, next.params, k);
  }

  /**
   * A completed step for `k` leaves under `k` the evaluated template when it
   * is not empty, and nothing when it is, provided `k` names at most one
   * operation parameter and some parameter, operation or global, is called `k`.
   */
  lemma ParamStepSelf(d: Defaults, providers: Json, response: Json, k: string)
    requires d.params.Some? && AtMostOnce(Names(d.params.value), k)
    requires k in Names(d.params.value) || Truthy(Get(d.globals, k))
    ensures var (next, failure) := ParamStep(d, providers, response, k);
      var value := Eval(response, ToJsString(Get(Get(providers, k), "x-ample")));
      failure.None? ==> value.Ok? && DefaultOf(next, k) == if value.value != "" then Some(JStr(value.value)) else None
  {
    var (next, failure) := ParamStep(d, providers, response, k);
    match Member(Get(providers, k), "x-ample") {
      case Err(_) =>
      case Ok(template) =>
        match Eval(response, ToJsString(template)) {
          case Err(_) =>
          case Ok(value) =>
            var ps := d.params.value;
            assert next.params == Some(SetFirst(ps, k, JStr(value)));
            SetFirstSelf(ps, k, JStr(value));
            DefaultRequestLookup(next.globals, next.params, k);
            if failure.None? {
              WrittenGlobal(d.globals, k, value, next.globals);
            }
        }
    }
  }

  /** The global parameter `k` after a completed step that wrote `value`. */
  lemma WrittenGlobal(globals: Json, k: string, value: string, globals': Json)
    requires Member(globals, k).Ok?
    requires !Truthy(Get(globals, k)) ==> globals' == globals
    requires Truthy(Get(globals, k)) ==>
      var written := SetMember(Get(globals, k), "x-ample", JStr(value));
      written.Ok? && globals.JObj? && globals' == SetMember(globals, k, written.value).value
    ensures GlobalDefault(globals', k) ==
      if Truthy(Get(globals, k)) && value != "" then Some(JStr(value)) else None
  {
    if Truthy(Get(globals, k)) {
      var written := SetMember(Get(globals, k), "x-ample", JStr(value));
      assert Get(globals', k) == written.value;
      assert Get(written.value, "x-ample") == JStr(value);
    }
  }

  /** Steps for names other than `k` leave what the default request holds under `k` as it was. */
  lemma {:induction false} DispatchParamsOthers(d: Defaults, providers: Json, response: Json, names: seq<string>, k: string)
    requires k !in names
    ensures var next := DispatchParamsSpec(d, providers, response, names).0;
      DefaultOf(next, k) == DefaultOf(d, k) && next.params.Some? == d.params.Some?
      && (d.params.Some? ==> Names(next.params.value) == Names(d.params.value))
      && Get(next.globals, k) == Get(d.globals, k)
    decreases |names|
  {
    if names != [] {
      ParamStepOther(d, providers, response, names[0], k);
      var (next, failure) := ParamStep(d, providers, response, names[0]);
      if failure.None? {
        DispatchParamsOthers(next, providers, response, names[1..], k);
      }
    }
  }

  /**
   * Order-dependence: once `dispatchParams` has run to the end, the default
   * request of a later example holds, under each provided name, the value
   * the template gave for this response.
   */
  lemma {:induction false} DispatchParamsSeenLater(d: Defaults, providers: Json, response: Json, names: seq<string>,
                                                   k: string)
    requires forall a, b :: 0 <= a < b < |names| ==> names[a] != names[b]
    requires k in names
    requires d.params.Some? && AtMostOnce(Names(d.params.value), k)
    requires k in Names(d.params.value) || Truthy(Get(d.globals, k))
    ensures var (after, failure) := DispatchParamsSpec(d, providers, response, names);
      var value := Eval(response, ToJsString(Get(Get(providers, k), "x-ample")));
      failure.None? ==> value.Ok? && DefaultOf(after, k) == if value.value != "" then Some(JStr(value.value)) else None
    decreases |names|
  {
    var (next, failure) := ParamStep(d, providers, response, names[0]);
    if failure.None? {
      if names[0] == k {
        assert k !in names[1..] by {
          forall i | 0 <= i < |names[1..]| ensures names[1..][i] != k {
            assert names[1..][i] == names[i + 1];
          }
        }
        ParamStepSelf(d, providers, response, k);
        DispatchParamsOthers(next, providers, response, names[1..], k);
      } else {
        ParamStepOther(d, providers, response, names[0], k);
        assert k in names[1..];
        DispatchParamsSeenLater(next, providers, response, names[1..], k);
      }
    }
  }

  /** `dispatchAuth` as a whole: without `authProviderFor` nothing happens. */
  function AuthAfter(entries: OMap<Authorization>, securityDefinitions: Json, example: Json, response: Json)
    : (OMap<Authorization>, Option<Failure>)
  {
    var providers := Get(example, "authProviderFor");
    if !Truthy(providers) then (entries, None)
    else DispatchAuthSpec(entries, securityDefinitions, providers, response, ObjKeys(providers))
  }

  /** `dispatchParams` as a whole: without `paramProviderFor` nothing happens. */
  function ParamsAfter(d: Defaults, example: Json, response: Json): (Defaults, Option<Failure>)
  {
    var providers := Get(example, "paramProviderFor");
    if !Truthy(providers) then (d, None)
    else DispatchParamsSpec(d, providers, response, ObjKeys(providers))
  }

  /**
   * What `doValidate(operation, code, example, response)` does to the shared
   * authorizations `entries` and the parameter defaults `d`, giving `entries'`,
   * `d'` and `outcome`: a failed subset assertion changes nothing; otherwise
   * credentials are dispatched, then, unless that threw, parameter defaults,
   * then, unless that threw, the schema check decides.
   */
  predicate ValidationEffect(spec: Json, securityDefinitions: Json, validateModel: (Json, Json, Json) -> ValidatorReply,
                             path: string, verb: string, code: string, example: Json, response: Json,
                             entries: OMap<Authorization>, d: Defaults,
                             entries': OMap<Authorization>, d': Defaults, outcome: Result<Verdict, Failure>)
  {
    if !Compare(Get(example, "response"), response) then
      outcome == Err(SubsetMismatch) && entries' == entries && d' == d
    else
      var (afterAuth, authFailure) := AuthAfter(entries, securityDefinitions, example, response);
      entries' == afterAuth &&
      if authFailure.Some? then outcome == Err(authFailure.value) && d' == d
      else
        var (afterParams, paramFailure) := ParamsAfter(d, example, response);
        d' == afterParams
        && outcome == if paramFailure.Some? then Err(paramFailure.value)
                      else Validate(spec, path, verb, code, response, validateModel)
  }

  /**
   * The handler: the client authorizations every example shares, the client's
   * global parameters (`client.swaggerObject.parameters`), and what the
   * schema check needs. `validateModel` stands for the swagger-tools validator.
   */
  class Handler {
    const spec: Json
    const securityDefinitions: Json
    const validateModel: (Json, Json, Json) -> ValidatorReply
    const clientAuthorizations: AuthStore
    var globalParams: Json

    /** `new STSExampleHandler(spec, client)`: the shared authorizations come from `parse`. */
    constructor (spec: Json, securityDefinitions: Json, globalParams: Json,
                 validateModel: (Json, Json, Json) -> ValidatorReply)
      ensures this.spec == spec && this.securityDefinitions == securityDefinitions
      ensures this.globalParams == globalParams && this.validateModel == validateModel
      ensures fresh(clientAuthorizations) && clientAuthorizations.entries == ParseSpec(securityDefinitions)
    {
      var store := AuthHelper.Parse(securityDefinitions);
      this.spec := spec;
      this.securityDefinitions := securityDefinitions;
      this.validateModel := validateModel;
      this.clientAuthorizations := store;
      this.globalParams := globalParams;
    }

    /**
     * `normalizeExample(code, example)`. The JSON round trip copies a value,
     * which the caller's example already is. Setting a property on a copy
     * that is not an object, or on a `request` or `response` that is truthy
     * but not an object, throws.
     */
    method NormalizeExample(code: string, example: Json) returns (r: Result<Json, Failure>)
      ensures r.Ok? <==> example.JObj? && Fillable(Get(example, "request")) && Fillable(Get(example, "response"))
      ensures r.Ok? ==> Normalized(code, example, r.value)
    {
      if !example.JObj? {
        return Err(TypeError("cannot set properties of a non-object example"));
      }
      if !Fillable(Get(example, "request")) {
        return Err(TypeError("cannot set properties of a non-object request"));
      }
      var request := FillRequest(Get(example, "request"));
      var copy := SetMember(example, "request", request).value;
      assert Get(copy, "response") == Get(example, "response");
      if !Fillable(Get(copy, "response")) {
        return Err(TypeError("cannot set properties of a non-object response"));
      }
      var response := FillResponse(code, Get(copy, "response"));
      copy := SetMember(copy, "response", response).value;
      NormalizedParts(code, example, request, response);
      return Ok(copy);
    }

    /** The request half of `normalizeExample`: `{}` for a falsy request, then empty `parameters`, `headers` and `body` where falsy. */
    method FillRequest(request: Json) returns (r: Json)
      requires Fillable(request)
      ensures r.JObj?
      ensures FilledKey(request, r, "parameters", JObj([]))
      ensures FilledKey(request, r, "headers", JObj([]))
      ensures FilledKey(request, r, "body", JObj([]))
      ensures SameOtherKeys(request, r, "parameters", "headers", "body")
    {
      var base := ObjectOrEmpty(request);
      var withParameters := FillKey(base, "parameters", JObj([]));
      var withHeaders := FillKey(withParameters, "headers", JObj([]));
      r := FillKey(withHeaders, "body", JObj([]));
    }

    /** The response half of `normalizeExample`: `{}` for a falsy response, then `status` becomes `parseInt(code)` where falsy. */
    method FillResponse(code: string, response: Json) returns (r: Json)
      requires Fillable(response)
      ensures r.JObj?
      ensures FilledKey(response, r, "status", ParseInt(code))
      ensures SameOtherKeys(response, r, "status", "status", "status")
    {
      r := FillKey(ObjectOrEmpty(response), "status", ParseInt(code));
    }

    /** `buildDefaultRequest(operation)`: the global defaults, then the operation's. */
    method BuildDefaultRequest(op: Operation) returns (request: OMap<Json>)
      ensures request == DefaultRequest(globalParams, op.parameters)
    {
      request := [];
      if Truthy(globalParams) {
        var names := ObjKeys(globalParams);
        var i := 0;
        while i < |names|
          invariant 0 <= i <= |names|
          invariant GlobalDefaults(request, globalParams, names[i..]) == GlobalDefaults([], globalParams, names)
        {
          assert names[i..][1..] == names[i + 1..];
          var parameter := Get(globalParams, names[i]);
          if Truthy(parameter) && Truthy(Get(parameter, "x-ample")) {
            request := Put(request, names[i], Get(parameter, "x-ample"));
          }
          i := i + 1;
        }
      }
      if op.parameters.Some? {
        var ps := op.parameters.value;
        ghost var fromGlobals := request;
        var i := 0;
        while i < |ps|
          invariant 0 <= i <= |ps|
          invariant OperationDefaults(request, ps[i..]) == OperationDefaults(fromGlobals, ps)
        {
          assert ps[i..][1..] == ps[i + 1..];
          if Truthy(ps[i].xAmple) {
            request := Put(request, ps[i].name, ps[i].xAmple);
          }
          i := i + 1;
        }
      }
    }

    /** `buildRequest(operation, example)`: defaults, headers, parameters, then `body`. */
    method BuildRequest(op: Operation, example: Json) returns (request: OMap<Json>)
      ensures request == RequestFor(DefaultRequest(globalParams, op.parameters), example)
    {
      request := BuildDefaultRequest(op);
      var exampleRequest := Get(example, "request");
      request := Assign(request, Fields(Get(exampleRequest, "headers")));
      request := Assign(request, Fields(Get(exampleRequest, "parameters")));
      request := Put(request, "body", Get(exampleRequest, "body"));
    }

    /**
     * `getAuthorizations(example)`: none for a falsy `auth`, the shared store
     * itself for any other value that is not an object, and otherwise a fresh
     * copy extended by `add` for each key of `auth`. The shared store is
     * never changed.
     */
    method GetAuthorizations(example: Json) returns (auths: Option<AuthStore>)
      ensures auths.None? <==> !Truthy(Get(example, "auth"))
      ensures Truthy(Get(example, "auth")) && !IsObject(Get(example, "auth")) ==> auths == Some(clientAuthorizations)
      ensures IsObject(Get(example, "auth")) ==>
        var auth := Get(example, "auth");
        auths.Some? && fresh(auths.value)
        && auths.value.entries == AddAll(clientAuthorizations.entries, securityDefinitions, ObjKeys(auth), name => Get(auth, name))
    {
      var auth := Get(example, "auth");
      if !Truthy(auth) {
        return None;
      }
      if !IsObject(auth) {
        return Some(clientAuthorizations);
      }
      var copy := clientAuthorizations.Clone();
      var names := ObjKeys(auth);
      var credential := name => Get(auth, name);
      var i := 0;
      while i < |names|
        invariant 0 <= i <= |names|
        invariant AddAll(copy.entries, securityDefinitions, names[i..], credential)
          == AddAll(clientAuthorizations.entries, securityDefinitions, names, credential)
      {
        assert names[i..][1..] == names[i + 1..];
        copy.Add(securityDefinitions, names[i], Get(auth, names[i]));
        i := i + 1;
      }
      return Some(copy);
    }

    /** `dispatchAuth(example, response)`, which writes the shared store in place. */
    method DispatchAuth(example: Json, response: Json) returns (failure: Option<Failure>)
      modifies clientAuthorizations
      ensures (clientAuthorizations.entries, failure)
        == AuthAfter(old(clientAuthorizations.entries), securityDefinitions, example, response)
    {
      var providers := Get(example, "authProviderFor");
      if !Truthy(providers) {
        return None;
      }
      var names := ObjKeys(providers);
      ghost var start := clientAuthorizations.entries;
      var i := 0;
      while i < |names|
        invariant 0 <= i <= |names|
        invariant DispatchAuthSpec(clientAuthorizations.entries, securityDefinitions, providers, response, names[i..])
          == DispatchAuthSpec(start, securityDefinitions, providers, response, names)
      {
        assert names[i..][1..] == names[i + 1..];
        var name := names[i];
        var definition := Member(securityDefinitions, name);
        if definition.Err? {
          return Some(definition.error);
        }
        if Truthy(definition.value) {
          var template := Member(Get(providers, name), "x-ample");
          if template.Err? {
            return Some(template.error);
          }
          if Truthy(template.value) {
            var credential := Eval(response, ToJsString(template.value));
            if credential.Err? {
              return Some(credential.error);
            }
            clientAuthorizations.Add(securityDefinitions, name, JStr(credential.value));
          }
        }
        i := i + 1;
      }
      return None;
    }

    /** `dispatchParams(operation, example, response)`, which writes parameter defaults in place. */
    method DispatchParams(op: Operation, example: Json, response: Json) returns (failure: Option<Failure>)
      modifies this, op
      ensures (Defaults(op.parameters, globalParams), failure)
        == ParamsAfter(Defaults(old(op.parameters), old(globalParams)), example, response)
    {
      var providers := Get(example, "paramProviderFor");
      if !Truthy(providers) {
        return None;
      }
      var names := ObjKeys(providers);
      ghost var start := Defaults(op.parameters, globalParams);
      var i := 0;
      while i < |names|
        invariant 0 <= i <= |names|
        invariant DispatchParamsSpec(Defaults(op.parameters, globalParams), providers, response, names[i..])
          == DispatchParamsSpec(start, providers, response, names)
      {
        assert names[i..][1..] == names[i + 1..];
        var name := names[i];
        if op.parameters.None? {
          return Some(TypeError("operation.parameters is undefined"));
        }
        var template := Member(Get(providers, name), "x-ample");
        if template.Err? {
          return Some(template.error);
        }
        var value := Eval(response, ToJsString(template.value));
        if value.Err? {
          return Some(value.error);
        }
        op.parameters := Some(SetFirst(op.parameters.value, name, JStr(value.value)));
        var global := Member(globalParams, name);
        if global.Err? {
          return Some(global.error);
        }
        if Truthy(global.value) {
          var written := SetMember(global.value, "x-ample", JStr(value.value));
          if written.Err? {
            return Some(written.error);
          }
          globalParams := SetMember(globalParams, name, written.value).value;
        }
        i := i + 1;
      }
      return None;
    }
  
    /**
     * `doValidate(operation, responseCode, example, response)`: the subset
     * assertion first (nothing is dispatched when it fails), then credentials,
     * then parameter defaults, then the schema check. A throw at any step ends
     * the validation with what the earlier steps already wrote.
     */
    method DoValidate(op: Operation, code: string, example: Json, response: Json)
      returns (outcome: Result<Verdict, Failure>)
      modifies this, clientAuthorizations, op
      ensures ValidationEffect(spec, securityDefinitions, validateModel, op.path, op.verb, code, example, response,
        old(clientAuthorizations.entries), Defaults(old(op.parameters), old(globalParams)),
        clientAuthorizations.entries, Defaults(op.parameters, globalParams), outcome)
    {
      if !Compare(Get(example, "response"), response) {
        return Err(SubsetMismatch);
      }
      var authFailure := DispatchAuth(example, response);
      if authFailure.Some? {
        return Err(authFailure.value);
      }
      var paramFailure := DispatchParams(op, example, response);
      if paramFailure.Some? {
        return Err(paramFailure.value);
      }
      return Validate(spec, op.path, op.verb, code, response, validateModel);
    }

    /**
     * `handle(operation, responseCode, example)`. `server(nickname, request,
     * authorizations)` is the value the client's promise settles with, either
     * way: fulfilment and rejection go to the same validator. Returns the
     * normalised example, the request sent, the authorizations sent with it
     * and the outcome of the test.
     */
    method Handle(op: Operation, code: string, example: Json,
                  server: (string, OMap<Json>, Option<OMap<Authorization>>) -> Json)
      returns (normal: Result<Json, Failure>, request: OMap<Json>, sent: Option<OMap<Authorization>>,
               outcome: Result<Verdict, Failure>)
      modifies this, clientAuthorizations, op
      ensures normal.Ok? <==> example.JObj? && Fillable(Get(example, "request")) && Fillable(Get(example, "response"))
      ensures normal.Ok? ==> Normalized(code, example, normal.value)
      ensures normal.Err? ==>
        outcome == Err(normal.error) && globalParams == old(globalParams)
        && op.parameters == old(op.parameters) && clientAuthorizations.entries == old(clientAuthorizations.entries)
      ensures normal.Ok? ==>
        var auth := Get(normal.value, "auth");
        request == RequestFor(DefaultRequest(old(globalParams), old(op.parameters)), normal.value)
        && sent == (if !Truthy(auth) then None
                    else if !IsObject(auth) then Some(old(clientAuthorizations.entries))
                    else Some(AddAll(old(clientAuthorizations.entries), securityDefinitions, ObjKeys(auth), name => Get(auth, name))))
      ensures normal.Ok? ==>
        ValidationEffect(spec, securityDefinitions, validateModel, op.path, op.verb, code,
          normal.value, server(op.nickname, request, sent),
          old(clientAuthorizations.entries), Defaults(old(op.parameters), old(globalParams)),
          clientAuthorizations.entries, Defaults(op.parameters, globalParams), outcome)
    {
      normal := NormalizeExample(code, example);
      if normal.Err? {
        return normal, [], None, Err(normal.error);
      }
      request := BuildRequest(op, normal.value);
      var auths := GetAuthorizations(normal.value);
      sent := if auths.Some? then Some(auths.value.entries) else None;
      var response := server(op.nickname, request, sent);
      outcome := DoValidate(op, code, normal.value, response);
    }
}
}
