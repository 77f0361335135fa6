/**
 * The suite builder of lib/swagger-t-str.js. For every path of the client's
 * specification that starts with `/`, and every key of that path that is an
 * HTTP method, one suite titled `METHOD path` is built. For every response
 * code of the operation serving that route, one test is added per `x-amples`
 * entry of the raw specification, with a default example when there are none.
 * Mocha's suites are values here. The test bodies, which are
 * `STSExampleHandler.handle` calls, are recorded as the operation, code and
 * example they would handle.
 */
module SuiteBuilder {
  import opened Js
  import opened SchemaValidator
  import opened ExampleHandler

  /** The keys of a path item that are treated as operations. */
  const KnownHttpMethods: seq<string> := ["get", "head", "post", "put", "delete", "connect", "options", "trace", "patch"]

  const DefaultDescription: string := "should return expected HTTP status code"

  /** A Mocha test: its title, and the `handle(operation, responseCode, example)` it runs. */
  datatype TestCase = TestCase(title: string, op: Operation, code: string, example: Json)

  /** A Mocha suite holding tests. */
  datatype Suite = Suite(title: string, tests: seq<TestCase>)

  /** `Object.keys(v)`, which throws on undefined and null. */
  function KeysOf(v: Json): (r: Result<seq<string>, Failure>)
    ensures r.Err? <==> Absent(v)
    ensures r.Ok? ==> r.value == ObjKeys(v)
  {
    if Absent(v) then Err(TypeError("Cannot convert undefined or null to object")) else Ok(ObjKeys(v))
  }

  // ---------------------------------------------------------------------------
  // Finding the operation of a route (`findOperation`)
  // ---------------------------------------------------------------------------

  predicate Serves(op: Operation, path: string, verb: string)
  {
    op.path == path && op.verb == verb
  }

  /** The position of the first operation serving `path` and `verb`. */
  function FindIndex(ops: OMap<Operation>, path: string, verb: string): (r: Option<nat>)
    ensures r.Some? ==> r.value < |ops| && Serves(ops[r.value].1, path, verb)
    ensures r.Some? ==> forall j :: 0 <= j < r.value ==> !Serves(ops[j].1, path, verb)
    ensures r.None? ==> forall j :: 0 <= j < |ops| ==> !Serves(ops[j].1, path, verb)
  {
    if ops == [] then None
    else if Serves(ops[0].1, path, verb) then Some(0)
    else
      var tail: OMap<Operation> := ops[1..];
      match FindIndex(tail, path, verb)
      case None => None
      case Some(i) => Some(i + 1)
  }

  /**
   * `findOperation(path, method)`: the first operation serving the route, in
   * the order of `client.default.operations`. When none serves it, the name
   * found is undefined and the lookup reads the operation named "undefined".
   */
  function FindOperation(ops: OMap<Operation>, path: string, verb: string): (r: Option<Operation>)
    ensures (exists j :: 0 <= j < |ops| && Serves(ops[j].1, path, verb)) ==>
      exists i :: 0 <= i < |ops| && r == Some(ops[i].1) && Serves(ops[i].1, path, verb)
        && forall j :: 0 <= j < i ==> !Serves(ops[j].1, path, verb)
    ensures (forall j :: 0 <= j < |ops| ==> !Serves(ops[j].1, path, verb)) ==> r == Lookup(ops, "undefined")
  {
    match FindIndex(ops, path, verb)
    case Some(i) => Some(ops[i].1)
    case None => Lookup(ops, "undefined")
  }

  // ---------------------------------------------------------------------------
  // The response codes of an operation (`hackSuccessResponse`)
  // ---------------------------------------------------------------------------

  /** `spec.paths[path][method].responses[code]['x-amples']` of the raw specification. */
  function ExamplesOf(spec: Json, path: string, verb: string, code: string): (r: Result<Json, Failure>)
    ensures r.Ok? ==> r.value == Get(Get(Get(Get(Get(Get(spec, "paths"), path), verb), "responses"), code), "x-amples")
    ensures r.Err? <==> ResponseOf(spec, path, verb, code).Err? || Absent(ResponseOf(spec, path, verb, code).value)
  {
    match ResponseOf(spec, path, verb, code)
    case Err(e) => Err(e)
    case Ok(response) => Member(response, "x-amples")
  }

  /** `Object.keys(v)[0]`, which is undefined, and so the key "undefined", when there are no keys. */
  function FirstKey(v: Json): string
  {
    var ks := ObjKeys(v);
    if ks == [] then "undefined" else ks[0]
  }

  /**
   * `hackSuccessResponse(operation)`: a copy of `operation.responses`; with a
   * `successResponse`, its first code is put first, its entry carrying the
   * raw specification's `x-amples` unless it has its own, and
   * `operation.responses` then overrides the values it shares.
   */
  function HackSuccessResponse(spec: Json, op: Operation): Result<OMap<Json>, Failure>
  {
    var responses := Assign([], Fields(op.responses));
    if !Truthy(op.successResponse) then Ok(responses)
    else
      var code := FirstKey(op.successResponse);
      match ExamplesOf(spec, op.path, op.verb, code)
      case Err(e) => Err(e)
      case Ok(examples) =>
        var response := Assign(Put([], "x-amples", examples), Fields(Get(op.successResponse, code)));
        Ok(Assign(Put([], code, JObj(response)), responses))
  }

  /** `Object.assign({}, m)` copies `m`. */
  lemma AssignCopy<V>(m: OMap<V>)
    ensures Assign([], m) == m
  {
    AssignDisjoint([], m);
  }

  /** Without a success response the codes are those of `operation.responses`, unchanged. */
  lemma HackWithoutSuccess(spec: Json, op: Operation)
    requires !Truthy(op.successResponse)
    ensures HackSuccessResponse(spec, op) == Ok(Fields(op.responses))
  {
    AssignCopy(Fields(op.responses));
  }

  /**
   * With a success response the success code comes first, followed by the
   * other codes of `operation.responses` in their order. Every other code reads
   * as in `operation.responses`. The success code reads the same when
   * `operation.responses` has it, and otherwise reads the success entry
   * extended with the raw specification's examples.
   */
  lemma HackSuccessFirst(spec: Json, op: Operation)
    requires Truthy(op.successResponse)
    requires HackSuccessResponse(spec, op).Ok?
    ensures var code, responses := FirstKey(op.successResponse), Fields(op.responses);
      var r := HackSuccessResponse(spec, op).value;
      Keys(r) == [code] + Without(Keys(responses), [code])
      && (forall k :: k != code ==> Lookup(r, k) == Lookup(responses, k))
      && (Lookup(responses, code).Some? ==> Lookup(r, code) == Lookup(responses, code))
      && (Lookup(responses, code).None? ==>
            var own := Fields(Get(op.successResponse, code));
            var examples := ExamplesOf(spec, op.path, op.verb, code).value;
            Lookup(r, code).Some? && Lookup(r, code).value.JObj?
            && Keys(Lookup(r, code).value.fields) == ["x-amples"] + Without(Keys(own), ["x-amples"])
            && Lookup(Lookup(r, code).value.fields, "x-amples")
               == (if Lookup(own, "x-amples").Some? then Lookup(own, "x-amples") else Some(examples)))
  {
    var code, responses := FirstKey(op.successResponse), Fields(op.responses);
    AssignCopy(responses);
    var examples := ExamplesOf(spec, op.path, op.verb, code).value;
    var own := Fields(Get(op.successResponse, code));
    var entry := Assign(Put([], "x-amples", examples), own);
    var head := Put([], code, JObj(entry));
    var r := Assign(head, responses);
    assert r == HackSuccessResponse(spec, op).value;
    KeysAssign(head, responses);
    assert Keys(head) == [code];
    forall k ensures Lookup(r, k) == if Lookup(responses, k).Some? then Lookup(responses, k) else Lookup(head, k) {
      LookupAssign(head, responses, k);
    }
    forall k | k != code ensures Lookup(r, k) == Lookup(responses, k) {
      LookupPut([], code, JObj(entry), k);
    }
    LookupPut([], code, JObj(entry), code);
    if Lookup(responses, code).None? {
      KeysAssign(Put([], "x-amples", examples), own);
      LookupAssign(Put([], "x-amples", examples), own, "x-amples");
      LookupPut([], "x-amples", examples, "x-amples");
      assert Keys(Put([], "x-amples", examples)) == ["x-amples"];
    }
  }

  // ---------------------------------------------------------------------------
  // The examples of a response code (`handleResponse`, `handleExample`)
  // ---------------------------------------------------------------------------

  /** `{description: 'should return expected HTTP status code'}`. */
  function DefaultExample(): Json
  {
    Object([("description", JStr(DefaultDescription))])
  }

  /**
   * `examples.length <= 0`. Arrays and strings compare their length; an
   * object compares its `length` property after numeric conversion; other
   * values have no length, which compares false.
   */
  predicate LengthAtMostZero(v: Json)
  {
    match v
    case JArr(items) => |items| == 0
    case JStr(s) => |s| == 0
    case JObj(_) =>
      (match Get(v, "length")
       case JNum(n) => n <= 0
       case JNull => true
       case JBool(b) => !b
       case _ => false)
    case _ => false
  }

  /**
   * The examples iterated for one response code: the default one for a falsy
   * or empty `x-amples`, the elements of an array, the characters of a string.
   * `for ... of` throws on any other value.
   */
  function ExamplesFor(examples: Json): (r: Result<seq<Json>, Failure>)
    ensures !Truthy(examples) || LengthAtMostZero(examples) ==> r == Ok([DefaultExample()])
    ensures examples.JArr? && |examples.items| > 0 ==> r == Ok(examples.items)
    ensures examples.JStr? && |examples.s| > 0 ==>
      r.Ok? && |r.value| == |examples.s| && forall i :: 0 <= i < |examples.s| ==> r.value[i] == JStr([examples.s[i]])
    ensures r.Err? <==> Truthy(examples) && !LengthAtMostZero(examples) && !examples.JArr? && !examples.JStr?
  {
    if !Truthy(examples) || LengthAtMostZero(examples) then Ok([DefaultExample()])
    else match examples
      case JArr(items) => Ok(items)
      case JStr(s) => Ok(Characters(s))
      case _ => Err(TypeError("examples is not iterable"))
  }

  /** A string iterates as its one-character strings. */
  function Characters(s: string): (r: seq<Json>)
    ensures |r| == |s| && forall i :: 0 <= i < |s| ==> r[i] == JStr([s[i]])
  {
    if s == [] then [] else [JStr([s[0]])] + Characters(s[1..])
  }

  /** The test `handleExample(suite, operation, responseCode, example)` adds. */
  function TestFor(op: Operation, code: string, example: Json): TestCase
  {
    TestCase(code + ": " + ToJsString(Get(example, "description")), op, code, example)
  }

  /**
   * The tests for `examples`, in order, up to the first undefined or null one,
   * whose `description` throws.
   */
  function ExampleTests(op: Operation, code: string, examples: seq<Json>): (r: (seq<TestCase>, Option<Failure>))
    ensures |r.0| <= |examples|
    ensures forall j :: 0 <= j < |r.0| ==> !Absent(examples[j]) && r.0[j] == TestFor(op, code, examples[j])
    ensures r.1.None? ==> |r.0| == |examples|
    ensures r.1.Some? ==> |r.0| < |examples| && Absent(examples[|r.0|])
  {
    if examples == [] then ([], None)
    else match Member(examples[0], "description")
      case Err(e) => ([], Some(e))
      case Ok(_) =>
        var (rest, f) := ExampleTests(op, code, examples[1..]);
        ([TestFor(op, code, examples[0])] + rest, f)
  }

  /** `handleResponse(suite, operation, responseCode)`. */
  function ResponseTests(spec: Json, op: Operation, code: string): (r: (seq<TestCase>, Option<Failure>))
    ensures forall j :: 0 <= j < |r.0| ==> r.0[j].op == op && r.0[j].code == code
  {
    match ExamplesOf(spec, op.path, op.verb, code)
    case Err(e) => ([], Some(e))
    case Ok(x) =>
      match ExamplesFor(x)
      case Err(e) => ([], Some(e))
      case Ok(list) => ExampleTests(op, code, list)
  }

  /** A response code without examples gets one test, titled after the default description. */
  lemma DefaultExampleTest(spec: Json, op: Operation, code: string)
    requires ExamplesOf(spec, op.path, op.verb, code).Ok?
    requires !Truthy(ExamplesOf(spec, op.path, op.verb, code).value)
    ensures ResponseTests(spec, op, code) ==
      ([TestCase(code + ": " + DefaultDescription, op, code, DefaultExample())], None)
  {
    var x := DefaultExample();
    GetObject1("description", JStr(DefaultDescription), "description");
    assert Get(x, "description") == JStr(DefaultDescription);
    assert ExamplesFor(ExamplesOf(spec, op.path, op.verb, code).value) == Ok([x]);
    assert [x][1..] == [];
    assert ExampleTests(op, code, [x]) == ([TestFor(op, code, x)] + [], None);
    assert TestFor(op, code, x).title == code + ": " + DefaultDescription;
    assert ResponseTests(spec, op, code) == ExampleTests(op, code, [x]);
    assert [TestFor(op, code, x)] + [] == [TestFor(op, code, x)];
  }

  /** The tests for `codes`, in order, up to the first throw. */
  function CodesTests(spec: Json, op: Operation, codes: seq<string>): (r: (seq<TestCase>, Option<Failure>))
    ensures forall j :: 0 <= j < |r.0| ==> r.0[j].op == op && r.0[j].code in codes
  {
    if codes == [] then ([], None)
    else
      assert codes == [codes[0]] + codes[1..];
      var (tests, f) := ResponseTests(spec, op, codes[0]);
      if f.Some? then (tests, f)
      else
        var (more, g) := CodesTests(spec, op, codes[1..]);
        (tests + more, g)
  }

  // ---------------------------------------------------------------------------
  // Suites (`handleMethod`, `handlePath`, `buildRootSuite`)
  // ---------------------------------------------------------------------------

  /** `toUpperCase` on the ASCII letters an HTTP method is spelled with. */
  function Upper(s: string): (r: string)
    ensures |r| == |s|
    ensures forall i :: 0 <= i < |s| ==> r[i] == if 'a' <= s[i] <= 'z' then (s[i] as int - 32) as char else s[i]
  {
    if s == [] then []
    else [if 'a' <= s[0] <= 'z' then (s[0] as int - 32) as char else s[0]] + Upper(s[1..])
  }

  function SuiteName(verb: string, path: string): string
  {
    Upper(verb) + " " + path
  }

  /**
   * `handleMethod(path, method)`: the suite is added before the operation is
   * looked up, so a throw leaves it in place with the tests added so far.
   */
  function MethodSuite(spec: Json, ops: OMap<Operation>, path: string, verb: string): (Suite, Option<Failure>)
  {
    var title := SuiteName(verb, path);
    match FindOperation(ops, path, verb)
    case None => (Suite(title, []), Some(TypeError("Cannot read properties of undefined (reading 'responses')")))
    case Some(op) =>
      match HackSuccessResponse(spec, op)
      case Err(e) => (Suite(title, []), Some(e))
      case Ok(responses) =>
        var (tests, f) := CodesTests(spec, op, Keys(responses));
        (Suite(title, tests), f)
  }

  /** The suites for the keys `verbs` of one path item that are HTTP methods, up to the first throw. */
  function VerbSuites(spec: Json, ops: OMap<Operation>, path: string, verbs: seq<string>): (seq<Suite>, Option<Failure>)
  {
    if verbs == [] then ([], None)
    else if verbs[0] !in KnownHttpMethods then VerbSuites(spec, ops, path, verbs[1..])
    else
      var (suite, f) := MethodSuite(spec, ops, path, verbs[0]);
      if f.Some? then ([suite], f)
      else
        var (more, g) := VerbSuites(spec, ops, path, verbs[1..]);
        ([suite] + more, g)
  }

  /** `handlePath(path)`: `Object.keys` of the path item, which throws when it is undefined or null. */
  function PathSuites(spec: Json, paths: Json, ops: OMap<Operation>, path: string): (seq<Suite>, Option<Failure>)
  {
    match KeysOf(Get(paths, path))
    case Err(e) => ([], Some(e))
    case Ok(verbs) => VerbSuites(spec, ops, path, verbs)
  }

  predicate IsRoutePath(p: string)
  {
    |p| > 0 && p[0] == '/'
  }

  /** The suites for the keys `ps` of `paths` that start with `/`, up to the first throw. */
  function PathsSuites(spec: Json, paths: Json, ops: OMap<Operation>, ps: seq<string>): (seq<Suite>, Option<Failure>)
  {
    if ps == [] then ([], None)
    else if !IsRoutePath(ps[0]) then PathsSuites(spec, paths, ops, ps[1..])
    else
      var (suites, f) := PathSuites(spec, paths, ops, ps[0]);
      if f.Some? then (suites, f)
      else
        var (more, g) := PathsSuites(spec, paths, ops, ps[1..]);
        (suites + more, g)
  }

  /** The suites of the server suite, from `Object.keys(client.swaggerObject.paths)`. */
  function RootSuites(spec: Json, paths: Json, ops: OMap<Operation>): (seq<Suite>, Option<Failure>)
  {
    match KeysOf(paths)
    case Err(e) => ([], Some(e))
    case Ok(ps) => PathsSuites(spec, paths, ops, ps)
  }

  // ---------------------------------------------------------------------------
  // Routes: which (path, method) pairs get a suite
  // ---------------------------------------------------------------------------

  function VerbRoutes(path: string, verbs: seq<string>): seq<(string, string)>
  {
    if verbs == [] then []
    else if verbs[0] in KnownHttpMethods then [(path, verbs[0])] + VerbRoutes(path, verbs[1..])
    else VerbRoutes(path, verbs[1..])
  }

  /** The routes of `paths`, in key order: path keys starting with `/`, then their HTTP method keys. */
  function Routes(paths: Json, ps: seq<string>): seq<(string, string)>
  {
    if ps == [] then []
    else if IsRoutePath(ps[0]) then VerbRoutes(ps[0], ObjKeys(Get(paths, ps[0]))) + Routes(paths, ps[1..])
    else Routes(paths, ps[1..])
  }

  lemma {:induction false} VerbRoutesMembership(path: string, verbs: seq<string>, p: string, v: string)
    ensures (p, v) in VerbRoutes(path, verbs) <==> p == path && v in verbs && v in KnownHttpMethods
  {
    if verbs != [] {
      VerbRoutesMembership(path, verbs[1..], p, v);
      assert verbs == [verbs[0]] + verbs[1..];
    }
  }

  /** A route is a path key starting with `/` paired with a key of its item that is an HTTP method. */
  lemma {:induction false} RoutesMembership(paths: Json, ps: seq<string>, p: string, v: string)
    ensures (p, v) in Routes(paths, ps) <==>
      p in ps && IsRoutePath(p) && v in ObjKeys(Get(paths, p)) && v in KnownHttpMethods
  {
    if ps != [] {
      RoutesMembership(paths, ps[1..], p, v);
      VerbRoutesMembership(ps[0], ObjKeys(Get(paths, ps[0])), p, v);
      assert ps == [ps[0]] + ps[1..];
    }
  }

  /** One suite per route, in route order: the route's `handleMethod` suite, titled `METHOD path`. */
  predicate SuitesFollow(spec: Json, ops: OMap<Operation>, suites: seq<Suite>, routes: seq<(string, string)>)
  {
    |suites| == |routes| &&
    forall i :: 0 <= i < |suites| ==>
      suites[i] == MethodSuite(spec, ops, routes[i].0, routes[i].1).0 && suites[i].title == SuiteName(routes[i].1, routes[i].0)
  }

  /** Without a throw, one suite per route of a path item, titled `METHOD path`. */
  lemma {:induction false} VerbSuitesFollowRoutes(spec: Json, ops: OMap<Operation>, path: string, verbs: seq<string>)
    ensures var (suites, f) := VerbSuites(spec, ops, path, verbs);
      f.None? ==> SuitesFollow(spec, ops, suites, VerbRoutes(path, verbs))
  {
    if verbs != [] {
      VerbSuitesFollowRoutes(spec, ops, path, verbs[1..]);
      if verbs[0] in KnownHttpMethods {
        MethodSuiteThenRest(spec, ops, path, verbs);
      }
    }
  }

  /** The step of `VerbSuitesFollowRoutes` for a key that is an HTTP method. */
  lemma MethodSuiteThenRest(spec: Json, ops: OMap<Operation>, path: string, verbs: seq<string>)
    requires verbs != [] && verbs[0] in KnownHttpMethods
    requires var (more, g) := VerbSuites(spec, ops, path, verbs[1..]);
      g.None? ==> SuitesFollow(spec, ops, more, VerbRoutes(path, verbs[1..]))
    ensures var (suites, f) := VerbSuites(spec, ops, path, verbs);
      f.None? ==> SuitesFollow(spec, ops, suites, VerbRoutes(path, verbs))
  {
    var rest := verbs[1..];
    var (suite, f) := MethodSuite(spec, ops, path, verbs[0]);
    var (more, g) := VerbSuites(spec, ops, path, rest);
    if f.None? && g.None? {
      assert suite.title == SuiteName(verbs[0], path);
      ConcatSuites(spec, ops, [suite], more, [(path, verbs[0])], VerbRoutes(path, rest));
    }
  }

  /** Without a throw, the server suite holds one suite per route, in route order, titled `METHOD path`. */
  lemma {:induction false} PathsSuitesFollowRoutes(spec: Json, paths: Json, ops: OMap<Operation>, ps: seq<string>)
    ensures var (suites, f) := PathsSuites(spec, paths, ops, ps);
      f.None? ==> SuitesFollow(spec, ops, suites, Routes(paths, ps))
  {
    if ps != [] {
      PathsSuitesFollowRoutes(spec, paths, ops, ps[1..]);
      if IsRoutePath(ps[0]) {
        PathSuitesThenRest(spec, paths, ops, ps);
      }
    }
  }

  /** The step of `PathsSuitesFollowRoutes` for a key that starts with `/`. */
  lemma PathSuitesThenRest(spec: Json, paths: Json, ops: OMap<Operation>, ps: seq<string>)
    requires ps != [] && IsRoutePath(ps[0])
    requires var (more, g) := PathsSuites(spec, paths, ops, ps[1..]);
      g.None? ==> SuitesFollow(spec, ops, more, Routes(paths, ps[1..]))
    ensures var (suites, f) := PathsSuites(spec, paths, ops, ps);
      f.None? ==> SuitesFollow(spec, ops, suites, Routes(paths, ps))
  {
    var item := Get(paths, ps[0]);
    var (first, f) := PathSuites(spec, paths, ops, ps[0]);
    var (more, g) := PathsSuites(spec, paths, ops, ps[1..]);
    PathsSuitesCons(spec, paths, ops, ps);
    RoutesCons(paths, ps);
    if f.None? && g.None? {
      PathSuitesFollowRoutes(spec, paths, ops, ps[0]);
      ConcatSuites(spec, ops, first, more, VerbRoutes(ps[0], ObjKeys(item)), Routes(paths, ps[1..]));
    }
  }

  /** Without a throw, the suites of one path item follow its method routes. */
  lemma PathSuitesFollowRoutes(spec: Json, paths: Json, ops: OMap<Operation>, p: string)
    ensures var (suites, f) := PathSuites(spec, paths, ops, p);
      f.None? ==> SuitesFollow(spec, ops, suites, VerbRoutes(p, ObjKeys(Get(paths, p))))
  {
    if !Absent(Get(paths, p)) {
      VerbSuitesFollowRoutes(spec, ops, p, ObjKeys(Get(paths, p)));
    }
  }

  lemma PathsSuitesCons(spec: Json, paths: Json, ops: OMap<Operation>, ps: seq<string>)
    requires ps != [] && IsRoutePath(ps[0])
    ensures var (first, f) := PathSuites(spec, paths, ops, ps[0]);
      var (more, g) := PathsSuites(spec, paths, ops, ps[1..]);
      PathsSuites(spec, paths, ops, ps) == if f.Some? then (first, f) else (first + more, g)
  {
  }

  lemma RoutesCons(paths: Json, ps: seq<string>)
    requires ps != [] && IsRoutePath(ps[0])
    ensures Routes(paths, ps) == VerbRoutes(ps[0], ObjKeys(Get(paths, ps[0]))) + Routes(paths, ps[1..])
  {
  }

  lemma ConcatSuites(spec: Json, ops: OMap<Operation>, a: seq<Suite>, b: seq<Suite>, ra: seq<(string, string)>, rb: seq<(string, string)>)
    requires SuitesFollow(spec, ops, a, ra) && SuitesFollow(spec, ops, b, rb)
    ensures SuitesFollow(spec, ops, a + b, ra + rb)
  {
    var c, rc := a + b, ra + rb;
    forall i | 0 <= i < |c|
      ensures c[i] == MethodSuite(spec, ops, rc[i].0, rc[i].1).0 && c[i].title == SuiteName(rc[i].1, rc[i].0)
    {
      if i >= |a| {
        assert c[i] == b[i - |a|] && rc[i] == rb[i - |a|];
      } else {
        assert c[i] == a[i] && rc[i] == ra[i];
      }
    }
  }


  lemma MethodSuiteServes(spec: Json, ops: OMap<Operation>, path: string, verb: string)
    requires exists j :: 0 <= j < |ops| && Serves(ops[j].1, path, verb)
    ensures var suite := MethodSuite(spec, ops, path, verb).0;
      forall t :: t in suite.tests ==> Serves(t.op, path, verb) && t.op == FindOperation(ops, path, verb).value
  {
  }

  // ---------------------------------------------------------------------------
  // The runner (`STS`)
  // ---------------------------------------------------------------------------

  /** Items and a failure, appended to the items already there. */
  function Extend<T>(acc: seq<T>, r: (seq<T>, Option<Failure>)): (seq<T>, Option<Failure>)
  {
    (acc + r.0, r.1)
  }

  lemma ExtendNothing<T>(r: (seq<T>, Option<Failure>))
    ensures Extend([], r) == r
  {
    assert [] + r.0 == r.0;
  }

  lemma ExtendStep<T>(acc: seq<T>, head: seq<T>, rest: (seq<T>, Option<Failure>))
    ensures Extend(acc + head, rest) == Extend(acc, (head + rest.0, rest.1))
  {
    assert acc + head + rest.0 == acc + (head + rest.0);
  }

  /** `suite.addTest` on the last suite, the one `handleMethod` just added. */
  function AddTests(suites: seq<Suite>, tests: seq<TestCase>): (r: seq<Suite>)
    requires |suites| > 0
    ensures |r| == |suites| && r[..|r| - 1] == suites[..|suites| - 1]
    ensures r[|r| - 1] == Suite(suites[|suites| - 1].title, suites[|suites| - 1].tests + tests)
  {
    var last := suites[|suites| - 1];
    suites[..|suites| - 1] + [Suite(last.title, last.tests + tests)]
  }

  lemma AddNothing(suites: seq<Suite>)
    requires |suites| > 0
    ensures AddTests(suites, []) == suites
  {
    var last := suites[|suites| - 1];
    assert last.tests + [] == last.tests;
    assert suites[..|suites| - 1] + [last] == suites;
  }

  lemma AddTestsTwice(suites: seq<Suite>, a: seq<TestCase>, b: seq<TestCase>)
    requires |suites| > 0
    ensures AddTests(AddTests(suites, a), b) == AddTests(suites, a + b)
  {
    var last := suites[|suites| - 1];
    assert last.tests + a + b == last.tests + (a + b);
  }

  /** What `mocha.run` is handed, or the exit code a setup throw reports through the callback. */
  datatype Launch = Run(serverSuite: string, suites: seq<Suite>) | Exit(code: int)

  /**
   * The STS object once the client is ready: the raw specification, the
   * client's `info`, `swaggerObject.paths` and `default.operations`, and the
   * server suite being built.
   */
  class Runner {
    const url: string
    const spec: Json
    const info: Json
    const paths: Json
    const operations: OMap<Operation>
    var serverSuite: string
    var suites: seq<Suite>

    constructor (url: string, spec: Json, info: Json, paths: Json, operations: OMap<Operation>)
      ensures this.url == url && this.spec == spec && this.info == info
      ensures this.paths == paths && this.operations == operations
      ensures serverSuite == "" && suites == []
    {
      this.url := url;
      this.spec := spec;
      this.info := info;
      this.paths := paths;
      this.operations := operations;
      serverSuite := "";
      suites := [];
    }

    /**
     * `onClientReady` and `buildRootSuite`: a throw while building is caught
     * by `onClientError`, which calls back with -1 and runs nothing.
     */
    method Start() returns (launch: Launch)
      modifies this
      ensures Member(info, "title").Err? ==> launch == Exit(-1)
      ensures Member(info, "title").Ok? ==>
        launch == if RootSuites(spec, paths, operations).1.Some? then Exit(-1)
                  else Run(url + ": " + ToJsString(Member(info, "title").value), RootSuites(spec, paths, operations).0)
    {
      var failure := BuildRootSuite();
      if failure.Some? {
        return Exit(-1);
      }
      return Run(serverSuite, suites);
    }

    /** `buildRootSuite()`: a fresh server suite, then one `handlePath` per path starting with `/`. */
    method BuildRootSuite() returns (failure: Option<Failure>)
      modifies this
      ensures Member(info, "title").Err? ==> failure == Some(Member(info, "title").error) && unchanged(this)
      ensures Member(info, "title").Ok? ==>
        serverSuite == url + ": " + ToJsString(Member(info, "title").value)
        && (suites, failure) == RootSuites(spec, paths, operations)
    {
      var title := Member(info, "title");
      if title.Err? {
        return Some(title.error);
      }
      serverSuite := url + ": " + ToJsString(title.value);
      suites := [];
      var keys := KeysOf(paths);
      if keys.Err? {
        return Some(keys.error);
      }
      var ps := keys.value;
      assert ps[0..] == ps;
      ExtendNothing(PathsSuites(spec, paths, operations, ps));
      var i := 0;
      while i < |ps|
        invariant 0 <= i <= |ps|
        invariant serverSuite == url + ": " + ToJsString(title.value)
        invariant Extend(suites, PathsSuites(spec, paths, operations, ps[i..])) == PathsSuites(spec, paths, operations, ps)
      {
        assert ps[i..][1..] == ps[i + 1..];
        ghost var here := PathsSuites(spec, paths, operations, ps[i..]);
        ghost var rest := PathsSuites(spec, paths, operations, ps[i + 1..]);
        if IsRoutePath(ps[i]) {
          ghost var before := suites;
          ghost var mine := PathSuites(spec, paths, operations, ps[i]);
          var f := HandlePath(ps[i]);
          if f.Some? {
            assert here == mine;
            return f;
          }
          assert here == (mine.0 + rest.0, rest.1);
          ExtendStep(before, mine.0, rest);
        } else {
          assert here == rest;
        }
        i := i + 1;
      }
      assert ps[i..] == [];
      assert suites + [] == suites;
      return None;
    }

    /** `handlePath(path)`: one `handleMethod` per key of the path item that is an HTTP method. */
    method HandlePath(path: string) returns (failure: Option<Failure>)
      modifies this
      ensures serverSuite == old(serverSuite)
      ensures (suites, failure) == Extend(old(suites), PathSuites(spec, paths, operations, path))
    {
      var keys := KeysOf(Get(paths, path));
      if keys.Err? {
        assert suites + [] == suites;
        return Some(keys.error);
      }
      var verbs := keys.value;
      assert verbs[0..] == verbs;
      var i := 0;
      while i < |verbs|
        invariant 0 <= i <= |verbs|
        invariant serverSuite == old(serverSuite)
        invariant Extend(suites, VerbSuites(spec, operations, path, verbs[i..]))
          == Extend(old(suites), VerbSuites(spec, operations, path, verbs))
      {
        assert verbs[i..][1..] == verbs[i + 1..];
        ghost var here := VerbSuites(spec, operations, path, verbs[i..]);
        ghost var rest := VerbSuites(spec, operations, path, verbs[i + 1..]);
        if verbs[i] in KnownHttpMethods {
          ghost var before := suites;
          ghost var mine := MethodSuite(spec, operations, path, verbs[i]);
          var f := HandleMethod(path, verbs[i]);
          if f.Some? {
            assert here == ([mine.0], mine.1);
            return f;
          }
          assert here == ([mine.0] + rest.0, rest.1);
          ExtendStep(before, [mine.0], rest);
        } else {
          assert here == rest;
        }
        i := i + 1;
      }
      assert verbs[i..] == [];
      assert suites + [] == suites;
      return None;
    }

    /** `handleMethod(path, method)`: the suite goes in first, then one `handleResponse` per code. */
    method HandleMethod(path: string, verb: string) returns (failure: Option<Failure>)
      modifies this
      ensures serverSuite == old(serverSuite)
      ensures suites == old(suites) + [MethodSuite(spec, operations, path, verb).0]
      ensures failure == MethodSuite(spec, operations, path, verb).1
    {
      var title := SuiteName(verb, path);
      suites := suites + [Suite(title, [])];
      var op := FindOperation(operations, path, verb);
      if op.None? {
        return Some(TypeError("Cannot read properties of undefined (reading 'responses')"));
      }
      var responses := HackSuccessResponse(spec, op.value);
      if responses.Err? {
        return Some(responses.error);
      }
      var codes := Keys(responses.value);
      ghost var added := suites;
      failure := HandleCodes(op.value, codes);
      assert suites == old(suites) + [Suite(title, CodesTests(spec, op.value, codes).0)] by {
        var tests := CodesTests(spec, op.value, codes).0;
        assert suites[..|suites| - 1] == added[..|added| - 1] == old(suites);
        assert added[|added| - 1] == Suite(title, []) && [] + tests == tests;
        assert suites == suites[..|suites| - 1] + [suites[|suites| - 1]];
      }
    }

    /** The loop of `handleMethod` over the response codes, one `handleResponse` each. */
    method HandleCodes(op: Operation, codes: seq<string>) returns (failure: Option<Failure>)
      requires |suites| > 0
      modifies this
      ensures serverSuite == old(serverSuite)
      ensures suites == AddTests(old(suites), CodesTests(spec, op, codes).0)
      ensures failure == CodesTests(spec, op, codes).1
    {
      ghost var all := CodesTests(spec, op, codes);
      assert codes[0..] == codes;
      ExtendNothing(all);
      AddNothing(suites);
      ghost var tests: seq<TestCase> := [];
      var i := 0;
      while i < |codes|
        invariant 0 <= i <= |codes|
        invariant serverSuite == old(serverSuite)
        invariant suites == AddTests(old(suites), tests)
        invariant Extend(tests, CodesTests(spec, op, codes[i..])) == all
      {
        assert codes[i..][1..] == codes[i + 1..];
        ghost var mine := ResponseTests(spec, op, codes[i]);
        ghost var rest := CodesTests(spec, op, codes[i + 1..]);
        ghost var before := tests;
        var f := HandleResponse(op, codes[i]);
        AddTestsTwice(old(suites), before, mine.0);
        tests := tests + mine.0;
        if f.Some? {
          assert CodesTests(spec, op, codes[i..]) == mine;
          return f;
        }
        assert CodesTests(spec, op, codes[i..]) == (mine.0 + rest.0, rest.1);
        ExtendStep(before, mine.0, rest);
        i := i + 1;
      }
      assert codes[i..] == [];
      assert tests + [] == tests;
      return None;
    }

    /** `handleResponse(suite, operation, responseCode)`: one `handleExample` per example. */
    method HandleResponse(op: Operation, code: string) returns (failure: Option<Failure>)
      requires |suites| > 0
      modifies this
      ensures serverSuite == old(serverSuite)
      ensures suites == AddTests(old(suites), ResponseTests(spec, op, code).0)
      ensures failure == ResponseTests(spec, op, code).1
    {
      AddNothing(suites);
      var examples := ExamplesOf(spec, op.path, op.verb, code);
      if examples.Err? {
        return Some(examples.error);
      }
      var list := ExamplesFor(examples.value);
      if list.Err? {
        return Some(list.error);
      }
      var xs := list.value;
      ghost var all := ExampleTests(op, code, xs);
      assert xs[0..] == xs;
      ExtendNothing(all);
      ghost var added: seq<TestCase> := [];
      var i := 0;
      while i < |xs|
        invariant 0 <= i <= |xs|
        invariant serverSuite == old(serverSuite)
        invariant suites == AddTests(old(suites), added)
        invariant Extend(added, ExampleTests(op, code, xs[i..])) == all
      {
        assert xs[i..][1..] == xs[i + 1..];
        ghost var rest := ExampleTests(op, code, xs[i + 1..]);
        var f := HandleExample(op, code, xs[i]);
        if f.Some? {
          assert ExampleTests(op, code, xs[i..]).0 == [];
          assert added + [] == added;
          return f;
        }
        assert ExampleTests(op, code, xs[i..]) == ([TestFor(op, code, xs[i])] + rest.0, rest.1);
        ExtendStep(added, [TestFor(op, code, xs[i])], rest);
        AddTestsTwice(old(suites), added, [TestFor(op, code, xs[i])]);
        added := added + [TestFor(op, code, xs[i])];
        i := i + 1;
      }
      assert xs[i..] == [];
      assert added + [] == added;
      return None;
    }

    /** `handleExample(suite, operation, responseCode, example)`: reading `description` throws on undefined or null. */
    method HandleExample(op: Operation, code: string, example: Json) returns (failure: Option<Failure>)
      requires |suites| > 0
      modifies this
      ensures serverSuite == old(serverSuite)
      ensures Absent(example) ==> failure == Some(Member(example, "description").error) && suites == old(suites)
      ensures !Absent(example) ==> failure.None? && suites == AddTests(old(suites), [TestFor(op, code, example)])
    {
      var description := Member(example, "description");
      if description.Err? {
        return Some(description.error);
      }
      suites := AddTests(suites, [TestCase(code + ": " + ToJsString(description.value), op, code, example)]);
      return None;
    }
}
}
