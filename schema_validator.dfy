/**
 * The response-schema check of lib/STSSchemaValidator.js. The schema of an
 * operation's response is looked up in the raw specification; when it names a
 * model by `$ref` and the response carries a parsed body, the body is handed to
 * the swagger-tools model validator, whose callback decides the outcome. The
 * validator itself is foreign code and is a function parameter here.
 */
module SchemaValidator {
  import opened Js

  /** One entry of the validator's `result.errors`. */
  datatype ValidationError = ValidationError(path: seq<string>, message: string)

  /** What the validator passes to its callback: `err` and an optional `result`. */
  datatype ValidatorReply = ValidatorReply(err: Json, result: Option<seq<ValidationError>>)

  /** The settled validation: no schema to check against, or a body that passed. */
  datatype Verdict = Skipped | Validated

  /** `spec.paths[path][method].responses[code]`: each step throws on undefined or null. */
  function ResponseOf(spec: Json, path: string, verb: string, code: string): (r: Result<Json, Failure>)
    ensures r.Ok? ==> r.value == Get(Get(Get(Get(Get(spec, "paths"), path), verb), "responses"), code)
  {
    match Member(spec, "paths")
    case Err(e) => Err(e)
    case Ok(paths) =>
      match Member(paths, path)
      case Err(e) => Err(e)
      case Ok(item) =>
        match Member(item, verb)
        case Err(e) => Err(e)
        case Ok(op) =>
          match Member(op, "responses")
          case Err(e) => Err(e)
          case Ok(responses) => Member(responses, code)
  }

  /** `spec.paths[path][method].responses[code].schema`. */
  function SchemaOf(spec: Json, path: string, verb: string, code: string): (r: Result<Json, Failure>)
    ensures r.Ok? ==> r.value == Get(Get(Get(Get(Get(Get(spec, "paths"), path), verb), "responses"), code), "schema")
    ensures ResponseOf(spec, path, verb, code).Err? ==> r == ResponseOf(spec, path, verb, code)
    ensures r.Err? <==> ResponseOf(spec, path, verb, code).Err? || Absent(ResponseOf(spec, path, verb, code).value)
  {
    match ResponseOf(spec, path, verb, code)
    case Err(e) => Err(e)
    case Ok(response) => Member(response, "schema")
  }

  /** The condition under which the body is validated at all. */
  predicate Checks(schema: Json, response: Json)
  {
    Truthy(schema) && Truthy(Get(schema, "$ref")) && Truthy(response) && Truthy(Get(response, "obj"))
  }

  /** `'#/' + path.join('/') + ': ' + message`. */
  function ErrorLine(e: ValidationError): string
  {
    "#/" + Join(e.path, "/") + ": " + e.message
  }

  function ErrorLines(errors: seq<ValidationError>): (r: seq<string>)
    ensures |r| == |errors| && forall i :: 0 <= i < |errors| ==> r[i] == ErrorLine(errors[i])
  {
    if errors == [] then [] else [ErrorLine(errors[0])] + ErrorLines(errors[1..])
  }

  function FailureMessage(errors: seq<ValidationError>): string
  {
    "Validation failed:\n" + Join(ErrorLines(errors), "\n")
  }

  /** The callback: a truthy `err` rejects with it, a `result` rejects with the joined messages. */
  function Settle(reply: ValidatorReply): (r: Result<Verdict, Failure>)
    ensures r.Ok? <==> !Truthy(reply.err) && reply.result.None?
    ensures r.Ok? ==> r.value == Validated
    ensures Truthy(reply.err) ==> r == Err(Thrown(reply.err))
  {
    if Truthy(reply.err) then Err(Thrown(reply.err))
    else if reply.result.Some? then Err(ErrorMessage(FailureMessage(reply.result.value)))
    else Ok(Validated)
  }

  /**
   * `validate(operation, responseCode, response)`; `validateModel(spec, ref, obj)`
   * is what the swagger-tools validator reports for the body.
   */
  function Validate(spec: Json, path: string, verb: string, code: string, response: Json,
                    validateModel: (Json, Json, Json) -> ValidatorReply): (r: Result<Verdict, Failure>)
    ensures SchemaOf(spec, path, verb, code).Err? ==> r == Err(SchemaOf(spec, path, verb, code).error)
    ensures r == Ok(Skipped) <==>
      SchemaOf(spec, path, verb, code).Ok? && !Checks(SchemaOf(spec, path, verb, code).value, response)
    ensures SchemaOf(spec, path, verb, code).Ok? && Checks(SchemaOf(spec, path, verb, code).value, response) ==>
      var schema := SchemaOf(spec, path, verb, code).value;
      r == Settle(validateModel(spec, Get(schema, "$ref"), Get(response, "obj")))
  {
    match SchemaOf(spec, path, verb, code)
    case Err(e) => Err(e)
    case Ok(schema) =>
      if Checks(schema, response) then Settle(validateModel(spec, Get(schema, "$ref"), Get(response, "obj")))
      else Ok(Skipped)
  }

  /** A validation result rejects with one line per error, in order, after the heading. */
  lemma SettleResult(errors: seq<ValidationError>, err: Json)
    requires !Truthy(err)
    requires |errors| > 0
    requires forall i, j :: 0 <= i < |errors| && 0 <= j < |errors[i].message| ==> errors[i].message[j] != '\n'
    requires forall i, j, k :: 0 <= i < |errors| && 0 <= j < |errors[i].path| && 0 <= k < |errors[i].path[j]| ==>
      errors[i].path[j][k] != '\n'
    ensures Settle(ValidatorReply(err, Some(errors))).Err?
    ensures var m := Settle(ValidatorReply(err, Some(errors))).error;
      m.ErrorMessage? && |m.message| >= 19 && m.message[..19] == "Validation failed:\n" &&
      Split(m.message[19..], '\n') == ErrorLines(errors)
  {
    var lines := ErrorLines(errors);
    forall i | 0 <= i < |lines| ensures '\n' !in lines[i] {
      NoNewlineInLine(errors[i]);
    }
    SplitJoin(lines, '\n');
    var m := FailureMessage(errors);
    assert m[..19] == "Validation failed:\n" && m[19..] == Join(lines, "\n");
  }

  lemma {:induction false} NoNewlineInJoin(parts: seq<string>)
    requires forall j, k :: 0 <= j < |parts| && 0 <= k < |parts[j]| ==> parts[j][k] != '\n'
    ensures '\n' !in Join(parts, "/")
  {
    if |parts| > 1 {
      NoNewlineInJoin(parts[1..]);
      assert '\n' !in parts[0];
      assert Join(parts, "/") == parts[0] + "/" + Join(parts[1..], "/");
    } else if |parts| == 1 {
      assert '\n' !in parts[0];
    }
  }

  lemma NoNewlineInLine(e: ValidationError)
    requires forall j :: 0 <= j < |e.message| ==> e.message[j] != '\n'
    requires forall j, k :: 0 <= j < |e.path| && 0 <= k < |e.path[j]| ==> e.path[j][k] != '\n'
    ensures '\n' !in ErrorLine(e)
  {
    NoNewlineInJoin(e.path);
  }

  /** The two-error result of the validator's own tests. */
  lemma TwoErrorMessage()
    ensures FailureMessage([ValidationError(["1", "2"], "3"), ValidationError(["4", "5"], "6")])
      == "Validation failed:\n#/1/2: 3\n#/4/5: 6"
  {
    var e1 := ValidationError(["1", "2"], "3");
    var e2 := ValidationError(["4", "5"], "6");
    TwoPartLine("1", "2", "3");
    TwoPartLine("4", "5", "6");
    assert ErrorLines([e1, e2]) == [ErrorLine(e1), ErrorLine(e2)];
    JoinPair(ErrorLine(e1), ErrorLine(e2), "\n");
  }

  /** The line of an error at a two-step path. */
  lemma TwoPartLine(a: string, b: string, message: string)
    ensures ErrorLine(ValidationError([a, b], message)) == "#/" + a + "/" + b + ": " + message
  {
    JoinPair(a, b, "/");
  }

  lemma JoinPair(a: string, b: string, sep: string)
    ensures Join([a, b], sep) == a + sep + b
  {
    assert [a, b][1..] == [b];
  }
}
