# swagger-t-str, modelled in Dafny

swagger-t-str turns a Swagger 2.0 specification into a Mocha test run against a
live server. Every response code of every operation gets one test per
`x-amples` entry, or one default test when there are none. A test normalises
its example, builds a request from parameter defaults and the example's own
headers, parameters and body, and picks the authorizations to send. It then
waits for the server's answer and checks it:

1. the response must contain the example's `response` fragment (chai-subset);
2. the example may act as a provider: templates such as `${headers.token}` or
   `${obj.id}` are filled in from the response, and the results become new
   credentials (`authProviderFor`) or parameter defaults (`paramProviderFor`)
   for the examples that run later;
3. the body is checked against the response schema's `$ref` model.

The model covers the four library files:

| module | file | form |
|---|---|---|
| `Js` | (JavaScript semantics the library relies on) | JSON values, insertion-ordered objects, property reads and writes, `Object.assign`, truthiness, `String()`, `parseInt`, `join`/`split` |
| `AuthHelper` | lib/STSAuthHelper.js | the decision table of `add` as a function; the clientAuthorizations object as the class `AuthStore`, written in place; `parse` as a method |
| `Template` | lib/STSExampleHandler.js (`eval`) | a parser and renderer for the template strings the library evaluates |
| `SchemaValidator` | lib/STSSchemaValidator.js | the schema lookup, the skip rule and the validator callback, with the swagger-tools validator as a function parameter |
| `Subset` | lib/STSExampleHandler.js (`containSubset`) | the chai-subset containment the response must satisfy |
| `ExampleHandler` | lib/STSExampleHandler.js | the handler as the class `Handler`, whose methods update the shared authorizations, the global parameters and the operation's parameters in place; each loop is proved against a fold over the same steps |
| `SuiteBuilder` | lib/swagger-t-str.js | the STS object as the class `Runner`, whose methods append suites and tests; loops are proved against spec folds, and the routes are characterised independently |

A throw in the source is an `Err(Failure)` in the model. A loop that stops
at a throw keeps what it already wrote. The fold functions therefore return the
state reached together with an `Option<Failure>`.

Where the behaviour description of the project and the code disagree, the
model follows the code:
- Templates may reference only `headers.<id>` and `obj.<id>`. `eval` binds no
  `body`, so `${body.x}` throws there; `Template.BodyPlaceholderRejected` states it.
- `dispatchParams` reads `operation.parameters.find`, so a `paramProviderFor`
  on an operation without parameters throws.
- A throw while the suites are built (no operation for a route, a null path
  item, an undefined or null example) escapes to the client promise's `catch`.
  The catch reports -1 and no test runs.
- `dispatchAuth` installs a credential only when the provider entry has a
  truthy `x-ample`.

## Model

| member | source | states |
|---|---|---|
| Js.Member | lib/STSSchemaValidator.js:12 | reading a property throws exactly on undefined and null, and otherwise reads it |
| Js.SetMember | lib/STSExampleHandler.js:49-54 | a property write succeeds exactly on objects, writes that key and leaves every other key as it was |
| Js.LookupAssign | lib/STSExampleHandler.js:79-81 | after `Object.assign(m, src)` a key reads the source's value if it has one, else the target's |
| Js.KeysAssign | lib/STSExampleHandler.js:79-81 | `Object.assign` keeps the target's keys in place and appends the source's new keys in order |
| Js.ParseIntNatToString | lib/STSExampleHandler.js:54 | `parseInt` of the decimal notation of a number gives the number back |
| Js.ParseIntDigits | lib/STSExampleHandler.js:54 | `parseInt` of a string of decimal digits is their value |
| Js.SplitJoin | lib/STSSchemaValidator.js:26-29 | splitting a newline-joined list of lines without newlines gives the lines back |
| AuthHelper.Resolve | lib/STSAuthHelper.js:13-27 | no authorization for a falsy credential, missing definitions, or a falsy definition; otherwise one exactly for the types basic, apiKey and oauth2, and only for a defined name |
| AuthHelper.AddTouchesOneKey | lib/STSAuthHelper.js:11-28 | `add` never changes an entry other than `name` |
| AuthHelper.AddWritesResolved | lib/STSAuthHelper.js:11-28 | `add` writes the resolved authorization under `name`, or leaves the entry as it was |
| AuthHelper.BasicWithCredentials | lib/STSAuthHelper.js:15-17 | for any definition of type basic and any credential with truthy `username` and `password`, `add` stores `PasswordAuthorization(username, password)` under the name |
| AuthHelper.BasicWithPlainHeader | lib/STSAuthHelper.js:18-20 | for type basic and any other truthy credential, `add` stores `ApiKeyAuthorization('Authorization', credential, 'header')` |
| AuthHelper.ApiKeyUsesDefinition | lib/STSAuthHelper.js:21-23 | for type apiKey and any truthy credential, `add` stores `ApiKeyAuthorization(definition.name, credential, definition.in)` |
| AuthHelper.OAuth2IsCookie | lib/STSAuthHelper.js:24-26 | for type oauth2 and any truthy credential, `add` stores `CookieAuthorization(credential)` |
| AuthHelper.UnknownTypeIsNoOp | lib/STSAuthHelper.js:15-27 | for any type other than basic, apiKey and oauth2, `add` leaves the whole store unchanged |
| AuthHelper.AddAllKeys | lib/STSAuthHelper.js:38-41 | a sequence of `add`s creates entries only for the names it was given |
| AuthHelper.AddAllOthers | lib/STSAuthHelper.js:38-41 | names outside the sequence keep their entries |
| AuthHelper.AddAllValue | lib/STSAuthHelper.js:38-41 | each distinct name ends with its own resolved authorization, or its old entry |
| AuthHelper.ParseEntries | lib/STSAuthHelper.js:34-43 | `parse` is empty without definitions, and holds under each name its definition's `x-ample` resolved |
| AuthHelper.AuthStore.constructor | lib/STSAuthHelper.js:36 | a store starts with the given entries |
| AuthHelper.AuthStore.Add | lib/STSAuthHelper.js:11-28 | the store after `add` in place |
| AuthHelper.AuthStore.Clone | lib/STSExampleHandler.js:118 | `Object.assign({}, clientAuthorizations)` is a fresh store with the same entries |
| AuthHelper.Parse | lib/STSAuthHelper.js:34-43 | the loop builds a fresh store holding `ParseSpec` |
| Template.ParseUnparse | lib/STSExampleHandler.js:179 | every well-formed template parses back to its own segments |
| Template.Eval | lib/STSExampleHandler.js:174-180 | evaluating against an undefined or null response throws |
| Template.EvalPlainText | lib/STSExampleHandler.js:179 | text without `$`, backquote or backslash evaluates to itself |
| Template.RenderLiterals | lib/STSExampleHandler.js:179 | literal segments render as their own text |
| Template.EvalUnparse | lib/STSExampleHandler.js:174-180 | the text of any well-formed segment list evaluates to those segments rendered against the response |
| Template.EvalPlaceholder | lib/STSExampleHandler.js:176-179 | `${headers.id}` / `${obj.id}` gives `String(response.headers.id)` / `String(response.obj.id)`, and throws when `response.headers` / `response.obj` is undefined or null |
| Template.EvalHeaderAndBody | lib/STSExampleHandler.js:176-179 | `[${headers.header1}:${obj.field2}]` against headers `{header1: 'value1'}` and obj `{field2: 'value2'}` gives `[value1:value2]` |
| Template.BodyPlaceholderRejected | lib/STSExampleHandler.js:176-178 | a `body.` placeholder is rejected, since only `headers` and `obj` are bound |
| SchemaValidator.ResponseOf | lib/STSSchemaValidator.js:12 | the response entry of the raw specification, when every step of the chain is defined |
| SchemaValidator.SchemaOf | lib/STSSchemaValidator.js:12 | the schema of that entry; throws exactly when the chain or the entry does |
| SchemaValidator.ErrorLines | lib/STSSchemaValidator.js:26-28 | one `#/path: message` line per validation error, in order |
| SchemaValidator.Settle | lib/STSSchemaValidator.js:23-31 | the callback resolves exactly when there is neither an error nor a result; a truthy error rejects with itself |
| SchemaValidator.Validate | lib/STSSchemaValidator.js:11-16 | lookup failures propagate; the check is skipped exactly when schema, `$ref`, response or body is missing; otherwise the validator's reply on `$ref` and the body decides |
| SchemaValidator.SettleResult | lib/STSSchemaValidator.js:25-29 | a result rejects with "Validation failed:" followed by the error lines, recoverable line by line |
| SchemaValidator.TwoErrorMessage | lib/STSSchemaValidator.js:26-29 | two errors give "Validation failed:\n#/1/2: 3\n#/4/5: 6" |
| Subset.CompareReflexive | lib/STSExampleHandler.js:135 | every value without NaN contains itself |
| Subset.EmptyObjectContained | lib/STSExampleHandler.js:135 | the empty object is contained in exactly the objects and arrays |
| Subset.StatusContained | lib/STSExampleHandler.js:135 | the normalised fragment `{status: n}` holds of an object exactly when its `status` is `n` |
| ExampleHandler.LookupGlobalDefaults | lib/STSExampleHandler.js:92-99 | the global loop sets exactly the names with a truthy `x-ample` |
| ExampleHandler.LookupOperationDefaults | lib/STSExampleHandler.js:100-106 | the operation loop lets the last parameter of a name with a truthy `x-ample` win |
| ExampleHandler.DefaultRequestLookup | lib/STSExampleHandler.js:90-108 | each default is the operation's, if any, else the global one |
| ExampleHandler.RequestPrecedence | lib/STSExampleHandler.js:77-83 | `body` comes from the example; for other keys example parameters override example headers, which override defaults |
| ExampleHandler.NormalizedParts | lib/STSExampleHandler.js:48-55 | writing the filled request and response back gives a normalised example |
| ExampleHandler.DispatchAuthUntouched | lib/STSExampleHandler.js:146-155 | strategies without a provider, definition or truthy template keep their authorization |
| ExampleHandler.DispatchAuthInstalls | lib/STSExampleHandler.js:146-155 | without a throw, a provided strategy holds the authorization resolved from the evaluated template |
| ExampleHandler.SetFirst | lib/STSExampleHandler.js:161-167 | writing the found parameter keeps every name in place |
| ExampleHandler.SetFirstOther | lib/STSExampleHandler.js:161-167 | writing one parameter leaves the defaults of other names alone |
| ExampleHandler.NoNameNoDefault | lib/STSExampleHandler.js:100-106 | a name no parameter has gets no operation default |
| ExampleHandler.SetFirstSelf | lib/STSExampleHandler.js:161-167 | writing a uniquely named parameter makes its value the default when truthy |
| ExampleHandler.ParamStepOther | lib/STSExampleHandler.js:160-171 | one provider step leaves other names' defaults, names and globals alone |
| ExampleHandler.ParamStepSelf | lib/STSExampleHandler.js:160-171 | without a throw, one provider step makes the evaluated value the name's default |
| ExampleHandler.WriteGlobal | lib/STSExampleHandler.js:168-170 | writing a global parameter throws exactly when the global parameters are undefined or null, or the truthy parameter is not an object; a throw or a falsy parameter leaves them as they were, and other names read as before |
| ExampleHandler.WrittenGlobal | lib/STSExampleHandler.js:168-170 | a truthy global parameter takes the evaluated value as its `x-ample` |
| ExampleHandler.DispatchParamsOthers | lib/STSExampleHandler.js:157-172 | names not provided keep their defaults |
| ExampleHandler.DispatchParamsSeenLater | lib/STSExampleHandler.js:157-172 | without a throw, a provided name's default for later requests is the value evaluated from this response |
| ExampleHandler.Handler.constructor | lib/STSExampleHandler.js:18-22 | the shared authorizations are a fresh store holding `parse` of the definitions |
| ExampleHandler.Handler.NormalizeExample | lib/STSExampleHandler.js:47-56 | succeeds exactly for an object whose request and response are falsy or objects; fills empty parameters, headers and body, and `status = parseInt(code)` where falsy, and changes nothing else |
| ExampleHandler.Handler.FillRequest | lib/STSExampleHandler.js:49-52 | falsy request fields become `{}`, others are kept |
| ExampleHandler.Handler.FillResponse | lib/STSExampleHandler.js:53-54 | a falsy status becomes `parseInt(code)`, others are kept |
| ExampleHandler.FillKey | lib/STSExampleHandler.js:50-52 | a falsy key takes the fallback, a truthy one keeps its value, and every other key reads as before |
| ExampleHandler.ObjectOrEmpty | lib/STSExampleHandler.js:49 | a falsy value becomes `{}`, an object, which reads like it under every key |
| ExampleHandler.Handler.BuildDefaultRequest | lib/STSExampleHandler.js:90-108 | the two loops compute `DefaultRequest` |
| ExampleHandler.Handler.BuildRequest | lib/STSExampleHandler.js:77-83 | the request is `RequestFor` the defaults and the example |
| ExampleHandler.Handler.GetAuthorizations | lib/STSExampleHandler.js:115-124 | null for a falsy `auth`; the shared store itself for a primitive; otherwise a fresh copy extended by `add` per key, leaving the shared store alone |
| ExampleHandler.Handler.DispatchAuth | lib/STSExampleHandler.js:146-155 | the shared store and the failure are those of the auth fold |
| ExampleHandler.Handler.DispatchParams | lib/STSExampleHandler.js:157-172 | the operation's parameters, the globals and the failure are those of the parameter fold |
| ExampleHandler.Handler.DoValidate | lib/STSExampleHandler.js:133-139 | a mismatch fails first and dispatches nothing; then credentials, then parameters, and the schema check only if neither threw; the new authorization store and defaults are those the dispatches compute (`ValidationEffect`) |
| ExampleHandler.Handler.Handle | lib/STSExampleHandler.js:31-39 | normalises, sends `RequestFor` with the chosen authorizations, and on a normalised example validates the server's response to that request exactly as `DoValidate` does: mismatch, credentials, parameters, schema, with the resulting store and defaults |
| SuiteBuilder.FindIndex | lib/swagger-t-str.js:94-97 | the first operation whose path and method match, or none |
| SuiteBuilder.FindOperation | lib/swagger-t-str.js:92-99 | the first matching operation; without one, the operation named "undefined" |
| SuiteBuilder.ExamplesOf | lib/swagger-t-str.js:178 | the raw specification's `x-amples`; throws exactly when the chain or the response entry does |
| SuiteBuilder.AssignCopy | lib/swagger-t-str.js:112 | `Object.assign({}, responses)` is a copy |
| SuiteBuilder.HackWithoutSuccess | lib/swagger-t-str.js:110-123 | without `successResponse` the codes are `operation.responses` unchanged |
| SuiteBuilder.HackSuccessFirst | lib/swagger-t-str.js:110-123 | the success code comes first, then the other codes in order; shared codes read `operation.responses`; a new one reads the success entry with the raw `x-amples` |
| SuiteBuilder.ExamplesFor | lib/swagger-t-str.js:179-182 | a falsy or empty `x-amples` gives the default example, an array its items, a string its characters, and anything else throws |
| SuiteBuilder.ExampleTests | lib/swagger-t-str.js:182-198 | one test per example, in order, titled `code: description`, up to the first undefined or null example, which throws |
| SuiteBuilder.ResponseTests | lib/swagger-t-str.js:174-185 | every test of a response code runs that operation with that code |
| SuiteBuilder.DefaultExampleTest | lib/swagger-t-str.js:179-181 | a code without examples gets the one test `code: should return expected HTTP status code` |
| SuiteBuilder.CodesTests | lib/swagger-t-str.js:163-165 | every test of a method suite runs that operation with one of its codes |
| SuiteBuilder.Upper | lib/swagger-t-str.js:159 | `toUpperCase` on ASCII letters |
| SuiteBuilder.RoutesMembership | lib/swagger-t-str.js:134-137 | a route is exactly a path key starting with `/` paired with a key of its item that is a known HTTP method |
| SuiteBuilder.VerbRoutesMembership | lib/swagger-t-str.js:147-148 | the methods of one path item are exactly its keys among the known HTTP methods |
| SuiteBuilder.VerbSuitesFollowRoutes | lib/swagger-t-str.js:145-151 | without a throw, one suite per method route of a path, each equal to that route's `handleMethod` suite and titled `METHOD path` |
| SuiteBuilder.PathsSuitesFollowRoutes | lib/swagger-t-str.js:128-139 | without a throw, one suite per route, in route order, each equal to that route's `handleMethod` suite and titled `METHOD path` |
| SuiteBuilder.PathSuitesFollowRoutes | lib/swagger-t-str.js:145-151 | without a throw, the suites of one path item are its method routes' `handleMethod` suites, in order |
| SuiteBuilder.MethodSuiteServes | lib/swagger-t-str.js:158-166 | every test in a route's suite runs the operation serving that route |
| SuiteBuilder.Runner.constructor | lib/swagger-t-str.js:26-29 | a runner starts with nothing built |
| SuiteBuilder.Runner.Start | lib/swagger-t-str.js:66-84 | the built suites are run; a throw while building reports -1 |
| SuiteBuilder.Runner.BuildRootSuite | lib/swagger-t-str.js:128-139 | a server suite titled `url: title`, holding the suites of `RootSuites` |
| SuiteBuilder.Runner.HandlePath | lib/swagger-t-str.js:145-151 | appends the suites of one path |
| SuiteBuilder.Runner.HandleMethod | lib/swagger-t-str.js:158-166 | appends one suite, even when the operation's lookup then throws |
| SuiteBuilder.Runner.HandleCodes | lib/swagger-t-str.js:163-165 | adds the tests of every code, in order, to the method's suite, up to the first throw |
| SuiteBuilder.Runner.HandleResponse | lib/swagger-t-str.js:174-185 | adds the tests of one code to the method's suite |
| SuiteBuilder.Runner.HandleExample | lib/swagger-t-str.js:194-199 | adds one test, or throws on an undefined or null example |

## Left out

- Reading the YAML file (`loadSpec`) and creating the swagger-client are I/O. The runner is given the parsed specification, and the client's `info`, `swaggerObject.paths`, `swaggerObject.parameters` and `default.operations`. A client that fails to build reports -1 without building anything, and is not modelled.
- Mocha is foreign code: suites and tests are values, and running them is out of scope. The pass/fail tally `mocha.run` reports through the callback is not modelled. `handleResponse` adds tests to the suite `handleMethod` just appended, so that suite is modelled as the last one.
- The HTTP call `client.default[nickname](request, {clientAuthorizations})` is the function parameter `server` of `Handle`: it gives the value the promise settles with, fulfilled or rejected alike. Promises, timing and concurrency are not modelled; steps run in order.
- swagger-tools' `validateModel` is a function parameter of `Validate`. SwaggerClient's authorization objects are the datatype `Authorization`.
- `eval` runs arbitrary JavaScript; the model accepts only literal text and `${headers.id}` / `${obj.id}` placeholders. Any other `${…}`, a backquote or a backslash is a `TemplateError`.
- The JSON round trip in `normalizeExample` is a value copy: dropping undefined properties and turning NaN into null are not modelled.
- Numbers are integers or NaN; `parseInt` reads base 10 only, without the `0x` prefix.
- Template.Eval: a template literal's cooked text turns a carriage return, or a carriage return followed by a line feed, into a single line feed; the model copies both as written.
- JavaScript orders integer-like property keys ascending before other keys; objects here keep insertion order. For numeric response codes, `hackSuccessResponse`'s "success code first" therefore holds in the source only when that code is the smallest.
- Arrays are keyless here. `Object.keys` of an array or a string (its indices), property writes on arrays, and arrays or strings as `Object.assign` sources are not modelled. `normalizeExample` therefore rejects an array example that JavaScript would accept.
- Loose `==` comparisons (`type == 'basic'`, `param.name == paramName`, `operation.path == path`) are equality of values of the same type.
- SuiteBuilder.LengthAtMostZero: a `length` property that is a string, array or object is not converted to a number; this modelled function reads it as not `<= 0`.
- SuiteBuilder.Upper: `toUpperCase` is modelled for ASCII letters only, which covers every method that passes the known-method filter.
- chai-subset compares the top level with `===` first, and objects that are the same reference always match; the model compares structurally. Dates and functions are not modelled.
- AuthHelper.ParseSpec: `securityDefinitions[name]['x-ample']` throws in the source on a null definition; the model reads it as undefined.
- ExampleHandler.DispatchParamsSeenLater: stated only for a name at most one operation parameter carries. `dispatchParams` writes the first parameter of that name, but `buildDefaultRequest` uses the last one with a truthy `x-ample`, so with duplicates the written value can be shadowed.
