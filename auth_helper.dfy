/**
 * Authorization resolution (lib/STSAuthHelper.js): a security definition's
 * type and an example credential decide which swagger-client authorization
 * is built, and that authorization is written under the scheme's name into
 * a store of client authorizations.
 */
module AuthHelper {
  import opened Js

  /** The three swagger-client authorization objects the helper can build. */
  datatype Authorization =
    | Password(username: Json, password: Json)           // PasswordAuthorization(username, password)
    | ApiKey(name: Json, value: Json, location: Json)    // ApiKeyAuthorization(name, value, in)
    | Cookie(value: Json)                                 // CookieAuthorization(value)

  /**
   * The decision table of `add`: `securityDefinitions` is the client's
   * security definitions object, `name` the scheme, `example` the credential.
   * None means `add` leaves the store as it is.
   */
  function Resolve(securityDefinitions: Json, name: string, example: Json): (r: Option<Authorization>)
    ensures !Truthy(example) || !Truthy(securityDefinitions) || !Truthy(Get(securityDefinitions, name)) ==> r == None
    ensures r.Some? ==> name in ObjKeys(securityDefinitions)
    ensures var kind := Get(Get(securityDefinitions, name), "type");
      r.Some? <==> Truthy(example) && Truthy(Get(securityDefinitions, name))
                   && kind in {JStr("basic"), JStr("apiKey"), JStr("oauth2")}
  {
    if !Truthy(example) || !Truthy(securityDefinitions) || !Truthy(Get(securityDefinitions, name)) then None
    else
      var definition := Get(securityDefinitions, name);
      var kind := Get(definition, "type");
      if kind == JStr("basic") && Truthy(Get(example, "username")) && Truthy(Get(example, "password")) then
        Some(Password(Get(example, "username"), Get(example, "password")))
      else if kind == JStr("basic") then
        Some(ApiKey(JStr("Authorization"), example, JStr("header")))
      else if kind == JStr("apiKey") then
        Some(ApiKey(Get(definition, "name"), example, Get(definition, "in")))
      else if kind == JStr("oauth2") then
        Some(Cookie(example))
      else None
  }

  /** The store after `add`: the one key `name` is written, or nothing is. */
  function AddSpec(entries: OMap<Authorization>, securityDefinitions: Json, name: string, example: Json): OMap<Authorization>
  {
    match Resolve(securityDefinitions, name, example)
    case Some(a) => Put(entries, name, a)
    case None => entries
  }

  /** `add` writes at most the key `name`; every other entry reads as before. */
  lemma AddTouchesOneKey(entries: OMap<Authorization>, securityDefinitions: Json, name: string, example: Json, k: string)
    requires k != name
    ensures Lookup(AddSpec(entries, securityDefinitions, name, example), k) == Lookup(entries, k)
  {
    if Resolve(securityDefinitions, name, example).Some? {
      LookupPut(entries, name, Resolve(securityDefinitions, name, example).value, k);
    }
  }

  /** When `add` writes, the key `name` holds the resolved authorization. */
  lemma AddWritesResolved(entries: OMap<Authorization>, securityDefinitions: Json, name: string, example: Json)
    ensures Lookup(AddSpec(entries, securityDefinitions, name, example), name) ==
      if Resolve(securityDefinitions, name, example).Some? then Resolve(securityDefinitions, name, example)
      else Lookup(entries, name)
  {
    if Resolve(securityDefinitions, name, example).Some? {
      LookupPut(entries, name, Resolve(securityDefinitions, name, example).value, name);
    }
  }

  /** A basic scheme and a credential with a user name and a password: `add` stores a password authorization. */
  lemma BasicWithCredentials(entries: OMap<Authorization>, securityDefinitions: Json, name: string, example: Json)
    requires Get(Get(securityDefinitions, name), "type") == JStr("basic")
    requires Truthy(Get(example, "username")) && Truthy(Get(example, "password"))
    ensures Lookup(AddSpec(entries, securityDefinitions, name, example), name)
            == Some(Password(Get(example, "username"), Get(example, "password")))
  {
    AddWritesResolved(entries, securityDefinitions, name, example);
  }

  /** A basic scheme and any other credential: `add` stores it as the Authorization header. */
  lemma BasicWithPlainHeader(entries: OMap<Authorization>, securityDefinitions: Json, name: string, example: Json)
    requires Get(Get(securityDefinitions, name), "type") == JStr("basic")
    requires Truthy(example) && !(Truthy(Get(example, "username")) && Truthy(Get(example, "password")))
    ensures Lookup(AddSpec(entries, securityDefinitions, name, example), name)
            == Some(ApiKey(JStr("Authorization"), example, JStr("header")))
  {
    AddWritesResolved(entries, securityDefinitions, name, example);
  }

  /** An apiKey scheme: `add` stores the credential under the definition's `name` and `in`. */
  lemma ApiKeyUsesDefinition(entries: OMap<Authorization>, securityDefinitions: Json, name: string, example: Json)
    requires Get(Get(securityDefinitions, name), "type") == JStr("apiKey")
    requires Truthy(example)
    ensures var definition := Get(securityDefinitions, name);
      Lookup(AddSpec(entries, securityDefinitions, name, example), name)
      == Some(ApiKey(Get(definition, "name"), example, Get(definition, "in")))
  {
    AddWritesResolved(entries, securityDefinitions, name, example);
  }

  /** An oauth2 scheme: `add` stores the credential as a cookie authorization. */
  lemma OAuth2IsCookie(entries: OMap<Authorization>, securityDefinitions: Json, name: string, example: Json)
    requires Get(Get(securityDefinitions, name), "type") == JStr("oauth2")
    requires Truthy(example)
    ensures Lookup(AddSpec(entries, securityDefinitions, name, example), name) == Some(Cookie(example))
  {
    AddWritesResolved(entries, securityDefinitions, name, example);
  }

  /** Any type other than basic, apiKey and oauth2 (or none at all): `add` leaves the whole store as it was. */
  lemma UnknownTypeIsNoOp(entries: OMap<Authorization>, securityDefinitions: Json, name: string, example: Json)
    requires Get(Get(securityDefinitions, name), "type") !in {JStr("basic"), JStr("apiKey"), JStr("oauth2")}
    ensures AddSpec(entries, securityDefinitions, name, example) == entries
  {
  }

  /** `add` applied to each name in `names` in turn, each with the credential `credential(name)`. */
  function AddAll(entries: OMap<Authorization>, securityDefinitions: Json, names: seq<string>,
                  credential: string -> Json): OMap<Authorization>
    decreases |names|
  {
    if names == [] then entries
    else AddAll(AddSpec(entries, securityDefinitions, names[0], credential(names[0])),
                securityDefinitions, names[1..], credential)
  }

  /** The credential `parse` hands to `add` for a scheme: its `x-ample`. */
  function XAmpleOf(securityDefinitions: Json, name: string): Json
  {
    Get(Get(securityDefinitions, name), "x-ample")
  }

  /** What `parse` returns: `add` over every security definition with its own `x-ample`. */
  function ParseSpec(securityDefinitions: Json): OMap<Authorization>
  {
    if !Truthy(securityDefinitions) then []
    else AddAll([], securityDefinitions, ObjKeys(securityDefinitions), name => XAmpleOf(securityDefinitions, name))
  }

  /** A key of the folded store is a key the fold started with or a name it was given. */
  lemma {:induction false} AddAllKeys(entries: OMap<Authorization>, securityDefinitions: Json, names: seq<string>,
                                      credential: string -> Json, k: string)
    requires Lookup(AddAll(entries, securityDefinitions, names, credential), k).Some?
    ensures Lookup(entries, k).Some? || k in names
    decreases |names|
  {
    if names != [] {
      var next := AddSpec(entries, securityDefinitions, names[0], credential(names[0]));
      AddAllKeys(next, securityDefinitions, names[1..], credential, k);
      if k != names[0] {
        AddTouchesOneKey(entries, securityDefinitions, names[0], credential(names[0]), k);
      }
    }
  }

  /** A name not among those folded keeps its entry. */
  lemma {:induction false} AddAllOthers(entries: OMap<Authorization>, securityDefinitions: Json, names: seq<string>,
                                        credential: string -> Json, k: string)
    requires k !in names
    ensures Lookup(AddAll(entries, securityDefinitions, names, credential), k) == Lookup(entries, k)
    decreases |names|
  {
    if names != [] {
      var next := AddSpec(entries, securityDefinitions, names[0], credential(names[0]));
      AddAllOthers(next, securityDefinitions, names[1..], credential, k);
      AddTouchesOneKey(entries, securityDefinitions, names[0], credential(names[0]), k);
    }
  }

  /** With distinct names, a folded name ends up with what `add` resolved for it, or its old entry. */
  lemma {:induction false} AddAllValue(entries: OMap<Authorization>, securityDefinitions: Json, names: seq<string>,
                                       credential: string -> Json, i: nat)
    requires i < |names|
    requires forall a, b :: 0 <= a < b < |names| ==> names[a] != names[b]
    ensures Lookup(AddAll(entries, securityDefinitions, names, credential), names[i]) ==
      if Resolve(securityDefinitions, names[i], credential(names[i])).Some?
      then Resolve(securityDefinitions, names[i], credential(names[i]))
      else Lookup(entries, names[i])
    decreases |names|
  {
    var next := AddSpec(entries, securityDefinitions, names[0], credential(names[0]));
    if i == 0 {
      AddAllOthers(next, securityDefinitions, names[1..], credential, names[0]);
      AddWritesResolved(entries, securityDefinitions, names[0], credential(names[0]));
    } else {
      AddAllValue(next, securityDefinitions, names[1..], credential, i - 1);
      AddTouchesOneKey(entries, securityDefinitions, names[0], credential(names[0]), names[i]);
    }
  }

  lemma {:induction false} KeysDistinct<V>(m: OMap<V>)
    ensures forall a, b :: 0 <= a < b < |Keys(m)| ==> Keys(m)[a] != Keys(m)[b]
  {
    if m != [] {
      KeysDistinct(m[1..]);
      assert Keys(m) == [m[0].0] + Keys(m[1..]);
    }
  }

  /**
   * `parse` without security definitions is empty; otherwise every entry of
   * its result is a defined scheme whose `x-ample` resolved to that entry,
   * and every scheme whose `x-ample` resolves has its entry.
   */
  lemma ParseEntries(securityDefinitions: Json, k: string)
    ensures !Truthy(securityDefinitions) ==> ParseSpec(securityDefinitions) == []
    ensures Lookup(ParseSpec(securityDefinitions), k) == Resolve(securityDefinitions, k, XAmpleOf(securityDefinitions, k))
  {
    if Truthy(securityDefinitions) {
      var names := ObjKeys(securityDefinitions);
      var credential := name => XAmpleOf(securityDefinitions, name);
      if k in names {
        var i :| 0 <= i < |names| && names[i] == k;
        KeysDistinct(securityDefinitions.fields);
        AddAllValue([], securityDefinitions, names, credential, i);
      } else {
        AddAllOthers([], securityDefinitions, names, credential, k);
      }
    }
  }

  /**
   * The client authorizations swagger-client is given: an object whose
   * entries `add` writes in place.
   */
  class AuthStore {
    var entries: OMap<Authorization>

    constructor (initial: OMap<Authorization>)
      ensures entries == initial
    {
      entries := initial;
    }

    /** `STSAuthHelper.add(client, this, name, example)`. */
    method Add(securityDefinitions: Json, name: string, example: Json)
      modifies this
      ensures entries == AddSpec(old(entries), securityDefinitions, name, example)
    {
      var resolved := Resolve(securityDefinitions, name, example);
      if resolved.Some? {
        entries := Put(entries, name, resolved.value);
      }
    }

    /** `Object.assign({}, this)`: a new store with the same entries. */
    method Clone() returns (copy: AuthStore)
      ensures fresh(copy) && copy.entries == entries
    {
      copy := new AuthStore(entries);
    }
  }

  /** `STSAuthHelper.parse(client)`: a fresh store filled by `add` for every definition. */
  method Parse(securityDefinitions: Json) returns (store: AuthStore)
    ensures fresh(store)
    ensures store.entries == ParseSpec(securityDefinitions)
  {
    store := new AuthStore([]);
    if !Truthy(securityDefinitions) {
      return;
    }
    var names := ObjKeys(securityDefinitions);
    var credential := name => XAmpleOf(securityDefinitions, name);
    var i := 0;
    while i < |names|
      invariant 0 <= i <= |names|
      invariant AddAll(store.entries, securityDefinitions, names[i..], credential) == ParseSpec(securityDefinitions)
    {
      assert names[i..][1..] == names[i + 1..];
      store.Add(securityDefinitions, names[i], XAmpleOf(securityDefinitions, names[i]));
      i := i + 1;
    }
  }
}
