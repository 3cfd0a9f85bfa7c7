/**
 * Environment variables of the `pipeliner-core` model: plain values,
 * secrets, credential references and expressions, their rendering, and the
 * variable resolvers.
 */
module CoreEnvironment {
  import opened Wrappers
  import opened Assoc

  datatype EnvVarValue =
    | Value(text: string)
    | Secret(value: string, masked: bool)
    | Credentials(credentialsId: string, keyField: string)
    | Expression(expression: string)

  /**
   * `Environment`: the variables by name. The association list stands for
   * the hash map, its order for the map's iteration order.
   */
  datatype Environment = Environment(vars: Entries<EnvVarValue>)

  /** `Environment::new`. */
  function NewEnvironment(): (e: Environment)
    ensures Len(e) == 0 && IsEmpty(e)
    ensures forall k :: Get(e, k).None?
  {
    Environment([])
  }

  /** Every value wrapped as a plain `Value`, keys and order unchanged. */
  function WrapValues(m: Entries<string>): (r: Entries<EnvVarValue>)
    ensures |r| == |m|
    ensures forall i :: 0 <= i < |m| ==> r[i] == (m[i].0, Value(m[i].1))
  {
    if |m| == 0 then [] else [(m[0].0, Value(m[0].1))] + WrapValues(m[1..])
  }

  /** `Environment::from_map`: every entry of the string map as a plain value under the same key. */
  function FromMap(m: Entries<string>): (e: Environment)
    ensures Keys(e.vars) == Keys(m)
    ensures Len(e) == |m|
  {
    Environment(WrapValues(m))
  }

  /** A key has a value in `from_map(m)` exactly when it has one in `m`, and it is that value, wrapped. */
  lemma {:induction false} FromMapGet(m: Entries<string>, k: string)
    ensures Get(FromMap(m), k) == if Assoc.Get(m, k).Some? then Some(Value(Assoc.Get(m, k).value)) else None
    decreases |m|
  {
    if |m| > 0 {
      assert WrapValues(m)[1..] == WrapValues(m[1..]);
      FromMapGet(m[1..], k);
    }
  }

  /** `Environment::insert`: a plain value, overwriting any earlier one. */
  function Insert(e: Environment, key: string, value: string): (r: Environment)
  {
    Environment(Assoc.Insert(e.vars, key, Value(value)))
  }

  /** `Environment::insert_secret`: a secret that is masked when rendered. */
  function InsertSecret(e: Environment, key: string, secret: string): (r: Environment)
  {
    Environment(Assoc.Insert(e.vars, key, Secret(secret, true)))
  }

  /** `Environment::insert_credentials`: a reference to a credentials entry and its field. */
  function InsertCredentials(e: Environment, key: string, credentialsId: string, keyField: string): (r: Environment)
  {
    Environment(Assoc.Insert(e.vars, key, Credentials(credentialsId, keyField)))
  }

  /** `Environment::get`. */
  function Get(e: Environment, key: string): Option<EnvVarValue> {
    Assoc.Get(e.vars, key)
  }

  /** `Environment::len`. */
  function Len(e: Environment): nat {
    |e.vars|
  }

  /** `Environment::is_empty`. */
  predicate IsEmpty(e: Environment) {
    |e.vars| == 0
  }

  /** After `insert(k, v)`, `get(k)` is `Value(v)` and every other key is unaffected; the keys stay distinct. */
  lemma InsertGet(e: Environment, key: string, value: string, k: string)
    requires Distinct(e.vars)
    ensures Get(Insert(e, key, value), k) == if k == key then Some(Value(value)) else Get(e, k)
    ensures Distinct(Insert(e, key, value).vars)
  {
    GetInsert(e.vars, key, Value(value), k);
    InsertDistinct(e.vars, key, Value(value));
  }

  /** After `insert_secret(k, s)`, `get(k)` is the masked secret s; other keys are unaffected. */
  lemma InsertSecretGet(e: Environment, key: string, secret: string, k: string)
    ensures Get(InsertSecret(e, key, secret), k) == if k == key then Some(Secret(secret, true)) else Get(e, k)
  {
    GetInsert(e.vars, key, Secret(secret, true), k);
  }

  /** After `insert_credentials(k, id, f)`, `get(k)` is the reference to id and f; other keys are unaffected. */
  lemma InsertCredentialsGet(e: Environment, key: string, id: string, field: string, k: string)
    ensures Get(InsertCredentials(e, key, id, field), k) == if k == key then Some(Credentials(id, field)) else Get(e, k)
  {
    GetInsert(e.vars, key, Credentials(id, field), k);
  }

  /** A new key adds one to the length; an existing key leaves it unchanged. */
  lemma InsertLen(e: Environment, key: string, value: string)
    ensures Len(Insert(e, key, value)) == if Get(e, key).Some? then Len(e) else Len(e) + 1
    ensures !IsEmpty(Insert(e, key, value))
  {
  }

  /** `Display for EnvVarValue`: a secret is hidden unless unmasked; references render in `${…}` form. */
  function Display(v: EnvVarValue): (s: string)
  {
    match v
    case Value(t) => t
    case Secret(value, masked) => if masked then "***" else value
    case Credentials(id, field) => "${credentialsId='" + id + "', field='" + field + "'}"
    case Expression(e) => "${" + e + "}"
  }

  /** A masked secret never shows its value: every masked secret renders the same. */
  lemma MaskedSecretHidden(a: string, b: string)
    ensures Display(Secret(a, true)) == Display(Secret(b, true)) == "***"
  {
  }

  /** The entries rendered as "k: v" pairs separated by ", ". */
  function DisplayEntries(vars: Entries<EnvVarValue>): string
  {
    if |vars| == 0 then ""
    else if |vars| == 1 then vars[0].0 + ": " + Display(vars[0].1)
    else vars[0].0 + ": " + Display(vars[0].1) + ", " + DisplayEntries(vars[1..])
  }

  /** `Display for Environment`: the entries in iteration order inside braces. */
  function DisplayEnvironment(e: Environment): (s: string)
    ensures |s| >= 2 && s[0] == '{' && s[|s| - 1] == '}'
    ensures IsEmpty(e) <==> s == "{}"
  {
    "{" + DisplayEntries(e.vars) + "}"
  }

  /** `VariableResolver for Environment`: the rendered value, so a masked secret resolves to "***". */
  function Resolve(e: Environment, name: string): (r: Option<string>)
    ensures r.Some? <==> Get(e, name).Some?
    ensures r.Some? ==> r.value == Display(Get(e, name).value)
  {
    match Get(e, name)
    case None => None
    case Some(v) => Some(Display(v))
  }

  /** `VariableResolver for HashMap<String, String>`: the stored string. */
  function ResolvePlain(m: Entries<string>, name: string): (r: Option<string>)
    ensures r == Assoc.Get(m, name)
  {
    Assoc.Get(m, name)
  }

  /** A plain map and the environment built from it resolve every name alike. */
  lemma ResolveFromMap(m: Entries<string>, name: string)
    ensures Resolve(FromMap(m), name) == ResolvePlain(m, name)
  {
    FromMapGet(m, name);
  }

  /** A plain value resolves to itself, a masked secret to "***". */
  lemma ResolveInserted(e: Environment, key: string, value: string, secret: string)
    ensures Resolve(Insert(e, key, value), key) == Some(value)
    ensures Resolve(InsertSecret(e, key, secret), key) == Some("***")
  {
    GetInsert(e.vars, key, Value(value), key);
    GetInsert(e.vars, key, Secret(secret, true), key);
  }
}
