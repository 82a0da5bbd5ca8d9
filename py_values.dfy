/**
 * The Python values and exceptions that the task-spec resolution of
 * trainer.py works with.  Command-line flags, environment variables and the
 * parsed TF_CONFIG document all reach the TaskSpec constructor as Python
 * values; this module names those values, their truth value (`if x`, `x or y`)
 * and the three lookups the code performs on them (`d[k]`, `d.get(k, v)` and
 * `os.environ[k]` / `os.environ.get(k, v)`).
 */
module PyValues {

  /** A Python value as produced by argparse, os.environ or json.loads
      (JSON floats are not modelled). */
  datatype Value =
    | Null
    | Bool(b: bool)
    | Int(i: int)
    | Str(s: string)
    | List(items: seq<Value>)
    | Dict(entries: map<string, Value>)

  /** The exceptions the resolution code can raise. */
  datatype Error =
    | KeyError(key: string)         // a dict or os.environ lacks the key
    | NotSubscriptable              // TypeError: `v[key]` on a value that is not a dict
    | EnvKeyNotString               // TypeError: os.environ looked up with a non-string key
    | AttributeError(name: string)  // the value has no such method or attribute
    | JsonDecodeError               // TF_CONFIG is not valid JSON

  /** The outcome of a Python expression: its value, or the exception it raises. */
  datatype Result<+T> = Ok(value: T) | Err(error: Error) {
    predicate IsFailure() {
      Err?
    }

    function PropagateFailure<U>(): Result<U>
      requires Err?
    {
      Err(error)
    }

    function Extract(): T
      requires Ok?
    {
      value
    }
  }

  /** The outcome of a Python statement that returns nothing. */
  datatype Outcome = Pass | Fail(error: Error)

  datatype Option<+T> = None | Some(value: T)

  /** Python's truth value: None, False, 0, "", [] and {} are false. */
  predicate Truthy(v: Value) {
    match v
    case Null => false
    case Bool(b) => b
    case Int(i) => i != 0
    case Str(s) => s != ""
    case List(items) => items != []
    case Dict(entries) => entries != map[]
  }

  /** `a or b`: the first operand when it is true, the second otherwise.  The
      result is one of the operands, and it is true exactly when one of them is. */
  function Or(a: Value, b: Value): (r: Value)
    ensures r == a || r == b
    ensures Truthy(r) <==> Truthy(a) || Truthy(b)
    ensures Truthy(a) ==> r == a
    ensures !Truthy(a) ==> r == b
  {
    if Truthy(a) then a else b
  }

  /** `v[key]` with a string key. */
  function Subscript(v: Value, key: string): (r: Result<Value>)
    ensures r.Ok? <==> v.Dict? && key in v.entries
    ensures r.Ok? ==> r.value == v.entries[key]
    ensures v.Dict? && key !in v.entries ==> r == Err(KeyError(key))
    ensures !v.Dict? ==> r == Err(NotSubscriptable)
  {
    match v
    case Dict(entries) => if key in entries then Ok(entries[key]) else Err(KeyError(key))
    case _ => Err(NotSubscriptable)
  }

  /** `v.get(key, default)`: only a dict has a `get` method. */
  function Get(v: Value, key: string, default: Value): (r: Result<Value>)
    ensures r.Ok? <==> v.Dict?
    ensures v.Dict? && key in v.entries ==> r == Ok(v.entries[key])
    ensures v.Dict? && key !in v.entries ==> r == Ok(default)
    ensures !v.Dict? ==> r == Err(AttributeError("get"))
  {
    match v
    case Dict(entries) => Ok(if key in entries then entries[key] else default)
    case _ => Err(AttributeError("get"))
  }

  /** On a dict, `v.get(key, default)` is `v[key]` with its KeyError turned
      into the default; on anything else the two fail differently. */
  lemma GetIsSubscriptWithDefault(v: Value, key: string, default: Value)
    ensures v.Dict? ==> Get(v, key, default) == (if Subscript(v, key).Ok? then Subscript(v, key) else Ok(default))
    ensures v.Dict? && Subscript(v, key).Err? ==> Subscript(v, key).error == KeyError(key)
    ensures !v.Dict? ==> Subscript(v, key).Err? && Get(v, key, default).Err?
  {
  }

  /** The process environment: variable names to their string values. */
  type Environment = map<string, string>

  /** `os.environ[key]`: os.environ encodes its key first, which fails for
      anything but a string, and then raises KeyError for a missing one. */
  function EnvironItem(env: Environment, key: Value): (r: Result<Value>)
    ensures r.Ok? <==> key.Str? && key.s in env
    ensures r.Ok? ==> r.value == Str(env[key.s])
    ensures key.Str? && key.s !in env ==> r == Err(KeyError(key.s))
    ensures !key.Str? ==> r == Err(EnvKeyNotString)
  {
    match key
    case Str(name) => if name in env then Ok(Str(env[name])) else Err(KeyError(name))
    case _ => Err(EnvKeyNotString)
  }

  /** `os.environ.get(key, default)`: the mapping's `get` only catches the
      KeyError of a missing key, so the TypeError of a non-string key escapes. */
  function EnvironGet(env: Environment, key: Value, default: Value): (r: Result<Value>)
    ensures r.Ok? <==> key.Str?
    ensures key.Str? && key.s in env ==> r == Ok(Str(env[key.s]))
    ensures key.Str? && key.s !in env ==> r == Ok(default)
    ensures !key.Str? ==> r == Err(EnvKeyNotString)
  {
    match EnvironItem(env, key)
    case Ok(v) => Ok(v)
    case Err(e) => if e.KeyError? then Ok(default) else Err(e)
  }
}
