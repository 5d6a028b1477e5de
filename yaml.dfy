/** Parsed YAML documents as the Python program sees them (None, bool, str,
    list and str-keyed dict), the Python operations the discovery code applies
    to them, and the ways such an operation can end the run. */
module Yaml {
  import opened Dicts
  import Text

  datatype Value =
    | Null
    | Bool(b: bool)
    | Str(s: string)
    | List(items: seq<Value>)
    | Mapping(entries: Dict<Value>)

  /** How a call ends instead of returning: `sys.exit(status)`, an
      `Exception(message)` raised in debug mode, an exception the Python runtime
      raises on ill-shaped data (TypeError, AttributeError, KeyError, a file that
      cannot be opened), or behaviour this model does not describe (Python's
      `str()` of a list or dict, a non-string group name, `dict.update` with a
      list of pairs). */
  datatype Halt =
    | Exit(status: int)
    | Raised(message: string)
    | PythonError
    | Unsupported

  datatype Option<T> = None | Some(value: T)

  datatype Result<T> = Ok(value: T) | Err(halt: Halt) {
    predicate IsFailure() {
      Err?
    }

    function PropagateFailure<U>(): Result<U>
      requires Err?
    {
      Err(halt)
    }

    function Extract(): T
      requires Ok?
    {
      value
    }
  }

  /** Python truthiness: None, False, "", [] and {} are false. */
  predicate Truthy(v: Value) {
    match v
    case Null => false
    case Bool(b) => b
    case Str(s) => s != ""
    case List(xs) => xs != []
    case Mapping(e) => e != []
  }

  /** Python's `key in v`: a key of a dict, an element of a list, a substring
      of a string; a TypeError on None and bool. */
  function PyIn(key: string, v: Value): Result<bool> {
    match v
    case Mapping(e) => Ok(Has(e, key))
    case List(xs) => Ok(Str(key) in xs)
    case Str(s) => Ok(Text.Contains(s, key))
    case _ => Err(PythonError)
  }

  function StrValues(ss: seq<string>): seq<Value> {
    seq(|ss|, i requires 0 <= i < |ss| => Str(ss[i]))
  }

  /** What `for x in v` visits: list elements, dict keys, one-character
      strings; a TypeError on None and bool. */
  function Iterate(v: Value): Result<seq<Value>> {
    match v
    case List(xs) => Ok(xs)
    case Mapping(e) => Ok(StrValues(Keys(e)))
    case Str(s) => Ok(seq(|s|, i requires 0 <= i < |s| => Str([s[i]])))
    case _ => Err(PythonError)
  }

  /** Python's `str(v)` for scalars; lists and dicts are outside the model. */
  function Render(v: Value): Result<string> {
    match v
    case Null => Ok("None")
    case Bool(b) => Ok(if b then "True" else "False")
    case Str(s) => Ok(s)
    case _ => Err(Unsupported)
  }

  predicate AllStr(vs: seq<Value>) {
    forall i :: 0 <= i < |vs| ==> vs[i].Str?
  }

  function Strings(vs: seq<Value>): (ss: seq<string>)
    requires AllStr(vs)
  {
    seq(|vs|, i requires 0 <= i < |vs| => vs[i].s)
  }

  /** Python's `target += operand` on a value stored in a dict: a list is
      extended with whatever iterating `operand` visits, a string is
      concatenated with a string, anything else is a TypeError. */
  function PlusAssign(target: Value, operand: Value): Result<Value> {
    match target
    case List(xs) =>
      var ys :- Iterate(operand);
      Ok(List(xs + ys))
    case Str(a) =>
      if operand.Str? then Ok(Str(a + operand.s)) else Err(PythonError)
    case _ => Err(PythonError)
  }

  /** The assignments `d.update(e)` performs, in `e`'s order. */
  function PutAll(d: Dict<Value>, e: Dict<Value>): Dict<Value>
    decreases |e|
  {
    if |e| == 0 then d else PutAll(Put(d, e[0].0, e[0].1), e[1..])
  }

  /** `d.update(e)` reads every key of `e` from `e` and every other key from
      `d`: the keys of the later mapping win. */
  lemma {:induction false} PutAllGet(d: Dict<Value>, e: Dict<Value>, k: string, default: Value)
    requires UniqueKeys(e)
    ensures GetOr(PutAll(d, e), k, default) == if Has(e, k) then Get(e, k) else GetOr(d, k, default)
    decreases |e|
  {
    if |e| > 0 {
      assert UniqueKeys(e[1..]);
      PutAllGet(Put(d, e[0].0, e[0].1), e[1..], k, default);
      GetOrPut(d, e[0].0, e[0].1, k, default);
    }
  }

  /** `target.update(arg)` for a dict `target`. Updating from a dict merges it,
      from an empty list or string changes nothing; other arguments raise, and
      a non-empty list of pairs is outside the model. */
  function UpdateWith(target: Value, arg: Value): Result<Value> {
    if !target.Mapping? then Err(PythonError)
    else match arg
      case Mapping(e) => Ok(Mapping(PutAll(target.entries, e)))
      case List(xs) => if xs == [] then Ok(target) else Err(Unsupported)
      case Str(s) => if s == "" then Ok(target) else Err(PythonError)
      case _ => Err(PythonError)
  }
}
