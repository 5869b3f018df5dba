/** An already-parsed JSON document, and the two Python operations the decode
    engine applies to such documents: subscripting (`container[key]`) and
    iteration (`for x in container`). Parsing the JSON text is not modelled. */
module Json {

  /** A value as Python's json decoder produces it: None, a bool, an integer,
      a string, a list or a dict with string keys. */
  datatype Json =
    | JNull
    | JBool(b: bool)
    | JNum(n: int)
    | JStr(s: string)
    | JArray(items: seq<Json>)
    | JObject(members: map<string, Json>)

  /** The Python exceptions the engine can raise. */
  datatype PyError =
    | KeyError(key: Json)
    | IndexError
    | TypeError
    /** Whatever a psycopg2 typecaster raises when it cannot convert `value`. */
    | AdapterError(value: Json)

  datatype Option<+T> = None | Some(value: T)

  /** The outcome of a Python expression: a value, or the exception it raises. */
  datatype Result<+T> = Ok(value: T) | Err(error: PyError) {
    predicate IsFailure() {
      Err?
    }

    function PropagateFailure<U>(): Result<U>
      requires Err?
    {
      Err(error)
    }

    function Extract(): T
      requires Ok?
    {
      value
    }
  }

  /** `isinstance(value, basestring)` */
  predicate IsString(v: Json) {
    v.JStr?
  }

  /** Lists and dicts cannot be dict keys. */
  predicate Hashable(k: Json) {
    !k.JArray? && !k.JObject?
  }

  /** The dict key a hashable value stands for: `True == 1` and `False == 0`
      hash alike, so a bool and the matching integer are the same key. */
  function HashKey(k: Json): (r: Json)
    ensures !r.JBool?
    ensures k.JBool? ==> r == JNum(if k.b then 1 else 0)
    ensures !k.JBool? ==> r == k
  {
    match k
    case JBool(b) => JNum(if b then 1 else 0)
    case _ => k
  }

  /** The integer a list or string index stands for, if the key is one. */
  function IndexOf(k: Json): Option<int> {
    match k
    case JNum(n) => Some(n)
    case JBool(b) => Some(if b then 1 else 0)
    case _ => None
  }

  /** Python's index normalisation: `-len <= i < len` is valid and negative
      indices count from the end. */
  function Position(i: int, len: nat): (r: Option<nat>)
    ensures r.Some? <==> -(len as int) <= i < len
    ensures r.Some? ==> r.value < len && (r.value == i || r.value == i + len)
  {
    if 0 <= i < len then Some(i) else if -(len as int) <= i < 0 then Some(i + len) else None
  }

  /** `container[key]` for a JSON value. */
  function Subscript(container: Json, key: Json): (r: Result<Json>)
    ensures r.Ok? && key.JStr? ==> container.JObject? && key.s in container.members
                                   && r.value == container.members[key.s]
    ensures container.JObject? && key.JStr? ==> (r.Ok? <==> key.s in container.members)
    ensures container.JObject? && key.JStr? && key.s !in container.members ==> r == Err(KeyError(key))
    ensures key.JStr? && !container.JObject? ==> r == Err(TypeError)
    ensures container.JArray? && IndexOf(key).Some? ==>
      match Position(IndexOf(key).value, |container.items|)
      case None => r == Err(IndexError)
      case Some(p) => r == Ok(container.items[p])
  {
    match container
    case JObject(m) =>
      if !Hashable(key) then Err(TypeError)
      else if key.JStr? && key.s in m then Ok(m[key.s])
      else Err(KeyError(key))
    case JArray(items) =>
      (match IndexOf(key)
       case None => Err(TypeError)
       case Some(i) =>
         (match Position(i, |items|)
          case None => Err(IndexError)
          case Some(p) => Ok(items[p])))
    case JStr(s) =>
      (match IndexOf(key)
       case None => Err(TypeError)
       case Some(i) =>
         (match Position(i, |s|)
          case None => Err(IndexError)
          case Some(p) => Ok(JStr([s[p]]))))
    case _ => Err(TypeError)
  }

  /** The elements `for x in container` visits. A list visits its items and a
      string its one-character strings. A dict visits its keys in an order the
      model does not fix, so only the empty dict is iterated; a non-empty one
      is reported as a TypeError. Numbers, bools and None are not iterable. */
  function Iterate(container: Json): (r: Result<seq<Json>>)
    ensures container.JArray? ==> r == Ok(container.items)
    ensures r.Ok? ==> container.JArray? || container.JStr? || container == JObject(map[])
    ensures r.Err? ==> r.error == TypeError
    ensures container.JStr? ==>
      && r.Ok? && |r.value| == |container.s|
      && forall i :: 0 <= i < |container.s| ==> r.value[i] == JStr([container.s[i]])
  {
    match container
    case JArray(items) => Ok(items)
    case JStr(s) => Ok(seq(|s|, i requires 0 <= i < |s| => JStr([s[i]])))
    case JObject(m) => if m == map[] then Ok([]) else Err(TypeError)
    case _ => Err(TypeError)
  }
}
