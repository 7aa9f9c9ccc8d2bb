/**
 * Decoded JSON payloads (what `json.loads` and the live-room client hand
 * over as Python values) and the exceptions that reading them can raise.
 * Floating-point numbers are not represented.
 */
module JsonValue {
  import opened Wrappers
  import opened PyStr
  import PyDict

  datatype Json =
    | Null
    | Bool(b: bool)
    | Int(i: int)
    | Str(s: string)
    | Arr(items: seq<Json>)
    | Obj(fields: PyDict.Dict<string, Json>)

  /** The Python exceptions the modelled code raises or catches. */
  datatype PyError =
    | KeyError
    | IndexError
    | TypeError
    | ValueError
    | AttributeError
    | AssertionError
    /** pydantic's `ValidationError`. */
    | ValidationError
    | NameError
    | RuntimeError(message: string)
    | HttpStatusError(status: int)
    | NetworkError
    /** `OSError`, which PyAudio raises when a write to the output stream fails. */
    | OSError

  type Res<T> = Result<T, PyError>

  /** Python truthiness: `None`, `False`, `0` and empty containers are false. */
  predicate Truthy(j: Json) {
    match j
    case Null => false
    case Bool(b) => b
    case Int(i) => i != 0
    case Str(s) => s != []
    case Arr(items) => items != []
    case Obj(fields) => fields != []
  }

  /** `j[k]` with a string key. */
  function Key(j: Json, k: string): (r: Res<Json>)
    ensures r.Ok? <==> j.Obj? && k in PyDict.Keys(j.fields)
    ensures j.Obj? && r.Err? ==> r.error == KeyError
  {
    match j
    case Obj(fields) =>
      var v := PyDict.Lookup(fields, k);
      if v.Some? then Ok(v.value) else Err(KeyError)
    case _ => Err(TypeError)
  }

  /** `j[i]` with an integer index; negative indices count from the end of a list. */
  function At(j: Json, i: int): (r: Res<Json>)
    ensures j.Arr? && 0 <= i < |j.items| ==> r == Ok(j.items[i])
    ensures j.Arr? && -|j.items| <= i < 0 ==> r == Ok(j.items[|j.items| + i])
    ensures j.Arr? && !(-|j.items| <= i < |j.items|) ==> r == Err(IndexError)
  {
    match j
    case Arr(items) =>
      if 0 <= i < |items| then Ok(items[i])
      else if -|items| <= i < 0 then Ok(items[|items| + i])
      else Err(IndexError)
    case Str(s) =>
      if 0 <= i < |s| then Ok(Str([s[i]]))
      else if -|s| <= i < 0 then Ok(Str([s[|s| + i]]))
      else Err(IndexError)
    case Obj(_) => Err(KeyError)
    case _ => Err(TypeError)
  }

  /** `j.get(k, default)`: only dictionaries have `get`. */
  function Get(j: Json, k: string, default: Json): (r: Res<Json>)
    ensures r.Ok? <==> j.Obj?
    ensures j.Obj? && k !in PyDict.Keys(j.fields) ==> r == Ok(default)
    ensures j.Obj? && k in PyDict.Keys(j.fields) ==> r == Key(j, k)
  {
    match j
    case Obj(fields) =>
      var v := PyDict.Lookup(fields, k);
      if v.Some? then Ok(v.value) else Ok(default)
    case _ => Err(AttributeError)
  }

  /** `k in j`: a key of a dict, an element of a list, a substring of a str. */
  function In(k: string, j: Json): (r: Res<bool>)
    ensures j.Obj? ==> r == Ok(k in PyDict.Keys(j.fields))
    ensures j.Arr? ==> r == Ok(Str(k) in j.items)
    ensures r.Err? <==> !(j.Obj? || j.Arr? || j.Str?)
  {
    match j
    case Obj(fields) => Ok(k in PyDict.Keys(fields))
    case Arr(items) => Ok(Str(k) in items)
    case Str(s) => Ok(Contains(s, k))
    case _ => Err(TypeError)
  }

  /** `int(j)`: integers as they are, booleans as 0/1, strings parsed, anything else a TypeError. */
  function ToInt(j: Json): (r: Res<int>)
    ensures j.Int? ==> r == Ok(j.i)
    ensures j.Str? && IsDigits(j.s) ==> r == Ok(DigitsValue(j.s))
    ensures j.Str? && r.Err? ==> r.error == ValueError
    ensures (j.Null? || j.Arr? || j.Obj?) ==> r == Err(TypeError)
  {
    match j
    case Int(i) => Ok(i)
    case Bool(b) => Ok(if b then 1 else 0)
    case Str(s) =>
      var v := ParseInt(s);
      if v.Some? then Ok(v.value) else Err(ValueError)
    case _ => Err(TypeError)
  }

  /** A value stored into a `str` field; anything but a string is a TypeError. */
  function AsStr(j: Json): (r: Res<string>)
    ensures r.Ok? <==> j.Str?
  {
    if j.Str? then Ok(j.s) else Err(TypeError)
  }

  /** A value stored into an `int` field; a bool counts as an int, as in Python. */
  function AsInt(j: Json): (r: Res<int>)
    ensures r.Ok? <==> j.Int? || j.Bool?
  {
    match j
    case Int(i) => Ok(i)
    case Bool(b) => Ok(if b then 1 else 0)
    case _ => Err(TypeError)
  }

  /** One subscript in a chain such as `event["data"]["info"][0]`. */
  datatype Step = K(key: string) | I(index: int)

  /** Applying a chain of subscripts left to right; the first failing one decides the error. */
  function Path(j: Json, p: seq<Step>): Res<Json>
    decreases |p|
  {
    if p == [] then Ok(j)
    else
      var next :- if p[0].K? then Key(j, p[0].key) else At(j, p[0].index);
      Path(next, p[1..])
  }

  /**
   * `for x in j`: the items of a list, the one-character strings of a str,
   * the keys of a dict; anything else is not iterable.
   */
  function Iter(j: Json): (r: Res<seq<Json>>)
    ensures j.Arr? ==> r == Ok(j.items)
    ensures r.Err? <==> !(j.Arr? || j.Str? || j.Obj?)
    ensures j.Obj? ==> r.Ok? && |r.value| == |j.fields|
    ensures j.Obj? ==> forall i :: 0 <= i < |j.fields| ==> r.value[i] == Str(j.fields[i].0)
  {
    match j
    case Arr(items) => Ok(items)
    case Str(s) => Ok(seq(|s|, i requires 0 <= i < |s| => Str([s[i]])))
    case Obj(fields) => Ok(seq(|fields|, i requires 0 <= i < |fields| => Str(fields[i].0)))
    case _ => Err(TypeError)
  }

  /**
   * `str(j)`: a string as it is, anything else as its `repr`.  String
   * elements are quoted with single quotes; Python's escaping of quotes
   * and special characters is not modelled.
   */
  function StrOf(j: Json): (r: string)
    ensures j.Str? ==> r == j.s
    ensures j.Int? ==> r == IntToString(j.i)
  {
    if j.Str? then j.s else ReprOf(j)
  }

  function ReprOf(j: Json): string
    decreases j, 1, 0
  {
    match j
    case Null => "None"
    case Bool(b) => if b then "True" else "False"
    case Int(i) => IntToString(i)
    case Str(s) => "'" + s + "'"
    case Arr(items) => "[" + ReprItems(items, j) + "]"
    case Obj(fields) => "{" + ReprFields(fields, j) + "}"
  }

  function ReprItems(xs: seq<Json>, ghost owner: Json): string
    requires forall x :: x in xs ==> x < owner
    decreases owner, 0, |xs|
  {
    if xs == [] then ""
    else
      assert xs[0] in xs;
      assert forall x :: x in xs[1..] ==> x in xs;
      ReprOf(xs[0]) + (if |xs| == 1 then "" else ", " + ReprItems(xs[1..], owner))
  }

  function ReprFields(fs: PyDict.Dict<string, Json>, ghost owner: Json): string
    requires forall p :: p in fs ==> p.1 < owner
    decreases owner, 0, |fs|
  {
    if fs == [] then ""
    else "'" + fs[0].0 + "': " + ReprOf(fs[0].1) + (if |fs| == 1 then "" else ", " + ReprFields(fs[1..], owner))
  }
}

