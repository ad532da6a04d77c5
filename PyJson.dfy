/**
  The Python values the bridge handles: what `json.loads` returns, the exceptions
  the ingestion code can raise, and the three Python operations it applies to
  JSON values (`x[key]`, `for e in x`, `float(x)`).
 */
module PyJson {

  datatype Option<T> = None | Some(value: T)

  /** A value as `json.loads` returns it. An object is a Python dict: `fields`
      maps each key to its value and `keys` lists the keys in insertion order,
      the order in which iterating the dict yields them. Numbers are opaque:
      the bridge only carries them. */
  datatype Json =
    | Obj(keys: seq<string>, fields: map<string, Json>)
    | Arr(items: seq<Json>)
    | Str(s: string)
    | Num(x: real)
    | Bool(b: bool)
    | Null

  /** The Python type of a JSON value, as a TypeError names it. */
  datatype PyType = DictType | ListType | StrType | NumberType | BoolType | NoneType

  /** Why a ValueError was raised: `float` rejected a string, or `store_msg`
      was given data that is not a dict ("Wrong data, must be dictionary"). */
  datatype ValueProblem = NotANumber | WrongData

  /** The exceptions that can leave the ingestion code. */
  datatype Exc =
    | KeyError(key: string)
    | TypeError(operand: PyType)
    | ValueError(problem: ValueProblem)
    | UnboundLocalError(name: string)
    | WriteError   // a failure of the database client other than a connection error

  /** A value, or the exception raised instead of producing it. */
  datatype Result<T> = Ok(value: T) | Raise(error: Exc)

  /** Normal completion of a statement sequence, or the exception that ended it. */
  datatype Outcome = Pass | Fail(error: Exc)

  /** The bytes of a message payload. */
  type Payload = seq<bv8>

  /** The Python type of a value. */
  function TypeOf(x: Json): PyType {
    match x
    case Obj(_, _) => DictType
    case Arr(_) => ListType
    case Str(_) => StrType
    case Num(_) => NumberType
    case Bool(_) => BoolType
    case Null => NoneType
  }

  /** `x[key]` with a string key: a dict yields the stored value or raises
      KeyError; every other JSON value raises TypeError. */
  function Subscript(x: Json, key: string): (r: Result<Json>)
    ensures r.Ok? <==> x.Obj? && key in x.fields
    ensures r.Ok? ==> r.value == x.fields[key]
    ensures r.Raise? && x.Obj? ==> r.error == KeyError(key)
    ensures !x.Obj? ==> r == Raise(TypeError(TypeOf(x)))
  {
    if !x.Obj? then Raise(TypeError(TypeOf(x)))
    else if key in x.fields then Ok(x.fields[key])
    else Raise(KeyError(key))
  }

  /** The elements `for e in x` visits: a list's items, a dict's keys, a string's
      one-character strings; numbers, booleans and None are not iterable. */
  function Iterate(x: Json): (r: Result<seq<Json>>)
    ensures r.Ok? <==> x.Arr? || x.Obj? || x.Str?
    ensures x.Arr? ==> r == Ok(x.items)
    ensures x.Obj? ==> |r.value| == |x.keys|
    ensures x.Obj? ==> forall i :: 0 <= i < |x.keys| ==> r.value[i] == Str(x.keys[i])
    ensures x.Str? ==> |r.value| == |x.s|
    ensures x.Str? ==> forall i :: 0 <= i < |x.s| ==> r.value[i] == Str([x.s[i]])
    ensures r.Raise? ==> r.error == TypeError(TypeOf(x))
  {
    match x
    case Arr(items) => Ok(items)
    case Obj(keys, _) => Ok(seq(|keys|, i requires 0 <= i < |keys| => Str(keys[i])))
    case Str(s) => Ok(seq(|s|, i requires 0 <= i < |s| => Str([s[i]])))
    case _ => Raise(TypeError(TypeOf(x)))
  }

  /** `float(x)`: numbers are carried, booleans become 1.0 and 0.0, strings go
      through the numeric parser `parse` (None when it rejects the text, which
      Python reports as ValueError); None, lists and dicts raise TypeError. */
  function Float(x: Json, parse: string -> Option<real>): (r: Result<real>)
    ensures x.Num? ==> r == Ok(x.x)
    ensures x.Bool? ==> r == Ok(if x.b then 1.0 else 0.0)
    ensures x.Str? ==> (r.Ok? <==> parse(x.s).Some?) && (r.Ok? ==> r.value == parse(x.s).value)
    ensures x.Str? && r.Raise? ==> r.error == ValueError(NotANumber)
    ensures x.Null? || x.Arr? || x.Obj? ==> r == Raise(TypeError(TypeOf(x)))
  {
    match x
    case Num(v) => Ok(v)
    case Bool(b) => Ok(if b then 1.0 else 0.0)
    case Str(s) =>
      (match parse(s)
       case Some(v) => Ok(v)
       case None => Raise(ValueError(NotANumber)))
    case _ => Raise(TypeError(TypeOf(x)))
  }
}
