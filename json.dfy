/** Python-side values the screener passes around: decoded JSON documents,
    the outcome of a Python call (a value or an escaping exception), and the
    JSON codec (json.loads / json.dumps), which is foreign and therefore
    supplied from outside as a pair of functions. */
module Json {

  /** A decoded JSON document. Objects are dictionaries from key to value;
      the insertion order Python keeps in a dict is not represented. */
  datatype Value =
    | Null
    | Bool(b: bool)
    | Num(n: int)
    | Str(s: string)
    | Arr(items: seq<Value>)
    | Obj(fields: map<string, Value>)

  datatype Option<+T> = None | Some(value: T)

  /** How a Python call ends: it returns a value, or it raises an exception
      whose str() is `msg`. */
  datatype Outcome<+T> = Returned(value: T) | Raised(msg: string)

  /** What json.loads gives: a document, or a decoding error message. */
  datatype Parsed = Parsed(value: Value) | Malformed(msg: string)

  /** json.loads and json.dumps, as the foreign functions they are. */
  datatype Codec = Codec(loads: string -> Parsed, dumps: Value -> string)

  /** The only facts about the codec the screener relies on: decoding what
      was encoded gives the document back, and an encoding is never the empty
      string (JSON text has at least one character). */
  ghost predicate RoundTrips(codec: Codec)
  {
    forall v :: codec.loads(codec.dumps(v)) == Parsed(v) && codec.dumps(v) != ""
  }

  /** The message of the TypeError Python raises for `target[key] = item`
      with a string key when `target` is not a dict. */
  function ItemAssignmentError(target: Value): string
    requires !target.Obj?
  {
    match target
    case Arr(_) => "list indices must be integers or slices, not str"
    case Str(_) => "'str' object does not support item assignment"
    case Num(_) => "'int' object does not support item assignment"
    case Bool(_) => "'bool' object does not support item assignment"
    case Null => "'NoneType' object does not support item assignment"
  }

  /** Python's `target[key] = item` on a decoded document, seen as producing
      the updated document: only a dict accepts it; the key is added or
      overwritten and every other entry is kept. */
  function SetItem(target: Value, key: string, item: Value): (r: Outcome<Value>)
    ensures r.Returned? <==> target.Obj?
    ensures r.Returned? ==>
      r.value.Obj? && r.value.fields.Keys == target.fields.Keys + {key} &&
      r.value.fields[key] == item &&
      forall k :: k in target.fields && k != key ==> r.value.fields[k] == target.fields[k]
    ensures r.Raised? ==> r.msg == ItemAssignmentError(target)
  {
    if target.Obj? then Returned(Obj(target.fields[key := item]))
    else Raised(ItemAssignmentError(target))
  }

  /** The answer of an HTTP handler: a status code and a JSON body. */
  datatype Response = Response(status: int, body: Value)

  /** The dictionary `{"error": msg}`. */
  function ErrorRecord(msg: string): Value
  {
    Obj(map["error" := Str(msg)])
  }
}
