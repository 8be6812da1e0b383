/** Serialisable values as they travel over the platform message channel,
    and the string-keyed hash map the adapters fill with `put`. */
module Values {

  /** A reference that may be null. */
  datatype Option<+T> = None | Some(value: T)

  /** A message-channel value: null, a number, a boolean, a string, a list or a
      string-keyed map. Numbers stand for the doubles the adapters send. */
  datatype Value =
    | VNull
    | VNum(n: int)
    | VBool(b: bool)
    | VStr(s: string)
    | VList(items: seq<Value>)
    | VMap(fields: map<string, Value>)

  /** A possibly-null string as a channel value. */
  function StrOrNull(s: Option<string>): Value
  {
    match s
    case None => VNull
    case Some(t) => VStr(t)
  }

  /** A `HashMap<String, Object>` that is filled in place. */
  class ValueMap {
    var entries: map<string, Value>

    constructor ()
      ensures entries == map[]
    {
      entries := map[];
    }

    /** `put`: binds `key` to `value`, replacing any earlier binding. */
    method Put(key: string, value: Value)
      modifies this
      ensures entries == old(entries)[key := value]
    {
      entries := entries[key := value];
    }
  }
}
