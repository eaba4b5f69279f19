/**
 * The values that travel over the React Native bridge: a serialized face is a
 * keyed record whose entries are integers, doubles, strings, nested records
 * or arrays of values.
 */
module Bridge {

  /** One entry of a bridge map or array. A Java `double` is idealised as `real`. */
  datatype Value =
    | IntV(i: int)
    | RealV(r: real)
    | StrV(s: string)
    | MapV(m: map<string, Value>)
    | ArrayV(a: seq<Value>)

  /** A record that holds a double under `key`, as `getDouble(key)` demands. */
  predicate HasReal(m: map<string, Value>, key: string)
  {
    key in m && m[key].RealV?
  }

  /** A record that holds a nested record under `key`, as `getMap(key)` demands. */
  predicate HasMap(m: map<string, Value>, key: string)
  {
    key in m && m[key].MapV?
  }

  /**
   * A bridge map that is updated in place: callers that hold the same object
   * see every `put` made through it.
   */
  class WritableMap {
    var entries: map<string, Value>

    constructor (entries: map<string, Value>)
      ensures this.entries == entries
    {
      this.entries := entries;
    }
  }
}
