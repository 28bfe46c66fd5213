/** Python dictionaries as the process pipeline uses them: string keys mapped to
    dynamically typed values, read with `dict.get`. */
module PyDict {

  /** The Python values that occur in a process record. `NoneV` is Python's `None`;
      a float (such as a process's creation time) is kept as a real, since nothing
      in the pipeline computes with it. */
  datatype Value = NoneV | IntV(i: int) | FloatV(f: real) | StrV(s: string)

  /** A Python `dict` with string keys. */
  type Record = map<string, Value>

  /** `d.get(key)`: the value stored under `key`, or `None` when the key is absent.
      A key present with value `None` and an absent key give the same answer. */
  function Get(d: Record, key: string): (v: Value)
    ensures key in d ==> v == d[key]
    ensures key !in d ==> v == NoneV
  {
    if key in d then d[key] else NoneV
  }

  /** Removing a key and storing `None` under it read the same through `Get`. */
  lemma GetAbsentIsNone(d: Record, key: string)
    ensures Get(d - {key}, key) == Get(d[key := NoneV], key) == NoneV
  {
  }
}
