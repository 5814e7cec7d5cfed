/**
 * The values `json.load` returns, and the two Python operations the collection
 * tools apply to them before knowing their shape: `key in value` and a `for`
 * loop over a value.
 */
module JsonValues {
  import opened Wrappers
  import opened Exceptions
  import opened Text

  /** A JSON value; numbers are kept as integers (the tools never look inside one). */
  datatype Json =
    | Null
    | Bool(b: bool)
    | Num(n: int)
    | Str(s: string)
    | Arr(elems: seq<Json>)
    | Obj(fields: map<string, Json>)

  /** Python's `key in value`: a key of a dict, an element of a list, a substring of a
      str; anything else is not a container and raises TypeError. */
  function Contains(value: Json, key: string): Result<bool, Error>
  {
    match value
    case Obj(fields) => Ok(key in fields)
    case Arr(elems) => Ok(Str(key) in elems)
    case Str(s) => Ok(IsSubstring(key, s))
    case _ => Err(TypeError)
  }

  /** The entries `for e in value` hands to a loop body that calls `e.get(...)`. A list
      gives its elements. An empty str or dict gives none. A non-empty str or dict gives
      strings, and the body's `.get` fails on the first one (AttributeError). A number,
      a boolean or null is not iterable (TypeError). */
  function LoopEntries(value: Json): Result<seq<Json>, Error>
  {
    match value
    case Arr(elems) => Ok(elems)
    case Str(s) => if s == "" then Ok([]) else Err(AttributeError)
    case Obj(fields) => if |fields| == 0 then Ok([]) else Err(AttributeError)
    case _ => Err(TypeError)
  }

  /** `entry.get(key) == Str(text)` for an entry that is a dict. */
  predicate FieldIs(entry: Json, key: string, text: string)
    requires entry.Obj?
  {
    key in entry.fields && entry.fields[key] == Str(text)
  }
}
