/**
 * The PHP values the components pass around: decoded JSON payloads, PHP's
 * truthiness (`empty()`), its string conversion and key lookup.
 */
module PhpValues {

  datatype Option<+T> = None | Some(value: T)

  /**
   * A decoded JSON value as PHP holds it. A number carries PHP's string form
   * of it (its `(string)` cast), which is all the components use of numbers.
   * An object keeps its entries in document order.
   */
  datatype Json =
    | Null
    | Bool(b: bool)
    | Num(lit: string)
    | Str(s: string)
    | List(items: seq<Json>)
    | Object(entries: seq<(string, Json)>)

  /** A PHP associative array with string keys, such as a decoded API response. */
  type Dict = map<string, Json>

  /**
   * PHP's string form of a number equal to zero: `0` for the integer and
   * the float zero, `-0` for the float negative zero.
   */
  predicate ZeroForm(lit: string)
  {
    lit == "0" || lit == "-0"
  }

  /**
   * PHP truthiness, the negation of `empty()`: null, false, 0, "", "0" and
   * the empty array are falsy.
   */
  predicate Truthy(j: Json)
  {
    match j
    case Null => false
    case Bool(b) => b
    case Num(lit) => lit != "0" && lit != ""
    case Str(s) => s != "" && s != "0"
    case List(items) => items != []
    case Object(entries) => entries != []
  }

  /** PHP `is_array`. */
  predicate IsArray(j: Json)
  {
    j.List? || j.Object?
  }

  /** PHP's `(string)` conversion; an array converts to "Array". */
  function StrForm(j: Json): string
  {
    match j
    case Null => ""
    case Bool(b) => if b then "1" else ""
    case Num(lit) => lit
    case Str(s) => s
    case List(_) => "Array"
    case Object(_) => "Array"
  }

  /** The element values of an array, in order; no elements for a non-array. */
  function Values(j: Json): seq<Json>
  {
    match j
    case List(items) => items
    case Object(entries) => seq(|entries|, i requires 0 <= i < |entries| => entries[i].1)
    case _ => []
  }

  /** The value of the first entry with key `key`, or Null when there is none. */
  function Lookup(entries: seq<(string, Json)>, key: string): (v: Json)
    ensures (forall i :: 0 <= i < |entries| ==> entries[i].0 != key) ==> v == Null
    ensures forall i ::
              (0 <= i < |entries| && entries[i].0 == key && forall j :: 0 <= j < i ==> entries[j].0 != key)
              ==> v == entries[i].1
  {
    if entries == [] then Null
    else if entries[0].0 == key then entries[0].1
    else Lookup(entries[1..], key)
  }

  /** `$j[$key]` for a non-numeric string key: only an object has one; Null otherwise. */
  function Field(j: Json, key: string): Json
  {
    if j.Object? then Lookup(j.entries, key) else Null
  }

  /** `isset($d[$k])`: present and not null. */
  predicate IsSet(d: Dict, k: string)
  {
    k in d && !d[k].Null?
  }

  /** `(array)$o` for a decoded object: its entries as a dictionary; empty for anything else. */
  function ToDict(j: Json): (d: Dict)
    ensures j.Object? ==> forall k :: k in d <==> exists i :: 0 <= i < |j.entries| && j.entries[i].0 == k
    ensures forall k :: k in d ==> d[k] == Field(j, k)
  {
    if j.Object? then map k | k in (set i | 0 <= i < |j.entries| :: j.entries[i].0) :: Lookup(j.entries, k)
    else map[]
  }
}
