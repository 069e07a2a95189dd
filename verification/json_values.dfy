/** Decoded JSON values, as `json.loads` hands them to the handlers, and the
    two Python built-ins the handlers apply to them: `len` and the
    iterability test. */
module JsonValues {
  import opened Outcomes

  /** A decoded JSON document. Numbers are exact reals; an object is a
      dictionary from key to value. */
  datatype Value =
    | Null
    | Bool(b: bool)
    | Num(x: real)
    | Str(s: string)
    | Arr(items: seq<Value>)
    | Obj(fields: map<string, Value>)

  /** `len(v)`: the number of characters of a string, of items of a list and of
      keys of a dictionary; `None` where Python raises `TypeError`. */
  function Len(v: Value): (r: Option<nat>)
    ensures r.Some? <==> Iterable(v)
    ensures v.Str? ==> r == Some(|v.s|)
    ensures v.Arr? ==> r == Some(|v.items|)
    ensures v.Obj? ==> r == Some(|v.fields|)
  {
    match v
    case Str(s) => Some(|s|)
    case Arr(items) => Some(|items|)
    case Obj(fields) => Some(|fields|)
    case _ => None
  }

  /** `np.iterable(v)`: strings, lists and dictionaries can be iterated;
      `null`, booleans and numbers cannot. Exactly the values with a length. */
  predicate Iterable(v: Value) {
    v.Str? || v.Arr? || v.Obj?
  }

  /** The items a `for` loop visits, in order: the list items, or the
      characters of a string as one-character strings. Iteration over a
      dictionary's keys is not modelled (its key order is not kept). */
  function Elements(v: Value): (r: Option<seq<Value>>)
    ensures r.Some? <==> (v.Str? || v.Arr?)
    ensures r.Some? ==> Len(v) == Some(|r.value|)
    ensures v.Arr? ==> r == Some(v.items)
    ensures v.Str? ==> forall i :: 0 <= i < |v.s| ==> r.value[i] == Str([v.s[i]])
  {
    match v
    case Arr(items) => Some(items)
    case Str(s) => Some(seq(|s|, i requires 0 <= i < |s| => Str([s[i]])))
    case _ => None
  }

  /** A list of numbers, as the handlers build them from Python floats. */
  function Numbers(xs: seq<real>): (r: Value)
    ensures r.Arr? && |r.items| == |xs|
    ensures forall i :: 0 <= i < |xs| ==> r.items[i] == Num(xs[i])
  {
    Arr(seq(|xs|, i requires 0 <= i < |xs| => Num(xs[i])))
  }
}
