/** Engine option tables: Python dicts from option name to value, with
    insertion order, `dict.update` and the `str()` rendering of values. */
module Params {
  import opened PyTypes
  import opened PyStr

  /** The kinds of value the option tables hold: the defaults use `str` and
      `int`, and callers commonly pass `bool`. */
  datatype Value = Str(s: string) | Int(i: int) | Bool(b: bool)

  /** `str(v)`, which is also what `f"{v}"` and `"%s" % v` produce. */
  function Show(v: Value): (r: string)
    ensures v.Str? ==> r == v.s
    ensures v.Int? ==> ParseDecimal(r) == v.i
    ensures v.Bool? ==> r == (if v.b then "True" else "False")
  {
    match v
    case Str(s) => s
    case Int(i) => DecimalRoundTrip(i); Decimal(i)
    case Bool(b) => if b then "True" else "False"
  }

  /** A dict's items in insertion order. */
  type Items = seq<(string, Value)>

  /** A caller's optional dict: `None` means an empty one. */
  function CallerParams(params: Option<Items>): Items
  {
    if params.None? then [] else params.value
  }

  function Keys(items: Items): (r: seq<string>)
    ensures |r| == |items| && forall k :: 0 <= k < |items| ==> r[k] == items[k].0
  {
    if items == [] then [] else [items[0].0] + Keys(items[1..])
  }

  /** A dict never holds a key twice. */
  predicate KeysDistinct(items: Items) {
    forall i, j :: 0 <= i < j < |items| ==> items[i].0 != items[j].0
  }

  /** `d.get(key)`. */
  function Lookup(items: Items, key: string): (r: Option<Value>)
    ensures r.None? <==> key !in Keys(items)
    ensures r.Some? ==> exists k :: 0 <= k < |items| && items[k] == (key, r.value)
  {
    if items == [] then None
    else if items[0].0 == key then Some(items[0].1)
    else Lookup(items[1..], key)
  }

  /** `d[key] = value`: an existing key keeps its place and takes the new
      value; a new key goes at the end. */
  function Assign(items: Items, key: string, value: Value): Items
  {
    if items == [] then [(key, value)]
    else if items[0].0 == key then [(key, value)] + items[1..]
    else [items[0]] + Assign(items[1..], key, value)
  }

  /** `d.update(other)`: assign each of `other`'s items in its order. */
  function Updated(items: Items, other: Items): Items
    decreases |other|
  {
    if other == [] then items else Updated(Assign(items, other[0].0, other[0].1), other[1..])
  }

  /** The keys of `other` missing from `keys`, in `other`'s order, each once. */
  function NewKeys(keys: seq<string>, other: Items): seq<string>
    decreases |other|
  {
    if other == [] then []
    else if other[0].0 in keys then NewKeys(keys, other[1..])
    else [other[0].0] + NewKeys(keys + [other[0].0], other[1..])
  }

  lemma {:induction false} AssignKeys(items: Items, key: string, value: Value)
    ensures Keys(Assign(items, key, value)) ==
            if key in Keys(items) then Keys(items) else Keys(items) + [key]
  {
    if items != [] {
      AssignKeys(items[1..], key, value);
      assert Keys(items) == [items[0].0] + Keys(items[1..]);
      if items[0].0 != key {
        var rest := Assign(items[1..], key, value);
        assert ([items[0]] + rest)[1..] == rest;
      }
    }
  }

  lemma {:induction false} AssignLookup(items: Items, key: string, value: Value, k: string)
    ensures Lookup(Assign(items, key, value), k) == if k == key then Some(value) else Lookup(items, k)
  {
    if items != [] && items[0].0 != key {
      AssignLookup(items[1..], key, value, k);
      var rest := Assign(items[1..], key, value);
      assert ([items[0]] + rest)[1..] == rest;
    }
  }

  lemma AssignDistinct(items: Items, key: string, value: Value)
    requires KeysDistinct(items)
    ensures KeysDistinct(Assign(items, key, value))
  {
    AssignKeys(items, key, value);
    var r := Assign(items, key, value);
    var ks := Keys(r);
    forall i, j | 0 <= i < j < |r| ensures r[i].0 != r[j].0 {
      assert ks[i] == r[i].0 && ks[j] == r[j].0;
      if key !in Keys(items) && j == |items| {
        assert ks[i] == Keys(items)[i];
      } else {
        assert ks[i] == Keys(items)[i] && ks[j] == Keys(items)[j];
      }
    }
  }

  /** After `d.update(other)`, a key of `other` maps to `other`'s value and
      every other key keeps the value it had. */
  lemma {:induction false} UpdatedLookup(items: Items, other: Items, key: string)
    requires KeysDistinct(other)
    ensures Lookup(Updated(items, other), key) ==
            if key in Keys(other) then Lookup(other, key) else Lookup(items, key)
    decreases |other|
  {
    if other != [] {
      var next := Assign(items, other[0].0, other[0].1);
      assert KeysDistinct(other[1..]);
      UpdatedLookup(next, other[1..], key);
      AssignLookup(items, other[0].0, other[0].1, key);
      assert Keys(other) == [other[0].0] + Keys(other[1..]);
      if key == other[0].0 {
        assert key !in Keys(other[1..]);
      }
    }
  }

  /** `d.update(other)` keeps the existing keys in place and appends the new
      ones in `other`'s order. */
  lemma {:induction false} UpdatedKeys(items: Items, other: Items)
    ensures Keys(Updated(items, other)) == Keys(items) + NewKeys(Keys(items), other)
    decreases |other|
  {
    if other != [] {
      var (k, v) := other[0];
      var next := Assign(items, k, v);
      AssignKeys(items, k, v);
      UpdatedKeys(next, other[1..]);
      assert Updated(items, other) == Updated(next, other[1..]);
      if k in Keys(items) {
        assert NewKeys(Keys(items), other) == NewKeys(Keys(items), other[1..]);
      } else {
        var tail := NewKeys(Keys(items) + [k], other[1..]);
        assert NewKeys(Keys(items), other) == [k] + tail;
        assert Keys(items) + [k] + tail == Keys(items) + ([k] + tail);
      }
    }
  }

  /** `d.update(other)` still holds each key once. */
  lemma {:induction false} UpdatedDistinct(items: Items, other: Items)
    requires KeysDistinct(items)
    ensures KeysDistinct(Updated(items, other))
    decreases |other|
  {
    if other != [] {
      AssignDistinct(items, other[0].0, other[0].1);
      UpdatedDistinct(Assign(items, other[0].0, other[0].1), other[1..]);
    }
  }

  /** A dict shared by reference: `update` changes it in place, so every
      holder of the reference sees the change. */
  class ParamDict {
    var items: Items

    ghost predicate Valid()
      reads this
    {
      KeysDistinct(items)
    }

    constructor (init: Items)
      requires KeysDistinct(init)
      ensures Valid() && items == init
    {
      items := init;
    }

    /** `self.update(other)`. */
    method Update(other: Items)
      requires Valid()
      modifies this
      ensures Valid()
      ensures items == Updated(old(items), other)
    {
      UpdatedDistinct(items, other);
      items := Updated(items, other);
    }
  }
}
