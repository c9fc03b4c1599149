/** A Firebase Realtime Database snapshot as a value, and the typed reads the
  * view models make on it (`child(key).getValue(T::class.java)`). A read
  * either finds nothing (`null`), finds a value of the requested type, or
  * finds a value of another type, where Firebase's mapper throws. */
module Snapshot {
  import opened Common

  /** A JSON node: integral numbers and fractional numbers are distinct, as in
    * the data the mapper receives (`Long` versus `Double`). */
  datatype Value =
    | Str(s: string)
    | Num(n: int)
    | Dbl(d: real)
    | Bool(b: bool)
    | Tree(children: seq<Entry>)

  /** One child of a node: its key and its value, in snapshot order. */
  datatype Entry = Entry(key: string, value: Value)

  /** The outcome of a typed read. */
  datatype Read<T> = Absent | Found(value: T) | Thrown

  /** The children of a node (`snapshot.children`); a leaf has none. */
  function Children(v: Value): (r: seq<Entry>)
    ensures !v.Tree? ==> r == []
  {
    if v.Tree? then v.children else []
  }

  /** `snapshot.child(key)`: the child stored under `key`, if any. */
  function Child(v: Value, key: string): (r: Option<Value>)
  {
    Lookup(Children(v), key)
  }

  function Lookup(es: seq<Entry>, key: string): (r: Option<Value>)
  {
    if es == [] then None
    else if es[0].key == key then Some(es[0].value)
    else Lookup(es[1..], key)
  }

  /** The child found is the first one stored under the key. */
  lemma {:induction false} LookupFirst(es: seq<Entry>, i: nat, key: string)
    requires i < |es| && es[i].key == key
    requires forall j :: 0 <= j < i ==> es[j].key != key
    ensures Lookup(es, key) == Some(es[i].value)
  {
    if i > 0 {
      LookupFirst(es[1..], i - 1, key);
    }
  }

  /** No child is found under a key no child has. */
  lemma {:induction false} LookupMissing(es: seq<Entry>, key: string)
    requires forall j :: 0 <= j < |es| ==> es[j].key != key
    ensures Lookup(es, key) == None
  {
    if es != [] {
      LookupMissing(es[1..], key);
    }
  }

  /** `child(key).setValue(x)`: the first child under `key` is replaced, or
    * one is added at the end; a leaf becomes a node. */
  function SetChild(v: Value, key: string, x: Value): (r: Value)
  {
    Tree(Replace(Children(v), key, x))
  }

  function Replace(es: seq<Entry>, key: string, x: Value): (r: seq<Entry>)
  {
    if es == [] then [Entry(key, x)]
    else if es[0].key == key then [Entry(key, x)] + es[1..]
    else [es[0]] + Replace(es[1..], key, x)
  }

  /** After a write, the key holds the value written and every other key
    * holds what it held. */
  lemma {:induction false} LookupReplace(es: seq<Entry>, key: string, x: Value, other: string)
    ensures Lookup(Replace(es, key, x), key) == Some(x)
    ensures other != key ==> Lookup(Replace(es, key, x), other) == Lookup(es, other)
  {
    if es != [] && es[0].key != key {
      LookupReplace(es[1..], key, x, other);
    }
  }

  /** `child(key).removeValue()`. */
  function RemoveChild(v: Value, key: string): (r: Value)
  {
    Tree(Without(Children(v), key))
  }

  function Without(es: seq<Entry>, key: string): (r: seq<Entry>)
  {
    if es == [] then []
    else if es[0].key == key then Without(es[1..], key)
    else [es[0]] + Without(es[1..], key)
  }

  /** After a removal the key is gone and every other key holds what it held. */
  lemma {:induction false} LookupWithout(es: seq<Entry>, key: string, other: string)
    ensures Lookup(Without(es, key), key) == None
    ensures other != key ==> Lookup(Without(es, key), other) == Lookup(es, other)
  {
    if es != [] {
      LookupWithout(es[1..], key, other);
    }
  }

  /** `updateChildren(map)`: each entry written in turn under the node. */
  function UpdateChildren(v: Value, es: seq<Entry>): (r: Value)
    decreases |es|
  {
    if es == [] then v else UpdateChildren(SetChild(v, es[0].key, es[0].value), es[1..])
  }

  /** Keys the update does not name keep their children. */
  lemma {:induction false} UpdateChildrenOther(v: Value, es: seq<Entry>, key: string)
    requires forall i :: 0 <= i < |es| ==> es[i].key != key
    ensures Child(UpdateChildren(v, es), key) == Child(v, key)
    decreases |es|
  {
    if es != [] {
      LookupReplace(Children(v), es[0].key, es[0].value, key);
      UpdateChildrenOther(SetChild(v, es[0].key, es[0].value), es[1..], key);
    }
  }

  /** A key the update names holds the last value written under it. */
  lemma {:induction false} UpdateChildrenWritten(v: Value, es: seq<Entry>, i: nat)
    requires i < |es|
    requires forall j :: i < j < |es| ==> es[j].key != es[i].key
    ensures Child(UpdateChildren(v, es), es[i].key) == Some(es[i].value)
    decreases |es|
  {
    var v' := SetChild(v, es[0].key, es[0].value);
    if i == 0 {
      LookupReplace(Children(v), es[0].key, es[0].value, es[0].key);
      UpdateChildrenOther(v', es[1..], es[0].key);
    } else {
      UpdateChildrenWritten(v', es[1..], i - 1);
    }
  }

  /** The node at `key`, or an empty node when there is none. */
  function Node(v: Value, key: string): (r: Value)
    ensures Child(v, key).Some? ==> r == Child(v, key).value
    ensures Child(v, key).None? ==> Children(r) == []
  {
    if Child(v, key).Some? then Child(v, key).value else Tree([])
  }

  /** `child(key).exists()`. */
  predicate Has(v: Value, key: string)
  {
    Child(v, key).Some?
  }

  const IntMin: int := -0x8000_0000
  const IntMax: int := 0x7FFF_FFFF
  const LongMin: int := -0x8000_0000_0000_0000
  const LongMax: int := 0x7FFF_FFFF_FFFF_FFFF

  /** Kotlin `Int` arithmetic: the result wraps around modulo 2^32. */
  function Int32(x: int): (r: int)
    ensures IntMin <= r <= IntMax
    ensures (r - x) % 0x1_0000_0000 == 0
    ensures IntMin <= x <= IntMax ==> r == x
  {
    (x - IntMin) % 0x1_0000_0000 + IntMin
  }

  /** Java's `(long) d` / `(int) d` for an in-range double: rounds toward zero. */
  function Truncate(d: real): (r: int)
    ensures d >= 0.0 ==> r as real <= d < r as real + 1.0
    ensures d < 0.0 ==> r as real - 1.0 < d <= r as real
  {
    if d >= 0.0 then d.Floor else -((-d).Floor)
  }

  /** Conversion of a stored value to a Java integer type in [lo, hi]. */
  function AsInteger(v: Value, lo: int, hi: int): (r: Read<int>)
    ensures r.Found? ==> lo <= r.value <= hi
    ensures v.Num? && lo <= v.n <= hi ==> r == Found(v.n)
    ensures !v.Num? && !v.Dbl? ==> r == Thrown
  {
    match v
    case Num(n) => if lo <= n <= hi then Found(n) else Thrown
    case Dbl(d) =>
      if lo as real <= d <= hi as real then
        var t := Truncate(d);
        if lo <= t <= hi then Found(t) else Thrown
      else Thrown
    case _ => Thrown
  }

  /** `child(key).getValue(String::class.java)`. */
  function GetString(v: Value, key: string): (r: Read<string>)
    ensures r.Absent? <==> !Has(v, key)
    ensures r.Found? <==> Has(v, key) && Child(v, key).value.Str?
  {
    match Child(v, key)
    case None => Absent
    case Some(Str(s)) => Found(s)
    case Some(_) => Thrown
  }

  /** `child(key).getValue(Long::class.java)`. */
  function GetLong(v: Value, key: string): (r: Read<int>)
    ensures r.Absent? <==> !Has(v, key)
    ensures r.Found? ==> LongMin <= r.value <= LongMax
  {
    match Child(v, key)
    case None => Absent
    case Some(x) => AsInteger(x, LongMin, LongMax)
  }

  /** `child(key).getValue(Int::class.java)`. */
  function GetInt(v: Value, key: string): (r: Read<int>)
    ensures r.Absent? <==> !Has(v, key)
    ensures r.Found? ==> IntMin <= r.value <= IntMax
  {
    match Child(v, key)
    case None => Absent
    case Some(x) => AsInteger(x, IntMin, IntMax)
  }

  /** `child(key).getValue(Double::class.java)`: any number converts. */
  function GetDouble(v: Value, key: string): (r: Read<real>)
    ensures r.Absent? <==> !Has(v, key)
    ensures r.Thrown? <==> Has(v, key) && !Child(v, key).value.Num? && !Child(v, key).value.Dbl?
  {
    match Child(v, key)
    case None => Absent
    case Some(Num(n)) => Found(n as real)
    case Some(Dbl(d)) => Found(d)
    case Some(_) => Thrown
  }

  /** `child(key).getValue(Boolean::class.java)`. */
  function GetBool(v: Value, key: string): (r: Read<bool>)
    ensures r.Absent? <==> !Has(v, key)
    ensures r.Found? <==> Has(v, key) && Child(v, key).value.Bool?
  {
    match Child(v, key)
    case None => Absent
    case Some(Bool(b)) => Found(b)
    case Some(_) => Thrown
  }

  /** `read ?: d`, where a thrown read aborts the whole parse (`None`). */
  function OrElse<T>(r: Read<T>, d: T): (o: Option<T>)
    ensures r.Absent? ==> o == Some(d)
    ensures r.Found? ==> o == Some(r.value)
    ensures r.Thrown? <==> o.None?
  {
    match r
    case Absent => Some(d)
    case Found(x) => Some(x)
    case Thrown => None
  }

  /** A read whose `null` is kept (`?.let`, `?:` on a later step): `None`
    * aborts, `Some(None)` is a missing value. */
  function Nullable<T>(r: Read<T>): (o: Option<Option<T>>)
    ensures r.Thrown? <==> o.None?
    ensures r.Absent? ==> o == Some(None)
    ensures r.Found? ==> o == Some(Some(r.value))
  {
    match r
    case Absent => Some(None)
    case Found(x) => Some(Some(x))
    case Thrown => None
  }
}
