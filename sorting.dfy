/** Kotlin's `sortedBy` / `sortedByDescending` / `sortedWith(compareBy(..).thenBy(..))`.
  * All of them are stable sorts by a selected key; the key is given here as a
  * `Key` value and the comparison is Kotlin's natural order on that key. */
module Sorting {

  /** A sort key: the natural order of Int/Long, of Double, of String, and the
    * lexicographic combination of two keys (`compareBy(a).thenBy(b)`). */
  datatype Key = IntKey(i: int) | RealKey(r: real) | TextKey(s: string) | PairKey(major: Key, minor: Key)

  /** `String.compareTo(b) < 0`: first differing character decides, otherwise
    * the shorter string comes first. */
  predicate TextLess(a: string, b: string)
  {
    if |a| == 0 then |b| > 0
    else if |b| == 0 then false
    else if a[0] != b[0] then a[0] < b[0]
    else TextLess(a[1..], b[1..])
  }

  function Rank(k: Key): (r: nat)
  {
    match k
    case IntKey(_) => 0
    case RealKey(_) => 1
    case TextKey(_) => 2
    case PairKey(_, _) => 3
  }

  /** The strict order on keys. Keys of one sort are only ever compared with
    * keys built the same way; `Rank` just makes the order total. */
  predicate KeyLess(a: Key, b: Key)
  {
    if Rank(a) != Rank(b) then Rank(a) < Rank(b)
    else match a
      case IntKey(x) => x < b.i
      case RealKey(x) => x < b.r
      case TextKey(x) => TextLess(x, b.s)
      case PairKey(x, y) => KeyLess(x, b.major) || (x == b.major && KeyLess(y, b.minor))
  }

  lemma {:induction false} TextLessIrreflexive(a: string)
    ensures !TextLess(a, a)
  {
    if |a| > 0 {
      TextLessIrreflexive(a[1..]);
    }
  }

  lemma {:induction false} TextLessTransitive(a: string, b: string, c: string)
    requires TextLess(a, b) && TextLess(b, c)
    ensures TextLess(a, c)
  {
    if |a| > 0 && |b| > 0 && |c| > 0 && a[0] == b[0] && b[0] == c[0] {
      TextLessTransitive(a[1..], b[1..], c[1..]);
    }
  }

  lemma {:induction false} TextLessTotal(a: string, b: string)
    requires a != b
    ensures TextLess(a, b) || TextLess(b, a)
  {
    if |a| > 0 && |b| > 0 && a[0] == b[0] {
      assert a == [a[0]] + a[1..] && b == [b[0]] + b[1..];
      TextLessTotal(a[1..], b[1..]);
    }
  }

  lemma {:induction false} KeyLessIrreflexive(a: Key)
    ensures !KeyLess(a, a)
  {
    match a
    case IntKey(_) =>
    case RealKey(_) =>
    case TextKey(x) => TextLessIrreflexive(x);
    case PairKey(x, y) => KeyLessIrreflexive(x); KeyLessIrreflexive(y);
  }

  lemma {:induction false} KeyLessTransitive(a: Key, b: Key, c: Key)
    requires KeyLess(a, b) && KeyLess(b, c)
    ensures KeyLess(a, c)
  {
    if Rank(a) == Rank(b) == Rank(c) {
      match a
      case IntKey(_) =>
      case RealKey(_) =>
      case TextKey(x) => TextLessTransitive(x, b.s, c.s);
      case PairKey(x, y) =>
        if KeyLess(x, b.major) && KeyLess(b.major, c.major) {
          KeyLessTransitive(x, b.major, c.major);
        } else if x == b.major && b.major == c.major {
          KeyLessTransitive(y, b.minor, c.minor);
        }
    }
  }

  lemma {:induction false} KeyLessTotal(a: Key, b: Key)
    requires a != b
    ensures KeyLess(a, b) || KeyLess(b, a)
  {
    if Rank(a) == Rank(b) {
      match a
      case IntKey(_) =>
      case RealKey(_) =>
      case TextKey(x) => TextLessTotal(x, b.s);
      case PairKey(x, y) =>
        if x != b.major {
          KeyLessTotal(x, b.major);
        } else {
          KeyLessTotal(y, b.minor);
        }
    }
  }

  /** `a` must come strictly before `b`: ascending, or descending when `desc`. */
  predicate Before<T>(key: T -> Key, desc: bool, a: T, b: T)
  {
    if desc then KeyLess(key(b), key(a)) else KeyLess(key(a), key(b))
  }

  /** Every later element may follow every earlier one. */
  predicate SortedBy<T>(key: T -> Key, desc: bool, s: seq<T>)
  {
    forall i, j :: 0 <= i < j < |s| ==> !Before(key, desc, s[j], s[i])
  }

  /** The elements of `s` whose key is `k`, in their order in `s`. */
  function WithKey<T>(key: T -> Key, k: Key, s: seq<T>): (r: seq<T>)
  {
    if s == [] then []
    else if key(s[0]) == k then [s[0]] + WithKey(key, k, s[1..])
    else WithKey(key, k, s[1..])
  }

  /** Inserts `x` in front of the first element that need not precede it. */
  function Insert<T>(key: T -> Key, desc: bool, x: T, s: seq<T>): (r: seq<T>)
  {
    if s == [] || !Before(key, desc, s[0], x) then [x] + s
    else [s[0]] + Insert(key, desc, x, s[1..])
  }

  /** The stable sort of `s` by `key`. */
  function SortBy<T>(key: T -> Key, desc: bool, s: seq<T>): (r: seq<T>)
  {
    if s == [] then [] else Insert(key, desc, s[0], SortBy(key, desc, s[1..]))
  }

  /** "Must precede" is asymmetric. */
  lemma BeforeAsymmetric<T>(key: T -> Key, desc: bool, a: T, b: T)
    requires Before(key, desc, a, b)
    ensures !Before(key, desc, b, a)
  {
    if Before(key, desc, b, a) {
      KeyLessTransitive(key(a), key(b), key(a));
      KeyLessIrreflexive(key(a));
    }
  }

  /** "Need not precede" is transitive. */
  lemma NotBeforeTransitive<T>(key: T -> Key, desc: bool, a: T, b: T, c: T)
    requires !Before(key, desc, b, a) && !Before(key, desc, c, b)
    ensures !Before(key, desc, c, a)
  {
    var ka, kb, kc := key(a), key(b), key(c);
    if Before(key, desc, c, a) && ka != kb && kb != kc {
      KeyLessTotal(ka, kb);
      KeyLessTotal(kb, kc);
      if desc {
        KeyLessTransitive(kc, kb, ka);
        KeyLessTransitive(kc, ka, kc);
        KeyLessIrreflexive(kc);
      } else {
        KeyLessTransitive(ka, kb, kc);
        KeyLessTransitive(ka, kc, ka);
        KeyLessIrreflexive(ka);
      }
    }
  }

  lemma {:induction false} InsertPermutes<T>(key: T -> Key, desc: bool, x: T, s: seq<T>)
    ensures multiset(Insert(key, desc, x, s)) == multiset(s) + multiset{x}
  {
    if s != [] && Before(key, desc, s[0], x) {
      InsertPermutes(key, desc, x, s[1..]);
      assert s == [s[0]] + s[1..];
    }
  }

  lemma {:induction false} InsertSorted<T>(key: T -> Key, desc: bool, x: T, s: seq<T>)
    requires SortedBy(key, desc, s)
    ensures SortedBy(key, desc, Insert(key, desc, x, s))
  {
    var r := Insert(key, desc, x, s);
    if s == [] || !Before(key, desc, s[0], x) {
      forall j | 1 <= j < |r|
        ensures !Before(key, desc, r[j], r[0])
      {
        if j > 1 {
          NotBeforeTransitive(key, desc, x, s[0], s[j - 1]);
        }
      }
    } else {
      InsertSorted(key, desc, x, s[1..]);
      InsertPermutes(key, desc, x, s[1..]);
      forall j | 1 <= j < |r|
        ensures !Before(key, desc, r[j], r[0])
      {
        assert r[j] in multiset(Insert(key, desc, x, s[1..]));
        assert r[j] == x || r[j] in s[1..];
        if r[j] == x {
          BeforeAsymmetric(key, desc, s[0], x);
        } else {
          var k :| 0 <= k < |s[1..]| && s[1..][k] == r[j];
          assert s[k + 1] == r[j];
        }
      }
    }
  }

  lemma {:induction false} InsertWithKey<T>(key: T -> Key, desc: bool, x: T, s: seq<T>, k: Key)
    ensures WithKey(key, k, Insert(key, desc, x, s))
      == (if key(x) == k then [x] else []) + WithKey(key, k, s)
  {
    if s == [] || !Before(key, desc, s[0], x) {
      assert ([x] + s)[1..] == s;
    } else {
      var rest := Insert(key, desc, x, s[1..]);
      assert ([s[0]] + rest)[1..] == rest;
      InsertWithKey(key, desc, x, s[1..], k);
      KeyLessIrreflexive(key(x));
      assert key(s[0]) != key(x);
      if key(s[0]) == k {
        assert WithKey(key, k, s) == [s[0]] + WithKey(key, k, s[1..]);
      } else {
        assert WithKey(key, k, s) == WithKey(key, k, s[1..]);
      }
    }
  }

  /** The sort result is ordered by the key. */
  lemma {:induction false} SortBySorted<T>(key: T -> Key, desc: bool, s: seq<T>)
    ensures SortedBy(key, desc, SortBy(key, desc, s))
  {
    if s != [] {
      SortBySorted(key, desc, s[1..]);
      InsertSorted(key, desc, s[0], SortBy(key, desc, s[1..]));
    }
  }

  /** The sort result is a permutation of the input. */
  lemma {:induction false} SortByPermutes<T>(key: T -> Key, desc: bool, s: seq<T>)
    ensures multiset(SortBy(key, desc, s)) == multiset(s)
    ensures |SortBy(key, desc, s)| == |s|
  {
    if s != [] {
      SortByPermutes(key, desc, s[1..]);
      InsertPermutes(key, desc, s[0], SortBy(key, desc, s[1..]));
      assert s == [s[0]] + s[1..];
    }
    assert |multiset(SortBy(key, desc, s))| == |multiset(s)|;
  }

  /** The sort is stable: elements with equal keys keep their relative order. */
  lemma {:induction false} SortByStable<T>(key: T -> Key, desc: bool, s: seq<T>, k: Key)
    ensures WithKey(key, k, SortBy(key, desc, s)) == WithKey(key, k, s)
  {
    if s != [] {
      SortByStable(key, desc, s[1..], k);
      InsertWithKey(key, desc, s[0], SortBy(key, desc, s[1..]), k);
    }
  }

  /** Everything a stable sort promises, in one statement. */
  lemma SortByCorrect<T>(key: T -> Key, desc: bool, s: seq<T>)
    ensures SortedBy(key, desc, SortBy(key, desc, s))
    ensures multiset(SortBy(key, desc, s)) == multiset(s)
    ensures forall k :: WithKey(key, k, SortBy(key, desc, s)) == WithKey(key, k, s)
  {
    SortBySorted(key, desc, s);
    SortByPermutes(key, desc, s);
    forall k {
      SortByStable(key, desc, s, k);
    }
  }

  /** With two keys ordered the same way, "need not precede" reads as "<=". */
  lemma NotBeforeInt<T>(key: T -> Key, desc: bool, a: T, b: T, x: int, y: int)
    requires key(a) == IntKey(x) && key(b) == IntKey(y)
    ensures !Before(key, desc, b, a) <==> (if desc then y <= x else x <= y)
  {
  }
}
