/** The array transforms the client applies to its lists: `filter`, and `map` that
    replaces the elements with a given `_id`. */
module Seqs {
  import opened Ids

  /** `s.filter(p)` */
  function Filter<T(==,!new)>(p: T -> bool, s: seq<T>): (r: seq<T>)
    ensures |r| <= |s|
    ensures forall x :: x in r <==> x in s && p(x)
  {
    if s == [] then [] else (if p(s[0]) then [s[0]] else []) + Filter(p, s[1..])
  }

  /** Filtering works piecewise, so it keeps the kept elements in their order. */
  lemma {:induction false} FilterConcat<T(!new)>(p: T -> bool, a: seq<T>, b: seq<T>)
    ensures Filter(p, a + b) == Filter(p, a) + Filter(p, b)
  {
    if a == [] {
      assert a + b == b;
    } else {
      assert (a + b)[1..] == a[1..] + b;
      FilterConcat(p, a[1..], b);
    }
  }

  /** A filter every element passes keeps the whole list. */
  lemma {:induction false} FilterAll<T(!new)>(p: T -> bool, s: seq<T>)
    requires forall x :: x in s ==> p(x)
    ensures Filter(p, s) == s
  {
    if s != [] {
      assert forall x :: x in s[1..] ==> x in s;
      FilterAll(p, s[1..]);
    }
  }

  lemma FilterIdempotent<T(!new)>(p: T -> bool, s: seq<T>)
    ensures Filter(p, Filter(p, s)) == Filter(p, s)
  {
    FilterAll(p, Filter(p, s));
  }

  /** The ids of a list. */
  function Keys<T(==,!new)>(s: seq<T>, key: T -> Id): set<Id> {
    set x | x in s :: key(x)
  }

  /** `s.map(e => e._id === id ? x : e)` */
  function Replaced<T>(s: seq<T>, key: T -> Id, id: Id, x: T): (r: seq<T>)
    ensures |r| == |s|
    ensures forall i :: 0 <= i < |s| ==> r[i] == if key(s[i]) == id then x else s[i]
  {
    if s == [] then [] else [if key(s[0]) == id then x else s[0]] + Replaced(s[1..], key, id, x)
  }

  /** Replacing an id the list does not hold changes nothing. */
  lemma ReplacedAbsent<T(!new)>(s: seq<T>, key: T -> Id, id: Id, x: T)
    requires id !in Keys(s, key)
    ensures Replaced(s, key, id, x) == s
  {
    assert forall i :: 0 <= i < |s| ==> key(s[i]) in Keys(s, key);
  }

  /** Replacing by a record with the same id keeps the ids in place. */
  lemma ReplacedKeepsKeys<T>(s: seq<T>, key: T -> Id, x: T)
    ensures var r := Replaced(s, key, key(x), x);
            forall i :: 0 <= i < |s| ==> key(r[i]) == key(s[i])
  {
  }

  /** `s.filter(e => e._id !== id)` */
  function Removed<T(==,!new)>(s: seq<T>, key: T -> Id, id: Id): (r: seq<T>)
    ensures forall x :: x in r <==> x in s && key(x) != id
    ensures id !in Keys(r, key)
  {
    Filter((e: T) => key(e) != id, s)
  }

  /** Deleting the record just appended gives back the list before the append. */
  lemma RemoveAppended<T(!new)>(s: seq<T>, key: T -> Id, x: T)
    requires key(x) !in Keys(s, key)
    ensures Removed(s + [x], key, key(x)) == s
  {
    var p := (e: T) => key(e) != key(x);
    FilterConcat(p, s, [x]);
    assert forall e :: e in s ==> key(e) in Keys(s, key);
    FilterAll(p, s);
    assert Filter(p, [x]) == [] by {
      assert [x][1..] == [];
    }
  }
}
