/**
 * The array operations the store actions are built from — `findIndex`, `find`, `filter` and
 * "remove the first element with this id" (`findIndex` followed by `splice(index, 1)`) —
 * together with the facts that make removal by collected ids equal to filtering once ids are unique.
 */
module JsArrays {
  import opened Wrappers

  /** `s.findIndex(p)`: the first index satisfying `p`, or -1. */
  function FindIndex<T(==,!new)>(s: seq<T>, p: T -> bool): (r: int)
    ensures -1 <= r < |s|
    ensures r >= 0 ==> p(s[r]) && forall k :: 0 <= k < r ==> !p(s[k])
    ensures r == -1 <==> forall k :: 0 <= k < |s| ==> !p(s[k])
  {
    if s == [] then -1
    else if p(s[0]) then 0
    else
      var r := FindIndex(s[1..], p);
      if r < 0 then -1 else r + 1
  }

  /** `s.find(p)`: the first element satisfying `p`, if any. */
  function Find<T(==,!new)>(s: seq<T>, p: T -> bool): (r: Option<T>)
    ensures r.Some? ==> r.value in s && p(r.value)
    ensures r.Some? ==> exists i :: 0 <= i < |s| && s[i] == r.value && forall k :: 0 <= k < i ==> !p(s[k])
    ensures r.None? <==> forall x :: x in s ==> !p(x)
  {
    var i := FindIndex(s, p);
    if i < 0 then None else Some(s[i])
  }

  /** `s.filter(p)`. */
  function Filter<T(==,!new)>(s: seq<T>, p: T -> bool): (r: seq<T>)
    ensures |r| <= |s|
    ensures forall x :: x in r <==> x in s && p(x)
  {
    if s == [] then [] else (if p(s[0]) then [s[0]] else []) + Filter(s[1..], p)
  }

  /** `s.filter(x => !p(x))`. */
  function Reject<T(==,!new)>(s: seq<T>, p: T -> bool): (r: seq<T>)
    ensures |r| <= |s|
    ensures forall x :: x in r <==> x in s && !p(x)
  {
    if s == [] then [] else (if p(s[0]) then [] else [s[0]]) + Reject(s[1..], p)
  }

  /** No two elements share an id. */
  predicate UniqueIds<T(==,!new)>(s: seq<T>, idOf: T -> string)
  {
    s == [] || ((forall x :: x in s[1..] ==> idOf(x) != idOf(s[0])) && UniqueIds(s[1..], idOf))
  }

  /** The id matches none of the elements. */
  predicate FreshId<T(==,!new)>(s: seq<T>, idOf: T -> string, id: string)
  {
    forall x :: x in s ==> idOf(x) != id
  }

  /** The predicate `p => p.id === id`. */
  function HasId<T>(idOf: T -> string, id: string): T -> bool
  {
    x => idOf(x) == id
  }

  /** Remove the first element whose id is `id` (`findIndex` then `splice`; see `RemoveByIdSplice`). */
  function RemoveById<T(==,!new)>(s: seq<T>, idOf: T -> string, id: string): (r: seq<T>)
    ensures FreshId(s, idOf, id) ==> r == s
    ensures !FreshId(s, idOf, id) ==> |r| == |s| - 1
    ensures forall x :: x in r ==> x in s
  {
    if s == [] then []
    else if idOf(s[0]) == id then s[1..]
    else [s[0]] + RemoveById(s[1..], idOf, id)
  }

  /** `RemoveById` is what `splice(findIndex(p => p.id === id), 1)` does. */
  lemma {:induction false} RemoveByIdSplice<T(!new)>(s: seq<T>, idOf: T -> string, id: string)
    ensures var i := FindIndex(s, HasId(idOf, id));
      (i < 0 ==> RemoveById(s, idOf, id) == s) &&
      (i >= 0 ==> RemoveById(s, idOf, id) == s[..i] + s[i + 1..])
  {
    if |s| == 0 || idOf(s[0]) == id {
      return;
    }
    var t := s[1..];
    RemoveByIdSplice(t, idOf, id);
    var j := FindIndex(t, HasId(idOf, id));
    assert FindIndex(s, HasId(idOf, id)) == if j < 0 then -1 else j + 1;
    assert RemoveById(s, idOf, id) == [s[0]] + RemoveById(t, idOf, id);
    if j >= 0 {
      SpliceCons(s, j);
    } else {
      assert [s[0]] + t == s;
    }
  }

  /** Splicing index `j` out of the tail and putting the head back splices index `j + 1` out of the whole. */
  lemma SpliceCons<T>(s: seq<T>, j: int)
    requires 0 <= j < |s| - 1
    ensures [s[0]] + (s[1..][..j] + s[1..][j + 1..]) == s[..j + 1] + s[j + 2..]
  {
    var t := s[1..];
    assert [s[0]] + t[..j] == s[..j + 1];
    assert t[j + 1..] == s[j + 2..];
    assert [s[0]] + (t[..j] + t[j + 1..]) == ([s[0]] + t[..j]) + t[j + 1..];
  }

  /** The ids of the elements satisfying `p`, in order (the `toRemove` list of the erasers). */
  function IdsWhere<T(==,!new)>(s: seq<T>, idOf: T -> string, p: T -> bool): (r: seq<string>)
    ensures r == [] <==> forall x :: x in s ==> !p(x)
    ensures forall id :: id in r <==> exists x :: x in s && p(x) && idOf(x) == id
  {
    if s == [] then []
    else
      var rest := IdsWhere(s[1..], idOf, p);
      assert forall x :: x in s <==> x == s[0] || x in s[1..];
      (if p(s[0]) then [idOf(s[0])] else []) + rest
  }

  /** Removing each id of `ids` in turn, as `ids.forEach(id => remove(id))` does. */
  function RemoveEach<T(==,!new)>(s: seq<T>, idOf: T -> string, ids: seq<string>): (r: seq<T>)
    ensures forall x :: x in r ==> x in s
    decreases |ids|
  {
    if ids == [] then s else RemoveEach(RemoveById(s, idOf, ids[0]), idOf, ids[1..])
  }

  /** Whether any removal in `RemoveEach` found its id (the erasers' `removed` flag). */
  function AnyRemoved<T(==,!new)>(s: seq<T>, idOf: T -> string, ids: seq<string>): bool
    decreases |ids|
  {
    ids != [] && (!FreshId(s, idOf, ids[0]) || AnyRemoved(RemoveById(s, idOf, ids[0]), idOf, ids[1..]))
  }

  /** The elements whose id is not in `ids`. */
  function WithoutIds<T(==,!new)>(s: seq<T>, idOf: T -> string, ids: set<string>): (r: seq<T>)
    ensures forall x :: x in r <==> x in s && idOf(x) !in ids
  {
    if s == [] then [] else (if idOf(s[0]) in ids then [] else [s[0]]) + WithoutIds(s[1..], idOf, ids)
  }

  lemma {:induction false} WithoutIdsFresh<T(!new)>(s: seq<T>, idOf: T -> string, ids: set<string>)
    requires forall x :: x in s ==> idOf(x) !in ids
    ensures WithoutIds(s, idOf, ids) == s
  {
    if s != [] {
      WithoutIdsFresh(s[1..], idOf, ids);
    }
  }

  /** With unique ids, removing the first element with `id` removes every element with `id`. */
  lemma {:induction false} RemoveByIdIsWithout<T(!new)>(s: seq<T>, idOf: T -> string, id: string)
    requires UniqueIds(s, idOf)
    ensures RemoveById(s, idOf, id) == WithoutIds(s, idOf, {id})
  {
    if s == [] {
    } else if idOf(s[0]) == id {
      WithoutIdsFresh(s[1..], idOf, {id});
      assert WithoutIds(s, idOf, {id}) == WithoutIds(s[1..], idOf, {id});
    } else {
      RemoveByIdIsWithout(s[1..], idOf, id);
      assert WithoutIds(s, idOf, {id}) == [s[0]] + WithoutIds(s[1..], idOf, {id});
    }
  }

  lemma {:induction false} WithoutIdsTwice<T(!new)>(s: seq<T>, idOf: T -> string, a: set<string>, b: set<string>)
    ensures WithoutIds(WithoutIds(s, idOf, a), idOf, b) == WithoutIds(s, idOf, a + b)
  {
    if |s| > 0 {
      WithoutIdsTwice(s[1..], idOf, a, b);
      var t := WithoutIds(s[1..], idOf, a);
      if idOf(s[0]) in a {
        assert WithoutIds(s, idOf, a) == t;
        assert WithoutIds(s, idOf, a + b) == WithoutIds(s[1..], idOf, a + b);
      } else {
        var u := [s[0]] + t;
        var head := if idOf(s[0]) in b then [] else [s[0]];
        assert WithoutIds(s, idOf, a) == u;
        assert u[0] == s[0] && u[1..] == t;
        assert WithoutIds(u, idOf, b) == head + WithoutIds(t, idOf, b);
        assert WithoutIds(s, idOf, a + b) == head + WithoutIds(s[1..], idOf, a + b);
      }
    }
  }

  lemma {:induction false} WithoutIdsUnique<T(!new)>(s: seq<T>, idOf: T -> string, ids: set<string>)
    requires UniqueIds(s, idOf)
    ensures UniqueIds(WithoutIds(s, idOf, ids), idOf)
  {
    if s != [] {
      WithoutIdsUnique(s[1..], idOf, ids);
      var t := WithoutIds(s[1..], idOf, ids);
      if idOf(s[0]) !in ids {
        var u := [s[0]] + t;
        assert WithoutIds(s, idOf, ids) == u;
        assert u[1..] == t;
      } else {
        assert WithoutIds(s, idOf, ids) == t;
      }
    }
  }

  /** The ids of a list, as a set. */
  function IdSet(ids: seq<string>): (r: set<string>)
    ensures forall id :: id in r <==> id in ids
  {
    set id | id in ids
  }

  /** With unique ids, removing a list of ids one after another filters out all of them. */
  lemma {:induction false} RemoveEachIsWithout<T(!new)>(s: seq<T>, idOf: T -> string, ids: seq<string>)
    requires UniqueIds(s, idOf)
    ensures RemoveEach(s, idOf, ids) == WithoutIds(s, idOf, IdSet(ids))
    decreases |ids|
  {
    if ids == [] {
      assert IdSet(ids) == {};
      WithoutIdsFresh(s, idOf, {});
    } else {
      RemoveByIdIsWithout(s, idOf, ids[0]);
      var t := WithoutIds(s, idOf, {ids[0]});
      WithoutIdsUnique(s, idOf, {ids[0]});
      RemoveEachIsWithout(t, idOf, ids[1..]);
      WithoutIdsTwice(s, idOf, {ids[0]}, IdSet(ids[1..]));
      assert {ids[0]} + IdSet(ids[1..]) == IdSet(ids);
    }
  }

  lemma {:induction false} WithoutIdsExtra<T(!new)>(s: seq<T>, idOf: T -> string, ids: set<string>, a: string)
    requires FreshId(s, idOf, a)
    ensures WithoutIds(s, idOf, ids + {a}) == WithoutIds(s, idOf, ids)
  {
    if s != [] {
      WithoutIdsExtra(s[1..], idOf, ids, a);
    }
  }

  /** The ids collected from a non-empty array: the first element's, if it satisfies `p`, and the rest's. */
  lemma IdsWhereSet<T(!new)>(s: seq<T>, idOf: T -> string, p: T -> bool)
    requires |s| > 0
    ensures (IdSet(IdsWhere(s, idOf, p))) ==
            (if p(s[0]) then {idOf(s[0])} else {}) + (IdSet(IdsWhere(s[1..], idOf, p)))
  {
    var rest := IdsWhere(s[1..], idOf, p);
    assert IdsWhere(s, idOf, p) == (if p(s[0]) then [idOf(s[0])] else []) + rest;
  }

  /** With unique ids, filtering out the ids of the elements satisfying `p` rejects exactly those. */
  lemma {:induction false} WithoutIdsWhere<T(!new)>(s: seq<T>, idOf: T -> string, p: T -> bool)
    requires UniqueIds(s, idOf)
    ensures WithoutIds(s, idOf, IdSet(IdsWhere(s, idOf, p))) == Reject(s, p)
  {
    if |s| > 0 {
      var x, t := s[0], s[1..];
      var ids := IdSet(IdsWhere(s, idOf, p));
      var restSet := IdSet(IdsWhere(t, idOf, p));
      WithoutIdsWhere(t, idOf, p);
      IdsWhereSet(s, idOf, p);
      assert FreshId(t, idOf, idOf(x));
      if p(x) {
        WhereStepHit(s, idOf, p, ids, restSet);
      } else {
        IdsWhereFresh(t, idOf, p, idOf(x));
        assert ids == restSet;
        WhereStepMiss(s, idOf, p, ids);
      }
    }
  }

  /** An id no element has is not among the collected ones. */
  lemma IdsWhereFresh<T(!new)>(s: seq<T>, idOf: T -> string, p: T -> bool, a: string)
    requires FreshId(s, idOf, a)
    ensures a !in IdSet(IdsWhere(s, idOf, p))
  {
  }

  /** The step of `WithoutIdsWhere` for a first element that satisfies `p`. */
  lemma WhereStepHit<T(!new)>(s: seq<T>, idOf: T -> string, p: T -> bool, ids: set<string>, restSet: set<string>)
    requires |s| > 0 && p(s[0]) && ids == {idOf(s[0])} + restSet && FreshId(s[1..], idOf, idOf(s[0]))
    requires WithoutIds(s[1..], idOf, restSet) == Reject(s[1..], p)
    ensures WithoutIds(s, idOf, ids) == Reject(s, p)
  {
    assert ids == restSet + {idOf(s[0])};
    WithoutIdsExtra(s[1..], idOf, restSet, idOf(s[0]));
    assert WithoutIds(s, idOf, ids) == WithoutIds(s[1..], idOf, ids);
  }

  /** The step of `WithoutIdsWhere` for a first element that does not satisfy `p`. */
  lemma WhereStepMiss<T(!new)>(s: seq<T>, idOf: T -> string, p: T -> bool, ids: set<string>)
    requires |s| > 0 && !p(s[0]) && idOf(s[0]) !in ids
    requires WithoutIds(s[1..], idOf, ids) == Reject(s[1..], p)
    ensures WithoutIds(s, idOf, ids) == Reject(s, p)
  {
    assert WithoutIds(s, idOf, ids) == [s[0]] + WithoutIds(s[1..], idOf, ids);
  }

  /** The eraser's flag: some removal succeeds exactly when some element satisfied `p`. */
  lemma AnyRemovedWhere<T(!new)>(s: seq<T>, idOf: T -> string, p: T -> bool)
    ensures AnyRemoved(s, idOf, IdsWhere(s, idOf, p)) <==> exists x :: x in s && p(x)
  {
    var ids := IdsWhere(s, idOf, p);
    if ids != [] {
      assert ids[0] in ids;
      var x :| x in s && p(x) && idOf(x) == ids[0];
      assert !FreshId(s, idOf, ids[0]);
    }
  }

  lemma {:induction false} IdsWhereAppend<T(!new)>(a: seq<T>, b: seq<T>, idOf: T -> string, p: T -> bool)
    ensures IdsWhere(a + b, idOf, p) == IdsWhere(a, idOf, p) + IdsWhere(b, idOf, p)
  {
    if a != [] {
      assert (a + b)[1..] == a[1..] + b;
      IdsWhereAppend(a[1..], b, idOf, p);
    } else {
      assert a + b == b;
    }
  }

  /** One more step of the collecting loop `for (x of s) if (p(x)) toRemove.push(x.id)`. */
  lemma IdsWhereSnoc<T(!new)>(s: seq<T>, i: nat, idOf: T -> string, p: T -> bool)
    requires i < |s|
    ensures IdsWhere(s[..i + 1], idOf, p) ==
      IdsWhere(s[..i], idOf, p) + (if p(s[i]) then [idOf(s[i])] else [])
  {
    assert s[..i + 1] == s[..i] + [s[i]];
    IdsWhereAppend(s[..i], [s[i]], idOf, p);
  }

  /** One more step of the removing loop `ids.forEach(id => { if (remove(id)) removed = true; })`. */
  lemma {:induction false} RemoveEachSnoc<T(!new)>(s: seq<T>, idOf: T -> string, ids: seq<string>, a: string)
    ensures RemoveEach(s, idOf, ids + [a]) == RemoveById(RemoveEach(s, idOf, ids), idOf, a)
    ensures AnyRemoved(s, idOf, ids + [a]) ==
      (AnyRemoved(s, idOf, ids) || !FreshId(RemoveEach(s, idOf, ids), idOf, a))
    decreases |ids|
  {
    if ids != [] {
      assert (ids + [a])[1..] == ids[1..] + [a];
      RemoveEachSnoc(RemoveById(s, idOf, ids[0]), idOf, ids[1..], a);
    } else {
      assert ([] + [a])[1..] == [];
    }
  }

  /** With unique ids, two elements with the same id are the same element. */
  lemma {:induction false} UniqueIdsInjective<T(!new)>(s: seq<T>, idOf: T -> string, x: T, y: T)
    requires UniqueIds(s, idOf) && x in s && y in s && idOf(x) == idOf(y)
    ensures x == y
  {
    if x != s[0] && y != s[0] {
      UniqueIdsInjective(s[1..], idOf, x, y);
    }
  }

  /** Appending an element with a fresh id keeps the ids unique. */
  lemma {:induction false} UniqueIdsAppend<T(!new)>(s: seq<T>, idOf: T -> string, x: T)
    requires UniqueIds(s, idOf) && FreshId(s, idOf, idOf(x))
    ensures UniqueIds(s + [x], idOf)
  {
    if s != [] {
      assert (s + [x])[1..] == s[1..] + [x];
      UniqueIdsAppend(s[1..], idOf, x);
    } else {
      assert ([] + [x])[1..] == [];
    }
  }

  /**
   * The "place" pattern of the store: remove the first element satisfying `collides` (by its id),
   * then append `x`.
   */
  function EvictFirstThenAppend<T(==,!new)>(s: seq<T>, idOf: T -> string, collides: T -> bool, x: T): (r: seq<T>)
    ensures |r| >= 1 && r[|r| - 1] == x
    ensures forall q :: q in r ==> q == x || q in s
  {
    var existing := Find(s, collides);
    (if existing.Some? then RemoveById(s, idOf, idOf(existing.value)) else s) + [x]
  }

  /**
   * With unique ids and a fresh id for `x`, placing `x` keeps ids unique, keeps every element that
   * does not collide with it, and removes exactly one element when some element collides, none otherwise.
   */
  lemma EvictFirstKeepsOthers<T(!new)>(s: seq<T>, idOf: T -> string, collides: T -> bool, x: T)
    requires UniqueIds(s, idOf) && FreshId(s, idOf, idOf(x))
    ensures UniqueIds(EvictFirstThenAppend(s, idOf, collides, x), idOf)
    ensures forall q :: q in s && !collides(q) ==> q in EvictFirstThenAppend(s, idOf, collides, x)
    ensures |EvictFirstThenAppend(s, idOf, collides, x)| ==
      if exists q :: q in s && collides(q) then |s| else |s| + 1
  {
    var existing := Find(s, collides);
    var kept := if existing.Some? then RemoveById(s, idOf, idOf(existing.value)) else s;
    if existing.Some? {
      var e := existing.value;
      RemoveByIdIsWithout(s, idOf, idOf(e));
      WithoutIdsUnique(s, idOf, {idOf(e)});
      assert !FreshId(s, idOf, idOf(e));
      forall q | q in s && !collides(q)
        ensures q in kept
      {
        if idOf(q) == idOf(e) {
          UniqueIdsInjective(s, idOf, q, e);
        }
      }
    }
    UniqueIdsAppend(kept, idOf, x);
  }

  /** With unique ids, removing the collected ids of the elements satisfying `p` one by one rejects exactly those. */
  lemma RemoveEachWhereIsReject<T(!new)>(s: seq<T>, idOf: T -> string, p: T -> bool)
    requires UniqueIds(s, idOf)
    ensures RemoveEach(s, idOf, IdsWhere(s, idOf, p)) == Reject(s, p)
  {
    RemoveEachIsWithout(s, idOf, IdsWhere(s, idOf, p));
    WithoutIdsWhere(s, idOf, p);
  }

  /** `filter` shortens the array exactly when it rejects something (the `length < initialCount` test). */
  lemma {:induction false} RejectShrinks<T(!new)>(s: seq<T>, p: T -> bool)
    ensures |Reject(s, p)| < |s| <==> exists x :: x in s && p(x)
  {
    if s != [] {
      RejectShrinks(s[1..], p);
      assert forall x :: x in s <==> x == s[0] || x in s[1..];
    }
  }

  /** `s.map(f).filter(Boolean)`: the present results of `f`, in order. */
  function FilterMap<T, U>(s: seq<T>, f: T -> Option<U>): (r: seq<U>)
    ensures |r| <= |s|
    ensures (forall i :: 0 <= i < |s| ==> f(s[i]).Some?) ==> |r| == |s|
  {
    if s == [] then []
    else
      match f(s[0])
      case Some(y) => [y] + FilterMap(s[1..], f)
      case None => FilterMap(s[1..], f)
  }

  /** `FilterMap` over an array with one more element at the end. */
  lemma {:induction false} FilterMapSnoc<T, U>(s: seq<T>, x: T, f: T -> Option<U>)
    ensures FilterMap(s + [x], f) == FilterMap(s, f) + (if f(x).Some? then [f(x).value] else [])
  {
    if s == [] {
      assert [x][1..] == [];
    } else {
      assert (s + [x])[1..] == s[1..] + [x];
      FilterMapSnoc(s[1..], x, f);
    }
  }

  /** Every element `FilterMap` produces is the present result of `f` on some element of the input. */
  lemma {:induction false} FilterMapSource<T, U>(s: seq<T>, f: T -> Option<U>, j: int)
    requires 0 <= j < |FilterMap(s, f)|
    ensures exists i :: 0 <= i < |s| && f(s[i]) == Some(FilterMap(s, f)[j])
  {
    var rest := FilterMap(s[1..], f);
    match f(s[0])
    case Some(y) =>
      if j == 0 {
        assert f(s[0]) == Some(FilterMap(s, f)[0]);
      } else {
        FilterMapSource(s[1..], f, j - 1);
        var i :| 0 <= i < |s[1..]| && f(s[1..][i]) == Some(rest[j - 1]);
        assert f(s[i + 1]) == Some(FilterMap(s, f)[j]);
      }
    case None =>
      FilterMapSource(s[1..], f, j);
      var i :| 0 <= i < |s[1..]| && f(s[1..][i]) == Some(rest[j]);
      assert f(s[i + 1]) == Some(FilterMap(s, f)[j]);
  }

  /** Filtering an array with one more element at the end. */
  lemma {:induction false} FilterSnoc<T(!new)>(s: seq<T>, x: T, p: T -> bool)
    ensures Filter(s + [x], p) == Filter(s, p) + (if p(x) then [x] else [])
  {
    var tail := if p(x) then [x] else [];
    if |s| == 0 {
      assert s + [x] == [x];
      assert [x][1..] == [];
      assert Filter(s, p) == [];
    } else {
      var t := s[1..];
      assert (s + [x])[0] == s[0];
      assert (s + [x])[1..] == t + [x];
      FilterSnoc(t, x, p);
      var h := if p(s[0]) then [s[0]] else [];
      assert Filter(s + [x], p) == h + Filter(t + [x], p);
      assert Filter(s, p) == h + Filter(t, p);
      assert h + (Filter(t, p) + tail) == (h + Filter(t, p)) + tail;
    }
  }
}
