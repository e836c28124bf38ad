/**
 * `createSet`: an insertion-ordered set whose `add` and `delete` notify
 * watchers. src/index.ts and src/index.js share the `add` behaviour and
 * differ in `delete`; the `legacy` flag of a WatchedSet selects the
 * src/index.js behaviour.
 */
module WatchedSets {
  import opened Wrappers

  /** An element of a watched set: the source's `[type, ...rest]` array with its `id`. */
  datatype Entry<T, V> = Entry(id: nat, ty: T, val: V)

  /**
   * A registered watcher: `[cb]` (filter `None`) or `[type, cb]` (filter
   * `Some(type)`), with the `_one` flag. `key` identifies the `args` array
   * that the returned unwatch function deletes; `tag` is what the callback
   * closes over.
   */
  datatype Watcher<T, A> = Watcher(key: nat, filter: Option<T>, one: bool, tag: A)

  function Ids<T, V>(es: seq<Entry<T, V>>): (r: seq<nat>)
    ensures |r| == |es|
    ensures forall i :: 0 <= i < |es| ==> r[i] == es[i].id
  {
    seq(|es|, i requires 0 <= i < |es| => es[i].id)
  }

  function Keys<T, A>(ws: seq<Watcher<T, A>>): (r: seq<nat>)
    ensures |r| == |ws|
    ensures forall i :: 0 <= i < |ws| ==> r[i] == ws[i].key
  {
    seq(|ws|, i requires 0 <= i < |ws| => ws[i].key)
  }

  /** No two elements share an id. */
  ghost predicate DistinctIds<T, V>(es: seq<Entry<T, V>>)
  {
    forall i, j :: 0 <= i < j < |es| ==> es[i].id != es[j].id
  }

  /** No two watchers share a key. */
  ghost predicate DistinctKeys<T, A>(ws: seq<Watcher<T, A>>)
  {
    forall i, j :: 0 <= i < j < |ws| ==> ws[i].key != ws[j].key
  }

  /** `r` is `s` with some elements left out and the others kept in order. */
  ghost predicate Sub<X>(r: seq<X>, s: seq<X>)
    decreases |s|
  {
    if s == [] then r == []
    else (r != [] && r[|r| - 1] == s[|s| - 1] && Sub(r[..|r| - 1], s[..|s| - 1])) || Sub(r, s[..|s| - 1])
  }

  lemma SubStep<X>(r: seq<X>, s: seq<X>, t: seq<X>)
    requires s != [] && Sub(r, s[..|s| - 1])
    requires t == [] || t == [s[|s| - 1]]
    ensures Sub(r + t, s)
  {
    if t != [] {
      assert (r + t)[..|r + t| - 1] == r;
    } else {
      assert r + t == r;
    }
  }

  lemma {:induction false} SubMember<X>(r: seq<X>, s: seq<X>, i: nat)
    requires Sub(r, s) && i < |r|
    ensures r[i] in s
    decreases |s|
  {
    assert s != [];
    if r != [] && r[|r| - 1] == s[|s| - 1] && Sub(r[..|r| - 1], s[..|s| - 1]) {
      if i < |r| - 1 {
        SubMember(r[..|r| - 1], s[..|s| - 1], i);
      }
    } else {
      SubMember(r, s[..|s| - 1], i);
    }
  }

  lemma {:induction false} SubDistinctIds<T, V>(r: seq<Entry<T, V>>, s: seq<Entry<T, V>>)
    requires Sub(r, s) && DistinctIds(s)
    ensures DistinctIds(r)
    decreases |s|
  {
    if s != [] {
      var s' := s[..|s| - 1];
      if r != [] && r[|r| - 1] == s[|s| - 1] && Sub(r[..|r| - 1], s') {
        var r' := r[..|r| - 1];
        SubDistinctIds(r', s');
        forall j | 0 <= j < |r'| ensures r'[j].id != r[|r| - 1].id {
          SubMember(r', s', j);
          var k :| 0 <= k < |s'| && s'[k] == r'[j];
          assert s[k].id != s[|s| - 1].id;
        }
      } else {
        SubDistinctIds(r, s');
      }
    }
  }

  lemma {:induction false} SubDistinctKeys<T, A>(r: seq<Watcher<T, A>>, s: seq<Watcher<T, A>>)
    requires Sub(r, s) && DistinctKeys(s)
    ensures DistinctKeys(r)
    decreases |s|
  {
    if s != [] {
      var s' := s[..|s| - 1];
      if r != [] && r[|r| - 1] == s[|s| - 1] && Sub(r[..|r| - 1], s') {
        var r' := r[..|r| - 1];
        SubDistinctKeys(r', s');
        forall j | 0 <= j < |r'| ensures r'[j].key != r[|r| - 1].key {
          SubMember(r', s', j);
          var k :| 0 <= k < |s'| && s'[k] == r'[j];
          assert s[k].key != s[|s| - 1].key;
        }
      } else {
        SubDistinctKeys(r, s');
      }
    }
  }

  /** The element with the given id (the first one, should there be several). */
  function Lookup<T, V>(es: seq<Entry<T, V>>, id: nat): (e: Entry<T, V>)
    requires id in Ids(es)
    ensures e in es && e.id == id
  {
    if es[0].id == id then es[0] else Lookup(es[1..], id)
  }

  /** What `Set.prototype.delete` leaves: every element except the one with that id. */
  function Without<T, V>(es: seq<Entry<T, V>>, id: nat): (r: seq<Entry<T, V>>)
    ensures forall i :: 0 <= i < |r| ==> r[i].id != id
    ensures forall i :: 0 <= i < |es| && es[i].id != id ==> es[i] in r
  {
    if es == [] then []
    else Without(es[..|es| - 1], id) + (if es[|es| - 1].id == id then [] else [es[|es| - 1]])
  }

  /** The elements whose type is `ty`, in insertion order. */
  function OfType<T(==), V>(es: seq<Entry<T, V>>, ty: T): (r: seq<Entry<T, V>>)
    ensures forall i :: 0 <= i < |r| ==> r[i].ty == ty
    ensures forall i :: 0 <= i < |es| && es[i].ty == ty ==> es[i] in r
  {
    if es == [] then []
    else OfType(es[..|es| - 1], ty) + (if es[|es| - 1].ty == ty then [es[|es| - 1]] else [])
  }

  /** The elements whose type is not `ty`, in insertion order. */
  function WithoutType<T(==), V>(es: seq<Entry<T, V>>, ty: T): (r: seq<Entry<T, V>>)
    ensures forall i :: 0 <= i < |r| ==> r[i].ty != ty
    ensures forall i :: 0 <= i < |es| && es[i].ty != ty ==> es[i] in r
  {
    if es == [] then []
    else WithoutType(es[..|es| - 1], ty) + (if es[|es| - 1].ty == ty then [] else [es[|es| - 1]])
  }

  /** The callback of a watcher runs for an element of type `ty` (src/index.ts:24-31, 43-50). */
  predicate Fires<T(==), A>(w: Watcher<T, A>, ty: T)
  {
    w.filter.None? || w.filter.value == ty
  }

  /** The legacy `delete` runs only typed watchers of the same type (src/index.js:30-34). */
  predicate FiresLegacy<T(==), A>(w: Watcher<T, A>, ty: T)
  {
    w.filter == Some(ty)
  }

  /** The watchers whose callbacks run, in registration order. */
  function Fired<T(==), A>(ws: seq<Watcher<T, A>>, ty: T): (r: seq<Watcher<T, A>>)
    ensures forall i :: 0 <= i < |r| ==> Fires(r[i], ty)
    ensures forall i :: 0 <= i < |ws| && Fires(ws[i], ty) ==> ws[i] in r
    ensures |r| <= |ws|
  {
    if ws == [] then []
    else Fired(ws[..|ws| - 1], ty) + (if Fires(ws[|ws| - 1], ty) then [ws[|ws| - 1]] else [])
  }

  /** The watchers left registered: all but the one-shot watchers that ran. */
  function Kept<T(==), A>(ws: seq<Watcher<T, A>>, ty: T): (r: seq<Watcher<T, A>>)
    ensures forall i :: 0 <= i < |r| ==> !(Fires(r[i], ty) && r[i].one)
    ensures forall i :: 0 <= i < |ws| && !(Fires(ws[i], ty) && ws[i].one) ==> ws[i] in r
    ensures |r| <= |ws|
  {
    if ws == [] then []
    else Kept(ws[..|ws| - 1], ty) + (if Fires(ws[|ws| - 1], ty) && ws[|ws| - 1].one then [] else [ws[|ws| - 1]])
  }

  function FiredLegacy<T(==), A>(ws: seq<Watcher<T, A>>, ty: T): (r: seq<Watcher<T, A>>)
    ensures forall i :: 0 <= i < |r| ==> FiresLegacy(r[i], ty)
    ensures forall i :: 0 <= i < |ws| && FiresLegacy(ws[i], ty) ==> ws[i] in r
    ensures |r| <= |ws|
  {
    if ws == [] then []
    else FiredLegacy(ws[..|ws| - 1], ty) + (if FiresLegacy(ws[|ws| - 1], ty) then [ws[|ws| - 1]] else [])
  }

  /** The legacy `delete` drops every watcher that ran, one-shot or not. */
  function KeptLegacy<T(==), A>(ws: seq<Watcher<T, A>>, ty: T): (r: seq<Watcher<T, A>>)
    ensures forall i :: 0 <= i < |r| ==> !FiresLegacy(r[i], ty)
    ensures forall i :: 0 <= i < |ws| && !FiresLegacy(ws[i], ty) ==> ws[i] in r
    ensures |r| <= |ws|
  {
    if ws == [] then []
    else KeptLegacy(ws[..|ws| - 1], ty) + (if FiresLegacy(ws[|ws| - 1], ty) then [] else [ws[|ws| - 1]])
  }

  function FiredOnDelete<T(==), B>(legacy: bool, ws: seq<Watcher<T, B>>, ty: T): seq<Watcher<T, B>>
  {
    if legacy then FiredLegacy(ws, ty) else Fired(ws, ty)
  }

  function KeptOnDelete<T(==), B>(legacy: bool, ws: seq<Watcher<T, B>>, ty: T): seq<Watcher<T, B>>
  {
    if legacy then KeptLegacy(ws, ty) else Kept(ws, ty)
  }

  /** What an unwatch function leaves: every watcher but the one with that key. */
  function WithoutKey<T, A>(ws: seq<Watcher<T, A>>, key: nat): (r: seq<Watcher<T, A>>)
    ensures forall i :: 0 <= i < |r| ==> r[i].key != key
    ensures forall i :: 0 <= i < |ws| && ws[i].key != key ==> ws[i] in r
    ensures key !in Keys(ws) ==> r == ws
  {
    if ws == [] then []
    else
      KeysFront(ws);
      WithoutKey(ws[..|ws| - 1], key) + (if ws[|ws| - 1].key == key then [] else [ws[|ws| - 1]])
  }

  lemma KeysFront<T, A>(ws: seq<Watcher<T, A>>)
    requires ws != []
    ensures ws == ws[..|ws| - 1] + [ws[|ws| - 1]]
    ensures Keys(ws) == Keys(ws[..|ws| - 1]) + [ws[|ws| - 1].key]
  {
  }

  /** Deleting an id that no element has changes nothing. */
  lemma {:induction false} WithoutAbsent<T, V>(es: seq<Entry<T, V>>, id: nat)
    requires id !in Ids(es)
    ensures Without(es, id) == es
  {
    if es != [] {
      var front := es[..|es| - 1];
      assert Ids(es)[|es| - 1] == es[|es| - 1].id;
      assert id !in Ids(front) by {
        forall k | 0 <= k < |front| ensures Ids(front)[k] != id {
          assert Ids(es)[k] == front[k].id;
        }
      }
      WithoutAbsent(front, id);
    }
  }

  lemma {:induction false} WithoutSub<T, V>(es: seq<Entry<T, V>>, id: nat)
    ensures Sub(Without(es, id), es)
  {
    if es != [] {
      WithoutSub(es[..|es| - 1], id);
      SubStep(Without(es[..|es| - 1], id), es, if es[|es| - 1].id == id then [] else [es[|es| - 1]]);
    }
  }

  lemma {:induction false} WithoutTypeSub<T, V>(es: seq<Entry<T, V>>, ty: T)
    ensures Sub(WithoutType(es, ty), es)
  {
    if es != [] {
      WithoutTypeSub(es[..|es| - 1], ty);
      SubStep(WithoutType(es[..|es| - 1], ty), es, if es[|es| - 1].ty == ty then [] else [es[|es| - 1]]);
    }
  }

  lemma {:induction false} FiredSub<T, A>(ws: seq<Watcher<T, A>>, ty: T)
    ensures Sub(Fired(ws, ty), ws)
  {
    if ws != [] {
      FiredSub(ws[..|ws| - 1], ty);
      SubStep(Fired(ws[..|ws| - 1], ty), ws, if Fires(ws[|ws| - 1], ty) then [ws[|ws| - 1]] else []);
    }
  }

  lemma {:induction false} KeptSub<T, A>(ws: seq<Watcher<T, A>>, ty: T)
    ensures Sub(Kept(ws, ty), ws)
  {
    if ws != [] {
      KeptSub(ws[..|ws| - 1], ty);
      SubStep(Kept(ws[..|ws| - 1], ty), ws, if Fires(ws[|ws| - 1], ty) && ws[|ws| - 1].one then [] else [ws[|ws| - 1]]);
    }
  }

  lemma {:induction false} FiredLegacySub<T, A>(ws: seq<Watcher<T, A>>, ty: T)
    ensures Sub(FiredLegacy(ws, ty), ws)
  {
    if ws != [] {
      FiredLegacySub(ws[..|ws| - 1], ty);
      SubStep(FiredLegacy(ws[..|ws| - 1], ty), ws, if FiresLegacy(ws[|ws| - 1], ty) then [ws[|ws| - 1]] else []);
    }
  }

  lemma {:induction false} KeptLegacySub<T, A>(ws: seq<Watcher<T, A>>, ty: T)
    ensures Sub(KeptLegacy(ws, ty), ws)
  {
    if ws != [] {
      KeptLegacySub(ws[..|ws| - 1], ty);
      SubStep(KeptLegacy(ws[..|ws| - 1], ty), ws, if FiresLegacy(ws[|ws| - 1], ty) then [] else [ws[|ws| - 1]]);
    }
  }

  lemma FiredOnDeleteSub<T, B>(legacy: bool, ws: seq<Watcher<T, B>>, ty: T)
    ensures Sub(FiredOnDelete(legacy, ws, ty), ws)
  {
    if legacy { FiredLegacySub(ws, ty); } else { FiredSub(ws, ty); }
  }

  lemma KeptOnDeleteSub<T, B>(legacy: bool, ws: seq<Watcher<T, B>>, ty: T)
    ensures Sub(KeptOnDelete(legacy, ws, ty), ws)
  {
    if legacy { KeptLegacySub(ws, ty); } else { KeptSub(ws, ty); }
  }

  lemma {:induction false} WithoutKeySub<T, A>(ws: seq<Watcher<T, A>>, key: nat)
    ensures Sub(WithoutKey(ws, key), ws)
  {
    if ws != [] {
      WithoutKeySub(ws[..|ws| - 1], key);
      SubStep(WithoutKey(ws[..|ws| - 1], key), ws, if ws[|ws| - 1].key == key then [] else [ws[|ws| - 1]]);
    }
  }

  /** A set whose watchers are all persistent keeps every one of them. */
  lemma {:induction false} KeptAllPersistent<T, A>(ws: seq<Watcher<T, A>>, ty: T)
    requires forall w :: w in ws ==> !w.one
    ensures Kept(ws, ty) == ws
  {
    if ws != [] {
      KeptAllPersistent(ws[..|ws| - 1], ty);
      assert ws[..|ws| - 1] + [ws[|ws| - 1]] == ws;
    }
  }

  /** A set whose watchers are all one-shot keeps exactly those that did not run. */
  lemma {:induction false} KeptOneShot<T, A>(ws: seq<Watcher<T, A>>, ty: T)
    requires forall w :: w in ws ==> w.one
    ensures forall w :: w in Kept(ws, ty) <==> w in ws && !Fires(w, ty)
    ensures |Fired(ws, ty)| + |Kept(ws, ty)| == |ws|
  {
    if ws != [] {
      var front, last := ws[..|ws| - 1], ws[|ws| - 1];
      assert forall w :: w in front ==> w in ws;
      KeptOneShot(front, ty);
      assert ws == front + [last];
    }
  }

  class WatchedSet<T(==), V, A, B> {
    /** Selects the `delete` of src/index.js (src/index.js:25-40). */
    const legacy: bool
    var elems: seq<Entry<T, V>>
    /** `_add_cbs` */
    var addWatchers: seq<Watcher<T, A>>
    /** `_delete_cbs` */
    var deleteWatchers: seq<Watcher<T, B>>

    constructor (legacy: bool)
      ensures this.legacy == legacy
      ensures elems == [] && addWatchers == [] && deleteWatchers == []
    {
      this.legacy := legacy;
      elems, addWatchers, deleteWatchers := [], [], [];
    }

    /**
     * `_set.add(e)`: insert `e` (a present id leaves the set as it is), then
     * run every watcher that matches its type; a one-shot watcher is removed
     * after it ran. The watchers that ran are returned, in order, for the
     * caller to perform their callbacks.
     */
    method Add(e: Entry<T, V>) returns (fired: seq<Watcher<T, A>>)
      modifies this`elems, this`addWatchers
      ensures elems == if e.id in Ids(old(elems)) then old(elems) else old(elems) + [e]
      ensures fired == Fired(old(addWatchers), e.ty)
      ensures addWatchers == Kept(old(addWatchers), e.ty)
    {
      if e.id !in Ids(elems) {
        elems := elems + [e];
      }
      var kept;
      fired, kept := RunAddWatchers(addWatchers, e.ty);
      addWatchers := kept;
    }

    /** The `_add_cbs.forEach` loop of `add`. */
    static method RunAddWatchers(ws: seq<Watcher<T, A>>, ty: T) returns (fired: seq<Watcher<T, A>>, kept: seq<Watcher<T, A>>)
      ensures fired == Fired(ws, ty) && kept == Kept(ws, ty)
    {
      fired, kept := [], [];
      var i := 0;
      while i < |ws|
        invariant 0 <= i <= |ws|
        invariant fired == Fired(ws[..i], ty)
        invariant kept == Kept(ws[..i], ty)
      {
        assert ws[..i + 1][..i] == ws[..i];
        var w := ws[i];
        if Fires(w, ty) {
          fired := fired + [w];
        }
        if !(Fires(w, ty) && w.one) {
          kept := kept + [w];
        }
        i := i + 1;
      }
      assert ws[..i] == ws;
    }

    /** The `_delete_cbs.forEach` loop of `delete`. */
    static method RunDeleteWatchers(legacy: bool, ws: seq<Watcher<T, B>>, ty: T)
      returns (fired: seq<Watcher<T, B>>, kept: seq<Watcher<T, B>>)
      ensures fired == FiredOnDelete(legacy, ws, ty) && kept == KeptOnDelete(legacy, ws, ty)
    {
      fired, kept := [], [];
      var i := 0;
      while i < |ws|
        invariant 0 <= i <= |ws|
        invariant fired == FiredOnDelete(legacy, ws[..i], ty)
        invariant kept == KeptOnDelete(legacy, ws[..i], ty)
      {
        assert ws[..i + 1][..i] == ws[..i];
        var w := ws[i];
        var runs := if legacy then FiresLegacy(w, ty) else Fires(w, ty);
        if runs {
          fired := fired + [w];
        }
        if !(runs && (legacy || w.one)) {
          kept := kept + [w];
        }
        i := i + 1;
      }
      assert ws[..i] == ws;
    }

    /**
     * `_set.delete(e)` for the element with this id: when it was present it is
     * removed and the delete watchers of its type run (src/index.ts: untyped
     * ones too, one-shot ones are then removed; src/index.js: typed ones only,
     * all of them removed).
     */
    method Delete(id: nat) returns (removed: bool, fired: seq<Watcher<T, B>>)
      modifies this`elems, this`deleteWatchers
      ensures removed == (id in Ids(old(elems)))
      ensures elems == Without(old(elems), id)
      ensures !removed ==> fired == [] && elems == old(elems) && deleteWatchers == old(deleteWatchers)
      ensures removed ==>
                fired == FiredOnDelete(legacy, old(deleteWatchers), Lookup(old(elems), id).ty) &&
                deleteWatchers == KeptOnDelete(legacy, old(deleteWatchers), Lookup(old(elems), id).ty)
    {
      removed := id in Ids(elems);
      fired := [];
      if !removed {
        WithoutAbsent(elems, id);
      } else {
        var ty := Lookup(elems, id).ty;
        elems := Without(elems, id);
        var kept;
        fired, kept := RunDeleteWatchers(legacy, deleteWatchers, ty);
        deleteWatchers := kept;
      }
    }

    /** `watch_add` (`one` false) and `watch_add_one` (`one` true). */
    method WatchAdd(key: nat, filter: Option<T>, one: bool, tag: A)
      modifies this`addWatchers
      ensures addWatchers == old(addWatchers) + [Watcher(key, filter, one, tag)]
    {
      addWatchers := addWatchers + [Watcher(key, filter, one, tag)];
    }

    /** `watch_delete` (`one` false) and `watch_delete_one` (`one` true). */
    method WatchDelete(key: nat, filter: Option<T>, one: bool, tag: B)
      modifies this`deleteWatchers
      ensures deleteWatchers == old(deleteWatchers) + [Watcher(key, filter, one, tag)]
    {
      deleteWatchers := deleteWatchers + [Watcher(key, filter, one, tag)];
    }

    /** The function returned by `watch_add*`: `_add_cbs.delete(args)`. */
    method UnwatchAdd(key: nat) returns (removed: bool)
      modifies this`addWatchers
      ensures removed == (key in Keys(old(addWatchers)))
      ensures addWatchers == WithoutKey(old(addWatchers), key)
    {
      removed := key in Keys(addWatchers);
      addWatchers := WithoutKey(addWatchers, key);
    }

    /** The function returned by `watch_delete*`: `_delete_cbs.delete(args)`. */
    method UnwatchDelete(key: nat) returns (removed: bool)
      modifies this`deleteWatchers
      ensures removed == (key in Keys(old(deleteWatchers)))
      ensures deleteWatchers == WithoutKey(old(deleteWatchers), key)
    {
      removed := key in Keys(deleteWatchers);
      deleteWatchers := WithoutKey(deleteWatchers, key);
    }
  }
}
