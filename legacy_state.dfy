/**
 * The state invariants of the channel of src/index.js, whose sets use the
 * older `delete` (every typed delete watcher of the deleted item's type runs
 * and is dropped), stated on values so that `LegacyChannel` can keep them.
 */
module LegacyState {
  import opened Wrappers
  import opened WatchedSets
  import opened Registry
  import opened ChannelState

  /** A set's items, its delete watchers (the guards) and the notes the guards logged. */
  datatype Swept<T, V> = Swept(elems: seq<Entry<T, V>>, guards: seq<Watcher<T, T>>, notes: seq<Note<nat, T>>)

  /**
   * `_set.delete(item)` of src/index.js for the item numbered `n`: when it is
   * stored, it goes, every guard of its type runs and is dropped, and only
   * its own guard, if still registered, reports the deletion (as `cancel`).
   */
  function LDel<T(==), V>(s: Swept<T, V>, n: nat, ev: Event): Swept<T, V>
  {
    if n !in Ids(s.elems) then s
    else
      var ty := Lookup(s.elems, n).ty;
      Swept(Without(s.elems, n), KeptLegacy(s.guards, ty),
            s.notes + if n in Keys(s.guards) then [Note(Some(n), ev, Cancel, ty)] else [])
  }

  /** The deletions of the items numbered `ns`, in that order. */
  function LDelAll<T(==), V>(s: Swept<T, V>, ns: seq<nat>, ev: Event): Swept<T, V>
    decreases |ns|
  {
    if ns == [] then s else LDel(LDelAll(s, ns[..|ns| - 1], ev), ns[|ns| - 1], ev)
  }

  lemma LDelAllSnoc<T, V>(s: Swept<T, V>, ns: seq<nat>, n: nat, ev: Event)
    ensures LDelAll(s, ns + [n], ev) == LDel(LDelAll(s, ns, ev), n, ev)
  {
    assert (ns + [n])[..|ns|] == ns;
  }

  /** A deletion only appends to the notes already there. */
  lemma LDelFrom<T, V>(elems: seq<Entry<T, V>>, guards: seq<Watcher<T, T>>, acc: seq<Note<nat, T>>, n: nat, ev: Event)
    ensures var r := LDel(Swept(elems, guards, []), n, ev);
            LDel(Swept(elems, guards, acc), n, ev) == Swept(r.elems, r.guards, acc + r.notes)
  {
  }

  /**
   * A call of the callback `on` stored for listener `l`: a `once` listener
   * first deletes itself (its `run.cancel()`), then `on` reports the run.
   */
  function LCall<T(==), C>(s: Swept<T, Handler<C>>, l: Listener<T, C>): Swept<T, Handler<C>>
  {
    var s' := if l.val.once then LDel(s, l.id, OnEvent) else s;
    s'.(notes := s'.notes + [Note(Some(l.id), OnEvent, Run, l.ty)])
  }

  /** The calls of the listeners `ls` in order, as the `forEach` of `#emit` makes them. */
  function LCallAll<T(==), C>(s: Swept<T, Handler<C>>, ls: seq<Listener<T, C>>): Swept<T, Handler<C>>
    decreases |ls|
  {
    if ls == [] then s else LCall(LCallAll(s, ls[..|ls| - 1]), ls[|ls| - 1])
  }

  /** A call only appends to the notes already there. */
  lemma LCallFrom<T, C>(elems: seq<Listener<T, C>>, guards: seq<Watcher<T, T>>, acc: seq<Note<nat, T>>, l: Listener<T, C>)
    ensures var r := LCall(Swept(elems, guards, []), l);
            LCall(Swept(elems, guards, acc), l) == Swept(r.elems, r.guards, acc + r.notes)
  {
    LDelFrom(elems, guards, acc, l.id, OnEvent);
  }

  lemma LCallAllSnoc<T, C>(s: Swept<T, Handler<C>>, ls: seq<Listener<T, C>>, l: Listener<T, C>)
    ensures LCallAll(s, ls + [l]) == LCall(LCallAll(s, ls), l)
  {
    assert (ls + [l])[..|ls|] == ls;
  }

  /** A queued microtask of `#emit`: its listener is called, then the emit reports its run. */
  function LDelivered<T(==), C, P>(s: Swept<T, Handler<C>>, d: Delivery<T, C, P>): Swept<T, Handler<C>>
  {
    var c := LCall(s, d.listener);
    c.(notes := c.notes + [Note(Some(d.emit), EmitEvent, Run, d.ty)])
  }

  /** The queued microtasks `ds`, run in queue order. */
  function LDeliveredAll<T(==), C, P>(s: Swept<T, Handler<C>>, ds: seq<Delivery<T, C, P>>): Swept<T, Handler<C>>
    decreases |ds|
  {
    if ds == [] then s else LDelivered(LDeliveredAll(s, ds[..|ds| - 1]), ds[|ds| - 1])
  }

  lemma LDeliveredAllSnoc<T, C, P>(s: Swept<T, Handler<C>>, ds: seq<Delivery<T, C, P>>, d: Delivery<T, C, P>)
    ensures LDeliveredAll(s, ds + [d]) == LDelivered(LDeliveredAll(s, ds), d)
  {
    assert (ds + [d])[..|ds|] == ds;
  }

  /** After the microtasks `ds`, none of their `once` listeners is still stored. */
  lemma {:induction false} LDeliveredGone<T, C, P>(s: Swept<T, Handler<C>>, ds: seq<Delivery<T, C, P>>, i: nat)
    requires i < |ds| && ds[i].listener.val.once
    ensures ds[i].listener.id !in Ids(LDeliveredAll(s, ds).elems)
  {
    var front, d := ds[..|ds| - 1], ds[|ds| - 1];
    var r := LDeliveredAll(s, front);
    var e := ds[i];
    if i < |front| {
      assert e == front[i];
      LDeliveredGone(s, front, i);
    }
    assert LDeliveredAll(s, ds).elems == LCall(r, d.listener).elems;
    if d.listener.val.once {
      LDelGone(r, d.listener.id, e.listener.id, OnEvent);
    }
  }

  /** The `forEach` that deletes every item of type `ty` in insertion order, from no notes. */
  function Sweep<T(==), V>(s: Swept<T, V>, ty: T, ev: Event): Swept<T, V>
  {
    LDelAll(s.(notes := []), Ids(OfType(s.elems, ty)), ev)
  }

  /** The emits whose delivery watchers `fired` are, in firing order. */
  function Emits<T, P>(fired: seq<Watcher<T, Pending<P>>>): (r: seq<nat>)
    ensures |r| == |fired| && forall i :: 0 <= i < |fired| ==> r[i] == fired[i].tag.emit
  {
    seq(|fired|, i requires 0 <= i < |fired| => fired[i].tag.emit)
  }

  /** What `#off(...types)` leaves of the two sets, and the notes their guards logged. */
  datatype OffRun<T, C, P> = OffRun(listeners: Swept<T, Handler<C>>, cache: Swept<T, P>, notes: seq<Note<nat, T>>)

  /** `#off(...types)`: per type, the listeners are swept, then the cached emits. */
  function LOff<T(==), C, P>(l: Swept<T, Handler<C>>, c: Swept<T, P>, types: seq<T>): OffRun<T, C, P>
    decreases |types|
  {
    if types == [] then OffRun(l, c, [])
    else
      var r := LOff(l, c, types[..|types| - 1]);
      var t := types[|types| - 1];
      var a, b := Sweep(r.listeners, t, OnEvent), Sweep(r.cache, t, EmitEvent);
      OffRun(a.(notes := []), b.(notes := []), r.notes + a.notes + b.notes)
  }

  lemma LOffSnoc<T, C, P>(l: Swept<T, Handler<C>>, c: Swept<T, P>, types: seq<T>, i: nat)
    requires i < |types|
    ensures var r := LOff(l, c, types[..i]);
            var a, b := Sweep(r.listeners, types[i], OnEvent), Sweep(r.cache, types[i], EmitEvent);
            LOff(l, c, types[..i + 1]) == OffRun(a.(notes := []), b.(notes := []), r.notes + a.notes + b.notes)
  {
    assert types[..i + 1][..i] == types[..i];
  }

  lemma IdsSnoc<T, V>(es: seq<Entry<T, V>>, e: Entry<T, V>)
    ensures Ids(es + [e]) == Ids(es) + [e.id]
  {
    assert |Ids(es + [e])| == |Ids(es) + [e.id]|;
    forall k | 0 <= k < |es| + 1 ensures Ids(es + [e])[k] == (Ids(es) + [e.id])[k] {
      if k < |es| { assert (es + [e])[k] == es[k]; }
    }
  }

  /**
   * The guards of a set: persistent typed watchers with distinct keys, and a
   * guard whose key is a stored item's id is that item's own guard.
   */
  ghost predicate OwnGuards<T, V>(es: seq<Entry<T, V>>, ws: seq<Watcher<T, T>>)
  {
    DistinctKeys(ws) &&
    (forall i :: 0 <= i < |ws| ==> IsGuard(ws[i])) &&
    (forall i, j :: 0 <= i < |ws| && 0 <= j < |es| && ws[i].key == es[j].id ==> ws[i] == Guard(es[j]))
  }

  /** The listener set of src/index.js. */
  ghost predicate LListenerInv<T, C, P>(es: seq<Listener<T, C>>, dws: seq<Watcher<T, T>>, aws: seq<Watcher<T, Pending<P>>>, counter: nat)
  {
    DistinctIds(es) &&
    (forall i :: 0 <= i < |es| ==> es[i].id <= counter) &&
    OwnGuards(es, dws) &&
    (forall i :: 0 <= i < |dws| ==> dws[i].key <= counter) &&
    (forall i :: 0 <= i < |aws| ==> DeliveryWatcher(aws[i]) && aws[i].key <= counter)
  }

  /** The emit cache of src/index.js. */
  ghost predicate LCacheInv<T, P>(es: seq<Entry<T, P>>, dws: seq<Watcher<T, T>>, aws: seq<Watcher<T, ()>>, counter: nat)
  {
    DistinctIds(es) &&
    aws == [] &&
    OwnGuards(es, dws) &&
    (forall i :: 0 <= i < |es| ==> es[i].id <= counter) &&
    (forall i :: 0 <= i < |dws| ==> dws[i].key <= counter)
  }

  /**
   * Deleting a stored item: the guards that run are those of its type, its
   * own guard is among them exactly when it is registered, and it reports
   * the deletion once; none of the item's type stays.
   */
  lemma LegacyDeleteFacts<T, V>(es: seq<Entry<T, V>>, ws: seq<Watcher<T, T>>, n: nat, ev: Event)
    requires OwnGuards(es, ws) && n in Ids(es)
    ensures SelfNotes(FiredLegacy(ws, Lookup(es, n).ty), n, n, ev, Cancel) ==
            if n in Keys(ws) then [Note(Some(n), ev, Cancel, Lookup(es, n).ty)] else []
    ensures n in Keys(FiredLegacy(ws, Lookup(es, n).ty)) <==> n in Keys(ws)
    ensures n !in Keys(KeptLegacy(ws, Lookup(es, n).ty))
  {
    var e := Lookup(es, n);
    OwnGuardOf(es, ws, n);
    SelfNotesOfGuard(ws, n, e.ty, true, n, ev, Cancel);
    TypedKeyFiresLegacy(ws, e.ty, n);
    TypedKeyGoesLegacy(ws, e.ty, n);
  }

  /** In a set with its own guards, a watcher keyed by a stored item's id is that item's guard. */
  lemma OwnGuardOf<T, V>(es: seq<Entry<T, V>>, ws: seq<Watcher<T, T>>, n: nat)
    requires OwnGuards(es, ws) && n in Ids(es)
    ensures forall i :: 0 <= i < |ws| && ws[i].key == n ==> ws[i] == Watcher(n, Some(Lookup(es, n).ty), false, Lookup(es, n).ty)
  {
    var e := Lookup(es, n);
    var j :| 0 <= j < |es| && es[j] == e;
    forall i | 0 <= i < |ws| && ws[i].key == n ensures ws[i] == Watcher(n, Some(e.ty), false, e.ty) {
      assert ws[i] == Guard(es[j]);
    }
  }

  /** A key whose watchers are all typed `ty` runs under the legacy `delete` of a `ty` item. */
  lemma {:induction false} TypedKeyFiresLegacy<T, A>(ws: seq<Watcher<T, A>>, ty: T, n: nat)
    requires forall i :: 0 <= i < |ws| && ws[i].key == n ==> ws[i].filter == Some(ty)
    ensures n in Keys(FiredLegacy(ws, ty)) <==> n in Keys(ws)
  {
    if ws != [] {
      var front, w := ws[..|ws| - 1], ws[|ws| - 1];
      assert forall i :: 0 <= i < |front| ==> front[i] == ws[i];
      TypedKeyFiresLegacy(front, ty, n);
      assert Keys(ws) == Keys(front) + [w.key];
      KeysConcat(FiredLegacy(front, ty), if FiresLegacy(w, ty) then [w] else []);
    }
  }

  /** A key whose watchers are all typed `ty` is not kept by the legacy `delete` of a `ty` item. */
  lemma {:induction false} TypedKeyGoesLegacy<T, A>(ws: seq<Watcher<T, A>>, ty: T, n: nat)
    requires forall i :: 0 <= i < |ws| && ws[i].key == n ==> ws[i].filter == Some(ty)
    ensures n !in Keys(KeptLegacy(ws, ty))
  {
    if ws != [] {
      var front, w := ws[..|ws| - 1], ws[|ws| - 1];
      assert forall i :: 0 <= i < |front| ==> front[i] == ws[i];
      TypedKeyGoesLegacy(front, ty, n);
      KeysConcat(KeptLegacy(front, ty), if FiresLegacy(w, ty) then [] else [w]);
    }
  }

  /** Dropping items and guards keeps the remaining guards the items' own. */
  lemma OwnGuardsSub<T, V>(es: seq<Entry<T, V>>, ws: seq<Watcher<T, T>>, es': seq<Entry<T, V>>, ws': seq<Watcher<T, T>>)
    requires OwnGuards(es, ws) && Sub(es', es) && Sub(ws', ws)
    ensures OwnGuards(es', ws')
  {
    SubDistinctKeys(ws', ws);
    forall i | 0 <= i < |ws'| ensures IsGuard(ws'[i]) {
      SubMember(ws', ws, i);
    }
    forall i, j | 0 <= i < |ws'| && 0 <= j < |es'| && ws'[i].key == es'[j].id ensures ws'[i] == Guard(es'[j]) {
      SubMember(ws', ws, i);
      SubMember(es', es, j);
    }
  }

  /** A deletion keeps both invariants of a set. */
  lemma LListenerInvDel<T, C, P>(es: seq<Listener<T, C>>, dws: seq<Watcher<T, T>>, aws: seq<Watcher<T, Pending<P>>>,
                                 counter: nat, n: nat, ty: T, es': seq<Listener<T, C>>, dws': seq<Watcher<T, T>>)
    requires LListenerInv(es, dws, aws, counter)
    requires es' == Without(es, n) && dws' == KeptLegacy(dws, ty)
    ensures LListenerInv(es', dws', aws, counter)
  {
    WithoutSub(es, n);
    KeptLegacySub(dws, ty);
    SubDistinctIds(es', es);
    OwnGuardsSub(es, dws, es', dws');
    forall i | 0 <= i < |es'| ensures es'[i].id <= counter {
      SubMember(es', es, i);
    }
    forall i | 0 <= i < |dws'| ensures dws'[i].key <= counter {
      SubMember(dws', dws, i);
    }
  }

  lemma LCacheInvDel<T, P>(es: seq<Entry<T, P>>, dws: seq<Watcher<T, T>>, counter: nat, n: nat, ty: T,
                           es': seq<Entry<T, P>>, dws': seq<Watcher<T, T>>)
    requires LCacheInv(es, dws, [], counter)
    requires es' == Without(es, n) && dws' == KeptLegacy(dws, ty)
    ensures LCacheInv(es', dws', [], counter)
  {
    WithoutSub(es, n);
    KeptLegacySub(dws, ty);
    SubDistinctIds(es', es);
    OwnGuardsSub(es, dws, es', dws');
    forall i | 0 <= i < |es'| ensures es'[i].id <= counter {
      SubMember(es', es, i);
    }
    forall i | 0 <= i < |dws'| ensures dws'[i].key <= counter {
      SubMember(dws', dws, i);
    }
  }

  /** A deletion keeps an id that neither set part uses unused. */
  lemma FreshAfterLDel<T, V>(es: seq<Entry<T, V>>, ws: seq<Watcher<T, T>>, n: nat, ty: T, m: nat)
    requires FreshIn(es, ws, m)
    ensures FreshIn(Without(es, n), KeptLegacy(ws, ty), m)
  {
    var es', ws' := Without(es, n), KeptLegacy(ws, ty);
    WithoutSub(es, n);
    KeptLegacySub(ws, ty);
    forall i | 0 <= i < |es'| ensures Ids(es')[i] != m {
      SubMember(es', es, i);
      var j :| 0 <= j < |es| && es[j] == es'[i];
      assert Ids(es)[j] == es[j].id;
    }
    forall i | 0 <= i < |ws'| ensures Keys(ws')[i] != m {
      SubMember(ws', ws, i);
      var j :| 0 <= j < |ws| && ws[j] == ws'[i];
      assert Keys(ws)[j] == ws[j].key;
    }
  }

  /** The next id is used by no listener, no guard and no delivery watcher. */
  lemma LListenerFresh<T, C, P>(es: seq<Listener<T, C>>, dws: seq<Watcher<T, T>>, aws: seq<Watcher<T, Pending<P>>>, counter: nat)
    requires LListenerInv(es, dws, aws, counter)
    ensures FreshIn(es, dws, counter + 1) && counter + 1 !in Keys(aws)
  {
    forall i | 0 <= i < |es| ensures Ids(es)[i] != counter + 1 {
      assert es[i].id <= counter;
    }
    forall i | 0 <= i < |dws| ensures Keys(dws)[i] != counter + 1 {
      assert dws[i].key <= counter;
    }
    forall i | 0 <= i < |aws| ensures Keys(aws)[i] != counter + 1 {
      assert aws[i].key <= counter;
    }
  }

  /** The next id is used by no cached emit and no guard. */
  lemma LCacheFresh<T, P>(es: seq<Entry<T, P>>, dws: seq<Watcher<T, T>>, counter: nat)
    requires LCacheInv(es, dws, [], counter)
    ensures FreshIn(es, dws, counter + 1)
  {
    forall i | 0 <= i < |es| ensures Ids(es)[i] != counter + 1 {
      assert es[i].id <= counter;
    }
    forall i | 0 <= i < |dws| ensures Keys(dws)[i] != counter + 1 {
      assert dws[i].key <= counter;
    }
  }

  /** Taking a new id keeps the invariants. */
  lemma LInvGrow<T, C, P, Q>(es: seq<Listener<T, C>>, dws: seq<Watcher<T, T>>, aws: seq<Watcher<T, Pending<P>>>,
                             ces: seq<Entry<T, Q>>, cdws: seq<Watcher<T, T>>, counter: nat, counter': nat)
    requires LListenerInv(es, dws, aws, counter) && LCacheInv(ces, cdws, [], counter) && counter <= counter'
    ensures LListenerInv(es, dws, aws, counter') && LCacheInv(ces, cdws, [], counter')
  {
  }

  /** Storing a fresh item and registering its guard. */
  lemma OwnGuardsAdd<T, V>(es: seq<Entry<T, V>>, ws: seq<Watcher<T, T>>, e: Entry<T, V>, stored: bool)
    requires OwnGuards(es, ws) && FreshIn(es, ws, e.id)
    ensures OwnGuards(es + (if stored then [e] else []), ws + [Guard(e)])
  {
    var es', ws' := es + (if stored then [e] else []), ws + [Guard(e)];
    forall i, j | 0 <= i < j < |ws'| ensures ws'[i].key != ws'[j].key {
      if j == |ws| { assert Keys(ws)[i] == ws[i].key; }
    }
    assert forall i, j :: 0 <= i < |ws'| && 0 <= j < |es'| && ws'[i].key == es'[j].id ==> ws'[i] == Guard(es'[j]);
  }

  /**
   * `#listener.add(item)` of a fresh listener followed by its guard: the
   * delivery watchers that ran are gone.
   */
  lemma LListenerInvAdd<T, C, P>(es: seq<Listener<T, C>>, dws: seq<Watcher<T, T>>, aws: seq<Watcher<T, Pending<P>>>,
                                 counter: nat, e: Listener<T, C>,
                                 es': seq<Listener<T, C>>, dws': seq<Watcher<T, T>>, aws': seq<Watcher<T, Pending<P>>>, counter': nat)
    requires LListenerInv(es, dws, aws, counter)
    requires e.id == counter + 1 && counter' == e.id
    requires es' == es + [e] && dws' == dws + [Guard(e)] && aws' == Kept(aws, e.ty)
    ensures LListenerInv(es', dws', aws', counter')
  {
    LListenerFresh(es, dws, aws, counter);
    forall i, j | 0 <= i < j < |es'| ensures es'[i].id != es'[j].id {
      if j == |es| { assert Ids(es)[i] == es[i].id; }
    }
    OwnGuardsAdd(es, dws, e, true);
    KeptSub(aws, e.ty);
    forall i | 0 <= i < |aws'| ensures DeliveryWatcher(aws'[i]) && aws'[i].key <= counter' {
      SubMember(aws', aws, i);
    }
  }

  /** A new delivery watcher, and the removal of one. */
  lemma LListenerInvWatch<T, C, P>(es: seq<Listener<T, C>>, dws: seq<Watcher<T, T>>, aws: seq<Watcher<T, Pending<P>>>,
                                   counter: nat, w: Watcher<T, Pending<P>>, aws': seq<Watcher<T, Pending<P>>>)
    requires LListenerInv(es, dws, aws, counter) && DeliveryWatcher(w) && w.key <= counter && aws' == aws + [w]
    ensures LListenerInv(es, dws, aws', counter)
  {
  }

  lemma LListenerInvUnwatch<T, C, P>(es: seq<Listener<T, C>>, dws: seq<Watcher<T, T>>, aws: seq<Watcher<T, Pending<P>>>,
                                     counter: nat, key: nat, aws': seq<Watcher<T, Pending<P>>>)
    requires LListenerInv(es, dws, aws, counter) && aws' == WithoutKey(aws, key)
    ensures LListenerInv(es, dws, aws', counter)
  {
    WithoutKeySub(aws, key);
    forall i | 0 <= i < |aws'| ensures DeliveryWatcher(aws'[i]) && aws'[i].key <= counter {
      SubMember(aws', aws, i);
    }
  }

  /** Registering the guard of emit `e`, and storing `e` itself when it is cached. */
  lemma LCacheInvRegister<T, P>(es: seq<Entry<T, P>>, dws: seq<Watcher<T, T>>, counter: nat, e: Entry<T, P>, stored: bool,
                                es': seq<Entry<T, P>>, dws': seq<Watcher<T, T>>)
    requires LCacheInv(es, dws, [], counter) && FreshIn(es, dws, e.id) && e.id <= counter
    requires es' == es + (if stored then [e] else []) && dws' == dws + [Guard(e)]
    ensures LCacheInv(es', dws', [], counter)
  {
    OwnGuardsAdd(es, dws, e, stored);
    if stored {
      forall i, j | 0 <= i < j < |es'| ensures es'[i].id != es'[j].id {
        if j == |es| { assert Ids(es)[i] == es[i].id; }
      }
    }
  }
  /** Deleting the item added last, whose guard is the last guard: it goes, with every guard of its type, and its own guard reports. */
  lemma LDelLast<T, V>(kept: Swept<T, V>, e: Entry<T, V>, ev: Event)
    requires DistinctIds(kept.elems + [e])
    ensures LDel(Swept(kept.elems + [e], kept.guards + [Guard(e)], []), e.id, ev) ==
            Swept(kept.elems, KeptLegacy(kept.guards, e.ty), [Note(Some(e.id), ev, Cancel, e.ty)])
  {
    var es, ws := kept.elems + [e], kept.guards + [Guard(e)];
    LastFresh(kept.elems, e);
    WithoutFreshSnoc(kept.elems, e);
    assert Keys(ws)[|kept.guards|] == e.id;
    assert ws[..|ws| - 1] == kept.guards && FiresLegacy(ws[|ws| - 1], e.ty);
    assert KeptLegacy(ws, e.ty) == KeptLegacy(kept.guards, e.ty);
    assert Lookup(es, e.id).ty == e.ty;
  }
  /** After `LDel(s, n, ev)`, `n` is gone, and no id that was absent comes back. */
  lemma LDelGone<T, V>(s: Swept<T, V>, n: nat, m: nat, ev: Event)
    ensures n !in Ids(LDel(s, n, ev).elems)
    ensures m !in Ids(s.elems) ==> m !in Ids(LDel(s, n, ev).elems)
  {
    WithoutGone(s.elems, n, m);
  }

  /**
   * `_set.delete(item)` as src/index.ts writes it: only the one-shot
   * watchers that ran are dropped, so the guards of the other items of the
   * type stay registered.
   */
  function LDelKept<T(==), V>(s: Swept<T, V>, n: nat, ev: Event): Swept<T, V>
  {
    if n !in Ids(s.elems) then s
    else
      var ty := Lookup(s.elems, n).ty;
      Swept(Without(s.elems, n), Kept(s.guards, ty),
            s.notes + if n in Keys(s.guards) then [Note(Some(n), ev, Cancel, ty)] else [])
  }

  /** Two listeners of one type, each with its guard. */
  function TwoOfType<T, V>(t: T, a: V, b: V): Swept<T, V>
  {
    Swept([Entry(1, t, a), Entry(2, t, b)], [Guard(Entry(1, t, a)), Guard(Entry(2, t, b))], [])
  }

  lemma OneOfTwoGone<T, V>(t: T, a: V, b: V)
    ensures Without(TwoOfType(t, a, b).elems, 1) == [Entry(2, t, b)]
  {
    var e := [Entry(1, t, a)];
    assert TwoOfType(t, a, b).elems[..1] == e && e[..0] == [];
    assert Without(e, 1) == [];
  }

  /**
   * As written in src/index.js: deleting the first of two items of a type
   * drops the second one's guard too, so deleting the second afterwards
   * removes it without its `cancel` report.
   */
  /** The first deletion of `SiblingGuardLost`: item 1 goes, reports, and takes both guards with it. */
  lemma FirstOfTwoDeleted<T, V>(t: T, a: V, b: V, ev: Event)
    ensures LDel(TwoOfType(t, a, b), 1, ev) == Swept([Entry(2, t, b)], [], [Note(Some(1), ev, Cancel, t)])
  {
    var s0 := TwoOfType(t, a, b);
    assert Ids(s0.elems) == [1, 2] && Keys(s0.guards) == [1, 2];
    assert Lookup(s0.elems, 1).ty == t;
    var g := [Guard(Entry(1, t, a))];
    assert s0.guards[..1] == g && g[..0] == [];
    assert KeptLegacy(g, t) == [];
    OneOfTwoGone(t, a, b);
  }

  /**
   * As written in src/index.js: deleting the first of two items of a type
   * drops the second one's guard too, so deleting the second afterwards
   * removes it without its `cancel` report.
   */
  lemma SiblingGuardLost<T, V>(t: T, a: V, b: V, ev: Event)
    ensures var s := LDel(LDel(TwoOfType(t, a, b), 1, ev), 2, ev);
            s.elems == [] && s.guards == [] && s.notes == [Note(Some(1), ev, Cancel, t)]
  {
    FirstOfTwoDeleted(t, a, b, ev);
    var s1 := Swept([Entry(2, t, b)], [], [Note(Some(1), ev, Cancel, t)]);
    assert Ids(s1.elems) == [2] && Keys(s1.guards) == [];
    assert Lookup(s1.elems, 2).ty == t;
    assert [Entry(2, t, b)][..0] == [];
    assert Without(s1.elems, 2) == [];
  }

  /** Deleting with `Kept` when no guard is one-shot: the item goes and the guards stay. */
  lemma LDelKeptGuarded<T, V>(s: Swept<T, V>, n: nat, ev: Event)
    requires n in Ids(s.elems) && forall w :: w in s.guards ==> !w.one
    ensures LDelKept(s, n, ev) ==
            Swept(Without(s.elems, n), s.guards, s.notes + if n in Keys(s.guards) then [Note(Some(n), ev, Cancel, Lookup(s.elems, n).ty)] else [])
  {
    KeptAllPersistent(s.guards, Lookup(s.elems, n).ty);
  }

  /**
   * Corrected: with the delete of src/index.ts every deletion of a guarded
   * item reports its own `cancel`, whatever was deleted before it.
   */
  lemma SiblingGuardKept<T, V>(t: T, a: V, b: V, ev: Event)
    ensures var s := LDelKept(LDelKept(TwoOfType(t, a, b), 1, ev), 2, ev);
            s.elems == [] && s.notes == [Note(Some(1), ev, Cancel, t), Note(Some(2), ev, Cancel, t)]
  {
    var s0 := TwoOfType(t, a, b);
    var g := s0.guards;
    assert Ids(s0.elems) == [1, 2] && Keys(g) == [1, 2];
    assert Lookup(s0.elems, 1).ty == t;
    forall w | w in g ensures !w.one {
      assert w == Guard(Entry(1, t, a)) || w == Guard(Entry(2, t, b));
    }
    LDelKeptGuarded(s0, 1, ev);
    OneOfTwoGone(t, a, b);
    var s1 := Swept([Entry(2, t, b)], g, [Note(Some(1), ev, Cancel, t)]);
    assert LDelKept(s0, 1, ev) == s1;
    LDelKeptGuarded(s1, 2, ev);
    assert Ids(s1.elems) == [2];
    assert Lookup(s1.elems, 2).ty == t;
    assert [Entry(2, t, b)][..0] == [];
    assert Without(s1.elems, 2) == [];
    assert LDelKept(s1, 2, ev) == Swept([], g, s1.notes + [Note(Some(2), ev, Cancel, t)]);
  }
}
