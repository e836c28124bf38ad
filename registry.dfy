/**
 * Values and sequence functions shared by both versions of
 * `AsyncEventChannel`: watch notifications, stored listeners, scheduled
 * deliveries of cached emits, and the guards (`watch_delete` watchers that
 * `on` and `emit` register to report their own deletion).
 */
module Registry {
  import opened Wrappers
  import opened WatchedSets

  /** `WatchDataItem.event` */
  datatype Event = OnEvent | EmitEvent | OnceEvent | ImmedOnceEvent | ImmedEmitEvent | OffEvent

  /** `WatchDataItem.progress` */
  datatype Progress = Register | Run | Cancel | Delete

  /** A watch notification `{id, event, progress, type}` (its `value` is not modelled). */
  datatype Note<I, T> = Note(id: Option<I>, event: Event, progress: Progress, ty: T)

  /**
   * A watch callback: `watch(cb)` (filter `None`) or `watch(type, cb)`. It
   * receives the notifications logged from position `from` on, up to
   * `until` once it has been removed.
   */
  datatype WatchRec<T> = WatchRec(key: nat, filter: Option<T>, from: nat, until: Option<nat>)

  /** A stored listener callback; `once` marks the wrapper that `once` installs around it. */
  datatype Handler<C> = Handler(cb: C, once: bool)

  /**
   * A cached emit's delivery to a listener, queued by
   * `Promise.resolve().then(...)`: the emit's id and type, its parameters and
   * the listener item that the add watcher was given.
   */
  datatype Delivery<T, C, P> = Delivery(emit: nat, ty: T, params: P, listener: Entry<T, Handler<C>>)

  /** The values recorded for emit `n` so far. */
  function ValuesOf<R>(results: map<nat, seq<R>>, n: nat): seq<R>
  {
    if n in results then results[n] else []
  }

  /** The replies that the microtasks `ds` bring to emit `n`, in queue order. */
  function RepliesTo<T, C, P, R>(call: (C, P) -> R, ds: seq<Delivery<T, C, P>>, n: nat): seq<R>
  {
    if ds == [] then []
    else
      var d := ds[|ds| - 1];
      RepliesTo(call, ds[..|ds| - 1], n) + (if d.emit == n then [call(d.listener.val.cb, d.params)] else [])
  }

  /** The emits' values after the microtasks `ds`: each appends its listener's reply to its emit's values. */
  function Replied<T, C, P, R>(call: (C, P) -> R, results: map<nat, seq<R>>, ds: seq<Delivery<T, C, P>>): map<nat, seq<R>>
  {
    if ds == [] then results
    else
      var m, d := Replied(call, results, ds[..|ds| - 1]), ds[|ds| - 1];
      m[d.emit := ValuesOf(m, d.emit) + [call(d.listener.val.cb, d.params)]]
  }

  lemma RepliedSnoc<T, C, P, R>(call: (C, P) -> R, results: map<nat, seq<R>>, ds: seq<Delivery<T, C, P>>, d: Delivery<T, C, P>)
    ensures var m := Replied(call, results, ds);
            Replied(call, results, ds + [d]) == m[d.emit := ValuesOf(m, d.emit) + [call(d.listener.val.cb, d.params)]]
  {
    assert (ds + [d])[..|ds|] == ds;
  }

  /**
   * After the microtasks `ds`, the values of every emit are those it had,
   * followed by one reply per microtask of that emit, in queue order.
   */
  lemma {:induction false} RepliedValues<T, C, P, R>(call: (C, P) -> R, results: map<nat, seq<R>>, ds: seq<Delivery<T, C, P>>, n: nat)
    ensures ValuesOf(Replied(call, results, ds), n) == ValuesOf(results, n) + RepliesTo(call, ds, n)
  {
    if ds != [] {
      var front, d := ds[..|ds| - 1], ds[|ds| - 1];
      RepliedValues(call, results, front, n);
      var tail := if d.emit == n then [call(d.listener.val.cb, d.params)] else [];
      assert ValuesOf(Replied(call, results, ds), n) == ValuesOf(Replied(call, results, front), n) + tail;
      AppendAssoc(ValuesOf(results, n), RepliesTo(call, front, n), tail);
    }
  }

  /** `run.values` of an emit: one return value per called listener, in calling order. */
  function Replies<T, C, P, R>(call: (C, P) -> R, ls: seq<Entry<T, Handler<C>>>, params: P): (r: seq<R>)
    ensures |r| == |ls|
    ensures forall i :: 0 <= i < |ls| ==> r[i] == call(ls[i].val.cb, params)
  {
    if ls == [] then []
    else Replies(call, ls[..|ls| - 1], params) + [call(ls[|ls| - 1].val.cb, params)]
  }

  /** The listeners left after an emit of `ty`: the `once` listeners of that type remove themselves. */
  function DropOnce<T(==), C>(es: seq<Entry<T, Handler<C>>>, ty: T): (r: seq<Entry<T, Handler<C>>>)
    ensures forall i :: 0 <= i < |r| ==> !(r[i].ty == ty && r[i].val.once)
    ensures forall i :: 0 <= i < |es| && !(es[i].ty == ty && es[i].val.once) ==> es[i] in r
  {
    if es == [] then []
    else DropOnce(es[..|es| - 1], ty) + (if es[|es| - 1].ty == ty && es[|es| - 1].val.once then [] else [es[|es| - 1]])
  }

  lemma {:induction false} DropOnceSub<T, C>(es: seq<Entry<T, Handler<C>>>, ty: T)
    ensures Sub(DropOnce(es, ty), es)
  {
    if es != [] {
      var l := es[|es| - 1];
      DropOnceSub(es[..|es| - 1], ty);
      SubStep(DropOnce(es[..|es| - 1], ty), es, if l.ty == ty && l.val.once then [] else [l]);
    }
  }

  /** The guard that `on`/`emit` register for their own item: `watch_delete(type, ...)`. */
  function Guard<T, V>(e: Entry<T, V>): Watcher<T, T>
  {
    Watcher(e.id, Some(e.ty), false, e.ty)
  }

  function Guards<T, V>(es: seq<Entry<T, V>>): (r: seq<Watcher<T, T>>)
    ensures |r| == |es|
    ensures forall i :: 0 <= i < |es| ==> r[i] == Guard(es[i])
  {
    if es == [] then [] else Guards(es[..|es| - 1]) + [Guard(es[|es| - 1])]
  }

  /**
   * The notifications a guard callback produces for the deletion of item
   * `key`: `if (item.id !== run.id) return; unwatch(); notify(...)`, for each
   * watcher that ran.
   */
  function SelfNotes<I, T>(fired: seq<Watcher<T, T>>, key: nat, id: I, ev: Event, p: Progress): (r: seq<Note<I, T>>)
    ensures |r| <= |fired|
  {
    if fired == [] then []
    else
      var w := fired[|fired| - 1];
      SelfNotes(fired[..|fired| - 1], key, id, ev, p) + (if w.key == key then [Note(Some(id), ev, p, w.tag)] else [])
  }

  lemma {:induction false} SelfNotesNone<I, T>(fired: seq<Watcher<T, T>>, key: nat, id: I, ev: Event, p: Progress)
    requires forall i :: 0 <= i < |fired| ==> fired[i].key != key
    ensures SelfNotes(fired, key, id, ev, p) == []
  {
    if fired != [] {
      SelfNotesNone(fired[..|fired| - 1], key, id, ev, p);
    }
  }

  /** With distinct keys, at most one watcher of `fired` reports the deletion of `key`. */
  lemma {:induction false} SelfNotesOne<I, T>(fired: seq<Watcher<T, T>>, key: nat, ty: T, id: I, ev: Event, p: Progress)
    requires DistinctKeys(fired)
    requires forall i :: 0 <= i < |fired| && fired[i].key == key ==> fired[i].tag == ty
    ensures SelfNotes(fired, key, id, ev, p) == if key in Keys(fired) then [Note(Some(id), ev, p, ty)] else []
  {
    if fired != [] {
      var front, w := fired[..|fired| - 1], fired[|fired| - 1];
      assert DistinctKeys(front);
      SelfNotesOne(front, key, ty, id, ev, p);
      KeysSnoc(front, w, key);
      assert fired == front + [w];
      if w.key == key {
        forall i | 0 <= i < |front| ensures Keys(front)[i] != key {
          assert fired[i].key != fired[|fired| - 1].key;
        }
      }
    }
  }

  /**
   * When the watcher keys are distinct, the deletion of item `key` of type
   * `ty` produces exactly one notification if `key`'s guard is registered,
   * and none otherwise (src/index.ts:283-293, 375-385; src/index.js:153-164,
   * 223-234).
   */
  lemma {:induction false} SelfNotesOfGuard<I, T>(ws: seq<Watcher<T, T>>, key: nat, ty: T, legacy: bool, id: I, ev: Event, p: Progress)
    requires DistinctKeys(ws)
    requires forall i :: 0 <= i < |ws| && ws[i].key == key ==> ws[i] == Watcher(key, Some(ty), false, ty)
    ensures SelfNotes(FiredOnDelete(legacy, ws, ty), key, id, ev, p) ==
            if key in Keys(ws) then [Note(Some(id), ev, p, ty)] else []
  {
    var f := FiredOnDelete(legacy, ws, ty);
    FiredOnDeleteSub(legacy, ws, ty);
    SubDistinctKeys(f, ws);
    forall i | 0 <= i < |f| && f[i].key == key ensures f[i].tag == ty {
      SubMember(f, ws, i);
    }
    if key in Keys(ws) {
      var i :| 0 <= i < |ws| && Keys(ws)[i] == key;
      assert ws[i] in f;
      var j :| 0 <= j < |f| && f[j] == ws[i];
      assert Keys(f)[j] == key;
    }
    if key in Keys(f) {
      var j :| 0 <= j < |f| && Keys(f)[j] == key;
      SubMember(f, ws, j);
      var i :| 0 <= i < |ws| && ws[i] == f[j];
      assert Keys(ws)[i] == key;
    }
    SelfNotesOne(f, key, ty, id, ev, p);
  }

  lemma KeysSnoc<T, A>(ws: seq<Watcher<T, A>>, w: Watcher<T, A>, key: nat)
    ensures key in Keys(ws + [w]) <==> key in Keys(ws) || w.key == key
  {
    assert Keys(ws + [w]) == Keys(ws) + [w.key];
  }

  lemma KeysConcat<T, A>(a: seq<Watcher<T, A>>, b: seq<Watcher<T, A>>)
    ensures Keys(a + b) == Keys(a) + Keys(b)
  {
  }

  lemma {:induction false} SelfNotesConcat<I, T>(a: seq<Watcher<T, T>>, b: seq<Watcher<T, T>>, key: nat, id: I, ev: Event, p: Progress)
    ensures SelfNotes(a + b, key, id, ev, p) == SelfNotes(a, key, id, ev, p) + SelfNotes(b, key, id, ev, p)
  {
    if b != [] {
      SelfNotesConcat(a, b[..|b| - 1], key, id, ev, p);
      assert (a + b)[..|a + b| - 1] == a + b[..|b| - 1];
    } else {
      assert a + b == a;
    }
  }

  lemma {:induction false} WithoutConcat<T, V>(a: seq<Entry<T, V>>, b: seq<Entry<T, V>>, id: nat)
    ensures Without(a + b, id) == Without(a, id) + Without(b, id)
  {
    if b == [] {
      assert a + b == a;
    } else {
      var b', x := b[..|b| - 1], b[|b| - 1];
      var t: seq<Entry<T, V>> := if x.id == id then [] else [x];
      assert (a + b)[..|a + b| - 1] == a + b';
      assert Without(a + b, id) == Without(a + b', id) + t;
      assert Without(b, id) == Without(b', id) + t;
      WithoutConcat(a, b', id);
    }
  }

  /** Removing an item whose id occurs nowhere else leaves its neighbours as they were. */
  lemma {:induction false} WithoutMiddle<T, V>(a: seq<Entry<T, V>>, e: Entry<T, V>, b: seq<Entry<T, V>>)
    requires e.id !in Ids(a) && e.id !in Ids(b)
    ensures Without(a + [e] + b, e.id) == a + b
  {
    assert Without([e], e.id) == [] by {
      assert [e][..0] == [];
    }
    calc {
      Without(a + [e] + b, e.id);
    == { WithoutConcat(a + [e], b, e.id); }
      Without(a + [e], e.id) + Without(b, e.id);
    == { WithoutConcat(a, [e], e.id); WithoutAbsent(a, e.id); }
      (a + []) + Without(b, e.id);
    == { WithoutAbsent(b, e.id); assert a + [] == a; }
      a + b;
    }
  }

  lemma {:induction false} GuardsWithout<T, V>(es: seq<Entry<T, V>>, id: nat)
    ensures Guards(Without(es, id)) == WithoutKey(Guards(es), id)
  {
    if es != [] {
      var front := es[..|es| - 1];
      GuardsWithout(front, id);
      assert Guards(es)[..|es| - 1] == Guards(front);
      GuardsConcat(Without(front, id), if es[|es| - 1].id == id then [] else [es[|es| - 1]]);
    }
  }

  lemma {:induction false} GuardsConcat<T, V>(a: seq<Entry<T, V>>, b: seq<Entry<T, V>>)
    ensures Guards(a + b) == Guards(a) + Guards(b)
  {
  }

  lemma {:induction false} WithoutKeyConcat<T, A>(a: seq<Watcher<T, A>>, b: seq<Watcher<T, A>>, key: nat)
    ensures WithoutKey(a + b, key) == WithoutKey(a, key) + WithoutKey(b, key)
  {
    if b == [] {
      assert a + b == a;
    } else {
      var b', x := b[..|b| - 1], b[|b| - 1];
      var t: seq<Watcher<T, A>> := if x.key == key then [] else [x];
      assert (a + b)[..|a + b| - 1] == a + b';
      assert WithoutKey(a + b, key) == WithoutKey(a + b', key) + t;
      assert WithoutKey(b, key) == WithoutKey(b', key) + t;
      WithoutKeyConcat(a, b', key);
    }
  }

  /** With distinct ids, looking up the id of an element finds that element. */
  lemma LookupIs<T, V>(es: seq<Entry<T, V>>, e: Entry<T, V>)
    requires DistinctIds(es) && e in es
    ensures Lookup(es, e.id) == e
  {
    var f := Lookup(es, e.id);
    var i :| 0 <= i < |es| && es[i] == e;
    var j :| 0 <= j < |es| && es[j] == f;
    assert i == j;
  }

  /** A guard watcher: persistent, typed, closing over its own type. */
  ghost predicate IsGuard<T>(w: Watcher<T, T>)
  {
    w == Watcher(w.key, Some(w.tag), false, w.tag)
  }

  /**
   * The delete watchers `ws` of a set of items `es` are guards with
   * distinct keys, and every item still has its own guard among them.
   */
  ghost predicate GuardsFor<T, V>(es: seq<Entry<T, V>>, ws: seq<Watcher<T, T>>)
  {
    DistinctKeys(ws) &&
    (forall i :: 0 <= i < |ws| ==> IsGuard(ws[i])) &&
    (forall i :: 0 <= i < |es| ==> Guard(es[i]) in ws)
  }

  lemma {:induction false} GuardsForExact<T, V>(es: seq<Entry<T, V>>)
    requires DistinctIds(es)
    ensures GuardsFor(es, Guards(es))
  {
    var ws := Guards(es);
    forall i, j | 0 <= i < j < |ws| ensures ws[i].key != ws[j].key {
      assert es[i].id != es[j].id;
    }
    forall i | 0 <= i < |es| ensures Guard(es[i]) in ws {
      assert ws[i] == Guard(es[i]);
    }
  }

  /**
   * Deleting an item that has its guard: the watchers that run are those of
   * its type, exactly one of them reports the deletion, and none is dropped
   * by the set itself (src/index.ts:37-56, 283-293, 375-385).
   */
  lemma {:induction false} DeleteWithGuard<I, T, V>(es: seq<Entry<T, V>>, ws: seq<Watcher<T, T>>, n: nat, id: I, ev: Event)
    requires GuardsFor(es, ws) && n in Ids(es)
    ensures SelfNotes(Fired(ws, Lookup(es, n).ty), n, id, ev, Delete) == [Note(Some(id), ev, Delete, Lookup(es, n).ty)]
    ensures n in Keys(Fired(ws, Lookup(es, n).ty))
    ensures Kept(ws, Lookup(es, n).ty) == ws
  {
    var e := Lookup(es, n);
    var i :| 0 <= i < |es| && es[i] == e;
    assert Guard(es[i]) in ws;
    var k :| 0 <= k < |ws| && ws[k] == Guard(e);
    forall j | 0 <= j < |ws| && ws[j].key == n ensures ws[j] == Watcher(n, Some(e.ty), false, e.ty) {
      assert j == k;
    }
    assert Keys(ws)[k] == n;
    SelfNotesOfGuard(ws, n, e.ty, false, id, ev, Delete);
    forall w | w in ws ensures !w.one {
      var j :| 0 <= j < |ws| && ws[j] == w;
      assert IsGuard(ws[j]);
    }
    KeptAllPersistent(ws, e.ty);
  }

  /** Deleting item `n` and unwatching its guard keeps every other item guarded. */
  lemma {:induction false} GuardsForDelete<T, V>(es: seq<Entry<T, V>>, ws: seq<Watcher<T, T>>, n: nat)
    requires GuardsFor(es, ws)
    ensures GuardsFor(Without(es, n), WithoutKey(ws, n))
  {
    var es', ws' := Without(es, n), WithoutKey(ws, n);
    WithoutKeySub(ws, n);
    SubDistinctKeys(ws', ws);
    forall i | 0 <= i < |ws'| ensures IsGuard(ws'[i]) {
      SubMember(ws', ws, i);
    }
    WithoutSub(es, n);
    forall i | 0 <= i < |es'| ensures Guard(es'[i]) in ws' {
      SubMember(es', es, i);
      var j :| 0 <= j < |es| && es[j] == es'[i];
      assert Guard(es[j]) in ws;
      var k :| 0 <= k < |ws| && ws[k] == Guard(es[j]);
      assert ws[k].key != n;
    }
  }

  /** Registering the guard of a fresh item, whether or not the item is stored. */
  lemma GuardsForAdd<T, V>(es: seq<Entry<T, V>>, ws: seq<Watcher<T, T>>, e: Entry<T, V>, stored: bool)
    requires GuardsFor(es, ws) && e.id !in Keys(ws)
    ensures GuardsFor(es + (if stored then [e] else []), ws + [Guard(e)])
  {
    var es', ws' := es + (if stored then [e] else []), ws + [Guard(e)];
    forall i, j | 0 <= i < j < |ws'| ensures ws'[i].key != ws'[j].key {
      if j == |ws| { assert Keys(ws)[i] == ws[i].key; }
    }
    forall i | 0 <= i < |es'| ensures Guard(es'[i]) in ws' {
      if i < |es| { assert Guard(es[i]) in ws; }
    }
  }

  /** An item visited later has an id that none of the items kept from earlier has. */
  lemma VisitedAvoids<T, V>(es: seq<Entry<T, V>>, i: nat, pre: seq<Entry<T, V>>)
    requires DistinctIds(es) && i < |es| && Sub(pre, es[..i])
    ensures es[i].id !in Ids(pre)
  {
    forall j | 0 <= j < |pre| ensures Ids(pre)[j] != es[i].id {
      SubMember(pre, es[..i], j);
      var k :| 0 <= k < i && es[..i][k] == pre[j];
      assert es[k].id != es[i].id;
    }
  }

  lemma TailAvoids<T, V>(es: seq<Entry<T, V>>, i: nat)
    requires DistinctIds(es) && i < |es|
    ensures es[i].id !in Ids(es[i + 1..])
  {
    var tl := es[i + 1..];
    forall j | 0 <= j < |tl| ensures Ids(tl)[j] != es[i].id {
      assert tl[j] == es[i + 1 + j];
    }
  }

  lemma VisitedDistinct<T, V>(es: seq<Entry<T, V>>, i: nat, pre: seq<Entry<T, V>>)
    requires DistinctIds(es) && i < |es| && Sub(pre, es[..i])
    ensures DistinctIds(pre + es[i..])
  {
    SubDistinctIds(pre, es[..i]);
    var s := pre + es[i..];
    forall a, b | 0 <= a < b < |s| ensures s[a].id != s[b].id {
      if b < |pre| {
      } else if a < |pre| {
        SubMember(pre, es[..i], a);
        var k :| 0 <= k < i && es[..i][k] == pre[a];
        assert s[b] == es[i + (b - |pre|)];
        assert es[k].id != es[i + (b - |pre|)].id;
      } else {
        assert s[a] == es[i + (a - |pre|)] && s[b] == es[i + (b - |pre|)];
      }
    }
  }

  /**
   * One step of a `forEach` that deletes the current item: `pre` is what is
   * left of the items already visited.
   */
  lemma DeleteVisited<T, V>(es: seq<Entry<T, V>>, i: nat, pre: seq<Entry<T, V>>)
    requires DistinctIds(es) && i < |es| && Sub(pre, es[..i])
    ensures es[i].id in Ids(pre + es[i..])
    ensures Lookup(pre + es[i..], es[i].id) == es[i]
    ensures Without(pre + es[i..], es[i].id) == pre + es[i + 1..]
  {
    var e := es[i];
    assert es[i..] == [e] + es[i + 1..];
    assert Ids(pre + es[i..])[|pre|] == e.id;
    VisitedAvoids(es, i, pre);
    TailAvoids(es, i);
    assert pre + es[i..] == pre + [e] + es[i + 1..];
    WithoutMiddle(pre, e, es[i + 1..]);
    VisitedDistinct(es, i, pre);
    LookupIs(pre + es[i..], e);
  }

  lemma OfTypeSnoc<T, V>(es: seq<Entry<T, V>>, i: nat, ty: T)
    requires i < |es|
    ensures OfType(es[..i + 1], ty) == OfType(es[..i], ty) + (if es[i].ty == ty then [es[i]] else [])
  {
    assert es[..i + 1][..i] == es[..i];
  }

  lemma WithoutTypeSnoc<T, V>(es: seq<Entry<T, V>>, i: nat, ty: T)
    requires i < |es|
    ensures WithoutType(es[..i + 1], ty) == WithoutType(es[..i], ty) + (if es[i].ty == ty then [] else [es[i]])
  {
    assert es[..i + 1][..i] == es[..i];
  }

  lemma AppendAssoc<X>(a: seq<X>, b: seq<X>, c: seq<X>)
    ensures a + b + c == a + (b + c)
  {
  }

  /**
   * One step of a `forEach` over a snapshot `es` that deletes the items of
   * type `ty`: before visiting `es[i]` the set is `WithoutType(es[..i], ty) + es[i..]`.
   */
  lemma SweepDelete<T, V>(es: seq<Entry<T, V>>, i: nat, ty: T)
    requires DistinctIds(es) && i < |es| && es[i].ty == ty
    ensures es[i].id in Ids(WithoutType(es[..i], ty) + es[i..])
    ensures Lookup(WithoutType(es[..i], ty) + es[i..], es[i].id) == es[i]
    ensures Without(WithoutType(es[..i], ty) + es[i..], es[i].id) == WithoutType(es[..i + 1], ty) + es[i + 1..]
  {
    var pre := WithoutType(es[..i], ty);
    WithoutTypeSub(es[..i], ty);
    DeleteVisited(es, i, pre);
    calc {
      WithoutType(es[..i + 1], ty) + es[i + 1..];
      { WithoutTypeSnoc(es, i, ty); assert WithoutType(es[..i + 1], ty) == pre; }
      pre + es[i + 1..];
    }
  }

  /** The step of that `forEach` at an item of another type, which it leaves in place. */
  lemma SweepKeep<T, V>(es: seq<Entry<T, V>>, i: nat, ty: T)
    requires i < |es| && es[i].ty != ty
    ensures WithoutType(es[..i + 1], ty) + es[i + 1..] == WithoutType(es[..i], ty) + es[i..]
  {
    WithoutTypeSnoc(es, i, ty);
    assert es[i..] == [es[i]] + es[i + 1..];
    AppendAssoc(WithoutType(es[..i], ty), [es[i]], es[i + 1..]);
  }

  /**
   * One step of the `forEach` of a sweep, with `done` visited and `rest[0]`
   * current: what deleting it leaves when it has type `ty`.
   */
  lemma WithoutTypeStep<T, V>(done: seq<Entry<T, V>>, rest: seq<Entry<T, V>>, ty: T)
    requires rest != [] && DistinctIds(done + rest)
    ensures done + rest == (done + [rest[0]]) + rest[1..]
    ensures OfType(done + [rest[0]], ty) == OfType(done, ty) + (if rest[0].ty == ty then [rest[0]] else [])
    ensures rest[0].ty == ty ==>
              rest[0].id in Ids(WithoutType(done, ty) + rest) &&
              Lookup(WithoutType(done, ty) + rest, rest[0].id) == rest[0] &&
              Without(WithoutType(done, ty) + rest, rest[0].id) == WithoutType(done + [rest[0]], ty) + rest[1..]
    ensures rest[0].ty != ty ==> WithoutType(done + [rest[0]], ty) + rest[1..] == WithoutType(done, ty) + rest
  {
    var es, i := done + rest, |done|;
    assert es[..i] == done && es[i..] == rest && es[..i + 1] == done + [rest[0]] && es[i + 1..] == rest[1..];
    OfTypeSnoc(es, i, ty);
    if rest[0].ty == ty {
      SweepDelete(es, i, ty);
    } else {
      SweepKeep(es, i, ty);
    }
  }

  lemma DropOnceSnoc<T, C>(es: seq<Entry<T, Handler<C>>>, i: nat, ty: T)
    requires i < |es|
    ensures DropOnce(es[..i + 1], ty) == DropOnce(es[..i], ty) + (if es[i].ty == ty && es[i].val.once then [] else [es[i]])
  {
    assert es[..i + 1][..i] == es[..i];
  }

  lemma RepliesSnoc<T, C, P, R>(call: (C, P) -> R, ls: seq<Entry<T, Handler<C>>>, l: Entry<T, Handler<C>>, params: P)
    ensures Replies(call, ls + [l], params) == Replies(call, ls, params) + [call(l.val.cb, params)]
  {
    assert (ls + [l])[..|ls|] == ls;
  }

  /**
   * One step of the `forEach` in `#emit` over a snapshot `es`: before
   * visiting `es[i]` the set is `DropOnce(es[..i], ty) + es[i..]`, and a
   * `once` listener of type `ty` deletes itself when called.
   */
  lemma DropDelete<T, C>(es: seq<Entry<T, Handler<C>>>, i: nat, ty: T)
    requires DistinctIds(es) && i < |es| && es[i].ty == ty && es[i].val.once
    ensures es[i].id in Ids(DropOnce(es[..i], ty) + es[i..])
    ensures Lookup(DropOnce(es[..i], ty) + es[i..], es[i].id) == es[i]
    ensures Without(DropOnce(es[..i], ty) + es[i..], es[i].id) == DropOnce(es[..i + 1], ty) + es[i + 1..]
  {
    var pre := DropOnce(es[..i], ty);
    DropOnceSub(es[..i], ty);
    DeleteVisited(es, i, pre);
    calc {
      DropOnce(es[..i + 1], ty) + es[i + 1..];
      { DropOnceSnoc(es, i, ty); assert DropOnce(es[..i + 1], ty) == pre; }
      pre + es[i + 1..];
    }
  }

  /** The step at a listener that stays: it is stored, and the set is the same after it. */
  lemma DropKeep<T, C>(es: seq<Entry<T, Handler<C>>>, i: nat, ty: T)
    requires DistinctIds(es) && i < |es| && !(es[i].ty == ty && es[i].val.once)
    ensures es[i].id in Ids(DropOnce(es[..i], ty) + es[i..])
    ensures DropOnce(es[..i + 1], ty) + es[i + 1..] == DropOnce(es[..i], ty) + es[i..]
  {
    var pre := DropOnce(es[..i], ty);
    assert Ids(pre + es[i..])[|pre|] == es[i].id;
    DropOnceSnoc(es, i, ty);
    assert es[i..] == [es[i]] + es[i + 1..];
    AppendAssoc(pre, [es[i]], es[i + 1..]);
  }

  /**
   * One step of the `forEach` of an emit, with `done` visited and `rest[0]`
   * current: what it calls, and what deleting it when it is `once` leaves.
   */
  lemma DropStep<T, C>(done: seq<Entry<T, Handler<C>>>, rest: seq<Entry<T, Handler<C>>>, ty: T)
    requires rest != [] && DistinctIds(done + rest)
    ensures done + rest == (done + [rest[0]]) + rest[1..]
    ensures OfType(done + [rest[0]], ty) == OfType(done, ty) + (if rest[0].ty == ty then [rest[0]] else [])
    ensures rest[0].id in Ids(DropOnce(done, ty) + rest)
    ensures rest[0].ty == ty && rest[0].val.once ==>
              Lookup(DropOnce(done, ty) + rest, rest[0].id) == rest[0] &&
              Without(DropOnce(done, ty) + rest, rest[0].id) == DropOnce(done + [rest[0]], ty) + rest[1..]
    ensures !(rest[0].ty == ty && rest[0].val.once) ==>
              DropOnce(done + [rest[0]], ty) + rest[1..] == DropOnce(done, ty) + rest
  {
    var es, i := done + rest, |done|;
    assert es[..i] == done && es[i..] == rest && es[..i + 1] == done + [rest[0]] && es[i + 1..] == rest[1..];
    OfTypeSnoc(es, i, ty);
    if rest[0].ty == ty && rest[0].val.once {
      DropDelete(es, i, ty);
    } else {
      DropKeep(es, i, ty);
    }
  }

  /** Deleting an item that was just appended gives back what was there before. */
  lemma WithoutFreshSnoc<T, V>(es: seq<Entry<T, V>>, e: Entry<T, V>)
    requires e.id !in Ids(es)
    ensures Without(es + [e], e.id) == es
  {
    WithoutConcat(es, [e], e.id);
    assert [e][..0] == [];
    WithoutAbsent(es, e.id);
  }

  /** Unwatching a watcher that was just appended gives back the watchers there were before. */
  lemma WithoutKeyFreshSnoc<T, A>(ws: seq<Watcher<T, A>>, w: Watcher<T, A>)
    requires w.key !in Keys(ws)
    ensures WithoutKey(ws + [w], w.key) == ws
  {
    WithoutKeyConcat(ws, [w], w.key);
    assert [w][..0] == [];
  }

  /** The notifications of `notes` whose type passes `filter`, in order. */
  function Matching<I, T(==)>(notes: seq<Note<I, T>>, filter: Option<T>): (r: seq<Note<I, T>>)
    ensures forall i :: 0 <= i < |r| ==> r[i] in notes && (filter.None? || r[i].ty == filter.value)
    ensures forall i :: 0 <= i < |notes| && (filter.None? || notes[i].ty == filter.value) ==> notes[i] in r
  {
    if notes == [] then []
    else
      var n := notes[|notes| - 1];
      Matching(notes[..|notes| - 1], filter) + (if filter.None? || n.ty == filter.value then [n] else [])
  }

  /**
   * What watch callback `w` was called with, given every notification
   * logged so far: those logged while it was registered, of its type when
   * it was registered with one.
   */
  function Seen<I, T(==)>(w: WatchRec<T>, log: seq<Note<I, T>>): seq<Note<I, T>>
  {
    var hi := if w.until.Some? && w.until.value < |log| then w.until.value else |log|;
    var lo := if w.from < hi then w.from else hi;
    Matching(log[lo..hi], w.filter)
  }

  /** A removed watch callback receives nothing more, whatever is logged after its removal. */
  lemma SeenClosed<I, T>(w: WatchRec<T>, log: seq<Note<I, T>>, more: seq<Note<I, T>>)
    requires w.until.Some? && w.from <= w.until.value <= |log|
    ensures Seen(w, log + more) == Seen(w, log)
  {
    assert (log + more)[w.from..w.until.value] == log[w.from..w.until.value];
  }

  /** A registered watch callback receives every later notification of its type, in order. */
  lemma SeenOpen<I, T>(w: WatchRec<T>, log: seq<Note<I, T>>, more: seq<Note<I, T>>)
    requires w.until.None? && w.from <= |log|
    ensures Seen(w, log + more) == Seen(w, log) + Matching(more, w.filter)
  {
    var all := log + more;
    assert all[w.from..|all|] == log[w.from..|log|] + more;
    MatchingConcat(log[w.from..|log|], more, w.filter);
  }

  lemma {:induction false} MatchingConcat<I, T>(a: seq<Note<I, T>>, b: seq<Note<I, T>>, filter: Option<T>)
    ensures Matching(a + b, filter) == Matching(a, filter) + Matching(b, filter)
  {
    if b == [] {
      assert a + b == a;
    } else {
      var b', x := b[..|b| - 1], b[|b| - 1];
      var t := if filter.None? || x.ty == filter.value then [x] else [];
      assert (a + b)[..|a + b| - 1] == a + b';
      assert Matching(a + b, filter) == Matching(a + b', filter) + t;
      assert Matching(b, filter) == Matching(b', filter) + t;
      MatchingConcat(a, b', filter);
      AppendAssoc(Matching(a, filter), Matching(b', filter), t);
    }
  }

  /** Splitting a set by one type loses and duplicates nothing. */
  lemma {:induction false} TypePartition<T, V>(es: seq<Entry<T, V>>, ty: T)
    ensures multiset(OfType(es, ty)) + multiset(WithoutType(es, ty)) == multiset(es)
  {
    if es != [] {
      var front, x := es[..|es| - 1], es[|es| - 1];
      TypePartition(front, ty);
      assert es == front + [x];
    }
  }

  lemma OfTypeMember<T, V>(es: seq<Entry<T, V>>, ty: T, e: Entry<T, V>)
    ensures e in OfType(es, ty) <==> e in es && e.ty == ty
  {
    TypePartition(es, ty);
    if e in OfType(es, ty) {
      assert e in multiset(es);
    }
  }

  lemma WithoutTypeMember<T, V>(es: seq<Entry<T, V>>, ty: T, e: Entry<T, V>)
    ensures e in WithoutType(es, ty) <==> e in es && e.ty != ty
  {
    TypePartition(es, ty);
    if e in WithoutType(es, ty) {
      assert e in multiset(es);
    }
  }

  /** What `#off(...types)` leaves of a set: the items whose type is none of `types`. */
  function WithoutTypes<T(==), V>(es: seq<Entry<T, V>>, types: seq<T>): seq<Entry<T, V>>
    decreases |types|
  {
    if types == [] then es
    else WithoutType(WithoutTypes(es, types[..|types| - 1]), types[|types| - 1])
  }

  /** The items `#off(...types)` removes, in removal order: type by type, each in insertion order. */
  function OffRemoved<T(==), V>(es: seq<Entry<T, V>>, types: seq<T>): seq<Entry<T, V>>
    decreases |types|
  {
    if types == [] then []
    else
      var front := types[..|types| - 1];
      OffRemoved(es, front) + OfType(WithoutTypes(es, front), types[|types| - 1])
  }

  /** `off` keeps exactly the items whose type it was not given (src/index.ts:409-427). */
  lemma {:induction false} WithoutTypesMember<T, V>(es: seq<Entry<T, V>>, types: seq<T>, e: Entry<T, V>)
    ensures e in WithoutTypes(es, types) <==> e in es && e.ty !in types
    decreases |types|
  {
    if types != [] {
      var front, t := types[..|types| - 1], types[|types| - 1];
      WithoutTypesMember(es, front, e);
      WithoutTypeMember(WithoutTypes(es, front), t, e);
      assert types == front + [t];
    }
  }

  /** `off` removes exactly the items whose type it was given (src/index.ts:409-427). */
  lemma {:induction false} OffRemovedMember<T, V>(es: seq<Entry<T, V>>, types: seq<T>, e: Entry<T, V>)
    ensures e in OffRemoved(es, types) <==> e in es && e.ty in types
    decreases |types|
  {
    if types != [] {
      var front, t := types[..|types| - 1], types[|types| - 1];
      OffRemovedMember(es, front, e);
      WithoutTypesMember(es, front, e);
      OfTypeMember(WithoutTypes(es, front), t, e);
      assert OffRemoved(es, types) == OffRemoved(es, front) + OfType(WithoutTypes(es, front), t);
      assert types == front + [t];
      assert e.ty in types <==> e.ty in front || e.ty == t;
    }
  }

  /** What `off` removes and what it keeps together make up the set it started from. */
  lemma {:induction false} OffPartition<T, V>(es: seq<Entry<T, V>>, types: seq<T>)
    ensures multiset(OffRemoved(es, types)) + multiset(WithoutTypes(es, types)) == multiset(es)
    decreases |types|
  {
    if types != [] {
      var front, t := types[..|types| - 1], types[|types| - 1];
      OffPartition(es, front);
      TypePartition(WithoutTypes(es, front), t);
    }
  }

  /** No item of the type is left exactly when every item has another type. */
  lemma {:induction false} OfTypeEmpty<T, V>(es: seq<Entry<T, V>>, ty: T)
    ensures OfType(es, ty) == [] <==> forall i :: 0 <= i < |es| ==> es[i].ty != ty
  {
    if es != [] {
      var front := es[..|es| - 1];
      OfTypeEmpty(front, ty);
      assert forall i :: 0 <= i < |front| ==> front[i] == es[i];
    }
  }

  /** After the items of a type are removed and one of that type is added, it is the only one. */
  lemma OnlyOfType<T, V>(es: seq<Entry<T, V>>, e: Entry<T, V>)
    ensures OfType(WithoutType(es, e.ty) + [e], e.ty) == [e]
  {
    var rest := WithoutType(es, e.ty);
    OfTypeEmpty(rest, e.ty);
    assert (rest + [e])[..|rest|] == rest;
  }

  /** The last item of a sequence with distinct ids is not among the others. */
  lemma LastFresh<T, V>(es: seq<Entry<T, V>>, e: Entry<T, V>)
    requires DistinctIds(es + [e])
    ensures e.id !in Ids(es) && e.id in Ids(es + [e]) && Lookup(es + [e], e.id) == e
  {
    assert Ids(es + [e])[|es|] == e.id;
    forall i | 0 <= i < |es| ensures Ids(es)[i] != e.id {
      assert (es + [e])[i] == es[i] && (es + [e])[|es|] == e;
    }
    LookupIs(es + [e], e);
  }

  /** The watch callbacks still registered. */
  function LiveKeys<T>(ws: seq<WatchRec<T>>): set<nat>
  {
    set i | 0 <= i < |ws| && ws[i].until.None? :: ws[i].key
  }

  /** `watchCbs.delete(cb)` at log position `at`: the live watch with that key stops receiving. */
  function CloseWatch<T>(ws: seq<WatchRec<T>>, key: nat, at: nat): (r: seq<WatchRec<T>>)
    ensures |r| == |ws|
  {
    seq(|ws|, i requires 0 <= i < |ws| =>
      if ws[i].key == key && ws[i].until.None? then ws[i].(until := Some(at)) else ws[i])
  }

  /**
   * After `watchCbs.delete(cb)` the callback with that key is no longer
   * live, every other live one still is, and what was already closed stays
   * as it was.
   */
  lemma CloseWatchLive<T>(ws: seq<WatchRec<T>>, key: nat, at: nat)
    ensures LiveKeys(CloseWatch(ws, key, at)) == LiveKeys(ws) - {key}
    ensures forall i :: 0 <= i < |ws| && (ws[i].key != key || ws[i].until.Some?) ==> CloseWatch(ws, key, at)[i] == ws[i]
  {
    var r := CloseWatch(ws, key, at);
    forall k | k in LiveKeys(r) ensures k in LiveKeys(ws) - {key} {
      var i :| 0 <= i < |r| && r[i].until.None? && r[i].key == k;
    }
    forall k | k in LiveKeys(ws) - {key} ensures k in LiveKeys(r) {
      var i :| 0 <= i < |ws| && ws[i].until.None? && ws[i].key == k;
      assert r[i] == ws[i];
    }
  }

  /** The `off` run notifications, one per type argument. */
  function OffRunNotes<I, T>(types: seq<T>): (r: seq<Note<I, T>>)
    ensures |r| == |types|
    ensures forall i :: 0 <= i < |types| ==> r[i] == Note(None, OffEvent, Run, types[i])
  {
    seq(|types|, i requires 0 <= i < |types| => Note(None, OffEvent, Run, types[i]))
  }

  /** `#off` over one more type, for one set. */
  lemma OffTypesSnoc<T, V>(es: seq<Entry<T, V>>, types: seq<T>, i: nat)
    requires i < |types|
    ensures WithoutTypes(es, types[..i + 1]) == WithoutType(WithoutTypes(es, types[..i]), types[i])
    ensures OffRemoved(es, types[..i + 1]) == OffRemoved(es, types[..i]) + OfType(WithoutTypes(es, types[..i]), types[i])
  {
    assert types[..i + 1][..i] == types[..i];
  }

  /** After `delete(n)`, `n` is gone, and no id that was absent comes back. */
  lemma WithoutGone<T, V>(es: seq<Entry<T, V>>, n: nat, m: nat)
    ensures n !in Ids(Without(es, n))
    ensures m !in Ids(es) ==> m !in Ids(Without(es, n))
  {
    var r := Without(es, n);
    if m !in Ids(es) {
      WithoutSub(es, n);
      forall i | 0 <= i < |r| ensures r[i].id != m {
        SubMember(r, es, i);
        var k :| 0 <= k < |es| && es[k] == r[i];
        assert Ids(es)[k] == es[k].id;
      }
    }
  }
}
