/**
 * `AsyncEventChannel` of src/index.js, the older build of the channel:
 * numeric ids from one counter, sets whose `delete` runs and then drops
 * every guard of the deleted item's type, a cached emit deleted as soon as
 * a listener picks it up, and only `register`, `run` and `cancel`
 * notifications.
 */
module LegacyChannel {
  import opened Wrappers
  import opened ChannelOptions
  import opened WatchedSets
  import opened Registry
  import opened ChannelState
  import opened LegacyState

  /** The run object of `emit`; its `cancel` is `CancelEmit`. */
  datatype EmitRun<T, R> = EmitRun(id: nat, ty: T, values: seq<R>, async: bool)

  /** The run object of `on` and `once`; its `cancel` deletes `item`. */
  datatype ListenRun<T, C> = ListenRun(id: nat, item: Listener<T, C>)

  /** The object `off` returns. */
  datatype Totals = Totals(listener: seq<nat>, emitCache: seq<nat>)

  class LegacyEventChannel<T(==), C, P, R> {
    /** What a listener callback returns for the given parameters. */
    const call: (C, P) -> R
    const options: Opts
    const optionsMap: map<T, Opts>
    const listeners: WatchedSet<T, Handler<C>, Pending<P>, T>
    const cache: WatchedSet<T, P, (), T>
    /** `#processId` */
    var counter: nat
    var watches: seq<WatchRec<T>>
    /** Every notification any watch callback was offered, in order. */
    var log: seq<Note<nat, T>>
    var pending: seq<Delivery<T, C, P>>
    /** `run.values` of every emit, by its id. */
    var results: map<nat, seq<R>>

    ghost predicate ListenersOk()
      reads this`counter, listeners`elems, listeners`deleteWatchers, listeners`addWatchers
    {
      listeners.legacy && LListenerInv(listeners.elems, listeners.deleteWatchers, listeners.addWatchers, counter)
    }

    ghost predicate CacheOk()
      reads this`counter, cache`elems, cache`deleteWatchers, cache`addWatchers
    {
      cache.legacy && LCacheInv(cache.elems, cache.deleteWatchers, cache.addWatchers, counter)
    }

    ghost predicate Valid()
      reads this`counter, listeners`elems, listeners`deleteWatchers, listeners`addWatchers
      reads cache`elems, cache`deleteWatchers, cache`addWatchers
    {
      listeners as object != cache && ListenersOk() && CacheOk()
    }

    /** The listener set and its guards, as a value. */
    ghost function ListenerSets(): Swept<T, Handler<C>>
      reads listeners`elems, listeners`deleteWatchers
    {
      Swept(listeners.elems, listeners.deleteWatchers, [])
    }

    /** The emit cache and its guards, as a value. */
    ghost function CacheSets(): Swept<T, P>
      reads cache`elems, cache`deleteWatchers
    {
      Swept(cache.elems, cache.deleteWatchers, [])
    }

    function EmitCache(ty: T): bool { GetOption(options, optionsMap, ty, IsEmitCache) }
    function EmitOnce(ty: T): bool { GetOption(options, optionsMap, ty, IsEmitOnce) }
    function OnOnce(ty: T): bool { GetOption(options, optionsMap, ty, IsOnOnce) }

    constructor(call: (C, P) -> R, options: Opts, optionsMap: map<T, Opts>)
      ensures Valid() && fresh(listeners) && fresh(cache)
      ensures this.call == call && this.options == options && this.optionsMap == optionsMap
      ensures counter == 0 && watches == [] && log == [] && pending == [] && results == map[]
      ensures listeners.elems == [] && listeners.addWatchers == [] && cache.elems == []
    {
      this.call := call;
      this.options := options;
      this.optionsMap := optionsMap;
      listeners := new WatchedSet(true);
      cache := new WatchedSet(true);
      counter := 0;
      watches, log, pending, results := [], [], [], map[];
    }

    /** `++this.#processId` */
    method NextId() returns (n: nat)
      modifies this`counter
      ensures counter == old(counter) + 1 && n == counter
    {
      counter := counter + 1;
      n := counter;
    }

    /**
     * The set part of `#listener.delete(item)` for the listener numbered `n`;
     * `notes` is what the guards report.
     */
    method RemoveListener(n: nat) returns (removed: bool, notes: seq<Note<nat, T>>)
      requires ListenersOk()
      modifies listeners`elems, listeners`deleteWatchers
      ensures ListenersOk()
      ensures removed == (n in Ids(old(listeners.elems)))
      ensures Swept(listeners.elems, listeners.deleteWatchers, notes) == LDel(old(ListenerSets()), n, OnEvent)
    {
      removed := n in Ids(listeners.elems);
      if removed {
        notes := RemoveStoredListener(n);
      } else {
        var _, _ := listeners.Delete(n);
        notes := [];
      }
    }

    /** `RemoveListener` of a stored listener: its guard reports when it is still there, and every guard of its type goes. */
    method RemoveStoredListener(n: nat) returns (notes: seq<Note<nat, T>>)
      requires ListenersOk() && n in Ids(listeners.elems)
      modifies listeners`elems, listeners`deleteWatchers
      ensures ListenersOk()
      ensures Swept(listeners.elems, listeners.deleteWatchers, notes) == LDel(old(ListenerSets()), n, OnEvent)
    {
      ghost var es, dws := listeners.elems, listeners.deleteWatchers;
      ghost var ty := Lookup(es, n).ty;
      assert SelfNotes(FiredLegacy(dws, ty), n, n, OnEvent, Cancel) == (if n in Keys(dws) then [Note(Some(n), OnEvent, Cancel, ty)] else []) &&
             (n in Keys(FiredLegacy(dws, ty)) <==> n in Keys(dws)) && n !in Keys(KeptLegacy(dws, ty)) by {
        LegacyDeleteFacts(es, dws, n, OnEvent);
      }
      var _, fired := listeners.Delete(n);
      notes := SelfNotes(fired, n, n, OnEvent, Cancel);
      UnwatchOwnGuard(n, n in Keys(fired), es, dws, ty);
    }

    /** The callback of the guard that ran, if any: it unwatches itself, which is already gone. */
    method UnwatchOwnGuard(n: nat, ran: bool, ghost es: seq<Listener<T, C>>, ghost dws: seq<Watcher<T, T>>, ghost ty: T)
      requires LListenerInv(es, dws, listeners.addWatchers, counter) && listeners.legacy
      requires listeners.elems == Without(es, n) && listeners.deleteWatchers == KeptLegacy(dws, ty)
      requires n !in Keys(KeptLegacy(dws, ty))
      modifies listeners`deleteWatchers
      ensures ListenersOk()
      ensures listeners.deleteWatchers == KeptLegacy(dws, ty)
    {
      if ran {
        var _ := listeners.UnwatchDelete(n);
      }
      LListenerInvDel(es, dws, listeners.addWatchers, counter, n, ty, listeners.elems, listeners.deleteWatchers);
    }

    /**
     * The set part of `#emitCache.delete(args)` for the emit numbered `n`;
     * `notes` is what the guards report.
     */
    method RemoveCached(n: nat) returns (removed: bool, notes: seq<Note<nat, T>>)
      requires CacheOk()
      modifies cache`elems, cache`deleteWatchers
      ensures CacheOk()
      ensures removed == (n in Ids(old(cache.elems)))
      ensures Swept(cache.elems, cache.deleteWatchers, notes) == LDel(old(CacheSets()), n, EmitEvent)
    {
      removed := n in Ids(cache.elems);
      if removed {
        notes := RemoveStoredCached(n);
      } else {
        var _, _ := cache.Delete(n);
        notes := [];
      }
    }

    /** `RemoveCached` of a stored emit. */
    method RemoveStoredCached(n: nat) returns (notes: seq<Note<nat, T>>)
      requires CacheOk() && n in Ids(cache.elems)
      modifies cache`elems, cache`deleteWatchers
      ensures CacheOk()
      ensures Swept(cache.elems, cache.deleteWatchers, notes) == LDel(old(CacheSets()), n, EmitEvent)
    {
      ghost var es, dws := cache.elems, cache.deleteWatchers;
      ghost var ty := Lookup(es, n).ty;
      assert SelfNotes(FiredLegacy(dws, ty), n, n, EmitEvent, Cancel) == (if n in Keys(dws) then [Note(Some(n), EmitEvent, Cancel, ty)] else []) &&
             (n in Keys(FiredLegacy(dws, ty)) <==> n in Keys(dws)) && n !in Keys(KeptLegacy(dws, ty)) by {
        LegacyDeleteFacts(es, dws, n, EmitEvent);
      }
      var _, fired := cache.Delete(n);
      notes := SelfNotes(fired, n, n, EmitEvent, Cancel);
      UnwatchCachedGuard(n, n in Keys(fired), es, dws, ty);
    }

    /** The callback of the cached emit's guard that ran, if any. */
    method UnwatchCachedGuard(n: nat, ran: bool, ghost es: seq<Entry<T, P>>, ghost dws: seq<Watcher<T, T>>, ghost ty: T)
      requires LCacheInv(es, dws, cache.addWatchers, counter) && cache.legacy
      requires cache.elems == Without(es, n) && cache.deleteWatchers == KeptLegacy(dws, ty)
      requires n !in Keys(KeptLegacy(dws, ty))
      modifies cache`deleteWatchers
      ensures CacheOk()
      ensures cache.deleteWatchers == KeptLegacy(dws, ty)
    {
      if ran {
        var _ := cache.UnwatchDelete(n);
      }
      LCacheInvDel(es, dws, counter, n, ty, cache.elems, cache.deleteWatchers);
    }

    /** One step of the sweep in `SweepListeners`: with `done` visited, item `rest[0]` is deleted when it has type `ty`. */
    method SweepStep(ghost done: seq<Listener<T, C>>, rest: seq<Listener<T, C>>, ty: T, ghost s0: Swept<T, Handler<C>>,
                     notes: seq<Note<nat, T>>)
      returns (notes': seq<Note<nat, T>>)
      requires rest != [] && DistinctIds(done + rest)
      requires ListenersOk()
      requires listeners.elems == WithoutType(done, ty) + rest
      requires Swept(listeners.elems, listeners.deleteWatchers, notes) == LDelAll(s0, Ids(OfType(done, ty)), OnEvent)
      modifies listeners`elems, listeners`deleteWatchers
      ensures done + rest == (done + [rest[0]]) + rest[1..]
      ensures ListenersOk()
      ensures listeners.elems == WithoutType(done + [rest[0]], ty) + rest[1..]
      ensures Swept(listeners.elems, listeners.deleteWatchers, notes') == LDelAll(s0, Ids(OfType(done + [rest[0]], ty)), OnEvent)
    {
      var l := rest[0];
      WithoutTypeStep(done, rest, ty);
      ghost var ids := Ids(OfType(done, ty));
      if l.ty == ty {
        ghost var cur := ListenerSets();
        LDelFrom(cur.elems, cur.guards, notes, l.id, OnEvent);
        IdsSnoc(OfType(done, ty), l);
        LDelAllSnoc(s0, ids, l.id, OnEvent);
        assert Ids(OfType(done + [l], ty)) == ids + [l.id];
        var _, more := RemoveListener(l.id);
        notes' := notes + more;
        assert Swept(listeners.elems, listeners.deleteWatchers, notes') == LDel(Swept(cur.elems, cur.guards, notes), l.id, OnEvent);
      } else {
        assert OfType(done + [l], ty) == OfType(done, ty);
        notes' := notes;
      }
    }

    /**
     * `this.#listener.forEach(item => item[0] === type && this.#listener.delete(item))`:
     * deletes the listeners of type `ty` in insertion order.
     */
    method SweepListeners(ty: T) returns (notes: seq<Note<nat, T>>)
      requires ListenersOk()
      modifies listeners`elems, listeners`deleteWatchers
      ensures ListenersOk()
      ensures listeners.elems == WithoutType(old(listeners.elems), ty)
      ensures Swept(listeners.elems, listeners.deleteWatchers, notes) == Sweep(old(ListenerSets()), ty, OnEvent)
    {
      ghost var s0 := ListenerSets();
      ghost var es := listeners.elems;
      ghost var done: seq<Listener<T, C>> := [];
      var rest := listeners.elems;
      notes := [];
      assert es == done + rest;
      assert s0.(notes := []) == s0;
      while rest != []
        invariant es == done + rest && DistinctIds(es)
        invariant ListenersOk()
        invariant listeners.elems == WithoutType(done, ty) + rest
        invariant Swept(listeners.elems, listeners.deleteWatchers, notes) == LDelAll(s0, Ids(OfType(done, ty)), OnEvent)
        decreases |rest|
      {
        notes := SweepStep(done, rest, ty, s0, notes);
        done, rest := done + [rest[0]], rest[1..];
      }
      assert es == done && listeners.elems == WithoutType(done, ty) + [];
    }

    /** One step of the sweep in `SweepCache`. */
    method CacheSweepStep(ghost done: seq<Entry<T, P>>, rest: seq<Entry<T, P>>, ty: T, ghost s0: Swept<T, P>,
                          notes: seq<Note<nat, T>>, ghost reserved: nat)
      returns (notes': seq<Note<nat, T>>)
      requires rest != [] && DistinctIds(done + rest)
      requires CacheOk() && FreshIn(cache.elems, cache.deleteWatchers, reserved)
      requires cache.elems == WithoutType(done, ty) + rest
      requires Swept(cache.elems, cache.deleteWatchers, notes) == LDelAll(s0, Ids(OfType(done, ty)), EmitEvent)
      modifies cache`elems, cache`deleteWatchers
      ensures done + rest == (done + [rest[0]]) + rest[1..]
      ensures CacheOk() && FreshIn(cache.elems, cache.deleteWatchers, reserved)
      ensures cache.elems == WithoutType(done + [rest[0]], ty) + rest[1..]
      ensures Swept(cache.elems, cache.deleteWatchers, notes') == LDelAll(s0, Ids(OfType(done + [rest[0]], ty)), EmitEvent)
    {
      var e := rest[0];
      WithoutTypeStep(done, rest, ty);
      ghost var ids := Ids(OfType(done, ty));
      if e.ty == ty {
        ghost var cur := CacheSets();
        FreshAfterLDel(cur.elems, cur.guards, e.id, e.ty, reserved);
        LDelFrom(cur.elems, cur.guards, notes, e.id, EmitEvent);
        IdsSnoc(OfType(done, ty), e);
        LDelAllSnoc(s0, ids, e.id, EmitEvent);
        assert Ids(OfType(done + [e], ty)) == ids + [e.id];
        var _, more := RemoveCached(e.id);
        notes' := notes + more;
        assert Swept(cache.elems, cache.deleteWatchers, notes') == LDel(Swept(cur.elems, cur.guards, notes), e.id, EmitEvent);
      } else {
        assert OfType(done + [e], ty) == OfType(done, ty);
        notes' := notes;
      }
    }

    /**
     * The `#emitCache.forEach(...)` that deletes the cached emits of type
     * `ty`; an id `reserved` for a new emit stays unused.
     */
    method SweepCache(ty: T, ghost reserved: nat) returns (notes: seq<Note<nat, T>>)
      requires CacheOk() && FreshIn(cache.elems, cache.deleteWatchers, reserved)
      modifies cache`elems, cache`deleteWatchers
      ensures CacheOk() && FreshIn(cache.elems, cache.deleteWatchers, reserved)
      ensures cache.elems == WithoutType(old(cache.elems), ty)
      ensures Swept(cache.elems, cache.deleteWatchers, notes) == Sweep(old(CacheSets()), ty, EmitEvent)
    {
      ghost var s0 := CacheSets();
      ghost var es := cache.elems;
      ghost var done: seq<Entry<T, P>> := [];
      var rest := cache.elems;
      notes := [];
      assert es == done + rest;
      assert s0.(notes := []) == s0;
      while rest != []
        invariant es == done + rest && DistinctIds(es)
        invariant CacheOk() && FreshIn(cache.elems, cache.deleteWatchers, reserved)
        invariant cache.elems == WithoutType(done, ty) + rest
        invariant Swept(cache.elems, cache.deleteWatchers, notes) == LDelAll(s0, Ids(OfType(done, ty)), EmitEvent)
        decreases |rest|
      {
        notes := CacheSweepStep(done, rest, ty, s0, notes, reserved);
        done, rest := done + [rest[0]], rest[1..];
      }
      assert es == done && cache.elems == WithoutType(done, ty) + [];
    }

    /**
     * A call of the callback `on` stored for listener `l`: the user callback,
     * for `once` its `run.cancel()`, then the `on` run note; `notes` is what
     * the call reports.
     */
    method Call(l: Listener<T, C>, params: P) returns (r: R, notes: seq<Note<nat, T>>)
      requires ListenersOk()
      modifies listeners`elems, listeners`deleteWatchers
      ensures ListenersOk()
      ensures r == call(l.val.cb, params)
      ensures Swept(listeners.elems, listeners.deleteWatchers, notes) == LCall(old(ListenerSets()), l)
    {
      r := call(l.val.cb, params);
      var deleted := [];
      if l.val.once {
        var removed;
        removed, deleted := RemoveListener(l.id);
      }
      notes := deleted + [Note(Some(l.id), OnEvent, Run, l.ty)];
    }

    /**
     * One step of the `forEach` in `#emit`: `done` has been visited and
     * listener `rest[0]` is called when it has type `ty`.
     */
    method CallStep(ghost done: seq<Listener<T, C>>, rest: seq<Listener<T, C>>, ty: T, params: P, ghost s0: Swept<T, Handler<C>>,
                    values: seq<R>, notes: seq<Note<nat, T>>)
      returns (values': seq<R>, notes': seq<Note<nat, T>>)
      requires rest != [] && DistinctIds(done + rest)
      requires ListenersOk()
      requires listeners.elems == DropOnce(done, ty) + rest
      requires values == Replies(call, OfType(done, ty), params)
      requires Swept(listeners.elems, listeners.deleteWatchers, notes) == LCallAll(s0, OfType(done, ty))
      modifies listeners`elems, listeners`deleteWatchers
      ensures done + rest == (done + [rest[0]]) + rest[1..]
      ensures ListenersOk()
      ensures listeners.elems == DropOnce(done + [rest[0]], ty) + rest[1..]
      ensures values' == Replies(call, OfType(done + [rest[0]], ty), params)
      ensures Swept(listeners.elems, listeners.deleteWatchers, notes') == LCallAll(s0, OfType(done + [rest[0]], ty))
    {
      var l := rest[0];
      DropStep(done, rest, ty);
      ghost var called := OfType(done, ty);
      if l.ty == ty {
        ghost var cur := ListenerSets();
        LCallFrom(cur.elems, cur.guards, notes, l);
        LCallAllSnoc(s0, called, l);
        RepliesSnoc(call, called, l, params);
        var r, more := Call(l, params);
        values', notes' := values + [r], notes + more;
        assert Swept(listeners.elems, listeners.deleteWatchers, notes') == LCall(Swept(cur.elems, cur.guards, notes), l);
      } else {
        assert OfType(done + [l], ty) == called;
        values', notes' := values, notes;
      }
    }

    /**
     * The `#listener.forEach` of `#emit`: calls every listener of type `ty`
     * in insertion order and collects one return value per call.
     */
    method CallAll(ty: T, params: P) returns (values: seq<R>, notes: seq<Note<nat, T>>)
      requires ListenersOk()
      modifies listeners`elems, listeners`deleteWatchers
      ensures ListenersOk()
      ensures values == Replies(call, OfType(old(listeners.elems), ty), params)
      ensures listeners.elems == DropOnce(old(listeners.elems), ty)
      ensures Swept(listeners.elems, listeners.deleteWatchers, notes) == LCallAll(old(ListenerSets()), OfType(old(listeners.elems), ty))
    {
      ghost var s0 := ListenerSets();
      ghost var es := listeners.elems;
      ghost var done: seq<Listener<T, C>> := [];
      var rest := listeners.elems;
      values, notes := [], [];
      assert es == done + rest;
      while rest != []
        invariant es == done + rest && DistinctIds(es)
        invariant ListenersOk()
        invariant listeners.elems == DropOnce(done, ty) + rest
        invariant values == Replies(call, OfType(done, ty), params)
        invariant Swept(listeners.elems, listeners.deleteWatchers, notes) == LCallAll(s0, OfType(done, ty))
        decreases |rest|
      {
        values, notes := CallStep(done, rest, ty, params, s0, values, notes);
        done, rest := done + [rest[0]], rest[1..];
      }
      assert es == done && listeners.elems == DropOnce(done, ty) + [];
    }

    /**
     * The part of `#on` after the `isOnOnce` sweep, with the guard `on`
     * registers: a fresh id, the item stored (the delivery watchers of the
     * type run and are returned, and queue their microtasks), and its guard.
     */
    method AddListener(ty: T, cb: C, once: bool) returns (item: Listener<T, C>, fired: seq<Watcher<T, Pending<P>>>)
      requires Valid()
      modifies listeners, this`counter, this`pending
      ensures Valid()
      ensures counter == old(counter) + 1 && item == Entry(counter, ty, Handler(cb, once))
      ensures fired == Fired(old(listeners.addWatchers), ty)
      ensures listeners.elems == old(listeners.elems) + [item]
      ensures listeners.deleteWatchers == old(listeners.deleteWatchers) + [Guard(item)]
      ensures listeners.addWatchers == Kept(old(listeners.addWatchers), ty)
      ensures pending == old(pending) + Deliveries(fired, item)
    {
      ghost var es, dws, aws, c := listeners.elems, listeners.deleteWatchers, listeners.addWatchers, counter;
      LListenerFresh(es, dws, aws, c);
      LInvGrow(es, dws, aws, cache.elems, cache.deleteWatchers, c, c + 1);
      var n := NextId();
      item := Entry(n, ty, Handler(cb, once));
      fired := listeners.Add(item);
      pending := pending + Deliveries(fired, item);
      listeners.WatchDelete(n, Some(ty), false, ty);
      LListenerInvAdd(es, dws, aws, c, item, listeners.elems, listeners.deleteWatchers, listeners.addWatchers, counter);
    }

    /**
     * The synchronous part of the delivery watchers that ran: each deletes
     * its emit from the cache (`this.#emitCache.delete(args)`), in order.
     */
    method DropDelivered(fired: seq<Watcher<T, Pending<P>>>) returns (notes: seq<Note<nat, T>>)
      requires CacheOk()
      modifies cache`elems, cache`deleteWatchers
      ensures CacheOk()
      ensures Swept(cache.elems, cache.deleteWatchers, notes) == LDelAll(old(CacheSets()), Emits(fired), EmitEvent)
    {
      ghost var s0 := CacheSets();
      ghost var ns := Emits(fired);
      notes := [];
      var k := 0;
      while k < |fired|
        invariant k <= |fired| && CacheOk()
        invariant Swept(cache.elems, cache.deleteWatchers, notes) == LDelAll(s0, ns[..k], EmitEvent)
      {
        assert ns[..k + 1] == ns[..k] + [fired[k].tag.emit];
        LDelFrom(cache.elems, cache.deleteWatchers, notes, fired[k].tag.emit, EmitEvent);
        LDelAllSnoc(s0, ns[..k], fired[k].tag.emit, EmitEvent);
        var _, more := RemoveCached(fired[k].tag.emit);
        notes := notes + more;
        k := k + 1;
      }
      assert ns[..k] == ns;
    }

    /**
     * What `on`/`once` leaves: the new listener stored last with its guard
     * (after the sweep of its type under `isOnOnce`), the add watchers of its
     * type run, their deliveries queued and their cached emits deleted; the
     * watches and the values as they were.
     */
    twostate predicate ListenDone(ty: T, cb: C, once: bool, new run: ListenRun<T, C>)
      reads this, listeners, cache
    {
      var s := if OnOnce(ty) then Sweep(old(ListenerSets()), ty, OnEvent) else old(ListenerSets());
      var c := LDelAll(old(CacheSets()), Emits(Fired(old(listeners.addWatchers), ty)), EmitEvent);
      && counter == old(counter) + 1 && run == ListenRun(counter, Entry(counter, ty, Handler(cb, once)))
      && listeners.elems == (if OnOnce(ty) then WithoutType(old(listeners.elems), ty) else old(listeners.elems)) + [run.item]
      && listeners.deleteWatchers == s.guards + [Guard(run.item)]
      && listeners.addWatchers == Kept(old(listeners.addWatchers), ty)
      && pending == old(pending) + Deliveries(Fired(old(listeners.addWatchers), ty), run.item)
      && cache.elems == c.elems && cache.deleteWatchers == c.guards
      && log == old(log) + s.notes + c.notes + [Note(Some(run.id), OnEvent, Register, ty)]
      && unchanged(this`watches, this`results)
    }

    /**
     * `on(type, cb)` (`once` false) and `once(type, cb)` (`once` true, whose
     * callback cancels its own run after the user callback): with
     * `isOnOnce` the listeners of the type are deleted first; the new
     * listener is stored, the emits it picks up leave the cache at once, and
     * its registration is reported.
     */
    method Listen(ty: T, cb: C, once: bool) returns (run: ListenRun<T, C>)
      requires Valid()
      modifies listeners, cache, this`counter, this`pending, this`log
      ensures Valid()
      ensures ListenDone(ty, cb, once, run)
    {
      var swept := [];
      if OnOnce(ty) {
        swept := SweepListeners(ty);
      }
      var item, fired := AddListener(ty, cb, once);
      var dropped := DropDelivered(fired);
      log := log + swept + dropped + [Note(Some(item.id), OnEvent, Register, ty)];
      run := ListenRun(item.id, item);
    }

    /** `run.cancel()` of `on` or `once`: `this.#listener.delete(item)`. */
    method CancelListen(run: ListenRun<T, C>) returns (removed: bool)
      requires Valid()
      modifies listeners`elems, listeners`deleteWatchers, this`log
      ensures Valid()
      ensures removed == (run.item.id in Ids(old(listeners.elems)))
      ensures var s := LDel(old(ListenerSets()), run.item.id, OnEvent);
              listeners.elems == s.elems && listeners.deleteWatchers == s.guards && log == old(log) + s.notes
    {
      var notes;
      removed, notes := RemoveListener(run.item.id);
      log := log + notes;
    }

    /**
     * `this.#emitCache.add(args)` of an emit that is cached (`stored`), and
     * the guard `this.#emitCache.watch_delete(type, ...)` that `emit`
     * registers for every emit.
     */
    method RecordEmit(n: nat, ty: T, params: P, stored: bool)
      requires CacheOk() && FreshIn(cache.elems, cache.deleteWatchers, n) && n <= counter
      modifies cache
      ensures CacheOk()
      ensures cache.elems == old(cache.elems) + if stored then [Entry(n, ty, params)] else []
      ensures cache.deleteWatchers == old(cache.deleteWatchers) + [Guard(Entry(n, ty, params))]
    {
      ghost var es, dws := cache.elems, cache.deleteWatchers;
      var e := Entry(n, ty, params);
      if stored {
        var _ := cache.Add(e);
      }
      cache.WatchDelete(n, Some(ty), false, ty);
      LCacheInvRegister(es, dws, counter, e, stored, cache.elems, cache.deleteWatchers);
    }

    /** The delivery watcher `this.#listener.watch_add_one(type, ...)` of the cached emit `n`. */
    method WatchDelivery(n: nat, ty: T, params: P)
      requires ListenersOk() && n <= counter
      modifies listeners`addWatchers
      ensures ListenersOk()
      ensures listeners.addWatchers == old(listeners.addWatchers) + [Watcher(n, Some(ty), true, Pending(n, params))]
    {
      ghost var aws := listeners.addWatchers;
      listeners.WatchAdd(n, Some(ty), true, Pending(n, params));
      LListenerInvWatch(listeners.elems, listeners.deleteWatchers, aws, counter, Watcher(n, Some(ty), true, Pending(n, params)),
                        listeners.addWatchers);
    }

    /**
     * The caching branch of `#emit` for emit `n` (`async`): with
     * `isEmitOnce` the cached emits of the type are deleted, the emit is
     * stored and its delivery watcher registered; every emit gets its guard.
     */
    method StoreEmit(n: nat, ty: T, params: P, async: bool) returns (notes: seq<Note<nat, T>>)
      requires ListenersOk() && CacheOk() && FreshIn(cache.elems, cache.deleteWatchers, n) && n <= counter
      requires listeners as object != cache
      modifies listeners`addWatchers, cache
      ensures ListenersOk() && CacheOk()
      ensures listeners.addWatchers ==
                old(listeners.addWatchers) + if async then [Watcher(n, Some(ty), true, Pending(n, params))] else []
      ensures var s := if async && EmitOnce(ty) then Sweep(old(CacheSets()), ty, EmitEvent) else old(CacheSets());
              cache.elems == s.elems + (if async then [Entry(n, ty, params)] else []) &&
              cache.deleteWatchers == s.guards + [Guard(Entry(n, ty, params))] &&
              notes == s.notes
      ensures !async ==> n !in Ids(cache.elems)
    {
      notes := [];
      if async && EmitOnce(ty) {
        notes := SweepCache(ty, n);
      }
      RecordEmit(n, ty, params, async);
      if async {
        WatchDelivery(n, ty, params);
      }
    }

    /** `++this.#processId` of `#emit`: the new id is not used by any cached emit or guard. */
    method NextEmitId() returns (n: nat)
      requires Valid()
      modifies this`counter
      ensures Valid()
      ensures counter == old(counter) + 1 && n == counter
      ensures FreshIn(cache.elems, cache.deleteWatchers, n)
    {
      LCacheFresh(cache.elems, cache.deleteWatchers, counter);
      LInvGrow(listeners.elems, listeners.deleteWatchers, listeners.addWatchers, cache.elems, cache.deleteWatchers, counter, counter + 1);
      n := NextId();
    }

    /**
     * The set part of `#emit` for the emit numbered `n`: the listeners of the
     * type are called in order and, when none matched and `isEmitCache`
     * holds, the emit is cached; `notes` is what the guards report.
     */
    method Publish(n: nat, ty: T, params: P) returns (values: seq<R>, async: bool, notes: seq<Note<nat, T>>)
      requires Valid() && n == counter && FreshIn(cache.elems, cache.deleteWatchers, n)
      modifies listeners, cache
      ensures Valid()
      ensures values == Replies(call, OfType(old(listeners.elems), ty), params)
      ensures async == (OfType(old(listeners.elems), ty) == [] && EmitCache(ty))
      ensures listeners.elems == DropOnce(old(listeners.elems), ty)
      ensures listeners.deleteWatchers == LCallAll(old(ListenerSets()), OfType(old(listeners.elems), ty)).guards
      ensures listeners.addWatchers ==
                old(listeners.addWatchers) + if async then [Watcher(n, Some(ty), true, Pending(n, params))] else []
      ensures var s := if async && EmitOnce(ty) then Sweep(old(CacheSets()), ty, EmitEvent) else old(CacheSets());
              cache.elems == s.elems + (if async then [Entry(n, ty, params)] else []) &&
              cache.deleteWatchers == s.guards + [Guard(Entry(n, ty, params))] &&
              notes == LCallAll(old(ListenerSets()), OfType(old(listeners.elems), ty)).notes + s.notes
      ensures !async ==> n !in Ids(cache.elems)
    {
      var called;
      values, called := CallAll(ty, params);
      async := |values| == 0 && EmitCache(ty);
      var swept := StoreEmit(n, ty, params, async);
      notes := called + swept;
    }

    /** What `emit` reports itself: its registration and, unless it was cached, its run. */
    static function EmitNotes(run: EmitRun<T, R>): (r: seq<Note<nat, T>>)
      ensures |r| == (if run.async then 1 else 2)
      ensures r[0] == Note(Some(run.id), EmitEvent, Register, run.ty)
      ensures !run.async ==> r[1] == Note(Some(run.id), EmitEvent, Run, run.ty)
    {
      [Note(Some(run.id), EmitEvent, Register, run.ty)] + if run.async then [] else [Note(Some(run.id), EmitEvent, Run, run.ty)]
    }

    /**
     * What `emit` leaves: the listeners of the type called in order (the
     * `once` ones gone, with their guards), their replies recorded as the
     * emit's values; with no listener and `isEmitCache`, the emit cached
     * last with a delivery watcher; every emit with its guard; the queue and
     * the watches as they were.
     */
    twostate predicate EmitDone(ty: T, params: P, new run: EmitRun<T, R>)
      reads this, listeners, cache
    {
      var called := LCallAll(old(ListenerSets()), OfType(old(listeners.elems), ty));
      var s := if run.async && EmitOnce(ty) then Sweep(old(CacheSets()), ty, EmitEvent) else old(CacheSets());
      && counter == old(counter) + 1 && run.id == counter && run.ty == ty
      && run.values == Replies(call, OfType(old(listeners.elems), ty), params)
      && run.async == (OfType(old(listeners.elems), ty) == [] && EmitCache(ty))
      && listeners.elems == DropOnce(old(listeners.elems), ty)
      && listeners.deleteWatchers == called.guards
      && listeners.addWatchers ==
           old(listeners.addWatchers) + (if run.async then [Watcher(counter, Some(ty), true, Pending(counter, params))] else [])
      && cache.elems == s.elems + (if run.async then [Entry(counter, ty, params)] else [])
      && cache.deleteWatchers == s.guards + [Guard(Entry(counter, ty, params))]
      && log == old(log) + (called.notes + s.notes) + EmitNotes(run)
      && results == old(results)[counter := run.values]
      && (!run.async ==> counter !in Ids(cache.elems))
      && unchanged(this`pending, this`watches)
    }

    /**
     * `emit(type, ...params)`: a fresh id; every listener of the type called
     * in order; when none matched and `isEmitCache` holds, the emit is cached
     * (after the cached emits of its type with `isEmitOnce`) and a delivery
     * watcher waits for the next listener of the type; then the registration,
     * and for an emit that is not cached also its run, are reported.
     */
    method Emit(ty: T, params: P) returns (run: EmitRun<T, R>)
      requires Valid()
      modifies listeners, cache, this`counter, this`log, this`results
      ensures Valid()
      ensures EmitDone(ty, params, run)
    {
      var n := NextEmitId();
      var values, async, notes := Publish(n, ty, params);
      run := EmitRun(n, ty, values, async);
      log := log + notes + EmitNotes(run);
      results := results[n := values];
    }

    /** The function `watch_add_one` returned for the delivery watcher of emit `n`. */
    method UnwatchDelivery(n: nat)
      requires ListenersOk()
      modifies listeners`addWatchers
      ensures ListenersOk()
      ensures listeners.addWatchers == WithoutKey(old(listeners.addWatchers), n)
    {
      ghost var aws := listeners.addWatchers;
      var _ := listeners.UnwatchAdd(n);
      LListenerInvUnwatch(listeners.elems, listeners.deleteWatchers, aws, counter, n, listeners.addWatchers);
    }

    /**
     * `run.cancel()` of `emit`: for a cached emit, its delivery watcher is
     * removed and the emit deleted from the cache, and the result says
     * whether it was still there; otherwise nothing happens and the result
     * is false.
     */
    method CancelEmit(run: EmitRun<T, R>) returns (r: bool)
      requires Valid()
      modifies listeners`addWatchers, cache`elems, cache`deleteWatchers, this`log
      ensures Valid()
      ensures r == (run.async && run.id in Ids(old(cache.elems)))
      ensures listeners.addWatchers == if run.async then WithoutKey(old(listeners.addWatchers), run.id) else old(listeners.addWatchers)
      ensures var s := if run.async then LDel(old(CacheSets()), run.id, EmitEvent) else old(CacheSets());
              cache.elems == s.elems && cache.deleteWatchers == s.guards && log == old(log) + s.notes
    {
      r := false;
      if run.async {
        UnwatchDelivery(run.id);
        var notes;
        r, notes := RemoveCached(run.id);
        log := log + notes;
      }
    }

    /**
     * `run.cancel()` of an emit that was just cached: it is the last cached
     * emit, its guard the last guard and its delivery watcher the last add
     * watcher; the emit and its watcher go, and so does every guard of its type.
     */
    method CancelCached(run: EmitRun<T, R>, ghost params: P, ghost kept: Swept<T, P>, ghost aws: seq<Watcher<T, Pending<P>>>)
      requires Valid() && run.async
      requires cache.elems == kept.elems + [Entry(run.id, run.ty, params)]
      requires cache.deleteWatchers == kept.guards + [Guard(Entry(run.id, run.ty, params))]
      requires listeners.addWatchers == aws + [Watcher(run.id, Some(run.ty), true, Pending(run.id, params))]
      requires run.id !in Keys(aws)
      modifies listeners`addWatchers, cache`elems, cache`deleteWatchers, this`log
      ensures Valid()
      ensures cache.elems == kept.elems && cache.deleteWatchers == KeptLegacy(kept.guards, run.ty)
      ensures listeners.addWatchers == aws && run.id !in Ids(cache.elems)
      ensures log == old(log) + [Note(Some(run.id), EmitEvent, Cancel, run.ty)]
    {
      var e := Entry(run.id, run.ty, params);
      LastFresh(kept.elems, e);
      LDelLast(kept, e, EmitEvent);
      WithoutKeyFreshSnoc(aws, Watcher(run.id, Some(run.ty), true, Pending(run.id, params)));
      var _ := CancelEmit(run);
    }

    /** The `run.cancel()` of `syncEmit`: `CancelCached` for a cached emit, nothing otherwise. */
    method Settle(run: EmitRun<T, R>, ghost params: P, ghost kept: Swept<T, P>, ghost aws: seq<Watcher<T, Pending<P>>>)
      requires Valid()
      requires run.async ==> cache.elems == kept.elems + [Entry(run.id, run.ty, params)]
      requires run.async ==> cache.deleteWatchers == kept.guards + [Guard(Entry(run.id, run.ty, params))]
      requires run.async ==> listeners.addWatchers == aws + [Watcher(run.id, Some(run.ty), true, Pending(run.id, params))]
      requires run.async ==> run.id !in Keys(aws)
      modifies listeners`addWatchers, cache`elems, cache`deleteWatchers, this`log
      ensures Valid()
      ensures run.async ==> cache.elems == kept.elems && cache.deleteWatchers == KeptLegacy(kept.guards, run.ty)
      ensures run.async ==> listeners.addWatchers == aws && run.id !in Ids(cache.elems)
      ensures run.async ==> log == old(log) + [Note(Some(run.id), EmitEvent, Cancel, run.ty)]
      ensures !run.async ==> unchanged(listeners`addWatchers, cache`elems, cache`deleteWatchers, this`log)
    {
      if run.async {
        CancelCached(run, params, kept, aws);
      }
    }

    /**
     * `syncEmit(type, ...params)`: `emit` followed by its `run.cancel()`, so
     * the emit never stays in the cache; the replies of the listeners called
     * synchronously are returned.
     */
    method SyncEmit(ty: T, params: P) returns (values: seq<R>)
      requires Valid()
      modifies listeners, cache, this`counter, this`log, this`results
      ensures Valid()
      ensures counter == old(counter) + 1
      ensures values == Replies(call, OfType(old(listeners.elems), ty), params)
      ensures results == old(results)[counter := values]
      ensures listeners.elems == DropOnce(old(listeners.elems), ty)
      ensures listeners.deleteWatchers == LCallAll(old(ListenerSets()), OfType(old(listeners.elems), ty)).guards
      ensures listeners.addWatchers == old(listeners.addWatchers)
      ensures counter !in Ids(cache.elems)
      ensures var async := OfType(old(listeners.elems), ty) == [] && EmitCache(ty);
              var s := if async && EmitOnce(ty) then Sweep(old(CacheSets()), ty, EmitEvent) else old(CacheSets());
              cache.elems == s.elems &&
              cache.deleteWatchers == (if async then KeptLegacy(s.guards, ty) else s.guards + [Guard(Entry(counter, ty, params))])
      ensures var async := OfType(old(listeners.elems), ty) == [] && EmitCache(ty);
              var s := if async && EmitOnce(ty) then Sweep(old(CacheSets()), ty, EmitEvent) else old(CacheSets());
              log == old(log) + LCallAll(old(ListenerSets()), OfType(old(listeners.elems), ty)).notes + s.notes +
                     [Note(Some(counter), EmitEvent, Register, ty)] +
                     [Note(Some(counter), EmitEvent, if async then Cancel else Run, ty)]
    {
      ghost var aws0, s0, l0, log0, called := listeners.addWatchers, CacheSets(), ListenerSets(), log, OfType(listeners.elems, ty);
      LListenerFresh(listeners.elems, listeners.deleteWatchers, aws0, counter);
      var run := Emit(ty, params);
      ghost var s := if run.async && EmitOnce(ty) then Sweep(s0, ty, EmitEvent) else s0;
      ghost var head := log0 + LCallAll(l0, called).notes + s.notes + [Note(Some(run.id), EmitEvent, Register, ty)];
      AppendAssoc(log0, LCallAll(l0, called).notes, s.notes);
      assert log == head + if run.async then [] else [Note(Some(run.id), EmitEvent, Run, ty)];
      Settle(run, params, s, aws0);
      assert log == head + [Note(Some(run.id), EmitEvent, if run.async then Cancel else Run, ty)];
      values := run.values;
    }

    /** One type of `#off`: its listeners, then its cached emits, are deleted in insertion order. */
    method OffStep(ls: seq<Listener<T, C>>, cs: seq<Entry<T, P>>, types: seq<T>, i: nat,
                   ghost l0: Swept<T, Handler<C>>, ghost c0: Swept<T, P>,
                   lrem: seq<Listener<T, C>>, crem: seq<Entry<T, P>>, notes: seq<Note<nat, T>>)
      returns (lrem': seq<Listener<T, C>>, crem': seq<Entry<T, P>>, notes': seq<Note<nat, T>>)
      requires i < |types| && Valid()
      requires listeners.elems == WithoutTypes(ls, types[..i]) && cache.elems == WithoutTypes(cs, types[..i])
      requires lrem == OffRemoved(ls, types[..i]) && crem == OffRemoved(cs, types[..i])
      requires var r := LOff(l0, c0, types[..i]);
               ListenerSets() == r.listeners && CacheSets() == r.cache && notes == r.notes
      modifies listeners`elems, listeners`deleteWatchers, cache`elems, cache`deleteWatchers
      ensures Valid()
      ensures listeners.elems == WithoutTypes(ls, types[..i + 1]) && cache.elems == WithoutTypes(cs, types[..i + 1])
      ensures lrem' == OffRemoved(ls, types[..i + 1]) && crem' == OffRemoved(cs, types[..i + 1])
      ensures var r := LOff(l0, c0, types[..i + 1]);
              ListenerSets() == r.listeners && CacheSets() == r.cache && notes' == r.notes
    {
      var t := types[i];
      var a, b := OfType(listeners.elems, t), OfType(cache.elems, t);
      var swept := SweepListeners(t);
      LCacheFresh(cache.elems, cache.deleteWatchers, counter);
      var dropped := SweepCache(t, counter + 1);
      OffTypesSnoc(ls, types, i);
      OffTypesSnoc(cs, types, i);
      LOffSnoc(l0, c0, types, i);
      lrem', crem', notes' := lrem + a, crem + b, notes + swept + dropped;
    }

    /** `#off(...types)`: the loop over the types. */
    method OffAll(types: seq<T>) returns (lrem: seq<Listener<T, C>>, crem: seq<Entry<T, P>>, notes: seq<Note<nat, T>>)
      requires Valid()
      modifies listeners`elems, listeners`deleteWatchers, cache`elems, cache`deleteWatchers
      ensures Valid()
      ensures lrem == OffRemoved(old(listeners.elems), types) && crem == OffRemoved(old(cache.elems), types)
      ensures listeners.elems == WithoutTypes(old(listeners.elems), types) && cache.elems == WithoutTypes(old(cache.elems), types)
      ensures var r := LOff(old(ListenerSets()), old(CacheSets()), types);
              ListenerSets() == r.listeners && CacheSets() == r.cache && notes == r.notes
    {
      var ls, cs := listeners.elems, cache.elems;
      ghost var l0, c0 := ListenerSets(), CacheSets();
      lrem, crem, notes := [], [], [];
      var i := 0;
      while i < |types|
        invariant i <= |types| && Valid()
        invariant listeners.elems == WithoutTypes(ls, types[..i]) && cache.elems == WithoutTypes(cs, types[..i])
        invariant lrem == OffRemoved(ls, types[..i]) && crem == OffRemoved(cs, types[..i])
        invariant var r := LOff(l0, c0, types[..i]);
                  ListenerSets() == r.listeners && CacheSets() == r.cache && notes == r.notes
      {
        lrem, crem, notes := OffStep(ls, cs, types, i, l0, c0, lrem, crem, notes);
        i := i + 1;
      }
      assert types[..i] == types;
    }

    /**
     * `off(...types)`: throws without a type; otherwise deletes every
     * listener and cached emit of the given types, returns their ids in
     * removal order and reports one `off` run per type.
     */
    method Off(types: seq<T>) returns (r: Result<Totals>)
      requires Valid()
      modifies listeners`elems, listeners`deleteWatchers, cache`elems, cache`deleteWatchers, this`log
      ensures Valid()
      ensures r.Err? <==> types == []
      ensures r.Err? ==> r.message == "At least one event type is required"
      ensures r.Ok? ==> r.value == Totals(Ids(OffRemoved(old(listeners.elems), types)), Ids(OffRemoved(old(cache.elems), types)))
      ensures listeners.elems == WithoutTypes(old(listeners.elems), types) && cache.elems == WithoutTypes(old(cache.elems), types)
      ensures var o := LOff(old(ListenerSets()), old(CacheSets()), types);
              listeners.deleteWatchers == o.listeners.guards && cache.deleteWatchers == o.cache.guards &&
              log == old(log) + (if types == [] then [] else o.notes + OffRunNotes(types))
    {
      ghost var l0, c0, log0 := ListenerSets(), CacheSets(), log;
      if types == [] {
        assert LOff(l0, c0, types) == OffRun(l0, c0, []);
        return Err("At least one event type is required");
      }
      var lrem, crem, notes := OffAll(types);
      ghost var o := LOff(l0, c0, types);
      assert notes == o.notes;
      log := log + notes + OffRunNotes(types);
      AppendAssoc(log0, notes, OffRunNotes(types));
      r := Ok(Totals(Ids(lrem), Ids(crem)));
    }

    /**
     * `watch(cb)` (`filter` None) and `watch(type, cb)`: a watch callback
     * that receives the notifications logged from now on; `key` stands for
     * the unwatch function returned.
     */
    method Watch(filter: Option<T>) returns (key: nat)
      modifies this`watches
      ensures key == |old(watches)| && watches == old(watches) + [WatchRec(key, filter, |log|, None)]
    {
      key := |watches|;
      watches := watches + [WatchRec(key, filter, |log|, None)];
    }

    /** The unwatch function of `watch`: `this.#watchCbs.delete(_cb)`. */
    method Unwatch(key: nat) returns (removed: bool)
      modifies this`watches
      ensures removed == (key in LiveKeys(old(watches)))
      ensures watches == CloseWatch(old(watches), key, |log|)
    {
      removed := key in LiveKeys(watches);
      watches := CloseWatch(watches, key, |log|);
    }

    /**
     * The first queued microtask of a picked-up emit: the listener's stored
     * callback is called, its reply appended to the emit's values, and the
     * emit's run reported by `run.done`.
     */
    method Deliver()
      requires Valid() && pending != []
      modifies listeners`elems, listeners`deleteWatchers, this`log, this`pending, this`results
      ensures Valid()
      ensures var d := old(pending[0]);
              var s := LCall(old(ListenerSets()), d.listener);
              pending == old(pending[1..]) &&
              results == old(results)[d.emit := ValuesOf(old(results), d.emit) + [call(d.listener.val.cb, d.params)]] &&
              listeners.elems == s.elems && listeners.deleteWatchers == s.guards &&
              log == old(log) + s.notes + [Note(Some(d.emit), EmitEvent, Run, d.ty)]
    {
      var d := pending[0];
      pending := pending[1..];
      var r, notes := Call(d.listener, d.params);
      results := results[d.emit := ValuesOf(results, d.emit) + [r]];
      log := log + notes + [Note(Some(d.emit), EmitEvent, Run, d.ty)];
    }

    /** Runs the queued microtasks, in queue order, until none is left. */
    method Flush()
      requires Valid()
      modifies listeners`elems, listeners`deleteWatchers, this`log, this`pending, this`results
      ensures Valid() && pending == []
      ensures var s := LDeliveredAll(old(ListenerSets()), old(pending));
              && listeners.elems == s.elems && listeners.deleteWatchers == s.guards
              && log == old(log) + s.notes
              && results == Replied(call, old(results), old(pending))
    {
      ghost var s0, log0, results0, queue := ListenerSets(), log, results, pending;
      ghost var done: seq<Delivery<T, C, P>> := [];
      while pending != []
        invariant Valid() && queue == done + pending
        invariant DeliveredFrom(s0, log0, results0, done)
        decreases |pending|
      {
        done := FlushStep(s0, log0, results0, done);
      }
      assert done == queue;
    }

    /** The state that `Flush` changes is that of `s0`, `log0` and `results0` after the microtasks `done`. */
    ghost predicate DeliveredFrom(s0: Swept<T, Handler<C>>, log0: seq<Note<nat, T>>, results0: map<nat, seq<R>>,
                                  done: seq<Delivery<T, C, P>>)
      reads listeners`elems, listeners`deleteWatchers, this`log, this`results
    {
      var s := LDeliveredAll(s0, done);
      && listeners.elems == s.elems && listeners.deleteWatchers == s.guards
      && log == log0 + s.notes
      && results == Replied(call, results0, done)
    }

    /** One turn of `Flush`: the first queued microtask, after those in `done`. */
    method FlushStep(ghost s0: Swept<T, Handler<C>>, ghost log0: seq<Note<nat, T>>, ghost results0: map<nat, seq<R>>,
                     ghost done: seq<Delivery<T, C, P>>)
      returns (ghost done': seq<Delivery<T, C, P>>)
      requires Valid() && pending != [] && DeliveredFrom(s0, log0, results0, done) && s0.notes == []
      modifies listeners`elems, listeners`deleteWatchers, this`log, this`pending, this`results
      ensures Valid() && DeliveredFrom(s0, log0, results0, done')
      ensures done' == done + [old(pending[0])] && done + old(pending) == done' + pending
    {
      ghost var d := pending[0];
      assert pending == [d] + pending[1..];
      ghost var r := LDeliveredAll(s0, done);
      ghost var c := LCall(ListenerSets(), d.listener);
      Deliver();
      LDeliveredAllSnoc(s0, done, d);
      RepliedSnoc(call, results0, done, d);
      LCallFrom(r.elems, r.guards, r.notes, d.listener);
      AppendAssoc(log0, r.notes, c.notes);
      AppendAssoc(log0, r.notes + c.notes, [Note(Some(d.emit), EmitEvent, Run, d.ty)]);
      AppendAssoc(r.notes, c.notes, [Note(Some(d.emit), EmitEvent, Run, d.ty)]);
      done' := done + [d];
      AppendAssoc(done, [d], pending);
    }
  }
}
