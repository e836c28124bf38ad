/**
 * `AsyncEventChannel` of src/index.ts: listeners and cached emits kept in
 * two watched sets, string ids `"<channel>:<n>"` from one counter, watch
 * notifications appended to a log, and the microtask that delivers a cached
 * emit kept in a queue of pending deliveries.
 */
module Channel {
  import opened Wrappers
  import opened ChannelOptions
  import opened WatchedSets
  import opened Registry
  import opened ChannelState

  /** The id string `"<channel>:<n>"` that `#processIdInc` produces. */
  datatype ProcessId = ProcessId(channel: nat, n: nat)

  /** The run object of `emit`; its `cancel` is `CancelEmit`. */
  datatype EmitRun<T, R> = EmitRun(id: ProcessId, ty: T, values: seq<R>, async: bool)

  /**
   * The run object of `on` and `once`; `item` is the stored listener that
   * its `cancel` (`CancelListen`) deletes.
   */
  datatype ListenRun<T, C> = ListenRun(id: ProcessId, item: Listener<T, C>)

  /** The object `off` returns. */
  datatype Totals = Totals(listener: seq<ProcessId>, emitCache: seq<ProcessId>)

  /** The object `hasType` returns. */
  datatype TypeIds = TypeIds(onIds: seq<ProcessId>, emitIds: seq<ProcessId>, has: bool)

  function Pids<T, V>(ch: nat, es: seq<Entry<T, V>>): (r: seq<ProcessId>)
    ensures |r| == |es|
    ensures forall i :: 0 <= i < |es| ==> r[i] == ProcessId(ch, es[i].id)
  {
    seq(|es|, i requires 0 <= i < |es| => ProcessId(ch, es[i].id))
  }

  /** The `delete` notifications the guards of the removed items `es` log, in removal order. */
  function DeleteNotes<T, V>(ch: nat, es: seq<Entry<T, V>>, ev: Event): (r: seq<Note<ProcessId, T>>)
    ensures |r| == |es|
    ensures forall i :: 0 <= i < |es| ==> r[i] == Note(Some(ProcessId(ch, es[i].id)), ev, Delete, es[i].ty)
  {
    seq(|es|, i requires 0 <= i < |es| => Note(Some(ProcessId(ch, es[i].id)), ev, Delete, es[i].ty))
  }

  lemma DeleteNotesSnoc<T, V>(ch: nat, es: seq<Entry<T, V>>, e: Entry<T, V>, ev: Event)
    ensures DeleteNotes(ch, es + [e], ev) == DeleteNotes(ch, es, ev) + [Note(Some(ProcessId(ch, e.id)), ev, Delete, e.ty)]
  {
    var l, r := DeleteNotes(ch, es + [e], ev), DeleteNotes(ch, es, ev) + [Note(Some(ProcessId(ch, e.id)), ev, Delete, e.ty)];
    assert |l| == |r|;
    forall k | 0 <= k < |l| ensures l[k] == r[k] {
      if k < |es| { assert (es + [e])[k] == es[k]; }
    }
  }

  /**
   * The notifications a call of listener `l` logs. A `once` listener logs its
   * `once` run, then `on` delete (only if it was still stored) and `on`
   * cancel as it removes itself, then, like every listener, its `on` run.
   */
  function InvokeNotes<T, C>(ch: nat, l: Listener<T, C>, stored: bool): seq<Note<ProcessId, T>>
  {
    var pid := Some(ProcessId(ch, l.id));
    (if l.val.once
     then [Note(pid, OnceEvent, Run, l.ty)] +
          (if stored then [Note(pid, OnEvent, Delete, l.ty)] else []) +
          [Note(pid, OnEvent, Cancel, l.ty)]
     else []) +
    [Note(pid, OnEvent, Run, l.ty)]
  }

  /** The notifications of calling the stored listeners `ls` in order, as `#emit` does. */
  function CallNotes<T, C>(ch: nat, ls: seq<Listener<T, C>>): seq<Note<ProcessId, T>>
  {
    if ls == [] then [] else CallNotes(ch, ls[..|ls| - 1]) + InvokeNotes(ch, ls[|ls| - 1], true)
  }

  lemma CallNotesSnoc<T, C>(ch: nat, ls: seq<Listener<T, C>>, l: Listener<T, C>)
    ensures CallNotes(ch, ls + [l]) == CallNotes(ch, ls) + InvokeNotes(ch, l, true)
  {
    assert (ls + [l])[..|ls|] == ls;
  }

  /** The notifications `#off(...types)` logs: per type, the listener deletions, then the cache deletions. */
  function OffNotes<T(==), C, P>(ch: nat, ls: seq<Listener<T, C>>, cs: seq<Entry<T, P>>, types: seq<T>): seq<Note<ProcessId, T>>
    decreases |types|
  {
    if types == [] then []
    else
      var front, t := types[..|types| - 1], types[|types| - 1];
      OffNotes(ch, ls, cs, front) +
      DeleteNotes(ch, OfType(WithoutTypes(ls, front), t), OnEvent) +
      DeleteNotes(ch, OfType(WithoutTypes(cs, front), t), EmitEvent)
  }

  /** `#off` over one more type. */
  lemma OffSnoc<T, C, P>(ch: nat, ls: seq<Listener<T, C>>, cs: seq<Entry<T, P>>, types: seq<T>, i: nat)
    requires i < |types|
    ensures WithoutTypes(ls, types[..i + 1]) == WithoutType(WithoutTypes(ls, types[..i]), types[i])
    ensures WithoutTypes(cs, types[..i + 1]) == WithoutType(WithoutTypes(cs, types[..i]), types[i])
    ensures OffRemoved(ls, types[..i + 1]) == OffRemoved(ls, types[..i]) + OfType(WithoutTypes(ls, types[..i]), types[i])
    ensures OffRemoved(cs, types[..i + 1]) == OffRemoved(cs, types[..i]) + OfType(WithoutTypes(cs, types[..i]), types[i])
    ensures OffNotes(ch, ls, cs, types[..i + 1]) ==
              OffNotes(ch, ls, cs, types[..i]) +
              (DeleteNotes(ch, OfType(WithoutTypes(ls, types[..i]), types[i]), OnEvent) +
               DeleteNotes(ch, OfType(WithoutTypes(cs, types[..i]), types[i]), EmitEvent))
  {
    assert types[..i + 1][..i] == types[..i];
  }

  /**
   * The notifications of `off(t)` called on its own for each type `t` of
   * `types` in turn, on a channel that held the listeners `ls` and the
   * cached emits `cs`: each call reports its deletions, then its run.
   */
  function OffEachNotes<T(==), C, P>(ch: nat, ls: seq<Listener<T, C>>, cs: seq<Entry<T, P>>, types: seq<T>): seq<Note<ProcessId, T>>
    decreases |types|
  {
    if types == [] then []
    else
      var front, t := types[..|types| - 1], types[|types| - 1];
      OffEachNotes(ch, ls, cs, front) + (OffNotes(ch, WithoutTypes(ls, front), WithoutTypes(cs, front), [t]) + OffRunNotes([t]))
  }

  /** A log that held `log0` and the notifications of `off` on `types` holds those of one more call, `off(t)`. */
  lemma OffEachSnoc<T, C, P>(ch: nat, ls: seq<Listener<T, C>>, cs: seq<Entry<T, P>>, types: seq<T>, t: T,
                             log0: seq<Note<ProcessId, T>>, log: seq<Note<ProcessId, T>>)
    requires log == log0 + OffEachNotes(ch, ls, cs, types)
    ensures log + OffNotes(ch, WithoutTypes(ls, types), WithoutTypes(cs, types), [t]) + OffRunNotes([t]) ==
            log0 + OffEachNotes(ch, ls, cs, types + [t])
  {
    assert (types + [t])[..|types|] == types;
    AppendAssoc(log, OffNotes(ch, WithoutTypes(ls, types), WithoutTypes(cs, types), [t]), OffRunNotes([t]));
    AppendAssoc(log0, OffEachNotes(ch, ls, cs, types), OffNotes(ch, WithoutTypes(ls, types), WithoutTypes(cs, types), [t]) + OffRunNotes([t]));
  }

  /** The notifications `on` (and, after it, `once`) log when registering listener `e`. */
  function RegisterNotes<T, C>(ch: nat, e: Listener<T, C>): seq<Note<ProcessId, T>>
  {
    [Note(Some(ProcessId(ch, e.id)), OnEvent, Register, e.ty)] +
    (if e.val.once then [Note(Some(ProcessId(ch, e.id)), OnceEvent, Register, e.ty)] else [])
  }

  /** `hasType(type)` over the two sets' contents. */
  function TypeIdsOf<T(==), C, P>(ch: nat, ls: seq<Listener<T, C>>, cs: seq<Entry<T, P>>, ty: T): TypeIds
  {
    var onIds, emitIds := Pids(ch, OfType(ls, ty)), Pids(ch, OfType(cs, ty));
    TypeIds(onIds, emitIds, |onIds| > 0 || |emitIds| > 0)
  }

  /** An id is among the `Pids` of a sequence exactly when an item there has its number. */
  lemma PidsMember<T, V>(ch: nat, es: seq<Entry<T, V>>, n: nat)
    ensures ProcessId(ch, n) in Pids(ch, es) <==> exists i :: 0 <= i < |es| && es[i].id == n
  {
    if ProcessId(ch, n) in Pids(ch, es) {
      var k :| 0 <= k < |es| && Pids(ch, es)[k] == ProcessId(ch, n);
      assert es[k].id == n;
    }
  }

  /**
   * `hasType(type)` lists the stored listeners and the cached emits of
   * exactly that type, and `has` says whether there is one of either.
   */
  lemma TypeIdsOfMeaning<T, C, P>(ch: nat, ls: seq<Listener<T, C>>, cs: seq<Entry<T, P>>, ty: T, n: nat)
    ensures ProcessId(ch, n) in TypeIdsOf(ch, ls, cs, ty).onIds <==> exists i :: 0 <= i < |ls| && ls[i].id == n && ls[i].ty == ty
    ensures ProcessId(ch, n) in TypeIdsOf(ch, ls, cs, ty).emitIds <==> exists i :: 0 <= i < |cs| && cs[i].id == n && cs[i].ty == ty
    ensures TypeIdsOf(ch, ls, cs, ty).has <==>
              (exists i :: 0 <= i < |ls| && ls[i].ty == ty) || (exists i :: 0 <= i < |cs| && cs[i].ty == ty)
  {
    var lo, co := OfType(ls, ty), OfType(cs, ty);
    PidsMember(ch, lo, n);
    PidsMember(ch, co, n);
    OfTypeEmpty(ls, ty);
    OfTypeEmpty(cs, ty);
    if exists i :: 0 <= i < |lo| && lo[i].id == n {
      var i :| 0 <= i < |lo| && lo[i].id == n;
      OfTypeMember(ls, ty, lo[i]);
      var j :| 0 <= j < |ls| && ls[j] == lo[i];
    }
    if exists i :: 0 <= i < |co| && co[i].id == n {
      var i :| 0 <= i < |co| && co[i].id == n;
      OfTypeMember(cs, ty, co[i]);
      var j :| 0 <= j < |cs| && cs[j] == co[i];
    }
  }

  /* The queued microtasks of `#emit`, run in queue order, as one fold per part of the state they change. */

  /** The parts of a channel's state that its queued microtasks change. */
  datatype Drain<T, C, P, R> = Drain(listeners: seq<Listener<T, C>>, cache: seq<Entry<T, P>>, guards: seq<Watcher<T, T>>,
                                     results: map<nat, seq<R>>, log: seq<Note<ProcessId, T>>)

  /** The listeners after the microtasks `ds`: each `once` listener called deletes itself. */
  function OnceDropped<T, C, P>(ls: seq<Listener<T, C>>, ds: seq<Delivery<T, C, P>>): seq<Listener<T, C>>
  {
    if ds == [] then ls
    else
      var r, l := OnceDropped(ls, ds[..|ds| - 1]), ds[|ds| - 1].listener;
      if l.val.once then Without(r, l.id) else r
  }

  /** The cached emits after the microtasks `ds`: each deletes its emit from the cache. */
  function Uncached<T, C, P>(es: seq<Entry<T, P>>, ds: seq<Delivery<T, C, P>>): seq<Entry<T, P>>
  {
    if ds == [] then es else Without(Uncached(es, ds[..|ds| - 1]), ds[|ds| - 1].emit)
  }

  /** The cache's delete watchers after the microtasks `ds`: an emit's guard goes when the emit is deleted. */
  function Unguarded<T, C, P>(es: seq<Entry<T, P>>, guards: seq<Watcher<T, T>>, ds: seq<Delivery<T, C, P>>): seq<Watcher<T, T>>
  {
    if ds == [] then guards
    else
      var g, n := Unguarded(es, guards, ds[..|ds| - 1]), ds[|ds| - 1].emit;
      if n in Ids(Uncached(es, ds[..|ds| - 1])) then WithoutKey(g, n) else g
  }

  /**
   * What the microtask `d` of channel `ch` logs with listeners `ls` and
   * cache `es`: the listener's notes, the emit's run, and the report of the
   * emit's guard when the emit was still cached.
   */
  function DeliveryNotes<T, C, P>(ch: nat, ls: seq<Listener<T, C>>, es: seq<Entry<T, P>>, d: Delivery<T, C, P>): seq<Note<ProcessId, T>>
  {
    var pid := Some(ProcessId(ch, d.emit));
    InvokeNotes(ch, d.listener, d.listener.id in Ids(ls)) + [Note(pid, EmitEvent, Run, d.ty)] +
    (if d.emit in Ids(es) then [Note(pid, EmitEvent, Delete, Lookup(es, d.emit).ty)] else [])
  }

  /** What the microtasks `ds` of channel `ch` log, run in queue order from listeners `ls` and cache `es`. */
  function DeliveriesNotes<T, C, P>(ch: nat, ls: seq<Listener<T, C>>, es: seq<Entry<T, P>>, ds: seq<Delivery<T, C, P>>): seq<Note<ProcessId, T>>
  {
    if ds == [] then []
    else
      var front := ds[..|ds| - 1];
      DeliveriesNotes(ch, ls, es, front) + DeliveryNotes(ch, OnceDropped(ls, front), Uncached(es, front), ds[|ds| - 1])
  }

  lemma DeliveredSnoc<T, C, P>(ch: nat, ls: seq<Listener<T, C>>, es: seq<Entry<T, P>>, guards: seq<Watcher<T, T>>,
                               ds: seq<Delivery<T, C, P>>, d: Delivery<T, C, P>)
    ensures OnceDropped(ls, ds + [d]) == if d.listener.val.once then Without(OnceDropped(ls, ds), d.listener.id) else OnceDropped(ls, ds)
    ensures Uncached(es, ds + [d]) == Without(Uncached(es, ds), d.emit)
    ensures Unguarded(es, guards, ds + [d]) ==
            if d.emit in Ids(Uncached(es, ds)) then WithoutKey(Unguarded(es, guards, ds), d.emit) else Unguarded(es, guards, ds)
    ensures DeliveriesNotes(ch, ls, es, ds + [d]) ==
            DeliveriesNotes(ch, ls, es, ds) + DeliveryNotes(ch, OnceDropped(ls, ds), Uncached(es, ds), d)
  {
    assert (ds + [d])[..|ds|] == ds;
  }

  /** After the microtasks `ds`, none of their emits is still cached. */
  lemma {:induction false} UncachedGone<T, C, P>(es: seq<Entry<T, P>>, ds: seq<Delivery<T, C, P>>, i: nat)
    requires i < |ds|
    ensures ds[i].emit !in Ids(Uncached(es, ds))
  {
    var front, d := ds[..|ds| - 1], ds[|ds| - 1];
    var e := ds[i];
    if i < |front| {
      assert e == front[i];
      UncachedGone(es, front, i);
    }
    WithoutGone(Uncached(es, front), d.emit, e.emit);
  }

  /** After the microtasks `ds`, none of their `once` listeners is still stored. */
  lemma {:induction false} OnceDroppedGone<T, C, P>(ls: seq<Listener<T, C>>, ds: seq<Delivery<T, C, P>>, i: nat)
    requires i < |ds| && ds[i].listener.val.once
    ensures ds[i].listener.id !in Ids(OnceDropped(ls, ds))
  {
    var front, d := ds[..|ds| - 1], ds[|ds| - 1];
    var e := ds[i];
    if i < |front| {
      assert e == front[i];
      OnceDroppedGone(ls, front, i);
    }
    if d.listener.val.once {
      WithoutGone(OnceDropped(ls, front), d.listener.id, e.listener.id);
    }
  }

  /**
   * What `run.cancel()` of `on` or `once` logs: the deletion, when the item
   * was still stored, then the `on` cancel and, for `once`, the `once` cancel.
   */
  function ListenCancelNotes<T, C>(run: ListenRun<T, C>, removed: bool): seq<Note<ProcessId, T>>
  {
    (if removed then [Note(Some(run.id), OnEvent, Delete, run.item.ty)] else []) +
    [Note(Some(run.id), OnEvent, Cancel, run.item.ty)] +
    (if run.item.val.once then [Note(Some(run.id), OnceEvent, Cancel, run.item.ty)] else [])
  }

  /**
   * What `run.cancel()` of `emit` logs with cached emits `es`: the deletion,
   * when the emit is still cached, then the `emit` cancel.
   */
  function EmitCancelNotes<T, P, R>(run: EmitRun<T, R>, es: seq<Entry<T, P>>): seq<Note<ProcessId, T>>
  {
    (if run.async && run.id.n in Ids(es) then [Note(Some(run.id), EmitEvent, Delete, Lookup(es, run.id.n).ty)] else []) +
    [Note(Some(run.id), EmitEvent, Cancel, run.ty)]
  }

  class AsyncEventChannel<T(==), C, P, R> {
    /** `id`: the value of the global channel counter when this channel was made. */
    const id: nat
    /** What a listener callback returns for the given parameters. */
    const call: (C, P) -> R
    const options: Opts
    const optionsMap: map<T, Opts>
    const listeners: WatchedSet<T, Handler<C>, Pending<P>, T>
    const cache: WatchedSet<T, P, (), T>
    /** The `<n>` of `#processId`. */
    var counter: nat
    var watches: seq<WatchRec<T>>
    /** Every notification any watch callback was offered, in order. */
    var log: seq<Note<ProcessId, T>>
    var pending: seq<Delivery<T, C, P>>
    /** `run.values` of every emit, by its number. */
    var results: map<nat, seq<R>>
    /** Every listener item ever made, by id. */
    ghost var known: map<nat, Listener<T, C>>

    ghost predicate ListenersOk()
      reads this`known, this`counter, listeners`elems, listeners`deleteWatchers, listeners`addWatchers
    {
      !listeners.legacy &&
      ListenerInv(listeners.elems, listeners.deleteWatchers, listeners.addWatchers, known, counter)
    }

    ghost predicate CacheOk()
      reads this`counter, cache`elems, cache`deleteWatchers, cache`addWatchers
    {
      !cache.legacy && CacheInv(cache.elems, cache.deleteWatchers, cache.addWatchers, counter)
    }

    ghost predicate Valid()
      reads this`known, this`counter, this`pending, this`watches, listeners, cache
    {
      listeners as object != cache &&
      ListenersOk() && CacheOk() && PendingInv(pending, known) && WatchInv(watches, counter)
    }

    /** `run` was returned by this channel's `on` or `once`. */
    ghost predicate MadeHere(run: ListenRun<T, C>)
      reads this`known
    {
      run.id == ProcessId(id, run.item.id) && run.item.id in known && known[run.item.id] == run.item
    }

    /** Every item made so far has an id at most the counter, so the next id is not taken. */
    lemma KnownBelow()
      requires Valid()
      ensures forall n :: n in known ==> n <= counter
    {
    }

    function EmitCache(ty: T): bool { GetOption(options, optionsMap, ty, IsEmitCache) }
    function EmitOnce(ty: T): bool { GetOption(options, optionsMap, ty, IsEmitOnce) }
    function OnOnce(ty: T): bool { GetOption(options, optionsMap, ty, IsOnOnce) }

    constructor(id: nat, call: (C, P) -> R, options: Opts, optionsMap: map<T, Opts>)
      ensures Valid() && fresh(listeners) && fresh(cache)
      ensures this.id == id && this.call == call && this.options == options && this.optionsMap == optionsMap
      ensures counter == 0 && watches == [] && log == [] && pending == [] && results == map[]
      ensures listeners.elems == [] && listeners.addWatchers == [] && cache.elems == []
    {
      this.id := id;
      this.call := call;
      this.options := options;
      this.optionsMap := optionsMap;
      listeners := new WatchedSet(false);
      cache := new WatchedSet(false);
      counter := 0;
      watches, log, pending, results := [], [], [], map[];
      known := map[];
    }

    /** `#processIdInc`: the next id of this channel. */
    method NextId() returns (n: nat)
      modifies this`counter
      ensures counter == old(counter) + 1 && n == counter
    {
      counter := counter + 1;
      n := counter;
    }

    /**
     * The set part of `#listener.delete(item)` for the listener with id `n`:
     * when it was stored, its guard fires and unwatches itself; `notes` is
     * what the guard reports.
     */
    method RemoveListener(n: nat) returns (removed: bool, notes: seq<Note<ProcessId, T>>)
      requires ListenersOk()
      modifies listeners
      ensures ListenersOk()
      ensures removed == (n in Ids(old(listeners.elems)))
      ensures listeners.elems == Without(old(listeners.elems), n)
      ensures listeners.addWatchers == old(listeners.addWatchers)
      ensures notes == if removed then [Note(Some(ProcessId(id, n)), OnEvent, Delete, Lookup(old(listeners.elems), n).ty)] else []
    {
      removed := n in Ids(listeners.elems);
      if removed {
        notes := RemoveStoredListener(n);
      } else {
        notes := [];
        WithoutAbsent(listeners.elems, n);
      }
    }

    /** `RemoveListener` for an id that is stored. */
    method RemoveStoredListener(n: nat) returns (notes: seq<Note<ProcessId, T>>)
      requires ListenersOk() && n in Ids(listeners.elems)
      modifies listeners
      ensures ListenersOk()
      ensures listeners.elems == Without(old(listeners.elems), n)
      ensures listeners.addWatchers == old(listeners.addWatchers)
      ensures notes == [Note(Some(ProcessId(id, n)), OnEvent, Delete, Lookup(old(listeners.elems), n).ty)]
    {
      ghost var es, dws, aws, kn, c := listeners.elems, listeners.deleteWatchers, listeners.addWatchers, known, counter;
      ghost var ty, pid := Lookup(es, n).ty, ProcessId(id, n);
      ghost var notes0 := SelfNotes(FiredOnDelete(false, dws, ty), n, pid, OnEvent, Delete);
      assert notes0 == [Note(Some(pid), OnEvent, Delete, ty)] && KeptOnDelete(false, dws, ty) == dws by {
        DeleteWithGuardOf(es, dws, aws, kn, c, n, pid);
      }
      var removed, fired := listeners.Delete(n);
      notes := SelfNotes(fired, n, ProcessId(id, n), OnEvent, Delete);
      UnwatchOwnGuard(n, es, dws);
    }

    /** The callback of a deleted listener's guard: it unwatches itself, which restores the invariant. */
    method UnwatchOwnGuard(n: nat, ghost es: seq<Listener<T, C>>, ghost dws: seq<Watcher<T, T>>)
      requires ListenerInv(es, dws, listeners.addWatchers, known, counter) && !listeners.legacy
      requires listeners.elems == Without(es, n) && listeners.deleteWatchers == dws
      modifies listeners`deleteWatchers
      ensures ListenersOk()
      ensures listeners.deleteWatchers == WithoutKey(dws, n)
    {
      var _ := listeners.UnwatchDelete(n);
      ListenerInvDelete(es, dws, listeners.addWatchers, known, counter, n, Without(es, n), WithoutKey(dws, n), listeners.addWatchers, known, counter);
    }

    /** `#listener.delete(item)` for the listener with id `n`. */
    method DeleteListener(n: nat) returns (removed: bool)
      requires ListenersOk()
      modifies listeners, this`log
      ensures ListenersOk()
      ensures removed == (n in Ids(old(listeners.elems)))
      ensures listeners.elems == Without(old(listeners.elems), n)
      ensures listeners.addWatchers == old(listeners.addWatchers)
      ensures log == old(log) +
                     if removed then [Note(Some(ProcessId(id, n)), OnEvent, Delete, Lookup(old(listeners.elems), n).ty)] else []
    {
      var notes;
      removed, notes := RemoveListener(n);
      log := log + notes;
    }

    /**
     * The set part of `#emitCache.delete(args)` for the emit numbered `n`:
     * the guard that fires unwatches itself; `notes` is what it reports.
     */
    method RemoveCached(n: nat) returns (removed: bool, notes: seq<Note<ProcessId, T>>)
      requires CacheOk()
      modifies cache
      ensures CacheOk()
      ensures removed == (n in Ids(old(cache.elems)))
      ensures cache.elems == Without(old(cache.elems), n)
      ensures cache.deleteWatchers == if removed then WithoutKey(old(cache.deleteWatchers), n) else old(cache.deleteWatchers)
      ensures notes == if removed then [Note(Some(ProcessId(id, n)), EmitEvent, Delete, Lookup(old(cache.elems), n).ty)] else []
    {
      removed := n in Ids(cache.elems);
      if removed {
        notes := RemoveStoredCached(n);
      } else {
        notes := [];
        WithoutAbsent(cache.elems, n);
      }
    }

    /** `RemoveCached` for an id that is stored. */
    method RemoveStoredCached(n: nat) returns (notes: seq<Note<ProcessId, T>>)
      requires CacheOk() && n in Ids(cache.elems)
      modifies cache
      ensures CacheOk()
      ensures cache.elems == Without(old(cache.elems), n)
      ensures cache.deleteWatchers == WithoutKey(old(cache.deleteWatchers), n)
      ensures notes == [Note(Some(ProcessId(id, n)), EmitEvent, Delete, Lookup(old(cache.elems), n).ty)]
    {
      ghost var es, dws, aws, c := cache.elems, cache.deleteWatchers, cache.addWatchers, counter;
      ghost var ty, pid := Lookup(es, n).ty, ProcessId(id, n);
      ghost var notes0 := SelfNotes(FiredOnDelete(false, dws, ty), n, pid, EmitEvent, Delete);
      assert notes0 == [Note(Some(pid), EmitEvent, Delete, ty)] && KeptOnDelete(false, dws, ty) == dws by {
        CacheDeleteWithGuard(es, dws, aws, c, n, pid);
      }
      var removed, fired := cache.Delete(n);
      notes := SelfNotes(fired, n, ProcessId(id, n), EmitEvent, Delete);
      UnwatchCachedGuard(n, es, dws);
    }

    /** The callback of a deleted cached emit's guard: it unwatches itself, which restores the invariant. */
    method UnwatchCachedGuard(n: nat, ghost es: seq<Entry<T, P>>, ghost dws: seq<Watcher<T, T>>)
      requires CacheInv(es, dws, cache.addWatchers, counter) && !cache.legacy
      requires cache.elems == Without(es, n) && cache.deleteWatchers == dws
      modifies cache`deleteWatchers
      ensures CacheOk()
      ensures cache.deleteWatchers == WithoutKey(dws, n)
    {
      var _ := cache.UnwatchDelete(n);
      CacheInvDelete(es, dws, cache.addWatchers, counter, n, Without(es, n), WithoutKey(dws, n), cache.addWatchers, counter);
    }

    /** `#emitCache.delete(args)` for the emit numbered `n`. */
    method DeleteCached(n: nat) returns (removed: bool)
      requires CacheOk()
      modifies cache, this`log
      ensures CacheOk()
      ensures removed == (n in Ids(old(cache.elems)))
      ensures cache.elems == Without(old(cache.elems), n)
      ensures cache.deleteWatchers == if removed then WithoutKey(old(cache.deleteWatchers), n) else old(cache.deleteWatchers)
      ensures log == old(log) +
                     if removed then [Note(Some(ProcessId(id, n)), EmitEvent, Delete, Lookup(old(cache.elems), n).ty)] else []
    {
      var notes;
      removed, notes := RemoveCached(n);
      log := log + notes;
    }

    /** One step of the sweep in `DeleteListenersOfType`: with `done` visited, item `rest[0]` is deleted when it has type `ty`. */
    method SweepStep(ghost done: seq<Listener<T, C>>, rest: seq<Listener<T, C>>, ty: T, removed: seq<Listener<T, C>>,
                     ghost log0: seq<Note<ProcessId, T>>)
      returns (removed': seq<Listener<T, C>>)
      requires rest != [] && DistinctIds(done + rest)
      requires ListenersOk()
      requires listeners.elems == WithoutType(done, ty) + rest
      requires removed == OfType(done, ty)
      requires log == log0 + DeleteNotes(id, removed, OnEvent)
      modifies listeners, this`log
      ensures done + rest == (done + [rest[0]]) + rest[1..]
      ensures ListenersOk()
      ensures listeners.elems == WithoutType(done + [rest[0]], ty) + rest[1..]
      ensures removed' == OfType(done + [rest[0]], ty)
      ensures listeners.addWatchers == old(listeners.addWatchers)
      ensures log == log0 + DeleteNotes(id, removed', OnEvent)
    {
      var l := rest[0];
      WithoutTypeStep(done, rest, ty);
      if l.ty == ty {
        var _ := DeleteListener(l.id);
        assert log == log0 + DeleteNotes(id, removed + [l], OnEvent) by {
          DeleteNotesSnoc(id, removed, l, OnEvent);
          AppendAssoc(log0, DeleteNotes(id, removed, OnEvent), [Note(Some(ProcessId(id, l.id)), OnEvent, Delete, l.ty)]);
        }
        removed' := removed + [l];
      } else {
        assert removed == OfType(done + [l], ty);
        removed' := removed;
      }
    }

    /**
     * `this.#listener.forEach(item => item[0] === type && this.#listener.delete(item))`:
     * deletes the listeners of type `ty` in insertion order and yields them.
     */
    method DeleteListenersOfType(ty: T) returns (removed: seq<Listener<T, C>>)
      requires ListenersOk()
      modifies listeners, this`log
      ensures ListenersOk()
      ensures removed == OfType(old(listeners.elems), ty)
      ensures listeners.elems == WithoutType(old(listeners.elems), ty)
      ensures listeners.addWatchers == old(listeners.addWatchers)
      ensures log == old(log) + DeleteNotes(id, removed, OnEvent)
    {
      ghost var log0 := log;
      ghost var es := listeners.elems;
      ghost var done: seq<Listener<T, C>> := [];
      var rest := listeners.elems;
      removed := [];
      assert es == done + rest;
      while rest != []
        invariant es == done + rest && DistinctIds(es)
        invariant ListenersOk()
        invariant listeners.elems == WithoutType(done, ty) + rest
        invariant removed == OfType(done, ty)
        invariant listeners.addWatchers == old(listeners.addWatchers)
        invariant log == log0 + DeleteNotes(id, removed, OnEvent)
        decreases |rest|
      {
        removed := SweepStep(done, rest, ty, removed, log0);
        done, rest := done + [rest[0]], rest[1..];
      }
      assert es == done && listeners.elems == WithoutType(done, ty) + [];
    }

    /** One step of the sweep in `DeleteCachedOfType`. */
    method CacheSweepStep(ghost done: seq<Entry<T, P>>, rest: seq<Entry<T, P>>, ty: T, removed: seq<Entry<T, P>>,
                          ghost log0: seq<Note<ProcessId, T>>, ghost reserved: nat)
      returns (removed': seq<Entry<T, P>>)
      requires rest != [] && DistinctIds(done + rest)
      requires CacheOk() && FreshIn(cache.elems, cache.deleteWatchers, reserved)
      requires cache.elems == WithoutType(done, ty) + rest
      requires removed == OfType(done, ty)
      requires log == log0 + DeleteNotes(id, removed, EmitEvent)
      modifies cache, this`log
      ensures done + rest == (done + [rest[0]]) + rest[1..]
      ensures CacheOk() && FreshIn(cache.elems, cache.deleteWatchers, reserved)
      ensures cache.elems == WithoutType(done + [rest[0]], ty) + rest[1..]
      ensures removed' == OfType(done + [rest[0]], ty)
      ensures log == log0 + DeleteNotes(id, removed', EmitEvent)
    {
      var e := rest[0];
      WithoutTypeStep(done, rest, ty);
      if e.ty == ty {
        FreshAfterDelete(cache.elems, cache.deleteWatchers, e.id, reserved);
        var _ := DeleteCached(e.id);
        assert log == log0 + DeleteNotes(id, removed + [e], EmitEvent) by {
          DeleteNotesSnoc(id, removed, e, EmitEvent);
          AppendAssoc(log0, DeleteNotes(id, removed, EmitEvent), [Note(Some(ProcessId(id, e.id)), EmitEvent, Delete, e.ty)]);
        }
        removed' := removed + [e];
      } else {
        assert removed == OfType(done + [e], ty);
        removed' := removed;
      }
    }

    /**
     * The `#emitCache.forEach(...)` that deletes the cached emits of type
     * `ty`; an id `reserved` for a new emit stays unused.
     */
    method DeleteCachedOfType(ty: T, ghost reserved: nat) returns (removed: seq<Entry<T, P>>)
      requires CacheOk() && FreshIn(cache.elems, cache.deleteWatchers, reserved)
      modifies cache, this`log
      ensures CacheOk() && FreshIn(cache.elems, cache.deleteWatchers, reserved)
      ensures removed == OfType(old(cache.elems), ty)
      ensures cache.elems == WithoutType(old(cache.elems), ty)
      ensures log == old(log) + DeleteNotes(id, removed, EmitEvent)
    {
      ghost var log0 := log;
      ghost var es := cache.elems;
      ghost var done: seq<Entry<T, P>> := [];
      var rest := cache.elems;
      removed := [];
      assert es == done + rest;
      while rest != []
        invariant es == done + rest && DistinctIds(es)
        invariant CacheOk() && FreshIn(cache.elems, cache.deleteWatchers, reserved)
        invariant cache.elems == WithoutType(done, ty) + rest
        invariant removed == OfType(done, ty)
        invariant log == log0 + DeleteNotes(id, removed, EmitEvent)
        decreases |rest|
      {
        removed := CacheSweepStep(done, rest, ty, removed, log0, reserved);
        done, rest := done + [rest[0]], rest[1..];
      }
      assert es == done && cache.elems == WithoutType(done, ty) + [];
    }

    /**
     * A call of the callback that `on` stored for listener `l`: the user
     * callback; for a `once` listener the `once` run note and the listener's
     * own cancel (deletion and `on` cancel); then the `on` run note.
     * `notes` is what the call reports.
     */
    method Call(l: Listener<T, C>, params: P) returns (r: R, notes: seq<Note<ProcessId, T>>)
      requires ListenersOk() && l.id in known && known[l.id] == l
      modifies listeners
      ensures ListenersOk()
      ensures r == call(l.val.cb, params)
      ensures listeners.elems == if l.val.once then Without(old(listeners.elems), l.id) else old(listeners.elems)
      ensures listeners.addWatchers == old(listeners.addWatchers)
      ensures notes == InvokeNotes(id, l, l.id in Ids(old(listeners.elems)))
    {
      r := call(l.val.cb, params);
      var pid := Some(ProcessId(id, l.id));
      if l.val.once {
        ghost var es, dws, aws, kn, c := listeners.elems, listeners.deleteWatchers, listeners.addWatchers, known, counter;
        if l.id in Ids(es) {
          KnownLookup(es, dws, aws, kn, c, l.id);
        }
        var _, deleted := RemoveListener(l.id);
        notes := [Note(pid, OnceEvent, Run, l.ty)] + deleted + [Note(pid, OnEvent, Cancel, l.ty)] + [Note(pid, OnEvent, Run, l.ty)];
      } else {
        notes := [Note(pid, OnEvent, Run, l.ty)];
      }
    }

    /** `Call` with its notifications logged. */
    method Invoke(l: Listener<T, C>, params: P) returns (r: R)
      requires ListenersOk() && l.id in known && known[l.id] == l
      modifies listeners, this`log
      ensures ListenersOk()
      ensures r == call(l.val.cb, params)
      ensures listeners.elems == if l.val.once then Without(old(listeners.elems), l.id) else old(listeners.elems)
      ensures listeners.addWatchers == old(listeners.addWatchers)
      ensures log == old(log) + InvokeNotes(id, l, l.id in Ids(old(listeners.elems)))
    {
      var notes;
      r, notes := Call(l, params);
      log := log + notes;
    }

    /** One step of the `forEach` in `#emit`: with `done` visited, listener `rest[0]` is called when it has type `ty`. */
    method CallStep(ghost done: seq<Listener<T, C>>, rest: seq<Listener<T, C>>, ty: T, params: P,
                    values: seq<R>, notes: seq<Note<ProcessId, T>>)
      returns (values': seq<R>, notes': seq<Note<ProcessId, T>>)
      requires rest != [] && DistinctIds(done + rest)
      requires ListenersOk()
      requires listeners.elems == DropOnce(done, ty) + rest
      requires values == Replies(call, OfType(done, ty), params)
      requires notes == CallNotes(id, OfType(done, ty))
      modifies listeners
      ensures done + rest == (done + [rest[0]]) + rest[1..]
      ensures ListenersOk()
      ensures listeners.elems == DropOnce(done + [rest[0]], ty) + rest[1..]
      ensures values' == Replies(call, OfType(done + [rest[0]], ty), params)
      ensures listeners.addWatchers == old(listeners.addWatchers)
      ensures notes' == CallNotes(id, OfType(done + [rest[0]], ty))
    {
      var l := rest[0];
      DropStep(done, rest, ty);
      ghost var called := OfType(done, ty);
      if l.ty == ty {
        assert listeners.elems[|DropOnce(done, ty)|] == l;
        var r, more := Call(l, params);
        assert more == InvokeNotes(id, l, true);
        CallNotesSnoc(id, called, l);
        RepliesSnoc(call, called, l, params);
        values', notes' := values + [r], notes + more;
      } else {
        assert OfType(done + [l], ty) == called;
        values', notes' := values, notes;
      }
    }

    /**
     * The `#listener.forEach` of `#emit`: calls every listener of type `ty`
     * in insertion order and collects one return value per call; `notes` is
     * what the calls report.
     */
    method CallAll(ty: T, params: P) returns (values: seq<R>, notes: seq<Note<ProcessId, T>>)
      requires ListenersOk()
      modifies listeners
      ensures ListenersOk()
      ensures values == Replies(call, OfType(old(listeners.elems), ty), params)
      ensures listeners.elems == DropOnce(old(listeners.elems), ty)
      ensures listeners.addWatchers == old(listeners.addWatchers)
      ensures notes == CallNotes(id, OfType(old(listeners.elems), ty))
    {
      ghost var es := listeners.elems;
      ghost var done: seq<Listener<T, C>> := [];
      var rest := listeners.elems;
      values, notes := [], [];
      assert es == done + rest;
      while rest != []
        invariant es == done + rest && DistinctIds(es)
        invariant ListenersOk()
        invariant listeners.elems == DropOnce(done, ty) + rest
        invariant values == Replies(call, OfType(done, ty), params)
        invariant listeners.addWatchers == old(listeners.addWatchers)
        invariant notes == CallNotes(id, OfType(done, ty))
        decreases |rest|
      {
        values, notes := CallStep(done, rest, ty, params, values, notes);
        done, rest := done + [rest[0]], rest[1..];
      }
      assert es == done && listeners.elems == DropOnce(done, ty) + [];
    }

    /** `CallAll` with its notifications logged. */
    method CallListeners(ty: T, params: P) returns (values: seq<R>)
      requires ListenersOk()
      modifies listeners, this`log
      ensures ListenersOk()
      ensures values == Replies(call, OfType(old(listeners.elems), ty), params)
      ensures listeners.elems == DropOnce(old(listeners.elems), ty)
      ensures listeners.addWatchers == old(listeners.addWatchers)
      ensures log == old(log) + CallNotes(id, OfType(old(listeners.elems), ty))
    {
      var notes;
      values, notes := CallAll(ty, params);
      log := log + notes;
    }

    /**
     * The part of `#on` after the `isOnOnce` sweep: a fresh id, the item
     * stored (its delivery watchers queue their microtasks), and the item's
     * guard `watch_delete(type, ...)` registered.
     */
    method AddListener(ty: T, cb: C, once: bool) returns (run: ListenRun<T, C>)
      requires Valid()
      modifies listeners, this`counter, this`known, this`pending
      ensures Valid()
      ensures counter == old(counter) + 1
      ensures run == ListenRun(ProcessId(id, counter), Entry(counter, ty, Handler(cb, once))) && MadeHere(run)
      ensures listeners.elems == old(listeners.elems) + [run.item]
      ensures known == old(known)[counter := run.item]
      ensures listeners.addWatchers == Kept(old(listeners.addWatchers), ty)
      ensures pending == old(pending) + Deliveries(Fired(old(listeners.addWatchers), ty), run.item)
    {
      ghost var es, dws, aws, kn, c, pd := listeners.elems, listeners.deleteWatchers, listeners.addWatchers, known, counter, pending;
      ListenerFresh(es, dws, aws, kn, c);
      InvGrow(es, dws, aws, kn, cache.elems, cache.deleteWatchers, watches, c, c + 1);
      var n := NextId();
      var item := Entry(n, ty, Handler(cb, once));
      known := known[n := item];
      var fired := listeners.Add(item);
      pending := pending + Deliveries(fired, item);
      listeners.WatchDelete(n, Some(ty), false, ty);
      ListenerInvAdd(es, dws, aws, kn, c, item, pd, listeners.elems, listeners.deleteWatchers, listeners.addWatchers, known, counter, pending);
      run := ListenRun(ProcessId(id, n), item);
    }

    /**
     * What `on`/`once` leaves: the new listener stored last (after the sweep
     * of its type under `isOnOnce`), the add watchers of its type run and
     * their deliveries queued; the cache, the watches and the values as they
     * were.
     */
    twostate predicate ListenDone(ty: T, cb: C, once: bool, new run: ListenRun<T, C>)
      reads this, listeners, cache
    {
      && counter == old(counter) + 1
      && run == ListenRun(ProcessId(id, counter), Entry(counter, ty, Handler(cb, once))) && MadeHere(run)
      && known == old(known)[counter := run.item]
      && listeners.elems == (if OnOnce(ty) then WithoutType(old(listeners.elems), ty) else old(listeners.elems)) + [run.item]
      && listeners.addWatchers == Kept(old(listeners.addWatchers), ty)
      && pending == old(pending) + Deliveries(Fired(old(listeners.addWatchers), ty), run.item)
      && log == old(log) + (if OnOnce(ty) then DeleteNotes(id, OfType(old(listeners.elems), ty), OnEvent) else []) +
                RegisterNotes(id, run.item)
      && (OnOnce(ty) ==> OfType(listeners.elems, ty) == [run.item])
      && unchanged(cache) && unchanged(this`watches, this`results)
    }

    /**
     * `on(type, cb)` (`once` false) and `once(type, cb)` (`once` true): with
     * `isOnOnce` the listeners of the type are deleted first; then the new
     * listener is stored and its registration is reported.
     */
    method Listen(ty: T, cb: C, once: bool) returns (run: ListenRun<T, C>)
      requires Valid()
      modifies listeners, this`counter, this`known, this`pending, this`log
      ensures Valid()
      ensures ListenDone(ty, cb, once, run)
    {
      if OnOnce(ty) {
        var _ := DeleteListenersOfType(ty);
      }
      run := AddListener(ty, cb, once);
      log := log + RegisterNotes(id, run.item);
      if OnOnce(ty) {
        OnlyOfType(old(listeners.elems), run.item);
      }
    }

    /**
     * `run.cancel()` of `on` or `once`: `#listener.delete(item)` (its guard
     * reports the deletion when the item was still stored), then the `on`
     * cancel note and, for `once`, the `once` cancel note.
     */
    method CancelListen(run: ListenRun<T, C>) returns (removed: bool)
      requires Valid() && MadeHere(run)
      modifies listeners, this`log
      ensures Valid()
      ensures removed == (run.item.id in Ids(old(listeners.elems)))
      ensures listeners.elems == Without(old(listeners.elems), run.item.id)
      ensures listeners.addWatchers == old(listeners.addWatchers)
      ensures log == old(log) + ListenCancelNotes(run, removed)
    {
      ghost var es, dws, aws, kn, c := listeners.elems, listeners.deleteWatchers, listeners.addWatchers, known, counter;
      if run.item.id in Ids(es) {
        KnownLookup(es, dws, aws, kn, c, run.item.id);
      }
      var notes;
      removed, notes := RemoveListener(run.item.id);
      log := log + notes + [Note(Some(run.id), OnEvent, Cancel, run.item.ty)] +
             (if run.item.val.once then [Note(Some(run.id), OnceEvent, Cancel, run.item.ty)] else []);
    }

    /**
     * `#emitCache.add(args)` of an emit that is cached (`stored`), and the
     * guard `#emitCache.watch_delete(type, ...)` that `emit` registers for
     * every emit; nothing reads the set between the two.
     */
    method RecordEmit(n: nat, ty: T, params: P, stored: bool)
      requires CacheOk() && FreshIn(cache.elems, cache.deleteWatchers, n) && n <= counter
      modifies cache
      ensures CacheOk()
      ensures cache.elems == old(cache.elems) + if stored then [Entry(n, ty, params)] else []
      ensures cache.deleteWatchers == old(cache.deleteWatchers) + [Guard(Entry(n, ty, params))]
    {
      ghost var es, dws := cache.elems, cache.deleteWatchers;
      var e := Entry(n, ty, params);
      if stored {
        var _ := cache.Add(e);
      }
      cache.WatchDelete(n, Some(ty), false, ty);
      CacheInvRegister(es, dws, counter, e, stored, cache.elems, cache.deleteWatchers, counter);
    }

    /** The delivery watcher `#listener.watch_add_one(type, ...)` of the cached emit `n`. */
    method WatchDelivery(n: nat, ty: T, params: P)
      requires ListenersOk() && n <= counter
      modifies listeners
      ensures ListenersOk()
      ensures listeners.addWatchers == old(listeners.addWatchers) + [Watcher(n, Some(ty), true, Pending(n, params))]
      ensures listeners.elems == old(listeners.elems)
    {
      ghost var es, dws, aws := listeners.elems, listeners.deleteWatchers, listeners.addWatchers;
      listeners.WatchAdd(n, Some(ty), true, Pending(n, params));
      ListenerInvWatch(es, dws, aws, known, counter, Watcher(n, Some(ty), true, Pending(n, params)),
                       listeners.elems, listeners.deleteWatchers, listeners.addWatchers, known, counter);
    }

    /**
     * The caching branch of `#emit` for emit `n` (`async`): with
     * `isEmitOnce` the earlier cached emits of the type are deleted, the
     * emit is stored and its delivery watcher registered; every emit gets
     * its guard.
     */
    method StoreEmit(n: nat, ty: T, params: P, async: bool)
      requires ListenersOk() && CacheOk() && FreshIn(cache.elems, cache.deleteWatchers, n) && n <= counter
      requires listeners as object != cache
      modifies listeners, cache, this`log
      ensures ListenersOk() && CacheOk()
      ensures listeners.elems == old(listeners.elems)
      ensures listeners.addWatchers ==
                old(listeners.addWatchers) + if async then [Watcher(n, Some(ty), true, Pending(n, params))] else []
      ensures cache.elems ==
                if !async then old(cache.elems)
                else (if EmitOnce(ty) then WithoutType(old(cache.elems), ty) else old(cache.elems)) + [Entry(n, ty, params)]
      ensures log == old(log) + if async && EmitOnce(ty) then DeleteNotes(id, OfType(old(cache.elems), ty), EmitEvent) else []
    {
      if async && EmitOnce(ty) {
        var _ := DeleteCachedOfType(ty, n);
      }
      RecordEmit(n, ty, params, async);
      if async {
        WatchDelivery(n, ty, params);
      }
    }

    /**
     * What `emit` leaves: the listeners of the type called (the `once` ones
     * gone), their replies recorded as the emit's values; with no listener
     * and `isEmitCache`, the emit cached last with a delivery watcher; the
     * items made, the queue and the watches as they were.
     */
    twostate predicate EmitDone(ty: T, params: P, new run: EmitRun<T, R>)
      reads this, listeners, cache
    {
      && counter == old(counter) + 1 && run.id == ProcessId(id, counter) && run.ty == ty
      && run.values == Replies(call, OfType(old(listeners.elems), ty), params)
      && run.async == (OfType(old(listeners.elems), ty) == [] && EmitCache(ty))
      && listeners.elems == DropOnce(old(listeners.elems), ty)
      && listeners.addWatchers ==
           old(listeners.addWatchers) + (if run.async then [Watcher(counter, Some(ty), true, Pending(counter, params))] else [])
      && cache.elems ==
           (if !run.async then old(cache.elems)
            else (if EmitOnce(ty) then WithoutType(old(cache.elems), ty) else old(cache.elems)) + [Entry(counter, ty, params)])
      && log == old(log) + CallNotes(id, OfType(old(listeners.elems), ty)) +
                (if run.async && EmitOnce(ty) then DeleteNotes(id, OfType(old(cache.elems), ty), EmitEvent) else []) +
                [Note(Some(run.id), EmitEvent, Register, ty)] +
                (if run.async then [] else [Note(Some(run.id), EmitEvent, Run, ty)])
      && results == old(results)[counter := run.values]
      && unchanged(this`known, this`pending, this`watches)
    }

    /**
     * `emit(type, ...params)`: a fresh id; every listener of the type called
     * in order; when none matched and `isEmitCache` holds, the emit is cached
     * (after the earlier cached emits of its type with `isEmitOnce`) and a
     * delivery watcher waits for the next listener of the type; then the
     * registration, and for an emit that is not cached also its run, are
     * reported.
     */
    method Emit(ty: T, params: P) returns (run: EmitRun<T, R>)
      requires Valid()
      modifies listeners, cache, this`counter, this`log, this`results
      ensures Valid() && EmitDone(ty, params, run)
    {
      ghost var c := counter;
      CacheFresh(cache.elems, cache.deleteWatchers, c);
      InvGrow(listeners.elems, listeners.deleteWatchers, listeners.addWatchers, known, cache.elems, cache.deleteWatchers, watches, c, c + 1);
      var n := NextId();
      var values := CallListeners(ty, params);
      var async := |values| == 0 && EmitCache(ty);
      StoreEmit(n, ty, params, async);
      var pid := ProcessId(id, n);
      log := log + [Note(Some(pid), EmitEvent, Register, ty)] + (if async then [] else [Note(Some(pid), EmitEvent, Run, ty)]);
      results := results[n := values];
      run := EmitRun(pid, ty, values, async);
    }

    /** The function `watch_add_one` returned for the delivery watcher of emit `n`. */
    method UnwatchDelivery(n: nat)
      requires ListenersOk()
      modifies listeners
      ensures ListenersOk()
      ensures listeners.addWatchers == WithoutKey(old(listeners.addWatchers), n)
      ensures listeners.elems == old(listeners.elems)
    {
      ghost var es, dws, aws := listeners.elems, listeners.deleteWatchers, listeners.addWatchers;
      var _ := listeners.UnwatchAdd(n);
      ListenerInvUnwatch(es, dws, aws, known, counter, n, listeners.elems, listeners.deleteWatchers, listeners.addWatchers, known, counter);
    }

    /**
     * `run.cancel()` of `emit`: for a cached emit, its delivery watcher is
     * removed and the emit deleted from the cache (its guard reports that);
     * otherwise nothing happens and the result is false. Either way the
     * `emit` cancel note follows.
     */
    method CancelEmit(run: EmitRun<T, R>) returns (r: bool)
      requires Valid() && run.id.channel == id
      modifies listeners, cache, this`log
      ensures Valid()
      ensures r == (run.async && run.id.n in Ids(old(cache.elems)))
      ensures listeners.elems == old(listeners.elems)
      ensures listeners.addWatchers == if run.async then WithoutKey(old(listeners.addWatchers), run.id.n) else old(listeners.addWatchers)
      ensures cache.elems == if run.async then Without(old(cache.elems), run.id.n) else old(cache.elems)
      ensures log == old(log) + EmitCancelNotes(run, old(cache.elems))
    {
      r := false;
      if run.async {
        r := DropCached(run.id.n);
      }
      log := log + [Note(Some(run.id), EmitEvent, Cancel, run.ty)];
    }

    /** The cached part of `run.cancel()` of `emit`: the delivery watcher of emit `n` goes, then the emit leaves the cache. */
    method DropCached(n: nat) returns (removed: bool)
      requires Valid()
      modifies listeners, cache, this`log
      ensures Valid()
      ensures removed == (n in Ids(old(cache.elems)))
      ensures listeners.elems == old(listeners.elems)
      ensures listeners.addWatchers == WithoutKey(old(listeners.addWatchers), n)
      ensures cache.elems == Without(old(cache.elems), n)
      ensures log == old(log) + if removed then [Note(Some(ProcessId(id, n)), EmitEvent, Delete, Lookup(old(cache.elems), n).ty)] else []
    {
      UnwatchDelivery(n);
      removed := DeleteCached(n);
    }

    /** One type of `#off`: its listeners, then its cached emits, are deleted in insertion order. */
    method OffStep(ls: seq<Listener<T, C>>, cs: seq<Entry<T, P>>, types: seq<T>, i: nat,
                   lrem: seq<Listener<T, C>>, crem: seq<Entry<T, P>>, ghost log0: seq<Note<ProcessId, T>>)
      returns (lrem': seq<Listener<T, C>>, crem': seq<Entry<T, P>>)
      requires i < |types| && Valid()
      requires listeners.elems == WithoutTypes(ls, types[..i]) && cache.elems == WithoutTypes(cs, types[..i])
      requires lrem == OffRemoved(ls, types[..i]) && crem == OffRemoved(cs, types[..i])
      requires log == log0 + OffNotes(id, ls, cs, types[..i])
      modifies listeners, cache, this`log
      ensures Valid()
      ensures listeners.elems == WithoutTypes(ls, types[..i + 1]) && cache.elems == WithoutTypes(cs, types[..i + 1])
      ensures lrem' == OffRemoved(ls, types[..i + 1]) && crem' == OffRemoved(cs, types[..i + 1])
      ensures listeners.addWatchers == old(listeners.addWatchers)
      ensures log == log0 + OffNotes(id, ls, cs, types[..i + 1])
    {
      var a, b := OffType(types[i]);
      assert log == log0 + OffNotes(id, ls, cs, types[..i + 1]) by {
        OffSnoc(id, ls, cs, types, i);
        AppendAssoc(log0, OffNotes(id, ls, cs, types[..i]), DeleteNotes(id, a, OnEvent) + DeleteNotes(id, b, EmitEvent));
      }
      assert listeners.elems == WithoutTypes(ls, types[..i + 1]) && cache.elems == WithoutTypes(cs, types[..i + 1]) &&
             lrem + a == OffRemoved(ls, types[..i + 1]) && crem + b == OffRemoved(cs, types[..i + 1]) by {
        OffSnoc(id, ls, cs, types, i);
      }
      lrem', crem' := lrem + a, crem + b;
    }

    /** The deletions `#off` makes for one type `t`: its listeners, then its cached emits. */
    method OffType(t: T) returns (a: seq<Listener<T, C>>, b: seq<Entry<T, P>>)
      requires Valid()
      modifies listeners, cache, this`log
      ensures Valid()
      ensures a == OfType(old(listeners.elems), t) && b == OfType(old(cache.elems), t)
      ensures listeners.elems == WithoutType(old(listeners.elems), t) && cache.elems == WithoutType(old(cache.elems), t)
      ensures listeners.addWatchers == old(listeners.addWatchers)
      ensures log == old(log) + (DeleteNotes(id, a, OnEvent) + DeleteNotes(id, b, EmitEvent))
    {
      a := DeleteListenersOfType(t);
      CacheFresh(cache.elems, cache.deleteWatchers, counter);
      b := DeleteCachedOfType(t, counter + 1);
    }

    /** `#off(...types)`: the loop over the types. */
    method OffAll(types: seq<T>) returns (lrem: seq<Listener<T, C>>, crem: seq<Entry<T, P>>)
      requires Valid()
      modifies listeners, cache, this`log
      ensures Valid()
      ensures lrem == OffRemoved(old(listeners.elems), types) && crem == OffRemoved(old(cache.elems), types)
      ensures listeners.elems == WithoutTypes(old(listeners.elems), types) && cache.elems == WithoutTypes(old(cache.elems), types)
      ensures listeners.addWatchers == old(listeners.addWatchers)
      ensures log == old(log) + OffNotes(id, old(listeners.elems), old(cache.elems), types)
    {
      var ls, cs := listeners.elems, cache.elems;
      ghost var log0 := log;
      lrem, crem := [], [];
      var i := 0;
      while i < |types|
        invariant i <= |types| && Valid()
        invariant listeners.elems == WithoutTypes(ls, types[..i]) && cache.elems == WithoutTypes(cs, types[..i])
        invariant lrem == OffRemoved(ls, types[..i]) && crem == OffRemoved(cs, types[..i])
        invariant listeners.addWatchers == old(listeners.addWatchers)
        invariant log == log0 + OffNotes(id, ls, cs, types[..i])
      {
        lrem, crem := OffStep(ls, cs, types, i, lrem, crem, log0);
        i := i + 1;
      }
      assert types[..i] == types;
    }

    /**
     * What `off(...types)` leaves: throws without types; otherwise every
     * listener and cached emit of the types deleted, type by type, and their
     * ids returned; the add watchers, the items made, the queue, the watches
     * and the values as they were.
     */
    twostate predicate OffDone(types: seq<T>, new r: Result<Totals>)
      reads this, listeners, cache
    {
      && (r.Err? <==> types == [])
      && (r.Err? ==> r.message == "At least one event type is required")
      && (r.Ok? ==> r.value == Totals(Pids(id, OffRemoved(old(listeners.elems), types)), Pids(id, OffRemoved(old(cache.elems), types))))
      && listeners.elems == WithoutTypes(old(listeners.elems), types) && cache.elems == WithoutTypes(old(cache.elems), types)
      && listeners.addWatchers == old(listeners.addWatchers)
      && log == old(log) + OffNotes(id, old(listeners.elems), old(cache.elems), types) + OffRunNotes(types)
      && unchanged(this`counter, this`known, this`pending, this`watches, this`results)
    }

    /**
     * `off(...types)`: throws without a type; otherwise deletes every
     * listener and cached emit of the given types, returns their ids in
     * removal order and reports one `off` run per type.
     */
    method Off(types: seq<T>) returns (r: Result<Totals>)
      requires Valid()
      modifies listeners, cache, this`log
      ensures Valid() && OffDone(types, r)
    {
      if types == [] {
        return Err("At least one event type is required");
      }
      var lrem, crem := OffAll(types);
      log := log + OffRunNotes(types);
      r := Ok(Totals(Pids(id, lrem), Pids(id, crem)));
    }

    /**
     * What `immedOnce(type, cb)` leaves: when an emit of the type is cached,
     * what `once` leaves, then the `immedOnce` notes; otherwise only its
     * register note. The cache, the watches and the values as they were.
     */
    twostate predicate ImmedOnceDone(ty: T, cb: C, new valid: bool, new run: Option<ListenRun<T, C>>)
      reads this, listeners, cache
    {
      && (valid <==> exists i :: 0 <= i < |cache.elems| && cache.elems[i].ty == ty)
      && (valid <==> run.Some?)
      && (!valid ==>
            counter == old(counter) && known == old(known) && listeners.elems == old(listeners.elems) &&
            listeners.addWatchers == old(listeners.addWatchers) && pending == old(pending) &&
            log == old(log) + [Note(None, ImmedOnceEvent, Register, ty)])
      && (valid ==>
            counter == old(counter) + 1 &&
            run.value == ListenRun(ProcessId(id, counter), Entry(counter, ty, Handler(cb, true))) && MadeHere(run.value) &&
            known == old(known)[counter := run.value.item] &&
            listeners.elems == (if OnOnce(ty) then WithoutType(old(listeners.elems), ty) else old(listeners.elems)) + [run.value.item] &&
            listeners.addWatchers == Kept(old(listeners.addWatchers), ty) &&
            pending == old(pending) + Deliveries(Fired(old(listeners.addWatchers), ty), run.value.item) &&
            log == old(log) + (if OnOnce(ty) then DeleteNotes(id, OfType(old(listeners.elems), ty), OnEvent) else []) +
                   RegisterNotes(id, run.value.item) + [Note(None, ImmedOnceEvent, Register, ty), Note(None, ImmedOnceEvent, Run, ty)])
      && unchanged(cache) && unchanged(this`watches, this`results)
    }

    /**
     * `immedOnce(type, cb)`: listens once only when an emit of the type is
     * cached; reports its registration, and its run when it listened.
     */
    method ImmedOnce(ty: T, cb: C) returns (valid: bool, run: Option<ListenRun<T, C>>)
      requires Valid()
      modifies listeners, this`counter, this`known, this`pending, this`log
      ensures Valid() && ImmedOnceDone(ty, cb, valid, run)
    {
      OfTypeEmpty(cache.elems, ty);
      valid := OfType(cache.elems, ty) != [];
      if valid {
        var r := Listen(ty, cb, true);
        run := Some(r);
        log := log + [Note(None, ImmedOnceEvent, Register, ty), Note(None, ImmedOnceEvent, Run, ty)];
      } else {
        run := None;
        log := log + [Note(None, ImmedOnceEvent, Register, ty)];
      }
    }

    /**
     * `run.cancel()` of an emit that was just cached: it is the last cached
     * emit and its delivery watcher the last add watcher, so both go and the
     * sets are as they were before the emit.
     */
    method CancelCached(run: EmitRun<T, R>, ghost params: P, ghost kept: seq<Entry<T, P>>, ghost aws: seq<Watcher<T, Pending<P>>>)
      requires Valid() && run.id.channel == id && run.async
      requires cache.elems == kept + [Entry(run.id.n, run.ty, params)]
      requires listeners.addWatchers == aws + [Watcher(run.id.n, Some(run.ty), true, Pending(run.id.n, params))]
      requires run.id.n !in Keys(aws)
      modifies listeners, cache, this`log
      ensures Valid()
      ensures cache.elems == kept && listeners.addWatchers == aws && listeners.elems == old(listeners.elems)
      ensures log == old(log) + [Note(Some(run.id), EmitEvent, Delete, run.ty), Note(Some(run.id), EmitEvent, Cancel, run.ty)]
    {
      var e := Entry(run.id.n, run.ty, params);
      LastFresh(kept, e);
      WithoutFreshSnoc(kept, e);
      WithoutKeyFreshSnoc(aws, Watcher(run.id.n, Some(run.ty), true, Pending(run.id.n, params)));
      var _ := CancelEmit(run);
    }

    /**
     * `#immedEmit(...args)`: an `emit` whose caching, if any, is cancelled at
     * once, so that only the synchronous replies remain.
     */
    method EmitNow(ty: T, params: P) returns (values: seq<R>)
      requires Valid()
      modifies listeners, cache, this`counter, this`log, this`results
      ensures Valid()
      ensures counter == old(counter) + 1
      ensures values == Replies(call, OfType(old(listeners.elems), ty), params)
      ensures results == old(results)[counter := values]
      ensures listeners.elems == DropOnce(old(listeners.elems), ty)
      ensures listeners.addWatchers == old(listeners.addWatchers)
      ensures var async := OfType(old(listeners.elems), ty) == [] && EmitCache(ty);
              cache.elems == if async && EmitOnce(ty) then WithoutType(old(cache.elems), ty) else old(cache.elems)
      ensures var async, pid := OfType(old(listeners.elems), ty) == [] && EmitCache(ty), Some(ProcessId(id, counter));
              log == old(log) + CallNotes(id, OfType(old(listeners.elems), ty)) +
                     (if async && EmitOnce(ty) then DeleteNotes(id, OfType(old(cache.elems), ty), EmitEvent) else []) +
                     [Note(pid, EmitEvent, Register, ty)] +
                     (if async then [Note(pid, EmitEvent, Delete, ty), Note(pid, EmitEvent, Cancel, ty)] else [Note(pid, EmitEvent, Run, ty)])
    {
      ghost var aws0, cs0 := listeners.addWatchers, cache.elems;
      DeliveryKeyFresh(listeners.elems, listeners.deleteWatchers, aws0, known, counter);
      var run := Emit(ty, params);
      if run.async {
        CancelCached(run, params, if EmitOnce(ty) then WithoutType(cs0, ty) else cs0, aws0);
      }
      values := run.values;
    }

    /**
     * What `immedEmit(type, ...params)` leaves: the listeners of the type
     * called (the `once` ones gone) and their replies returned; the emit is
     * never left cached, though under `isEmitOnce` it still clears the
     * cached emits of its type; the add watchers, the items made, the queue
     * and the watches as they were.
     */
    twostate predicate ImmedEmitDone(ty: T, params: P, new values: seq<R>)
      reads this, listeners, cache
    {
      && counter == old(counter) + 1
      && values == Replies(call, OfType(old(listeners.elems), ty), params)
      && results == old(results)[counter := values]
      && listeners.elems == DropOnce(old(listeners.elems), ty)
      && listeners.addWatchers == old(listeners.addWatchers)
      && (var async := OfType(old(listeners.elems), ty) == [] && EmitCache(ty);
          cache.elems == if async && EmitOnce(ty) then WithoutType(old(cache.elems), ty) else old(cache.elems))
      && (var async, pid := OfType(old(listeners.elems), ty) == [] && EmitCache(ty), Some(ProcessId(id, counter));
          log == old(log) + [Note(None, ImmedEmitEvent, Register, ty)] + CallNotes(id, OfType(old(listeners.elems), ty)) +
                 (if async && EmitOnce(ty) then DeleteNotes(id, OfType(old(cache.elems), ty), EmitEvent) else []) +
                 [Note(pid, EmitEvent, Register, ty)] +
                 (if async then [Note(pid, EmitEvent, Delete, ty), Note(pid, EmitEvent, Cancel, ty)] else [Note(pid, EmitEvent, Run, ty)]) +
                 [Note(None, ImmedEmitEvent, Run, ty)])
      && unchanged(this`known, this`pending, this`watches)
    }

    /** `immedEmit(type, ...params)`: `#immedEmit` between its register and run notes. */
    method ImmedEmit(ty: T, params: P) returns (values: seq<R>)
      requires Valid()
      modifies listeners, cache, this`counter, this`log, this`results
      ensures Valid() && ImmedEmitDone(ty, params, values)
    {
      log := log + [Note(None, ImmedEmitEvent, Register, ty)];
      values := EmitNow(ty, params);
      log := log + [Note(None, ImmedEmitEvent, Run, ty)];
    }

    /**
     * `watch(cb)` (`filter` None) and `watch(type, cb)`: a fresh id for a
     * watch callback that receives the notifications logged from now on.
     */
    method Watch(filter: Option<T>) returns (key: nat)
      requires Valid()
      modifies this`counter, this`watches
      ensures Valid()
      ensures counter == old(counter) + 1 && key == counter
      ensures watches == old(watches) + [WatchRec(key, filter, |log|, None)]
    {
      InvGrow(listeners.elems, listeners.deleteWatchers, listeners.addWatchers, known, cache.elems, cache.deleteWatchers, watches, counter, counter + 1);
      key := NextId();
      watches := watches + [WatchRec(key, filter, |log|, None)];
    }

    /** The `cancel` of `watch`: `#watchCbs.delete(cb)`; the callback receives nothing more. */
    method Unwatch(key: nat) returns (removed: bool)
      requires Valid()
      modifies this`watches
      ensures Valid()
      ensures removed == (key in LiveKeys(old(watches)))
      ensures watches == CloseWatch(old(watches), key, |log|)
    {
      removed := key in LiveKeys(watches);
      watches := CloseWatch(watches, key, |log|);
    }

    /** `hasId(id)`: the id belongs to a stored listener, a cached emit or a live watch callback. */
    method HasId(pid: ProcessId) returns (b: bool)
      ensures b <==> pid.channel == id && (pid.n in Ids(listeners.elems) || pid.n in Ids(cache.elems) || pid.n in LiveKeys(watches))
    {
      var ls, cs := listeners.elems, cache.elems;
      var i := 0;
      while i < |ls|
        invariant i <= |ls|
        invariant forall k :: 0 <= k < i ==> ProcessId(id, ls[k].id) != pid
      {
        if ProcessId(id, ls[i].id) == pid {
          assert Ids(ls)[i] == ls[i].id;
          return true;
        }
        i := i + 1;
      }
      i := 0;
      while i < |cs|
        invariant i <= |cs|
        invariant forall k :: 0 <= k < i ==> ProcessId(id, cs[k].id) != pid
      {
        if ProcessId(id, cs[i].id) == pid {
          assert Ids(cs)[i] == cs[i].id;
          return true;
        }
        i := i + 1;
      }
      i := 0;
      while i < |watches|
        invariant i <= |watches|
        invariant forall k :: 0 <= k < i && watches[k].until.None? ==> ProcessId(id, watches[k].key) != pid
      {
        if watches[i].until.None? && ProcessId(id, watches[i].key) == pid {
          return true;
        }
        i := i + 1;
      }
      b := false;
    }

    /** `hasType(type)`: the ids of the stored listeners and cached emits of the type. */
    function HasType(ty: T): (r: TypeIds)
      reads listeners`elems, cache`elems
      ensures r.has <==> (exists i :: 0 <= i < |listeners.elems| && listeners.elems[i].ty == ty) ||
                         (exists i :: 0 <= i < |cache.elems| && cache.elems[i].ty == ty)
    {
      OfTypeEmpty(listeners.elems, ty);
      OfTypeEmpty(cache.elems, ty);
      TypeIdsOf(id, listeners.elems, cache.elems, ty)
    }

    /**
     * The first queued microtask of a cached emit: the listener's stored
     * callback is called and its reply appended to the emit's values, the
     * emit's run is reported, and the emit is deleted from the cache.
     */
    method Deliver()
      requires Valid() && pending != []
      modifies listeners, cache, this`log, this`pending, this`results
      ensures Valid() && pending == old(pending[1..])
      ensures var d := old(pending[0]);
              && listeners.elems == (if d.listener.val.once then Without(old(listeners.elems), d.listener.id) else old(listeners.elems))
              && cache.elems == Without(old(cache.elems), d.emit)
              && cache.deleteWatchers ==
                 (if d.emit in Ids(old(cache.elems)) then WithoutKey(old(cache.deleteWatchers), d.emit) else old(cache.deleteWatchers))
              && results == old(results)[d.emit := ValuesOf(old(results), d.emit) + [call(d.listener.val.cb, d.params)]]
              && log == old(log) + DeliveryNotes(id, old(listeners.elems), old(cache.elems), d)
      ensures listeners.addWatchers == old(listeners.addWatchers)
    {
      var d := pending[0];
      ghost var ls0, es0, log0 := listeners.elems, cache.elems, log;
      var run := [Note(Some(ProcessId(id, d.emit)), EmitEvent, Run, d.ty)];
      pending := pending[1..];
      var r := Invoke(d.listener, d.params);
      ghost var called := log[|log0|..];
      assert log == log0 + called;
      results := results[d.emit := ValuesOf(results, d.emit) + [r]];
      log := log + run;
      var _ := DeleteCached(d.emit);
      ghost var deleted := log[|log0 + called + run|..];
      assert log == log0 + called + run + deleted;
      assert DeliveryNotes(id, ls0, es0, d) == called + run + deleted;
      AppendAssoc(log0, called, run);
      AppendAssoc(log0, called + run, deleted);
    }

    /** Runs the queued microtasks, in queue order, until none is left. */
    method Flush()
      requires Valid()
      modifies listeners, cache, this`log, this`pending, this`results
      ensures Valid() && pending == []
      ensures var ds := old(pending);
              && listeners.elems == OnceDropped(old(listeners.elems), ds)
              && cache.elems == Uncached(old(cache.elems), ds)
              && cache.deleteWatchers == Unguarded(old(cache.elems), old(cache.deleteWatchers), ds)
              && results == Replied(call, old(results), ds)
              && log == old(log) + DeliveriesNotes(id, old(listeners.elems), old(cache.elems), ds)
      ensures listeners.addWatchers == old(listeners.addWatchers)
    {
      ghost var s0 := Drain(listeners.elems, cache.elems, cache.deleteWatchers, results, log);
      ghost var queue := pending;
      ghost var done: seq<Delivery<T, C, P>> := [];
      while pending != []
        invariant Valid() && queue == done + pending
        invariant DrainedFrom(s0, done)
        invariant listeners.addWatchers == old(listeners.addWatchers)
        decreases |pending|
      {
        done := FlushStep(s0, done);
      }
      assert done == queue;
    }

    /** The state that `Flush` changes is that of `s0` after the microtasks `done`. */
    ghost predicate DrainedFrom(s0: Drain<T, C, P, R>, done: seq<Delivery<T, C, P>>)
      reads listeners`elems, cache`elems, cache`deleteWatchers, this`results, this`log
    {
      && listeners.elems == OnceDropped(s0.listeners, done)
      && cache.elems == Uncached(s0.cache, done)
      && cache.deleteWatchers == Unguarded(s0.cache, s0.guards, done)
      && results == Replied(call, s0.results, done)
      && log == s0.log + DeliveriesNotes(id, s0.listeners, s0.cache, done)
    }

    /** One turn of `Flush`: the first queued microtask, after those in `done`. */
    method FlushStep(ghost s0: Drain<T, C, P, R>, ghost done: seq<Delivery<T, C, P>>) returns (ghost done': seq<Delivery<T, C, P>>)
      requires Valid() && pending != [] && DrainedFrom(s0, done)
      modifies listeners, cache, this`log, this`pending, this`results
      ensures Valid() && DrainedFrom(s0, done')
      ensures done' == done + [old(pending[0])] && done + old(pending) == done' + pending
      ensures listeners.addWatchers == old(listeners.addWatchers)
    {
      ghost var d := pending[0];
      assert pending == [d] + pending[1..];
      ghost var ls, es := listeners.elems, cache.elems;
      Deliver();
      DeliveredSnoc(id, s0.listeners, s0.cache, s0.guards, done, d);
      RepliedSnoc(call, s0.results, done, d);
      AppendAssoc(s0.log, DeliveriesNotes(id, s0.listeners, s0.cache, done), DeliveryNotes(id, ls, es, d));
      done' := done + [d];
      AppendAssoc(done, [d], pending);
    }
  }
}
