/**
 * `asyncEventChannelScope` of src/index.js: a view of one channel whose
 * `on`, `emit` and `once` record the cancel function of the run they
 * return; `cancel()` calls every recorded cancel function, in the order
 * they were recorded, and then forgets them all.
 */
module LegacyScope {
  import opened WatchedSets
  import opened Registry
  import opened LegacyState
  import opened LegacyChannel
  import opened ChannelState

  /** A `run.cancel` the scope recorded. */
  datatype Cancel<T, C, R> = CancelListen(listen: ListenRun<T, C>) | CancelEmit(emit: EmitRun<T, R>)

  /**
   * What a recorded cancel can change on the channel, as a value: the
   * listeners and their guards, the cached emits and their guards, the
   * delivery watchers of cached emits, and the notes the guards report.
   */
  datatype LHeld<T, C, P> = LHeld(ls: seq<Listener<T, C>>, lguards: seq<Watcher<T, T>>,
                                  cs: seq<Entry<T, P>>, cguards: seq<Watcher<T, T>>,
                                  aws: seq<Watcher<T, Pending<P>>>, log: seq<Note<nat, T>>)

  /**
   * The effect of calling `c`: a listener's cancel deletes it from the
   * listener set; a cached emit's cancel removes its delivery watcher and
   * deletes it from the cache; an emit that was not cached changes nothing.
   */
  function LUndone<T(==), C, P, R>(h: LHeld<T, C, P>, c: Cancel<T, C, R>): (r: LHeld<T, C, P>)
    ensures c.CancelListen? ==> r.cs == h.cs && r.cguards == h.cguards && r.aws == h.aws
    ensures c.CancelListen? ==> c.listen.item.id !in Ids(r.ls)
    ensures c.CancelEmit? && c.emit.async ==> r.ls == h.ls && r.lguards == h.lguards && c.emit.id !in Ids(r.cs)
    ensures c.CancelEmit? && !c.emit.async ==> r == h
  {
    match c
    case CancelListen(run) =>
      var s := LDel(Swept(h.ls, h.lguards, []), run.item.id, OnEvent);
      LDelGone(Swept(h.ls, h.lguards, []), run.item.id, run.item.id, OnEvent);
      h.(ls := s.elems, lguards := s.guards, log := h.log + s.notes)
    case CancelEmit(run) =>
      if !run.async then h
      else
        var s := LDel(Swept(h.cs, h.cguards, []), run.id, EmitEvent);
        LDelGone(Swept(h.cs, h.cguards, []), run.id, run.id, EmitEvent);
        h.(cs := s.elems, cguards := s.guards, aws := WithoutKey(h.aws, run.id), log := h.log + s.notes)
  }

  /** The cancels `cs` called in order. */
  function LUndoneAll<T(==), C, P, R>(h: LHeld<T, C, P>, cs: seq<Cancel<T, C, R>>): LHeld<T, C, P>
    decreases |cs|
  {
    if cs == [] then h else LUndone(LUndoneAll(h, cs[..|cs| - 1]), cs[|cs| - 1])
  }

  class LegacyChannelScope<T(==), C, P, R> {
    const ctx: LegacyEventChannel<T, C, P, R>
    /**
     * `cancels`: a `Set` of closures; every run brings a new closure, so
     * the set is the sequence of recorded cancels in insertion order.
     */
    var cancels: seq<Cancel<T, C, R>>

    ghost predicate Valid()
      reads ctx`counter, ctx.listeners`elems, ctx.listeners`deleteWatchers, ctx.listeners`addWatchers
      reads ctx.cache`elems, ctx.cache`deleteWatchers, ctx.cache`addWatchers
    {
      ctx.Valid()
    }

    /** The effect of calling `c` is in place: its listener or its cached emit is no longer stored. */
    ghost predicate Cancelled(c: Cancel<T, C, R>)
      reads ctx.listeners`elems, ctx.cache`elems
    {
      match c
      case CancelListen(run) => run.item.id !in Ids(ctx.listeners.elems)
      case CancelEmit(run) => run.async ==> run.id !in Ids(ctx.cache.elems)
    }

    /** The part of the channel a cancel changes, as a value. */
    ghost function Held(): LHeld<T, C, P>
      reads ctx.listeners`elems, ctx.listeners`deleteWatchers, ctx.listeners`addWatchers
      reads ctx.cache`elems, ctx.cache`deleteWatchers, ctx`log
    {
      LHeld(ctx.listeners.elems, ctx.listeners.deleteWatchers, ctx.cache.elems, ctx.cache.deleteWatchers,
            ctx.listeners.addWatchers, ctx.log)
    }

    constructor(ctx: LegacyEventChannel<T, C, P, R>)
      requires ctx.Valid()
      ensures Valid() && this.ctx == ctx && cancels == []
    {
      this.ctx := ctx;
      cancels := [];
    }

    /** `on(type, cb)` (`once` false) or `once(type, cb)` through the view: the run's cancel is recorded. */
    method Listen(ty: T, cb: C, once: bool) returns (run: ListenRun<T, C>)
      requires Valid()
      modifies this`cancels, ctx.listeners, ctx.cache, ctx`counter, ctx`pending, ctx`log
      ensures Valid() && ctx.ListenDone(ty, cb, once, run)
      ensures cancels == old(cancels) + [CancelListen(run)]
    {
      run := ctx.Listen(ty, cb, once);
      cancels := cancels + [CancelListen(run)];
    }

    /** `emit(type, ...params)` through the view: the run's cancel is recorded. */
    method Emit(ty: T, params: P) returns (run: EmitRun<T, R>)
      requires Valid()
      modifies this`cancels, ctx.listeners, ctx.cache, ctx`counter, ctx`log, ctx`results
      ensures Valid() && ctx.EmitDone(ty, params, run)
      ensures cancels == old(cancels) + [CancelEmit(run)]
    {
      run := ctx.Emit(ty, params);
      cancels := cancels + [CancelEmit(run)];
    }

    /** One recorded cancel function called; what the calls before it (`done`) removed stays removed. */
    method CancelOne(c: Cancel<T, C, R>, ghost done: seq<Cancel<T, C, R>>)
      requires Valid()
      requires forall k :: 0 <= k < |done| ==> Cancelled(done[k])
      modifies ctx.listeners`elems, ctx.listeners`deleteWatchers, ctx.listeners`addWatchers
      modifies ctx.cache`elems, ctx.cache`deleteWatchers, ctx`log
      ensures Valid() && Cancelled(c) && Held() == LUndone(old(Held()), c)
      ensures forall k :: 0 <= k < |done| ==> Cancelled(done[k])
    {
      ghost var s0, c0 := ctx.ListenerSets(), ctx.CacheSets();
      match c {
        case CancelListen(run) =>
          var _ := ctx.CancelListen(run);
          forall k | 0 <= k < |done| ensures Cancelled(done[k]) {
            match done[k] {
              case CancelListen(r) => LDelGone(s0, run.item.id, r.item.id, OnEvent);
              case CancelEmit(r) =>
            }
          }
          LDelGone(s0, run.item.id, run.item.id, OnEvent);
        case CancelEmit(run) =>
          var _ := ctx.CancelEmit(run);
          forall k | 0 <= k < |done| ensures Cancelled(done[k]) {
            match done[k] {
              case CancelListen(r) =>
              case CancelEmit(r) => if run.async { LDelGone(c0, run.id, r.id, EmitEvent); }
            }
          }
          if run.async { LDelGone(c0, run.id, run.id, EmitEvent); }
      }
    }

    /** The loop of `cancel()`: every recorded cancel function called in order. */
    method CancelAll()
      requires Valid()
      modifies ctx.listeners`elems, ctx.listeners`deleteWatchers, ctx.listeners`addWatchers
      modifies ctx.cache`elems, ctx.cache`deleteWatchers, ctx`log
      ensures Valid()
      ensures forall k :: 0 <= k < |cancels| ==> Cancelled(cancels[k])
      ensures Held() == LUndoneAll(old(Held()), cancels)
    {
      ghost var h := Held();
      var cs, i := cancels, 0;
      assert cs[..0] == [];
      while i < |cs|
        invariant i <= |cs| && Valid()
        invariant forall k :: 0 <= k < i ==> Cancelled(cs[k])
        invariant Held() == LUndoneAll(h, cs[..i])
      {
        CancelOne(cs[i], cs[..i]);
        forall k | 0 <= k < i + 1 ensures Cancelled(cs[k]) {
          if k < i { assert cs[..i][k] == cs[k]; }
        }
        assert cs[..i + 1][..i] == cs[..i];
        i := i + 1;
      }
      assert cs[..i] == cs;
    }

    /**
     * `cancel()`: every recorded cancel function is called in order and the
     * record is emptied; afterwards no recorded listener and no recorded
     * cached emit is still stored, and the channel is as `LUndoneAll` says.
     */
    method Cancel()
      requires Valid()
      modifies this`cancels, ctx.listeners`elems, ctx.listeners`deleteWatchers, ctx.listeners`addWatchers
      modifies ctx.cache`elems, ctx.cache`deleteWatchers, ctx`log
      ensures Valid() && cancels == []
      ensures forall k :: 0 <= k < |old(cancels)| ==> Cancelled(old(cancels)[k])
      ensures Held() == LUndoneAll(old(Held()), old(cancels))
    {
      CancelAll();
      cancels := [];
    }
  }
}
