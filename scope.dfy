/**
 * `asyncEventChannelScope(ctx, {include, exclude})` of src/index.ts: a
 * view of a channel `ctx` that, when given an include or an exclude list,
 * sends the operations on the types the list selects to a second channel
 * `_ctx` made with the options of `ctx`, records the cancel function of
 * every run it hands out, and cancels them all with `cancel()`.
 */
module Scope {
  import opened ScopeRules
  import opened Wrappers
  import opened WatchedSets
  import opened Registry
  import opened ChannelState
  import opened Channel

  /** What `off` and the cancels change in one channel: its listeners, cached emits, log, add watchers and watches, as values. */
  datatype Held<T, C, P> = Held(ls: seq<Listener<T, C>>, cs: seq<Entry<T, P>>, log: seq<Note<ProcessId, T>>,
                                aws: seq<Watcher<T, Pending<P>>>, watches: seq<WatchRec<T>>)

  ghost function HeldBy<T, C, P, R>(ch: AsyncEventChannel<T, C, P, R>): Held<T, C, P>
    reads ch, ch.listeners, ch.cache
  {
    Held(ch.listeners.elems, ch.cache.elems, ch.log, ch.listeners.addWatchers, ch.watches)
  }

  /**
   * What calling the recorded cancel `c` does to the channel of side `s`,
   * which holds `h`: a listen run's cancel deletes its listener and reports
   * it; an emit run's cancel deletes the cached emit and its delivery
   * watcher and reports it; a watch's cancel closes its callback. A cancel
   * made on the other side leaves the channel as it is.
   */
  function Undone<T, C, P, R>(s: Side, h: Held<T, C, P>, c: CancelFn<T, C, R>): Held<T, C, P>
  {
    match c
    case ListenCancel(side, run) =>
      if side != s then h
      else h.(ls := Without(h.ls, run.item.id), log := h.log + ListenCancelNotes(run, run.item.id in Ids(h.ls)))
    case EmitCancel(side, run) =>
      if side != s then h
      else h.(cs := if run.async then Without(h.cs, run.id.n) else h.cs,
              aws := if run.async then WithoutKey(h.aws, run.id.n) else h.aws,
              log := h.log + EmitCancelNotes(run, h.cs))
    case WatchCancel(side, key) =>
      if side != s then h else h.(watches := CloseWatch(h.watches, key, |h.log|))
    case WatchAllCancel(key, subKey) =>
      if s == Main then h.(watches := CloseWatch(h.watches, key, |h.log|))
      else if subKey.Some? then h.(watches := CloseWatch(h.watches, subKey.value, |h.log|))
      else h
  }

  /** The recorded cancels `rs` called in order on the channel of side `s`, which holds `h`. */
  function UndoneAll<T, C, P, R>(s: Side, h: Held<T, C, P>, rs: seq<Recorded<T, C, R>>): Held<T, C, P>
    decreases |rs|
  {
    if rs == [] then h else Undone(s, UndoneAll(s, h, rs[..|rs| - 1]), rs[|rs| - 1].cancel)
  }

  /**
   * A channel of id `ch` that held `h` and now holds `now`, after `off(t)`
   * on it for each type `t` of `done` in turn: the items of those types
   * gone, each call reported, the add watchers and the watches kept.
   */
  ghost predicate OffLeft<T, C, P>(now: Held<T, C, P>, ch: nat, h: Held<T, C, P>, done: seq<T>)
  {
    now.ls == WithoutTypes(h.ls, done) && now.cs == WithoutTypes(h.cs, done) &&
    now.log == h.log + OffEachNotes(ch, h.ls, h.cs, done) && now.aws == h.aws && now.watches == h.watches
  }

  class ChannelScope<T(==), C, P, R> {
    /** `ctx` */
    const main: AsyncEventChannel<T, C, P, R>
    /** `_ctx`: made with the options of `ctx` when a list is given, `null` otherwise. */
    const sub: AsyncEventChannel?<T, C, P, R>
    const mode: Mode<T>
    /** `runs`, in insertion order. */
    var runs: seq<Recorded<T, C, R>>
    ghost const Repr: set<object>

    /** `_ctx` as a set: empty when there is none. */
    function Subs(): set<AsyncEventChannel<T, C, P, R>>
    {
      if sub != null then {sub} else {}
    }

    /** The sets of `_ctx`: empty when there is none. */
    function SubSets(): set<object>
    {
      if sub != null then {sub.listeners as object, sub.cache} else {}
    }

    function Ctx(s: Side): AsyncEventChannel<T, C, P, R>
      requires s == Main || sub != null
    {
      if s == Main then main else sub
    }

    /** Both channels valid and sharing nothing; `_ctx` is there exactly when a list was given. */
    ghost predicate Chan()
      reads Repr
    {
      this !in Repr && main in Repr && main.listeners in Repr && main.cache in Repr &&
      (sub != null ==> sub in Repr && sub.listeners in Repr && sub.cache in Repr) &&
      main.Valid() && (sub == null <==> mode.Plain?) &&
      (sub != null ==> sub.Valid() && Apart(main, sub))
    }

    /** Every recorded cancel can be called on the channel that made its run. */
    ghost predicate RunsValid()
      reads this`runs, main`known, Subs()`known
    {
      RunsFit(runs, main.id, main.known, sub != null, if sub != null then sub.id else 0, if sub != null then sub.known else map[])
    }

    ghost predicate Valid()
      reads this`runs, Repr, main`known, Subs()`known
    {
      Chan() && RunsValid()
    }

    /** `c` can be called on the channels of this scope. */
    ghost predicate Callable(c: CancelFn<T, C, R>)
      reads main`known, Subs()`known
    {
      CancelOk(c, Main, main.id, main.known) &&
      (sub != null ==> CancelOk(c, Sub, sub.id, sub.known)) && (sub == null ==> !SubUsed(c))
    }

    constructor(main: AsyncEventChannel<T, C, P, R>, sub: AsyncEventChannel?<T, C, P, R>, mode: Mode<T>)
      requires main.Valid() && (sub == null <==> mode.Plain?)
      requires sub != null ==> sub.Valid() && Apart(main, sub)
      ensures Valid() && this.main == main && this.sub == sub && this.mode == mode && runs == []
    {
      this.main := main;
      this.sub := sub;
      this.mode := mode;
      runs := [];
      Repr := {main as object, main.listeners, main.cache} + if sub != null then {sub as object, sub.listeners, sub.cache} else {};
    }

    /**
     * `asyncEventChannelScope(ctx, options)`: throws when both lists are
     * given; with either list, `_ctx` is a new channel with the options of
     * `ctx`, whose id `subId` the static channel counter makes, so it is not
     * the id of `ctx`.
     */
    static method Create(main: AsyncEventChannel<T, C, P, R>, includeList: Option<seq<Rule<T>>>, excludeList: Option<seq<Rule<T>>>,
                         subId: nat)
      returns (r: Result<ChannelScope<T, C, P, R>>)
      requires main.Valid() && subId != main.id
      ensures r.Err? <==> includeList.Some? && excludeList.Some?
      ensures r.Err? ==> r.message == BothLists
      ensures r.Ok? ==> fresh(r.value) && r.value.Valid() && r.value.main == main && r.value.runs == [] &&
                        r.value.mode == ModeOf(includeList, excludeList).value
      ensures r.Ok? && r.value.sub != null ==>
                fresh(r.value.sub) && r.value.sub.id == subId && r.value.sub.call == main.call &&
                r.value.sub.options == main.options && r.value.sub.optionsMap == main.optionsMap &&
                r.value.sub.listeners.elems == [] && r.value.sub.cache.elems == [] && r.value.sub.watches == []
    {
      var m := ModeOf(includeList, excludeList);
      if m.Err? {
        return Err(m.message);
      }
      var sub: AsyncEventChannel?<T, C, P, R> := null;
      if !m.value.Plain? {
        sub := new AsyncEventChannel(subId, main.call, main.options, main.optionsMap);
      }
      var scope := new ChannelScope(main, sub, m.value);
      r := Ok(scope);
    }

    /** `recordRun(run)`: `runs.set(run.id, run.cancel)`. */
    method RecordRun(rid: ProcessId, c: CancelFn<T, C, R>)
      requires RunsValid() && Callable(c)
      modifies this`runs
      ensures RunsValid() && runs == SetRun(old(runs), rid, c)
    {
      Record(runs, rid, c, main.id, main.known, sub != null,
             if sub != null then sub.id else 0, if sub != null then sub.known else map[]);
      runs := SetRun(runs, rid, c);
    }

    /** The channel that side `s` does not name is untouched. */
    twostate predicate OtherKept(s: Side)
      reads main, main.listeners, main.cache, Subs(), SubSets()
    {
      (s == Sub ==> unchanged(main, main.listeners, main.cache)) &&
      (s == Main && sub != null ==> unchanged(sub, sub.listeners, sub.cache))
    }

    /** `on` or `once` on `ctx`; the run it returns can be cancelled through the scope. */
    method ListenMain(ty: T, cb: C, once: bool) returns (run: ListenRun<T, C>)
      requires Valid()
      modifies Repr
      ensures Valid() && Callable(ListenCancel(Main, run))
      ensures main.ListenDone(ty, cb, once, run) && OtherKept(Main)
    {
      main.KnownBelow();
      ghost var known0 := main.known;
      run := main.Listen(ty, cb, once);
      RunsOkGrow(runs, Main, main.id, known0, main.counter, run.item);
      ChanKept(Main);
    }

    /** `on` or `once` on `_ctx`; the run it returns can be cancelled through the scope. */
    method ListenSub(ty: T, cb: C, once: bool) returns (run: ListenRun<T, C>)
      requires Valid() && sub != null
      modifies Repr
      ensures Valid() && Callable(ListenCancel(Sub, run))
      ensures sub.ListenDone(ty, cb, once, run) && OtherKept(Sub)
    {
      sub.KnownBelow();
      ghost var known0 := sub.known;
      run := sub.Listen(ty, cb, once);
      RunsOkGrow(runs, Sub, sub.id, known0, sub.counter, run.item);
      ChanKept(Sub);
    }

    /** `on` or `once` on the channel of side `s`. */
    method ListenOn(s: Side, ty: T, cb: C, once: bool) returns (run: ListenRun<T, C>)
      requires Valid() && (s == Main || sub != null)
      modifies Repr
      ensures Valid() && Callable(ListenCancel(s, run))
      ensures Ctx(s).ListenDone(ty, cb, once, run) && OtherKept(s)
    {
      if s == Main {
        run := ListenMain(ty, cb, once);
      } else {
        run := ListenSub(ty, cb, once);
      }
    }

    /** `on` or `once` on the channel of side `s`, its cancel recorded under its id. */
    method ListenRecorded(s: Side, ty: T, cb: C, once: bool) returns (run: ListenRun<T, C>)
      requires Valid() && (s == Main || sub != null)
      modifies Repr, this`runs
      ensures Valid() && Ctx(s).ListenDone(ty, cb, once, run) && OtherKept(s)
      ensures runs == SetRun(old(runs), run.id, ListenCancel(s, run))
    {
      run := ListenOn(s, ty, cb, once);
      label listened:
      RecordRun(run.id, ListenCancel(s, run));
      assert unchanged@listened(Repr);
    }

    /**
     * `on(type, cb)` (`once` false) and `once(type, cb)` through the view:
     * checked for `'on'`, made on the channel the type goes to, and its
     * cancel recorded under its id.
     */
    method Listen(ty: T, cb: C, once: bool) returns (r: Result<ListenRun<T, C>>)
      requires Valid()
      modifies Repr, this`runs
      ensures Valid()
      ensures r.Err? <==> Route(mode, ty, OnOp).Err?
      ensures r.Err? ==> r.message == NotSelected && runs == old(runs) && unchanged(Repr)
      ensures r.Ok? ==>
                var s := Route(mode, ty, OnOp).value;
                Ctx(s).ListenDone(ty, cb, once, r.value) && OtherKept(s) &&
                runs == SetRun(old(runs), r.value.id, ListenCancel(s, r.value))
    {
      var side := Route(mode, ty, OnOp);
      if side.Err? {
        return Err(side.message);
      }
      var run := ListenRecorded(side.value, ty, cb, once);
      r := Ok(run);
    }

    /** After a call on the channel of side `s` that keeps it valid, keeps its items and leaves the other channel alone, the scope is valid. */
    twostate lemma KeptValid(s: Side)
      requires old(Valid()) && (s == Main || sub != null) && Ctx(s).Valid() && unchanged(Ctx(s)`known) && OtherKept(s)
      requires unchanged(this`runs)
      ensures Valid()
    {
    }

    /** After a call on the channel of side `s` that keeps it valid and leaves the other channel alone, both channels are still fit. */
    twostate lemma ChanKept(s: Side)
      requires old(Chan()) && (s == Main || sub != null) && Ctx(s).Valid() && OtherKept(s)
      ensures Chan()
    {
    }

    /** `emit` on `ctx`; the run it returns can be cancelled through the scope. */
    method EmitMain(ty: T, params: P) returns (run: EmitRun<T, R>)
      requires Valid()
      modifies Repr
      ensures Valid() && Callable(EmitCancel(Main, run)) && main.EmitDone(ty, params, run) && OtherKept(Main)
    {
      run := main.Emit(ty, params);
      KeptValid(Main);
    }

    /** `emit` on `_ctx`; the run it returns can be cancelled through the scope. */
    method EmitSub(ty: T, params: P) returns (run: EmitRun<T, R>)
      requires Valid() && sub != null
      modifies Repr
      ensures Valid() && Callable(EmitCancel(Sub, run)) && sub.EmitDone(ty, params, run) && OtherKept(Sub)
    {
      run := sub.Emit(ty, params);
      KeptValid(Sub);
    }

    /** `emit` on the channel of side `s`. */
    method EmitOn(s: Side, ty: T, params: P) returns (run: EmitRun<T, R>)
      requires Valid() && (s == Main || sub != null)
      modifies Repr
      ensures Valid() && Callable(EmitCancel(s, run)) && Ctx(s).EmitDone(ty, params, run) && OtherKept(s)
    {
      if s == Main {
        run := EmitMain(ty, params);
      } else {
        run := EmitSub(ty, params);
      }
    }

    /** `emit` on the channel of side `s`, its cancel recorded under its id. */
    method EmitRecorded(s: Side, ty: T, params: P) returns (run: EmitRun<T, R>)
      requires Valid() && (s == Main || sub != null)
      modifies Repr, this`runs
      ensures Valid() && Ctx(s).EmitDone(ty, params, run) && OtherKept(s) && runs == SetRun(old(runs), run.id, EmitCancel(s, run))
    {
      run := EmitOn(s, ty, params);
      label emitted:
      RecordRun(run.id, EmitCancel(s, run));
      assert unchanged@emitted(Repr);
    }

    /**
     * `emit(type, ...params)` through the view: checked for `'emit'`, made
     * on the channel the type goes to, and its cancel recorded under its id.
     */
    method Emit(ty: T, params: P) returns (r: Result<EmitRun<T, R>>)
      requires Valid()
      modifies Repr, this`runs
      ensures Valid()
      ensures r.Err? <==> Route(mode, ty, EmitOp).Err?
      ensures r.Err? ==> r.message == NotSelected && runs == old(runs) && unchanged(Repr)
      ensures r.Ok? ==>
                var s := Route(mode, ty, EmitOp).value;
                Ctx(s).EmitDone(ty, params, r.value) && OtherKept(s) && runs == SetRun(old(runs), r.value.id, EmitCancel(s, r.value))
    {
      var side := Route(mode, ty, EmitOp);
      if side.Err? {
        return Err(side.message);
      }
      var run := EmitRecorded(side.value, ty, params);
      r := Ok(run);
    }

    /**
     * `watch(type, cb)` through the view: checked for `'watch'`, a watch of
     * the type on the channel the type goes to, its cancel recorded under
     * its id.
     */
    method Watch(ty: T) returns (r: Result<ProcessId>)
      requires Valid()
      modifies main`counter, main`watches, Subs()`counter, Subs()`watches, this`runs
      ensures Valid()
      ensures r.Err? <==> Route(mode, ty, WatchOp).Err?
      ensures r.Err? ==> r.message == NotSelected && runs == old(runs) && unchanged(main) && unchanged(Subs())
      ensures r.Ok? ==>
                var s := Route(mode, ty, WatchOp).value;
                var ch := Ctx(s);
                ch.counter == old(ch.counter) + 1 && r.value == ProcessId(ch.id, ch.counter) &&
                ch.watches == old(ch.watches) + [WatchRec(ch.counter, Some(ty), |ch.log|, None)] &&
                (s == Sub ==> unchanged(main)) && (s == Main ==> unchanged(Subs())) &&
                runs == SetRun(old(runs), r.value, WatchCancel(s, ch.counter))
    {
      var side := Route(mode, ty, WatchOp);
      if side.Err? {
        return Err(side.message);
      }
      var ch := Ctx(side.value);
      var key := ch.Watch(Some(ty));
      RecordRun(ProcessId(ch.id, key), WatchCancel(side.value, key));
      r := Ok(ProcessId(ch.id, key));
    }

    /**
     * `watch(cb)` through the view: a watch of every type on `ctx` and, when
     * there is one, on `_ctx`; one cancel, recorded under the id of the
     * watch on `ctx`, closes both.
     */
    method WatchAll() returns (pid: ProcessId)
      requires Valid()
      modifies main`counter, main`watches, Subs()`counter, Subs()`watches, this`runs
      ensures Valid()
      ensures main.counter == old(main.counter) + 1 && pid == ProcessId(main.id, main.counter) &&
              main.watches == old(main.watches) + [WatchRec(main.counter, None, |main.log|, None)]
      ensures sub != null ==>
                sub.counter == old(sub.counter) + 1 &&
                sub.watches == old(sub.watches) + [WatchRec(sub.counter, None, |sub.log|, None)]
      ensures runs == SetRun(old(runs), pid, WatchAllCancel(main.counter, if sub != null then Some(sub.counter) else None))
    {
      var key := main.Watch(None);
      var subKey: Option<nat> := None;
      if sub != null {
        var k := sub.Watch(None);
        subKey := Some(k);
      }
      pid := ProcessId(main.id, key);
      RecordRun(pid, WatchAllCancel(key, subKey));
    }

    /** `immedOnce` on `ctx`. */
    method ImmedOnceMain(ty: T, cb: C) returns (valid: bool, run: Option<ListenRun<T, C>>)
      requires Valid()
      modifies Repr
      ensures Valid()
      ensures main.ImmedOnceDone(ty, cb, valid, run) && OtherKept(Main)
    {
      main.KnownBelow();
      ghost var known0 := main.known;
      valid, run := main.ImmedOnce(ty, cb);
      ChanKept(Main);
      if valid {
        RunsOkGrow(runs, Main, main.id, known0, main.counter, run.value.item);
      }
    }

    /** `immedOnce` on `_ctx`. */
    method ImmedOnceSub(ty: T, cb: C) returns (valid: bool, run: Option<ListenRun<T, C>>)
      requires Valid() && sub != null
      modifies Repr
      ensures Valid()
      ensures sub.ImmedOnceDone(ty, cb, valid, run) && OtherKept(Sub)
    {
      sub.KnownBelow();
      ghost var known0 := sub.known;
      valid, run := sub.ImmedOnce(ty, cb);
      ChanKept(Sub);
      if valid {
        RunsOkGrow(runs, Sub, sub.id, known0, sub.counter, run.value.item);
      }
    }

    /** `immedOnce` on the channel of side `s`. */
    method ImmedOnceOn(s: Side, ty: T, cb: C) returns (valid: bool, run: Option<ListenRun<T, C>>)
      requires Valid() && (s == Main || sub != null)
      modifies Repr
      ensures Valid()
      ensures Ctx(s).ImmedOnceDone(ty, cb, valid, run) && OtherKept(s)
    {
      if s == Main {
        valid, run := ImmedOnceMain(ty, cb);
      } else {
        valid, run := ImmedOnceSub(ty, cb);
      }
    }

    /**
     * `immedOnce(type, cb)` through the view: checked for `'on'` and made on
     * the channel the type goes to; its run is not recorded.
     */
    method ImmedOnce(ty: T, cb: C) returns (r: Result<(bool, Option<ListenRun<T, C>>)>)
      requires Valid()
      modifies Repr
      ensures Valid()
      ensures r.Err? <==> Route(mode, ty, OnOp).Err?
      ensures r.Err? ==> r.message == NotSelected && unchanged(Repr)
      ensures r.Ok? ==>
                var s := Route(mode, ty, OnOp).value;
                Ctx(s).ImmedOnceDone(ty, cb, r.value.0, r.value.1) && OtherKept(s)
    {
      var side := Route(mode, ty, OnOp);
      if side.Err? {
        return Err(side.message);
      }
      var valid, run := ImmedOnceOn(side.value, ty, cb);
      r := Ok((valid, run));
    }

    /** `immedEmit` on `ctx`. */
    method ImmedEmitMain(ty: T, params: P) returns (values: seq<R>)
      requires Valid()
      modifies Repr
      ensures Valid() && main.ImmedEmitDone(ty, params, values) && OtherKept(Main)
    {
      values := main.ImmedEmit(ty, params);
    }

    /** `immedEmit` on `_ctx`. */
    method ImmedEmitSub(ty: T, params: P) returns (values: seq<R>)
      requires Valid() && sub != null
      modifies Repr
      ensures Valid() && sub.ImmedEmitDone(ty, params, values) && OtherKept(Sub)
    {
      values := sub.ImmedEmit(ty, params);
    }

    /**
     * `immedEmit(type, ...params)` through the view: checked for `'emit'` and
     * made on the channel the type goes to; nothing is recorded.
     */
    method ImmedEmit(ty: T, params: P) returns (r: Result<seq<R>>)
      requires Valid()
      modifies Repr
      ensures Valid()
      ensures r.Err? <==> Route(mode, ty, EmitOp).Err?
      ensures r.Err? ==> r.message == NotSelected && unchanged(Repr)
      ensures r.Ok? ==>
                var s := Route(mode, ty, EmitOp).value;
                Ctx(s).ImmedEmitDone(ty, params, r.value) && OtherKept(s)
    {
      var side := Route(mode, ty, EmitOp);
      if side.Err? {
        return Err(side.message);
      }
      var values;
      if side.value == Main {
        values := ImmedEmitMain(ty, params);
      } else {
        values := ImmedEmitSub(ty, params);
      }
      r := Ok(values);
    }

    /** `hasId(id)`: the id is stored on `ctx` or on `_ctx`. */
    method HasId(pid: ProcessId) returns (b: bool)
      ensures b <==> Stored(main, pid) || (sub != null && Stored(sub, pid))
    {
      b := main.HasId(pid);
      if !b && sub != null {
        b := sub.HasId(pid);
      }
    }

    /** `hasType(type)`: asked of the channel `getCtx` picks for the type. */
    function HasType(ty: T): (r: TypeIds)
      requires mode.Plain? <==> sub == null
      reads main.listeners`elems, main.cache`elems, Subs(), if sub != null then {sub.listeners, sub.cache} else {}
      ensures var ch := Ctx(CtxOf(mode, ty));
              r.has <==> (exists i :: 0 <= i < |ch.listeners.elems| && ch.listeners.elems[i].ty == ty) ||
                         (exists i :: 0 <= i < |ch.cache.elems| && ch.cache.elems[i].ty == ty)
    {
      Ctx(CtxOf(mode, ty)).HasType(ty)
    }

    /** `off(t)` on `ch`, the channel of side `s`, after `off` of each type of `done` on it. */
    method OffSide(s: Side, ch: AsyncEventChannel<T, C, P, R>, ghost h: Held<T, C, P>, ghost done: seq<T>, t: T, ghost next: seq<T>)
      returns (tot: Totals)
      requires Valid() && (s == Main || sub != null) && ch == Ctx(s) && OffLeft(HeldBy(ch), ch.id, h, done) && next == done + [t]
      modifies ch.listeners, ch.cache, ch`log
      ensures Valid() && OffLeft(HeldBy(ch), ch.id, h, next) && OtherKept(s)
      ensures tot == Totals(Pids(ch.id, OfType(WithoutTypes(h.ls, done), t)), Pids(ch.id, OfType(WithoutTypes(h.cs, done), t)))
    {
      WithoutTypesSnoc(h.ls, done, t);
      WithoutTypesSnoc(h.cs, done, t);
      OffEachSnoc(ch.id, h.ls, h.cs, done, t, h.log, ch.log);
      OffOne(ch.listeners.elems, t);
      OffOne(ch.cache.elems, t);
      var r := ch.Off([t]);
      tot := r.value;
      KeptValid(s);
    }

    /** `_ctx.id`, or 0 when there is no `_ctx`. */
    function SubId(): nat
    {
      if sub != null then sub.id else 0
    }

    /** What `off` works on in `_ctx`, or nothing when there is no `_ctx`. */
    ghost function SubHeld(): Held<T, C, P>
      reads Subs(), SubSets()
    {
      if sub != null then HeldBy(sub) else Held([], [], [], [], [])
    }

    /**
     * Turning off the types `done` on channels that held `m` (`ctx`) and
     * `u` (`_ctx`) turned off, on each channel, exactly the types routed to
     * it, one `off` call per type and in order.
     */
    ghost predicate Removed(done: seq<T>, m: Held<T, C, P>, u: Held<T, C, P>)
      reads main, main.listeners, main.cache, Subs(), SubSets()
    {
      OffLeft(HeldBy(main), main.id, m, SideTypes(mode, done, Main)) &&
      (sub != null ==> OffLeft(HeldBy(sub), sub.id, u, SideTypes(mode, done, Sub)))
    }

    /** The ids `off` gathered over its first `i` types, all of which the router accepted. */
    ghost predicate Gathered(types: seq<T>, i: nat, m: Held<T, C, P>, u: Held<T, C, P>, lids: seq<ProcessId>, eids: seq<ProcessId>)
    {
      i <= |types| && (forall j :: 0 <= j < i ==> Route(mode, types[j], OffOp).Ok?) &&
      lids == OffIds(mode, main.id, SubId(), m.ls, u.ls, types[..i]) &&
      eids == OffIds(mode, main.id, SubId(), m.cs, u.cs, types[..i])
    }

    /** The state of `off` after its first `i` types: all accepted, removed, and their ids gathered. */
    ghost predicate OffAt(types: seq<T>, i: nat, m: Held<T, C, P>, u: Held<T, C, P>, lids: seq<ProcessId>, eids: seq<ProcessId>)
      reads main, main.listeners, main.cache, Subs(), SubSets()
    {
      Gathered(types, i, m, u, lids, eids) && Removed(types[..i], m, u)
    }

    /** Type `i`, routed to side `s`, adds the ids of its items left on that channel. */
    lemma GatheredStep(types: seq<T>, i: nat, s: Side, m: Held<T, C, P>, u: Held<T, C, P>,
                       lids: seq<ProcessId>, eids: seq<ProcessId>, tot: Totals)
      requires i < |types| && Route(mode, types[i], OffOp) == Ok(s) && Gathered(types, i, m, u, lids, eids)
      requires var h, ch := if s == Main then m else u, if s == Main then main.id else SubId();
               tot == Totals(Pids(ch, OfType(WithoutTypes(h.ls, SideTypes(mode, types[..i], s)), types[i])),
                             Pids(ch, OfType(WithoutTypes(h.cs, SideTypes(mode, types[..i], s)), types[i])))
      ensures Gathered(types, i + 1, m, u, lids + tot.listener, eids + tot.emitCache)
    {
      OffStep(mode, main.id, SubId(), m.ls, u.ls, types, i, s);
      OffStep(mode, main.id, SubId(), m.cs, u.cs, types, i, s);
    }

    /** One turn of the loop of `off`: type `i`, which the router accepts, is removed from the channel it goes to. */
    method OffNext(types: seq<T>, i: nat, ghost m: Held<T, C, P>, ghost u: Held<T, C, P>,
                   lids: seq<ProcessId>, eids: seq<ProcessId>) returns (lids': seq<ProcessId>, eids': seq<ProcessId>)
      requires i < |types| && Valid() && Route(mode, types[i], OffOp).Ok?
      requires OffAt(types, i, m, u, lids, eids)
      modifies main.listeners, main.cache, main`log, Subs()`log, SubSets()
      ensures Valid() && OffAt(types, i + 1, m, u, lids', eids')
    {
      var s := Route(mode, types[i], OffOp).value;
      OffStep(mode, main.id, SubId(), m.ls, u.ls, types, i, s);
      var tot;
      if s == Main {
        tot := OffSide(Main, main, m, SideTypes(mode, types[..i], Main), types[i], SideTypes(mode, types[..i + 1], Main));
      } else {
        tot := OffSide(Sub, sub, u, SideTypes(mode, types[..i], Sub), types[i], SideTypes(mode, types[..i + 1], Sub));
      }
      GatheredStep(types, i, s, m, u, lids, eids, tot);
      lids' := lids + tot.listener;
      eids' := eids + tot.emitCache;
    }

    /**
     * `off(...types)` through the view: throws without types; otherwise
     * each type in turn is checked for `'off'` and removed from the channel
     * it goes to, and the ids removed are gathered type by type. A type the
     * router refuses throws, after the types before it were removed.
     */
    method Off(types: seq<T>) returns (r: Result<Totals>)
      requires Valid()
      modifies main.listeners, main.cache, main`log, Subs()`log, SubSets()
      ensures Valid()
      ensures r.Err? <==> types == [] || OkPrefix(mode, types) < |types|
      ensures r.Err? ==> r.message == if types == [] then NoTypes else NotSelected
      ensures Removed(types[..OkPrefix(mode, types)], old(HeldBy(main)), old(SubHeld()))
      ensures r.Ok? ==>
                r.value == Totals(OffIds(mode, main.id, SubId(), old(main.listeners.elems), old(SubHeld().ls), types),
                                  OffIds(mode, main.id, SubId(), old(main.cache.elems), old(SubHeld().cs), types))
    {
      ghost var m, u := HeldBy(main), SubHeld();
      assert Removed(types[..0], m, u) by { assert types[..0] == []; }
      if types == [] {
        return Err(NoTypes);
      }
      var lids, eids := [], [];
      var i := 0;
      assert OffAt(types, 0, m, u, lids, eids) by { assert types[..0] == []; }
      while i < |types|
        invariant Valid() && OffAt(types, i, m, u, lids, eids)
      {
        if Route(mode, types[i], OffOp).Err? {
          OkPrefixIs(mode, types, i);
          return Err(NotSelected);
        }
        lids, eids := OffNext(types, i, m, u, lids, eids);
        i := i + 1;
      }
      OkPrefixIs(mode, types, i);
      assert types[..i] == types;
      r := Ok(Totals(lids, eids));
    }

    /** Every recorded cancel can be called. */
    lemma CallableRun(i: nat)
      requires RunsValid() && i < |runs|
      ensures Callable(runs[i].cancel)
    {
    }

    /**
     * What calling `c` leaves in place: the listener is no longer stored,
     * the cached emit is no longer cached, the watch callbacks no longer
     * live.
     */
    ghost predicate Cancelled(c: CancelFn<T, C, R>)
      reads main, main.listeners, main.cache, Subs(), SubSets()
    {
      match c
      case ListenCancel(s, run) => (s == Main || sub != null) && run.item.id !in Ids(Ctx(s).listeners.elems)
      case EmitCancel(s, run) => (s == Main || sub != null) && (run.async ==> run.id.n !in Ids(Ctx(s).cache.elems))
      case WatchCancel(s, key) => (s == Main || sub != null) && key !in LiveKeys(Ctx(s).watches)
      case WatchAllCancel(key, subKey) =>
        key !in LiveKeys(main.watches) && (subKey.Some? && sub != null ==> subKey.value !in LiveKeys(sub.watches))
    }

    /**
     * What calling `c` did: each channel changed as `Undone` says, and
     * nothing else of theirs: the items made, the queue and the values are
     * as they were.
     */
    twostate predicate UndidOne(new c: CancelFn<T, C, R>)
      reads main, main.listeners, main.cache, Subs(), SubSets()
    {
      HeldBy(main) == Undone(Main, old(HeldBy(main)), c) &&
      (sub != null ==> HeldBy(sub) == Undone(Sub, old(HeldBy(sub)), c)) &&
      unchanged(main`counter, main`known, main`pending, main`results) &&
      (sub != null ==> unchanged(sub`counter, sub`known, sub`pending, sub`results))
    }

    /** A cancel made on side `s` that changed only that channel, as `Undone` says, did what `UndidOne` says. */
    twostate lemma UndidOn(s: Side, new c: CancelFn<T, C, R>)
      requires (s == Main || sub != null) && !c.WatchAllCancel? && c.side == s && OtherKept(s)
      requires HeldBy(Ctx(s)) == Undone(s, old(HeldBy(Ctx(s))), c)
      requires unchanged(Ctx(s)`counter, Ctx(s)`known, Ctx(s)`pending, Ctx(s)`results)
      ensures UndidOne(c)
    {
    }

    /** `run.cancel()` of a listen run on `ch`, the channel of side `s`. */
    method UndoListen(s: Side, ch: AsyncEventChannel<T, C, P, R>, run: ListenRun<T, C>)
      requires Valid() && (s == Main || sub != null) && ch == Ctx(s) && Callable(ListenCancel(s, run))
      modifies ch.listeners, ch`log
      ensures Valid() && OtherKept(s)
      ensures HeldBy(ch) == Undone<T, C, P, R>(s, old(HeldBy(ch)), ListenCancel(s, run))
    {
      var _ := ch.CancelListen(run);
      KeptValid(s);
    }

    /** `run.cancel()` of an emit run on `ch`, the channel of side `s`. */
    method UndoEmit(s: Side, ch: AsyncEventChannel<T, C, P, R>, run: EmitRun<T, R>)
      requires Valid() && (s == Main || sub != null) && ch == Ctx(s) && Callable(EmitCancel(s, run))
      modifies ch.listeners, ch.cache, ch`log
      ensures Valid() && OtherKept(s)
      ensures HeldBy(ch) == Undone(s, old(HeldBy(ch)), EmitCancel(s, run))
    {
      var _ := ch.CancelEmit(run);
      KeptValid(s);
    }

    /** A listen run's cancel; what the cancels in `done` removed stays removed. */
    method CancelListenOn(s: Side, run: ListenRun<T, C>, ghost done: seq<Recorded<T, C, R>>)
      requires Valid() && (s == Main || sub != null) && Callable(ListenCancel(s, run))
      requires forall k :: 0 <= k < |done| ==> Cancelled(done[k].cancel)
      modifies Repr
      ensures Valid() && Cancelled(ListenCancel(s, run))
      ensures forall k :: 0 <= k < |done| ==> Cancelled(done[k].cancel)
      ensures UndidOne(ListenCancel(s, run))
    {
      var ch := Ctx(s);
      ghost var es := ch.listeners.elems;
      UndoListen(s, ch, run);
      UndidOn(s, ListenCancel(s, run));
      forall k | 0 <= k < |done| ensures Cancelled(done[k].cancel) {
        match done[k].cancel {
          case ListenCancel(s', r) => if s' == s { WithoutGone(es, run.item.id, r.item.id); }
          case EmitCancel(_, _) =>
          case WatchCancel(_, _) =>
          case WatchAllCancel(_, _) =>
        }
      }
      WithoutGone(es, run.item.id, run.item.id);
    }

    /** An emit run's cancel; what the cancels in `done` removed stays removed. */
    method CancelEmitOn(s: Side, run: EmitRun<T, R>, ghost done: seq<Recorded<T, C, R>>)
      requires Valid() && (s == Main || sub != null) && Callable(EmitCancel(s, run))
      requires forall k :: 0 <= k < |done| ==> Cancelled(done[k].cancel)
      modifies Repr
      ensures Valid() && Cancelled(EmitCancel(s, run))
      ensures forall k :: 0 <= k < |done| ==> Cancelled(done[k].cancel)
      ensures UndidOne(EmitCancel(s, run))
    {
      var ch := Ctx(s);
      ghost var es := ch.cache.elems;
      UndoEmit(s, ch, run);
      UndidOn(s, EmitCancel(s, run));
      forall k | 0 <= k < |done| ensures Cancelled(done[k].cancel) {
        match done[k].cancel {
          case ListenCancel(_, _) =>
          case EmitCancel(s', r) => if s' == s && run.async { WithoutGone(es, run.id.n, r.id.n); }
          case WatchCancel(_, _) =>
          case WatchAllCancel(_, _) =>
        }
      }
      if run.async {
        WithoutGone(es, run.id.n, run.id.n);
      }
    }

    /** A watch's cancel on the channel of side `s`; what the cancels in `done` removed stays removed. */
    method CancelWatchOn(s: Side, key: nat, ghost done: seq<Recorded<T, C, R>>)
      requires Valid() && (s == Main || sub != null)
      requires forall k :: 0 <= k < |done| ==> Cancelled(done[k].cancel)
      modifies Ctx(s)`watches
      ensures Valid() && key !in LiveKeys(Ctx(s).watches)
      ensures forall k :: 0 <= k < |done| ==> Cancelled(done[k].cancel)
      ensures UndidOne(WatchCancel(s, key))
    {
      var ch := Ctx(s);
      CloseWatchLive(ch.watches, key, |ch.log|);
      var _ := ch.Unwatch(key);
    }

    /**
     * One recorded cancel called. The cancel of a watch of every type
     * cancels the watch on `_ctx` first, then the one on `ctx`.
     */
    method CancelOne(c: CancelFn<T, C, R>, ghost done: seq<Recorded<T, C, R>>)
      requires Valid() && Callable(c)
      requires forall k :: 0 <= k < |done| ==> Cancelled(done[k].cancel)
      modifies Repr
      ensures Valid() && Cancelled(c)
      ensures forall k :: 0 <= k < |done| ==> Cancelled(done[k].cancel)
      ensures UndidOne(c)
    {
      match c {
        case ListenCancel(s, run) => CancelListenOn(s, run, done);
        case EmitCancel(s, run) => CancelEmitOn(s, run, done);
        case WatchCancel(s, key) => CancelWatchOn(s, key, done);
        case WatchAllCancel(key, subKey) =>
          if subKey.Some? && sub != null {
            CancelWatchOn(Sub, subKey.value, done);
            ghost var done' := done + [Recorded(ProcessId(sub.id, subKey.value), WatchCancel(Sub, subKey.value))];
            CancelWatchOn(Main, key, done');
            assert Cancelled(done'[|done|].cancel);
            assert forall k :: 0 <= k < |done| ==> done'[k] == done[k];
          } else {
            CancelWatchOn(Main, key, done);
          }
      }
    }

    /**
     * Turn `i` of `cancel()`: the `i`-th recorded cancel is called, after
     * the ones before it, on channels that held `m` and `u` before the first.
     */
    method CancelNext(i: nat, ghost m: Held<T, C, P>, ghost u: Held<T, C, P>)
      requires Valid() && i < |runs|
      requires forall k :: 0 <= k < i ==> Cancelled(runs[k].cancel)
      requires HeldBy(main) == UndoneAll(Main, m, runs[..i]) && (sub != null ==> HeldBy(sub) == UndoneAll(Sub, u, runs[..i]))
      modifies Repr
      ensures Valid() && forall k :: 0 <= k < i + 1 ==> Cancelled(runs[k].cancel)
      ensures HeldBy(main) == UndoneAll(Main, m, runs[..i + 1]) && (sub != null ==> HeldBy(sub) == UndoneAll(Sub, u, runs[..i + 1]))
      ensures unchanged(main`counter, main`known, main`pending, main`results)
      ensures (sub != null ==> unchanged(sub`counter, sub`known, sub`pending, sub`results))
    {
      var c := runs[i].cancel;
      ghost var rs := runs;
      ghost var before := rs[..i];
      assert rs[..i + 1][..i] == before;
      assert UndoneAll(Main, m, rs[..i + 1]) == Undone(Main, UndoneAll(Main, m, before), c);
      assert UndoneAll(Sub, u, rs[..i + 1]) == Undone(Sub, UndoneAll(Sub, u, before), c);
      CallableRun(i);
      CancelOne(c, before);
      assert runs == rs;
      forall k | 0 <= k < i + 1 ensures Cancelled(rs[k].cancel) {
        if k < i { assert before[k] == rs[k]; }
      }
    }

    /** The loop of `cancel()`: every recorded cancel called in the order of `runs`. */
    method CancelAll()
      requires Valid()
      modifies Repr
      ensures Valid()
      ensures forall k :: 0 <= k < |runs| ==> Cancelled(runs[k].cancel)
      ensures HeldBy(main) == UndoneAll(Main, old(HeldBy(main)), runs)
      ensures sub != null ==> HeldBy(sub) == UndoneAll(Sub, old(HeldBy(sub)), runs)
      ensures unchanged(main`counter, main`known, main`pending, main`results)
      ensures (sub != null ==> unchanged(sub`counter, sub`known, sub`pending, sub`results))
    {
      ghost var m, u := HeldBy(main), if sub != null then HeldBy(sub) else Held([], [], [], [], []);
      var i := 0;
      assert runs[..0] == [];
      while i < |runs|
        invariant i <= |runs| && Valid()
        invariant forall k :: 0 <= k < i ==> Cancelled(runs[k].cancel)
        invariant HeldBy(main) == UndoneAll(Main, m, runs[..i]) && (sub != null ==> HeldBy(sub) == UndoneAll(Sub, u, runs[..i]))
        invariant unchanged(main`counter, main`known, main`pending, main`results)
        invariant (sub != null ==> unchanged(sub`counter, sub`known, sub`pending, sub`results))
      {
        CancelNext(i, m, u);
        i := i + 1;
      }
      assert runs[..i] == runs;
    }

    /**
     * `cancel()`: every recorded cancel is called in the order of `runs`,
     * then `runs` is cleared; afterwards none of their listeners, cached
     * emits and watches is left, each channel is as `UndoneAll` says, and
     * nothing else of theirs changed.
     */
    method Cancel()
      requires Valid()
      modifies Repr, this`runs
      ensures Valid() && runs == []
      ensures forall k :: 0 <= k < |old(runs)| ==> Cancelled(old(runs)[k].cancel)
      ensures HeldBy(main) == UndoneAll(Main, old(HeldBy(main)), old(runs))
      ensures sub != null ==> HeldBy(sub) == UndoneAll(Sub, old(HeldBy(sub)), old(runs))
      ensures unchanged(main`counter, main`known, main`pending, main`results)
      ensures (sub != null ==> unchanged(sub`counter, sub`known, sub`pending, sub`results))
    {
      CancelAll();
      label swept:
      runs := [];
      assert unchanged@swept(Repr);
    }
  }
}
