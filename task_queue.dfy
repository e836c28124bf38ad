/**
 * `AsyncTaskQueue` of src/index.js: one task per declared type, registered
 * in any order; once every type has its task the queue is loaded, and
 * `start` runs the tasks in declared order, each receiving what the one
 * before it resolved to, checking the cancel flag before each next task.
 *
 * `start` is an `async` function that awaits every task. The model keeps
 * those await points: `Start` runs up to the first await, `Step` settles
 * the awaited task and runs up to the next await or to the end, and other
 * calls (`Cancel`, `Start`, `On`) may come in between. `Settle` is the
 * loop that drives a run to its end when nothing comes in between.
 */
module TaskQueue {
  import opened Wrappers

  /** What the promise of one task settles to. */
  datatype Reply<V, E> = Resolved(value: V) | Rejected(err: E)

  /**
   * What the promise of a started run settles to: the last task's value,
   * the rejection `{status: 'cancel', data: 'Task canceled'}`, or the
   * rejection `{status: 'error', data: err}`.
   */
  datatype Settled<V, E> = Finished(value: V) | Canceled | Failed(err: E)

  /** The tasks of `types`, in declared order (`this.#tasks.get(this.#types[i])`). */
  function TaskList<T, K>(types: seq<T>, tasks: map<T, K>): (r: seq<K>)
    requires forall i :: 0 <= i < |types| ==> types[i] in tasks
    ensures |r| == |types| && forall i :: 0 <= i < |types| ==> r[i] == tasks[types[i]]
  {
    seq(|types|, i requires 0 <= i < |types| => tasks[types[i]])
  }

  /**
   * The run of tasks `ks[i..]`, the first receiving `res`, with every
   * task's reply given by `perform`: the reference for one uninterrupted
   * `start`.
   */
  function Pipe<K, V, E>(perform: (K, Option<V>) -> Reply<V, E>, ks: seq<K>, i: nat, res: Option<V>): Settled<Option<V>, E>
    requires i <= |ks|
    decreases |ks| - i
  {
    if i == |ks| then Finished(res)
    else match perform(ks[i], res)
      case Rejected(e) => Failed(e)
      case Resolved(v) => Pipe(perform, ks, i + 1, Some(v))
  }

  /**
   * The rest of a run whose task `ks[i]` has been called and replied
   * `reply`, with the cancel flag at `cancel` from here on: the loop body
   * of `start` after each `await`.
   */
  function Drive<K, V, E>(perform: (K, Option<V>) -> Reply<V, E>, ks: seq<K>, i: nat, reply: Reply<V, E>, cancel: bool): Settled<Option<V>, E>
    requires i < |ks|
    decreases |ks| - i
  {
    match reply
    case Rejected(e) => Failed(e)
    case Resolved(v) =>
      if i + 1 == |ks| then Finished(Some(v))
      else if cancel then Canceled
      else Drive(perform, ks, i + 1, perform(ks[i + 1], Some(v)), cancel)
  }

  /** Without a cancel, driving a run from its first task is the plain pipeline. */
  lemma {:induction false} DriveIsPipe<K, V, E>(perform: (K, Option<V>) -> Reply<V, E>, ks: seq<K>, i: nat, res: Option<V>)
    requires i < |ks|
    ensures Drive(perform, ks, i, perform(ks[i], res), false) == Pipe(perform, ks, i, res)
    decreases |ks| - i
  {
    match perform(ks[i], res)
    case Rejected(e) =>
    case Resolved(v) =>
      if i + 1 < |ks| {
        DriveIsPipe(perform, ks, i + 1, Some(v));
      }
  }

  /**
   * A run with every task resolving: the result is the last task's value,
   * and each task received the value of the one before it.
   */
  lemma {:induction false} PipeThreads<K, V, E>(perform: (K, Option<V>) -> Reply<V, E>, ks: seq<K>, i: nat, res: Option<V>,
                                                 values: seq<V>)
    requires i <= |ks| && |values| == |ks| - i
    requires i < |ks| ==> perform(ks[i], res) == Resolved(values[0])
    requires forall j :: 0 <= j < |values| - 1 ==> perform(ks[i + j + 1], Some(values[j])) == Resolved(values[j + 1])
    ensures Pipe(perform, ks, i, res) == Finished(if values == [] then res else Some(values[|values| - 1]))
    decreases |ks| - i
  {
    if i < |ks| {
      PipeThreads(perform, ks, i + 1, Some(values[0]), values[1..]);
    }
  }

  /** The first task that rejects ends the run with its error; the tasks after it do not run. */
  lemma {:induction false} PipeStopsAtError<K, V, E>(perform: (K, Option<V>) -> Reply<V, E>, ks: seq<K>, i: nat, res: Option<V>,
                                                      values: seq<V>, err: E)
    requires i + |values| < |ks|
    requires |values| > 0 ==> perform(ks[i], res) == Resolved(values[0])
    requires forall j :: 0 <= j < |values| - 1 ==> perform(ks[i + j + 1], Some(values[j])) == Resolved(values[j + 1])
    requires perform(ks[i + |values|], if values == [] then res else Some(values[|values| - 1])) == Rejected(err)
    ensures Pipe(perform, ks, i, res) == Failed(err)
    decreases |values|
  {
    if values != [] {
      PipeStopsAtError(perform, ks, i + 1, Some(values[0]), values[1..], err);
    }
  }

  /** `|set(s)| <= |s|`, equal only without repeats. */
  lemma {:induction false} DistinctCard<T>(s: seq<T>)
    ensures |set x | x in s| <= |s|
    ensures |set x | x in s| == |s| <==> forall i, j :: 0 <= i < j < |s| ==> s[i] != s[j]
  {
    if s != [] {
      var s' := s[..|s| - 1];
      var last := s[|s| - 1];
      DistinctCard(s');
      assert s == s' + [last];
      var a, b := set x | x in s', set x | x in s;
      assert b == a + {last};
      if last in a {
        assert b == a;
        var k :| 0 <= k < |s'| && s'[k] == last;
        assert s[k] == s[|s| - 1];
      } else {
        assert |b| == |a| + 1;
        if |a| == |s'| {
          forall i, j | 0 <= i < j < |s| ensures s[i] != s[j] {
            if j == |s| - 1 {
              assert s[i] == s'[i] && s'[i] in a;
            } else {
              assert s[i] == s'[i] && s[j] == s'[j];
            }
          }
        } else {
          var i, j :| 0 <= i < j < |s'| && s'[i] == s'[j];
          assert s[i] == s[j];
        }
      }
    }
  }

  /** A subset as large as the set is the set. */
  lemma SubsetCard<T>(a: set<T>, b: set<T>)
    requires a <= b && |a| == |b|
    ensures a == b
  {
    assert b == a + (b - a);
    assert a * (b - a) == {};
    assert |b - a| == 0;
  }

  class AsyncTaskQueue<T(==), K, L, V, E> {
    /** `#types` */
    const types: seq<T>
    /** `#oneAuto` */
    const oneAuto: bool
    /** How each task's promise settles for the value it receives. */
    const perform: (K, Option<V>) -> Reply<V, E>
    /** `#tasks` */
    var tasks: map<T, K>
    /** `#load` */
    var load: bool
    /** `#isCancel` */
    var isCancel: bool
    /** `#isRunning` */
    var isRunning: bool
    /** `#loadCb`; `None` is the default `() => {}`. */
    var loadCb: Option<L>
    /** Every call of a callback set by `onLoad`, in order. */
    var loadCalls: seq<L>
    /** The loop counter `i` of the run in progress. */
    var next: nat
    /** The reply of task `next`, which the run in progress awaits. */
    var awaited: Option<Reply<V, E>>

    ghost predicate Valid()
      reads this`tasks, this`load, this`isRunning, this`next, this`awaited
    {
      |types| > 0 &&
      tasks.Keys <= (set x | x in types) &&
      load == (|tasks.Keys| == |types|) &&
      (load ==> forall i :: 0 <= i < |types| ==> types[i] in tasks) &&
      (isRunning ==> load && next < |types|) &&
      (isRunning <==> awaited.Some?)
    }

    /** The declared types, each run by its task once the queue is loaded. */
    function Tasks(): (r: seq<K>)
      requires Valid() && load
      reads this`tasks, this`load, this`isRunning, this`next, this`awaited
      ensures |r| == |types|
    {
      TaskList(types, tasks)
    }

    constructor(types: seq<T>, oneAuto: bool, perform: (K, Option<V>) -> Reply<V, E>)
      requires types != []
      ensures Valid()
      ensures this.types == types && this.oneAuto == oneAuto && this.perform == perform
      ensures tasks == map[] && !load && !isCancel && !isRunning && loadCb == None && loadCalls == []
    {
      this.types := types;
      this.oneAuto := oneAuto;
      this.perform := perform;
      tasks := map[];
      load, isCancel, isRunning := false, false, false;
      loadCb, loadCalls := None, [];
      next, awaited := 0, None;
    }

    /** `new AsyncTaskQueue(types, oneAuto)`: throws for an empty type list. */
    static method Create(types: seq<T>, oneAuto: bool, perform: (K, Option<V>) -> Reply<V, E>)
      returns (r: Result<AsyncTaskQueue<T, K, L, V, E>>)
      ensures r.Err? <==> types == []
      ensures r.Err? ==> r.message == "At least one event type is required"
      ensures r.Ok? ==> fresh(r.value) && r.value.Valid() && r.value.types == types && r.value.oneAuto == oneAuto &&
                        r.value.perform == perform && r.value.tasks == map[] && !r.value.load && !r.value.isRunning
    {
      if types == [] {
        return Err("At least one event type is required");
      }
      var q := new AsyncTaskQueue(types, oneAuto, perform);
      r := Ok(q);
    }

    /**
     * The synchronous part of `start(res)`: nothing happens (and the promise
     * resolves to `undefined`) while a run is in progress or before the
     * queue is loaded; otherwise the cancel flag is cleared and the first
     * task called, whose reply is then awaited.
     */
    method Start(res: Option<V>) returns (started: bool)
      requires Valid()
      modifies this`isRunning, this`isCancel, this`next, this`awaited
      ensures Valid()
      ensures started <==> !old(isRunning) && load
      ensures !started ==> isRunning == old(isRunning) && isCancel == old(isCancel) && next == old(next) && awaited == old(awaited)
      ensures started ==> isRunning && !isCancel && next == 0 && awaited == Some(perform(Tasks()[0], res))
    {
      if isRunning || !load {
        return false;
      }
      isRunning, isCancel := true, false;
      next := 0;
      awaited := Some(perform(tasks[types[0]], res));
      started := true;
    }

    /**
     * The run in progress past one `await`: a rejected task ends it with
     * status 'error'; after the last task it ends with that task's value;
     * with the cancel flag set it ends with status 'cancel' (clearing the
     * flag); otherwise the next task is called with the value.
     */
    method Step() returns (settled: Option<Settled<Option<V>, E>>)
      requires Valid() && isRunning
      modifies this`isRunning, this`isCancel, this`next, this`awaited
      ensures Valid()
      ensures settled.None? <==> isRunning
      ensures old(next) <= next <= |types|
      ensures settled.Some? ==> settled.value == Drive(perform, Tasks(), old(next), old(awaited.value), old(isCancel))
      ensures settled.Some? ==> isCancel == (old(isCancel) && !settled.value.Canceled?)
      ensures settled.None? ==>
                !old(isCancel) && !isCancel && old(awaited.value).Resolved? && next == old(next) + 1 &&
                awaited == Some(perform(Tasks()[next], Some(old(awaited.value).value))) &&
                Drive(perform, Tasks(), next, awaited.value, false) == Drive(perform, Tasks(), old(next), old(awaited.value), false)
    {
      match awaited.value
      case Rejected(e) =>
        isRunning, awaited := false, None;
        settled := Some(Failed(e));
      case Resolved(v) =>
        next := next + 1;
        if next == |types| {
          isRunning, awaited := false, None;
          settled := Some(Finished(Some(v)));
        } else if isCancel {
          isRunning, isCancel, awaited := false, false, None;
          settled := Some(Canceled);
        } else {
          awaited := Some(perform(tasks[types[next]], Some(v)));
          settled := None;
        }
    }

    /** The run in progress driven to its end with nothing coming in between. */
    method Settle() returns (settled: Settled<Option<V>, E>)
      requires Valid() && isRunning
      modifies this`isRunning, this`isCancel, this`next, this`awaited
      ensures Valid() && !isRunning
      ensures settled == Drive(perform, Tasks(), old(next), old(awaited.value), old(isCancel))
    {
      ghost var goal := Drive(perform, Tasks(), next, awaited.value, isCancel);
      var s := Step();
      while s.None?
        invariant Valid() && s.None? == isRunning
        invariant s.None? ==> goal == Drive(perform, Tasks(), next, awaited.value, isCancel)
        invariant s.Some? ==> s.value == goal
        decreases |types| - next, s.None?
      {
        s := Step();
      }
      settled := s.value;
    }

    /**
     * `start(res)` with nothing coming in between its awaits: when it
     * starts, the tasks run in declared order, each receiving the value
     * before it, and the first rejection ends the run.
     */
    method Run(res: Option<V>) returns (started: bool, settled: Option<Settled<Option<V>, E>>)
      requires Valid()
      modifies this`isRunning, this`isCancel, this`next, this`awaited
      ensures Valid() && isRunning == (old(isRunning) && !started)
      ensures started <==> !old(isRunning) && load
      ensures started <==> settled.Some?
      ensures started ==> settled.value == Pipe(perform, Tasks(), 0, res)
    {
      started := Start(res);
      settled := None;
      if started {
        var s := Settle();
        DriveIsPipe(perform, Tasks(), 0, res);
        settled := Some(s);
      }
    }

    /** `cancel()`: the run in progress ends at its next check. */
    method Cancel()
      modifies this`isCancel
      ensures isCancel
    {
      isCancel := true;
    }

    /** `onLoad(cb)` */
    method OnLoad(cb: L)
      modifies this`loadCb
      ensures loadCb == Some(cb)
    {
      loadCb := Some(cb);
    }

    /**
     * `on(type, cb)`, `cb` being `None` for a value that is not a function:
     * throws for a type that was not declared, then for a missing callback;
     * a type that has its task keeps it; the registration that gives every
     * declared type its task loads the queue, starts it when `oneAuto` holds
     * and then calls the `onLoad` callback.
     */
    method On(ty: T, cb: Option<K>) returns (r: Result<()>)
      requires Valid()
      modifies this`tasks, this`load, this`isRunning, this`isCancel, this`next, this`awaited, this`loadCalls
      ensures Valid()
      ensures r.Err? <==> ty !in types || cb.None?
      ensures ty !in types ==> r == Err("Unregistered type")
      ensures ty in types && cb.None? ==> r == Err("The callback function must be passed")
      ensures r.Err? || ty in old(tasks) ==>
                tasks == old(tasks) && load == old(load) && isRunning == old(isRunning) && isCancel == old(isCancel) &&
                next == old(next) && awaited == old(awaited) && loadCalls == old(loadCalls)
      ensures r.Ok? && ty !in old(tasks) ==> tasks == old(tasks)[ty := cb.value]
      ensures r.Ok? && ty !in old(tasks) && !load ==>
                isRunning == old(isRunning) && isCancel == old(isCancel) && next == old(next) && awaited == old(awaited) &&
                loadCalls == old(loadCalls)
      ensures r.Ok? && ty !in old(tasks) && load ==>
                !old(load) && !old(isRunning) &&
                (oneAuto ==> isRunning && !isCancel && next == 0 && awaited == Some(perform(Tasks()[0], None))) &&
                (!oneAuto ==> !isRunning && isCancel == old(isCancel)) &&
                loadCalls == old(loadCalls) + (if loadCb.Some? then [loadCb.value] else [])
    {
      if ty !in types {
        return Err("Unregistered type");
      }
      if cb.None? {
        return Err("The callback function must be passed");
      }
      r := Ok(());
      if ty in tasks {
        return;
      }
      Register(ty, cb.value);
    }

    /** `#tasks.set(type, cb)` for a type without its task, and the load check that follows it. */
    method Register(ty: T, k: K)
      requires Valid() && ty in types && ty !in tasks
      modifies this`tasks, this`load, this`isRunning, this`isCancel, this`next, this`awaited, this`loadCalls
      ensures Valid()
      ensures tasks == old(tasks)[ty := k]
      ensures !load ==>
                isRunning == old(isRunning) && isCancel == old(isCancel) && next == old(next) && awaited == old(awaited) &&
                loadCalls == old(loadCalls)
      ensures load ==>
                !old(load) && !old(isRunning) &&
                (oneAuto ==> isRunning && !isCancel && next == 0 && awaited == Some(perform(Tasks()[0], None))) &&
                (!oneAuto ==> !isRunning && isCancel == old(isCancel)) &&
                loadCalls == old(loadCalls) + (if loadCb.Some? then [loadCb.value] else [])
    {
      ghost var all := set x | x in types;
      assert tasks.Keys + {ty} <= all;
      tasks := tasks[ty := k];
      Covers(tasks.Keys, types);
      if |types| == |tasks.Keys| {
        load := true;
        if oneAuto {
          var _ := Start(None);
        }
        if loadCb.Some? {
          loadCalls := loadCalls + [loadCb.value];
        }
      }
    }

    /** The queue is loaded exactly when every declared type has its task, provided no type is declared twice. */
    lemma LoadedWhenAllRegistered()
      requires Valid()
      requires forall i, j :: 0 <= i < j < |types| ==> types[i] != types[j]
      ensures load <==> forall i :: 0 <= i < |types| ==> types[i] in tasks
    {
      DistinctCard(types);
      if forall i :: 0 <= i < |types| ==> types[i] in tasks {
        assert (set x | x in types) == tasks.Keys;
      }
    }

    /** A type declared twice keeps the queue from ever loading. */
    lemma RepeatedTypeNeverLoads()
      requires Valid()
      requires exists i, j :: 0 <= i < j < |types| && types[i] == types[j]
      ensures !load
    {
      DistinctCard(types);
      assert |tasks.Keys| <= |set x | x in types| by {
        SubsetCardLe(tasks.Keys, set x | x in types);
      }
    }
  }

  /** Registered types are at most as many as the declared ones, and as many only when all are registered. */
  lemma Covers<T>(keys: set<T>, types: seq<T>)
    requires keys <= set x | x in types
    ensures |keys| <= |types|
    ensures |keys| == |types| ==> forall i :: 0 <= i < |types| ==> types[i] in keys
  {
    DistinctCard(types);
    SubsetCardLe(keys, set x | x in types);
    if |keys| == |types| {
      SubsetCard(keys, set x | x in types);
    }
  }

  lemma SubsetCardLe<T>(a: set<T>, b: set<T>)
    requires a <= b
    ensures |a| <= |b|
  {
    assert b == a + (b - a);
  }
}
