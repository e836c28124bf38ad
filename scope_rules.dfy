/**
 * The routing rules of `asyncEventChannelScope` of src/index.ts, which
 * decide for every operation which of the two channels it goes to, and
 * the record of cancel functions the scope keeps.
 */
module ScopeRules {
  import opened Wrappers
  import opened WatchedSets
  import opened Registry
  import opened ChannelState
  import opened Channel

  /** `ECHandler`: the operation a type is checked for. */
  datatype Op = OnOp | EmitOp | OffOp | WatchOp

  /** `handlers`: `true`, `false`, or a list of the operations allowed. */
  datatype Handlers = Every(allowed: bool) | Only(ops: seq<Op>)

  /** One item `{type, handlers}` of an include or exclude list. */
  datatype Rule<T> = Rule(ty: T, handlers: Handlers)

  /** No list, an include list, or an exclude list. */
  datatype Mode<T> = Plain | Include(rules: seq<Rule<T>>) | Exclude(rules: seq<Rule<T>>)

  /** `ctx` or `_ctx`. */
  datatype Side = Main | Sub

  const BothLists := "include and exclude cannot be passed at the same time"
  const NotSelected := "The event type is not included or excluded"

  /** The options check: the two lists exclude each other (an empty list still counts as given). */
  function ModeOf<T>(includeList: Option<seq<Rule<T>>>, excludeList: Option<seq<Rule<T>>>): (r: Result<Mode<T>>)
    ensures r.Err? <==> includeList.Some? && excludeList.Some?
    ensures r.Err? ==> r.message == BothLists
    ensures r.Ok? ==> (r.value.Plain? <==> includeList.None? && excludeList.None?)
    ensures r.Ok? && includeList.Some? ==> r.value == Include(includeList.value)
    ensures r.Ok? && excludeList.Some? ==> r.value == Exclude(excludeList.value)
  {
    match (includeList, excludeList)
    case (Some(_), Some(_)) => Err(BothLists)
    case (Some(rs), None) => Ok(Include(rs))
    case (None, Some(rs)) => Ok(Exclude(rs))
    case (None, None) => Ok(Plain)
  }

  /** `list.some((item) => item.type === type)` */
  predicate Listed<T(==)>(rules: seq<Rule<T>>, ty: T)
  {
    exists i :: 0 <= i < |rules| && rules[i].ty == ty
  }

  /** What a list item's `handlers` lets through. */
  function Allows(h: Handlers, op: Op): bool
  {
    match h
    case Every(b) => b
    case Only(ops) => op in ops
  }

  /**
   * The router `asserts(list, yes, no)(type, handler)`: the items are tried
   * in order and those of other types skipped; the first of the type
   * routes to `yes` when its handlers let the operation through and
   * throws otherwise; with none of the type the route is `no`.
   */
  function Asserts<T(==)>(rules: seq<Rule<T>>, ty: T, op: Op, yes: Side, no: Side): (r: Result<Side>)
    ensures r.Err? ==> r.message == NotSelected
    ensures r.Ok? ==> r.value == yes || r.value == no
  {
    if rules == [] then Ok(no)
    else if rules[0].ty != ty then Asserts(rules[1..], ty, op, yes, no)
    else if Allows(rules[0].handlers, op) then Ok(yes)
    else Err(NotSelected)
  }

  /**
   * The router decided by the first item of the type: `no` when the list
   * has none, else `yes` or the error as that item's handlers say.
   */
  lemma {:induction false} AssertsMeaning<T>(rules: seq<Rule<T>>, ty: T, op: Op, yes: Side, no: Side)
    ensures (forall i :: 0 <= i < |rules| ==> rules[i].ty != ty) ==> Asserts(rules, ty, op, yes, no) == Ok(no)
    ensures forall i :: 0 <= i < |rules| && rules[i].ty == ty && (forall j :: 0 <= j < i ==> rules[j].ty != ty) ==>
              Asserts(rules, ty, op, yes, no) == if Allows(rules[i].handlers, op) then Ok(yes) else Err(NotSelected)
  {
    if rules != [] {
      AssertsMeaning(rules[1..], ty, op, yes, no);
      if rules[0].ty != ty {
        forall i | 0 < i < |rules| && rules[i].ty == ty && (forall j :: 0 <= j < i ==> rules[j].ty != ty)
          ensures forall j :: 0 <= j < i - 1 ==> rules[1..][j].ty != ty
        {
          forall j | 0 <= j < i - 1 ensures rules[1..][j].ty != ty {
            assert rules[1..][j] == rules[j + 1];
          }
        }
        assert forall i :: 0 < i < |rules| ==> rules[1..][i - 1] == rules[i];
      }
    }
  }

  /** `getCtxAndAsserts(type, handler)`: the channel an operation goes to, or the router's error. */
  function Route<T(==)>(mode: Mode<T>, ty: T, op: Op): Result<Side>
  {
    match mode
    case Plain => Ok(Main)
    case Include(rs) => Asserts(rs, ty, op, Main, Sub)
    case Exclude(rs) => Asserts(rs, ty, op, Sub, Main)
  }

  /** `getCtx(type)`: the channel `hasType` asks, chosen by whether the type is listed. */
  function CtxOf<T(==)>(mode: Mode<T>, ty: T): Side
  {
    match mode
    case Plain => Main
    case Include(rs) => if Listed(rs, ty) then Main else Sub
    case Exclude(rs) => if Listed(rs, ty) then Sub else Main
  }

  /** The router never goes to the other side than `getCtx`, and never fails for a type the list lacks. */
  lemma {:induction false} AssertsListed<T>(rules: seq<Rule<T>>, ty: T, op: Op, yes: Side, no: Side)
    ensures !Listed(rules, ty) ==> Asserts(rules, ty, op, yes, no) == Ok(no)
    ensures Listed(rules, ty) ==> Asserts(rules, ty, op, yes, no) != Ok(no) || yes == no
    ensures Listed(rules, ty) ==> Asserts(rules, ty, op, yes, no).Err? || Asserts(rules, ty, op, yes, no) == Ok(yes)
  {
    if rules != [] && rules[0].ty != ty {
      AssertsListed(rules[1..], ty, op, yes, no);
    }
  }

  /** Every operation the scope routes goes to the channel `hasType` asks about its type. */
  lemma RouteAgreesWithCtx<T>(mode: Mode<T>, ty: T, op: Op)
    ensures Route(mode, ty, op).Ok? ==> Route(mode, ty, op).value == CtxOf(mode, ty)
    ensures Route(mode, ty, op).Err? ==> !mode.Plain? && Listed(mode.rules, ty)
  {
    match mode
    case Plain =>
    case Include(rs) => AssertsListed(rs, ty, op, Main, Sub);
    case Exclude(rs) => AssertsListed(rs, ty, op, Sub, Main);
  }

  const NoTypes := "At least one event type is required"

  /** The routes of the leading `types` the router lets through: `off` stops at the first it refuses. */
  function OkPrefix<T(==)>(mode: Mode<T>, types: seq<T>): (k: nat)
    ensures k <= |types|
    ensures forall j :: 0 <= j < k ==> Route(mode, types[j], OffOp).Ok?
    ensures k < |types| ==> Route(mode, types[k], OffOp).Err?
  {
    if types == [] || Route(mode, types[0], OffOp).Err? then 0
    else
      var k := 1 + OkPrefix(mode, types[1..]);
      assert forall j :: 1 <= j < |types| ==> types[j] == types[1..][j - 1];
      k
  }

  /** The types of `types` that `off` sends to the channel on side `s`, in order. */
  function SideTypes<T(==)>(mode: Mode<T>, types: seq<T>, s: Side): seq<T>
    decreases |types|
  {
    if types == [] then []
    else
      var front, t := types[..|types| - 1], types[|types| - 1];
      SideTypes(mode, front, s) + if Route(mode, t, OffOp) == Ok(s) then [t] else []
  }

  /**
   * The ids `off(...types)` through the scope returns for one kind of item:
   * type by type, the ids of the items of that type left on the channel
   * the type is sent to.
   */
  function OffIds<T(==), V>(mode: Mode<T>, mainId: nat, subId: nat, mainEs: seq<Entry<T, V>>, subEs: seq<Entry<T, V>>,
                            types: seq<T>): seq<ProcessId>
    decreases |types|
  {
    if types == [] then []
    else
      var front, t := types[..|types| - 1], types[|types| - 1];
      OffIds(mode, mainId, subId, mainEs, subEs, front) +
      match Route(mode, t, OffOp)
      case Ok(Main) => Pids(mainId, OfType(WithoutTypes(mainEs, SideTypes(mode, front, Main)), t))
      case Ok(Sub) => Pids(subId, OfType(WithoutTypes(subEs, SideTypes(mode, front, Sub)), t))
      case Err(_) => []
  }

  lemma PidsConcat<T, V>(ch: nat, a: seq<Entry<T, V>>, b: seq<Entry<T, V>>)
    ensures Pids(ch, a + b) == Pids(ch, a) + Pids(ch, b)
  {
    assert forall i :: 0 <= i < |b| ==> (a + b)[|a| + i] == b[i];
  }

  /** `off` stops at the first type the router refuses: that is where the leading accepted types end. */
  lemma OkPrefixIs<T>(mode: Mode<T>, types: seq<T>, i: nat)
    requires i <= |types| && forall j :: 0 <= j < i ==> Route(mode, types[j], OffOp).Ok?
    requires i < |types| ==> Route(mode, types[i], OffOp).Err?
    ensures OkPrefix(mode, types) == i
  {
  }

  lemma WithoutTypesSnoc<T, V>(es: seq<Entry<T, V>>, types: seq<T>, t: T)
    ensures WithoutTypes(es, types + [t]) == WithoutType(WithoutTypes(es, types), t)
  {
    assert (types + [t])[..|types|] == types;
  }

  /**
   * The scope's `off` over one more type, which goes to side `s`: the type
   * joins the types of that side, and the ids of its items left there
   * follow.
   */
  lemma OffStep<T, V>(mode: Mode<T>, mainId: nat, subId: nat, mainEs: seq<Entry<T, V>>, subEs: seq<Entry<T, V>>, types: seq<T>, i: nat,
                      s: Side)
    requires i < |types| && Route(mode, types[i], OffOp) == Ok(s)
    ensures SideTypes(mode, types[..i + 1], s) == SideTypes(mode, types[..i], s) + [types[i]]
    ensures SideTypes(mode, types[..i + 1], if s == Main then Sub else Main) == SideTypes(mode, types[..i], if s == Main then Sub else Main)
    ensures OffIds(mode, mainId, subId, mainEs, subEs, types[..i + 1]) ==
              OffIds(mode, mainId, subId, mainEs, subEs, types[..i]) +
              Pids(if s == Main then mainId else subId,
                   OfType(WithoutTypes(if s == Main then mainEs else subEs, SideTypes(mode, types[..i], s)), types[i]))
  {
    assert types[..i + 1][..i] == types[..i];
  }

  /** Without a list every type of `off` goes to `ctx`. */
  lemma {:induction false} PlainSides<T>(types: seq<T>)
    ensures SideTypes(Plain, types, Main) == types && SideTypes(Plain, types, Sub) == []
    decreases |types|
  {
    if types != [] {
      var front, t := types[..|types| - 1], types[|types| - 1];
      PlainSides(front);
      assert Route(Plain, t, OffOp) == Ok(Main);
      assert SideTypes(Plain, types, Main) == SideTypes(Plain, front, Main) + [t];
      assert SideTypes(Plain, types, Sub) == SideTypes(Plain, front, Sub);
      assert front + [t] == types;
    }
  }

  /** Without a list the scope's `off` returns what the channel's `#off` does. */
  lemma {:induction false} PlainOff<T, V>(mainId: nat, subId: nat, mainEs: seq<Entry<T, V>>, subEs: seq<Entry<T, V>>, types: seq<T>)
    ensures OffIds(Plain, mainId, subId, mainEs, subEs, types) == Pids(mainId, OffRemoved(mainEs, types))
    decreases |types|
  {
    if types != [] {
      var front, t := types[..|types| - 1], types[|types| - 1];
      PlainOff(mainId, subId, mainEs, subEs, front);
      PlainSides(front);
      var step := OfType(WithoutTypes(mainEs, front), t);
      assert OffIds(Plain, mainId, subId, mainEs, subEs, types) == OffIds(Plain, mainId, subId, mainEs, subEs, front) + Pids(mainId, step);
      assert OffRemoved(mainEs, types) == OffRemoved(mainEs, front) + step;
      PidsConcat(mainId, OffRemoved(mainEs, front), step);
    }
  }

  /** `off` of one type is `#off` of that type. */
  lemma OffOne<T, V>(es: seq<Entry<T, V>>, t: T)
    ensures WithoutTypes(es, [t]) == WithoutType(es, t) && OffRemoved(es, [t]) == OfType(es, t)
  {
    assert [t][..0] == [];
  }

  /**
   * The `cancel` of a run the scope handed out, with the side of the
   * channel that made it; `watch(cb)` without a type watches `ctx` and,
   * when there is one, `_ctx`, and its cancel closes both.
   */
  datatype CancelFn<T, C, R> =
    | ListenCancel(side: Side, listen: ListenRun<T, C>)
    | EmitCancel(side: Side, emit: EmitRun<T, R>)
    | WatchCancel(side: Side, key: nat)
    | WatchAllCancel(key: nat, subKey: Option<nat>)

  /** An entry `runs.set(run.id, run.cancel)` of the `runs` map, which keeps insertion order. */
  datatype Recorded<T, C, R> = Recorded(id: ProcessId, cancel: CancelFn<T, C, R>)

  ghost predicate DistinctRuns<T, C, R>(runs: seq<Recorded<T, C, R>>)
  {
    forall i, j :: 0 <= i < j < |runs| ==> runs[i].id != runs[j].id
  }

  /**
   * `recordRun`, that is `runs.set(id, cancel)`: a new key goes last; a key
   * already there keeps its place and takes the new cancel.
   */
  function SetRun<T, C, R>(runs: seq<Recorded<T, C, R>>, id: ProcessId, c: CancelFn<T, C, R>): (r: seq<Recorded<T, C, R>>)
    requires DistinctRuns(runs)
    ensures DistinctRuns(r)
    ensures (forall i :: 0 <= i < |runs| ==> runs[i].id != id) ==> r == runs + [Recorded(id, c)]
    ensures forall i :: 0 <= i < |runs| && runs[i].id == id ==>
              |r| == |runs| && r[i] == Recorded(id, c) && forall j :: 0 <= j < |runs| && j != i ==> r[j] == runs[j]
  {
    if runs == [] then [Recorded(id, c)]
    else if runs[0].id == id then [Recorded(id, c)] + runs[1..]
    else
      var rest := SetRun(runs[1..], id, c);
      SetRunCons(runs, id, c, rest);
      [runs[0]] + rest
  }

  /** `SetRun` past a first entry of another key: that entry stays in front of the rest's result. */
  lemma SetRunCons<T, C, R>(runs: seq<Recorded<T, C, R>>, id: ProcessId, c: CancelFn<T, C, R>, rest: seq<Recorded<T, C, R>>)
    requires DistinctRuns(runs) && runs != [] && runs[0].id != id && DistinctRuns(rest)
    requires (forall i :: 0 <= i < |runs[1..]| ==> runs[1..][i].id != id) ==> rest == runs[1..] + [Recorded(id, c)]
    requires forall i :: 0 <= i < |runs[1..]| && runs[1..][i].id == id ==>
               |rest| == |runs[1..]| && rest[i] == Recorded(id, c) && forall j :: 0 <= j < |runs[1..]| && j != i ==> rest[j] == runs[1..][j]
    ensures DistinctRuns([runs[0]] + rest)
    ensures (forall i :: 0 <= i < |runs| ==> runs[i].id != id) ==> [runs[0]] + rest == runs + [Recorded(id, c)]
    ensures forall i :: 0 <= i < |runs| && runs[i].id == id ==>
              |[runs[0]] + rest| == |runs| && ([runs[0]] + rest)[i] == Recorded(id, c) &&
              forall j :: 0 <= j < |runs| && j != i ==> ([runs[0]] + rest)[j] == runs[j]
  {
    var tl, r := runs[1..], [runs[0]] + rest;
    assert forall i :: 1 <= i < |runs| ==> runs[i] == tl[i - 1];
    assert forall i :: 1 <= i <= |rest| ==> r[i] == rest[i - 1];
    if forall i :: 0 <= i < |tl| ==> tl[i].id != id {
      assert rest == tl + [Recorded(id, c)];
      assert r == runs + [Recorded(id, c)];
    } else {
      var k :| 0 <= k < |tl| && tl[k].id == id;
      forall i | 0 <= i < |runs| && runs[i].id == id
        ensures |r| == |runs| && r[i] == Recorded(id, c) && forall j :: 0 <= j < |runs| && j != i ==> r[j] == runs[j]
      {
        assert i == k + 1;
      }
      forall i, j | 0 <= i < j < |r| ensures r[i].id != r[j].id {
        if i == 0 {
          assert j - 1 == k || rest[j - 1] == tl[j - 1];
        }
      }
    }
  }

  /** Whether calling `c` needs `_ctx`. */
  function SubUsed<T, C, R>(c: CancelFn<T, C, R>): bool
  {
    match c
    case WatchAllCancel(_, sk) => sk.Some?
    case _ => c.side == Sub
  }

  /**
   * A recorded cancel can be called on the channel of side `s`, of id `id`,
   * that has made the items `known`: a listen run is one that channel made,
   * an emit run carries its id.
   */
  ghost predicate CancelOk<T, C, R>(c: CancelFn<T, C, R>, s: Side, id: nat, known: map<nat, Listener<T, C>>)
  {
    match c
    case ListenCancel(side, run) => side == s ==> run.id == ProcessId(id, run.item.id) && run.item.id in known && known[run.item.id] == run.item
    case EmitCancel(side, run) => side == s ==> run.id.channel == id
    case WatchCancel(_, _) => true
    case WatchAllCancel(_, _) => true
  }

  /** Every recorded cancel can be called on the channel of side `s`. */
  ghost predicate RunsOk<T, C, R>(runs: seq<Recorded<T, C, R>>, s: Side, id: nat, known: map<nat, Listener<T, C>>)
  {
    forall i :: 0 <= i < |runs| ==> CancelOk(runs[i].cancel, s, id, known)
  }

  /** A channel that makes a new item keeps every earlier cancel callable. */
  lemma RunsOkGrow<T, C, R>(runs: seq<Recorded<T, C, R>>, s: Side, id: nat, known: map<nat, Listener<T, C>>, n: nat, x: Listener<T, C>)
    requires RunsOk(runs, s, id, known) && n !in known
    ensures RunsOk(runs, s, id, known[n := x])
  {
    forall i | 0 <= i < |runs| ensures CancelOk(runs[i].cancel, s, id, known[n := x]) {
      assert CancelOk(runs[i].cancel, s, id, known);
    }
  }

  /** Recording a callable cancel keeps every recorded cancel callable. */
  lemma RunsOkSet<T, C, R>(runs: seq<Recorded<T, C, R>>, s: Side, id: nat, known: map<nat, Listener<T, C>>, rid: ProcessId, c: CancelFn<T, C, R>)
    requires DistinctRuns(runs) && RunsOk(runs, s, id, known) && CancelOk(c, s, id, known)
    ensures RunsOk(SetRun(runs, rid, c), s, id, known)
  {
    var r := SetRun(runs, rid, c);
    if forall i :: 0 <= i < |runs| ==> runs[i].id != rid {
      assert r == runs + [Recorded(rid, c)];
    } else {
      var k :| 0 <= k < |runs| && runs[k].id == rid;
      assert |r| == |runs| && forall j :: 0 <= j < |runs| ==> r[j] == if j == k then Recorded(rid, c) else runs[j];
    }
  }

  /** Recording a cancel that does not need `_ctx` where none does keeps it so. */
  lemma MainOnlySet<T, C, R>(runs: seq<Recorded<T, C, R>>, rid: ProcessId, c: CancelFn<T, C, R>)
    requires DistinctRuns(runs) && !SubUsed(c) && forall i :: 0 <= i < |runs| ==> !SubUsed(runs[i].cancel)
    ensures forall i :: 0 <= i < |SetRun(runs, rid, c)| ==> !SubUsed(SetRun(runs, rid, c)[i].cancel)
  {
    var r := SetRun(runs, rid, c);
    if forall i :: 0 <= i < |runs| ==> runs[i].id != rid {
      assert r == runs + [Recorded(rid, c)];
    } else {
      var k :| 0 <= k < |runs| && runs[k].id == rid;
      assert |r| == |runs| && forall j :: 0 <= j < |runs| ==> r[j] == if j == k then Recorded(rid, c) else runs[j];
    }
  }

  /** The record of a scope: ids distinct, every cancel callable on both sides, none needing an absent `_ctx`. */
  ghost predicate RunsFit<T, C, R>(runs: seq<Recorded<T, C, R>>, mainId: nat, mainKnown: map<nat, Listener<T, C>>,
                                   hasSub: bool, subId: nat, subKnown: map<nat, Listener<T, C>>)
  {
    DistinctRuns(runs) && RunsOk(runs, Main, mainId, mainKnown) &&
    (hasSub ==> RunsOk(runs, Sub, subId, subKnown)) &&
    (!hasSub ==> forall i :: 0 <= i < |runs| ==> !SubUsed(runs[i].cancel))
  }

  /** Recording a cancel callable on both sides keeps the record fit. */
  lemma Record<T, C, R>(runs: seq<Recorded<T, C, R>>, rid: ProcessId, c: CancelFn<T, C, R>,
                        mainId: nat, mainKnown: map<nat, Listener<T, C>>, hasSub: bool, subId: nat, subKnown: map<nat, Listener<T, C>>)
    requires RunsFit(runs, mainId, mainKnown, hasSub, subId, subKnown)
    requires CancelOk(c, Main, mainId, mainKnown) && (hasSub ==> CancelOk(c, Sub, subId, subKnown)) && (!hasSub ==> !SubUsed(c))
    ensures RunsFit(SetRun(runs, rid, c), mainId, mainKnown, hasSub, subId, subKnown)
  {
    RunsOkSet(runs, Main, mainId, mainKnown, rid, c);
    if hasSub {
      RunsOkSet(runs, Sub, subId, subKnown, rid, c);
    } else {
      MainOnlySet(runs, rid, c);
    }
  }

  /**
   * What `on(type, cb)` (or `once`) did to the channel of id `ch` it went
   * to: it made the listener of id `n`, after removing those of the type
   * first when `isOnOnce` holds (`onOnce`); `ls0` and `ls` are its
   * listeners before and after.
   */
  ghost predicate Listened<T, C>(ch: nat, onOnce: bool, ls0: seq<Listener<T, C>>, ls: seq<Listener<T, C>>, n: nat,
                                     ty: T, cb: C, once: bool, run: ListenRun<T, C>)
  {
    run == ListenRun(ProcessId(ch, n), Entry(n, ty, Handler(cb, once))) &&
    ls == (if onOnce then WithoutType(ls0, ty) else ls0) + [run.item]
  }

  /** Two channels share no object and have different ids. */
  ghost predicate Apart<T, C, P, R>(a: AsyncEventChannel<T, C, P, R>, b: AsyncEventChannel<T, C, P, R>)
  {
    a != b && a.id != b.id && a.listeners as object != b.listeners && a.listeners as object != b.cache &&
    a.cache as object != b.listeners && a.cache as object != b.cache
  }

  /** What `hasId` finds on a channel: a stored listener, a cached emit or a live watch of that channel. */
  ghost predicate Stored<T, C, P, R>(ch: AsyncEventChannel<T, C, P, R>, pid: ProcessId)
    reads ch, ch.listeners, ch.cache
  {
    pid.channel == ch.id && (pid.n in Ids(ch.listeners.elems) || pid.n in Ids(ch.cache.elems) || pid.n in LiveKeys(ch.watches))
  }
}
