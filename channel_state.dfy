/**
 * The state invariants of the TypeScript channel's two watched sets, stated
 * on values so that the methods of `Channel` can keep them.
 */
module ChannelState {
  import opened Wrappers
  import opened WatchedSets
  import opened Registry

  /** What a cached emit's delivery watcher closes over: the emit's number and its parameters. */
  datatype Pending<P> = Pending(emit: nat, params: P)

  type Listener<T, C> = Entry<T, Handler<C>>


  /** A delivery watcher of emit `n`: `watch_add_one(type, ...)` keyed by the emit. */
  predicate DeliveryWatcher<T, P>(w: Watcher<T, Pending<P>>)
  {
    w.one && w.filter.Some? && w.key == w.tag.emit
  }

  /**
   * The listener set: distinct ids, every item is the one made under its id,
   * every item has exactly its own guard, and the add watchers are delivery
   * watchers of emits already made.
   */
  ghost predicate ListenerInv<T, C, P>(es: seq<Listener<T, C>>, dws: seq<Watcher<T, T>>, aws: seq<Watcher<T, Pending<P>>>,
                                       known: map<nat, Listener<T, C>>, counter: nat)
  {
    DistinctIds(es) &&
    (forall i :: 0 <= i < |es| ==> es[i].id in known && known[es[i].id] == es[i]) &&
    (forall n :: n in known ==> n <= counter) &&
    dws == Guards(es) &&
    (forall i :: 0 <= i < |aws| ==> DeliveryWatcher(aws[i]) && aws[i].key <= counter)
  }

  /** The emit cache: distinct ids, no add watchers, every cached emit guarded. */
  ghost predicate CacheInv<T, P>(es: seq<Entry<T, P>>, dws: seq<Watcher<T, T>>, aws: seq<Watcher<T, ()>>, counter: nat)
  {
    DistinctIds(es) &&
    aws == [] &&
    GuardsFor(es, dws) &&
    (forall i :: 0 <= i < |dws| ==> dws[i].key <= counter)
  }

  /** Deleting a stored listener fires its own guard, which reports the deletion once. */
  lemma DeleteWithGuardOf<I, T, C, P>(es: seq<Listener<T, C>>, dws: seq<Watcher<T, T>>, aws: seq<Watcher<T, Pending<P>>>,
                                      known: map<nat, Listener<T, C>>, counter: nat, n: nat, pid: I)
    requires ListenerInv(es, dws, aws, known, counter) && n in Ids(es)
    ensures SelfNotes(Fired(dws, Lookup(es, n).ty), n, pid, OnEvent, Delete) == [Note(Some(pid), OnEvent, Delete, Lookup(es, n).ty)]
    ensures n in Keys(Fired(dws, Lookup(es, n).ty))
    ensures Kept(dws, Lookup(es, n).ty) == dws
  {
    GuardsForExact(es);
    DeleteWithGuard(es, dws, n, pid, OnEvent);
  }

  lemma ListenerInvDelete<T, C, P>(es: seq<Listener<T, C>>, dws: seq<Watcher<T, T>>, aws: seq<Watcher<T, Pending<P>>>,
                                   known: map<nat, Listener<T, C>>, counter: nat, n: nat,
                                   es': seq<Listener<T, C>>, dws': seq<Watcher<T, T>>, aws': seq<Watcher<T, Pending<P>>>,
                                   known': map<nat, Listener<T, C>>, counter': nat)
    requires ListenerInv(es, dws, aws, known, counter)
    requires es' == Without(es, n) && dws' == WithoutKey(dws, n) && aws' == aws && known' == known && counter' == counter
    ensures ListenerInv(es', dws', aws', known', counter')
  {
    GuardsWithout(es, n);
    WithoutSub(es, n);
    SubDistinctIds(es', es);
    forall i | 0 <= i < |es'| ensures es'[i].id in known && known[es'[i].id] == es'[i] {
      SubMember(es', es, i);
    }
  }

  /** Deleting a cached emit fires its own guard, which reports the deletion once and stays registered. */
  lemma CacheDeleteWithGuard<I, T, P>(es: seq<Entry<T, P>>, dws: seq<Watcher<T, T>>, aws: seq<Watcher<T, ()>>, counter: nat, n: nat, pid: I)
    requires CacheInv(es, dws, aws, counter) && n in Ids(es)
    ensures SelfNotes(Fired(dws, Lookup(es, n).ty), n, pid, EmitEvent, Delete) == [Note(Some(pid), EmitEvent, Delete, Lookup(es, n).ty)]
    ensures n in Keys(Fired(dws, Lookup(es, n).ty))
    ensures Kept(dws, Lookup(es, n).ty) == dws
  {
    DeleteWithGuard(es, dws, n, pid, EmitEvent);
  }

  lemma CacheInvDelete<T, P>(es: seq<Entry<T, P>>, dws: seq<Watcher<T, T>>, aws: seq<Watcher<T, ()>>, counter: nat, n: nat,
                             es': seq<Entry<T, P>>, dws': seq<Watcher<T, T>>, aws': seq<Watcher<T, ()>>, counter': nat)
    requires CacheInv(es, dws, aws, counter)
    requires es' == Without(es, n) && dws' == WithoutKey(dws, n) && aws' == aws && counter' == counter
    ensures CacheInv(es', dws', aws', counter')
  {
    GuardsForDelete(es, dws, n);
    WithoutSub(es, n);
    SubDistinctIds(es', es);
    WithoutKeySub(dws, n);
    forall i | 0 <= i < |dws'| ensures dws'[i].key <= counter {
      SubMember(dws', dws, i);
    }
  }

  /** The microtasks that the delivery watchers `fired` queue when listener `l` is added. */
  function Deliveries<T, C, P>(fired: seq<Watcher<T, Pending<P>>>, l: Listener<T, C>): (r: seq<Delivery<T, C, P>>)
    ensures |r| == |fired|
    ensures forall i :: 0 <= i < |fired| ==> r[i] == Delivery(fired[i].tag.emit, l.ty, fired[i].tag.params, l)
  {
    seq(|fired|, i requires 0 <= i < |fired| => Delivery(fired[i].tag.emit, l.ty, fired[i].tag.params, l))
  }

  /** Every queued delivery goes to a listener item this channel made. */
  ghost predicate PendingInv<T, C, P>(pending: seq<Delivery<T, C, P>>, known: map<nat, Listener<T, C>>)
  {
    forall i :: 0 <= i < |pending| ==>
      pending[i].listener.id in known && known[pending[i].listener.id] == pending[i].listener
  }

  /** Every watch callback has an id already made. */
  ghost predicate WatchInv<T>(ws: seq<WatchRec<T>>, counter: nat)
  {
    forall i :: 0 <= i < |ws| ==> ws[i].key <= counter
  }

  /** Neither an item nor a watcher of a set uses id `n`. */
  ghost predicate FreshIn<T, V, B>(es: seq<Entry<T, V>>, ws: seq<Watcher<T, B>>, n: nat)
  {
    n !in Ids(es) && n !in Keys(ws)
  }

  /** A stored listener is the item made under its id. */
  lemma KnownLookup<T, C, P>(es: seq<Listener<T, C>>, dws: seq<Watcher<T, T>>, aws: seq<Watcher<T, Pending<P>>>,
                             known: map<nat, Listener<T, C>>, counter: nat, n: nat)
    requires ListenerInv(es, dws, aws, known, counter) && n in known && n in Ids(es)
    ensures Lookup(es, n) == known[n]
  {
    var e := Lookup(es, n);
    var i :| 0 <= i < |es| && es[i] == e;
  }

  /** The next id is used by no listener and no watcher yet. */
  lemma ListenerFresh<T, C, P>(es: seq<Listener<T, C>>, dws: seq<Watcher<T, T>>, aws: seq<Watcher<T, Pending<P>>>,
                               known: map<nat, Listener<T, C>>, counter: nat)
    requires ListenerInv(es, dws, aws, known, counter)
    ensures FreshIn(es, dws, counter + 1) && counter + 1 !in known
  {
    forall i | 0 <= i < |es| ensures Ids(es)[i] != counter + 1 {
      assert es[i].id in known;
    }
    forall i | 0 <= i < |dws| ensures Keys(dws)[i] != counter + 1 {
      assert dws[i] == Guard(es[i]) && es[i].id in known;
    }
  }

  /** The next id is used by no cached emit and no guard yet. */
  lemma CacheFresh<T, P>(es: seq<Entry<T, P>>, dws: seq<Watcher<T, T>>, counter: nat)
    requires CacheInv(es, dws, [], counter)
    ensures FreshIn(es, dws, counter + 1)
  {
    forall i | 0 <= i < |es| ensures Ids(es)[i] != counter + 1 {
      assert Guard(es[i]) in dws;
    }
    forall i | 0 <= i < |dws| ensures Keys(dws)[i] != counter + 1 {
    }
  }

  /** Taking a new id keeps both invariants. */
  lemma InvGrow<T, C, P, Q>(es: seq<Listener<T, C>>, dws: seq<Watcher<T, T>>, aws: seq<Watcher<T, Pending<P>>>,
                            known: map<nat, Listener<T, C>>, ces: seq<Entry<T, Q>>, cdws: seq<Watcher<T, T>>,
                            ws: seq<WatchRec<T>>, counter: nat, counter': nat)
    requires ListenerInv(es, dws, aws, known, counter) && CacheInv(ces, cdws, [], counter) && WatchInv(ws, counter)
    requires counter <= counter'
    ensures ListenerInv(es, dws, aws, known, counter') && CacheInv(ces, cdws, [], counter') && WatchInv(ws, counter')
  {
  }

  /**
   * `#listener.add(item)` of a fresh listener followed by its guard: the
   * item is stored, the delivery watchers that ran are gone, and
   * the deliveries they queued go to the new item.
   */
  lemma ListenerInvAdd<T, C, P>(es: seq<Listener<T, C>>, dws: seq<Watcher<T, T>>, aws: seq<Watcher<T, Pending<P>>>,
                                known: map<nat, Listener<T, C>>, counter: nat, e: Listener<T, C>,
                                pending: seq<Delivery<T, C, P>>,
                                es': seq<Listener<T, C>>, dws': seq<Watcher<T, T>>, aws': seq<Watcher<T, Pending<P>>>,
                                known': map<nat, Listener<T, C>>, counter': nat, pending': seq<Delivery<T, C, P>>)
    requires ListenerInv(es, dws, aws, known, counter) && PendingInv(pending, known)
    requires e.id == counter + 1 && counter' == e.id
    requires es' == es + [e] && dws' == dws + [Guard(e)] && aws' == Kept(aws, e.ty) && known' == known[e.id := e]
    requires pending' == pending + Deliveries(Fired(aws, e.ty), e)
    ensures ListenerInv(es', dws', aws', known', counter') && PendingInv(pending', known')
  {
    ListenerFresh(es, dws, aws, known, counter);
    forall i, j | 0 <= i < j < |es'| ensures es'[i].id != es'[j].id {
      if j == |es| { assert es[i].id in known; }
    }
    KeptSub(aws, e.ty);
    forall i | 0 <= i < |aws'| ensures DeliveryWatcher(aws'[i]) && aws'[i].key <= counter' {
      SubMember(aws', aws, i);
    }
    assert dws' == Guards(es') by {
      assert es'[..|es'| - 1] == es;
    }
    var added := Deliveries(Fired(aws, e.ty), e);
    forall i | 0 <= i < |pending'| ensures pending'[i].listener.id in known' && known'[pending'[i].listener.id] == pending'[i].listener {
      if i < |pending| {
        assert pending'[i] == pending[i];
      } else {
        assert pending'[i] == added[i - |pending|];
      }
    }
  }

  /** `#listener.watch_add_one(type, ...)` of a cached emit's delivery watcher. */
  lemma ListenerInvWatch<T, C, P>(es: seq<Listener<T, C>>, dws: seq<Watcher<T, T>>, aws: seq<Watcher<T, Pending<P>>>,
                                  known: map<nat, Listener<T, C>>, counter: nat, w: Watcher<T, Pending<P>>,
                                  es': seq<Listener<T, C>>, dws': seq<Watcher<T, T>>, aws': seq<Watcher<T, Pending<P>>>,
                                  known': map<nat, Listener<T, C>>, counter': nat)
    requires ListenerInv(es, dws, aws, known, counter) && DeliveryWatcher(w) && w.key <= counter
    requires es' == es && dws' == dws && aws' == aws + [w] && known' == known && counter' == counter
    ensures ListenerInv(es', dws', aws', known', counter')
  {
  }

  /** Unwatching a delivery watcher. */
  lemma ListenerInvUnwatch<T, C, P>(es: seq<Listener<T, C>>, dws: seq<Watcher<T, T>>, aws: seq<Watcher<T, Pending<P>>>,
                                    known: map<nat, Listener<T, C>>, counter: nat, n: nat,
                                    es': seq<Listener<T, C>>, dws': seq<Watcher<T, T>>, aws': seq<Watcher<T, Pending<P>>>,
                                    known': map<nat, Listener<T, C>>, counter': nat)
    requires ListenerInv(es, dws, aws, known, counter)
    requires es' == es && dws' == dws && aws' == WithoutKey(aws, n) && known' == known && counter' == counter
    ensures ListenerInv(es', dws', aws', known', counter')
  {
    WithoutKeySub(aws, n);
    forall i | 0 <= i < |aws'| ensures DeliveryWatcher(aws'[i]) && aws'[i].key <= counter {
      SubMember(aws', aws, i);
    }
  }

  /** Registering the guard of emit `e`, and storing `e` itself when it is cached. */
  lemma CacheInvRegister<T, P>(es: seq<Entry<T, P>>, dws: seq<Watcher<T, T>>, counter: nat, e: Entry<T, P>, stored: bool,
                               es': seq<Entry<T, P>>, dws': seq<Watcher<T, T>>, counter': nat)
    requires CacheInv(es, dws, [], counter) && FreshIn(es, dws, e.id) && e.id <= counter
    requires es' == es + (if stored then [e] else []) && dws' == dws + [Guard(e)] && counter' == counter
    ensures CacheInv(es', dws', [], counter')
  {
    GuardsForAdd(es, dws, e, stored);
    if stored {
      forall i, j | 0 <= i < j < |es'| ensures es'[i].id != es'[j].id {
        if j == |es| { assert Ids(es)[i] == es[i].id; }
      }
    }
  }

  /** Deleting an item and unwatching a key keep a fresh id fresh. */
  lemma FreshAfterDelete<T, V, B>(es: seq<Entry<T, V>>, ws: seq<Watcher<T, B>>, id: nat, n: nat)
    requires FreshIn(es, ws, n)
    ensures FreshIn(Without(es, id), WithoutKey(ws, id), n)
  {
    var es', ws' := Without(es, id), WithoutKey(ws, id);
    WithoutSub(es, id);
    WithoutKeySub(ws, id);
    forall i | 0 <= i < |es'| ensures Ids(es')[i] != n {
      SubMember(es', es, i);
      var j :| 0 <= j < |es| && es[j] == es'[i];
      assert Ids(es)[j] == es[j].id;
    }
    forall i | 0 <= i < |ws'| ensures Keys(ws')[i] != n {
      SubMember(ws', ws, i);
      var j :| 0 <= j < |ws| && ws[j] == ws'[i];
      assert Keys(ws)[j] == ws[j].key;
    }
  }

  /** No delivery watcher uses the next id yet. */
  lemma DeliveryKeyFresh<T, C, P>(es: seq<Listener<T, C>>, dws: seq<Watcher<T, T>>, aws: seq<Watcher<T, Pending<P>>>,
                                  known: map<nat, Listener<T, C>>, counter: nat)
    requires ListenerInv(es, dws, aws, known, counter)
    ensures counter + 1 !in Keys(aws)
  {
    forall i | 0 <= i < |aws| ensures Keys(aws)[i] != counter + 1 {
      assert aws[i].key <= counter;
    }
  }
}
