/**
 * `importParamSsort(datas)` of src/index.ts: the items handed to `import`
 * are put in the order of the counter part of their ids — `"<channel>:<n>"`
 * sorts by `n`, an item without an id counts as `0` — with
 * `Array.prototype.sort`, which is stable, so items with the same counter
 * keep their order.
 */
module ImportSort {
  import opened Wrappers
  import opened Channel

  /** A `CurrentDataItem` reduced to its optional id; `data` stands for `event`, `type` and `value`. */
  datatype Item<X> = Item(id: Option<ProcessId>, data: X)

  /** `a.id ? a.id.split(':')[1] : '0'`, read as a number. */
  function Key<X>(x: Item<X>): nat
  {
    if x.id.Some? then x.id.value.n else 0
  }

  /** The comparator `(a, b) => +_a - +_b`. */
  function Compare<X>(a: Item<X>, b: Item<X>): (d: int)
    ensures d < 0 <==> Key(a) < Key(b)
    ensures d == 0 <==> Key(a) == Key(b)
  {
    Key(a) - Key(b)
  }

  ghost predicate SortedByKey<X>(s: seq<Item<X>>)
  {
    forall i, j :: 0 <= i < j < |s| ==> Key(s[i]) <= Key(s[j])
  }

  /** The items of `s` whose counter is `k`, in their order in `s`. */
  function WithKey<X>(s: seq<Item<X>>, k: nat): seq<Item<X>>
  {
    if s == [] then [] else (if Key(s[0]) == k then [s[0]] else []) + WithKey(s[1..], k)
  }

  /** `x` put in front of the first item of `s` whose counter is not below its own. */
  function Insert<X>(x: Item<X>, s: seq<Item<X>>): seq<Item<X>>
  {
    if s == [] || Compare(x, s[0]) <= 0 then [x] + s else [s[0]] + Insert(x, s[1..])
  }

  /** `importParamSsort(datas)`: the order `datas` has after the call. */
  function ImportOrder<X>(ds: seq<Item<X>>): seq<Item<X>>
  {
    if ds == [] then [] else Insert(ds[0], ImportOrder(ds[1..]))
  }

  lemma {:induction false} InsertSorted<X>(x: Item<X>, s: seq<Item<X>>)
    requires SortedByKey(s)
    ensures SortedByKey(Insert(x, s))
    ensures Insert(x, s) != [] && (Key(Insert(x, s)[0]) == Key(x) || (s != [] && Key(Insert(x, s)[0]) == Key(s[0])))
    decreases |s|
  {
    if s != [] && Compare(x, s[0]) > 0 {
      InsertSorted(x, s[1..]);
      var r := Insert(x, s[1..]);
      assert Key(s[0]) <= Key(r[0]);
      assert forall j :: 0 <= j < |r| ==> Key(r[0]) <= Key(r[j]);
    }
  }

  lemma {:induction false} InsertPerm<X>(x: Item<X>, s: seq<Item<X>>)
    ensures multiset(Insert(x, s)) == multiset(s) + multiset{x}
    decreases |s|
  {
    if s != [] && Compare(x, s[0]) > 0 {
      InsertPerm(x, s[1..]);
      assert s == [s[0]] + s[1..];
    }
  }

  /** Putting `x` in place keeps every counter's items in order, `x` going before those with its own counter. */
  lemma {:induction false} InsertWithKey<X>(x: Item<X>, s: seq<Item<X>>, k: nat)
    ensures WithKey(Insert(x, s), k) == (if Key(x) == k then [x] else []) + WithKey(s, k)
    decreases |s|
  {
    if s == [] || Compare(x, s[0]) <= 0 {
      assert ([x] + s)[1..] == s;
      assert WithKey([x] + s, k) == (if Key(x) == k then [x] else []) + WithKey(s, k);
    } else {
      var r := Insert(x, s[1..]);
      InsertWithKey(x, s[1..], k);
      assert ([s[0]] + r)[1..] == r;
      assert WithKey([s[0]] + r, k) == (if Key(s[0]) == k then [s[0]] else []) + WithKey(r, k);
      assert WithKey(s, k) == (if Key(s[0]) == k then [s[0]] else []) + WithKey(s[1..], k);
      assert Key(s[0]) < Key(x);
    }
  }

  /** After the sort the counters go up. */
  lemma {:induction false} ImportOrderSorted<X>(ds: seq<Item<X>>)
    ensures SortedByKey(ImportOrder(ds))
    ensures multiset(ImportOrder(ds)) == multiset(ds)
  {
    if ds != [] {
      ImportOrderSorted(ds[1..]);
      InsertSorted(ds[0], ImportOrder(ds[1..]));
      InsertPerm(ds[0], ImportOrder(ds[1..]));
      assert ds == [ds[0]] + ds[1..];
    }
  }

  /** The sort is stable: the items with any one counter keep the order they had. */
  lemma {:induction false} ImportOrderStable<X>(ds: seq<Item<X>>, k: nat)
    ensures WithKey(ImportOrder(ds), k) == WithKey(ds, k)
  {
    if ds != [] {
      ImportOrderStable(ds[1..], k);
      InsertWithKey(ds[0], ImportOrder(ds[1..]), k);
    }
  }
}
