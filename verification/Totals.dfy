/** Sums over dictionaries built by `d[key] += amount`. */
module Totals {
  datatype Item<K> = Item(key: K, amount: real)

  function SumOf<K>(items: seq<Item<K>>): real {
    if items == [] then 0.0 else SumOf(items[..|items| - 1]) + items[|items| - 1].amount
  }

  /** `defaultdict` addition. */
  function Add<K(==)>(m: map<K, real>, k: K, x: real): map<K, real> {
    m[k := (if k in m then m[k] else 0.0) + x]
  }

  function Grouped<K(==)>(items: seq<Item<K>>): map<K, real> {
    if items == [] then map[] else Add(Grouped(items[..|items| - 1]), items[|items| - 1].key, items[|items| - 1].amount)
  }

  /** The sum of a dictionary's values. */
  ghost function Sum<K(!new)>(m: map<K, real>): real
    decreases |m|
  {
    if m == map[] then 0.0 else var k :| k in m; m[k] + Sum(m - {k})
  }

  lemma {:induction false} SumRemove<K(!new)>(m: map<K, real>, k: K)
    requires k in m
    ensures Sum(m) == m[k] + Sum(m - {k})
    decreases |m|
  {
    var j :| j in m && Sum(m) == m[j] + Sum(m - {j});
    if j != k {
      SumRemove(m - {j}, k);
      SumRemove(m - {k}, j);
      assert m - {j} - {k} == m - {k} - {j};
    }
  }

  lemma SumAdd<K(!new)>(m: map<K, real>, k: K, x: real)
    ensures Sum(Add(m, k, x)) == Sum(m) + x
  {
    var m' := Add(m, k, x);
    SumRemove(m', k);
    if k in m {
      SumRemove(m, k);
      assert m' - {k} == m - {k};
    } else {
      assert m' - {k} == m;
    }
  }

  /** Grouping loses nothing: the group totals add up to the items. */
  lemma {:induction false} GroupedSum<K(!new)>(items: seq<Item<K>>)
    ensures Sum(Grouped(items)) == SumOf(items)
  {
    if items != [] {
      var n := |items| - 1;
      GroupedSum(items[..n]);
      SumAdd(Grouped(items[..n]), items[n].key, items[n].amount);
    }
  }

  /** A dictionary listed item by item, in any order. */
  ghost predicate Lists<K(!new)>(m: map<K, real>, items: seq<Item<K>>) {
    && KeysApart(items)
    && (forall i :: 0 <= i < |items| ==> items[i].key in m && items[i].amount == m[items[i].key])
    && (forall k :: k in m ==> exists i :: 0 <= i < |items| && items[i].key == k)
  }

  lemma ListsWithoutLast<K(!new)>(m: map<K, real>, items: seq<Item<K>>)
    requires Lists(m, items) && items != []
    ensures Lists(m - {items[|items| - 1].key}, items[..|items| - 1])
  {
    var n := |items| - 1;
    var k := items[n].key;
    forall j | j in m - {k} ensures exists i :: 0 <= i < n && items[..n][i].key == j {
      var i :| 0 <= i < |items| && items[i].key == j;
      assert items[..n][i].key == j;
    }
  }

  lemma {:induction false} ListedSum<K(!new)>(m: map<K, real>, items: seq<Item<K>>)
    requires Lists(m, items)
    ensures SumOf(items) == Sum(m)
    decreases |items|
  {
    if items == [] {
      assert m == map[];
    } else {
      var last := items[|items| - 1];
      ListsWithoutLast(m, items);
      ListedSum(m - {last.key}, items[..|items| - 1]);
      assert m[last.key] == last.amount;
      SumRemove(m, last.key);
    }
  }

  /** The values of the keys for which a predicate holds. */
  function Filtered<K>(items: seq<Item<K>>, keep: K -> bool): seq<Item<K>> {
    if items == [] then []
    else Filtered(items[..|items| - 1], keep) + if keep(items[|items| - 1].key) then [items[|items| - 1]] else []
  }

  function Restrict<K>(m: map<K, real>, keep: K -> bool): map<K, real> {
    map k | k in m && keep(k) :: m[k]
  }

  lemma GroupedAppend<K>(items: seq<Item<K>>, x: Item<K>)
    ensures Grouped(items + [x]) == Add(Grouped(items), x.key, x.amount)
    ensures SumOf(items + [x]) == SumOf(items) + x.amount
  {
    assert (items + [x])[..|items|] == items;
  }

  /** Grouping first and selecting keys afterwards is selecting items first. */
  lemma {:induction false} GroupedRestrict<K>(items: seq<Item<K>>, keep: K -> bool)
    ensures Restrict(Grouped(items), keep) == Grouped(Filtered(items, keep))
  {
    if items != [] {
      var n := |items| - 1;
      var last := items[n];
      var m := Grouped(items[..n]);
      GroupedRestrict(items[..n], keep);
      if keep(last.key) {
        GroupedAppend(Filtered(items[..n], keep), last);
        assert Restrict(Add(m, last.key, last.amount), keep) == Add(Restrict(m, keep), last.key, last.amount);
      } else {
        assert Restrict(Add(m, last.key, last.amount), keep) == Restrict(m, keep);
        assert Filtered(items, keep) == Filtered(items[..n], keep);
      }
    }
  }

  lemma {:induction false} InFiltered<K>(items: seq<Item<K>>, keep: K -> bool, x: Item<K>)
    ensures x in Filtered(items, keep) <==> x in items && keep(x.key)
  {
    if items != [] {
      var n := |items| - 1;
      InFiltered(items[..n], keep, x);
      assert items == items[..n] + [items[n]];
    }
  }

  ghost predicate KeysApart<K>(items: seq<Item<K>>) {
    forall i, j :: 0 <= i < j < |items| ==> items[i].key != items[j].key
  }

  lemma {:induction false} FilteredKeepsApart<K>(items: seq<Item<K>>, keep: K -> bool)
    requires KeysApart(items)
    ensures KeysApart(Filtered(items, keep))
  {
    if items != [] {
      var n := |items| - 1;
      FilteredKeepsApart(items[..n], keep);
      var r := Filtered(items[..n], keep);
      forall i | 0 <= i < |r| ensures r[i].key != items[n].key {
        InFiltered(items[..n], keep, r[i]);
        var j :| 0 <= j < n && items[j] == r[i];
      }
    }
  }

  /** Selecting from a listing lists the selected keys. */
  lemma FilteredLists<K(!new)>(m: map<K, real>, items: seq<Item<K>>, keep: K -> bool)
    requires Lists(m, items)
    ensures Lists(Restrict(m, keep), Filtered(items, keep))
  {
    var r := Filtered(items, keep);
    FilteredKeepsApart(items, keep);
    forall i | 0 <= i < |r| ensures r[i].key in Restrict(m, keep) && r[i].amount == Restrict(m, keep)[r[i].key] {
      InFiltered(items, keep, r[i]);
      var j :| 0 <= j < |items| && items[j] == r[i];
    }
    forall k | k in Restrict(m, keep) ensures exists i :: 0 <= i < |r| && r[i].key == k {
      var i :| 0 <= i < |items| && items[i].key == k;
      InFiltered(items, keep, items[i]);
      var j :| 0 <= j < |r| && r[j] == items[i];
    }
  }

  /** Adding up the selected entries of a listed dictionary is adding up the selected items it was built from. */
  lemma SelectedSum<K(!new)>(items: seq<Item<K>>, listed: seq<Item<K>>, keep: K -> bool)
    requires Lists(Grouped(items), listed)
    ensures SumOf(Filtered(listed, keep)) == SumOf(Filtered(items, keep))
  {
    FilteredLists(Grouped(items), listed, keep);
    ListedSum(Restrict(Grouped(items), keep), Filtered(listed, keep));
    GroupedRestrict(items, keep);
    GroupedSum(Filtered(items, keep));
  }
}
