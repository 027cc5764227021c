/** Splitting a list by a text key into a dictionary of lists, and reading the groups back in sorted key order. */
module Grouping {
  import opened Common
  import opened Sorting
  import opened TextOrder

  /** The group of a key, in list order. */
  function Group<T>(items: seq<T>, key: T -> string, k: string): seq<T> {
    if items == [] then []
    else if key(items[0]) == k then [items[0]] + Group(items[1..], key, k)
    else Group(items[1..], key, k)
  }

  /** One group after the other. */
  function Joined<T>(items: seq<T>, key: T -> string, keys: seq<string>): seq<T> {
    if keys == [] then [] else Group(items, key, keys[0]) + Joined(items, key, keys[1..])
  }

  ghost predicate Covered<T>(items: seq<T>, key: T -> string, keys: seq<string>) {
    forall i :: 0 <= i < |items| ==> key(items[i]) in keys
  }

  /** The keys never fall along the list. */
  ghost predicate Rising<T>(items: seq<T>, key: T -> string) {
    forall i, j :: 0 <= i < j < |items| ==> Leq(key(items[i]), key(items[j]))
  }

  // ----- Joining ---------------------------------------------------------------------------------

  lemma {:induction false} NoGroup<T>(items: seq<T>, key: T -> string, k: string)
    requires forall i :: 0 <= i < |items| ==> key(items[i]) != k
    ensures Group(items, key, k) == []
  {
    if items != [] {
      NoGroup(items[1..], key, k);
    }
  }

  lemma {:induction false} JoinedSkips<T>(items: seq<T>, key: T -> string, keys: seq<string>)
    requires items != [] && key(items[0]) !in keys
    ensures Joined(items, key, keys) == Joined(items[1..], key, keys)
    decreases |keys|
  {
    if keys != [] {
      JoinedSkips(items, key, keys[1..]);
    }
  }

  lemma JoinedHead<T>(items: seq<T>, key: T -> string, keys: seq<string>)
    requires Ascending(keys) && items != [] && keys != [] && key(items[0]) == keys[0]
    ensures Joined(items, key, keys) == [items[0]] + Joined(items[1..], key, keys)
  {
    assert keys[0] !in keys[1..];
    JoinedSkips(items, key, keys[1..]);
  }

  lemma {:induction false} GroupKeys<T>(items: seq<T>, key: T -> string, k: string)
    ensures forall i :: 0 <= i < |Group(items, key, k)| ==> key(Group(items, key, k)[i]) == k
  {
    if items != [] {
      GroupKeys(items[1..], key, k);
    }
  }

  lemma {:induction false} NothingJoined<T>(key: T -> string, keys: seq<string>)
    ensures Joined([], key, keys) == []
    decreases |keys|
  {
    if keys != [] {
      NothingJoined(key, keys[1..]);
    }
  }

  /** When the keys rise, the least key is the first item's or nobody's. */
  lemma LeastKeyUnused<T>(items: seq<T>, key: T -> string, keys: seq<string>)
    requires items != [] && keys != []
    requires Ascending(keys) && Covered(items, key, keys) && Rising(items, key)
    requires key(items[0]) != keys[0]
    ensures Group(items, key, keys[0]) == [] && Covered(items, key, keys[1..])
  {
    var first := key(items[0]);
    forall i | 0 <= i < |items| ensures key(items[i]) != keys[0] {
      if key(items[i]) == keys[0] {
        assert Leq(first, keys[0]) && Less(keys[0], first);
        LeqAntisymmetric(first, keys[0]);
      }
    }
    NoGroup(items, key, keys[0]);
  }

  lemma {:induction false} JoiningRestores<T>(items: seq<T>, key: T -> string, keys: seq<string>)
    requires Ascending(keys) && Covered(items, key, keys) && Rising(items, key)
    ensures Joined(items, key, keys) == items
    decreases |items| + |keys|
  {
    if items == [] {
      NothingJoined(key, keys);
    } else if keys != [] && key(items[0]) == keys[0] {
      JoinedHead(items, key, keys);
      JoiningRestores(items[1..], key, keys);
    } else {
      assert key(items[0]) in keys;
      LeastKeyUnused(items, key, keys);
      JoiningRestores(items, key, keys[1..]);
    }
  }

  lemma {:induction false} JoinedRises<T>(items: seq<T>, key: T -> string, keys: seq<string>)
    requires Ascending(keys)
    ensures Rising(Joined(items, key, keys), key) && Covered(Joined(items, key, keys), key, keys)
    decreases |keys|
  {
    if keys != [] {
      JoinedRises(items, key, keys[1..]);
      GroupKeys(items, key, keys[0]);
      LeqReflexive(keys[0]);
    }
  }

  /** Reading the groups in key order gives the list back exactly when its keys rise. */
  lemma JoiningRestoresExactlyWhen<T>(items: seq<T>, key: T -> string, keys: seq<string>)
    requires Ascending(keys) && Covered(items, key, keys)
    ensures Joined(items, key, keys) == items <==> Rising(items, key)
  {
    JoinedRises(items, key, keys);
    if Rising(items, key) {
      JoiningRestores(items, key, keys);
    }
  }

  // ----- The dictionary --------------------------------------------------------------------------

  /** The keys of a list in order of first appearance. */
  function KeysOf<T>(items: seq<T>, key: T -> string): (r: seq<string>)
    ensures Distinct(r) && Covered(items, key, r)
    ensures forall k :: k in r ==> exists i :: 0 <= i < |items| && key(items[i]) == k
  {
    if items == [] then []
    else
      var n := |items| - 1;
      var before := KeysOf(items[..n], key);
      assert forall k :: k in before ==> exists i :: 0 <= i < n && key(items[..n][i]) == k;
      assert forall i :: 0 <= i < n ==> items[..n][i] == items[i];
      if key(items[n]) in before then before else before + [key(items[n])]
  }

  /** A `defaultdict(list)`, with its insertion order. */
  datatype Dict<T> = Dict(order: seq<string>, groups: map<string, seq<T>>)

  /** `d[k].append(x)`. */
  function Append<T>(d: Dict<T>, k: string, x: T): Dict<T> {
    if k in d.groups then d.(groups := d.groups[k := d.groups[k] + [x]])
    else Dict(d.order + [k], d.groups[k := [x]])
  }

  ghost predicate Holds<T>(d: Dict<T>, items: seq<T>, key: T -> string) {
    && d.order == KeysOf(items, key)
    && (forall k :: k in d.groups <==> k in d.order)
    && (forall k :: k in d.groups ==> d.groups[k] == Group(items, key, k))
  }

  lemma {:induction false} GroupAppend<T>(items: seq<T>, x: T, key: T -> string, k: string)
    ensures Group(items + [x], key, k) == if key(x) == k then Group(items, key, k) + [x] else Group(items, key, k)
  {
    if items == [] {
      assert items + [x] == [x];
    } else {
      assert (items + [x])[1..] == items[1..] + [x];
      GroupAppend(items[1..], x, key, k);
    }
  }

  lemma HoldsAfterAppend<T>(d: Dict<T>, items: seq<T>, x: T, key: T -> string)
    requires Holds(d, items, key)
    ensures Holds(Append(d, key(x), x), items + [x], key)
  {
    var d' := Append(d, key(x), x);
    assert (items + [x])[..|items|] == items;
    if key(x) !in d.groups {
      NoGroup(items, key, key(x));
    }
    forall k | k in d'.groups ensures d'.groups[k] == Group(items + [x], key, k) {
      GroupAppend(items, x, key, k);
    }
  }

  lemma HoldsNext<T>(d: Dict<T>, items: seq<T>, n: nat, key: T -> string)
    requires n < |items| && Holds(d, items[..n], key)
    ensures Holds(Append(d, key(items[n]), items[n]), items[..n + 1], key)
  {
    PrefixStep(items, n);
    HoldsAfterAppend(d, items[..n], items[n], key);
  }

  lemma PrefixStep<T>(s: seq<T>, n: nat)
    requires n < |s|
    ensures s[..n + 1] == s[..n] + [s[n]]
  {
  }

  lemma HoldsNothing<T>(key: T -> string)
    ensures Holds(Dict([], map[]), [], key)
  {
  }

  method GroupBy<T>(items: seq<T>, key: T -> string) returns (d: Dict<T>)
    ensures Holds(d, items, key)
  {
    d := Dict([], map[]);
    HoldsNothing(key);
    assert items[..0] == [];
    for n := 0 to |items|
      invariant Holds(d, items[..n], key)
    {
      HoldsNext(d, items, n, key);
      d := Append(d, key(items[n]), items[n]);
    }
    assert items[..|items|] == items;
  }

  // ----- Sorted keys -----------------------------------------------------------------------------

  lemma {:induction false} InsertText(s: seq<string>, x: string)
    requires Ascending(s) && x !in s
    ensures Ascending(Insert(s, x, Leq))
    decreases |s|
  {
    if s != [] {
      var n := |s| - 1;
      if Leq(s[n], x) {
        forall i | 0 <= i < |s| ensures Less(s[i], x) {
          if i < n {
            LeqTransitive(s[i], s[n], x);
          }
        }
      } else {
        LeqTotal(s[n], x);
        InsertText(s[..n], x);
        var t := Insert(s[..n], x, Leq);
        BelowLast(s, x, t);
        EndsWithGreatest(t, s[n]);
      }
    }
  }

  /** What a list had before its last element, with a smaller text, stays below the last element. */
  lemma BelowLast(s: seq<string>, x: string, t: seq<string>)
    requires s != [] && Ascending(s) && Less(x, s[|s| - 1])
    requires multiset(t) == multiset(s[..|s| - 1]) + multiset{x}
    ensures forall y :: y in multiset(t) ==> Less(y, s[|s| - 1])
  {
    var n := |s| - 1;
    forall y | y in multiset(t) ensures Less(y, s[n]) {
      if y != x {
        assert y in multiset(s[..n]);
        var i :| 0 <= i < n && s[..n][i] == y;
      }
    }
  }

  lemma EndsWithGreatest(s: seq<string>, last: string)
    requires Ascending(s) && forall y :: y in multiset(s) ==> Less(y, last)
    ensures Ascending(s + [last])
  {
    forall i | 0 <= i < |s| ensures Less(s[i], last) {
      assert s[i] in multiset(s);
    }
  }

  /** Sorting distinct texts. */
  lemma {:induction false} SortedKeys(s: seq<string>)
    requires Distinct(s)
    ensures Ascending(Sort(s, Leq))
    ensures forall k :: k in Sort(s, Leq) <==> k in s
  {
    forall k: string ensures k in Sort(s, Leq) <==> k in s {
      assert k in multiset(Sort(s, Leq)) <==> k in multiset(s);
    }
    if s != [] {
      var n := |s| - 1;
      SortedKeys(s[..n]);
      assert s[n] !in s[..n];
      InsertText(Sort(s[..n], Leq), s[n]);
    }
  }
}
