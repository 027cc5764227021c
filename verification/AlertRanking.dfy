/**
 How the alerts list is ranked and cut: two stable sorts, least significant key first, then a slice.

 A stable sort has only one possible result (`StableSortIsUnique`), so the choice of algorithm is immaterial.
 */
module AlertRanking {
  import opened Common
  import opened Sorting
  import opened TextOrder

  datatype Severity = Danger | Warning | Info

  datatype Alert = Alert(id: string, severity: Severity, at: Option<string>)

  /** An alert with its position in the list as it was built. */
  datatype Entry = Entry(alert: Alert, pos: nat)

  /** The sort keys: severity, newest text first, and both at once. */
  datatype Key = ByAt | BySeverity | ByBoth

  const SHOWN: nat := 30

  function Urgency(s: Severity): nat {
    match s case Danger => 0 case Warning => 1 case Info => 2
  }

  /** `a["at"] or ""`. */
  function At(a: Alert): string {
    if a.at.Some? then a.at.value else ""
  }

  predicate Le(key: Key, a: Alert, b: Alert) {
    match key
    case ByAt => Leq(At(b), At(a))
    case BySeverity => Urgency(a.severity) <= Urgency(b.severity)
    case ByBoth =>
      Urgency(a.severity) < Urgency(b.severity) || (Urgency(a.severity) == Urgency(b.severity) && Leq(At(b), At(a)))
  }

  predicate EntryLe(key: Key, a: Entry, b: Entry) {
    Le(key, a.alert, b.alert)
  }

  function AlertOrder(key: Key): (Alert, Alert) -> bool {
    (a: Alert, b: Alert) => Le(key, a, b)
  }

  function EntryOrder(key: Key): (Entry, Entry) -> bool {
    (a: Entry, b: Entry) => EntryLe(key, a, b)
  }

  lemma LeTotal(key: Key, a: Alert, b: Alert)
    ensures Le(key, a, b) || Le(key, b, a)
  {
    LeqTotal(At(a), At(b));
  }

  lemma LeTransitive(key: Key, a: Alert, b: Alert, c: Alert)
    requires Le(key, a, b) && Le(key, b, c)
    ensures Le(key, a, c)
  {
    if key != BySeverity && Leq(At(c), At(b)) && Leq(At(b), At(a)) {
      LeqTransitive(At(c), At(b), At(a));
    }
  }

  // ----- Stable sorting --------------------------------------------------------------------------

  /** One key after another, then the original position. */
  predicate Precedes(keys: seq<Key>, a: Entry, b: Entry) {
    if keys == [] then a.pos < b.pos
    else EntryLe(keys[0], a, b) && (EntryLe(keys[0], b, a) ==> Precedes(keys[1..], a, b))
  }

  ghost predicate InOrder(s: seq<Entry>, keys: seq<Key>) {
    forall i, j :: 0 <= i < j < |s| ==> Precedes(keys, s[i], s[j])
  }

  lemma InsertInOrder(s: seq<Entry>, x: Entry, key: Key, keys: seq<Key>)
    requires InOrder(s, [key] + keys)
    requires forall y :: y in s ==> Precedes(keys, y, x)
    ensures InOrder(Insert(s, x, EntryOrder(key)), [key] + keys)
    decreases |s|
  {
    var all := [key] + keys;
    assert all[0] == key && all[1..] == keys;
    if s != [] {
      var n := |s| - 1;
      var last := s[n];
      if EntryLe(key, last, x) {
        forall i | 0 <= i < |s| ensures Precedes(all, s[i], x) {
          if i < n {
            assert Precedes(all, s[i], last);
            LeTransitive(key, s[i].alert, last.alert, x.alert);
          }
        }
      } else {
        LeTotal(key, last.alert, x.alert);
        InsertInOrder(s[..n], x, key, keys);
        LastStaysLast(s[..n], last, x, key, all);
      }
    }
  }

  lemma LastStaysLast(s: seq<Entry>, last: Entry, x: Entry, key: Key, all: seq<Key>)
    requires InOrder(Insert(s, x, EntryOrder(key)), all)
    requires forall y :: y in s ==> Precedes(all, y, last)
    requires Precedes(all, x, last)
    ensures InOrder(Insert(s, x, EntryOrder(key)) + [last], all)
  {
    var r := Insert(s, x, EntryOrder(key));
    forall i | 0 <= i < |r| ensures Precedes(all, r[i], last) {
      assert r[i] in multiset(r);
    }
  }

  /** A stable sort puts its key in front of the order the list already had. */
  lemma {:induction false} SortInOrder(s: seq<Entry>, key: Key, keys: seq<Key>)
    requires InOrder(s, keys)
    ensures InOrder(Sort(s, EntryOrder(key)), [key] + keys)
  {
    if s != [] {
      var n := |s| - 1;
      var sorted := Sort(s[..n], EntryOrder(key));
      SortInOrder(s[..n], key, keys);
      forall y | y in sorted ensures Precedes(keys, y, s[n]) {
        assert y in multiset(s[..n]);
      }
      InsertInOrder(sorted, s[n], key, keys);
    }
  }

  lemma {:induction false} PrecedesIsStrict(keys: seq<Key>, a: Entry, b: Entry)
    requires Precedes(keys, a, b)
    ensures !Precedes(keys, b, a)
  {
    if keys != [] && EntryLe(keys[0], b, a) {
      PrecedesIsStrict(keys[1..], a, b);
    }
  }

  /** Only one arrangement of the same entries is in order. */
  lemma {:induction false} StableSortIsUnique(a: seq<Entry>, b: seq<Entry>, keys: seq<Key>)
    requires multiset(a) == multiset(b)
    requires InOrder(a, keys) && InOrder(b, keys)
    ensures a == b
    decreases |a|
  {
    assert |a| == |multiset(a)| == |multiset(b)| == |b|;
    if a != [] {
      SameHead(a, b, keys);
      SameTails(a, b);
      StableSortIsUnique(a[1..], b[1..], keys);
    }
  }

  lemma SameHead(a: seq<Entry>, b: seq<Entry>, keys: seq<Key>)
    requires a != [] && b != [] && multiset(a) == multiset(b)
    requires InOrder(a, keys) && InOrder(b, keys)
    ensures a[0] == b[0]
  {
    assert a[0] in multiset(b) && b[0] in multiset(a);
    var j :| 0 <= j < |b| && b[j] == a[0];
    var i :| 0 <= i < |a| && a[i] == b[0];
    if i > 0 && j > 0 {
      PrecedesIsStrict(keys, a[0], b[0]);
    }
  }

  // ----- Positions -------------------------------------------------------------------------------

  function Tagged(s: seq<Alert>): (r: seq<Entry>)
    ensures |r| == |s| && forall i :: 0 <= i < |s| ==> r[i] == Entry(s[i], i)
  {
    seq(|s|, i requires 0 <= i < |s| => Entry(s[i], i))
  }

  function Alerts(s: seq<Entry>): (r: seq<Alert>)
    ensures |r| == |s| && forall i :: 0 <= i < |s| ==> r[i] == s[i].alert
  {
    seq(|s|, i requires 0 <= i < |s| => s[i].alert)
  }

  lemma AlertsAppend(s: seq<Entry>, x: Entry)
    ensures Alerts(s + [x]) == Alerts(s) + [x.alert]
  {
  }

  /** The order of entries does not look at positions. */
  ghost predicate SameOrder(order: (Entry, Entry) -> bool, plain: (Alert, Alert) -> bool) {
    forall a, b :: order(a, b) == plain(a.alert, b.alert)
  }

  lemma {:induction false} InsertAlerts(s: seq<Entry>, x: Entry, order: (Entry, Entry) -> bool,
                                        plain: (Alert, Alert) -> bool)
    requires SameOrder(order, plain)
    ensures Alerts(Insert(s, x, order)) == Insert(Alerts(s), x.alert, plain)
    decreases |s|
  {
    if s == [] || order(s[|s| - 1], x) {
      AlertsAppend(s, x);
    } else {
      var n := |s| - 1;
      InsertAlerts(s[..n], x, order, plain);
      AlertsAppend(Insert(s[..n], x, order), s[n]);
      assert Alerts(s)[..n] == Alerts(s[..n]);
    }
  }

  /** Carrying positions along does not change how the alerts are sorted. */
  lemma SortAlerts(s: seq<Entry>, key: Key)
    ensures Alerts(Sort(s, EntryOrder(key))) == Sort(Alerts(s), AlertOrder(key))
  {
    SortPlainly(s, EntryOrder(key), AlertOrder(key));
  }

  lemma {:induction false} SortPlainly(s: seq<Entry>, order: (Entry, Entry) -> bool, plain: (Alert, Alert) -> bool)
    requires SameOrder(order, plain)
    ensures Alerts(Sort(s, order)) == Sort(Alerts(s), plain)
  {
    if s == [] {
      assert Alerts(s) == [];
    } else {
      var init, last := s[..|s| - 1], s[|s| - 1];
      SortPlainly(init, order, plain);
      assert Alerts(s)[..|s| - 1] == Alerts(init);
      InsertAlerts(Sort(init, order), last, order, plain);
    }
  }

  // ----- Ranking ---------------------------------------------------------------------------------

  /** The list after both sorts. */
  function Ranked(alerts: seq<Alert>): seq<Alert> {
    Sort(Sort(alerts, AlertOrder(ByAt)), AlertOrder(BySeverity))
  }

  function RankedEntries(alerts: seq<Alert>): seq<Entry> {
    Sort(Sort(Tagged(alerts), EntryOrder(ByAt)), EntryOrder(BySeverity))
  }

  lemma RankedEntriesInOrder(alerts: seq<Alert>)
    ensures InOrder(RankedEntries(alerts), [BySeverity, ByAt])
  {
    var tagged := Tagged(alerts);
    SortInOrder(tagged, ByAt, []);
    assert [ByAt] + [] == [ByAt];
    SortInOrder(Sort(tagged, EntryOrder(ByAt)), BySeverity, [ByAt]);
    assert [BySeverity] + [ByAt] == [BySeverity, ByAt];
  }

  lemma RankedEntriesAreRanked(alerts: seq<Alert>)
    ensures Alerts(RankedEntries(alerts)) == Ranked(alerts)
    ensures multiset(RankedEntries(alerts)) == multiset(Tagged(alerts))
  {
    var tagged := Tagged(alerts);
    assert Alerts(tagged) == alerts;
    SortAlerts(tagged, ByAt);
    SortAlerts(Sort(tagged, EntryOrder(ByAt)), BySeverity);
  }

  lemma BothIsSeverityThenAt(a: Entry, b: Entry)
    ensures Precedes([ByBoth], a, b) == Precedes([BySeverity, ByAt], a, b)
  {
    assert [BySeverity, ByAt][1..] == [ByAt];
    assert [ByAt][1..] == [] && [ByBoth][1..] == [];
    assert Precedes([BySeverity, ByAt], a, b) ==
           (EntryLe(BySeverity, a, b) && (EntryLe(BySeverity, b, a) ==> Precedes([ByAt], a, b)));
    LeqTotal(At(a.alert), At(b.alert));
  }

  /** The two sorts are one sort: by severity, then newest first, then the order of construction. */
  lemma TwoSortsAreOne(alerts: seq<Alert>)
    ensures Ranked(alerts) == Sort(alerts, AlertOrder(ByBoth))
  {
    var tagged := Tagged(alerts);
    var twice, once := RankedEntries(alerts), Sort(tagged, EntryOrder(ByBoth));
    RankedEntriesAreRanked(alerts);
    RankedEntriesInOrder(alerts);
    SortInOrder(tagged, ByBoth, []);
    assert [ByBoth] + [] == [ByBoth];
    forall i, j | 0 <= i < j < |twice| ensures Precedes([ByBoth], twice[i], twice[j]) {
      BothIsSeverityThenAt(twice[i], twice[j]);
    }
    StableSortIsUnique(twice, once, [ByBoth]);
    SortAlerts(tagged, ByBoth);
    assert Alerts(tagged) == alerts;
  }

  /** `alerts[:30]`. */
  function Shown(ranked: seq<Alert>): seq<Alert> {
    if |ranked| <= SHOWN then ranked else ranked[..SHOWN]
  }

  /** Which positions are shown, in the order shown. */
  function ShownPositions(alerts: seq<Alert>): (r: seq<nat>)
    ensures |r| == if |alerts| <= SHOWN then |alerts| else SHOWN
  {
    var ranked := RankedEntries(alerts);
    assert |ranked| == |multiset(ranked)| == |multiset(Tagged(alerts))| == |alerts|;
    seq(if |alerts| <= SHOWN then |alerts| else SHOWN, i requires 0 <= i < |ranked| => ranked[i].pos)
  }

  lemma TaggedAgain(alerts: seq<Alert>, e: Entry)
    requires e in multiset(Tagged(alerts))
    ensures e.pos < |alerts| && e == Entry(alerts[e.pos], e.pos)
  {
    var i :| 0 <= i < |Tagged(alerts)| && Tagged(alerts)[i] == e;
  }

  /** More severe, or as severe and newer, or equal in both and built earlier. */
  predicate Outranks(alerts: seq<Alert>, i: nat, j: nat) {
    i < |alerts| && j < |alerts| && Precedes([BySeverity, ByAt], Entry(alerts[i], i), Entry(alerts[j], j))
  }

  /** Danger before warning before info. */
  predicate MoreSevere(a: Severity, b: Severity) {
    (a.Danger? && !b.Danger?) || (a.Warning? && b.Info?)
  }

  /** What outranking is: danger before warning before info, then the newer text, then the alert built earlier. */
  lemma OutranksExactlyWhen(alerts: seq<Alert>, i: nat, j: nat)
    requires i < |alerts| && j < |alerts|
    ensures Outranks(alerts, i, j) <==>
            || MoreSevere(alerts[i].severity, alerts[j].severity)
            || (alerts[i].severity == alerts[j].severity
                && (Less(At(alerts[j]), At(alerts[i])) || (At(alerts[i]) == At(alerts[j]) && i < j)))
  {
    var a, b := Entry(alerts[i], i), Entry(alerts[j], j);
    LeqTotal(At(alerts[i]), At(alerts[j]));
    LeqReflexive(At(alerts[i]));
    if Leq(At(alerts[i]), At(alerts[j])) && Leq(At(alerts[j]), At(alerts[i])) {
      LeqAntisymmetric(At(alerts[i]), At(alerts[j]));
    }
    assert Precedes([BySeverity, ByAt], a, b) ==
           (EntryLe(BySeverity, a, b) && (EntryLe(BySeverity, b, a) ==> Precedes([ByAt], a, b))) by {
      assert [BySeverity, ByAt][1..] == [ByAt];
    }
    assert Precedes([ByAt], a, b) == (EntryLe(ByAt, a, b) && (EntryLe(ByAt, b, a) ==> Precedes([], a, b))) by {
      assert [ByAt][1..] == [];
    }
  }

  lemma RankedEntriesAreTagged(alerts: seq<Alert>)
    ensures |RankedEntries(alerts)| == |alerts|
    ensures forall i :: 0 <= i < |alerts| ==>
      var e := RankedEntries(alerts)[i]; e.pos < |alerts| && e == Entry(alerts[e.pos], e.pos)
  {
    var ranked := RankedEntries(alerts);
    RankedEntriesAreRanked(alerts);
    assert |ranked| == |multiset(ranked)| == |multiset(Tagged(alerts))| == |alerts|;
    forall i | 0 <= i < |alerts|
      ensures ranked[i].pos < |alerts| && ranked[i] == Entry(alerts[ranked[i].pos], ranked[i].pos)
    {
      assert ranked[i] in multiset(ranked);
      TaggedAgain(alerts, ranked[i]);
    }
  }

  lemma RankedOutranks(alerts: seq<Alert>, i: nat, j: nat)
    requires i < j < |alerts| == |RankedEntries(alerts)|
    ensures var (p, q) := (RankedEntries(alerts)[i].pos, RankedEntries(alerts)[j].pos);
            Outranks(alerts, p, q) && !Outranks(alerts, q, p) && p != q
  {
    var ranked := RankedEntries(alerts);
    RankedEntriesAreTagged(alerts);
    RankedEntriesInOrder(alerts);
    assert Precedes([BySeverity, ByAt], ranked[i], ranked[j]);
    PrecedesIsStrict([BySeverity, ByAt], ranked[i], ranked[j]);
  }

  /** What is shown are alerts of the list, at distinct positions, each outranking the next. */
  lemma ShownAreTheFirst(alerts: seq<Alert>)
    ensures var at := ShownPositions(alerts);
      && |Shown(Ranked(alerts))| == |at|
      && (forall i :: 0 <= i < |at| ==> at[i] < |alerts| && Shown(Ranked(alerts))[i] == alerts[at[i]])
      && (forall i, j :: 0 <= i < j < |at| ==> Outranks(alerts, at[i], at[j]) && at[i] != at[j])
  {
    var at := ShownPositions(alerts);
    RankedEntriesAreRanked(alerts);
    RankedEntriesAreTagged(alerts);
    forall i, j | 0 <= i < j < |at| ensures Outranks(alerts, at[i], at[j]) && at[i] != at[j] {
      RankedOutranks(alerts, i, j);
    }
  }

  lemma RankOf(alerts: seq<Alert>, pos: nat) returns (j: nat)
    requires pos < |alerts|
    ensures j < |RankedEntries(alerts)| == |alerts| && RankedEntries(alerts)[j].pos == pos
  {
    RankedEntriesAreRanked(alerts);
    RankedEntriesAreTagged(alerts);
    var e := Tagged(alerts)[pos];
    assert e in multiset(RankedEntries(alerts));
    j :| 0 <= j < |RankedEntries(alerts)| && RankedEntries(alerts)[j] == e;
  }

  /** Whatever was cut off is outranked by everything that is shown. */
  lemma NothingCutOutranksAnythingShown(alerts: seq<Alert>, cut: nat, shown: nat)
    requires cut < |alerts| && cut !in ShownPositions(alerts)
    requires shown in ShownPositions(alerts)
    ensures Outranks(alerts, shown, cut) && !Outranks(alerts, cut, shown)
  {
    var at := ShownPositions(alerts);
    var i :| 0 <= i < |at| && at[i] == shown;
    var j := RankOf(alerts, cut);
    assert forall k :: 0 <= k < |at| ==> at[k] == RankedEntries(alerts)[k].pos;
    assert |at| <= j;
    RankedOutranks(alerts, i, j);
  }

  lemma SortNext(alerts: seq<Alert>, i: nat, order: (Alert, Alert) -> bool)
    requires i < |alerts|
    ensures Sort(alerts[..i + 1], order) == Insert(Sort(alerts[..i], order), alerts[i], order)
  {
    assert alerts[..i + 1][..i] == alerts[..i];
  }

  // ----- The list in place -----------------------------------------------------------------------

  class AlertList {
    var alerts: seq<Alert>

    constructor (built: seq<Alert>)
      ensures alerts == built
    {
      alerts := built;
    }

    method SortBy(key: Key)
      modifies this
      ensures alerts == Sort(old(alerts), AlertOrder(key))
    {
      var order := AlertOrder(key);
      var sorted: seq<Alert> := [];
      var i := 0;
      while i < |alerts|
        invariant 0 <= i <= |alerts| && alerts == old(alerts)
        invariant sorted == Sort(alerts[..i], order)
      {
        SortNext(alerts, i, order);
        sorted := Insert(sorted, alerts[i], order);
        i := i + 1;
      }
      assert alerts[..i] == alerts;
      alerts := sorted;
    }

    /** The end of `build_alerts`. */
    method Rank() returns (top: seq<Alert>)
      modifies this
      ensures alerts == Ranked(old(alerts))
      ensures top == Shown(Sort(old(alerts), AlertOrder(ByBoth)))
    {
      SortBy(ByAt);
      SortBy(BySeverity);
      TwoSortsAreOne(old(alerts));
      top := if |alerts| <= SHOWN then alerts else alerts[..SHOWN];
    }
  }
}
