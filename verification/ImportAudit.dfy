/**
 Attributing resident memory to the packages a program imports.

 The wrapped `__import__` measures memory around the first import of each top-level package, keeps the
 running measurements on a stack, and charges each package what it added less what the packages imported
 inside it added. The input is any tree of nested imports with any memory readings.
 */
module ImportAudit {
  import opened Common
  import opened Totals

  /**
   One call of `__import__`: `loaded` is whether the root is in sys.modules then, `before` and `after`
   the readings around it, `nested` the calls made while it runs, whether or not it raises.
   */
  datatype Import = Import(root: string, absolute: bool, loaded: bool, importer: string,
                           before: real, nested: seq<Import>, after: real)

  datatype Frame = Frame(root: string, before: real, children: real)

  /** `chains` records, per package, who imported it and each package around it, outermost first; no step reads it. */
  datatype Tracker = Tracker(stack: seq<Frame>, own: map<string, real>, via: map<string, string>,
                             chains: map<string, seq<string>>)

  const SOURCE_PREFIX := "src."

  predicate OursByName(importer: string) {
    SOURCE_PREFIX <= importer
  }

  predicate First(t: Tracker, i: Import) {
    i.absolute && !i.loaded && i.root !in t.via
  }

  function Top(t: Tracker): Frame
    requires t.stack != []
  {
    t.stack[|t.stack| - 1]
  }

  /** Each package on the stack has an entry in both dictionaries. */
  predicate Rooted(t: Tracker) {
    forall f :: f in t.stack ==> f.root in t.via && f.root in t.chains
  }

  function Enter(t: Tracker, i: Import): Tracker
    requires Rooted(t)
  {
    var inherit := !OursByName(i.importer) && t.stack != [];
    var outer := if t.stack == [] then [] else t.chains[Top(t).root];
    Tracker(t.stack + [Frame(i.root, i.before, 0.0)], t.own,
            t.via[i.root := if inherit then t.via[Top(t).root] else i.importer],
            t.chains[i.root := outer + [i.importer]])
  }

  function Exit(t: Tracker, after: real): Tracker
    requires t.stack != []
  {
    var f := Top(t);
    var inclusive := after - f.before;
    var rest := t.stack[..|t.stack| - 1];
    var charged := if rest == [] then []
                   else rest[|rest| - 1 := rest[|rest| - 1].(children := rest[|rest| - 1].children + inclusive)];
    t.(stack := charged, own := Add(t.own, f.root, inclusive - f.children))
  }

  /** The same packages are being measured, in the same order; only the innermost one's charges may differ. */
  predicate SameStack(a: Tracker, b: Tracker) {
    && |a.stack| == |b.stack|
    && (forall k :: 0 <= k < |a.stack| - 1 ==> a.stack[k] == b.stack[k])
    && (a.stack != [] ==> Top(a).(children := 0.0) == Top(b).(children := 0.0))
  }

  /** Leaving an import finds the stack it was entered on, recharged at most at the top. */
  lemma ExitReturns(t: Tracker, i: Import, inside: Tracker)
    requires Rooted(t) && Rooted(inside) && SameStack(Enter(t, i), inside)
    ensures inside.stack != [] && Top(inside).root == i.root && Top(inside).before == i.before
    ensures Rooted(Exit(inside, i.after)) && SameStack(t, Exit(inside, i.after))
  {
    var t1, t3, n := Enter(t, i), Exit(inside, i.after), |t.stack|;
    assert Top(inside).(children := 0.0) == Top(t1).(children := 0.0);
    forall k | 0 <= k < n ensures inside.stack[k] == t.stack[k] && t3.stack[k].root == inside.stack[k].root {
      assert t1.stack[k] == t.stack[k];
    }
    forall f | f in t3.stack ensures f.root in t3.via && f.root in t3.chains {
      var k :| 0 <= k < n && t3.stack[k] == f;
      assert inside.stack[k] in inside.stack;
    }
  }

  /** `tracking_import`, and the calls made while one import runs. */
  function Track(t: Tracker, i: Import): (t': Tracker)
    requires Rooted(t)
    ensures Rooted(t') && SameStack(t, t')
    decreases i
  {
    if !First(t, i) then TrackAll(t, i.nested)
    else
      var inside := TrackAll(Enter(t, i), i.nested);
      ExitReturns(t, i, inside);
      Exit(inside, i.after)
  }

  function TrackAll(t: Tracker, imports: seq<Import>): (t': Tracker)
    requires Rooted(t)
    ensures Rooted(t') && SameStack(t, t')
    decreases imports
  {
    if imports == [] then t else TrackAll(Track(t, imports[0]), imports[1..])
  }

  // ----- Every package is measured at most once, and charged to the module of ours that started the chain -----

  /** The last importer whose name starts with "src.", or the outermost one when there is none. */
  function Blame(chain: seq<string>): string
    requires chain != []
  {
    var n := |chain| - 1;
    if OursByName(chain[n]) || n == 0 then chain[n] else Blame(chain[..n])
  }

  lemma {:induction false} BlameIsNearest(chain: seq<string>)
    requires chain != []
    ensures exists k :: 0 <= k < |chain| && Blame(chain) == chain[k] && (OursByName(chain[k]) || k == 0)
                        && forall j :: k < j < |chain| ==> !OursByName(chain[j])
  {
    var n := |chain| - 1;
    if OursByName(chain[n]) || n == 0 {
      assert Blame(chain) == chain[n];
    } else {
      BlameIsNearest(chain[..n]);
      var k :| 0 <= k < n && Blame(chain[..n]) == chain[..n][k] && (OursByName(chain[..n][k]) || k == 0)
               && forall j :: k < j < n ==> !OursByName(chain[..n][j]);
      forall j | k < j < |chain| ensures !OursByName(chain[j]) {
        assert j < n ==> chain[j] == chain[..n][j];
      }
      assert Blame(chain) == chain[k];
    }
  }

  function Roots(stack: seq<Frame>): set<string> {
    if stack == [] then {} else Roots(stack[..|stack| - 1]) + {stack[|stack| - 1].root}
  }

  predicate NoRepeat(stack: seq<Frame>) {
    stack != [] ==> stack[|stack| - 1].root !in Roots(stack[..|stack| - 1]) && NoRepeat(stack[..|stack| - 1])
  }

  /** A package with an entry is on the stack or measured, never both and never twice. */
  ghost predicate MeasuredOnce(t: Tracker) {
    t.own.Keys !! Roots(t.stack) && t.own.Keys + Roots(t.stack) == t.via.Keys && NoRepeat(t.stack)
  }

  /** Each entry names the module of ours nearest on the chain of importers. */
  ghost predicate Blamed(t: Tracker) {
    t.via.Keys == t.chains.Keys && forall r :: r in t.via ==> t.chains[r] != [] && t.via[r] == Blame(t.chains[r])
  }

  lemma EnterKeepsMeasured(t: Tracker, i: Import)
    requires Rooted(t) && MeasuredOnce(t) && First(t, i)
    ensures MeasuredOnce(Enter(t, i))
  {
    assert Enter(t, i).stack[..|t.stack|] == t.stack;
  }

  lemma EnterKeepsBlamed(t: Tracker, i: Import)
    requires Rooted(t) && Blamed(t) && First(t, i)
    ensures Blamed(Enter(t, i))
  {
    if t.stack != [] {
      assert Top(t) in t.stack;
      var outer := t.chains[Top(t).root];
      assert (outer + [i.importer])[..|outer|] == outer;
    }
  }

  lemma RechargedRoots(rest: seq<Frame>, f: Frame)
    requires rest != [] && f.root == rest[|rest| - 1].root
    ensures Roots(rest[|rest| - 1 := f]) == Roots(rest) && (NoRepeat(rest) ==> NoRepeat(rest[|rest| - 1 := f]))
  {
    assert rest[|rest| - 1 := f][..|rest| - 1] == rest[..|rest| - 1];
  }

  lemma ExitKeepsMeasured(t: Tracker, after: real)
    requires MeasuredOnce(t) && t.stack != []
    ensures MeasuredOnce(Exit(t, after)) && Top(t).root !in t.own
  {
    var rest := t.stack[..|t.stack| - 1];
    if rest != [] {
      RechargedRoots(rest, Exit(t, after).stack[|rest| - 1]);
    }
  }

  /** Measurements made and entries set are never changed again. */
  predicate Grows(a: Tracker, b: Tracker) {
    && (forall r :: r in a.own ==> r in b.own && b.own[r] == a.own[r])
    && (forall r :: r in a.via ==> r in b.via && b.via[r] == a.via[r])
    && (forall r :: r in a.chains ==> r in b.chains && b.chains[r] == a.chains[r])
  }

  lemma EnterGrows(t: Tracker, i: Import)
    requires Rooted(t) && First(t, i) && i.root !in t.chains
    ensures Grows(t, Enter(t, i))
  {
  }

  lemma ExitGrows(t: Tracker, after: real)
    requires t.stack != [] && Top(t).root !in t.own
    ensures Grows(t, Exit(t, after))
  {
  }

  lemma GrowsTransitive(a: Tracker, b: Tracker, c: Tracker)
    requires Grows(a, b) && Grows(b, c)
    ensures Grows(a, c)
  {
  }

  ghost predicate Inv(t: Tracker) {
    Rooted(t) && MeasuredOnce(t) && Blamed(t)
  }

  lemma EnterKeepsInv(t: Tracker, i: Import)
    requires Inv(t) && First(t, i)
    ensures Inv(Enter(t, i)) && Grows(t, Enter(t, i))
  {
    EnterKeepsMeasured(t, i);
    EnterKeepsBlamed(t, i);
    EnterGrows(t, i);
  }

  lemma ExitKeepsInv(t: Tracker, after: real)
    requires Inv(t) && t.stack != [] && Rooted(Exit(t, after))
    ensures Inv(Exit(t, after)) && Grows(t, Exit(t, after))
  {
    ExitKeepsMeasured(t, after);
    ExitGrows(t, after);
  }

  lemma {:induction false} TrackKeepsInv(t: Tracker, i: Import)
    requires Inv(t)
    ensures Inv(Track(t, i)) && Grows(t, Track(t, i))
    decreases i
  {
    if First(t, i) {
      var t1 := Enter(t, i);
      EnterKeepsInv(t, i);
      TrackAllKeepsInv(t1, i.nested);
      var t2 := TrackAll(t1, i.nested);
      ExitReturns(t, i, t2);
      ExitKeepsInv(t2, i.after);
      GrowsTransitive(t, t1, t2);
      GrowsTransitive(t, t2, Exit(t2, i.after));
    } else {
      TrackAllKeepsInv(t, i.nested);
    }
  }

  lemma {:induction false} TrackAllKeepsInv(t: Tracker, imports: seq<Import>)
    requires Inv(t)
    ensures Inv(TrackAll(t, imports)) && Grows(t, TrackAll(t, imports))
    decreases imports
  {
    if imports != [] {
      var t1 := Track(t, imports[0]);
      TrackKeepsInv(t, imports[0]);
      TrackAllKeepsInv(t1, imports[1..]);
      GrowsTransitive(t, t1, TrackAll(t, imports));
    }
  }

  function Fresh(): Tracker {
    Tracker([], map[], map[], map[])
  }

  /** The packages measured, in the order their measurements end. */
  function Measurements(t: Tracker, i: Import): seq<string>
    requires Rooted(t)
    decreases i
  {
    if First(t, i) then AllMeasurements(Enter(t, i), i.nested) + [i.root] else AllMeasurements(t, i.nested)
  }

  function AllMeasurements(t: Tracker, imports: seq<Import>): seq<string>
    requires Rooted(t)
    decreases imports
  {
    if imports == [] then [] else Measurements(t, imports[0]) + AllMeasurements(Track(t, imports[0]), imports[1..])
  }

  /** `names` are different packages, new since `t` and measured by `t'`, which has measured nothing else since. */
  ghost predicate NewlyMeasured(t: Tracker, names: seq<string>, t': Tracker) {
    && Distinct(names) && t.via.Keys <= t'.via.Keys
    && (forall r :: r in names ==> r !in t.via && r in t'.via)
    && (forall r :: r in t'.own <==> r in t.own || r in names)
  }

  lemma NewlyMeasuredJoin(a: Tracker, m: seq<string>, b: Tracker, n: seq<string>, c: Tracker)
    requires NewlyMeasured(a, m, b) && NewlyMeasured(b, n, c)
    ensures NewlyMeasured(a, m + n, c)
  {
    assert forall r :: r in m + n <==> r in m || r in n;
    forall i, j | 0 <= i < j < |m + n| ensures (m + n)[i] != (m + n)[j] {
      assert i < |m| ==> (m + n)[i] == m[i] && m[i] in m;
      assert j >= |m| ==> (m + n)[j] == n[j - |m|] && n[j - |m|] in n;
    }
  }

  /** The import's own measurement comes after those made inside it. */
  lemma OwnMeasurementLast(t: Tracker, i: Import, m: seq<string>, inside: Tracker)
    requires Rooted(t) && First(t, i) && NewlyMeasured(Enter(t, i), m, inside)
    requires inside.stack != [] && Top(inside).root == i.root
    ensures NewlyMeasured(t, m + [i.root], Exit(inside, i.after))
  {
    assert i.root in Enter(t, i).via && i.root !in m;
    assert forall r :: r in m + [i.root] <==> r in m || r == i.root;
  }

  lemma {:induction false} TrackMeasures(t: Tracker, i: Import)
    requires Rooted(t)
    ensures NewlyMeasured(t, Measurements(t, i), Track(t, i))
    decreases i, 1
  {
    if First(t, i) {
      var t1 := Enter(t, i);
      TrackAllMeasures(t1, i.nested);
      ExitReturns(t, i, TrackAll(t1, i.nested));
      OwnMeasurementLast(t, i, AllMeasurements(t1, i.nested), TrackAll(t1, i.nested));
    } else {
      TrackAllMeasures(t, i.nested);
    }
  }

  lemma {:induction false} TrackAllMeasures(t: Tracker, imports: seq<Import>)
    requires Rooted(t)
    ensures NewlyMeasured(t, AllMeasurements(t, imports), TrackAll(t, imports))
    decreases imports, 0
  {
    if imports != [] {
      TrackMeasures(t, imports[0]);
      TrackAllMeasures(Track(t, imports[0]), imports[1..]);
      NewlyMeasuredJoin(t, Measurements(t, imports[0]), Track(t, imports[0]),
                        AllMeasurements(Track(t, imports[0]), imports[1..]), TrackAll(t, imports));
    }
  }

  // ----- What is measured, read off the tree -----------------------------------------------------

  datatype Span = Span(before: real, after: real)

  function Growth(spans: seq<Span>): real {
    if spans == [] then 0.0 else spans[0].after - spans[0].before + Growth(spans[1..])
  }

  /** The packages that some import anywhere in the tree asks for when they are not loaded yet. */
  function Wanted(imports: seq<Import>): set<string>
    decreases imports
  {
    if imports == [] then {}
    else
      var i := imports[0];
      (if i.absolute && !i.loaded then {i.root} else {}) + Wanted(i.nested) + Wanted(imports[1..])
  }

  /** The import that brings a package in, when `known` have been imported before. */
  predicate Brings(i: Import, known: set<string>) {
    i.absolute && !i.loaded && i.root !in known
  }

  /** The readings around the imports that bring a package in and are nearest to the surface, in order. */
  function Nearest(imports: seq<Import>, known: set<string>): seq<Span>
    decreases imports
  {
    if imports == [] then []
    else
      var i := imports[0];
      (if Brings(i, known) then [Span(i.before, i.after)] else Nearest(i.nested, known))
      + Nearest(imports[1..], known + Wanted([i]))
  }

  /** A package, what it added itself, and who imported it and each package around it, outermost first. */
  datatype Share = Share(root: string, own: real, chain: seq<string>)

  /** Its growth, less that of the imports nearest below it that bring something in. */
  function ShareOf(i: Import, known: set<string>, outer: seq<string>): Share {
    Share(i.root, i.after - i.before - Growth(Nearest(i.nested, known + {i.root})), outer + [i.importer])
  }

  /** The share of every package brought in; `outer` is the chain of the package around these imports. */
  function Shares(imports: seq<Import>, known: set<string>, outer: seq<string>): seq<Share>
    decreases imports
  {
    if imports == [] then []
    else
      var i := imports[0];
      (if Brings(i, known) then Shares(i.nested, known + {i.root}, outer + [i.importer]) + [ShareOf(i, known, outer)]
       else Shares(i.nested, known, outer))
      + Shares(imports[1..], known + Wanted([i]), outer)
  }

  function Outer(t: Tracker): seq<string>
    requires Rooted(t)
  {
    if t.stack == [] then [] else t.chains[Top(t).root]
  }

  predicate Holds(t: Tracker, s: Share) {
    && s.root in t.own && t.own[s.root] == s.own
    && s.root in t.chains && t.chains[s.root] == s.chain
  }

  /** From `t` to `t'`: these packages got entries, these shares were measured, the top was charged this much. */
  ghost predicate Brought(t: Tracker, t': Tracker, wanted: set<string>, shares: seq<Share>, charged: real) {
    && t'.via.Keys == t.via.Keys + wanted && Grows(t, t')
    && (forall s :: s in shares ==> Holds(t', s))
    && (t.stack != [] ==> SameStack(t, t') && Top(t').children == Top(t).children + charged)
  }

  lemma WantedOne(i: Import)
    ensures Wanted([i]) == (if i.absolute && !i.loaded then {i.root} else {}) + Wanted(i.nested)
  {
    assert [i][1..] == [];
  }

  lemma BroughtJoin(a: Tracker, b: Tracker, c: Tracker, v: set<string>, w: set<string>, m: seq<Share>, n: seq<Share>,
                    x: real, y: real)
    requires Brought(a, b, v, m, x) && Brought(b, c, w, n, y)
    ensures Brought(a, c, v + w, m + n, x + y)
  {
    GrowsTransitive(a, b, c);
    forall s | s in m + n ensures Holds(c, s) {
      assert s in m || s in n;
    }
  }

  lemma OneMoreHolds(a: Tracker, b: Tracker, shares: seq<Share>, share: Share)
    requires Grows(a, b) && (forall s :: s in shares ==> Holds(a, s)) && Holds(b, share)
    ensures forall s :: s in shares + [share] ==> Holds(b, s)
  {
    forall s | s in shares + [share] ensures Holds(b, s) {
      assert s in shares || s == share;
    }
  }

  lemma ItselfEntered(t: Tracker, i: Import, inside: Tracker, wanted: set<string>)
    requires Rooted(t) && inside.stack != [] && inside.via.Keys == Enter(t, i).via.Keys + wanted
    ensures Exit(inside, i.after).via.Keys == t.via.Keys + ({i.root} + wanted)
  {
    assert Enter(t, i).via.Keys == t.via.Keys + {i.root};
  }

  /** What is measured for the import itself, when the imports made inside it have been charged to it. */
  lemma ItselfHolds(t: Tracker, i: Import, inside: Tracker, share: Share)
    requires Inv(t) && Inv(inside) && First(t, i) && Grows(Enter(t, i), inside) && SameStack(Enter(t, i), inside)
    requires share == Share(i.root, i.after - i.before - Top(inside).children, Outer(t) + [i.importer])
    ensures Holds(Exit(inside, i.after), share)
  {
    ExitReturns(t, i, inside);
    ExitKeepsMeasured(inside, i.after);
    assert i.root in Enter(t, i).chains && Enter(t, i).chains[i.root] == Outer(t) + [i.importer];
  }

  lemma ItselfGrows(t: Tracker, i: Import, inside: Tracker)
    requires Inv(t) && Inv(inside) && First(t, i) && Grows(Enter(t, i), inside) && SameStack(Enter(t, i), inside)
    ensures inside.stack != []
    ensures Grows(t, Exit(inside, i.after)) && Grows(inside, Exit(inside, i.after))
  {
    EnterKeepsInv(t, i);
    ExitReturns(t, i, inside);
    ExitKeepsInv(inside, i.after);
    GrowsTransitive(t, Enter(t, i), inside);
    GrowsTransitive(t, inside, Exit(inside, i.after));
  }

  /** The import itself, after those made inside it. */
  lemma BringsItself(t: Tracker, i: Import, inside: Tracker, wanted: set<string>, shares: seq<Share>, share: Share)
    requires Inv(t) && Inv(inside) && First(t, i) && inside.stack != []
    requires Brought(Enter(t, i), inside, wanted, shares, Top(inside).children)
    requires share == Share(i.root, i.after - i.before - Top(inside).children, Outer(t) + [i.importer])
    ensures Brought(t, Exit(inside, i.after), {i.root} + wanted, shares + [share], i.after - i.before)
  {
    var t3 := Exit(inside, i.after);
    ItselfGrows(t, i, inside);
    ItselfEntered(t, i, inside, wanted);
    ItselfHolds(t, i, inside, share);
    OneMoreHolds(inside, t3, shares, share);
    ChargesTop(t, i, inside);
  }

  lemma ChargesTop(t: Tracker, i: Import, inside: Tracker)
    requires Rooted(t) && Rooted(inside) && SameStack(Enter(t, i), inside)
    ensures t.stack != [] ==> inside.stack != [] && SameStack(t, Exit(inside, i.after))
                              && Top(Exit(inside, i.after)).children == Top(t).children + (i.after - i.before)
  {
    ExitReturns(t, i, inside);
    if t.stack != [] {
      assert inside.stack[|t.stack| - 1] == Enter(t, i).stack[|t.stack| - 1] == Top(t);
    }
  }

  function SharesOne(i: Import, known: set<string>, outer: seq<string>): seq<Share> {
    if Brings(i, known) then Shares(i.nested, known + {i.root}, outer + [i.importer]) + [ShareOf(i, known, outer)]
    else Shares(i.nested, known, outer)
  }

  function ChargeOne(i: Import, known: set<string>): real {
    if Brings(i, known) then i.after - i.before else Growth(Nearest(i.nested, known))
  }

  lemma EnterOuter(t: Tracker, i: Import)
    requires Rooted(t)
    ensures var t1 := Enter(t, i);
            Rooted(t1) && t1.via.Keys == t.via.Keys + {i.root} && Outer(t1) == Outer(t) + [i.importer]
            && Top(t1).children == 0.0
  {
  }

  /** Once the imports made inside have run, the top of the stack has been charged for the nearest of them. */
  lemma FirstBrings(t: Tracker, i: Import, inside: Tracker, shares: seq<Share>, below: real)
    requires Inv(t) && Inv(inside) && First(t, i) && below == Growth(Nearest(i.nested, t.via.Keys + {i.root}))
    requires Brought(Enter(t, i), inside, Wanted(i.nested), shares, below)
    ensures inside.stack != []
    ensures Brought(t, Exit(inside, i.after), {i.root} + Wanted(i.nested), shares + [ShareOf(i, t.via.Keys, Outer(t))],
                    i.after - i.before)
  {
    EnterOuter(t, i);
    assert inside.stack != [] && Top(inside).children == below;
    BringsItself(t, i, inside, Wanted(i.nested), shares, ShareOf(i, t.via.Keys, Outer(t)));
  }

  lemma {:induction false} TrackBrings(t: Tracker, i: Import)
    requires Inv(t)
    ensures Brought(t, Track(t, i), Wanted([i]), SharesOne(i, t.via.Keys, Outer(t)), ChargeOne(i, t.via.Keys))
    decreases i, 1
  {
    WantedOne(i);
    if First(t, i) {
      var t1 := Enter(t, i);
      EnterKeepsInv(t, i);
      EnterOuter(t, i);
      TrackAllBrings(t1, i.nested);
      TrackAllKeepsInv(t1, i.nested);
      TrackFirst(t, i);
      FirstBrings(t, i, TrackAll(t1, i.nested), Shares(i.nested, t1.via.Keys, Outer(t1)),
                  Growth(Nearest(i.nested, t1.via.Keys)));
    } else {
      TrackAllBrings(t, i.nested);
    }
  }

  lemma {:induction false} TrackAllBrings(t: Tracker, imports: seq<Import>)
    requires Inv(t)
    ensures Brought(t, TrackAll(t, imports), Wanted(imports), Shares(imports, t.via.Keys, Outer(t)),
                    Growth(Nearest(imports, t.via.Keys)))
    decreases imports, 0
  {
    if imports == [] {
    } else {
      var i := imports[0];
      var known, next := t.via.Keys, Track(t, i);
      TrackBrings(t, i);
      TrackKeepsInv(t, i);
      TrackAllBrings(next, imports[1..]);
      OuterStays(t, next);
      BroughtJoin(t, next, TrackAll(t, imports), Wanted([i]), Wanted(imports[1..]), SharesOne(i, known, Outer(t)),
                  Shares(imports[1..], next.via.Keys, Outer(t)), ChargeOne(i, known),
                  Growth(Nearest(imports[1..], next.via.Keys)));
      WantedOne(i);
      NearestGrowth(imports, known);
    }
  }

  lemma OuterStays(t: Tracker, t': Tracker)
    requires Rooted(t) && Rooted(t') && SameStack(t, t') && Grows(t, t')
    ensures Outer(t) == Outer(t')
  {
    if t.stack != [] {
      assert Top(t) in t.stack;
    }
  }

  lemma NearestGrowth(imports: seq<Import>, known: set<string>)
    requires imports != []
    ensures Growth(Nearest(imports, known))
            == ChargeOne(imports[0], known) + Growth(Nearest(imports[1..], known + Wanted([imports[0]])))
  {
    var i := imports[0];
    GrowthConcat(if Brings(i, known) then [Span(i.before, i.after)] else Nearest(i.nested, known),
                 Nearest(imports[1..], known + Wanted([i])));
  }

  ghost predicate Named(shares: seq<Share>, root: string) {
    exists s :: s in shares && s.root == root
  }

  lemma NamedJoin(a: seq<Share>, b: seq<Share>, root: string)
    ensures Named(a + b, root) <==> Named(a, root) || Named(b, root)
  {
    if Named(a, root) {
      var s :| s in a && s.root == root;
      assert s in a + b;
    }
    if Named(b, root) {
      var s :| s in b && s.root == root;
      assert s in a + b;
    }
  }

  lemma {:induction false} ShareRoots(imports: seq<Import>, known: set<string>, outer: seq<string>, root: string)
    ensures Named(Shares(imports, known, outer), root) <==> root in Wanted(imports) && root !in known
    decreases imports
  {
    if imports != [] {
      var i := imports[0];
      ShareRootsOne(i, known, outer, root);
      WantedOne(i);
      ShareRoots(imports[1..], known + Wanted([i]), outer, root);
      NamedJoin(SharesOne(i, known, outer), Shares(imports[1..], known + Wanted([i]), outer), root);
    }
  }

  lemma {:induction false} ShareRootsOne(i: Import, known: set<string>, outer: seq<string>, root: string)
    ensures Named(SharesOne(i, known, outer), root) <==> root in Wanted([i]) && root !in known
    decreases i
  {
    WantedOne(i);
    if Brings(i, known) {
      ShareRoots(i.nested, known + {i.root}, outer + [i.importer], root);
      NamedJoin(Shares(i.nested, known + {i.root}, outer + [i.importer]), [ShareOf(i, known, outer)], root);
      assert Named([ShareOf(i, known, outer)], root) <==> root == i.root by {
        assert ShareOf(i, known, outer) in [ShareOf(i, known, outer)];
      }
    } else {
      ShareRoots(i.nested, known, outer, root);
    }
  }

  /**
   For every tree of imports, with nothing assumed of the readings: the packages measured, and those with an
   entry, are exactly those some import asks for before they are loaded, each measured once. What a package is
   given is its growth less that of the imports nearest below it that bring something in, and it is blamed on
   the nearest module of ours among those that imported it and the packages around it.
   */
  lemma EachRootOnceAndBlamed(imports: seq<Import>)
    ensures var t := TrackAll(Fresh(), imports);
            && Distinct(AllMeasurements(Fresh(), imports))
            && (forall r :: r in AllMeasurements(Fresh(), imports) <==> r in Wanted(imports))
            && t.own.Keys == t.via.Keys == Wanted(imports)
            && (forall r :: r in Wanted(imports) ==> Named(Shares(imports, {}, []), r))
            && (forall s :: s in Shares(imports, {}, []) ==>
                  s.root in t.own && t.own[s.root] == s.own && s.chain != [] && t.via[s.root] == Blame(s.chain))
  {
    var t := TrackAll(Fresh(), imports);
    TrackAllKeepsInv(Fresh(), imports);
    TrackAllMeasures(Fresh(), imports);
    TrackAllBrings(Fresh(), imports);
    assert SameStack(Fresh(), t);
    forall r | r in Wanted(imports) ensures Named(Shares(imports, {}, []), r) {
      ShareRoots(imports, {}, [], r);
    }
  }

  // ----- The column sums to the growth of the outermost tracked imports --------------------------

  lemma {:induction false} GrowthConcat(a: seq<Span>, b: seq<Span>)
    ensures Growth(a + b) == Growth(a) + Growth(b)
  {
    if a == [] {
      assert a + b == b;
    } else {
      assert (a + b)[1..] == a[1..] + b;
      GrowthConcat(a[1..], b);
    }
  }

  /** What has been attributed so far, less what the innermost running measurement will be charged for. */
  ghost function Settled(t: Tracker): real {
    Sum(t.own) - if t.stack == [] then 0.0 else Top(t).children
  }

  /** Leaving an import settles its growth when it is outermost, and passes it on otherwise. */
  lemma ExitSettles(t: Tracker, i: Import, inside: Tracker)
    requires Rooted(t) && Rooted(inside) && SameStack(Enter(t, i), inside)
    requires Settled(inside) == Settled(Enter(t, i))
    ensures inside.stack != []
    ensures Settled(Exit(inside, i.after)) == Settled(t) + if t.stack == [] then i.after - i.before else 0.0
  {
    ExitReturns(t, i, inside);
    SumAdd(inside.own, i.root, i.after - i.before - Top(inside).children);
    if t.stack != [] {
      assert inside.stack[|t.stack| - 1] == Enter(t, i).stack[|t.stack| - 1] == Top(t);
      assert Top(Exit(inside, i.after)).children == Top(t).children + (i.after - i.before);
    }
  }

  lemma {:induction false} TrackSettles(t: Tracker, i: Import)
    requires Inv(t)
    ensures Settled(Track(t, i)) == Settled(t) + if t.stack == [] then ChargeOne(i, t.via.Keys) else 0.0
    decreases i, 1
  {
    if First(t, i) {
      var t1 := Enter(t, i);
      EnterKeepsInv(t, i);
      TrackAllSettles(t1, i.nested);
      ExitSettles(t, i, TrackAll(t1, i.nested));
    } else {
      TrackAllSettles(t, i.nested);
    }
  }

  lemma {:induction false} TrackAllSettles(t: Tracker, imports: seq<Import>)
    requires Inv(t)
    ensures Settled(TrackAll(t, imports))
            == Settled(t) + if t.stack == [] then Growth(Nearest(imports, t.via.Keys)) else 0.0
    decreases imports, 0
  {
    if imports != [] {
      var next := Track(t, imports[0]);
      TrackSettles(t, imports[0]);
      TrackKeepsInv(t, imports[0]);
      TrackBrings(t, imports[0]);
      TrackAllSettles(next, imports[1..]);
      NearestGrowth(imports, t.via.Keys);
    }
  }

  /** For every tree of imports and every sequence of readings, the column sums to the outermost imports' growth. */
  lemma ColumnSumsToOutermostGrowth(imports: seq<Import>)
    ensures Sum(TrackAll(Fresh(), imports).own) == Growth(Nearest(imports, {}))
  {
    assert Inv(Fresh()) && Fresh().via.Keys == {};
    TrackAllSettles(Fresh(), imports);
    assert SameStack(Fresh(), TrackAll(Fresh(), imports));
  }

  /** Growth between the outermost tracked imports, from the first reading to the last. */
  function Between(start: real, spans: seq<Span>, total: real): real
    decreases |spans|
  {
    if spans == [] then total - start else spans[0].before - start + Between(spans[0].after, spans[1..], total)
  }

  lemma {:induction false} SpansAndGaps(start: real, spans: seq<Span>, total: real)
    ensures total - start == Growth(spans) + Between(start, spans, total)
    decreases |spans|
  {
    if spans != [] {
      SpansAndGaps(spans[0].after, spans[1..], total);
    }
  }

  /**
   The documented claim, that the column sums to the total, holds exactly when nothing grows between those
   imports.
   */
  lemma ColumnSumsToTotalExactlyWhenNothingElseGrows(imports: seq<Import>, start: real, total: real)
    ensures Sum(TrackAll(Fresh(), imports).own) == total - start
       <==> Between(start, Nearest(imports, {}), total) == 0.0
  {
    ColumnSumsToOutermostGrowth(imports);
    SpansAndGaps(start, Nearest(imports, {}), total);
  }

  /** A tree that misses: one package adding nothing, imported after the process has grown by one. */
  lemma ColumnMayMissTotal()
    ensures var imports := [Import("numpy", true, false, "src.ai.main", 1.0, [], 1.0)];
            var (start, total) := (0.0, 1.0);
            Sum(TrackAll(Fresh(), imports).own) == 0.0 && Sum(TrackAll(Fresh(), imports).own) != total - start
  {
    var imports := [Import("numpy", true, false, "src.ai.main", 1.0, [], 1.0)];
    assert imports[1..] == [];
    assert Nearest(imports, {}) == [Span(1.0, 1.0)];
    ColumnSumsToOutermostGrowth(imports);
    assert Growth([Span(1.0, 1.0)]) == 0.0;
  }

  // ----- The per-module table --------------------------------------------------------------------

  function Charge(via: map<string, string>, root: string): string {
    if root in via then via[root] else "?"
  }

  function Charges(via: map<string, string>, column: seq<Item<string>>): (r: seq<Item<string>>)
    ensures |r| == |column|
  {
    if column == [] then []
    else Charges(via, column[..|column| - 1])
         + [Item(Charge(via, column[|column| - 1].key), column[|column| - 1].amount)]
  }

  lemma {:induction false} ChargesSum(via: map<string, string>, column: seq<Item<string>>)
    ensures SumOf(Charges(via, column)) == SumOf(column)
  {
    if column != [] {
      ChargesSum(via, column[..|column| - 1]);
      assert Charges(via, column)[..|column| - 1] == Charges(via, column[..|column| - 1]);
    }
  }

  /** `by_module`: its totals have the same sum as the column. */
  method TotalsByModule(own: map<string, real>, via: map<string, string>, column: seq<Item<string>>)
    returns (byModule: map<string, real>)
    requires Lists(own, column)
    ensures byModule == Grouped(Charges(via, column))
    ensures Sum(byModule) == Sum(own)
  {
    byModule := map[];
    for i := 0 to |column|
      invariant byModule == Grouped(Charges(via, column[..i]))
    {
      assert column[..i + 1][..i] == column[..i];
      GroupedAppend(Charges(via, column[..i]), Item(Charge(via, column[i].key), column[i].amount));
      byModule := Add(byModule, Charge(via, column[i].key), column[i].amount);
    }
    assert column[..|column|] == column;
    GroupedSum(Charges(via, column));
    ChargesSum(via, column);
    ListedSum(own, column);
  }

  // ----- The wrapped import ----------------------------------------------------------------------

  lemma TrackAllStep(t: Tracker, imports: seq<Import>, k: nat)
    requires Rooted(t) && k < |imports|
    ensures TrackAll(t, imports[k..]) == TrackAll(Track(t, imports[k]), imports[k + 1..])
  {
    assert imports[k..][0] == imports[k] && imports[k..][1..] == imports[k + 1..];
  }

  /** A package imported for the first time is entered, its module body runs, and it is left. */
  lemma TrackFirst(t: Tracker, i: Import)
    requires Rooted(t) && First(t, i)
    ensures Rooted(Enter(t, i)) && TrackAll(Enter(t, i), i.nested).stack != []
    ensures Track(t, i) == Exit(TrackAll(Enter(t, i), i.nested), i.after)
  {
    ExitReturns(t, i, TrackAll(Enter(t, i), i.nested));
  }

  class ImportTracker {
    var stack: seq<Frame>
    var own: map<string, real>
    var via: map<string, string>
    ghost var chains: map<string, seq<string>>

    ghost function Now(): Tracker
      reads this
    {
      Tracker(stack, own, via, chains)
    }

    constructor ()
      ensures Now() == Fresh()
    {
      stack, own, via, chains := [], map[], map[], map[];
    }

    method Push(i: Import)
      requires Rooted(Now())
      modifies this
      ensures Now() == Enter(old(Now()), i) && Rooted(Now())
    {
      var n := |stack|;
      chains := chains[i.root := (if n == 0 then [] else chains[stack[n - 1].root]) + [i.importer]];
      via := via[i.root := if OursByName(i.importer) || n == 0 then i.importer else via[stack[n - 1].root]];
      stack := stack + [Frame(i.root, i.before, 0.0)];
    }

    method Pop(after: real)
      requires stack != []
      modifies this
      ensures Now() == Exit(old(Now()), after)
    {
      var f := stack[|stack| - 1];
      stack := stack[..|stack| - 1];
      var inclusive := after - f.before;
      own := Add(own, f.root, inclusive - f.children);
      if stack != [] {
        var m := |stack| - 1;
        stack := stack[m := stack[m].(children := stack[m].children + inclusive)];
      }
    }

    method TrackingImport(i: Import)
      requires Rooted(Now())
      modifies this
      ensures Rooted(Now()) && Now() == Track(old(Now()), i)
      decreases i, 1
    {
      if !i.absolute || i.loaded || i.root in via {
        RealImports(i.nested);
        return;
      }
      TrackFirst(Now(), i);
      Push(i);
      RealImports(i.nested);
      Pop(i.after);
    }

    /** The imports a module body makes, one after the other. */
    method RealImports(imports: seq<Import>)
      requires Rooted(Now())
      modifies this
      ensures Rooted(Now()) && Now() == TrackAll(old(Now()), imports)
      decreases imports, 0
    {
      for k := 0 to |imports|
        invariant Rooted(Now()) && TrackAll(old(Now()), imports) == TrackAll(Now(), imports[k..])
      {
        TrackAllStep(Now(), imports, k);
        TrackingImport(imports[k]);
      }
    }
  }
}
