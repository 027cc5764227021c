/**
 Following a route handler's calls through the helper functions of its file.

 The worklist starts with the handler's direct calls; visiting a helper adds every call in its body. A
 syntax tree is reduced to what the loop reads of it: per function name, the calls in its body.
 */
module HelperWorklist {
  type File = map<string, seq<string>>

  /** Names whose presence is evidence of an entitlement check. */
  predicate IsCheck(target: string) {
    "usage." <= target || "credits." <= target
  }

  /** A chain of same-file functions, each called in the body of the one before. */
  ghost predicate Chain(file: File, p: seq<string>) {
    && p != [] && (forall i :: 0 <= i < |p| ==> p[i] in file)
    && forall i :: 0 <= i < |p| - 1 ==> p[i + 1] in file[p[i]]
  }

  ghost predicate Reaches(file: File, calls: seq<string>, f: string) {
    exists p :: Chain(file, p) && p[0] in calls && p[|p| - 1] == f
  }

  /** Every function of the file that is called from `calls` or from inside is inside, or waiting. */
  ghost predicate ClosedUpTo(file: File, calls: seq<string>, inside: set<string>, waiting: seq<string>) {
    && (forall c :: c in calls && c in file ==> c in inside || c in waiting)
    && (forall f, c :: f in inside && f in file && c in file[f] && c in file ==> c in inside || c in waiting)
  }

  /** The check names called in the bodies of some functions. */
  ghost predicate ChecksOf(file: File, functions: set<string>, checks: set<string>) {
    forall c :: c in checks <==> IsCheck(c) && exists f :: f in functions && f in file && c in file[f]
  }

  lemma ReachStep(file: File, calls: seq<string>, f: string, c: string)
    requires Reaches(file, calls, f) && f in file && c in file[f] && c in file
    ensures Reaches(file, calls, c)
  {
    var p :| Chain(file, p) && p[0] in calls && p[|p| - 1] == f;
    assert Chain(file, p + [c]);
  }

  lemma ReachStart(file: File, calls: seq<string>, c: string)
    requires c in calls && c in file
    ensures Reaches(file, calls, c)
  {
    assert Chain(file, [c]);
  }

  lemma {:induction false} ClosedHoldsChain(file: File, calls: seq<string>, inside: set<string>, p: seq<string>)
    requires ClosedUpTo(file, calls, inside, []) && Chain(file, p) && p[0] in calls
    ensures p[|p| - 1] in inside
  {
    var n := |p| - 1;
    if n > 0 {
      assert Chain(file, p[..n]);
      ClosedHoldsChain(file, calls, inside, p[..n]);
      assert p[n] in file[p[n - 1]];
    }
  }

  /**
   Whatever a worklist does, a set that is reachable and closed is the set of all reachable functions: the
   order cannot matter.
   */
  lemma ClosedAndReachedIsExact(file: File, calls: seq<string>, inside: set<string>)
    requires ClosedUpTo(file, calls, inside, [])
    requires forall f :: f in inside ==> f in file && Reaches(file, calls, f)
    ensures forall f :: f in inside <==> Reaches(file, calls, f)
  {
    forall f | Reaches(file, calls, f) ensures f in inside {
      var p :| Chain(file, p) && p[0] in calls && p[|p| - 1] == f;
      ClosedHoldsChain(file, calls, inside, p);
    }
  }

  /** What the loop keeps: sound, and complete up to what is still pending. */
  ghost predicate Loop(file: File, calls: seq<string>, visited: set<string>, pending: seq<string>) {
    && (forall f :: f in visited ==> f in file && Reaches(file, calls, f))
    && (forall c :: c in pending && c in file ==> Reaches(file, calls, c))
    && ClosedUpTo(file, calls, visited, pending)
  }

  /** The list without one of its entries. */
  function Removed(pending: seq<string>, k: nat): seq<string>
    requires k < |pending|
  {
    pending[..k] + pending[k + 1..]
  }

  lemma StillThere(pending: seq<string>, k: nat)
    requires k < |pending|
    ensures forall c :: c in pending <==> c in Removed(pending, k) || c == pending[k]
  {
    assert pending == pending[..k] + [pending[k]] + pending[k + 1..];
  }

  lemma SkipKeepsLoop(file: File, calls: seq<string>, visited: set<string>, pending: seq<string>, k: nat)
    requires k < |pending| && Loop(file, calls, visited, pending) && (pending[k] in visited || pending[k] !in file)
    ensures Loop(file, calls, visited, Removed(pending, k))
  {
    StillThere(pending, k);
  }

  lemma VisitKeepsLoop(file: File, calls: seq<string>, visited: set<string>, pending: seq<string>, k: nat)
    requires k < |pending| && Loop(file, calls, visited, pending) && pending[k] in file
    ensures Loop(file, calls, visited + {pending[k]}, Removed(pending, k) + file[pending[k]])
  {
    var helper := pending[k];
    StillThere(pending, k);
    assert forall c :: c in Removed(pending, k) + file[helper] <==> c in Removed(pending, k) || c in file[helper];
    forall c | c in file[helper] && c in file ensures Reaches(file, calls, c) {
      ReachStep(file, calls, helper, c);
    }
  }

  lemma VisitKeepsChecks(file: File, visited: set<string>, checks: set<string>, helper: string, found: set<string>)
    requires ChecksOf(file, visited, checks) && helper in file && helper !in visited
    requires found == set c | c in file[helper] && IsCheck(c)
    ensures ChecksOf(file, visited + {helper}, checks + found)
    ensures |file.Keys - (visited + {helper})| < |file.Keys - visited|
  {
    var rest := file.Keys - (visited + {helper});
    assert file.Keys - visited == rest + {helper};
    forall c
      ensures c in checks + found <==> IsCheck(c) && exists f :: f in visited + {helper} && f in file && c in file[f]
    {
      if c in found {
        assert helper in visited + {helper} && c in file[helper];
      }
    }
  }

  /**
   The worklist of `route_inventory`: it terminates with exactly the same-file functions reachable from the
   direct calls, and exactly the checks called in their bodies. The source takes the last entry; here any
   entry may be taken.
   */
  method HelperChecks(file: File, calls: seq<string>) returns (visited: set<string>, checks: set<string>)
    ensures forall f :: f in visited <==> Reaches(file, calls, f)
    ensures ChecksOf(file, visited, checks)
  {
    visited, checks := {}, {};
    var pending := calls;
    forall c | c in calls && c in file ensures Reaches(file, calls, c) {
      ReachStart(file, calls, c);
    }
    while pending != []
      invariant Loop(file, calls, visited, pending) && ChecksOf(file, visited, checks)
      decreases |file.Keys - visited|, |pending|
    {
      var drawn: nat := *;
      var k := drawn % |pending|;
      var helper := pending[k];
      if helper in visited || helper !in file {
        SkipKeepsLoop(file, calls, visited, pending, k);
        pending := Removed(pending, k);
      } else {
        VisitKeepsLoop(file, calls, visited, pending, k);
        var found;
        pending, found := Walk(file[helper], Removed(pending, k));
        VisitKeepsChecks(file, visited, checks, helper, found);
        visited, checks := visited + {helper}, checks + found;
      }
    }
    ClosedAndReachedIsExact(file, calls, visited);
  }

  /** The inner loop over one helper's body. */
  method Walk(body: seq<string>, pending: seq<string>) returns (longer: seq<string>, found: set<string>)
    ensures longer == pending + body
    ensures found == set c | c in body && IsCheck(c)
  {
    longer, found := pending, {};
    for i := 0 to |body|
      invariant longer == pending + body[..i]
      invariant found == set c | c in body[..i] && IsCheck(c)
    {
      assert body[..i + 1] == body[..i] + [body[i]];
      longer := longer + [body[i]];
      if IsCheck(body[i]) {
        found := found + {body[i]};
      }
    }
    assert body[..|body|] == body;
  }
}
