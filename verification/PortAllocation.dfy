/**
 Choosing local ports: for each service, in order, the first port from its preference on that is free and not
 chosen yet.
 */
module PortAllocation {
  import opened Common

  type Port = nat

  /** Binding beyond this raises OverflowError, which `available` does not catch. */
  const LAST_PORT: Port := 65535

  datatype Choice = Choice(name: string, port: Port)

  function Ports(s: seq<Choice>): set<Port> {
    set c | c in s :: c.port
  }

  predicate Open(p: Port, chosen: seq<Choice>, free: Port -> bool) {
    p !in Ports(chosen) && free(p)
  }

  /** `p` is the least open port from `start` on. */
  ghost predicate Least(p: Port, start: Port, chosen: seq<Choice>, free: Port -> bool) {
    start <= p <= LAST_PORT && Open(p, chosen, free) && forall q :: start <= q < p ==> !Open(q, chosen, free)
  }

  ghost predicate Exhausted(start: Port, chosen: seq<Choice>, free: Port -> bool) {
    forall q :: start <= q <= LAST_PORT ==> !Open(q, chosen, free)
  }

  /** `chosen` serves the first |chosen| preferences, each with the least port open when its turn came. */
  ghost predicate Serves(chosen: seq<Choice>, preferred: seq<Choice>, free: Port -> bool) {
    && |chosen| <= |preferred|
    && forall i :: 0 <= i < |chosen| ==>
         chosen[i].name == preferred[i].name && Least(chosen[i].port, preferred[i].port, chosen[..i], free)
  }

  /** Some preference finds every port from it on taken, after the earlier ones were served. */
  ghost predicate Fails(preferred: seq<Choice>, free: Port -> bool) {
    exists done ::
      Serves(done, preferred, free) && |done| < |preferred| && Exhausted(preferred[|done|].port, done, free)
  }

  method FirstOpen(start: Port, chosen: seq<Choice>, free: Port -> bool) returns (port: Option<Port>)
    ensures port.Some? ==> Least(port.value, start, chosen, free)
    ensures port.None? ==> Exhausted(start, chosen, free)
  {
    var p := start;
    while p <= LAST_PORT && !Open(p, chosen, free)
      invariant forall q :: start <= q < p ==> !Open(q, chosen, free)
    {
      p := p + 1;
    }
    return if p <= LAST_PORT then Some(p) else None;
  }

  lemma ServesOneMore(chosen: seq<Choice>, port: Port, preferred: seq<Choice>, free: Port -> bool)
    requires Serves(chosen, preferred, free) && |chosen| < |preferred|
    requires Least(port, preferred[|chosen|].port, chosen, free)
    ensures Serves(chosen + [Choice(preferred[|chosen|].name, port)], preferred, free)
  {
    var more := chosen + [Choice(preferred[|chosen|].name, port)];
    forall i | 0 <= i < |more| ensures Least(more[i].port, preferred[i].port, more[..i], free) {
      assert more[..i] == chosen[..i];
      assert chosen[..|chosen|] == chosen;
    }
  }

  /** `allocate_ports`; None stands for the OverflowError past the last port. It always terminates. */
  method AllocatePorts(preferred: seq<Choice>, free: Port -> bool) returns (selected: Option<seq<Choice>>)
    ensures selected.Some? ==> Serves(selected.value, preferred, free) && |selected.value| == |preferred|
    ensures selected.None? <==> Fails(preferred, free)
  {
    var chosen: seq<Choice> := [];
    for i := 0 to |preferred|
      invariant |chosen| == i && Serves(chosen, preferred, free)
    {
      var port := FirstOpen(preferred[i].port, chosen, free);
      if port.None? {
        return None;
      }
      ServesOneMore(chosen, port.value, preferred, free);
      chosen := chosen + [Choice(preferred[i].name, port.value)];
    }
    ServedNotFailing(chosen, preferred, free);
    return Some(chosen);
  }

  lemma ServesPrefix(s: seq<Choice>, preferred: seq<Choice>, free: Port -> bool, n: nat)
    requires Serves(s, preferred, free) && n <= |s|
    ensures Serves(s[..n], preferred, free)
  {
    forall i | 0 <= i < n ensures Least(s[..n][i].port, preferred[i].port, s[..n][..i], free) {
      assert s[..n][..i] == s[..i];
    }
  }

  lemma LeastUnique(p: Port, q: Port, start: Port, chosen: seq<Choice>, free: Port -> bool)
    requires Least(p, start, chosen, free) && Least(q, start, chosen, free)
    ensures p == q
  {
  }

  /** The answer is determined by the preferences and the free ports. */
  lemma {:induction false} ServesUnique(a: seq<Choice>, b: seq<Choice>, preferred: seq<Choice>, free: Port -> bool)
    requires Serves(a, preferred, free) && Serves(b, preferred, free) && |a| <= |b|
    ensures a == b[..|a|]
    decreases |a|
  {
    if a != [] {
      var n := |a| - 1;
      ServesPrefix(a, preferred, free, n);
      ServesUnique(a[..n], b, preferred, free);
      LeastUnique(a[n].port, b[n].port, preferred[n].port, a[..n], free);
      assert a == a[..n] + [a[n]] && b[..n + 1] == b[..n] + [b[n]];
    }
  }

  lemma ServedNotFailing(chosen: seq<Choice>, preferred: seq<Choice>, free: Port -> bool)
    requires Serves(chosen, preferred, free) && |chosen| == |preferred|
    ensures !Fails(preferred, free)
  {
    forall done | Serves(done, preferred, free) && |done| < |preferred|
      ensures !Exhausted(preferred[|done|].port, done, free)
    {
      ServesUnique(done, chosen, preferred, free);
      assert Least(chosen[|done|].port, preferred[|done|].port, done, free);
    }
  }

  /** No two services get the same port. */
  lemma {:induction false} ServedPortsAreDistinct(chosen: seq<Choice>, preferred: seq<Choice>, free: Port -> bool,
                                                  i: nat, j: nat)
    requires Serves(chosen, preferred, free) && i < j < |chosen|
    ensures chosen[i].port != chosen[j].port
  {
    assert Least(chosen[j].port, preferred[j].port, chosen[..j], free);
    assert chosen[..j][i] == chosen[i];
  }

  /** As many free ports from each preference on as there are services is enough. */
  lemma EnoughPortsSuffice(preferred: seq<Choice>, free: Port -> bool)
    requires forall i :: 0 <= i < |preferred| ==> |FreeFrom(preferred[i].port, free)| >= |preferred|
    ensures !Fails(preferred, free)
  {
    if Fails(preferred, free) {
      var done :| Serves(done, preferred, free) && |done| < |preferred|
        && Exhausted(preferred[|done|].port, done, free);
      var rest := FreeFrom(preferred[|done|].port, free);
      assert rest <= Ports(done) by {
        forall q | q in rest ensures q in Ports(done) { assert !Open(q, done, free); }
      }
      FewPorts(done);
      SubsetSize(rest, Ports(done));
    }
  }

  function FreeFrom(start: Port, free: Port -> bool): set<Port> {
    set q: Port | start <= q <= LAST_PORT && free(q)
  }

  lemma {:induction false} FewPorts(s: seq<Choice>)
    ensures |Ports(s)| <= |s|
  {
    if s != [] {
      FewPorts(s[1..]);
      assert Ports(s) == {s[0].port} + Ports(s[1..]) by { assert s == [s[0]] + s[1..]; }
    }
  }

  lemma {:induction false} SubsetSize(a: set<Port>, b: set<Port>)
    requires a <= b
    ensures |a| <= |b|
  {
    if a != {} {
      var x :| x in a;
      SubsetSize(a - {x}, b - {x});
    }
  }
}
