/**
 Binding a verified billing event to one company.

 Several deliveries of one event can be in progress at once, each on its own connection. They share the
 receipt table, whose row locks decide who may change a receipt; each also has a field of its own, the
 tenant it believes it is bound to, which no rollback undoes.
 */
module WebhookBinding {
  import opened Common

  type Tenant = string
  type EventId = string
  type ConnId = nat

  const ZERO_ACTOR: Tenant := "00000000-0000-0000-0000-000000000000"

  /** A row of billing_webhook_events. */
  datatype Receipt = Receipt(tenant: Option<Tenant>, processed: Option<int>)

  /** An uncommitted row version. Having one is holding the row's lock. */
  datatype Version = Version(event: EventId, row: Receipt)

  datatype Table = Table(committed: map<EventId, Receipt>, pending: map<ConnId, Version>)

  /** What became of the connection's binding: a history variable, read by no step. */
  datatype Standing = Unbound | InTransaction | Durable | Undone

  /** A webhook connection. `context` is the transaction's app.billing_event_id and app.current_tenant_id. */
  datatype Conn = Conn(event: EventId, tenant: Tenant, context: (EventId, Tenant), aborted: bool, standing: Standing)

  datatype Reply = Done | SwitchRefused | NoReceipt | Guarded | Waits | InFailedTransaction

  function OpenConn(event: EventId): Conn {
    Conn(event, ZERO_ACTOR, (event, ZERO_ACTOR), false, Unbound)
  }

  /** Another transaction has an uncommitted version of this event's row. */
  predicate LockedByOther(t: Table, id: ConnId, event: EventId) {
    exists d :: d in t.pending && d != id && t.pending[d].event == event
  }

  /** The row this connection's statements see: its own version, else the committed one. */
  function Visible(t: Table, id: ConnId, event: EventId): Option<Receipt> {
    if id in t.pending && t.pending[id].event == event then Some(t.pending[id].row)
    else if event in t.committed then Some(t.committed[event])
    else None
  }

  function Write(t: Table, id: ConnId, event: EventId, row: Receipt): Table {
    t.(pending := t.pending[id := Version(event, row)])
  }

  /** claim_event: insert the receipt if it is new, else lock it. */
  function Claim(t: Table, id: ConnId, me: Conn): (Table, Conn, Reply) {
    if me.aborted then (t, me, InFailedTransaction)
    else if LockedByOther(t, id, me.event) then (t, me, Waits)
    else
      var seen := Visible(t, id, me.event);
      (Write(t, id, me.event, if seen.Some? then seen.value else Receipt(None, None)), me, Done)
  }

  /** What claim_event returns: whether the event still needs processing. */
  function StillPending(t: Table, id: ConnId, event: EventId): bool {
    var seen := Visible(t, id, event); seen.None? || seen.value.processed.None?
  }

  /** bind_tenant: the check on the field, then the guarded UPDATE, then the field and the context. */
  function Bind(t: Table, id: ConnId, me: Conn, tenant: Tenant): (Table, Conn, Reply) {
    if me.tenant != ZERO_ACTOR && me.tenant != tenant then (t, me, SwitchRefused)
    else if me.aborted then (t, me, InFailedTransaction)
    else if me.event in t.committed && LockedByOther(t, id, me.event) then (t, me, Waits)
    else
      var seen := Visible(t, id, me.event);
      if seen.None? || seen.value.processed.Some? || !(seen.value.tenant.None? || seen.value.tenant == Some(tenant))
      then (t, me, NoReceipt)
      else (Write(t, id, me.event, seen.value.(tenant := Some(tenant))),
            me.(tenant := tenant, context := (me.event, tenant),
                standing := if me.standing.Durable? then Durable else InTransaction), Done)
  }

  /**
   finish_event: completion time (none when an error is recorded) and COALESCE of the tenant. For the
   restricted webhook role a trigger rejects changing a tenant or a completion time that is already set.
   */
  function Finish(t: Table, id: ConnId, me: Conn, tenant: Option<Tenant>, completed: Option<int>, restricted: bool)
    : (Table, Conn, Reply)
  {
    if me.aborted then (t, me, InFailedTransaction)
    else if me.event in t.committed && LockedByOther(t, id, me.event) then (t, me, Waits)
    else
      var seen := Visible(t, id, me.event);
      if seen.None? then (t, me, Done) else
      var row := Receipt(if tenant.Some? then tenant else seen.value.tenant, completed);
      if restricted && ((seen.value.tenant.Some? && row.tenant != seen.value.tenant)
                        || (seen.value.processed.Some? && row.processed != seen.value.processed))
      then (t, me.(aborted := true), Guarded)
      else (Write(t, id, me.event, row), me, Done)
  }

  /** Ends the transaction and applies the context again for the next one. */
  function EndTransaction(t: Table, id: ConnId, me: Conn, keep: bool): (Table, Conn) {
    var kept := keep && !me.aborted;
    (Table(if kept && id in t.pending then t.committed[t.pending[id].event := t.pending[id].row] else t.committed,
           t.pending - {id}),
     me.(aborted := false, context := (me.event, me.tenant),
         standing := if me.standing.InTransaction? then (if kept then Durable else Undone) else me.standing))
  }

  // ----- Interleavings ---------------------------------------------------------------------------

  datatype World = World(table: Table, conns: map<ConnId, Conn>, closed: set<ConnId>)

  /** One atomic step of one connection; a statement that has to wait leaves the world as it is. */
  datatype Action =
    | Connect(id: ConnId, event: EventId)
    | DoClaim(id: ConnId)
    | DoBind(id: ConnId, tenant: Tenant)
    | DoFinish(id: ConnId, to: Option<Tenant>, completed: Option<int>)
    | DoCommit(id: ConnId)
    | DoRollback(id: ConnId)
    | Disconnect(id: ConnId)

  function Put(w: World, id: ConnId, table: Table, me: Conn): World {
    w.(table := table, conns := w.conns[id := me])
  }

  function Next(w: World, a: Action, restricted: bool): World {
    if a.Connect? then
      if a.id in w.conns || a.id in w.closed then w else w.(conns := w.conns[a.id := OpenConn(a.event)])
    else if a.id !in w.conns then w
    else
      var me := w.conns[a.id];
      match a
      case DoClaim(id) => var (t, c, _) := Claim(w.table, id, me); Put(w, id, t, c)
      case DoBind(id, tenant) => var (t, c, _) := Bind(w.table, id, me, tenant); Put(w, id, t, c)
      case DoFinish(id, tenant, completed) =>
        var (t, c, _) := Finish(w.table, id, me, tenant, completed, restricted);
        Put(w, id, t, c)
      case DoCommit(id) => var (t, c) := EndTransaction(w.table, id, me, true); Put(w, id, t, c)
      case DoRollback(id) => var (t, c) := EndTransaction(w.table, id, me, false); Put(w, id, t, c)
      case Disconnect(id) =>
        var (t, _) := EndTransaction(w.table, id, me, false);
        World(t, w.conns - {id}, w.closed + {id})
  }

  function Interleave(w: World, actions: seq<Action>, restricted: bool): World
    decreases |actions|
  {
    if actions == [] then w else Interleave(Next(w, actions[0], restricted), actions[1..], restricted)
  }

  function Start(committed: map<EventId, Receipt>): World {
    World(Table(committed, map[]), map[], {})
  }

  /**
   The inductive invariant. One uncommitted version per row; a version never contradicts what is committed
   of its row; a binding that was not undone is what the connection's own row says.
   */
  ghost predicate Inv(w: World) {
    && (forall c :: c in w.table.pending ==> c in w.conns && w.table.pending[c].event == w.conns[c].event)
    && (forall c, d | c in w.table.pending && d in w.table.pending ::
          w.table.pending[c].event == w.table.pending[d].event ==> c == d)
    && (forall c :: c in w.table.pending ==> Extends(w.table, w.table.pending[c]))
    && w.conns.Keys !! w.closed
    && (forall c :: c in w.conns ==> Honest(w.table, c, w.conns[c]))
  }

  /** A row version keeps whatever is already settled in the committed row. */
  predicate Extends(t: Table, v: Version) {
    v.event in t.committed ==>
      && (t.committed[v.event].tenant.Some? ==> v.row.tenant == t.committed[v.event].tenant)
      && (t.committed[v.event].processed.Some? ==> v.row.processed == t.committed[v.event].processed)
  }

  /** The field and the context agree, and the field tells the truth about a binding that was not undone. */
  predicate Honest(t: Table, id: ConnId, me: Conn) {
    && me.context == (me.event, me.tenant)
    && (me.standing.Unbound? ==> me.tenant == ZERO_ACTOR)
    && (me.standing.InTransaction? ==> id in t.pending && t.pending[id].row.tenant == Some(me.tenant))
    && (me.standing.Durable? ==> me.event in t.committed && t.committed[me.event].tenant == Some(me.tenant))
  }

  /** What is committed of a receipt stays: its tenant once set, its completion once set. */
  predicate Settled(before: Table, after: Table) {
    forall e :: e in before.committed ==>
      && e in after.committed
      && (before.committed[e].tenant.Some? ==> after.committed[e].tenant == before.committed[e].tenant)
      && (before.committed[e].processed.Some? ==> after.committed[e].processed == before.committed[e].processed)
  }

  lemma WriteKeepsInv(w: World, id: ConnId, row: Receipt, me: Conn)
    requires Inv(w) && id in w.conns && me.event == w.conns[id].event && !LockedByOther(w.table, id, me.event)
    requires Extends(w.table, Version(me.event, row))
    requires Honest(Write(w.table, id, me.event, row), id, me)
    ensures Inv(Put(w, id, Write(w.table, id, me.event, row), me))
  {
    var w' := Put(w, id, Write(w.table, id, me.event, row), me);
    forall c | c in w'.conns ensures Honest(w'.table, c, w'.conns[c]) {
      assert c != id ==> Honest(w.table, c, w.conns[c]);
    }
  }

  lemma EndKeepsInv(w: World, id: ConnId, keep: bool)
    requires Inv(w) && id in w.conns
    ensures var (t, me) := EndTransaction(w.table, id, w.conns[id], keep);
            Inv(Put(w, id, t, me)) && Settled(w.table, t)
  {
    var (t, me) := EndTransaction(w.table, id, w.conns[id], keep);
    var w' := Put(w, id, t, me);
    assert Honest(w.table, id, w.conns[id]);
    forall c | c in w'.conns ensures Honest(w'.table, c, w'.conns[c]) {
      assert Honest(w.table, c, w.conns[c]);
    }
    assert id in w.table.pending ==> Extends(w.table, w.table.pending[id]);
  }

  /** What a connection can see of its row extends what is committed of it. */
  lemma SeenExtends(w: World, id: ConnId)
    requires Inv(w) && id in w.conns
    ensures var e := w.conns[id].event; var seen := Visible(w.table, id, e);
            seen.Some? ==> Extends(w.table, Version(e, seen.value))
  {
    assert id in w.table.pending ==> Extends(w.table, w.table.pending[id]);
  }

  lemma FieldsOnlyKeepInv(w: World, id: ConnId, me: Conn)
    requires Inv(w) && id in w.conns && me.event == w.conns[id].event && Honest(w.table, id, me)
    ensures Inv(Put(w, id, w.table, me))
  {
    forall c | c in w.conns ensures Honest(w.table, c, Put(w, id, w.table, me).conns[c]) {
      assert c != id ==> Honest(w.table, c, w.conns[c]);
    }
  }

  lemma ClaimKeepsInv(w: World, id: ConnId)
    requires Inv(w) && id in w.conns
    ensures var (t, me, _) := Claim(w.table, id, w.conns[id]);
            Inv(Put(w, id, t, me)) && t.committed == w.table.committed
  {
    var (t, me, _) := Claim(w.table, id, w.conns[id]);
    assert Honest(w.table, id, w.conns[id]);
    SeenExtends(w, id);
    if t == w.table {
      FieldsOnlyKeepInv(w, id, me);
    } else {
      WriteKeepsInv(w, id, t.pending[id].row, me);
    }
  }

  lemma BindKeepsInv(w: World, id: ConnId, tenant: Tenant)
    requires Inv(w) && id in w.conns
    ensures var (t, me, _) := Bind(w.table, id, w.conns[id], tenant);
            Inv(Put(w, id, t, me)) && t.committed == w.table.committed
  {
    var (t, me, _) := Bind(w.table, id, w.conns[id], tenant);
    assert Honest(w.table, id, w.conns[id]);
    SeenExtends(w, id);
    if t == w.table {
      FieldsOnlyKeepInv(w, id, me);
    } else {
      WriteKeepsInv(w, id, t.pending[id].row, me);
    }
  }

  lemma FinishKeepsInv(w: World, id: ConnId,
                       tenant: Option<Tenant>, completed: Option<int>)
    requires Inv(w) && id in w.conns
    ensures var (t, me, _) := Finish(w.table, id, w.conns[id], tenant, completed, true);
            Inv(Put(w, id, t, me)) && t.committed == w.table.committed
  {
    var (t, me, _) := Finish(w.table, id, w.conns[id], tenant, completed, true);
    assert Honest(w.table, id, w.conns[id]);
    SeenExtends(w, id);
    if t == w.table {
      FieldsOnlyKeepInv(w, id, me);
    } else {
      WriteKeepsInv(w, id, t.pending[id].row, me);
    }
  }

  /** A statement never touches what is committed. */
  lemma StatementKeepsInv(w: World, a: Action)
    requires Inv(w) && (a.DoClaim? || a.DoBind? || a.DoFinish?)
    ensures Inv(Next(w, a, true)) && Next(w, a, true).table.committed == w.table.committed
  {
    if a.id in w.conns {
      match a
      case DoClaim(id) => ClaimKeepsInv(w, id);
      case DoBind(id, tenant) => BindKeepsInv(w, id, tenant);
      case DoFinish(id, tenant, completed) => FinishKeepsInv(w, id, tenant, completed);
    }
  }

  lemma StepKeepsInv(w: World, a: Action)
    requires Inv(w)
    ensures Inv(Next(w, a, true)) && Settled(w.table, Next(w, a, true).table)
  {
    if a.DoClaim? || a.DoBind? || a.DoFinish? {
      StatementKeepsInv(w, a);
    } else if a.Connect? {
    } else if a.id in w.conns {
      EndKeepsInv(w, a.id, a.DoCommit?);
    }
  }

  // ----- What holds over every interleaving ------------------------------------------------------

  lemma {:induction false} InterleaveKeepsInv(w: World, actions: seq<Action>)
    requires Inv(w)
    ensures Inv(Interleave(w, actions, true)) && Settled(w.table, Interleave(w, actions, true).table)
    decreases |actions|
  {
    if actions != [] {
      StepKeepsInv(w, actions[0]);
      InterleaveKeepsInv(Next(w, actions[0], true), actions[1..]);
    }
  }

  lemma {:induction false} InterleaveSplit(w: World, actions: seq<Action>, i: nat, restricted: bool)
    requires i <= |actions|
    ensures Interleave(w, actions, restricted)
         == Interleave(Interleave(w, actions[..i], restricted), actions[i..], restricted)
    decreases |actions|
  {
    if i > 0 {
      assert actions[..i][1..] == actions[1..][..i - 1] && actions[1..][i - 1..] == actions[i..];
      InterleaveSplit(Next(w, actions[0], restricted), actions[1..], i - 1, restricted);
    }
  }

  /**
   With the restricted role, at any two moments of any interleaving: a committed receipt's tenant, once
   set, is the same later, so two deliveries of one event never commit different tenants. Completion
   likewise.
   */
  lemma CommittedTenantIsForever(committed: map<EventId, Receipt>, actions: seq<Action>, i: nat, j: nat, e: EventId)
    requires i <= j <= |actions|
    requires e in Interleave(Start(committed), actions[..i], true).table.committed
    ensures var early := Interleave(Start(committed), actions[..i], true).table.committed;
            var late := Interleave(Start(committed), actions[..j], true).table.committed;
            && e in late
            && (early[e].tenant.Some? ==> late[e].tenant == early[e].tenant)
            && (early[e].processed.Some? ==> late[e].processed == early[e].processed)
  {
    InterleaveSplit(Start(committed), actions[..j], i, true);
    assert actions[..j][..i] == actions[..i];
    InterleaveKeepsInv(Start(committed), actions[..i]);
    InterleaveKeepsInv(Interleave(Start(committed), actions[..i], true), actions[..j][i..]);
  }

  /** An event whose completion is committed is never claimed as pending again. */
  lemma FinishedIsNeverPending(committed: map<EventId, Receipt>, actions: seq<Action>, i: nat, j: nat, id: ConnId)
    requires i <= j <= |actions|
    requires id in Interleave(Start(committed), actions[..j], true).conns
    requires var e := Interleave(Start(committed), actions[..j], true).conns[id].event;
             var early := Interleave(Start(committed), actions[..i], true).table.committed;
             e in early && early[e].processed.Some?
    ensures var w := Interleave(Start(committed), actions[..j], true); !StillPending(w.table, id, w.conns[id].event)
  {
    var w := Interleave(Start(committed), actions[..j], true);
    CommittedTenantIsForever(committed, actions, i, j, w.conns[id].event);
    InterleaveKeepsInv(Start(committed), actions[..j]);
    SeenExtends(w, id);
  }

  lemma {:induction false} FieldStays(w: World, actions: seq<Action>, restricted: bool, id: ConnId, tenant: Tenant)
    requires tenant != ZERO_ACTOR
    requires id in w.closed || (id in w.conns && w.conns[id].tenant == tenant)
    ensures var w' := Interleave(w, actions, restricted);
            (id in w.closed && id !in w.conns ==> id !in w'.conns)
            && (id in w.conns && w.conns[id].tenant == tenant ==> id in w'.conns ==> w'.conns[id].tenant == tenant)
    decreases |actions|
  {
    if actions != [] {
      FieldStays(Next(w, actions[0], restricted), actions[1..], restricted, id, tenant);
    }
  }

  /**
   A connection's own field, whatever the role and even across its own rollbacks: once it has left the
   zero actor it never changes again, so it leaves the zero actor at most once.
   */
  lemma FieldNeverSwitches(committed: map<EventId, Receipt>, actions: seq<Action>, restricted: bool,
                           i: nat, j: nat, id: ConnId)
    requires i <= j <= |actions|
    requires id in Interleave(Start(committed), actions[..i], restricted).conns
    requires id in Interleave(Start(committed), actions[..j], restricted).conns
    ensures var early := Interleave(Start(committed), actions[..i], restricted).conns[id].tenant;
            early != ZERO_ACTOR ==> Interleave(Start(committed), actions[..j], restricted).conns[id].tenant == early
  {
    InterleaveSplit(Start(committed), actions[..j], i, restricted);
    assert actions[..j][..i] == actions[..i];
    var w := Interleave(Start(committed), actions[..i], restricted);
    if w.conns[id].tenant != ZERO_ACTOR {
      FieldStays(w, actions[..j][i..], restricted, id, w.conns[id].tenant);
    }
  }

  /** A binding that is committed is what the receipt says from then on. */
  lemma BoundThenCommitted(w: World, id: ConnId, tenant: Tenant, actions: seq<Action>)
    requires Inv(w) && id in w.conns && Bind(w.table, id, w.conns[id], tenant).2.Done?
    ensures var w' := Interleave(Next(Next(w, DoBind(id, tenant), true), DoCommit(id), true), actions, true);
            var e := w.conns[id].event;
            && e in w'.table.committed && w'.table.committed[e].tenant == Some(tenant)
            && (id in w'.conns && tenant != ZERO_ACTOR ==> w'.conns[id].tenant == tenant)
  {
    var w1 := Next(w, DoBind(id, tenant), true);
    var w2 := Next(w1, DoCommit(id), true);
    StepKeepsInv(w, DoBind(id, tenant));
    StepKeepsInv(w1, DoCommit(id));
    InterleaveKeepsInv(w2, actions);
    if tenant != ZERO_ACTOR {
      FieldStays(w2, actions, true, id, tenant);
    }
  }

  /** The field can contradict the committed receipt only on a connection that rolled its own binding back. */
  lemma DisagreementIsUndone(w: World, id: ConnId)
    requires Inv(w) && id in w.conns && w.conns[id].tenant != ZERO_ACTOR
    requires w.conns[id].event in w.table.committed
    requires var row := w.table.committed[w.conns[id].event];
             row.tenant.Some? && row.tenant != Some(w.conns[id].tenant)
    ensures w.conns[id].standing == Undone
  {
    assert Honest(w.table, id, w.conns[id]);
    assert id in w.table.pending ==> Extends(w.table, w.table.pending[id]);
  }

  /** Such a stale field does no harm: no binding and no completion naming its tenant gets through. */
  lemma StaleFieldNeverWrites(w: World, id: ConnId, tenant: Tenant, completed: Option<int>)
    requires Inv(w) && id in w.conns && w.conns[id].tenant != ZERO_ACTOR
    requires w.conns[id].event in w.table.committed
    requires var row := w.table.committed[w.conns[id].event];
             row.tenant.Some? && row.tenant != Some(w.conns[id].tenant)
    ensures Next(w, DoBind(id, tenant), true) == w
    ensures Next(w, DoFinish(id, Some(w.conns[id].tenant), completed), true).table == w.table
  {
    var me := w.conns[id];
    assert id in w.table.pending ==> Extends(w.table, w.table.pending[id]);
    assert w.conns == w.conns[id := me];
  }

  /** Nobody holds the event's receipt, and it is neither bound nor processed. */
  ghost predicate Free(w: World, e: EventId) {
    && e in w.table.committed && w.table.committed[e] == Receipt(None, None)
    && forall c :: c in w.table.pending ==> w.table.pending[c].event != e
  }

  /** The committed receipt names another company than the connection's field. */
  ghost predicate Contradicted(w: World, id: ConnId) {
    && id in w.conns && w.conns[id].event in w.table.committed && w.conns[id].tenant != ZERO_ACTOR
    && w.table.committed[w.conns[id].event].tenant.Some?
    && w.table.committed[w.conns[id].event].tenant != Some(w.conns[id].tenant)
  }

  ghost predicate ByOthers(actions: seq<Action>, id: ConnId) {
    forall a :: a in actions ==> a.id != id
  }

  lemma {:induction false} OthersLeaveAlone(w: World, actions: seq<Action>, id: ConnId)
    requires id in w.conns && ByOthers(actions, id)
    ensures id in Interleave(w, actions, true).conns && Interleave(w, actions, true).conns[id] == w.conns[id]
    decreases |actions|
  {
    if actions != [] {
      assert actions[0] in actions;
      OthersLeaveAlone(Next(w, actions[0], true), actions[1..], id);
    }
  }

  lemma Unroll3(w: World, a: Action, b: Action, c: Action)
    ensures Interleave(w, [a, b, c], true) == Next(Next(Next(w, a, true), b, true), c, true)
  {
    assert [a, b, c][1..] == [b, c] && [b, c][1..] == [c] && [c][1..] == [];
    assert Interleave(Next(w, a, true), [b, c], true) == Interleave(Next(Next(w, a, true), b, true), [c], true);
  }

  /** A fresh delivery of an event with a free receipt binds it to any company. */
  lemma AnyoneMayBind(w: World, d: ConnId, e: EventId, b: Tenant)
    requires Free(w, e) && d !in w.conns && d !in w.closed
    ensures var w' := Interleave(w, [Connect(d, e), DoBind(d, b), DoCommit(d)], true);
            e in w'.table.committed && w'.table.committed[e].tenant == Some(b)
  {
    Unroll3(w, Connect(d, e), DoBind(d, b), DoCommit(d));
    var w1 := Next(w, Connect(d, e), true);
    assert Visible(w1.table, d, e) == Some(Receipt(None, None));
    var w2 := Next(w1, DoBind(d, b), true);
    assert w2.table == Write(w1.table, d, e, Receipt(Some(b), None));
  }

  /**
   While a receipt is free, other deliveries can bring it to contradict a connection's field exactly when
   that connection has rolled its own binding back.
   */
  lemma ContradictionReachableExactlyWhenUndone(w: World, id: ConnId)
    requires Inv(w) && id in w.conns && w.conns[id].tenant != ZERO_ACTOR && Free(w, w.conns[id].event)
    ensures (exists actions :: ByOthers(actions, id) && Contradicted(Interleave(w, actions, true), id))
       <==> w.conns[id].standing == Undone
  {
    var me := w.conns[id];
    if w.conns[id].standing == Undone {
      var d := SomeUnused(w.conns.Keys + w.closed);
      var b: Tenant := me.tenant + "x";
      var actions := [Connect(d, me.event), DoBind(d, b), DoCommit(d)];
      AnyoneMayBind(w, d, me.event, b);
      OthersLeaveAlone(w, actions, id);
      assert Contradicted(Interleave(w, actions, true), id);
    }
    forall actions | ByOthers(actions, id) && Contradicted(Interleave(w, actions, true), id)
      ensures me.standing == Undone
    {
      InterleaveKeepsInv(w, actions);
      OthersLeaveAlone(w, actions, id);
      DisagreementIsUndone(Interleave(w, actions, true), id);
    }
  }

  function Idle(e: EventId, committed: Receipt, first: Conn, second: Conn): World {
    World(Table(map[e := committed], map[]), map[0 := first, 1 := second], {})
  }

  lemma BothConnect(e: EventId, free: Receipt)
    ensures Interleave(Start(map[e := free]), [Connect(0, e), Connect(1, e)], true)
            == Idle(e, free, OpenConn(e), OpenConn(e))
  {
    Unroll(Start(map[e := free]), [Connect(0, e), Connect(1, e)], Idle(e, free, OpenConn(e), OpenConn(e)));
  }

  /** Bound and rolled back: the field stays, the receipt does not. */
  lemma FirstBindsAndRollsBack(e: EventId, a: Tenant, free: Receipt, second: Conn)
    requires free == Receipt(None, None)
    ensures var undone := OpenConn(e).(tenant := a, context := (e, a), standing := Undone);
            Interleave(Idle(e, free, OpenConn(e), second), [DoBind(0, a), DoRollback(0)], true)
              == Idle(e, free, undone, second)
  {
    var w := Idle(e, free, OpenConn(e), second);
    var bound := Next(w, DoBind(0, a), true);
    assert bound.table == Write(w.table, 0, e, Receipt(Some(a), None));
    assert bound.table.pending - {0} == map[];
    Unroll(w, [DoBind(0, a), DoRollback(0)], Next(bound, DoRollback(0), true));
  }

  lemma SecondBindsAndCommits(e: EventId, b: Tenant, free: Receipt, first: Conn)
    requires free == Receipt(None, None)
    ensures var w := Interleave(Idle(e, free, first, OpenConn(e)), [DoBind(1, b), DoCommit(1)], true);
            && 0 in w.conns && w.conns[0] == first
            && e in w.table.committed && w.table.committed[e].tenant == Some(b)
  {
    var w := Idle(e, free, first, OpenConn(e));
    var bound := Next(w, DoBind(1, b), true);
    assert bound.table == Write(w.table, 1, e, Receipt(Some(b), None));
    Unroll(w, [DoBind(1, b), DoCommit(1)], Next(bound, DoCommit(1), true));
  }

  /** The field and the committed receipt really can differ: bind A, roll back, let another delivery commit B. */
  lemma FieldMayContradictReceipt(a: Tenant, b: Tenant, e: EventId)
    requires a != b && a != ZERO_ACTOR && b != ZERO_ACTOR
    ensures var actions := [Connect(0, e), Connect(1, e)] + [DoBind(0, a), DoRollback(0)] + [DoBind(1, b), DoCommit(1)];
            var w := Interleave(Start(map[e := Receipt(None, None)]), actions, true);
            && 0 in w.conns && w.conns[0].tenant == a
            && e in w.table.committed && w.table.committed[e].tenant == Some(b)
  {
    var free := Receipt(None, None);
    var connect := [Connect(0, e), Connect(1, e)];
    var first, second := [DoBind(0, a), DoRollback(0)], [DoBind(1, b), DoCommit(1)];
    var actions := connect + first + second;
    var undone := OpenConn(e).(tenant := a, context := (e, a), standing := Undone);
    BothConnect(e, free);
    FirstBindsAndRollsBack(e, a, free, OpenConn(e));
    SecondBindsAndCommits(e, b, free, undone);
    InterleaveSplit(Start(map[e := free]), actions, 4, true);
    InterleaveSplit(Start(map[e := free]), connect + first, 2, true);
    assert actions[..4] == connect + first && actions[4..] == second;
    assert (connect + first)[..2] == connect && (connect + first)[2..] == first;
  }

  lemma Unroll(w: World, two: seq<Action>, w': World)
    requires |two| == 2 && Next(Next(w, two[0], true), two[1], true) == w'
    ensures Interleave(w, two, true) == w'
  {
    assert Interleave(w, two, true) == Interleave(Next(w, two[0], true), two[1..], true);
    assert two[1..][0] == two[1] && two[1..][1..] == [];
  }

  /**
   For a role the trigger does not watch, finish_event keeps a bound tenant exactly when it names that
   tenant, or names none and its own transaction has not changed it already.
   */
  lemma UnwatchedFinishKeepsTenantExactlyWhen(w: World, id: ConnId, to: Option<Tenant>, completed: Option<int>)
    requires id in w.conns && !w.conns[id].aborted && !LockedByOther(w.table, id, w.conns[id].event)
    requires w.conns[id].event in w.table.committed && w.table.committed[w.conns[id].event].tenant.Some?
    ensures var e := w.conns[id].event;
            var w' := Next(Next(w, DoFinish(id, to, completed), false), DoCommit(id), false);
            var bound := w.table.committed[e].tenant;
            w'.table.committed[e].tenant == bound <==>
            (to == bound || (to.None? && Visible(w.table, id, e).value.tenant == bound))
  {
    var e := w.conns[id].event;
    var w1 := Next(w, DoFinish(id, to, completed), false);
    assert id in w1.table.pending && w1.table.pending[id].event == e;
  }

  // ----- What goes through -----------------------------------------------------------------------

  /** No other transaction has an uncommitted version of the row, and this one's has not failed. */
  ghost predicate MayWrite(w: World, id: ConnId)
    requires id in w.conns
  {
    !w.conns[id].aborted
    && forall d :: d in w.table.pending && w.table.pending[d].event == w.conns[id].event ==> d == id
  }

  /** The receipt as this connection sees it: its own uncommitted version, else the committed row. */
  function Seen(w: World, id: ConnId): Option<Receipt>
    requires id in w.conns
  {
    Visible(w.table, id, w.conns[id].event)
  }

  /** The reply to a statement that binds. */
  function BindReply(w: World, id: ConnId, tenant: Tenant): Reply
    requires id in w.conns
  {
    Bind(w.table, id, w.conns[id], tenant).2
  }

  lemma OwnRowOnly(w: World, id: ConnId)
    requires Inv(w) && id in w.conns && w.conns[id].event !in w.table.committed && Seen(w, id).Some?
    ensures !LockedByOther(w.table, id, w.conns[id].event)
  {
  }

  /**
   A binding goes through exactly when the field is free or names that company, the transaction may write,
   and the receipt is there, not completed, and names no company or that one.
   */
  lemma BindSucceedsExactlyWhen(w: World, id: ConnId, tenant: Tenant)
    requires Inv(w) && id in w.conns
    ensures BindReply(w, id, tenant).Done? <==>
            && (w.conns[id].tenant == ZERO_ACTOR || w.conns[id].tenant == tenant)
            && MayWrite(w, id) && Seen(w, id).Some? && Seen(w, id).value.processed.None?
            && (Seen(w, id).value.tenant.None? || Seen(w, id).value.tenant == Some(tenant))
  {
    if w.conns[id].event !in w.table.committed && Seen(w, id).Some? {
      OwnRowOnly(w, id);
    }
  }

  /** Then field, context and receipt name the company, and nothing else changes; otherwise nothing changes at all. */
  lemma BindChanges(w: World, id: ConnId, tenant: Tenant)
    requires Inv(w) && id in w.conns
    ensures var w' := Next(w, DoBind(id, tenant), true);
            && (!BindReply(w, id, tenant).Done? ==> w' == w)
            && (BindReply(w, id, tenant).Done? ==>
                 && id in w'.conns && w'.conns[id].tenant == tenant
                 && w'.conns[id].context == (w.conns[id].event, tenant)
                 && w'.conns[id].event == w.conns[id].event && w'.conns[id].aborted == w.conns[id].aborted
                 && Seen(w, id).Some? && Seen(w', id) == Some(Seen(w, id).value.(tenant := Some(tenant)))
                 && w'.table.committed == w.table.committed
                 && w'.table.pending - {id} == w.table.pending - {id} && w'.conns - {id} == w.conns - {id})
  {
    var w' := Next(w, DoBind(id, tenant), true);
    if !BindReply(w, id, tenant).Done? {
      assert w.conns == w.conns[id := w.conns[id]];
    }
  }

  /** Binding the same company a second time goes through, in the same transaction and right after its commit. */
  lemma BindingAgainSucceeds(w: World, id: ConnId, tenant: Tenant)
    requires Inv(w) && id in w.conns && BindReply(w, id, tenant).Done?
    ensures var w1 := Next(w, DoBind(id, tenant), true);
            var w2 := Next(w1, DoCommit(id), true);
            && id in w1.conns && BindReply(w1, id, tenant).Done?
            && id in w2.conns && BindReply(w2, id, tenant).Done?
  {
    var w1 := Next(w, DoBind(id, tenant), true);
    var w2 := Next(w1, DoCommit(id), true);
    BindSucceedsExactlyWhen(w, id, tenant);
    BindChanges(w, id, tenant);
    StepKeepsInv(w, DoBind(id, tenant));
    StepKeepsInv(w1, DoCommit(id));
    BindSucceedsExactlyWhen(w1, id, tenant);
    BindSucceedsExactlyWhen(w2, id, tenant);
  }

  /**
   After a committed binding, whatever has happened since: on any connection for the event that may write,
   with its own field free or on that company, and while the event is not completed, binding that company
   goes through and binding another one finds no receipt.
   */
  lemma BoundTenantIsAccepted(w: World, id: ConnId, tenant: Tenant, actions: seq<Action>, c: ConnId, other: Tenant)
    requires Inv(w) && id in w.conns && BindReply(w, id, tenant).Done? && other != tenant
    requires var w' := Interleave(Next(Next(w, DoBind(id, tenant), true), DoCommit(id), true), actions, true);
             && c in w'.conns && w'.conns[c].event == w.conns[id].event && MayWrite(w', c)
             && w'.conns[c].tenant in {ZERO_ACTOR, tenant}
             && Seen(w', c).Some? && Seen(w', c).value.processed.None?
    ensures var w' := Interleave(Next(Next(w, DoBind(id, tenant), true), DoCommit(id), true), actions, true);
            && BindReply(w', c, tenant).Done?
            && (w'.conns[c].tenant == ZERO_ACTOR ==> BindReply(w', c, other).NoReceipt?)
  {
    var w1 := Next(w, DoBind(id, tenant), true);
    var w2 := Next(w1, DoCommit(id), true);
    var w' := Interleave(w2, actions, true);
    StepKeepsInv(w, DoBind(id, tenant));
    StepKeepsInv(w1, DoCommit(id));
    InterleaveKeepsInv(w2, actions);
    BoundThenCommitted(w, id, tenant, actions);
    SeenExtends(w', c);
    BindSucceedsExactlyWhen(w', c, tenant);
  }

  /** What the trigger lets through: a company or a completion time already there stays. */
  predicate Allowed(seen: Receipt, tenant: Option<Tenant>, completed: Option<int>) {
    && (seen.tenant.None? || tenant.None? || tenant == seen.tenant)
    && (seen.processed.None? || completed == seen.processed)
  }

  function FinishReply(w: World, id: ConnId, tenant: Option<Tenant>, completed: Option<int>): Reply
    requires id in w.conns
  {
    Finish(w.table, id, w.conns[id], tenant, completed, true).2
  }

  /** With the restricted role finishing goes through exactly when the transaction may write and the trigger lets it. */
  lemma FinishSucceedsExactlyWhen(w: World, id: ConnId, tenant: Option<Tenant>, completed: Option<int>)
    requires Inv(w) && id in w.conns && Seen(w, id).Some?
    ensures FinishReply(w, id, tenant, completed).Done? <==>
            MayWrite(w, id) && Allowed(Seen(w, id).value, tenant, completed)
  {
    if w.conns[id].event !in w.table.committed {
      OwnRowOnly(w, id);
    }
  }

  /**
   Once that is committed, in every continuation: the receipt names the company given, else the one it had, and
   the event is completed as said and no longer pending; with an error recorded it is as it was.
   */
  lemma FinishIsRecorded(w: World, id: ConnId, tenant: Option<Tenant>, completed: Option<int>, actions: seq<Action>)
    requires Inv(w) && id in w.conns && Seen(w, id).Some? && FinishReply(w, id, tenant, completed).Done?
    ensures var w2 := Next(Next(w, DoFinish(id, tenant, completed), true), DoCommit(id), true);
            var w' := Interleave(w2, actions, true);
            var e := w.conns[id].event;
            var named := if tenant.Some? then tenant else Seen(w, id).value.tenant;
            && e in w2.table.committed && w2.table.committed[e] == Receipt(named, completed)
            && e in w'.table.committed && (named.Some? ==> w'.table.committed[e].tenant == named)
            && (completed.Some? ==> w'.table.committed[e].processed == completed)
  {
    var w1 := Next(w, DoFinish(id, tenant, completed), true);
    var w2 := Next(w1, DoCommit(id), true);
    FinishSucceedsExactlyWhen(w, id, tenant, completed);
    StepKeepsInv(w, DoFinish(id, tenant, completed));
    StepKeepsInv(w1, DoCommit(id));
    InterleaveKeepsInv(w2, actions);
  }

  /** A claim goes through exactly when the transaction may write; the receipt is there then, new or as it was. */
  lemma ClaimSucceedsExactlyWhen(w: World, id: ConnId)
    requires Inv(w) && id in w.conns
    ensures Claim(w.table, id, w.conns[id]).2.Done? <==> MayWrite(w, id)
    ensures MayWrite(w, id) ==>
            var w1 := Next(w, DoClaim(id), true);
            var w2 := Next(w1, DoCommit(id), true);
            var row := if Seen(w, id).Some? then Seen(w, id).value else Receipt(None, None);
            && id in w1.conns && Seen(w1, id) == Some(row)
            && w.conns[id].event in w2.table.committed && w2.table.committed[w.conns[id].event] == row
    ensures !MayWrite(w, id) ==> Next(w, DoClaim(id), true) == w
  {
    assert w.conns == w.conns[id := w.conns[id]];
  }

  /**
   Ending a transaction publishes this connection's version of its row, when it is a commit and no statement
   failed, and otherwise nothing; no other row, version or connection changes.
   */
  lemma EndPublishes(w: World, id: ConnId, keep: bool)
    requires Inv(w) && id in w.conns
    ensures var w' := Next(w, if keep then DoCommit(id) else DoRollback(id), true);
            && id in w'.conns && id !in w'.table.pending && w'.table.pending == w.table.pending - {id}
            && w'.conns[id].tenant == w.conns[id].tenant && !w'.conns[id].aborted
            && w'.conns[id].context == (w.conns[id].event, w.conns[id].tenant)
            && (forall e :: e in w'.table.committed <==>
                  e in w.table.committed || (keep && Published(w, id, e)))
            && (forall e :: e in w'.table.committed ==>
                  w'.table.committed[e]
                  == if keep && Published(w, id, e) then Seen(w, id).value else w.table.committed[e])
  {
    assert Honest(w.table, id, w.conns[id]);
  }

  ghost predicate Published(w: World, id: ConnId, e: EventId)
    requires id in w.conns
  {
    !w.conns[id].aborted && id in w.table.pending && w.conns[id].event == e
  }

  // ----- The connection object -------------------------------------------------------------------

  /** The database side: receipts and the row versions of open transactions. */
  class Receipts {
    var table: Table

    constructor (committed: map<EventId, Receipt>)
      ensures table == Table(committed, map[])
    {
      table := Table(committed, map[]);
    }
  }

  class WebhookConnection {
    const id: ConnId
    const eventId: EventId
    const receipts: Receipts
    var tenantId: Tenant
    var context: (EventId, Tenant)
    var aborted: bool
    ghost var standing: Standing

    ghost function Me(): Conn
      reads this
    {
      Conn(eventId, tenantId, context, aborted, standing)
    }

    constructor (id: ConnId, eventId: EventId, receipts: Receipts)
      ensures this.id == id && this.receipts == receipts && Me() == OpenConn(eventId)
    {
      this.id, this.eventId, this.receipts := id, eventId, receipts;
      tenantId, context, aborted, standing := ZERO_ACTOR, (eventId, ZERO_ACTOR), false, Unbound;
    }

    method ApplyTenantContext()
      modifies this`context
      ensures context == (eventId, tenantId)
    {
      context := (eventId, tenantId);
    }

    /** The row this connection may lock or change now, or the reason it may not. */
    method Look(mustExist: bool) returns (reply: Reply, seen: Option<Receipt>)
      ensures reply == (if aborted then InFailedTransaction
                        else if (!mustExist || eventId in receipts.table.committed)
                                && LockedByOther(receipts.table, id, eventId) then Waits
                        else Done)
      ensures seen == Visible(receipts.table, id, eventId)
    {
      var t := receipts.table;
      seen := Visible(t, id, eventId);
      reply := Done;
      if aborted {
        reply := InFailedTransaction;
      } else if (!mustExist || eventId in t.committed)
                && exists d :: d in t.pending.Keys && d != id && t.pending[d].event == eventId {
        reply := Waits;
      }
    }

    method ClaimEvent() returns (reply: Reply, pending: bool)
      modifies receipts
      ensures (receipts.table, Me(), reply) == Claim(old(receipts.table), id, old(Me()))
      ensures pending <==> StillPending(old(receipts.table), id, eventId)
    {
      var seen;
      reply, seen := Look(false);
      pending := seen.None? || seen.value.processed.None?;
      if reply.Done? {
        receipts.table := Write(receipts.table, id, eventId, if seen.Some? then seen.value else Receipt(None, None));
      }
    }

    method BindTenant(tenant: Tenant) returns (reply: Reply)
      modifies this, receipts
      ensures (receipts.table, Me(), reply) == Bind(old(receipts.table), id, old(Me()), tenant)
    {
      if tenantId != ZERO_ACTOR && tenantId != tenant {
        return SwitchRefused;
      }
      var seen;
      reply, seen := Look(true);
      if !reply.Done? {
        return;
      }
      if seen.None? || seen.value.processed.Some? || (seen.value.tenant.Some? && seen.value.tenant != Some(tenant)) {
        return NoReceipt;
      }
      receipts.table := Write(receipts.table, id, eventId, seen.value.(tenant := Some(tenant)));
      standing := if standing.Durable? then Durable else InTransaction;
      tenantId := tenant;
      ApplyTenantContext();
    }

    method End(keep: bool)
      modifies this, receipts
      ensures (receipts.table, Me()) == EndTransaction(old(receipts.table), id, old(Me()), keep)
    {
      var t := receipts.table;
      if keep && !aborted && id in t.pending {
        t := t.(committed := t.committed[t.pending[id].event := t.pending[id].row]);
      }
      receipts.table := t.(pending := t.pending - {id});
      if standing.InTransaction? {
        standing := if keep && !aborted then Durable else Undone;
      }
      aborted := false;
      ApplyTenantContext();
    }
  }
}
