/**
 The migration runner, as steps over a committed and a pending database state.

 A SQL file is an opaque schema transformer that controls no transaction of its own. Every statement
 and every commit can fail, and the process can disappear between any two of them.
 */
module Migrations {
  import opened Common
  import opened TextOrder

  datatype Effect = BaseSchema | Migration(name: string)

  /** What the SQL files do to a schema (None when the statement is rejected) and the marker-table test. */
  datatype Sql<!S> = Sql(run: (Effect, S) -> Option<S>, marker: S -> bool)

  /** A database state. `history` records every effect that produced `schema`; `ledger` is schema_migrations. */
  datatype Db<S> = Db(schema: S, history: seq<Effect>, tracked: bool, ledger: seq<string>)

  /** A connection: what is committed, what its open transaction sees, and whether that transaction has failed. */
  datatype Session<S> = Session(committed: Db<S>, working: Db<S>, aborted: bool)

  /** What the environment does to one statement or commit. `Interrupts` is an exit no `except Exception` sees. */
  datatype Fault = Works | Raises | SqlError | Interrupts

  type Fate = nat -> Fault

  /** How a run ends; an interrupt names the step it fell on. */
  datatype Outcome = Done(applied: seq<string>) | Failed | FailedAt(name: string) | Interrupted(at: nat)

  datatype Signal = Go | Raise | Stop(at: nat)

  datatype Result<S> = Result(session: Session<S>, outcome: Outcome)

  /** `_already_applied`: the recorded names as a set. */
  function Names(ledger: seq<string>): set<string> {
    set n | n in ledger
  }

  function Idle<S>(db: Db<S>): Session<S> {
    Session(db, db, false)
  }

  /** The part every statement shares: environment faults, and the refusal to work in a failed transaction. */
  function Attempt<S>(s: Session<S>, fate: Fate, t: nat, next: Option<Db<S>>): (Session<S>, Signal) {
    if fate(t).Interrupts? then (s, Stop(t))
    else if fate(t).Raises? then (s, Raise)
    else if fate(t).SqlError? || s.aborted || next.None? then (s.(aborted := true), Raise)
    else (s.(working := next.value), Go)
  }

  function Applied<S>(sql: Sql<S>, db: Db<S>, e: Effect): Option<Db<S>> {
    var after := sql.run(e, db.schema);
    if after.None? then None else Some(db.(schema := after.value, history := db.history + [e]))
  }

  /** INSERT INTO schema_migrations; filename is the primary key. */
  function Recorded<S>(db: Db<S>, name: string): Option<Db<S>> {
    if !db.tracked || name in db.ledger then None else Some(db.(ledger := db.ledger + [name]))
  }

  /** CREATE TABLE IF NOT EXISTS schema_migrations. */
  function Tracked<S>(db: Db<S>): Db<S> {
    if db.tracked then db else db.(tracked := true, ledger := [])
  }

  function Rollback<S>(s: Session<S>): Session<S> {
    Idle(s.committed)
  }

  /** Committing a failed transaction rolls it back. */
  function Commit<S>(s: Session<S>, fate: Fate, t: nat): (Session<S>, Signal) {
    match fate(t)
    case Interrupts => (s, Stop(t))
    case Raises | SqlError => (s, Raise)
    case Works => (Idle(if s.aborted then s.committed else s.working), Go)
  }

  /** One file of the loop: its SQL, its row, the commit, and the acknowledgement of the commit. */
  function ApplyOne<S>(sql: Sql<S>, s: Session<S>, name: string, fate: Fate, t: nat): (Session<S>, Signal) {
    var (s1, g1) := Attempt(s, fate, t, Applied(sql, s.working, Migration(name)));
    if !g1.Go? then (s1, g1) else
    var (s2, g2) := Attempt(s1, fate, t + 1, Recorded(s1.working, name));
    if !g2.Go? then (s2, g2) else
    var (s3, g3) := Commit(s2, fate, t + 2);
    if !g3.Go? then (s3, g3) else
    (s3, match fate(t + 3) case Works => Go case Interrupts => Stop(t + 3) case _ => Raise)
  }

  /**
   How a file whose turn did not end well ends the run: the handler rolls back and re-raises, an interrupt
   just leaves.
   */
  function Stopped<S>(s: Session<S>, g: Signal, name: string): Result<S> {
    if g.Stop? then Result(s, Interrupted(g.at)) else Result(Rollback(s), FailedAt(name))
  }

  /** The loop over the sorted directory listing. */
  function ApplyFiles<S>(sql: Sql<S>, s: Session<S>, files: seq<string>, snapshot: set<string>,
                         done: seq<string>, fate: Fate, t: nat): Result<S>
    decreases |files|
  {
    if files == [] then
      var (s', g) := Commit(s, fate, t);
      Result(s', match g case Go => Done(done) case Stop(at) => Interrupted(at) case Raise => Failed)
    else if files[0] in snapshot then ApplyFiles(sql, s, files[1..], snapshot, done, fate, t)
    else
      var (s', g) := ApplyOne(sql, s, files[0], fate, t);
      if g.Go? then ApplyFiles(sql, s', files[1..], snapshot, done + [files[0]], fate, t + 4)
      else Stopped(s', g, files[0])
  }

  function Ended<S>(s: Session<S>, g: Signal): Result<S> {
    Result(s, if g.Stop? then Interrupted(g.at) else Failed)
  }

  /** CREATE TABLE IF NOT EXISTS, its commit, the read of the ledger, then the loop. */
  function TrackAndApply<S>(sql: Sql<S>, s: Session<S>, files: seq<string>, fate: Fate): Result<S> {
    var (s1, g1) := Attempt(s, fate, 4, Some(Tracked(s.working)));
    if !g1.Go? then Ended(s1, g1) else
    var (s2, g2) := Commit(s1, fate, 5);
    if !g2.Go? then Ended(s2, g2) else
    var (s3, g3) := Attempt(s2, fate, 6, Some(s2.working));
    if !g3.Go? then Ended(s3, g3) else
    ApplyFiles(sql, s3, files, Names(s3.working.ledger), [], fate, 7)
  }

  /** Start-up checks and their commit, then the base schema unless its marker table is there. */
  function Run<S>(sql: Sql<S>, s: Session<S>, files: seq<string>, fate: Fate): Result<S> {
    var (s1, g1) := Attempt(s, fate, 0, Some(s.working));
    if !g1.Go? then Ended(s1, g1) else
    var (s2, g2) := Commit(s1, fate, 1);
    if !g2.Go? then Ended(s2, g2) else
    if sql.marker(s2.working.schema) then TrackAndApply(sql, s2, files, fate) else
    var (s3, g3) := Attempt(s2, fate, 2, Applied(sql, s2.working, BaseSchema));
    if !g3.Go? then Ended(s3, g3) else
    var (s4, g4) := Commit(s3, fate, 3);
    if !g4.Go? then Ended(s4, g4) else
    TrackAndApply(sql, s4, files, fate)
  }

  // ----- What a run can leave behind -------------------------------------------------------------

  function Effects(ledger: seq<string>): (r: seq<Effect>)
    ensures |r| == |ledger|
  {
    if ledger == [] then [] else [Migration(ledger[0])] + Effects(ledger[1..])
  }

  /** The schema a list of effects builds from an empty database. */
  function Replay<S>(sql: Sql<S>, empty: S, history: seq<Effect>): Option<S> {
    if history == [] then Some(empty) else
    var before := Replay(sql, empty, history[..|history| - 1]);
    if before.None? then None else sql.run(history[|history| - 1], before.value)
  }

  /** The marker table: absent at first, made by the base schema, and neither made nor dropped by a migration. */
  ghost predicate MarkerLaw<S(!new)>(sql: Sql<S>) {
    && (forall s: S :: sql.run(BaseSchema, s).Some? ==> sql.marker(sql.run(BaseSchema, s).value))
    && (forall n: string, s: S :: sql.run(Migration(n), s).Some? ==>
          sql.marker(sql.run(Migration(n), s).value) == sql.marker(s))
  }

  /** What the table definitions alone guarantee of any database state. */
  predicate WellFormed<S>(db: Db<S>) {
    Distinct(db.ledger) && (!db.tracked ==> db.ledger == [])
  }

  /** schema_migrations names exactly the files whose effects are in the schema, in the order they ran. */
  predicate Faithful<S>(sql: Sql<S>, db: Db<S>) {
    db.history == (if sql.marker(db.schema) then [BaseSchema] else []) + Effects(db.ledger)
  }

  ghost predicate Inv<S(!new)>(sql: Sql<S>, empty: S, db: Db<S>) {
    && WellFormed(db) && Faithful(sql, db)
    && (db.tracked ==> sql.marker(db.schema))
    && Replay(sql, empty, db.history) == Some(db.schema)
  }

  /** `db` after the given files, one after the other, each with its row. */
  function Extended<S>(sql: Sql<S>, db: Db<S>, names: seq<string>): Option<Db<S>>
    decreases |names|
  {
    if names == [] then Some(db) else
    var d := Applied(sql, db, Migration(names[0]));
    if d.None? then None else
    var e := Recorded(d.value, names[0]);
    if e.None? then None else Extended(sql, e.value, names[1..])
  }

  lemma {:induction false} EffectsConcat(a: seq<string>, b: seq<string>)
    ensures Effects(a + b) == Effects(a) + Effects(b)
  {
    if a == [] {
      assert a + b == b;
    } else {
      assert (a + b)[1..] == a[1..] + b;
      EffectsConcat(a[1..], b);
    }
  }

  lemma {:induction false} ExtendedMarker<S(!new)>(sql: Sql<S>, db: Db<S>, names: seq<string>)
    requires MarkerLaw(sql) && Extended(sql, db, names).Some?
    ensures sql.marker(Extended(sql, db, names).value.schema) == sql.marker(db.schema)
    decreases |names|
  {
    if names != [] {
      var d := Recorded(Applied(sql, db, Migration(names[0])).value, names[0]).value;
      ExtendedMarker(sql, d, names[1..]);
    }
  }

  lemma Reassociate<T>(a: seq<T>, x: T, b: seq<T>)
    ensures (a + [x]) + b == a + ([x] + b)
  {
  }

  lemma {:induction false} ExtendedKeeps<S>(sql: Sql<S>, db: Db<S>, names: seq<string>)
    requires db.tracked && Extended(sql, db, names).Some?
    ensures var e := Extended(sql, db, names).value;
            e.tracked && e.ledger == db.ledger + names && e.history == db.history + Effects(names)
    decreases |names|
  {
    if names != [] {
      var d := Recorded(Applied(sql, db, Migration(names[0])).value, names[0]).value;
      ExtendedKeeps(sql, d, names[1..]);
      Reassociate(db.ledger, names[0], names[1..]);
      Reassociate(db.history, Migration(names[0]), Effects(names[1..]));
      assert names == [names[0]] + names[1..];
      assert Effects(names) == [Migration(names[0])] + Effects(names[1..]);
    }
  }

  lemma {:induction false} ExtendedDistinct<S(!new)>(sql: Sql<S>, db: Db<S>, names: seq<string>)
    requires Extended(sql, db, names).Some? && Distinct(db.ledger)
    ensures Distinct(Extended(sql, db, names).value.ledger)
    decreases |names|
  {
    if names != [] {
      var d := Recorded(Applied(sql, db, Migration(names[0])).value, names[0]).value;
      ExtendedDistinct(sql, d, names[1..]);
    }
  }

  lemma {:induction false} ExtendedReplays<S(!new)>(sql: Sql<S>, empty: S, db: Db<S>, names: seq<string>)
    requires Extended(sql, db, names).Some? && Replay(sql, empty, db.history) == Some(db.schema)
    ensures var e := Extended(sql, db, names).value; Replay(sql, empty, e.history) == Some(e.schema)
    decreases |names|
  {
    if names != [] {
      var d := Applied(sql, db, Migration(names[0])).value;
      assert d.history[..|d.history| - 1] == db.history;
      ExtendedReplays(sql, empty, Recorded(d, names[0]).value, names[1..]);
    }
  }

  lemma HistoryGrows(ledger: seq<string>, names: seq<string>, before: seq<Effect>, after: seq<Effect>)
    requires before == [BaseSchema] + Effects(ledger) && after == before + Effects(names)
    ensures after == [BaseSchema] + Effects(ledger + names)
  {
    EffectsConcat(ledger, names);
  }

  lemma ExtendedInv<S(!new)>(sql: Sql<S>, empty: S, db: Db<S>, names: seq<string>)
    requires MarkerLaw(sql) && Inv(sql, empty, db) && db.tracked && Extended(sql, db, names).Some?
    ensures Inv(sql, empty, Extended(sql, db, names).value)
  {
    var e := Extended(sql, db, names).value;
    ExtendedKeeps(sql, db, names);
    ExtendedMarker(sql, db, names);
    ExtendedDistinct(sql, db, names);
    ExtendedReplays(sql, empty, db, names);
    assert e.history == [BaseSchema] + Effects(e.ledger) by { HistoryGrows(db.ledger, names, db.history, e.history); }
  }

  lemma {:induction false} ExtendedSplit<S(!new)>(sql: Sql<S>, db: Db<S>, a: seq<string>, b: seq<string>)
    ensures Extended(sql, db, a + b) ==
            (var m := Extended(sql, db, a); if m.None? then None else Extended(sql, m.value, b))
    decreases |a|
  {
    if a == [] {
      assert a + b == b;
    } else {
      assert (a + b)[1..] == a[1..] + b;
      var d := Applied(sql, db, Migration(a[0]));
      if d.Some? && Recorded(d.value, a[0]).Some? {
        ExtendedSplit(sql, Recorded(d.value, a[0]).value, a[1..], b);
      }
    }
  }

  /** The files still to do, in listing order. */
  function Todo<S>(db: Db<S>, files: seq<string>): seq<string> {
    Without(files, Names(db.ledger))
  }

  /** What a single file's turn does to an idle session: nothing, or its effect together with its row. */
  lemma ApplyOneShape<S(!new)>(sql: Sql<S>, db: Db<S>, name: string, fate: Fate, t: nat)
    ensures var (s, g) := ApplyOne(sql, Idle(db), name, fate, t);
            var next := Extended(sql, db, [name]);
            && (g.Go? ==> next.Some? && s == Idle(next.value))
            && (s.committed == db || (next == Some(s.committed) && !s.aborted && s.working == s.committed))
            && (!g.Go? && s.committed != db ==> !fate(t + 3).Works?)
            && ((forall j :: fate(j).Works?) && next.Some? ==> g.Go?)
  {
    var d := Applied(sql, db, Migration(name));
    if d.Some? && Recorded(d.value, name).Some? {
      assert [name][1..] == [];
      assert Extended(sql, db, [name]) == Recorded(d.value, name);
    }
  }

  /**
   How the loop can end, from an idle session on `db` with `todo` still to do: p files are in.
   `Done` means all of them; a failure names file k, whose predecessors are in, and which is itself in
   only when its own commit was acknowledged with an error.
   */
  ghost predicate LoopEnd<S>(sql: Sql<S>, db: Db<S>, todo: seq<string>, done: seq<string>, fate: Fate, t: nat,
                       r: Result<S>, p: nat, k: nat)
  {
    && p <= |todo| && Extended(sql, db, todo[..p]) == Some(r.session.committed)
    && match r.outcome {
         case Done(applied) => p == |todo| && applied == done + todo && r.session == Idle(r.session.committed)
         case Failed => p == |todo|
         case FailedAt(name) =>
           && r.session == Idle(r.session.committed)
           && k < |todo| && todo[k] == name && (p == k || (p == k + 1 && !fate(t + 4 * k + 3).Works?))
         case Interrupted(_) => true
       }
  }

  /** A file that went in, in front of the end of the loop over the others. */
  lemma LoopEndAfter<S(!new)>(sql: Sql<S>, db: Db<S>, next: Db<S>, first: string, rest: seq<string>, done: seq<string>,
                              fate: Fate, t: nat, r: Result<S>, p: nat, k: nat)
    requires Extended(sql, db, [first]) == Some(next)
    requires LoopEnd(sql, next, rest, done + [first], fate, t + 4, r, p, k)
    ensures LoopEnd(sql, db, [first] + rest, done, fate, t, r, p + 1, k + 1)
  {
    var todo := [first] + rest;
    ExtendedSplit(sql, db, [first], rest[..p]);
    assert todo[..p + 1] == [first] + rest[..p];
    assert done + [first] + rest == done + todo;
    assert t + 4 + 4 * k + 3 == t + 4 * (k + 1) + 3;
  }

  /** A file that stopped the loop. */
  lemma LoopEndAt<S(!new)>(sql: Sql<S>, db: Db<S>, first: string, rest: seq<string>, done: seq<string>,
                           fate: Fate, t: nat)
    returns (p: nat)
    requires !ApplyOne(sql, Idle(db), first, fate, t).1.Go?
    ensures var (s, g) := ApplyOne(sql, Idle(db), first, fate, t);
            LoopEnd(sql, db, [first] + rest, done, fate, t, Stopped(s, g, first), p, 0)
  {
    var (s, g) := ApplyOne(sql, Idle(db), first, fate, t);
    ApplyOneShape(sql, db, first, fate, t);
    p := if s.committed == db then 0 else 1;
    assert ([first] + rest)[..p] == if p == 0 then [] else [first];
  }

  /** Nothing left to do: the final commit. */
  lemma LoopEndNow<S(!new)>(sql: Sql<S>, db: Db<S>, snapshot: set<string>, done: seq<string>, fate: Fate, t: nat)
    ensures LoopEnd(sql, db, [], done, fate, t, ApplyFiles(sql, Idle(db), [], snapshot, done, fate, t), 0, 0)
  {
    var none: seq<string> := [];
    assert none[..0] == none && done + none == done;
  }

  lemma {:induction false} LoopShape<S(!new)>(sql: Sql<S>, db: Db<S>, files: seq<string>, snapshot: set<string>,
                                              done: seq<string>, fate: Fate, t: nat)
    returns (p: nat, k: nat)
    ensures LoopEnd(sql, db, Without(files, snapshot), done, fate, t,
                    ApplyFiles(sql, Idle(db), files, snapshot, done, fate, t), p, k)
    decreases |files|
  {
    p, k := 0, 0;
    if files == [] {
      LoopEndNow(sql, db, snapshot, done, fate, t);
    } else if files[0] in snapshot {
      p, k := LoopShape(sql, db, files[1..], snapshot, done, fate, t);
    } else {
      var (s', g) := ApplyOne(sql, Idle(db), files[0], fate, t);
      var rest := Without(files[1..], snapshot);
      if g.Go? {
        ApplyOneShape(sql, db, files[0], fate, t);
        p, k := LoopShape(sql, s'.committed, files[1..], snapshot, done + [files[0]], fate, t + 4);
        LoopEndAfter(sql, db, s'.committed, files[0], rest, done, fate, t,
                     ApplyFiles(sql, s', files[1..], snapshot, done + [files[0]], fate, t + 4), p, k);
        p, k := p + 1, k + 1;
      } else {
        p := LoopEndAt(sql, db, files[0], rest, done, fate, t);
      }
    }
  }

  /** The database once the base schema and the tracking table are there. */
  function Based<S>(sql: Sql<S>, db: Db<S>): Option<Db<S>> {
    if sql.marker(db.schema) then Some(db) else Applied(sql, db, BaseSchema)
  }

  /** How a whole run can end: before the loop with at most the base schema and the table added, or as the loop ends. */
  ghost predicate RunEnd<S>(sql: Sql<S>, db: Db<S>, files: seq<string>, fate: Fate, r: Result<S>, p: nat, k: nat) {
    var based := Based(sql, db);
    || ((r.outcome.Failed? || r.outcome.Interrupted?)
        && (r.session.committed == db
            || based == Some(r.session.committed)
            || (based.Some? && r.session.committed == Tracked(based.value))))
    || (based.Some?
        && LoopEnd(sql, Tracked(based.value), Todo(Tracked(based.value), files), [], fate, 7, r, p, k))
  }

  lemma TrackAndApplyShape<S(!new)>(sql: Sql<S>, db: Db<S>, files: seq<string>, fate: Fate)
    returns (p: nat, k: nat)
    ensures var r := TrackAndApply(sql, Idle(db), files, fate);
            || ((r.outcome.Failed? || r.outcome.Interrupted?)
                && (r.session.committed == db || r.session.committed == Tracked(db)))
            || LoopEnd(sql, Tracked(db), Todo(Tracked(db), files), [], fate, 7, r, p, k)
  {
    var t := Tracked(db);
    p, k := LoopShape(sql, t, files, Names(t.ledger), [], fate, 7);
  }

  lemma RunShape<S(!new)>(sql: Sql<S>, db: Db<S>, files: seq<string>, fate: Fate)
    returns (p: nat, k: nat)
    ensures RunEnd(sql, db, files, fate, Run(sql, Idle(db), files, fate), p, k)
  {
    var based := Based(sql, db);
    p, k := 0, 0;
    if based.Some? {
      p, k := TrackAndApplyShape(sql, based.value, files, fate);
    }
  }

  lemma BasedInv<S(!new)>(sql: Sql<S>, empty: S, db: Db<S>)
    requires MarkerLaw(sql) && Inv(sql, empty, db) && Based(sql, db).Some?
    ensures Inv(sql, empty, Based(sql, db).value) && Inv(sql, empty, Tracked(Based(sql, db).value))
  {
    var b := Based(sql, db).value;
    assert b.history[..|db.history|] == db.history;
  }

  /** Every committed state a run can leave behind satisfies the invariant, whatever fails and wherever it stops. */
  lemma RunKeepsInv<S(!new)>(sql: Sql<S>, empty: S, db: Db<S>, files: seq<string>, fate: Fate)
    requires MarkerLaw(sql) && Inv(sql, empty, db)
    ensures Inv(sql, empty, Run(sql, Idle(db), files, fate).session.committed)
  {
    var p, k := RunShape(sql, db, files, fate);
    var based := Based(sql, db);
    if based.Some? {
      BasedInv(sql, empty, db);
      var t := Tracked(based.value);
      var todo := Todo(t, files);
      if p <= |todo| && Extended(sql, t, todo[..p]).Some? {
        ExtendedInv(sql, empty, t, todo[..p]);
      }
    }
  }

  // ----- All runs --------------------------------------------------------------------------------

  /** One invocation of the runner: the directory listing it finds and what happens to it. */
  datatype Invocation = Invocation(files: seq<string>, fate: Fate)

  function Fresh<S>(empty: S): Db<S> {
    Db(empty, [], false, [])
  }

  /** The committed state after a list of invocations, each on a connection of its own. */
  function After<S>(sql: Sql<S>, db: Db<S>, runs: seq<Invocation>): Db<S>
    decreases |runs|
  {
    if runs == [] then db
    else After(sql, Run(sql, Idle(db), runs[0].files, runs[0].fate).session.committed, runs[1..])
  }

  lemma {:induction false} AfterKeepsInv<S(!new)>(sql: Sql<S>, empty: S, db: Db<S>, runs: seq<Invocation>)
    requires MarkerLaw(sql) && Inv(sql, empty, db)
    ensures Inv(sql, empty, After(sql, db, runs))
    decreases |runs|
  {
    if runs != [] {
      RunKeepsInv(sql, empty, db, runs[0].files, runs[0].fate);
      AfterKeepsInv(sql, empty, Run(sql, Idle(db), runs[0].files, runs[0].fate).session.committed, runs[1..]);
    }
  }

  lemma {:induction false} EffectsCount(ledger: seq<string>, n: string)
    requires Distinct(ledger)
    ensures multiset(Effects(ledger))[Migration(n)] == if n in ledger then 1 else 0
    ensures BaseSchema !in multiset(Effects(ledger))
  {
    if ledger != [] {
      EffectsCount(ledger[1..], n);
      assert ledger == [ledger[0]] + ledger[1..];
    }
  }

  lemma FreshInv<S(!new)>(sql: Sql<S>, empty: S)
    requires !sql.marker(empty)
    ensures Inv(sql, empty, Fresh(empty))
  {
    assert Effects([]) == [];
  }

  lemma InvCounts<S(!new)>(sql: Sql<S>, empty: S, db: Db<S>)
    requires Inv(sql, empty, db)
    ensures forall n :: multiset(db.history)[Migration(n)] == if n in db.ledger then 1 else 0
    ensures multiset(db.history)[BaseSchema] == if sql.marker(db.schema) then 1 else 0
  {
    forall n ensures multiset(db.history)[Migration(n)] == if n in db.ledger then 1 else 0 {
      EffectsCount(db.ledger, n);
    }
    EffectsCount(db.ledger, "");
  }

  /**
   Over any sequence of runs, with failures and crashes at any step: the committed schema is what the
   recorded history builds, every recorded file's effect is in it exactly once and no other file's is,
   and the base schema at most once.
   */
  lemma ExactlyOnce<S(!new)>(sql: Sql<S>, empty: S, runs: seq<Invocation>)
    requires MarkerLaw(sql) && !sql.marker(empty)
    ensures var db := After(sql, Fresh(empty), runs);
            && Replay(sql, empty, db.history) == Some(db.schema)
            && (forall n :: multiset(db.history)[Migration(n)] == if n in db.ledger then 1 else 0)
            && multiset(db.history)[BaseSchema] == if sql.marker(db.schema) then 1 else 0
  {
    FreshInv(sql, empty);
    AfterKeepsInv(sql, empty, Fresh(empty), runs);
    InvCounts(sql, empty, After(sql, Fresh(empty), runs));
  }

  // ----- Order -----------------------------------------------------------------------------------

  /** Every recorded file is still listed, and every listed file not recorded sorts after all recorded ones. */
  ghost predicate OnlyLater(ledger: seq<string>, files: seq<string>) {
    && (forall n :: n in ledger ==> n in files)
    && (forall n, m :: n in ledger && m in files && m !in ledger ==> Less(n, m))
  }

  lemma AscendingFirst(s: seq<string>, x: string)
    requires Ascending(s) && x in s
    ensures Leq(s[0], x)
  {
    var i :| 0 <= i < |s| && s[i] == x;
    LeqReflexive(x);
  }

  lemma {:induction false} OnlyLaterIsPrefix(ledger: seq<string>, files: seq<string>)
    requires Ascending(ledger) && Ascending(files) && OnlyLater(ledger, files)
    ensures ledger <= files
  {
    if ledger != [] {
      AscendingFirst(files, ledger[0]);
      if files[0] in ledger {
        AscendingFirst(ledger, files[0]);
      } else {
        assert Less(ledger[0], files[0]);
      }
      if ledger[0] != files[0] {
        LeqAntisymmetric(ledger[0], files[0]);
      }
      assert OnlyLater(ledger[1..], files[1..]) by {
        forall n | n in ledger[1..] ensures n in files[1..] {
          assert n in ledger && n != ledger[0];
        }
        forall n, m | n in ledger[1..] && m in files[1..] && m !in ledger[1..] ensures Less(n, m) {
          assert m != files[0];
          assert m !in ledger;
        }
      }
      OnlyLaterIsPrefix(ledger[1..], files[1..]);
      assert ledger == [ledger[0]] + ledger[1..] && files == [files[0]] + files[1..];
    }
  }

  lemma PrefixIsOnlyLater(ledger: seq<string>, files: seq<string>)
    requires Ascending(files) && ledger <= files
    ensures OnlyLater(ledger, files)
  {
  }

  lemma {:induction false} TodoOfPrefix(files: seq<string>, k: nat)
    requires Ascending(files) && k <= |files|
    ensures Without(files, Names(files[..k])) == files[k..]
  {
    WithoutDistinctPrefix(files, k, Names(files[..k]));
  }

  lemma {:induction false} WithoutDistinctPrefix(files: seq<string>, k: nat, gone: set<string>)
    requires Ascending(files) && k <= |files|
    requires forall i :: 0 <= i < |files| ==> (files[i] in gone <==> i < k)
    ensures Without(files, gone) == files[k..]
  {
    if files != [] {
      WithoutDistinctPrefix(files[1..], if k == 0 then 0 else k - 1, gone);
      assert files == [files[0]] + files[1..];
    }
  }

  /** At each run, on the state it finds: the listing is sorted and new files sort after all recorded ones. */
  ghost predicate OnTime<S>(sql: Sql<S>, db: Db<S>, runs: seq<Invocation>)
    decreases |runs|
  {
    runs != [] ==>
      && Ascending(runs[0].files) && OnlyLater(db.ledger, runs[0].files)
      && OnTime(sql, Run(sql, Idle(db), runs[0].files, runs[0].fate).session.committed, runs[1..])
  }

  lemma LoopEndPrefix<S(!new)>(sql: Sql<S>, t: Db<S>, files: seq<string>, fate: Fate, r: Result<S>, p: nat, k: nat)
    requires t.tracked && Ascending(files) && t.ledger <= files
    requires LoopEnd(sql, t, Todo(t, files), [], fate, 7, r, p, k)
    ensures t.ledger <= r.session.committed.ledger <= files
    ensures r.outcome.Done? ==> r.session.committed.ledger == files && r.outcome.applied == files[|t.ledger|..]
  {
    var n := |t.ledger|;
    var todo := files[n..];
    assert Todo(t, files) == todo by {
      assert t.ledger == files[..n];
      TodoOfPrefix(files, n);
    }
    ExtendedKeeps(sql, t, todo[..p]);
    assert t.ledger + todo[..p] == files[..n + p];
  }

  /** A run that finds a prefix of its own listing recorded leaves a prefix of it recorded; `Done` means all of it. */
  lemma RunKeepsPrefix<S(!new)>(sql: Sql<S>, db: Db<S>, files: seq<string>, fate: Fate)
    requires WellFormed(db) && Ascending(files) && db.ledger <= files
    ensures var r := Run(sql, Idle(db), files, fate);
            && db.ledger <= r.session.committed.ledger <= files
            && (r.outcome.Done? ==> r.session.committed.ledger == files && r.outcome.applied == files[|db.ledger|..])
  {
    var r := Run(sql, Idle(db), files, fate);
    var p, k := RunShape(sql, db, files, fate);
    var based := Based(sql, db);
    if based.Some? && LoopEnd(sql, Tracked(based.value), Todo(Tracked(based.value), files), [], fate, 7, r, p, k) {
      LoopEndPrefix(sql, Tracked(based.value), files, fate, r, p, k);
    }
  }

  lemma {:induction false} AfterKeepsPrefix<S(!new)>(sql: Sql<S>, empty: S, db: Db<S>, runs: seq<Invocation>)
    requires MarkerLaw(sql) && Inv(sql, empty, db) && Ascending(db.ledger) && OnTime(sql, db, runs) && runs != []
    ensures After(sql, db, runs).ledger <= runs[|runs| - 1].files
    decreases |runs|
  {
    var r := Run(sql, Idle(db), runs[0].files, runs[0].fate);
    OnlyLaterIsPrefix(db.ledger, runs[0].files);
    RunKeepsPrefix(sql, db, runs[0].files, runs[0].fate);
    RunKeepsInv(sql, empty, db, runs[0].files, runs[0].fate);
    if |runs| > 1 {
      AfterKeepsPrefix(sql, empty, r.session.committed, runs[1..]);
    }
  }

  /** When new files always sort last, the recorded history is a prefix of the latest sorted listing. */
  lemma {:induction false} HistoryIsPrefix<S(!new)>(sql: Sql<S>, empty: S, runs: seq<Invocation>)
    requires MarkerLaw(sql) && !sql.marker(empty) && runs != [] && OnTime(sql, Fresh(empty), runs)
    ensures After(sql, Fresh(empty), runs).ledger <= runs[|runs| - 1].files
  {
    assert Effects([]) == [];
    AfterKeepsPrefix(sql, empty, Fresh(empty), runs);
  }

  /**
   A failing file leaves exactly its predecessors applied, on an idle connection. The one exception is a
   commit that took effect but was reported as failed.
   */
  lemma FailureLeavesPredecessors<S(!new)>(sql: Sql<S>, db: Db<S>, files: seq<string>, fate: Fate) returns (k: nat)
    requires WellFormed(db) && Run(sql, Idle(db), files, fate).outcome.FailedAt?
    ensures var r := Run(sql, Idle(db), files, fate);
            var todo := Todo(db, files);
            var ledger := r.session.committed.ledger;
            && k < |todo| && todo[k] == r.outcome.name && r.session == Idle(r.session.committed)
            && (fate(7 + 4 * k + 3).Works? ==> ledger == db.ledger + todo[..k])
            && (ledger == db.ledger + todo[..k] || ledger == db.ledger + todo[..k + 1])
  {
    var p;
    p, k := RunShape(sql, db, files, fate);
    var t := Tracked(Based(sql, db).value);
    assert Todo(t, files) == Todo(db, files);
    ExtendedKeeps(sql, t, Todo(t, files)[..p]);
  }

  lemma DoneIsReady<S(!new)>(sql: Sql<S>, db: Db<S>, files: seq<string>, fate: Fate)
    requires MarkerLaw(sql) && Run(sql, Idle(db), files, fate).outcome.Done?
    ensures var c := Run(sql, Idle(db), files, fate).session.committed; c.tracked && sql.marker(c.schema)
  {
    var p, k := RunShape(sql, db, files, fate);
    var t := Tracked(Based(sql, db).value);
    ExtendedKeeps(sql, t, Todo(t, files)[..p]);
    ExtendedMarker(sql, t, Todo(t, files)[..p]);
  }

  lemma {:induction false} ReplayPrefix<S(!new)>(sql: Sql<S>, empty: S, history: seq<Effect>, k: nat)
    requires k <= |history| && Replay(sql, empty, history).Some?
    ensures Replay(sql, empty, history[..k]).Some?
  {
    if k < |history| {
      var shorter := history[..|history| - 1];
      ReplayPrefix(sql, empty, shorter, k);
      assert shorter[..k] == history[..k];
    } else {
      assert history[..k] == history;
    }
  }

  /** The first effect of a longer replay works on the schema so far. */
  lemma NextEffectWorks<S(!new)>(sql: Sql<S>, empty: S, history: seq<Effect>, e: Effect, rest: seq<Effect>)
    requires Replay(sql, empty, history + ([e] + rest)).Some?
    ensures Replay(sql, empty, history).Some? && sql.run(e, Replay(sql, empty, history).value).Some?
    ensures Replay(sql, empty, history + [e]) == sql.run(e, Replay(sql, empty, history).value)
  {
    var all := history + ([e] + rest);
    ReplayPrefix(sql, empty, all, |history| + 1);
    assert all[..|history| + 1] == history + [e];
    assert (history + [e])[..|history|] == history;
  }

  lemma NotRecordedYet(ledger: seq<string>, first: string, rest: seq<string>)
    requires Distinct(ledger + ([first] + rest))
    ensures first !in ledger && Distinct((ledger + [first]) + rest)
  {
    var all := ledger + ([first] + rest);
    forall i | 0 <= i < |ledger| ensures ledger[i] != first {
      assert all[i] == ledger[i] && all[|ledger|] == first;
    }
    Reassociate(ledger, first, rest);
  }

  lemma ExtendedFirst<S>(sql: Sql<S>, db: Db<S>, names: seq<string>)
    requires names != [] && Applied(sql, db, Migration(names[0])).Some?
    requires Recorded(Applied(sql, db, Migration(names[0])).value, names[0]).Some?
    ensures Extended(sql, db, names)
            == Extended(sql, Recorded(Applied(sql, db, Migration(names[0])).value, names[0]).value, names[1..])
  {
  }

  /** What a history replays, its first file does; the rest is left to replay. */
  lemma FirstExtends<S(!new)>(sql: Sql<S>, empty: S, db: Db<S>, first: string, rest: seq<string>)
    returns (d: Db<S>)
    requires Replays(sql, empty, db, [first] + rest)
    ensures Replays(sql, empty, d, rest)
    ensures Extended(sql, db, [first] + rest) == Extended(sql, d, rest)
  {
    assert Effects([first] + rest) == [Migration(first)] + Effects(rest) by { EffectsConcat([first], rest); }
    NextEffectWorks(sql, empty, db.history, Migration(first), Effects(rest));
    NotRecordedYet(db.ledger, first, rest);
    Reassociate(db.history, Migration(first), Effects(rest));
    d := Recorded(Applied(sql, db, Migration(first)).value, first).value;
    ExtendedFirst(sql, db, [first] + rest);
  }

  /** The effects of the files, on top of the history so far, replay from the empty database. */
  ghost predicate Replays<S>(sql: Sql<S>, empty: S, db: Db<S>, names: seq<string>) {
    && db.tracked && Replay(sql, empty, db.history) == Some(db.schema) && Distinct(db.ledger + names)
    && Replay(sql, empty, db.history + Effects(names)).Some?
  }

  /** What a history replays, the same files in the same order do. */
  lemma {:induction false} ReplayExtends<S(!new)>(sql: Sql<S>, empty: S, db: Db<S>, names: seq<string>)
    requires Replays(sql, empty, db, names)
    ensures Extended(sql, db, names).Some?
    decreases |names|
  {
    if names != [] {
      assert names == [names[0]] + names[1..];
      var d := FirstExtends(sql, empty, db, names[0], names[1..]);
      ReplayExtends(sql, empty, d, names[1..]);
    }
  }

  lemma {:induction false} LoopWorks<S(!new)>(sql: Sql<S>, db: Db<S>, files: seq<string>, snapshot: set<string>,
                                              done: seq<string>, fate: Fate, t: nat)
    requires (forall j :: fate(j).Works?) && Extended(sql, db, Without(files, snapshot)).Some?
    ensures ApplyFiles(sql, Idle(db), files, snapshot, done, fate, t).outcome.Done?
    decreases |files|
  {
    if files != [] {
      if files[0] in snapshot {
        LoopWorks(sql, db, files[1..], snapshot, done, fate, t);
      } else {
        var rest := Without(files[1..], snapshot);
        ApplyOneShape(sql, db, files[0], fate, t);
        ExtendedSplit(sql, db, [files[0]], rest);
        LoopWorks(sql, Extended(sql, db, [files[0]]).value, files[1..], snapshot, done + [files[0]], fate, t + 4);
      }
    }
  }

  lemma {:induction false} WithoutNothing(files: seq<string>)
    ensures Without(files, {}) == files
  {
    if files != [] {
      WithoutNothing(files[1..]);
      assert files == [files[0]] + files[1..];
    }
  }

  /** The empty database after the base schema and the table, when some database was ever built from it. */
  lemma BaseOfHistory<S(!new)>(sql: Sql<S>, empty: S, db: Db<S>)
    requires MarkerLaw(sql) && !sql.marker(empty) && Inv(sql, empty, db) && db.tracked
    ensures Based(sql, Fresh(empty)).Some?
    ensures Extended(sql, Tracked(Based(sql, Fresh(empty)).value), db.ledger).Some?
  {
    assert db.history == [BaseSchema] + Effects(db.ledger);
    assert [] + ([BaseSchema] + Effects(db.ledger)) == db.history;
    NextEffectWorks(sql, empty, [], BaseSchema, Effects(db.ledger));
    var t := Tracked(Based(sql, Fresh(empty)).value);
    assert [] + [BaseSchema] == [BaseSchema] && t.history == [BaseSchema] && t.ledger == [];
    assert t.ledger + db.ledger == db.ledger;
    ReplayExtends(sql, empty, t, db.ledger);
  }

  /** A run over a recorded history, on an empty database, returns unless something outside fails. */
  lemma FreshRunReturns<S(!new)>(sql: Sql<S>, empty: S, db: Db<S>, fate: Fate)
    requires MarkerLaw(sql) && !sql.marker(empty) && Inv(sql, empty, db) && db.tracked
    requires forall j :: fate(j).Works?
    ensures Run(sql, Idle(Fresh(empty)), db.ledger, fate).outcome.Done?
  {
    BaseOfHistory(sql, empty, db);
    var b := Based(sql, Fresh(empty)).value;
    var t := Tracked(b);
    WithoutNothing(db.ledger);
    assert Names(t.ledger) == {};
    LoopWorks(sql, t, db.ledger, {}, [], fate, 7);
    assert TrackAndApply(sql, Idle(b), db.ledger, fate) == ApplyFiles(sql, Idle(t), db.ledger, {}, [], fate, 7);
    assert Run(sql, Idle(Fresh(empty)), db.ledger, fate) == TrackAndApply(sql, Idle(b), db.ledger, fate);
  }

  /**
   Upgrading in stages gives exactly the database one fresh run gives: whatever failed or crashed on the
   way, once a run over `files` returns, a single run on an empty database can fail only from outside, and
   when it returns, schema, history and ledger are the same.
   */
  lemma StagedEqualsFresh<S(!new)>(sql: Sql<S>, empty: S, runs: seq<Invocation>, last: Invocation, fate: Fate)
    requires MarkerLaw(sql) && !sql.marker(empty) && OnTime(sql, Fresh(empty), runs + [last])
    requires Run(sql, Idle(After(sql, Fresh(empty), runs)), last.files, last.fate).outcome.Done?
    ensures var r := Run(sql, Idle(Fresh(empty)), last.files, fate);
            && (r.outcome.Done? ==> After(sql, Fresh(empty), runs + [last]) == r.session.committed)
            && ((forall j :: fate(j).Works?) ==> r.outcome.Done?)
  {
    var zero := Fresh(empty);
    FreshInv(sql, empty);
    AfterSplit(sql, zero, runs, last);
    StagedIsListing(sql, empty, runs, last);
    var c := After(sql, zero, runs + [last]);
    if forall j :: fate(j).Works? {
      FreshRunReturns(sql, empty, c, fate);
    }
    if Run(sql, Idle(zero), last.files, fate).outcome.Done? {
      RunKeepsPrefix(sql, zero, last.files, fate);
      RunKeepsInv(sql, empty, zero, last.files, fate);
      DoneIsReady(sql, zero, last.files, fate);
    }
  }

  /** After the last stage the history is the listing. */
  lemma StagedIsListing<S(!new)>(sql: Sql<S>, empty: S, runs: seq<Invocation>, last: Invocation)
    requires MarkerLaw(sql) && !sql.marker(empty) && OnTime(sql, Fresh(empty), runs + [last])
    requires Run(sql, Idle(After(sql, Fresh(empty), runs)), last.files, last.fate).outcome.Done?
    ensures var c := After(sql, Fresh(empty), runs + [last]);
            c.ledger == last.files && Ascending(last.files) && Inv(sql, empty, c) && c.tracked && sql.marker(c.schema)
  {
    var zero := Fresh(empty);
    FreshInv(sql, empty);
    AfterSplit(sql, zero, runs, last);
    var before := After(sql, zero, runs);
    AfterKeepsInv(sql, empty, zero, runs);
    OnTimeSplit(sql, empty, zero, runs, last);
    OnlyLaterIsPrefix(before.ledger, last.files);
    RunKeepsPrefix(sql, before, last.files, last.fate);
    RunKeepsInv(sql, empty, before, last.files, last.fate);
    DoneIsReady(sql, before, last.files, last.fate);
  }

  lemma {:induction false} AfterSplit<S>(sql: Sql<S>, db: Db<S>, runs: seq<Invocation>, last: Invocation)
    ensures After(sql, db, runs + [last])
            == Run(sql, Idle(After(sql, db, runs)), last.files, last.fate).session.committed
    decreases |runs|
  {
    if runs == [] {
      assert (runs + [last])[1..] == [];
    } else {
      assert (runs + [last])[1..] == runs[1..] + [last];
      AfterSplit(sql, Run(sql, Idle(db), runs[0].files, runs[0].fate).session.committed, runs[1..], last);
    }
  }

  lemma {:induction false} OnTimeSplit<S(!new)>(sql: Sql<S>, empty: S, db: Db<S>, runs: seq<Invocation>,
                                                last: Invocation)
    requires MarkerLaw(sql) && Inv(sql, empty, db) && Ascending(db.ledger) && OnTime(sql, db, runs + [last])
    ensures var before := After(sql, db, runs);
            Ascending(before.ledger) && Ascending(last.files) && OnlyLater(before.ledger, last.files)
    decreases |runs|
  {
    if runs != [] {
      assert (runs + [last])[1..] == runs[1..] + [last];
      OnlyLaterIsPrefix(db.ledger, runs[0].files);
      RunKeepsPrefix(sql, db, runs[0].files, runs[0].fate);
      RunKeepsInv(sql, empty, db, runs[0].files, runs[0].fate);
      OnTimeSplit(sql, empty, Run(sql, Idle(db), runs[0].files, runs[0].fate).session.committed, runs[1..], last);
    }
  }

  /** A run that returns leaves the sorted listing as its history exactly when new files sorted last. */
  lemma SortedExactlyWhenLater<S(!new)>(sql: Sql<S>, empty: S, db: Db<S>, files: seq<string>, fate: Fate)
    requires MarkerLaw(sql) && Inv(sql, empty, db) && Ascending(db.ledger) && Ascending(files)
    requires Run(sql, Idle(db), files, fate).outcome.Done?
    ensures Run(sql, Idle(db), files, fate).session.committed.ledger == files <==> OnlyLater(db.ledger, files)
  {
    var c := Run(sql, Idle(db), files, fate).session.committed;
    if OnlyLater(db.ledger, files) {
      OnlyLaterIsPrefix(db.ledger, files);
      RunKeepsPrefix(sql, db, files, fate);
    }
    if c.ledger == files {
      var p, k := RunShape(sql, db, files, fate);
      var t := Tracked(Based(sql, db).value);
      ExtendedKeeps(sql, t, Todo(t, files)[..p]);
      PrefixIsOnlyLater(db.ledger, files);
    }
  }

  lemma DoneCovers<S(!new)>(sql: Sql<S>, db: Db<S>, files: seq<string>, fate: Fate)
    requires MarkerLaw(sql) && Run(sql, Idle(db), files, fate).outcome.Done?
    ensures forall n :: n in files ==> n in Run(sql, Idle(db), files, fate).session.committed.ledger
  {
    var p, k := RunShape(sql, db, files, fate);
    var t := Tracked(Based(sql, db).value);
    var todo := Todo(t, files);
    assert todo[..p] == todo;
    ExtendedKeeps(sql, t, todo);
    forall n | n in files ensures n in t.ledger + todo {
      assert n in t.ledger || n in todo;
    }
  }

  /** Running again at once changes nothing, and returns the empty list unless something outside fails. */
  lemma RerunIsEmpty<S(!new)>(sql: Sql<S>, db: Db<S>, files: seq<string>, fate: Fate, fate': Fate)
    requires MarkerLaw(sql) && Run(sql, Idle(db), files, fate).outcome.Done?
    ensures var c := Run(sql, Idle(db), files, fate).session.committed;
            var again := Run(sql, Idle(c), files, fate');
            && again.session.committed == c
            && (again.outcome.Done? ==> again.outcome == Done([]))
            && ((forall t :: t <= 7 ==> fate'(t).Works?) ==> again.outcome.Done?)
  {
    var c := Run(sql, Idle(db), files, fate).session.committed;
    DoneIsReady(sql, db, files, fate);
    DoneCovers(sql, db, files, fate);
    SkipAll(sql, c, files, Names(c.ledger), fate', 7);
  }

  lemma {:induction false} SkipAll<S>(sql: Sql<S>, db: Db<S>, files: seq<string>, snapshot: set<string>, fate: Fate,
                                      t: nat)
    requires forall n :: n in files ==> n in snapshot
    ensures ApplyFiles(sql, Idle(db), files, snapshot, [], fate, t)
            == ApplyFiles(sql, Idle(db), [], snapshot, [], fate, t)
    decreases |files|
  {
    if files != [] {
      SkipAll(sql, db, files[1..], snapshot, fate, t);
    }
  }

  // ----- When a run returns, and how it ends when it does not ------------------------------------

  /** The schema after the given files' SQL, one after the other; None when one of them is rejected. */
  function SchemaAfter<S>(sql: Sql<S>, s: S, names: seq<string>): Option<S>
    decreases |names|
  {
    if names == [] then Some(s) else
    var next := sql.run(Migration(names[0]), s);
    if next.None? then None else SchemaAfter(sql, next.value, names[1..])
  }

  /** The schema with the base schema in it. */
  function BasedSchema<S>(sql: Sql<S>, s: S): Option<S> {
    if sql.marker(s) then Some(s) else sql.run(BaseSchema, s)
  }

  /** A database that got these files, with their rows. */
  function Grown<S>(db: Db<S>, schema: S, names: seq<string>): Db<S> {
    Db(schema, db.history + Effects(names), true, db.ledger + names)
  }

  /** The first k files are accepted, in turn, and the next one is rejected, if there is a next one. */
  predicate AcceptedUpTo<S>(sql: Sql<S>, s: S, names: seq<string>, k: nat) {
    && k <= |names| && SchemaAfter(sql, s, names[..k]).Some?
    && (k < |names| ==> SchemaAfter(sql, s, names[..k + 1]).None?)
  }

  lemma SchemaAfterFirst<S>(sql: Sql<S>, s: S, names: seq<string>, k: nat)
    requires 0 < k <= |names|
    ensures SchemaAfter(sql, s, names[..k]) ==
            var next := sql.run(Migration(names[0]), s);
            if next.None? then None else SchemaAfter(sql, next.value, names[1..][..k - 1])
  {
    assert names[..k][1..] == names[1..][..k - 1];
  }

  lemma {:induction false} FindAccepted<S>(sql: Sql<S>, s: S, names: seq<string>) returns (k: nat)
    ensures AcceptedUpTo(sql, s, names, k)
    decreases |names|
  {
    k := 0;
    if names != [] {
      var next := sql.run(Migration(names[0]), s);
      if next.Some? {
        var m := FindAccepted(sql, next.value, names[1..]);
        k := m + 1;
        SchemaAfterFirst(sql, s, names, k);
      }
      if k < |names| {
        SchemaAfterFirst(sql, s, names, k + 1);
      }
    }
  }

  lemma AcceptedOnce<S>(sql: Sql<S>, s: S, names: seq<string>, k: nat)
    requires AcceptedUpTo(sql, s, names, k) && 0 < k
    ensures var next := sql.run(Migration(names[0]), s);
            next.Some? && AcceptedUpTo(sql, next.value, names[1..], k - 1)
            && SchemaAfter(sql, s, names[..k]) == SchemaAfter(sql, next.value, names[1..][..k - 1])
  {
    SchemaAfterFirst(sql, s, names, k);
    if k < |names| {
      SchemaAfterFirst(sql, s, names, k + 1);
    }
  }

  lemma AcceptedNone<S>(sql: Sql<S>, s: S, names: seq<string>)
    requires AcceptedUpTo(sql, s, names, 0) && names != []
    ensures sql.run(Migration(names[0]), s).None?
  {
    SchemaAfterFirst(sql, s, names, 1);
    assert names[1..][..0] == [];
  }

  /** One file that works. */
  lemma ApplyOneWorks<S>(sql: Sql<S>, db: Db<S>, name: string, fate: Fate, t: nat)
    requires db.tracked && name !in db.ledger && sql.run(Migration(name), db.schema).Some?
    requires fate(t).Works? && fate(t + 1).Works? && fate(t + 2).Works? && fate(t + 3).Works?
    ensures ApplyOne(sql, Idle(db), name, fate, t)
            == (Idle(Grown(db, sql.run(Migration(name), db.schema).value, [name])), Go)
  {
    assert [name][1..] == [] && Effects([name]) == [Migration(name)];
  }

  lemma GrownTwice<S>(db: Db<S>, s: S, first: string, s': S, rest: seq<string>)
    ensures Grown(Grown(db, s, [first]), s', rest) == Grown(db, s', [first] + rest)
  {
    EffectsConcat([first], rest);
    Reassociate(db.ledger, first, rest);
    assert (db.history + Effects([first])) + Effects(rest) == db.history + (Effects([first]) + Effects(rest));
  }

  lemma StillNew<S>(db: Db<S>, s: S, first: string, rest: seq<string>)
    requires Distinct(db.ledger + ([first] + rest))
    ensures first !in db.ledger && Distinct(Grown(db, s, [first]).ledger + rest)
  {
    NotRecordedYet(db.ledger, first, rest);
  }

  /** How a loop ends that meets no fault up to the file that is rejected, or up to its end: k files are in. */
  ghost predicate LoopEndsAfter<S>(db: Db<S>, todo: seq<string>, done: seq<string>, r: Result<S>, s: S, k: nat) {
    && k <= |todo| && r.session == Idle(Grown(db, s, todo[..k]))
    && r.outcome == if k == |todo| then Done(done + todo) else FailedAt(todo[k])
  }

  lemma LoopEndsAfterOneMore<S>(db: Db<S>, s1: S, first: string, rest: seq<string>, done: seq<string>, r: Result<S>,
                                s: S, k: nat)
    requires LoopEndsAfter(Grown(db, s1, [first]), rest, done + [first], r, s, k)
    ensures LoopEndsAfter(db, [first] + rest, done, r, s, k + 1)
  {
    GrownTwice(db, s1, first, s, rest[..k]);
    assert ([first] + rest)[..k + 1] == [first] + rest[..k];
    Reassociate(done, first, rest);
  }

  lemma LoopEndsAtOnce<S>(sql: Sql<S>, db: Db<S>, files: seq<string>, snapshot: set<string>, done: seq<string>,
                          fate: Fate, t: nat)
    requires db.tracked && fate(t).Works?
    requires files == [] || (files[0] !in snapshot && sql.run(Migration(files[0]), db.schema).None?)
    ensures LoopEndsAfter(db, Without(files, snapshot), done,
                          ApplyFiles(sql, Idle(db), files, snapshot, done, fate, t), db.schema, 0)
  {
    assert Effects([]) == [] && db.history + [] == db.history && db.ledger + [] == db.ledger;
    assert done + [] == done;
  }

  lemma {:induction false} LoopWithoutFault<S>(sql: Sql<S>, db: Db<S>, files: seq<string>, snapshot: set<string>,
                                               done: seq<string>, fate: Fate, t: nat, k: nat)
    requires var todo := Without(files, snapshot);
             db.tracked && Distinct(db.ledger + todo) && AcceptedUpTo(sql, db.schema, todo, k)
    requires forall j :: t <= j <= t + 4 * k ==> fate(j).Works?
    ensures var todo := Without(files, snapshot);
            LoopEndsAfter(db, todo, done, ApplyFiles(sql, Idle(db), files, snapshot, done, fate, t),
                          SchemaAfter(sql, db.schema, todo[..k]).value, k)
    decreases |files|
  {
    var todo := Without(files, snapshot);
    if files == [] {
      LoopEndsAtOnce(sql, db, files, snapshot, done, fate, t);
    } else if files[0] in snapshot {
      LoopWithoutFault(sql, db, files[1..], snapshot, done, fate, t, k);
    } else if k == 0 {
      AcceptedNone(sql, db.schema, todo);
      LoopEndsAtOnce(sql, db, files, snapshot, done, fate, t);
    } else {
      var rest := Without(files[1..], snapshot);
      AcceptedOnce(sql, db.schema, todo, k);
      assert todo[1..] == rest;
      FirstWorks(sql, db, files[0], rest, fate, t);
      var s1 := sql.run(Migration(files[0]), db.schema).value;
      var next := Grown(db, s1, [files[0]]);
      LoopWithoutFault(sql, next, files[1..], snapshot, done + [files[0]], fate, t + 4, k - 1);
      LoopEndsAfterOneMore(db, s1, files[0], rest, done,
                           ApplyFiles(sql, Idle(next), files[1..], snapshot, done + [files[0]], fate, t + 4),
                           SchemaAfter(sql, s1, rest[..k - 1]).value, k - 1);
    }
  }

  lemma FirstWorks<S>(sql: Sql<S>, db: Db<S>, first: string, rest: seq<string>, fate: Fate, t: nat)
    requires db.tracked && Distinct(db.ledger + ([first] + rest)) && sql.run(Migration(first), db.schema).Some?
    requires forall j :: t <= j <= t + 3 ==> fate(j).Works?
    ensures var next := Grown(db, sql.run(Migration(first), db.schema).value, [first]);
            ApplyOne(sql, Idle(db), first, fate, t) == (Idle(next), Go) && next.tracked && Distinct(next.ledger + rest)
  {
    StillNew(db, sql.run(Migration(first), db.schema).value, first, rest);
    ApplyOneWorks(sql, db, first, fate, t);
  }

  /** How a run ends whose first fault falls on step j, in the turn of file q or, after all files, the last commit. */
  function FaultOutcome(fault: Fault, j: nat, todo: seq<string>, q: nat): Outcome {
    if fault.Interrupts? then Interrupted(j) else if q < |todo| then FailedAt(todo[q]) else Failed
  }

  /** A fault in one file's turn, whose SQL is accepted if it gets that far. */
  lemma ApplyOneFault<S>(sql: Sql<S>, db: Db<S>, name: string, fate: Fate, t: nat, j: nat)
    requires db.tracked && name !in db.ledger && t <= j <= t + 3 && !fate(j).Works?
    requires forall i :: t <= i < j ==> fate(i).Works?
    requires j > t ==> sql.run(Migration(name), db.schema).Some?
    ensures var (s, g) := ApplyOne(sql, Idle(db), name, fate, t);
            !g.Go? && Stopped(s, g, name).outcome == FaultOutcome(fate(j), j, [name], 0)
  {
  }

  /** The files whose SQL is executed before step j of a loop that begins at step t. */
  function Tried(t: nat, j: nat): nat
    requires t <= j
  {
    (j - t + 3) / 4
  }

  lemma FourEarlier(t: nat, j: nat)
    requires j >= t + 4
    ensures Tried(t + 4, j) == Tried(t, j) - 1 && (j - (t + 4)) / 4 == (j - t) / 4 - 1
  {
  }

  lemma LaterFault<S>(sql: Sql<S>, db: Db<S>, files: seq<string>, snapshot: set<string>, done: seq<string>,
                      fate: Fate, t: nat, j: nat, next: Db<S>)
    requires files != [] && files[0] !in snapshot && j >= t + 4
    requires ApplyOne(sql, Idle(db), files[0], fate, t) == (Idle(next), Go)
    requires ApplyFiles(sql, Idle(next), files[1..], snapshot, done + [files[0]], fate, t + 4).outcome
             == FaultOutcome(fate(j), j, Without(files[1..], snapshot), (j - (t + 4)) / 4)
    ensures ApplyFiles(sql, Idle(db), files, snapshot, done, fate, t).outcome
            == FaultOutcome(fate(j), j, Without(files, snapshot), (j - t) / 4)
  {
    FourEarlier(t, j);
  }

  /** The first fault of a loop from step t on falls on step j, and no SQL before it is rejected. */
  ghost predicate FaultAt<S>(sql: Sql<S>, db: Db<S>, todo: seq<string>, fate: Fate, t: nat, j: nat) {
    && db.tracked && Distinct(db.ledger + todo) && t <= j <= t + 4 * |todo|
    && SchemaAfter(sql, db.schema, todo[..Tried(t, j)]).Some?
    && !fate(j).Works? && forall i :: t <= i < j ==> fate(i).Works?
  }

  lemma FaultInFirst<S>(sql: Sql<S>, db: Db<S>, files: seq<string>, snapshot: set<string>, done: seq<string>,
                        fate: Fate, t: nat, j: nat)
    requires files != [] && files[0] !in snapshot && j < t + 4
    requires FaultAt(sql, db, Without(files, snapshot), fate, t, j)
    ensures ApplyFiles(sql, Idle(db), files, snapshot, done, fate, t).outcome
            == FaultOutcome(fate(j), j, Without(files, snapshot), (j - t) / 4)
  {
    var todo := Without(files, snapshot);
    StillNew(db, db.schema, files[0], Without(files[1..], snapshot));
    if j > t {
      SchemaAfterFirst(sql, db.schema, todo, Tried(t, j));
    }
    ApplyOneFault(sql, db, files[0], fate, t, j);
  }

  lemma FaultInRest<S>(sql: Sql<S>, db: Db<S>, first: string, rest: seq<string>, fate: Fate, t: nat, j: nat)
    returns (next: Db<S>)
    requires FaultAt(sql, db, [first] + rest, fate, t, j) && j >= t + 4
    ensures ApplyOne(sql, Idle(db), first, fate, t) == (Idle(next), Go) && FaultAt(sql, next, rest, fate, t + 4, j)
  {
    var todo := [first] + rest;
    FourEarlier(t, j);
    SchemaAfterFirst(sql, db.schema, todo, Tried(t, j));
    assert todo[1..] == rest;
    FirstWorks(sql, db, first, rest, fate, t);
    next := Grown(db, sql.run(Migration(first), db.schema).value, [first]);
  }

  lemma {:induction false} LoopFault<S>(sql: Sql<S>, db: Db<S>, files: seq<string>, snapshot: set<string>,
                                        done: seq<string>, fate: Fate, t: nat, j: nat)
    requires FaultAt(sql, db, Without(files, snapshot), fate, t, j)
    ensures ApplyFiles(sql, Idle(db), files, snapshot, done, fate, t).outcome
            == FaultOutcome(fate(j), j, Without(files, snapshot), (j - t) / 4)
    decreases |files|
  {
    if files == [] {
    } else if files[0] in snapshot {
      LoopFault(sql, db, files[1..], snapshot, done, fate, t, j);
    } else if j < t + 4 {
      FaultInFirst(sql, db, files, snapshot, done, fate, t, j);
    } else {
      var next := FaultInRest(sql, db, files[0], Without(files[1..], snapshot), fate, t, j);
      LoopFault(sql, next, files[1..], snapshot, done + [files[0]], fate, t + 4, j);
      LaterFault(sql, db, files, snapshot, done, fate, t, j, next);
    }
  }

  /** The steps before the loop; two of them only when the base schema is not there yet. */
  predicate BeforeLoop<S>(sql: Sql<S>, db: Db<S>, j: nat) {
    j <= 1 || 4 <= j <= 6 || (2 <= j <= 3 && !sql.marker(db.schema))
  }

  /** The steps a run takes when nothing stops it: four for each file still to do, and the last commit. */
  predicate Taken<S>(sql: Sql<S>, db: Db<S>, files: seq<string>, j: nat) {
    BeforeLoop(sql, db, j) || 7 <= j <= 7 + 4 * |Todo(db, files)|
  }

  /** The database the loop begins on. */
  function Ready<S>(sql: Sql<S>, db: Db<S>): Option<Db<S>> {
    var s := BasedSchema(sql, db.schema);
    if s.None? then None
    else Some(Db(s.value, if sql.marker(db.schema) then db.history else db.history + [BaseSchema], true, db.ledger))
  }

  lemma RunReachesLoop<S>(sql: Sql<S>, db: Db<S>, files: seq<string>, fate: Fate)
    requires WellFormed(db) && Ready(sql, db).Some? && forall j: nat :: BeforeLoop(sql, db, j) ==> fate(j).Works?
    ensures Run(sql, Idle(db), files, fate)
            == ApplyFiles(sql, Idle(Ready(sql, db).value), files, Names(db.ledger), [], fate, 7)
  {
    assert BeforeLoop(sql, db, 0) && BeforeLoop(sql, db, 1);
    assert BeforeLoop(sql, db, 4) && BeforeLoop(sql, db, 5) && BeforeLoop(sql, db, 6);
    assert !sql.marker(db.schema) ==> BeforeLoop(sql, db, 2) && BeforeLoop(sql, db, 3);
    assert Tracked(Based(sql, db).value) == Ready(sql, db).value;
    assert Run(sql, Idle(db), files, fate) == TrackAndApply(sql, Idle(Based(sql, db).value), files, fate);
  }

  lemma BaseRejected<S>(sql: Sql<S>, db: Db<S>, files: seq<string>, fate: Fate)
    requires Ready(sql, db).None? && fate(0).Works? && fate(1).Works? && fate(2).Works?
    ensures var r := Run(sql, Idle(db), files, fate); r.outcome == Failed && r.session.committed == db
  {
  }

  lemma {:induction false} WithoutDistinct(files: seq<string>, gone: set<string>)
    requires Distinct(files)
    ensures Distinct(Without(files, gone))
  {
    if files != [] {
      WithoutDistinct(files[1..], gone);
      assert forall i :: 0 < i < |files| ==> files[i] != files[0];
      assert files[0] !in files[1..];
    }
  }

  lemma TodoIsNew<S>(db: Db<S>, files: seq<string>)
    requires WellFormed(db) && Distinct(files)
    ensures Distinct(db.ledger + Todo(db, files))
  {
    var todo := Todo(db, files);
    WithoutDistinct(files, Names(db.ledger));
    forall i, j | 0 <= i < |db.ledger| && 0 <= j < |todo| ensures db.ledger[i] != todo[j] {
      assert todo[j] in todo;
    }
  }

  /**
   A run that meets no fault. If the base schema is missing and rejected it fails and commits nothing. Otherwise
   it applies the listed files that are not recorded, in listing order, up to the first whose SQL is rejected:
   with none rejected it returns their names, else it fails at that file; and committed are exactly the effects
   and rows of those before it.
   */
  lemma RunWithoutFault<S>(sql: Sql<S>, db: Db<S>, files: seq<string>, fate: Fate) returns (k: nat)
    requires WellFormed(db) && Distinct(files) && forall j: nat :: Taken(sql, db, files, j) ==> fate(j).Works?
    ensures Ready(sql, db).None? ==>
            var r := Run(sql, Idle(db), files, fate); r.outcome == Failed && r.session.committed == db
    ensures Ready(sql, db).Some? ==>
            var r, d, todo := Run(sql, Idle(db), files, fate), Ready(sql, db).value, Todo(db, files);
            && AcceptedUpTo(sql, d.schema, todo, k)
            && r.outcome == (if k == |todo| then Done(todo) else FailedAt(todo[k]))
            && r.session == Idle(Grown(d, SchemaAfter(sql, d.schema, todo[..k]).value, todo[..k]))
  {
    assert Taken(sql, db, files, 0) && Taken(sql, db, files, 1);
    if Ready(sql, db).None? {
      assert Taken(sql, db, files, 2);
      BaseRejected(sql, db, files, fate);
      k := 0;
    } else {
      k := FindAccepted(sql, Ready(sql, db).value.schema, Todo(db, files));
      RunUpTo(sql, db, files, fate, k);
    }
  }

  /** No fault before the turn of file k, nor at its SQL. */
  lemma RunUpTo<S>(sql: Sql<S>, db: Db<S>, files: seq<string>, fate: Fate, k: nat)
    requires WellFormed(db) && Distinct(files) && Ready(sql, db).Some?
    requires AcceptedUpTo(sql, Ready(sql, db).value.schema, Todo(db, files), k)
    requires forall j: nat :: Taken(sql, db, files, j) && j <= 7 + 4 * k ==> fate(j).Works?
    ensures var d, todo := Ready(sql, db).value, Todo(db, files);
            LoopEndsAfter(d, todo, [], Run(sql, Idle(db), files, fate), SchemaAfter(sql, d.schema, todo[..k]).value, k)
    ensures [] + Todo(db, files) == Todo(db, files)
  {
    TodoIsNew(db, files);
    forall j: nat | BeforeLoop(sql, db, j) ensures fate(j).Works? {
      assert Taken(sql, db, files, j);
    }
    forall j | 7 <= j <= 7 + 4 * k ensures fate(j).Works? {
      assert Taken(sql, db, files, j);
    }
    RunReachesLoop(sql, db, files, fate);
    LoopWithoutFault(sql, Ready(sql, db).value, files, Names(db.ledger), [], fate, 7, k);
  }

  /** What is executed before step j is accepted: the base schema, and the files tried. */
  predicate AcceptedBefore<S>(sql: Sql<S>, db: Db<S>, files: seq<string>, j: nat) {
    && (j > 2 ==> Ready(sql, db).Some?)
    && (7 <= j <= 7 + 4 * |Todo(db, files)| ==>
          SchemaAfter(sql, Ready(sql, db).value.schema, Todo(db, files)[..Tried(7, j)]).Some?)
  }

  ghost predicate FirstFault<S>(sql: Sql<S>, db: Db<S>, files: seq<string>, fate: Fate, j: nat) {
    Taken(sql, db, files, j) && !fate(j).Works? && forall i: nat :: i < j && Taken(sql, db, files, i) ==> fate(i).Works?
  }

  /**
   The first fault, when no SQL before it is rejected, decides how the run ends: an interrupt is named by its
   step; an error in a file's turn is named by that file; any other error is a plain failure.
   */
  lemma FirstFaultDecides<S>(sql: Sql<S>, db: Db<S>, files: seq<string>, fate: Fate, j: nat)
    requires WellFormed(db) && Distinct(files) && FirstFault(sql, db, files, fate, j)
    requires AcceptedBefore(sql, db, files, j)
    ensures Run(sql, Idle(db), files, fate).outcome ==
            if fate(j).Interrupts? then Interrupted(j)
            else if 7 <= j < 7 + 4 * |Todo(db, files)| then FailedAt(Todo(db, files)[(j - 7) / 4])
            else Failed
  {
    if j < 7 {
      EarlyFault(sql, db, files, fate, j);
    } else {
      TodoIsNew(db, files);
      forall i: nat | BeforeLoop(sql, db, i) ensures fate(i).Works? {
        assert Taken(sql, db, files, i);
      }
      RunReachesLoop(sql, db, files, fate);
      forall i | 7 <= i < j ensures fate(i).Works? {
        assert Taken(sql, db, files, i);
      }
      LoopFault(sql, Ready(sql, db).value, files, Names(db.ledger), [], fate, 7, j);
    }
  }

  lemma EarlyFault<S>(sql: Sql<S>, db: Db<S>, files: seq<string>, fate: Fate, j: nat)
    requires WellFormed(db) && FirstFault(sql, db, files, fate, j) && j < 7 && (j > 2 ==> Ready(sql, db).Some?)
    ensures Run(sql, Idle(db), files, fate).outcome == if fate(j).Interrupts? then Interrupted(j) else Failed
  {
    assert j > 0 ==> Taken(sql, db, files, 0);
    assert j > 1 ==> Taken(sql, db, files, 1);
    if j >= 4 {
      assert forall i :: 4 <= i < j ==> Taken(sql, db, files, i);
      assert !sql.marker(db.schema) ==> Taken(sql, db, files, 2) && Taken(sql, db, files, 3);
      EarlyFaultInTracking(sql, Based(sql, db).value, files, fate, j);
      assert Run(sql, Idle(db), files, fate) == TrackAndApply(sql, Idle(Based(sql, db).value), files, fate);
    } else if j == 3 {
      assert Taken(sql, db, files, 2);
    }
  }

  lemma EarlyFaultInTracking<S>(sql: Sql<S>, db: Db<S>, files: seq<string>, fate: Fate, j: nat)
    requires 4 <= j <= 6 && !fate(j).Works? && forall i :: 4 <= i < j ==> fate(i).Works?
    ensures TrackAndApply(sql, Idle(db), files, fate).outcome == if fate(j).Interrupts? then Interrupted(j) else Failed
  {
  }

  lemma LeastFault<S>(sql: Sql<S>, db: Db<S>, files: seq<string>, fate: Fate, n: nat) returns (j: nat)
    requires Taken(sql, db, files, n) && !fate(n).Works?
    ensures FirstFault(sql, db, files, fate, j)
    decreases n
  {
    j := n;
    if i: nat :| i < n && Taken(sql, db, files, i) && !fate(i).Works? {
      j := LeastFault(sql, db, files, fate, i);
    }
  }

  lemma {:induction false} PrefixAccepted<S>(sql: Sql<S>, s: S, names: seq<string>, m: nat, k: nat)
    requires m <= k <= |names| && SchemaAfter(sql, s, names[..k]).Some?
    ensures SchemaAfter(sql, s, names[..m]).Some?
    decreases m
  {
    if m > 0 {
      SchemaAfterFirst(sql, s, names, m);
      SchemaAfterFirst(sql, s, names, k);
      PrefixAccepted(sql, sql.run(Migration(names[0]), s).value, names[1..], m - 1, k - 1);
    }
  }

  /** A fault that comes after a rejection finds the run over: it has not returned. */
  lemma RejectedBefore<S>(sql: Sql<S>, db: Db<S>, files: seq<string>, fate: Fate, j: nat)
    requires WellFormed(db) && Distinct(files) && FirstFault(sql, db, files, fate, j)
    requires !AcceptedBefore(sql, db, files, j)
    ensures !Run(sql, Idle(db), files, fate).outcome.Done?
  {
    if Ready(sql, db).None? {
      assert Taken(sql, db, files, 0) && Taken(sql, db, files, 1) && Taken(sql, db, files, 2);
      BaseRejected(sql, db, files, fate);
    } else {
      var s, todo := Ready(sql, db).value.schema, Todo(db, files);
      var k := FindAccepted(sql, s, todo);
      if Tried(7, j) <= k {
        PrefixAccepted(sql, s, todo, Tried(7, j), k);
      }
      assert 7 + 4 * k < j;
      RunUpTo(sql, db, files, fate, k);
    }
  }

  /**
   A run returns exactly when every step it takes works, the base schema is there or accepted, and the SQL of
   every listed file not recorded is accepted in turn; it returns those files' names.
   */
  lemma ReturnsExactlyWhen<S>(sql: Sql<S>, db: Db<S>, files: seq<string>, fate: Fate)
    requires WellFormed(db) && Distinct(files)
    ensures Run(sql, Idle(db), files, fate).outcome.Done? <==>
            && (forall j: nat :: Taken(sql, db, files, j) ==> fate(j).Works?)
            && Ready(sql, db).Some? && SchemaAfter(sql, Ready(sql, db).value.schema, Todo(db, files)).Some?
    ensures Run(sql, Idle(db), files, fate).outcome.Done? ==>
            Run(sql, Idle(db), files, fate).outcome == Done(Todo(db, files))
  {
    var todo := Todo(db, files);
    if forall j: nat :: Taken(sql, db, files, j) ==> fate(j).Works? {
      var k := RunWithoutFault(sql, db, files, fate);
      assert todo[..|todo|] == todo;
      if k < |todo| && Ready(sql, db).Some? && SchemaAfter(sql, Ready(sql, db).value.schema, todo).Some? {
        PrefixAccepted(sql, Ready(sql, db).value.schema, todo, k + 1, |todo|);
      }
    } else {
      var n: nat :| Taken(sql, db, files, n) && !fate(n).Works?;
      var j := LeastFault(sql, db, files, fate, n);
      if AcceptedBefore(sql, db, files, j) {
        FirstFaultDecides(sql, db, files, fate, j);
      } else {
        RejectedBefore(sql, db, files, fate, j);
      }
    }
  }

  // ----- A connection handed back mid-transaction ------------------------------------------------

  lemma BasedFaithful<S(!new)>(sql: Sql<S>, db: Db<S>)
    requires MarkerLaw(sql) && WellFormed(db) && (db.tracked ==> sql.marker(db.schema)) && Based(sql, db).Some?
    ensures Faithful(sql, Tracked(Based(sql, db).value)) <==> Faithful(sql, db)
    ensures Faithful(sql, Based(sql, db).value) <==> Faithful(sql, db)
  {
    if !sql.marker(db.schema) {
      assert Effects(db.ledger) == [];
      assert db.history == (db.history + [BaseSchema])[..|db.history|];
      if db.history + [BaseSchema] == [BaseSchema] {
        assert |db.history + [BaseSchema]| == 1;
      }
    }
  }

  lemma ExtendedFaithful<S(!new)>(sql: Sql<S>, db: Db<S>, names: seq<string>)
    requires MarkerLaw(sql) && db.tracked && sql.marker(db.schema) && Extended(sql, db, names).Some?
    ensures Faithful(sql, Extended(sql, db, names).value) <==> Faithful(sql, db)
  {
    var e := Extended(sql, db, names).value;
    ExtendedKeeps(sql, db, names);
    ExtendedMarker(sql, db, names);
    EffectsConcat(db.ledger, names);
    var mine := [BaseSchema] + Effects(db.ledger);
    assert [BaseSchema] + Effects(e.ledger) == mine + Effects(names);
    if e.history == mine + Effects(names) {
      assert |db.history| == |mine|;
      assert db.history == e.history[..|mine|] == mine;
    }
  }

  /** A run on a connection some caller hands in starts by committing whatever that connection has pending. */
  lemma ReuseCommitsPending<S(!new)>(sql: Sql<S>, s: Session<S>, files: seq<string>, fate: Fate)
    requires MarkerLaw(sql) && !s.aborted && fate(0).Works? && fate(1).Works?
    requires WellFormed(s.working) && (s.working.tracked ==> sql.marker(s.working.schema))
    ensures Faithful(sql, Run(sql, s, files, fate).session.committed) <==> Faithful(sql, s.working)
  {
    var db := s.working;
    assert Run(sql, s, files, fate) == Run(sql, Idle(db), files, fate);
    var p, k := RunShape(sql, db, files, fate);
    var based := Based(sql, db);
    if based.Some? {
      BasedFaithful(sql, db);
      var t := Tracked(based.value);
      var todo := Todo(t, files);
      if p <= |todo| && Extended(sql, t, todo[..p]).Some? {
        ExtendedFaithful(sql, t, todo[..p]);
      }
    }
  }

  /** The step is some file's INSERT into schema_migrations: the second of the four steps of its turn. */
  predicate AtRow(at: nat, start: nat) {
    at >= start && (at - start) % 4 == 1
  }

  /** What later runs need of a pending state, whether or not it is faithful. */
  ghost predicate Usable<S>(sql: Sql<S>, s: Session<S>) {
    !s.aborted && WellFormed(s.working) && (s.working.tracked ==> sql.marker(s.working.schema))
  }

  /** Where an interrupt in a file's turn leaves the open transaction. */
  lemma ApplyOneStops<S(!new)>(sql: Sql<S>, db: Db<S>, name: string, fate: Fate, t: nat)
    requires MarkerLaw(sql) && WellFormed(db) && Faithful(sql, db) && db.tracked && sql.marker(db.schema)
    requires ApplyOne(sql, Idle(db), name, fate, t).1.Stop?
    ensures var (s, g) := ApplyOne(sql, Idle(db), name, fate, t);
            t <= g.at < t + 4 && Usable(sql, s) && (Faithful(sql, s.working) <==> g.at != t + 1)
  {
    var d := Applied(sql, db, Migration(name));
    if d.Some? {
      EffectsConcat(db.ledger, [name]);
      assert Effects([name]) == [Migration(name)] by { assert [name][1..] == []; }
      assert |d.value.history| == |db.history| + 1;
    }
  }

  /** A run or loop whose file turns count from `start` was interrupted: where decides what is pending. */
  ghost predicate StoppedAt<S>(sql: Sql<S>, r: Result<S>, start: nat) {
    r.outcome.Interrupted? ==>
      Usable(sql, r.session) && (Faithful(sql, r.session.working) <==> !AtRow(r.outcome.at, start))
  }

  lemma FourLater<S>(sql: Sql<S>, r: Result<S>, t: nat)
    requires r.outcome.Interrupted? ==> r.outcome.at >= t + 4
    requires StoppedAt(sql, r, t + 4)
    ensures StoppedAt(sql, r, t)
  {
    if r.outcome.Interrupted? {
      assert (r.outcome.at - t - 4) % 4 == (r.outcome.at - t) % 4;
    }
  }

  lemma {:induction false} LoopStopsLater<S(!new)>(sql: Sql<S>, s: Session<S>, files: seq<string>,
                                                   snapshot: set<string>, done: seq<string>, fate: Fate, t: nat)
    ensures var o := ApplyFiles(sql, s, files, snapshot, done, fate, t).outcome; o.Interrupted? ==> o.at >= t
    decreases |files|
  {
    if files != [] {
      if files[0] in snapshot {
        LoopStopsLater(sql, s, files[1..], snapshot, done, fate, t);
      } else {
        var (s', g) := ApplyOne(sql, s, files[0], fate, t);
        if g.Go? {
          LoopStopsLater(sql, s', files[1..], snapshot, done + [files[0]], fate, t + 4);
        }
      }
    }
  }

  lemma FirstFileStops<S(!new)>(sql: Sql<S>, empty: S, db: Db<S>, name: string, fate: Fate, t: nat)
    requires MarkerLaw(sql) && Inv(sql, empty, db) && db.tracked
    requires !ApplyOne(sql, Idle(db), name, fate, t).1.Go?
    ensures var (s, g) := ApplyOne(sql, Idle(db), name, fate, t); StoppedAt(sql, Stopped(s, g, name), t)
  {
    if ApplyOne(sql, Idle(db), name, fate, t).1.Stop? {
      ApplyOneStops(sql, db, name, fate, t);
    }
  }

  lemma FirstFileGoes<S(!new)>(sql: Sql<S>, empty: S, db: Db<S>, name: string, fate: Fate, t: nat)
    requires MarkerLaw(sql) && Inv(sql, empty, db) && db.tracked
    requires ApplyOne(sql, Idle(db), name, fate, t).1.Go?
    ensures var s := ApplyOne(sql, Idle(db), name, fate, t).0;
            s == Idle(s.committed) && Inv(sql, empty, s.committed) && s.committed.tracked
  {
    ApplyOneShape(sql, db, name, fate, t);
    ExtendedInv(sql, empty, db, [name]);
    ExtendedKeeps(sql, db, [name]);
  }

  lemma {:induction false} LoopStops<S(!new)>(sql: Sql<S>, empty: S, db: Db<S>, files: seq<string>,
                                              snapshot: set<string>, done: seq<string>, fate: Fate, t: nat)
    requires MarkerLaw(sql) && Inv(sql, empty, db) && db.tracked
    ensures StoppedAt(sql, ApplyFiles(sql, Idle(db), files, snapshot, done, fate, t), t)
    decreases |files|
  {
    if files == [] {
    } else if files[0] in snapshot {
      LoopStops(sql, empty, db, files[1..], snapshot, done, fate, t);
    } else {
      var (s, g) := ApplyOne(sql, Idle(db), files[0], fate, t);
      if g.Go? {
        FirstFileGoes(sql, empty, db, files[0], fate, t);
        var r := ApplyFiles(sql, s, files[1..], snapshot, done + [files[0]], fate, t + 4);
        LoopStops(sql, empty, s.committed, files[1..], snapshot, done + [files[0]], fate, t + 4);
        LoopStopsLater(sql, s, files[1..], snapshot, done + [files[0]], fate, t + 4);
        FourLater(sql, r, t);
        assert ApplyFiles(sql, Idle(db), files, snapshot, done, fate, t) == r;
      } else {
        FirstFileStops(sql, empty, db, files[0], fate, t);
      }
    }
  }

  lemma StoppedEarly<S(!new)>(sql: Sql<S>, empty: S, committed: Db<S>, working: Db<S>, g: Signal)
    requires Inv(sql, empty, working) && (g.Stop? ==> g.at < 7)
    ensures StoppedAt(sql, Ended(Session(committed, working, false), g), 7)
  {
  }

  lemma TrackAndApplyStops<S(!new)>(sql: Sql<S>, empty: S, db: Db<S>, files: seq<string>, fate: Fate)
    requires MarkerLaw(sql) && Inv(sql, empty, db) && Inv(sql, empty, Tracked(db))
    ensures StoppedAt(sql, TrackAndApply(sql, Idle(db), files, fate), 7)
  {
    var t := Tracked(db);
    if fate(4).Works? && fate(5).Works? && fate(6).Works? {
      LoopStops(sql, empty, t, files, Names(t.ledger), [], fate, 7);
      assert TrackAndApply(sql, Idle(db), files, fate) == ApplyFiles(sql, Idle(t), files, Names(t.ledger), [], fate, 7);
    } else if fate(4).Works? {
      StoppedEarly(sql, empty, if fate(5).Works? then t else db, t, TrackStop(fate));
    }
  }

  /** Where the creation of the table, its commit or the read of the ledger stop. */
  function TrackStop(fate: Fate): Signal {
    if fate(5).Interrupts? then Stop(5) else if fate(5).Works? && fate(6).Interrupts? then Stop(6) else Raise
  }

  lemma RunOnBaseStops<S(!new)>(sql: Sql<S>, empty: S, db: Db<S>, files: seq<string>, fate: Fate)
    requires MarkerLaw(sql) && Inv(sql, empty, db) && sql.marker(db.schema)
    ensures StoppedAt(sql, Run(sql, Idle(db), files, fate), 7)
  {
    if fate(0).Works? && fate(1).Works? {
      BasedInv(sql, empty, db);
      TrackAndApplyStops(sql, empty, db, files, fate);
      assert Run(sql, Idle(db), files, fate) == TrackAndApply(sql, Idle(db), files, fate);
    } else {
      StoppedEarly(sql, empty, db, db,
                   if fate(0).Works? then Commit(Idle(db), fate, 1).1 else Attempt(Idle(db), fate, 0, Some(db)).1);
    }
  }

  lemma RunFromEmptyStops<S(!new)>(sql: Sql<S>, empty: S, db: Db<S>, files: seq<string>, fate: Fate)
    requires MarkerLaw(sql) && Inv(sql, empty, db) && !sql.marker(db.schema)
    ensures StoppedAt(sql, Run(sql, Idle(db), files, fate), 7)
  {
    if fate(0).Works? && fate(1).Works? && fate(2).Works? && Applied(sql, db, BaseSchema).Some? {
      RunPastBaseStops(sql, empty, db, files, fate);
    }
  }

  lemma RunPastBaseStops<S(!new)>(sql: Sql<S>, empty: S, db: Db<S>, files: seq<string>, fate: Fate)
    requires MarkerLaw(sql) && Inv(sql, empty, db) && !sql.marker(db.schema)
    requires fate(0).Works? && fate(1).Works? && fate(2).Works? && Applied(sql, db, BaseSchema).Some?
    ensures StoppedAt(sql, Run(sql, Idle(db), files, fate), 7)
  {
    BasedInv(sql, empty, db);
    var b := Applied(sql, db, BaseSchema).value;
    if fate(3).Works? {
      TrackAndApplyStops(sql, empty, b, files, fate);
      assert Run(sql, Idle(db), files, fate) == TrackAndApply(sql, Idle(b), files, fate);
    } else {
      StoppedEarly(sql, empty, db, b, Commit(Session(db, b, false), fate, 3).1);
    }
  }

  /**
   An interrupted run leaves an open transaction that contradicts the history exactly when the interrupt
   fell on the INSERT of some file's row, its SQL having run.
   */
  lemma InterruptLeavesUnfaithfulExactlyAtRow<S(!new)>(sql: Sql<S>, empty: S, db: Db<S>, files: seq<string>, fate: Fate)
    requires MarkerLaw(sql) && Inv(sql, empty, db)
    ensures StoppedAt(sql, Run(sql, Idle(db), files, fate), 7)
  {
    if sql.marker(db.schema) {
      RunOnBaseStops(sql, empty, db, files, fate);
    } else {
      RunFromEmptyStops(sql, empty, db, files, fate);
    }
  }

  /**
   A second run on the connection of an interrupted one commits a history that is no longer true exactly
   when the interrupt fell on a file's row and the second run's first statement and commit work.
   */
  lemma ReuseIsFaithfulExactlyUnlessAtRow<S(!new)>(sql: Sql<S>, empty: S, db: Db<S>, files: seq<string>, fate: Fate,
                                                  files': seq<string>, fate': Fate)
    requires MarkerLaw(sql) && Inv(sql, empty, db)
    requires Run(sql, Idle(db), files, fate).outcome.Interrupted?
    ensures var first := Run(sql, Idle(db), files, fate);
            var second := Run(sql, first.session, files', fate');
            Faithful(sql, second.session.committed) <==>
            !(AtRow(first.outcome.at, 7) && fate'(0).Works? && fate'(1).Works?)
  {
    InterruptLeavesUnfaithfulExactlyAtRow(sql, empty, db, files, fate);
    var first := Run(sql, Idle(db), files, fate);
    if fate'(0).Works? && fate'(1).Works? {
      ReuseCommitsPending(sql, first.session, files', fate');
    } else {
      RunKeepsInv(sql, empty, db, files, fate);
      NothingCommitted(sql, first.session, files', fate');
    }
  }

  lemma NothingCommitted<S>(sql: Sql<S>, s: Session<S>, files: seq<string>, fate: Fate)
    requires !(fate(0).Works? && fate(1).Works?)
    ensures Run(sql, s, files, fate).session.committed == s.committed
  {
  }

  /** A schema that only remembers whether the base schema ran. */
  function BaseOnly(): Sql<bool> {
    Sql((e: Effect, s: bool) => if e == BaseSchema then Some(true) else Some(s), (s: bool) => s)
  }

  /** Statement t is cut short by an exit that is not an `Exception`; all others work. */
  function InterruptedAt(t: nat): Fate {
    (i: nat) => if i == t then Interrupts else Works
  }

  function AllWork(): Fate {
    (i: nat) => Works
  }

  /** An exit between a file's SQL and its row, then a second run on the same connection: its effect is in twice. */
  lemma InterruptedThenReusedAppliesTwice()
    ensures MarkerLaw(BaseOnly()) && !BaseOnly().marker(false)
    ensures var first := Run(BaseOnly(), Idle(Fresh(false)), ["a"], InterruptedAt(8));
            var second := Run(BaseOnly(), first.session, ["a"], AllWork());
            && first.outcome == Interrupted(8)
            && first.session.committed.history == [BaseSchema]
            && second.outcome == Done(["a"])
            && second.session.committed.history == [BaseSchema, Migration("a"), Migration("a")]
  {
    var sql := BaseOnly();
    var based := Db(true, [BaseSchema], true, []);
    assert Names([]) == {};
    var first := Run(sql, Idle(Fresh(false)), ["a"], InterruptedAt(8));
    assert first == ApplyFiles(sql, Idle(based), ["a"], {}, [], InterruptedAt(8), 7);
    assert first.session.working == Db(true, [BaseSchema, Migration("a")], true, []);
    var w := first.session.working;
    var second := Run(sql, first.session, ["a"], AllWork());
    assert second == ApplyFiles(sql, Idle(w), ["a"], {}, [], AllWork(), 7);
    var (s', g) := ApplyOne(sql, Idle(w), "a", AllWork(), 7);
    assert ["a"][1..] == [] && [] + ["a"] == ["a"];
    assert second == ApplyFiles(sql, s', [], {}, ["a"], AllWork(), 11);
  }

  // ----- The runner itself -----------------------------------------------------------------------

  /** A psycopg2 connection and what it is connected to. */
  class Connection<S> {
    const sql: Sql<S>
    var committed: Db<S>
    var working: Db<S>
    var aborted: bool

    function Now(): Session<S>
      reads this
    {
      Session(committed, working, aborted)
    }

    constructor (sql: Sql<S>, db: Db<S>)
      ensures this.sql == sql && Now() == Idle(db)
    {
      this.sql, committed, working, aborted := sql, db, db, false;
    }

    /** One statement; `next` is the state it leads to when nothing outside goes wrong. */
    method Execute(fate: Fate, t: nat, next: Option<Db<S>>) returns (g: Signal)
      modifies this
      ensures (Now(), g) == Attempt(old(Now()), fate, t, next)
    {
      match fate(t) {
        case Interrupts => return Stop(t);
        case Raises => return Raise;
        case SqlError =>
          aborted := true;
          return Raise;
        case Works =>
          if aborted || next.None? {
            aborted := true;
            return Raise;
          }
          working := next.value;
          return Go;
      }
    }

    method DoCommit(fate: Fate, t: nat) returns (g: Signal)
      modifies this
      ensures (Now(), g) == Commit(old(Now()), fate, t)
    {
      if fate(t).Works? {
        if !aborted {
          committed := working;
        }
        DoRollback();
        return Go;
      }
      return if fate(t).Interrupts? then Stop(t) else Raise;
    }

    method DoRollback()
      modifies this
      ensures Now() == Rollback(old(Now()))
    {
      working, aborted := committed, false;
    }

    /** The body of the loop for a file that is not recorded yet. */
    method ApplyFile(name: string, fate: Fate, t: nat) returns (g: Signal)
      modifies this
      ensures (Now(), g) == ApplyOne(sql, old(Now()), name, fate, t)
    {
      g := Execute(fate, t, Applied(sql, working, Migration(name)));
      if g.Go? {
        g := Execute(fate, t + 1, Recorded(working, name));
      }
      if g.Go? {
        g := DoCommit(fate, t + 2);
        if g.Go? {
          g := match fate(t + 3) case Works => Go case Interrupts => Stop(t + 3) case _ => Raise;
        }
      }
    }

    method ApplyPending(files: seq<string>, fate: Fate) returns (outcome: Outcome)
      modifies this
      ensures Result(Now(), outcome) == ApplyFiles(sql, old(Now()), files, Names(old(working.ledger)), [], fate, 7)
    {
      var snapshot := Names(working.ledger);
      var applied: seq<string>, t, i := [], 7, 0;
      while i < |files|
        invariant 0 <= i <= |files|
        invariant ApplyFiles(sql, old(Now()), files, snapshot, [], fate, 7)
               == ApplyFiles(sql, Now(), files[i..], snapshot, applied, fate, t)
      {
        assert files[i..][0] == files[i] && files[i..][1..] == files[i + 1..];
        if files[i] !in snapshot {
          var g := ApplyFile(files[i], fate, t);
          if g.Raise? {
            DoRollback();
            return FailedAt(files[i]);
          }
          if g.Stop? {
            return Interrupted(g.at);
          }
          applied, t := applied + [files[i]], t + 4;
        }
        i := i + 1;
      }
      var g := DoCommit(fate, t);
      return match g case Go => Done(applied) case Stop(at) => Interrupted(at) case Raise => Failed;
    }

    /** `run`: everything the lemmas above say of the function holds of this method. */
    method RunMigrations(files: seq<string>, fate: Fate) returns (outcome: Outcome)
      modifies this
      ensures Result(Now(), outcome) == Run(sql, old(Now()), files, fate)
    {
      var g := Execute(fate, 0, Some(working));
      if g.Go? {
        g := DoCommit(fate, 1);
      }
      if g.Go? && !sql.marker(working.schema) {
        g := Execute(fate, 2, Applied(sql, working, BaseSchema));
        if g.Go? {
          g := DoCommit(fate, 3);
        }
      }
      if g.Go? {
        g := Execute(fate, 4, Some(Tracked(working)));
      }
      if g.Go? {
        g := DoCommit(fate, 5);
      }
      if g.Go? {
        g := Execute(fate, 6, Some(working));
      }
      if !g.Go? {
        return if g.Stop? then Interrupted(g.at) else Failed;
      }
      outcome := ApplyPending(files, fate);
    }
  }
}
