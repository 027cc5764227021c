/**
 Stored connector credentials, the operator commands `check` and `rewrap`, and the documented key rotation.

 Encryption is symbolic: a data key opens exactly what it encrypted, a wrapping key unwraps exactly what
 it wrapped.
 */
module VaultRotation {
  import opened Common

  type Key = nat
  type DataKey = nat
  type SourceId = string

  datatype Backend = LocalKms | AwsKms

  /** A configured backend: the current wrapping key and, for the local one, the previous keys still accepted. */
  datatype Kms = Kms(backend: Backend, current: Key, previous: seq<Key>)

  datatype Wrapped = Wrapped(under: Key, dek: DataKey)

  /** An encrypted credential. */
  datatype Body = Body(dek: DataKey, plaintext: string)

  /** A non-empty connection_credentials_vault. */
  datatype Stored = Legacy(text: string) | Envelope(backend: Backend, wrapped: Wrapped, body: Body)

  function Encrypt(kms: Kms, plaintext: string, dek: DataKey): Stored {
    Envelope(kms.backend, Wrapped(kms.current, dek), Body(dek, plaintext))
  }

  function Unwrap(kms: Kms, w: Wrapped): Option<DataKey> {
    if w.under == kms.current || (kms.backend.LocalKms? && w.under in kms.previous) then Some(w.dek) else None
  }

  /** `decrypt_credentials`; None is CredentialDecryptionError. */
  function Decrypt(kms: Kms, v: Stored): Option<string> {
    if v.Legacy? || v.backend != kms.backend then None else
    var dek := Unwrap(kms, v.wrapped);
    if dek.None? || dek.value != v.body.dek then None else Some(v.body.plaintext)
  }

  predicate Accepts(kms: Kms, under: Key) {
    under == kms.current || (kms.backend.LocalKms? && under in kms.previous)
  }

  /** An envelope of this backend, wrapped under an accepted key, with the data key its body was encrypted with. */
  predicate Opens(kms: Kms, v: Stored) {
    v.Envelope? && v.backend == kms.backend && Accepts(kms, v.wrapped.under) && v.wrapped.dek == v.body.dek
  }

  /** A credential is opened exactly when it can be, and then to what was encrypted. */
  lemma DecryptOpens(kms: Kms, v: Stored)
    ensures Decrypt(kms, v) == if Opens(kms, v) then Some(v.body.plaintext) else None
  {
  }

  /** What one configuration encrypts, another one opens exactly when it has the backend and accepts the key. */
  lemma EncryptedOpensExactlyWhen(writer: Kms, reader: Kms, plaintext: string, dek: DataKey)
    ensures Decrypt(reader, Encrypt(writer, plaintext, dek)) ==
            if reader.backend == writer.backend && Accepts(reader, writer.current) then Some(plaintext) else None
  {
    DecryptOpens(reader, Encrypt(writer, plaintext, dek));
  }

  /** Unopenable is CredentialDecryptionError; BadToken is the InvalidToken no caller expects. */
  datatype Rewrapping = AlreadyCurrent | Moved(value: Stored) | Unopenable | BadToken

  /** `rewrap_envelope`. Only the local backend can tell that a wrapped key is current already. */
  function RewrapEnvelope(kms: Kms, v: Stored): Rewrapping {
    if v.Legacy? || v.backend != kms.backend then Unopenable
    else if kms.backend.LocalKms? && v.wrapped.under == kms.current then AlreadyCurrent
    else
      var dek := Unwrap(kms, v.wrapped);
      if dek.None? then Unopenable
      else if dek.value != v.body.dek then BadToken
      else Moved(v.(wrapped := Wrapped(kms.current, dek.value)))
  }

  /** The local backend sees that the data key is wrapped under the current key. */
  predicate SeenCurrent(kms: Kms, v: Stored) {
    v.Envelope? && v.backend == kms.backend == LocalKms && v.wrapped.under == kms.current
  }

  /**
   What becomes of a stored value: left when it is seen to be on the current key, opening or not; otherwise
   moved exactly when it opens, a bad token exactly when only its body does not, and unopenable in all other
   cases. Moving changes the wrapping key and nothing else.
   */
  lemma RewrapDecides(kms: Kms, v: Stored)
    ensures RewrapEnvelope(kms, v).AlreadyCurrent? <==> SeenCurrent(kms, v)
    ensures RewrapEnvelope(kms, v).Moved? <==> Opens(kms, v) && !SeenCurrent(kms, v)
    ensures RewrapEnvelope(kms, v).BadToken? <==>
            (v.Envelope? && v.backend == kms.backend && Accepts(kms, v.wrapped.under) && v.wrapped.dek != v.body.dek
             && !SeenCurrent(kms, v))
    ensures RewrapEnvelope(kms, v).Unopenable? <==>
            (v.Legacy? || v.backend != kms.backend || !Accepts(kms, v.wrapped.under))
    ensures RewrapEnvelope(kms, v).Moved? ==>
            RewrapEnvelope(kms, v).value == Envelope(v.backend, Wrapped(kms.current, v.wrapped.dek), v.body)
  {
  }

  /** A moved credential opens to what it did before, now also with no previous keys configured. */
  lemma MovedKeepsPlaintext(kms: Kms, v: Stored)
    requires RewrapEnvelope(kms, v).Moved?
    ensures var v' := RewrapEnvelope(kms, v).value;
            && Decrypt(kms, v).Some? && Decrypt(kms, v') == Decrypt(kms, v)
            && Decrypt(kms.(previous := []), v') == Decrypt(kms, v)
            && (kms.backend.LocalKms? ==> RewrapEnvelope(kms, v').AlreadyCurrent?)
  {
  }

  // ----- check -----------------------------------------------------------------------------------

  datatype Class = NotEncrypted | Unreadable | OnCurrentKey | OnPreviousKey

  function Classify(kms: Kms, v: Stored): Class {
    if v.Legacy? then NotEncrypted
    else if Decrypt(kms, v).None? then Unreadable
    else if RewrapEnvelope(kms, v).AlreadyCurrent? then OnCurrentKey
    else OnPreviousKey
  }

  datatype Row = Row(id: SourceId, value: Stored)

  function Count(kms: Kms, rows: seq<Row>, c: Class): nat {
    if rows == [] then 0
    else Count(kms, rows[..|rows| - 1], c) + if Classify(kms, rows[|rows| - 1].value) == c then 1 else 0
  }

  /** The data sources that cannot be opened, in row order. */
  function Closed(kms: Kms, rows: seq<Row>): seq<SourceId> {
    if rows == [] then [] else
    var last := rows[|rows| - 1];
    Closed(kms, rows[..|rows| - 1]) + if Decrypt(kms, last.value).None? then [last.id] else []
  }

  datatype Report = Report(stored: nat, currentKey: nat, previousKey: nat, unreadable: nat, notEncrypted: nat,
                           unreadableIds: seq<SourceId>)

  /** Each class counted, and the four classes add up to the rows stored. */
  ghost predicate Tallies(kms: Kms, rows: seq<Row>, r: Report) {
    && r.stored == |rows|
    && r.currentKey == Count(kms, rows, OnCurrentKey) && r.previousKey == Count(kms, rows, OnPreviousKey)
    && r.unreadable == Count(kms, rows, Unreadable) && r.notEncrypted == Count(kms, rows, NotEncrypted)
    && r.currentKey + r.previousKey + r.unreadable + r.notEncrypted == r.stored
    && r.unreadableIds == Closed(kms, rows) && |r.unreadableIds| == r.unreadable + r.notEncrypted
  }

  /** One more row in its class. */
  function Bump(r: Report, id: SourceId, c: Class): Report {
    var more := r.(stored := r.stored + 1);
    match c
    case OnCurrentKey => more.(currentKey := r.currentKey + 1)
    case OnPreviousKey => more.(previousKey := r.previousKey + 1)
    case Unreadable => more.(unreadable := r.unreadable + 1, unreadableIds := r.unreadableIds + [id])
    case NotEncrypted => more.(notEncrypted := r.notEncrypted + 1, unreadableIds := r.unreadableIds + [id])
  }

  lemma TalliesNext(kms: Kms, rows: seq<Row>, i: nat, r: Report)
    requires i < |rows| && Tallies(kms, rows[..i], r)
    ensures Tallies(kms, rows[..i + 1], Bump(r, rows[i].id, Classify(kms, rows[i].value)))
  {
    assert rows[..i + 1][..i] == rows[..i];
  }

  function Positions(rows: seq<Row>, p: Stored -> bool): set<nat> {
    set i | 0 <= i < |rows| && p(rows[i].value)
  }

  /** Not an envelope at all. */
  function PlainText(): Stored -> bool {
    (v: Stored) => v.Legacy?
  }

  function Sealed(kms: Kms): Stored -> bool {
    (v: Stored) => v.Envelope? && !Opens(kms, v)
  }

  function OpenOnCurrent(kms: Kms): Stored -> bool {
    (v: Stored) => Opens(kms, v) && kms.backend.LocalKms? && v.wrapped.under == kms.current
  }

  function OpenOtherwise(kms: Kms): Stored -> bool {
    (v: Stored) => Opens(kms, v) && !(kms.backend.LocalKms? && v.wrapped.under == kms.current)
  }

  lemma PositionsNext(rows: seq<Row>, p: Stored -> bool)
    requires rows != []
    ensures var n := |rows| - 1;
            |Positions(rows, p)| == |Positions(rows[..n], p)| + if p(rows[n].value) then 1 else 0
  {
    var n := |rows| - 1;
    var before := Positions(rows[..n], p);
    assert Positions(rows, p) == if p(rows[n].value) then before + {n} else before;
  }

  lemma {:induction false} CountIsPositions(kms: Kms, rows: seq<Row>, c: Class, p: Stored -> bool)
    requires forall v: Stored :: Classify(kms, v) == c <==> p(v)
    ensures Count(kms, rows, c) == |Positions(rows, p)|
  {
    if rows == [] {
      assert Positions(rows, p) == {};
    } else {
      CountIsPositions(kms, rows[..|rows| - 1], c, p);
      PositionsNext(rows, p);
    }
  }

  /** `at` are the places of the rows that do not open, in row order. */
  ghost predicate ClosedAt(kms: Kms, rows: seq<Row>, at: seq<nat>) {
    && (forall j, k :: 0 <= j < k < |at| ==> at[j] < at[k])
    && (forall k :: 0 <= k < |at| ==> at[k] < |rows|)
    && (forall i :: 0 <= i < |rows| ==> (i in at <==> !Opens(kms, rows[i].value)))
  }

  ghost predicate NamedAt(rows: seq<Row>, at: seq<nat>, ids: seq<SourceId>) {
    |at| == |ids| && forall k :: 0 <= k < |at| ==> at[k] < |rows| && ids[k] == rows[at[k]].id
  }

  /** The ids of the rows that do not open, in row order. */
  ghost predicate IdsOfClosed(kms: Kms, rows: seq<Row>, ids: seq<SourceId>) {
    exists at :: ClosedAt(kms, rows, at) && NamedAt(rows, at, ids)
  }

  lemma ClosedAtNext(kms: Kms, rows: seq<Row>, at: seq<nat>)
    requires rows != [] && ClosedAt(kms, rows[..|rows| - 1], at)
    ensures ClosedAt(kms, rows, if Opens(kms, rows[|rows| - 1].value) then at else at + [|rows| - 1])
  {
    var n := |rows| - 1;
    forall i | 0 <= i < n ensures i in at <==> !Opens(kms, rows[i].value) {
      assert rows[..n][i] == rows[i];
    }
    assert n !in at;
  }

  lemma NamedAtNext(rows: seq<Row>, at: seq<nat>, ids: seq<SourceId>)
    requires rows != [] && NamedAt(rows[..|rows| - 1], at, ids)
    ensures NamedAt(rows, at, ids) && NamedAt(rows, at + [|rows| - 1], ids + [rows[|rows| - 1].id])
  {
    var n := |rows| - 1;
    forall k | 0 <= k < |at| ensures at[k] < |rows| && ids[k] == rows[at[k]].id {
      assert rows[..n][at[k]] == rows[at[k]];
    }
  }

  lemma {:induction false} ClosedPlaces(kms: Kms, rows: seq<Row>) returns (at: seq<nat>)
    ensures ClosedAt(kms, rows, at) && NamedAt(rows, at, Closed(kms, rows))
  {
    if rows == [] {
      at := [];
    } else {
      var last := rows[|rows| - 1].value;
      at := ClosedPlaces(kms, rows[..|rows| - 1]);
      ClosedAtNext(kms, rows, at);
      NamedAtNext(rows, at, Closed(kms, rows[..|rows| - 1]));
      DecryptOpens(kms, last);
      if !Opens(kms, last) {
        at := at + [|rows| - 1];
      }
    }
  }

  /** The report, said of the stored values alone. */
  ghost predicate Reports(kms: Kms, rows: seq<Row>, r: Report) {
    && r.stored == |rows|
    && r.notEncrypted == |Positions(rows, PlainText())|
    && r.unreadable == |Positions(rows, Sealed(kms))|
    && r.currentKey == |Positions(rows, OpenOnCurrent(kms))|
    && r.previousKey == |Positions(rows, OpenOtherwise(kms))|
    && IdsOfClosed(kms, rows, r.unreadableIds)
  }

  lemma TalliesReport(kms: Kms, rows: seq<Row>, r: Report)
    requires Tallies(kms, rows, r)
    ensures Reports(kms, rows, r)
  {
    CountIsPositions(kms, rows, NotEncrypted, PlainText());
    CountIsPositions(kms, rows, Unreadable, Sealed(kms));
    CountIsPositions(kms, rows, OnCurrentKey, OpenOnCurrent(kms));
    CountIsPositions(kms, rows, OnPreviousKey, OpenOtherwise(kms));
    var at := ClosedPlaces(kms, rows);
  }

  /** `check`. */
  method Check(rows: seq<Row>, kms: Kms) returns (r: Report)
    ensures Reports(kms, rows, r)
    ensures r.currentKey + r.previousKey + r.unreadable + r.notEncrypted == r.stored
    ensures |r.unreadableIds| == r.unreadable + r.notEncrypted
  {
    r := Report(0, 0, 0, 0, 0, []);
    for i := 0 to |rows|
      invariant Tallies(kms, rows[..i], r)
    {
      var value := rows[i].value;
      TalliesNext(kms, rows, i, r);
      r := r.(stored := r.stored + 1);
      if value.Legacy? {
        r := r.(notEncrypted := r.notEncrypted + 1, unreadableIds := r.unreadableIds + [rows[i].id]);
      } else if Decrypt(kms, value).None? {
        r := r.(unreadable := r.unreadable + 1, unreadableIds := r.unreadableIds + [rows[i].id]);
      } else {
        match RewrapEnvelope(kms, value)
        case AlreadyCurrent => r := r.(currentKey := r.currentKey + 1);
        case Moved(_) => r := r.(previousKey := r.previousKey + 1);
        case _ => assert false;
      }
    }
    assert rows[..|rows|] == rows;
    TalliesReport(kms, rows, r);
  }

  /**
   The gate before the previous keys are removed: with the local backend, a check that counts every
   credential on the current key means exactly that all of them open without the previous keys.
   */
  lemma AllCurrentExactlyWhenPreviousKeysAreUseless(kms: Kms, rows: seq<Row>, report: Report)
    requires kms.backend.LocalKms? && Reports(kms, rows, report)
    ensures report.currentKey == report.stored
       <==> (forall r :: r in rows ==> Decrypt(kms.(previous := []), r.value).Some?)
  {
    AllPositions(rows, OpenOnCurrent(kms));
    forall r | r in rows ensures OpenOnCurrent(kms)(r.value) <==> Decrypt(kms.(previous := []), r.value).Some? {
      DecryptOpens(kms.(previous := []), r.value);
    }
  }

  lemma EveryPosition(rows: seq<Row>, p: Stored -> bool)
    requires forall r :: r in rows ==> p(r.value)
    ensures |Positions(rows, p)| == |rows|
  {
    assert Positions(rows, p) == Upto(|rows|);
  }

  lemma AllPositions(rows: seq<Row>, p: Stored -> bool)
    ensures |Positions(rows, p)| == |rows| <==> forall r :: r in rows ==> p(r.value)
  {
    var every := Upto(|rows|);
    if |Positions(rows, p)| == |rows| {
      SubsetOfSameSize(Positions(rows, p), every);
      forall r | r in rows ensures p(r.value) {
        var i :| 0 <= i < |rows| && rows[i] == r;
        assert i in every;
      }
    }
    if forall r :: r in rows ==> p(r.value) {
      EveryPosition(rows, p);
    }
  }

  function Upto(n: nat): (r: set<nat>)
    ensures |r| == n && forall i :: i in r <==> 0 <= i < n
  {
    if n == 0 then {} else Upto(n - 1) + {n - 1}
  }

  lemma SubsetOfSameSize(a: set<nat>, b: set<nat>)
    requires a <= b && |a| == |b|
    ensures a == b
  {
    assert |b - a| == |b| - |a|;
  }

  /** Under AWS KMS no row is ever counted as on the current key, so there a check can never show that. */
  lemma AwsCountsNoneCurrent(kms: Kms, rows: seq<Row>, report: Report)
    requires kms.backend.AwsKms? && Reports(kms, rows, report)
    ensures report.currentKey == 0
  {
    assert Positions(rows, OpenOnCurrent(kms)) == {};
  }

  // ----- rewrap ----------------------------------------------------------------------------------

  predicate Rewrappable(kms: Kms, v: Stored) {
    RewrapEnvelope(kms, v).AlreadyCurrent? || RewrapEnvelope(kms, v).Moved?
  }

  function Rewrapped(kms: Kms, v: Stored): Stored {
    match RewrapEnvelope(kms, v)
    case Moved(v') => v'
    case _ => v
  }

  function RewrapAll(kms: Kms, table: map<SourceId, Stored>): map<SourceId, Stored> {
    map id | id in table :: Rewrapped(kms, table[id])
  }

  function MovedIds(kms: Kms, table: map<SourceId, Stored>): set<SourceId> {
    set id | id in table && RewrapEnvelope(kms, table[id]).Moved?
  }

  datatype RewrapOutcome = Finished(stored: nat, rewrapped: nat) | Stopped(id: SourceId) | Raised(id: SourceId)

  class DataSources {
    var table: map<SourceId, Stored>

    constructor (table: map<SourceId, Stored>)
      ensures this.table == table
    {
      this.table := table;
    }

    /**
     `rewrap`, with the rows in the order the query returns them. It finishes exactly when no row raises,
     and then every stale row has moved; otherwise nothing has changed: Stopped rolls back, and an
     uncaught InvalidToken loses the transaction with the connection.
     */
    method Rewrap(kms: Kms, rows: seq<SourceId>) returns (outcome: RewrapOutcome)
      requires Distinct(rows) && forall id :: id in rows <==> id in table
      modifies this
      ensures outcome.Finished? <==> forall id :: id in old(table) ==> Rewrappable(kms, old(table)[id])
      ensures table == if outcome.Finished? then RewrapAll(kms, old(table)) else old(table)
      ensures outcome.Finished? ==> outcome.stored == |rows| && outcome.rewrapped == |MovedIds(kms, old(table))|
      ensures outcome.Stopped? ==> outcome.id in old(table) && RewrapEnvelope(kms, old(table)[outcome.id]).Unopenable?
      ensures outcome.Raised? ==> outcome.id in old(table) && RewrapEnvelope(kms, old(table)[outcome.id]).BadToken?
      ensures !outcome.Finished? ==> FirstToRaise(kms, old(table), rows, outcome.id)
    {
      var working := table;
      var moved := 0;
      for i := 0 to |rows|
        invariant table == old(table) && Progress(kms, table, working, rows[..i], moved)
      {
        var id := rows[i];
        assert rows[..i + 1] == rows[..i] + [id] && id !in rows[..i];
        match RewrapEnvelope(kms, working[id]) {
          case Unopenable =>
            ProgressStops(kms, table, working, rows, i, moved);
            return Stopped(id);
          case BadToken =>
            ProgressStops(kms, table, working, rows, i, moved);
            return Raised(id);
          case AlreadyCurrent =>
            ProgressStep(kms, table, working, rows[..i], moved, id);
          case Moved(v) =>
            ProgressStep(kms, table, working, rows[..i], moved, id);
            working := working[id := v];
            moved := moved + 1;
        }
      }
      assert rows[..|rows|] == rows;
      ProgressEnds(kms, table, working, rows, moved);
      table := working;
      return Finished(|rows|, moved);
    }
  }

  /** All rows before this one could be rewrapped. */
  ghost predicate FirstToRaise(kms: Kms, table: map<SourceId, Stored>, rows: seq<SourceId>, id: SourceId) {
    exists i :: 0 <= i < |rows| && rows[i] == id
                && forall j :: 0 <= j < i ==> rows[j] in table && Rewrappable(kms, table[rows[j]])
  }

  function MovedAmong(kms: Kms, table: map<SourceId, Stored>, done: seq<SourceId>): set<SourceId> {
    set id | id in done && id in table && RewrapEnvelope(kms, table[id]).Moved?
  }

  /** The rows done so far are rewrapped in the transaction, the others as they were. */
  ghost predicate Progress(kms: Kms, table: map<SourceId, Stored>, working: map<SourceId, Stored>,
                           done: seq<SourceId>, moved: nat) {
    && working.Keys == table.Keys && moved == |MovedAmong(kms, table, done)|
    && (forall id :: id in done ==> id in table && Rewrappable(kms, table[id]))
    && (forall id :: id in table ==> working[id] == if id in done then Rewrapped(kms, table[id]) else table[id])
  }

  lemma ProgressStops(kms: Kms, table: map<SourceId, Stored>, working: map<SourceId, Stored>, rows: seq<SourceId>,
                      i: nat, moved: nat)
    requires i < |rows| && Progress(kms, table, working, rows[..i], moved)
    ensures FirstToRaise(kms, table, rows, rows[i])
  {
    forall j | 0 <= j < i ensures rows[j] in table && Rewrappable(kms, table[rows[j]]) {
      assert rows[..i][j] in rows[..i];
    }
  }

  lemma ProgressEnds(kms: Kms, table: map<SourceId, Stored>, working: map<SourceId, Stored>, rows: seq<SourceId>,
                     moved: nat)
    requires Progress(kms, table, working, rows, moved) && forall id :: id in table ==> id in rows
    ensures working == RewrapAll(kms, table) && moved == |MovedIds(kms, table)|
    ensures forall id :: id in table ==> Rewrappable(kms, table[id])
  {
    assert MovedIds(kms, table) == MovedAmong(kms, table, rows);
  }

  lemma MovedOneMore(kms: Kms, table: map<SourceId, Stored>, done: seq<SourceId>, id: SourceId)
    requires id in table && id !in done
    ensures |MovedAmong(kms, table, done + [id])|
            == |MovedAmong(kms, table, done)| + if RewrapEnvelope(kms, table[id]).Moved? then 1 else 0
  {
    var before, after := MovedAmong(kms, table, done), MovedAmong(kms, table, done + [id]);
    assert after == if RewrapEnvelope(kms, table[id]).Moved? then before + {id} else before;
  }

  lemma ProgressStep(kms: Kms, table: map<SourceId, Stored>, working: map<SourceId, Stored>, done: seq<SourceId>,
                     moved: nat, id: SourceId)
    requires Progress(kms, table, working, done, moved) && id in table && id !in done && Rewrappable(kms, table[id])
    ensures Progress(kms, table, working[id := Rewrapped(kms, table[id])], done + [id],
                     moved + if RewrapEnvelope(kms, table[id]).Moved? then 1 else 0)
  {
    MovedOneMore(kms, table, done, id);
  }

  /**
   A second rewrap under the same keys succeeds, and every credential still opens to the same plaintext.
   With the local backend it changes nothing. It moves nothing exactly when the backend is the local one or
   nothing is stored: under AWS KMS every credential is wrapped anew each time.
   */
  lemma SecondRewrapMovesNothingExactlyWhenLocal(kms: Kms, table: map<SourceId, Stored>)
    requires forall id :: id in table ==> Rewrappable(kms, table[id])
    ensures var once := RewrapAll(kms, table);
            && (forall id :: id in once ==> Rewrappable(kms, once[id]))
            && (forall id :: id in once ==> Decrypt(kms, RewrapAll(kms, once)[id]) == Decrypt(kms, once[id]))
            && (kms.backend.LocalKms? ==> RewrapAll(kms, once) == once)
            && (MovedIds(kms, once) == {} <==> kms.backend.LocalKms? || table == map[])
  {
    var once := RewrapAll(kms, table);
    if kms.backend.AwsKms? && table != map[] {
      var id :| id in table;
      assert id in MovedIds(kms, once);
    }
  }

  /** One AWS KMS row that a second rewrap moves again. */
  lemma SecondRewrapMayMove()
    ensures var kms := Kms(AwsKms, 1, []);
            var table := map["shop" := Encrypt(kms, "secret", 7)];
            && (forall id :: id in table ==> Rewrappable(kms, table[id]))
            && MovedIds(kms, RewrapAll(kms, table)) == {"shop"}
  {
    var kms := Kms(AwsKms, 1, []);
    var table := map["shop" := Encrypt(kms, "secret", 7)];
    assert RewrapEnvelope(kms, table["shop"]).Moved?;
  }

  /**
   An unreadable credential stops the rewrap, except one: wrapped under the current key already, with a
   body its data key does not open. `check` counts that one as unreadable; `rewrap` leaves it and goes on.
   */
  lemma UnreadableStopsExactlyUnlessCurrent(kms: Kms, v: Stored)
    requires Decrypt(kms, v).None?
    ensures Rewrappable(kms, v) <==> SeenCurrent(kms, v)
  {
  }

  /** One such credential: its body was encrypted under another data key. */
  lemma UnreadableMayPass()
    ensures var kms := Kms(LocalKms, 1, []);
            var v := Envelope(LocalKms, Wrapped(1, 7), Body(8, "secret"));
            Decrypt(kms, v) == None && RewrapEnvelope(kms, v) == AlreadyCurrent
  {
  }

  // ----- Rotation --------------------------------------------------------------------------------

  type Component = nat

  /**
   Rotating from `oldKey` to `newKey` while every component keeps saving. `truth` is the plaintext last saved of
   each source; `locked` the rows a running rewrap has selected FOR UPDATE; `finished` that a rewrap of
   this rotation has committed.
   */
  datatype Rotation = Rotation(rows: map<SourceId, Stored>, truth: map<SourceId, string>, deployed: map<Component, Kms>,
                               oldKey: Key, newKey: Key, locked: Option<set<SourceId>>, finished: bool)

  datatype Action =
    | Save(c: Component, id: SourceId, plaintext: string, dek: DataKey)
    | Switch(c: Component)
    | BeginRewrap
    | CommitRewrap
    | AbortRewrap
    | RemovePrevious(c: Component)
    | StartOver(next: Key)

  function Before(s: Rotation): Kms { Kms(LocalKms, s.oldKey, []) }

  function During(s: Rotation): Kms { Kms(LocalKms, s.newKey, [s.oldKey]) }

  function Afterwards(s: Rotation): Kms { Kms(LocalKms, s.newKey, []) }

  predicate AllSwitched(s: Rotation) {
    forall c :: c in s.deployed ==> s.deployed[c] != Before(s)
  }

  /**
   The documented order: rewrap after every writer is switched, remove the old key after a rewrap, one
   rotation at a time.
   */
  predicate Documented(s: Rotation, a: Action) {
    match a
    case BeginRewrap => AllSwitched(s) && s.locked.None?
    case CommitRewrap => s.locked.Some?
    case RemovePrevious(c) => s.finished
    case StartOver(next) =>
      && s.finished && s.locked.None? && next != s.newKey
      && forall c :: c in s.deployed ==> s.deployed[c] == Afterwards(s)
    case _ => true
  }

  /** One step; a save of a locked row waits, and a component that is not there or not ready does nothing. */
  function Next(s: Rotation, a: Action): Rotation {
    match a
    case Save(c, id, plaintext, dek) =>
      if c !in s.deployed || (s.locked.Some? && id in s.locked.value) then s
      else s.(rows := s.rows[id := Encrypt(s.deployed[c], plaintext, dek)], truth := s.truth[id := plaintext])
    case Switch(c) =>
      if c in s.deployed && s.deployed[c] == Before(s) then s.(deployed := s.deployed[c := During(s)]) else s
    case BeginRewrap => s.(locked := Some(s.rows.Keys))
    case CommitRewrap =>
      if s.locked.None? then s
      else s.(rows := map id | id in s.rows ::
                        if id in s.locked.value then Rewrapped(During(s), s.rows[id]) else s.rows[id],
              locked := None, finished := true)
    case AbortRewrap => s.(locked := None)
    case RemovePrevious(c) =>
      if c in s.deployed && s.deployed[c] == During(s) then s.(deployed := s.deployed[c := Afterwards(s)]) else s
    case StartOver(next) => s.(oldKey := s.newKey, newKey := next, finished := false)
  }

  function Steps(s: Rotation, actions: seq<Action>): Rotation
    decreases |actions|
  {
    if actions == [] then s else Steps(Next(s, actions[0]), actions[1..])
  }

  ghost predicate AllDocumented(s: Rotation, actions: seq<Action>)
    decreases |actions|
  {
    actions != [] ==> Documented(s, actions[0]) && AllDocumented(Next(s, actions[0]), actions[1..])
  }

  /** The stored value holds exactly this plaintext, under the old or the new key. */
  predicate Intact(s: Rotation, id: SourceId) {
    && id in s.rows && id in s.truth && s.rows[id].Envelope? && s.rows[id].backend == LocalKms
    && s.rows[id].wrapped.under in {s.oldKey, s.newKey}
    && s.rows[id].body == Body(s.rows[id].wrapped.dek, s.truth[id])
  }

  predicate OnNewKey(s: Rotation, id: SourceId) {
    id in s.rows && s.rows[id].Envelope? && s.rows[id].wrapped.under == s.newKey
  }

  ghost predicate RowsOk(s: Rotation) {
    && s.rows.Keys == s.truth.Keys
    && (forall id :: id in s.rows ==> Intact(s, id))
    && (s.locked.Some? ==> forall id :: id in s.rows && id !in s.locked.value ==> OnNewKey(s, id))
    && (s.finished ==> forall id :: id in s.rows ==> OnNewKey(s, id))
  }

  ghost predicate DeployedOk(s: Rotation) {
    && s.oldKey != s.newKey
    && (forall c :: c in s.deployed ==> s.deployed[c] in {Before(s), During(s), Afterwards(s)})
    && (s.locked.Some? || s.finished ==> AllSwitched(s))
    && (!s.finished ==> forall c :: c in s.deployed ==> s.deployed[c] != Afterwards(s))
  }

  ghost predicate Inv(s: Rotation) {
    RowsOk(s) && DeployedOk(s)
  }

  /** Before a rotation: every component and every row on the old key. */
  ghost predicate Initial(s: Rotation) {
    && s.oldKey != s.newKey && s.rows.Keys == s.truth.Keys && s.locked.None? && !s.finished
    && (forall id :: id in s.rows ==> Intact(s, id) && s.rows[id].wrapped.under == s.oldKey)
    && (forall c :: c in s.deployed ==> s.deployed[c] == Before(s))
  }

  lemma SaveKeepsInv(s: Rotation, a: Action)
    requires Inv(s) && a.Save?
    ensures Inv(Next(s, a))
  {
    var s' := Next(s, a);
    forall id | id in s'.rows ensures Intact(s', id) && (OnNewKey(s, id) && id != a.id ==> OnNewKey(s', id)) {
      assert id in s.rows ==> Intact(s, id);
    }
  }

  lemma CommitKeepsInv(s: Rotation)
    requires Inv(s) && s.locked.Some?
    ensures Inv(Next(s, CommitRewrap))
  {
    var s' := Next(s, CommitRewrap);
    forall id | id in s'.rows ensures Intact(s', id) && OnNewKey(s', id) {
      assert Intact(s, id);
    }
  }

  lemma StepKeepsInv(s: Rotation, a: Action)
    requires Inv(s) && Documented(s, a)
    ensures Inv(Next(s, a))
  {
    var s' := Next(s, a);
    if a.Save? {
      SaveKeepsInv(s, a);
    } else if a.CommitRewrap? {
      CommitKeepsInv(s);
    } else {
      forall id | id in s'.rows ensures Intact(s', id) {
        assert Intact(s, id);
      }
    }
  }

  lemma {:induction false} StepsKeepInv(s: Rotation, actions: seq<Action>)
    requires Inv(s) && AllDocumented(s, actions)
    ensures Inv(Steps(s, actions))
    decreases |actions|
  {
    if actions != [] {
      StepKeepsInv(s, actions[0]);
      StepsKeepInv(Next(s, actions[0]), actions[1..]);
    }
  }

  /**
   Along any number of documented rotations, with saves by every component at every moment: each stored
   credential opens to the plaintext last saved under the keys of every component that has switched,
   including those the old key was removed from; under an unswitched one exactly when it is still on the
   old key.
   */
  lemma EveryCredentialOpens(s0: Rotation, actions: seq<Action>, c: Component, id: SourceId)
    requires Initial(s0) && AllDocumented(s0, actions)
    requires c in Steps(s0, actions).deployed && id in Steps(s0, actions).rows
    ensures var s := Steps(s0, actions);
            && id in s.truth
            && (s.deployed[c] != Before(s) ==> Decrypt(s.deployed[c], s.rows[id]) == Some(s.truth[id]))
            && (s.deployed[c] == Before(s) ==>
                  (Decrypt(s.deployed[c], s.rows[id]) == Some(s.truth[id]) <==> !OnNewKey(s, id)))
  {
    StepsKeepInv(s0, actions);
    assert Intact(Steps(s0, actions), id);
  }

  /** In any state of a rotation a rewrap finishes, so no documented rotation gets stuck. */
  lemma RewrapAlwaysFinishes(s0: Rotation, actions: seq<Action>, id: SourceId)
    requires Initial(s0) && AllDocumented(s0, actions) && id in Steps(s0, actions).rows
    ensures var s := Steps(s0, actions); Rewrappable(During(s), s.rows[id])
  {
    StepsKeepInv(s0, actions);
    assert Intact(Steps(s0, actions), id);
  }

  // ----- A rotation can always be completed ------------------------------------------------------

  /** Rewrapped, and the old key removed everywhere. */
  ghost predicate Complete(s: Rotation) {
    s.finished && s.locked.None? && forall c :: c in s.deployed ==> s.deployed[c] == Afterwards(s)
  }

  /** Keys, components and plaintexts are the same; so is what matters of the rewrap. */
  ghost predicate SameRotation(s: Rotation, s': Rotation) {
    s'.oldKey == s.oldKey && s'.newKey == s.newKey && s'.truth == s.truth && s'.deployed.Keys == s.deployed.Keys
  }

  lemma Continue(s: Rotation, a: Action, rest: seq<Action>)
    requires Documented(s, a) && AllDocumented(Next(s, a), rest)
    ensures AllDocumented(s, [a] + rest) && Steps(s, [a] + rest) == Steps(Next(s, a), rest)
  {
    assert ([a] + rest)[1..] == rest;
  }

  lemma {:induction false} Then(s: Rotation, a: seq<Action>, b: seq<Action>)
    requires AllDocumented(s, a) && AllDocumented(Steps(s, a), b)
    ensures AllDocumented(s, a + b) && Steps(s, a + b) == Steps(Steps(s, a), b)
    decreases |a|
  {
    if a == [] {
      assert a + b == b;
    } else {
      Then(Next(s, a[0]), a[1..], b);
      Continue(s, a[0], a[1..] + b);
      assert a + b == [a[0]] + (a[1..] + b);
    }
  }

  lemma SwitchOne(s: Rotation, c: Component, todo: set<Component>)
    requires Inv(s) && s.locked.None? && c in todo && todo <= s.deployed.Keys
    requires forall d :: d in s.deployed && d !in todo ==> s.deployed[d] != Before(s)
    ensures var s' := Next(s, Switch(c));
            && Documented(s, Switch(c)) && Inv(s') && s'.locked.None? && SameRotation(s, s')
            && forall d :: d in s'.deployed && d !in todo - {c} ==> s'.deployed[d] != Before(s')
  {
    StepKeepsInv(s, Switch(c));
  }

  lemma RemoveOne(s: Rotation, c: Component, todo: set<Component>)
    requires Inv(s) && s.finished && s.locked.None? && c in todo && todo <= s.deployed.Keys
    requires forall d :: d in s.deployed && d !in todo ==> s.deployed[d] == Afterwards(s)
    ensures var s' := Next(s, RemovePrevious(c));
            && Documented(s, RemovePrevious(c)) && Inv(s') && s'.finished && s'.locked.None? && SameRotation(s, s')
            && forall d :: d in s'.deployed && d !in todo - {c} ==> s'.deployed[d] == Afterwards(s')
  {
    StepKeepsInv(s, RemovePrevious(c));
  }

  /** Each of the components not switched yet is switched. */
  lemma {:induction false} SwitchAll(s: Rotation, todo: set<Component>) returns (actions: seq<Action>)
    requires Inv(s) && s.locked.None? && todo <= s.deployed.Keys
    requires forall c :: c in s.deployed && c !in todo ==> s.deployed[c] != Before(s)
    ensures AllDocumented(s, actions) && AllSwitched(Steps(s, actions)) && Inv(Steps(s, actions))
    ensures SameRotation(s, Steps(s, actions)) && Steps(s, actions).locked.None?
    decreases |todo|
  {
    actions := [];
    if todo != {} {
      var c :| c in todo;
      SwitchOne(s, c, todo);
      var rest := SwitchAll(Next(s, Switch(c)), todo - {c});
      Continue(s, Switch(c), rest);
      actions := [Switch(c)] + rest;
    }
  }

  /** The old key is removed from each component that still accepts it. */
  lemma {:induction false} RemoveAll(s: Rotation, todo: set<Component>) returns (actions: seq<Action>)
    requires Inv(s) && s.finished && s.locked.None? && todo <= s.deployed.Keys
    requires forall c :: c in s.deployed && c !in todo ==> s.deployed[c] == Afterwards(s)
    ensures AllDocumented(s, actions) && Complete(Steps(s, actions)) && SameRotation(s, Steps(s, actions))
    decreases |todo|
  {
    actions := [];
    if todo != {} {
      var c :| c in todo;
      RemoveOne(s, c, todo);
      var rest := RemoveAll(Next(s, RemovePrevious(c)), todo - {c});
      Continue(s, RemovePrevious(c), rest);
      actions := [RemovePrevious(c)] + rest;
    }
  }

  lemma RewrapOnce(s: Rotation)
    requires Inv(s) && s.locked.None? && AllSwitched(s)
    ensures var actions := [BeginRewrap, CommitRewrap];
            && AllDocumented(s, actions) && Inv(Steps(s, actions)) && SameRotation(s, Steps(s, actions))
            && Steps(s, actions).finished && Steps(s, actions).locked.None?
  {
    var s1 := Next(s, BeginRewrap);
    StepKeepsInv(s, BeginRewrap);
    StepKeepsInv(s1, CommitRewrap);
    Continue(s1, CommitRewrap, []);
    Continue(s, BeginRewrap, [CommitRewrap]);
    assert [BeginRewrap] + [CommitRewrap] == [BeginRewrap, CommitRewrap] && [CommitRewrap] + [] == [CommitRewrap];
  }

  /**
   However far a documented rotation has come, it can be brought to its end: some documented steps lead to the
   old key removed everywhere, every credential on the new key and opening to the plaintext last saved.
   */
  lemma RotationCanComplete(s0: Rotation, actions: seq<Action>) returns (more: seq<Action>)
    requires Initial(s0) && AllDocumented(s0, actions)
    ensures var s := Steps(s0, actions);
            var end := Steps(s0, actions + more);
            && AllDocumented(s0, actions + more) && Complete(end) && SameRotation(s, end)
            && (forall id :: id in end.rows ==>
                  OnNewKey(end, id) && id in s.truth && Decrypt(Afterwards(end), end.rows[id]) == Some(s.truth[id]))
            && end.rows.Keys == s.truth.Keys
  {
    StepsKeepInv(s0, actions);
    var s := Steps(s0, actions);
    StepKeepsInv(s, AbortRewrap);
    Continue(s, AbortRewrap, []);
    var s1 := Next(s, AbortRewrap);
    var a := SwitchAll(s1, s1.deployed.Keys);
    var s2 := Steps(s1, a);
    RewrapOnce(s2);
    var s3 := Steps(s2, [BeginRewrap, CommitRewrap]);
    var b := RemoveAll(s3, s3.deployed.Keys);
    Then(s2, [BeginRewrap, CommitRewrap], b);
    Then(s1, a, [BeginRewrap, CommitRewrap] + b);
    Continue(s, AbortRewrap, a + ([BeginRewrap, CommitRewrap] + b));
    more := [AbortRewrap] + (a + ([BeginRewrap, CommitRewrap] + b));
    Then(s0, actions, more);
    EndIsOpen(s0, actions + more);
  }

  lemma EndIsOpen(s0: Rotation, actions: seq<Action>)
    requires Initial(s0) && AllDocumented(s0, actions)
    ensures var end := Steps(s0, actions);
            && end.rows.Keys == end.truth.Keys
            && (end.finished ==> forall id :: id in end.rows ==>
                  OnNewKey(end, id) && Decrypt(Afterwards(end), end.rows[id]) == Some(end.truth[id]))
  {
    StepsKeepInv(s0, actions);
    var end := Steps(s0, actions);
    forall id | id in end.rows && end.finished
      ensures OnNewKey(end, id) && Decrypt(Afterwards(end), end.rows[id]) == Some(end.truth[id])
    {
      assert Intact(end, id);
    }
  }

  /** One writer left on the old key is enough to lose what it saves once the old key is gone elsewhere. */
  lemma UnswitchedWriterLoses(s: Rotation, c: Component, id: SourceId, plaintext: string, dek: DataKey)
    requires s.oldKey != s.newKey && c in s.deployed && s.deployed[c] == Before(s) && s.locked.None?
    ensures var s' := Next(s, Save(c, id, plaintext, dek));
            && s'.truth[id] == plaintext && Decrypt(Afterwards(s'), s'.rows[id]) == None
  {
  }
}
