/**
 Starting and stopping the local services by recorded process identity.

 A ledger file names, per service, the process that was started for it. Between any two statements of a
 command the operating system goes its own way: processes exit, are reparented or change their command
 line, process ids are reused, the machine reboots, and the command itself may be killed. Here one command
 runs on its own; `ServiceCommands` interleaves any number of them.
 */
module ProcessOwnership {
  import opened Common

  type Pid = nat

  /** What psutil takes a process to be: its id and its creation time. */
  datatype Identity = Identity(pid: Pid, created: real)

  datatype Process = Process(who: Identity, exe: string, cmd: seq<string>, parent: Option<Identity>)

  /** `seen` is every process there ever was; `boot` the time of the last boot. */
  datatype Host = Host(live: map<Pid, Process>, seen: set<Identity>, boot: real)

  datatype Record = Record(pid: Pid, created: real, exe: string, cmd: seq<string>, revision: string)

  /** One item of processes.json, which keeps insertion order. */
  datatype Entry = Entry(name: string, record: Record)

  const TOLERANCE := 0.01

  function Distance(a: real, b: real): real {
    if a < b then b - a else a - b
  }

  function Who(r: Record): Identity {
    Identity(r.pid, r.created)
  }

  predicate Alive(h: Host, x: Identity) {
    x.pid in h.live && h.live[x.pid].who == x
  }

  /** `owned`: the process with the recorded id has the recorded creation time, program and command line. */
  predicate Owned(h: Host, r: Record) {
    && r.pid in h.live
    && Distance(h.live[r.pid].who.created, r.created) < TOLERANCE
    && h.live[r.pid].exe == r.exe && h.live[r.pid].cmd == r.cmd
  }

  /**
   Two processes that share an id differ in creation time by at least the tolerance; nothing alive predates
   the boot.
   */
  predicate Valid(h: Host) {
    && (forall p ::
        p in h.live ==> h.live[p].who.pid == p && h.live[p].who in h.seen && h.live[p].who.created >= h.boot)
    && (forall x, y ::
        x in h.seen && y in h.seen && x.pid == y.pid && x != y ==> Distance(x.created, y.created) >= TOLERANCE)
  }

  /** What the operating system may do meanwhile: anything, except bring a dead process back. */
  predicate Evolves(h: Host, h': Host) {
    && Valid(h') && h.seen <= h'.seen && h.boot <= h'.boot
    && (forall x :: x in h.seen && Alive(h', x) ==> Alive(h, x))
  }

  lemma EvolvesTransitive(a: Host, b: Host, c: Host)
    requires Evolves(a, b) && Evolves(b, c)
    ensures Evolves(a, c)
  {
  }

  /** An owned record's process is the recorded one, not another with the same id. */
  lemma OwnedIsRecorded(h: Host, r: Record)
    requires Valid(h) && Who(r) in h.seen && Owned(h, r)
    ensures h.live[r.pid].who == Who(r)
  {
    var x := h.live[r.pid].who;
    assert x in h.seen && x.pid == r.pid;
  }

  /** A process started by `root`, or by one of its descendants; at most `depth` generations. */
  predicate Descends(h: Host, p: Process, root: Identity, depth: nat)
    decreases depth
  {
    && p.parent.Some? && depth > 0
    && (p.parent.value == root
        || (Alive(h, p.parent.value) && Descends(h, h.live[p.parent.value.pid], root, depth - 1)))
  }

  /** psutil's `children(recursive=True)`. */
  function Descendants(h: Host, root: Identity): set<Identity> {
    set p | p in h.live && Descends(h, h.live[p], root, |h.live|) :: h.live[p].who
  }

  /** `selected` of the records: all, or those named. */
  predicate Selected(names: Option<set<string>>, name: string) {
    names.None? || name in names.value
  }

  function Kept(ledger: seq<Entry>, names: Option<set<string>>): (r: seq<Entry>)
    ensures forall e :: e in r <==> e in ledger && !Selected(names, e.name)
  {
    if ledger == [] then [] else
    (if Selected(names, ledger[0].name) then [] else [ledger[0]]) + Kept(ledger[1..], names)
  }

  /** Assigning a key of a dict: in place if it is there, at the end if not. */
  function Put(ledger: seq<Entry>, e: Entry): (r: seq<Entry>)
    ensures forall x :: x in r <==> x == e || (x in ledger && x.name != e.name)
  {
    if ledger == [] then [e]
    else if ledger[0].name == e.name then [e] + Kept(ledger[1..], Some({e.name}))
    else [ledger[0]] + Put(ledger[1..], e)
  }

  function Find(ledger: seq<Entry>, name: string): (r: Option<Record>)
    ensures r.Some? ==> Entry(name, r.value) in ledger
    ensures r.None? ==> forall e :: e in ledger ==> e.name != name
  {
    if ledger == [] then None
    else if ledger[0].name == name then Some(ledger[0].record)
    else Find(ledger[1..], name)
  }

  /** A JSON object has each name once. */
  predicate OneEach(ledger: seq<Entry>) {
    forall i, j :: 0 <= i < j < |ledger| ==> ledger[i].name != ledger[j].name
  }

  datatype StopOutcome = Stopped | Refused(name: string) | Vanished | Crashed

  datatype StartOutcome = Started | AlreadyRunning | OtherRevision | ExitedAtOnce | Cut

  /** SIGTERM, or SIGKILL. */
  datatype Signal = Signal(to: Identity, kill: bool)

  /** One call of `owned`: the host it looked at, and whether psutil could read the process there. */
  datatype Check = Check(host: Host, read: bool)

  predicate Passes(k: Check, r: Record) {
    k.read && Owned(k.host, r)
  }

  /** The recorded process is alive under another program or command line than the recorded ones. */
  predicate Changed(h: Host, r: Record) {
    Alive(h, Who(r)) && (h.live[r.pid].exe != r.exe || h.live[r.pid].cmd != r.cmd)
  }

  /** What `start_process` may answer, given the record it found and the check it made of it. */
  predicate Decided(before: Option<Record>, checked: Check, outcome: StartOutcome, revision: string) {
    match outcome
    case Started | ExitedAtOnce => before.None? || !Passes(checked, before.value)
    case AlreadyRunning => before.Some? && Passes(checked, before.value) && before.value.revision == revision
    case OtherRevision => before.Some? && Passes(checked, before.value) && before.value.revision != revision
    case Cut => true
  }

  /** How one record's turn in `stop_processes` went. */
  datatype Turn = Gone | Signalled | Refuse | Vanish | Killed

  // ----- Whom a turn signals ---------------------------------------------------------------------

  /**
   What one turn signals: the process it took the recorded id to be, and that process's descendants.
   `checked` is the host when the record was found owned, `taken` when the process was looked up again by
   its id, `listed` when its descendants were listed.
   */
  datatype Target = Target(record: Record, who: Identity, checked: Host, taken: Host, listed: Host)

  predicate CheckedOwned(record: Record, checked: Host) {
    Owned(checked, record) && Valid(checked) && Who(record) in checked.seen
  }

  predicate Taken(t: Target) {
    && CheckedOwned(t.record, t.checked)
    && Evolves(t.checked, t.taken) && Alive(t.taken, t.who) && t.who.pid == t.record.pid
  }

  predicate Sound(t: Target) {
    Taken(t) && Evolves(t.taken, t.listed) && Alive(t.listed, t.who)
  }

  function Family(t: Target): set<Identity> {
    {t.who} + Descendants(t.listed, t.who)
  }

  /** A turn is on the recorded process exactly when the process it took was there already at the ownership check. */
  lemma TargetIsRecordedExactlyWhenNotNew(t: Target)
    requires Taken(t)
    ensures t.who == Who(t.record) <==> t.who in t.checked.seen
  {
    OwnedIsRecorded(t.checked, t.record);
  }

  /** A turn that took another process took it because the recorded one was gone. */
  lemma OtherTargetMeansGone(t: Target)
    requires Taken(t) && t.who != Who(t.record)
    ensures !Alive(t.taken, Who(t.record))
  {
  }

  // ----- The ledger and the processes it has named -----------------------------------------------

  ghost predicate Listed(ledger: seq<Entry>, n: string, x: Identity) {
    exists e :: e in ledger && e.name == n && Who(e.record) == x
  }

  /** `launched` holds every (service, process) pair ever written: all of them processes that were really there. */
  ghost predicate Sane(h: Host, ledger: seq<Entry>, launched: set<(string, Identity)>) {
    && Valid(h) && OneEach(ledger)
    && (forall e :: e in ledger ==> (e.name, Who(e.record)) in launched)
    && (forall n, x :: (n, x) in launched ==> x in h.seen)
  }

  /** A process recorded for the service at some time, and still alive. */
  ghost predicate Lives(h: Host, launched: set<(string, Identity)>, n: string, x: Identity) {
    (n, x) in launched && Alive(h, x)
  }

  /** It is alive and the ledger no longer names it. */
  ghost predicate Orphan(h: Host, ledger: seq<Entry>, launched: set<(string, Identity)>, n: string, x: Identity) {
    Lives(h, launched, n, x) && !Listed(ledger, n, x)
  }

  lemma SaneEvolves(h: Host, h': Host, ledger: seq<Entry>, launched: set<(string, Identity)>)
    requires Sane(h, ledger, launched) && Evolves(h, h')
    ensures Sane(h', ledger, launched)
    ensures forall n, x :: Orphan(h', ledger, launched, n, x) <==> Orphan(h, ledger, launched, n, x) && Alive(h', x)
  {
  }

  lemma {:induction false} ListedOnce(ledger: seq<Entry>, n: string, x: Identity, y: Identity)
    requires OneEach(ledger) && Listed(ledger, n, x) && Listed(ledger, n, y)
    ensures x == y
  {
    var e :| e in ledger && e.name == n && Who(e.record) == x;
    var f :| f in ledger && f.name == n && Who(f.record) == y;
    var i :| 0 <= i < |ledger| && ledger[i] == e;
    var j :| 0 <= j < |ledger| && ledger[j] == f;
  }

  /** A service has two live recorded processes exactly when it has an orphan and another live one. */
  lemma TwoLiveExactlyWhenOrphaned(h: Host, ledger: seq<Entry>, launched: set<(string, Identity)>, n: string)
    requires Sane(h, ledger, launched)
    ensures (exists x, y :: x != y && Lives(h, launched, n, x) && Lives(h, launched, n, y))
       <==> (exists x, y :: x != y && Orphan(h, ledger, launched, n, x) && Lives(h, launched, n, y))
  {
    if x, y :| x != y && Lives(h, launched, n, x) && Lives(h, launched, n, y) {
      if Listed(ledger, n, x) && Listed(ledger, n, y) {
        ListedOnce(ledger, n, x, y);
      }
      assert Orphan(h, ledger, launched, n, x) || Orphan(h, ledger, launched, n, y);
    }
  }

  lemma {:induction false} FindUnique(ledger: seq<Entry>, name: string)
    requires OneEach(ledger)
    ensures forall e :: e in ledger && e.name == name ==> Find(ledger, name) == Some(e.record)
  {
    if ledger != [] {
      FindUnique(ledger[1..], name);
    }
  }

  lemma {:induction false} KeptOneEach(ledger: seq<Entry>, names: Option<set<string>>)
    requires OneEach(ledger)
    ensures OneEach(Kept(ledger, names))
  {
    if ledger != [] {
      KeptOneEach(ledger[1..], names);
    }
  }

  lemma {:induction false} PutOneEach(ledger: seq<Entry>, e: Entry)
    requires OneEach(ledger)
    ensures OneEach(Put(ledger, e))
  {
    if ledger != [] {
      PutOneEach(ledger[1..], e);
      KeptOneEach(ledger[1..], Some({e.name}));
    }
  }

  lemma PutSane(h: Host, ledger: seq<Entry>, launched: set<(string, Identity)>, e: Entry)
    requires Sane(h, ledger, launched) && Who(e.record) in h.seen
    ensures Sane(h, Put(ledger, e), launched + {(e.name, Who(e.record))})
  {
    PutOneEach(ledger, e);
  }

  lemma KeptSane(h: Host, ledger: seq<Entry>, launched: set<(string, Identity)>, names: Option<set<string>>)
    requires Sane(h, ledger, launched)
    ensures Sane(h, Kept(ledger, names), launched)
  {
    KeptOneEach(ledger, names);
  }

  lemma ListedByPut(ledger: seq<Entry>, e: Entry, n: string, x: Identity)
    ensures Listed(Put(ledger, e), n, x) <==>
            (n == e.name && x == Who(e.record)) || (n != e.name && Listed(ledger, n, x))
  {
    assert e in Put(ledger, e);
    if Listed(ledger, n, x) && n != e.name {
      var f :| f in ledger && f.name == n && Who(f.record) == x;
      assert f in Put(ledger, e);
    }
  }

  lemma ListedByKept(ledger: seq<Entry>, names: Option<set<string>>, n: string, x: Identity)
    ensures Listed(Kept(ledger, names), n, x) <==> Listed(ledger, n, x) && !Selected(names, n)
  {
    if Listed(ledger, n, x) && !Selected(names, n) {
      var f :| f in ledger && f.name == n && Who(f.record) == x;
      assert f in Kept(ledger, names);
    }
  }

  lemma ListedExactlyWhenFound(ledger: seq<Entry>, n: string, x: Identity)
    requires OneEach(ledger)
    ensures Listed(ledger, n, x) <==> Find(ledger, n).Some? && Who(Find(ledger, n).value) == x
  {
    FindUnique(ledger, n);
  }

  /** Recording a new process orphans exactly the process recorded before it, if that is still alive. */
  lemma PutOrphans(h: Host, ledger: seq<Entry>, launched: set<(string, Identity)>, e: Entry, n: string, x: Identity)
    requires Sane(h, ledger, launched) && forall m :: (m, Who(e.record)) !in launched
    ensures Orphan(h, Put(ledger, e), launched + {(e.name, Who(e.record))}, n, x) <==>
            Orphan(h, ledger, launched, n, x)
            || (n == e.name && Find(ledger, n).Some? && x == Who(Find(ledger, n).value) && Alive(h, x))
  {
    ListedByPut(ledger, e, n, x);
    ListedExactlyWhenFound(ledger, n, x);
    assert Find(ledger, n).Some? ==> (n, Who(Find(ledger, n).value)) in launched;
  }

  /** Dropping the selected records orphans exactly their processes that are still alive. */
  lemma KeptOrphans(h: Host, ledger: seq<Entry>, launched: set<(string, Identity)>, names: Option<set<string>>,
                    n: string, x: Identity)
    requires Sane(h, ledger, launched)
    ensures Orphan(h, Kept(ledger, names), launched, n, x) <==>
            Orphan(h, ledger, launched, n, x) || (Listed(ledger, n, x) && Selected(names, n) && Alive(h, x))
  {
    ListedByKept(ledger, names, n, x);
  }

  /**
   The process recorded before a start was alive at the check and did not pass it: it ran another program
   or command line, or could not be read.
   */
  predicate OutlivesCheck(before: Option<Record>, checked: Check, x: Identity) {
    && before.Some? && x == Who(before.value) && Alive(checked.host, x)
    && (!checked.read || Changed(checked.host, before.value))
  }

  /** Only such a process can still be alive after a check it did not pass. */
  lemma LeftAliveOutlivesCheck(before: Record, checked: Check, now: Host)
    requires Evolves(checked.host, now) && Who(before) in checked.host.seen && !Passes(checked, before)
    requires Alive(now, Who(before))
    ensures OutlivesCheck(Some(before), checked, Who(before))
  {
  }

  // ----- What the two writes promise -------------------------------------------------------------

  /**
   The write of a start: no passing process was recorded, the new one was not there at the check, its
   record is the only change, and it orphans exactly the recorded process that outlives the check.
   */
  ghost predicate StartPromise(name: string, revision: string, checked: Check, record: Record, h: Host,
                               ledger: seq<Entry>, launched: set<(string, Identity)>,
                               ledger': seq<Entry>, launched': set<(string, Identity)>)
  {
    && (Find(ledger, name).None? || !Passes(checked, Find(ledger, name).value))
    && Evolves(checked.host, h) && Who(record) in h.seen && Who(record) !in checked.host.seen
    && record.revision == revision
    && ledger' == Put(ledger, Entry(name, record)) && launched' == launched + {(name, Who(record))}
    && forall n, x :: Orphan(h, ledger', launched', n, x) <==>
         Alive(h, x) && (Orphan(h, ledger, launched, n, x) || (n == name && OutlivesCheck(Find(ledger, n), checked, x)))
  }

  /**
   The write of a stop: every selected recorded process is dead or was killed by it, the other records stay,
   and it orphans exactly the selected processes that are still alive.
   */
  ghost predicate StopPromise(names: Option<set<string>>, killed: set<Identity>, h: Host, ledger: seq<Entry>,
                              launched: set<(string, Identity)>, ledger': seq<Entry>)
  {
    && ledger' == Kept(ledger, names)
    && (forall e :: e in ledger && Selected(names, e.name) && Alive(h, Who(e.record)) ==> Who(e.record) in killed)
    && forall n, x :: Orphan(h, ledger', launched, n, x) <==>
         Orphan(h, ledger, launched, n, x) || (Listed(ledger, n, x) && Selected(names, n) && Alive(h, x))
  }

  lemma StartWriteMeetsPromise(name: string, revision: string, checked: Check, record: Record, h: Host,
                               ledger: seq<Entry>, launched: set<(string, Identity)>)
    requires Sane(h, ledger, launched) && Evolves(checked.host, h) && record.revision == revision
    requires Who(record) in h.seen && Who(record) !in checked.host.seen && forall m :: (m, Who(record)) !in launched
    requires var before := Find(ledger, name);
             before.Some? ==> !Passes(checked, before.value) && Who(before.value) in checked.host.seen
    ensures StartPromise(name, revision, checked, record, h, ledger, launched,
                         Put(ledger, Entry(name, record)), launched + {(name, Who(record))})
  {
    var e := Entry(name, record);
    forall n, x
      ensures Orphan(h, Put(ledger, e), launched + {(name, Who(record))}, n, x) <==>
              Alive(h, x)
                && (Orphan(h, ledger, launched, n, x) || (n == name && OutlivesCheck(Find(ledger, n), checked, x)))
    {
      PutOrphans(h, ledger, launched, e, n, x);
      if n == name && Find(ledger, n).Some? && x == Who(Find(ledger, n).value) && Alive(h, x) {
        LeftAliveOutlivesCheck(Find(ledger, n).value, checked, h);
      }
    }
  }

  lemma StopWriteMeetsPromise(names: Option<set<string>>, killed: set<Identity>, h: Host, ledger: seq<Entry>,
                              launched: set<(string, Identity)>)
    requires Sane(h, ledger, launched)
    requires forall e :: e in ledger && Selected(names, e.name) && Alive(h, Who(e.record)) ==> Who(e.record) in killed
    ensures StopPromise(names, killed, h, ledger, launched, Kept(ledger, names))
  {
    forall n, x
      ensures Orphan(h, Kept(ledger, names), launched, n, x) <==>
              Orphan(h, ledger, launched, n, x) || (Listed(ledger, n, x) && Selected(names, n) && Alive(h, x))
    {
      KeptOrphans(h, ledger, launched, names, n, x);
    }
  }

  /** Whom some signals kill. */
  function KilledBySignals(sent: seq<Signal>): set<Identity> {
    set s | s in sent && s.kill :: s.to
  }

  // ----- What is sent to a family ----------------------------------------------------------------

  ghost predicate AllTo(sent: seq<Signal>, to: set<Identity>, kill: bool) {
    forall s :: s in sent ==> s.to in to && s.kill == kill
  }

  ghost predicate SentOrDead(h: Host, processes: set<Identity>, kill: bool, sent: seq<Signal>) {
    forall x :: x in processes && Alive(h, x) ==> Signal(x, kill) in sent
  }

  lemma SentOrDeadGrows(h: Host, h': Host, processes: set<Identity>, kill: bool, sent: seq<Signal>,
                        sent': seq<Signal>, x: Identity)
    requires SentOrDead(h, processes, kill, sent) && Evolves(h, h') && processes <= h.seen
    requires sent' == sent + if Alive(h', x) then [Signal(x, kill)] else []
    ensures SentOrDead(h', processes + {x}, kill, sent')
  {
  }

  lemma AllToGrows(sent: seq<Signal>, one: seq<Signal>, to: set<Identity>, x: Identity, kill: bool)
    requires AllTo(sent, to, kill) && AllTo(one, {x}, kill) && x in to
    ensures AllTo(sent + one, to, kill)
  {
  }

  lemma Append<T>(a: seq<T>, b: seq<T>, c: seq<T>)
    ensures (a + b) + c == a + (b + c)
  {
  }

  lemma StillSentOrDead(h: Host, h': Host, processes: set<Identity>, kill: bool, sent: seq<Signal>)
    requires SentOrDead(h, processes, kill, sent) && Evolves(h, h') && processes <= h.seen
    ensures SentOrDead(h', processes, kill, sent)
  {
  }

  /** Those not alive after the wait stay dead. */
  lemma RestAreDead(h: Host, h': Host, all: set<Identity>, remaining: set<Identity>, sent: seq<Signal>)
    requires Evolves(h, h') && all <= h.seen && remaining == set c | c in all && Alive(h, c)
    requires SentOrDead(h', remaining, true, sent)
    ensures SentOrDead(h', all, true, sent)
  {
  }

  /** What a turn sends: to the parent, then requests to the children, then kills of children. */
  datatype Sends = Sends(first: seq<Signal>, asked: seq<Signal>, forced: seq<Signal>) {
    function All(): seq<Signal> {
      first + asked + forced
    }
  }

  const NOTHING := Sends([], [], [])

  /** The parent is asked and then perhaps killed before any child is asked; children are asked before any is killed. */
  ghost predicate FamilySends(s: Sends, parent: Identity, children: set<Identity>) {
    && (s.first == [] || s.first == [Signal(parent, false)] || s.first == [Signal(parent, false), Signal(parent, true)])
    && (s.first == [] ==> s.asked == [] && s.forced == [])
    && AllTo(s.asked, children, false) && AllTo(s.forced, children, true) && AskedFirst(s.asked, s.forced)
  }

  /** Whoever is killed was asked before. */
  ghost predicate AskedFirst(asked: seq<Signal>, forced: seq<Signal>) {
    forall s :: s in forced ==> Signal(s.to, false) in asked
  }

  lemma FamilySendsTo(s: Sends, parent: Identity, children: set<Identity>)
    requires FamilySends(s, parent, children)
    ensures forall x :: x in s.All() ==> x.to in {parent} + children
  {
    forall x | x in s.All() ensures x.to in {parent} + children {
      assert x in s.first || x in s.asked || x in s.forced;
    }
  }

  lemma ForcedWereAsked(h: Host, children: set<Identity>, remaining: set<Identity>, asked: seq<Signal>,
                        forced: seq<Signal>)
    requires SentOrDead(h, children, false, asked) && AllTo(forced, remaining, true)
    requires remaining == set c | c in children && Alive(h, c)
    ensures AskedFirst(asked, forced) && AllTo(forced, children, true)
  {
  }

  lemma HostStays(h: Host)
    requires Valid(h)
    ensures Evolves(h, h)
  {
  }

  // ----- What a stop and a start answer ----------------------------------------------------------

  /** At some moment the recorded process was plainly gone: recorded before that boot, or its id unused. */
  ghost predicate PassedOver(r: Record, from: Host, to: Host) {
    exists h :: Evolves(from, h) && Evolves(h, to) && (r.created < h.boot || r.pid !in h.live)
  }

  /** The record did not pass the check; after that it was not from before the boot, and its id was in use. */
  ghost predicate InTheWay(r: Record, from: Host, to: Host) {
    exists k: Check, booted: Host, h: Host ::
      && Evolves(from, k.host) && Evolves(k.host, booted) && Evolves(booted, h) && Evolves(h, to)
      && !Passes(k, r) && r.created >= booted.boot && r.pid in h.live
  }

  /** The record passed the check, and its process is gone. */
  ghost predicate Lost(r: Record, from: Host, to: Host) {
    exists h :: Evolves(from, h) && Evolves(h, to) && Owned(h, r) && !Alive(to, Who(r))
  }

  lemma IsPassedOver(r: Record, from: Host, h: Host)
    requires Evolves(from, h) && (r.created < h.boot || r.pid !in h.live)
    ensures PassedOver(r, from, h)
  {
    HostStays(h);
  }

  lemma IsInTheWay(r: Record, k: Check, booted: Host, h: Host)
    requires Valid(k.host) && Evolves(k.host, booted) && Evolves(booted, h)
    requires !Passes(k, r) && r.created >= booted.boot && r.pid in h.live
    ensures InTheWay(r, k.host, h)
  {
    HostStays(k.host);
    HostStays(h);
  }

  lemma IsLost(r: Record, from: Host, h: Host)
    requires Valid(from) && Evolves(from, h) && Owned(from, r) && !Alive(h, Who(r))
    ensures Lost(r, from, h)
  {
    HostStays(from);
  }

  /** When the process a turn took is gone, so is the recorded one. */
  lemma TargetLost(t: Target, h: Host)
    requires Taken(t) && Evolves(t.taken, h) && !Alive(h, t.who)
    ensures !Alive(h, Who(t.record))
  {
    if t.who != Who(t.record) {
      OtherTargetMeansGone(t);
    }
  }

  lemma LostInTurn(t: Target, from: Host, h: Host)
    requires Sound(t) && Evolves(from, t.checked) && Evolves(t.listed, h) && !Alive(h, t.who)
    ensures Lost(t.record, from, h)
  {
    EvolvesTransitive(t.taken, t.listed, h);
    EvolvesTransitive(t.checked, t.taken, h);
    TargetLost(t, h);
  }

  lemma PassedOverSinceEarlier(r: Record, start: Host, from: Host, to: Host)
    requires Evolves(start, from) && PassedOver(r, from, to)
    ensures PassedOver(r, start, to)
  {
    var h :| Evolves(from, h) && Evolves(h, to) && (r.created < h.boot || r.pid !in h.live);
    EvolvesTransitive(start, from, h);
  }

  lemma InTheWaySinceEarlier(r: Record, start: Host, from: Host, to: Host)
    requires Evolves(start, from) && InTheWay(r, from, to)
    ensures InTheWay(r, start, to)
  {
    var k: Check, booted: Host, h: Host :|
      && Evolves(from, k.host) && Evolves(k.host, booted) && Evolves(booted, h) && Evolves(h, to)
      && !Passes(k, r) && r.created >= booted.boot && r.pid in h.live;
    EvolvesTransitive(start, from, k.host);
  }

  lemma LostSinceEarlier(r: Record, start: Host, from: Host, to: Host)
    requires Evolves(start, from) && Lost(r, from, to)
    ensures Lost(r, start, to)
  {
    var h :| Evolves(from, h) && Evolves(h, to) && Owned(h, r) && !Alive(to, Who(r));
    EvolvesTransitive(start, from, h);
  }

  lemma StillPassedOver(r: Record, from: Host, h: Host, to: Host)
    requires PassedOver(r, from, h) && Evolves(h, to)
    ensures PassedOver(r, from, to)
  {
    var g :| Evolves(from, g) && Evolves(g, h) && (r.created < g.boot || r.pid !in g.live);
    EvolvesTransitive(g, h, to);
  }

  /** A record a stop has seen to: it was plainly gone, or the process found under its id was asked to end. */
  ghost predicate Attended(r: Record, targets: seq<Target>, sent: seq<Signal>, from: Host, to: Host) {
    PassedOver(r, from, to) || exists t :: t in targets && t.record == r && Signal(t.who, false) in sent
  }

  ghost predicate AttendedFrom(i: nat, targets: seq<Target>, sent: seq<Signal>, ledger: seq<Entry>,
                               names: Option<set<string>>, from: Host, to: Host) {
    forall k :: i <= k < |ledger| && Selected(names, ledger[k].name) ==>
      Attended(ledger[k].record, targets, sent, from, to)
  }

  lemma StillAttended(r: Record, earlier: seq<Target>, already: seq<Signal>, targets: seq<Target>, sent: seq<Signal>,
                      from: Host, h: Host, to: Host)
    requires Attended(r, earlier, already, from, h) && Evolves(h, to) && earlier <= targets && already <= sent
    ensures Attended(r, targets, sent, from, to)
  {
    if PassedOver(r, from, h) {
      StillPassedOver(r, from, h, to);
    } else {
      var t :| t in earlier && t.record == r && Signal(t.who, false) in already;
      assert t in targets && Signal(t.who, false) in sent;
    }
  }

  lemma AttendedNext(i: nat, earlier: seq<Target>, already: seq<Signal>, targets: seq<Target>, sent: seq<Signal>,
                     ledger: seq<Entry>, names: Option<set<string>>, from: Host, h: Host, to: Host)
    requires i < |ledger| && AttendedFrom(i + 1, earlier, already, ledger, names, from, h)
    requires Evolves(h, to) && earlier <= targets && already <= sent
    requires Attended(ledger[i].record, targets, sent, from, to)
    ensures AttendedFrom(i, targets, sent, ledger, names, from, to)
  {
    forall k | i <= k < |ledger| && Selected(names, ledger[k].name)
      ensures Attended(ledger[k].record, targets, sent, from, to)
    {
      if k > i {
        StillAttended(ledger[k].record, earlier, already, targets, sent, from, h, to);
      }
    }
  }

  lemma AllAttended(targets: seq<Target>, sent: seq<Signal>, ledger: seq<Entry>, names: Option<set<string>>,
                    from: Host, to: Host)
    requires AttendedFrom(0, targets, sent, ledger, names, from, to)
    ensures forall e :: e in ledger && Selected(names, e.name) ==> Attended(e.record, targets, sent, from, to)
  {
    forall e | e in ledger && Selected(names, e.name) ensures Attended(e.record, targets, sent, from, to) {
      var k :| 0 <= k < |ledger| && ledger[k] == e;
    }
  }

  /** Everything a stop has to show for the records from i on. */
  ghost predicate SoFar(i: nat, targets: seq<Target>, sent: seq<Signal>, ledger: seq<Entry>,
                        names: Option<set<string>>, from: Host, now: Host) {
    && Handled(now, ledger, names, i, sent) && Account(targets, sent, ledger, names, from, now)
    && AttendedFrom(i, targets, sent, ledger, names, from, now)
  }

  ghost predicate AllRecorded(ledger: seq<Entry>, h: Host) {
    forall e :: e in ledger ==> Who(e.record) in h.seen
  }

  lemma RecordedAreSeen(h: Host, ledger: seq<Entry>, launched: set<(string, Identity)>)
    requires Sane(h, ledger, launched)
    ensures AllRecorded(ledger, h)
  {
    forall e | e in ledger ensures Who(e.record) in h.seen {
      assert (e.name, Who(e.record)) in launched;
    }
  }

  lemma TurnAccounted(targets: seq<Target>, sent: seq<Signal>, earlier: seq<Target>, already: seq<Signal>, t: Target,
                      sends: Sends, e: Entry, ledger: seq<Entry>, names: Option<set<string>>, start: Host,
                      before: Host, now: Host)
    requires Account(earlier, already, ledger, names, start, before) && Evolves(start, before) && Evolves(before, now)
    requires e in ledger && Selected(names, e.name) && sent == already + sends.All()
    requires targets == if sends == NOTHING then earlier else earlier + [t]
    requires sends == NOTHING
          || (Sound(t) && t.record == e.record && FamilySends(sends, t.who, Descendants(t.listed, t.who))
              && before.seen <= t.checked.seen && t.taken.seen <= now.seen)
    ensures Account(targets, sent, ledger, names, start, now)
  {
    AccountEvolves(earlier, already, ledger, names, start, before, now);
    if sends == NOTHING {
      assert sent == already;
    } else {
      FamilySendsTo(sends, t.who, Descendants(t.listed, t.who));
      AccountGrows(earlier, already, t, sends.All(), ledger, names, start, now);
    }
  }

  lemma TurnHandled(i: nat, already: seq<Signal>, sends: Sends, ledger: seq<Entry>, names: Option<set<string>>,
                    before: Host, now: Host)
    requires i < |ledger| && Handled(before, ledger, names, i + 1, already) && Evolves(before, now)
    requires AllRecorded(ledger, before)
    requires Alive(now, Who(ledger[i].record)) ==> Signal(Who(ledger[i].record), true) in sends.first
    ensures Handled(now, ledger, names, i, already + sends.All())
  {
    HandledEvolves(before, now, ledger, names, i + 1, already, sends.All());
  }

  lemma TurnAttended(i: nat, targets: seq<Target>, sent: seq<Signal>, earlier: seq<Target>, already: seq<Signal>,
                     t: Target, sends: Sends, ledger: seq<Entry>, names: Option<set<string>>, start: Host,
                     before: Host, now: Host)
    requires i < |ledger| && AttendedFrom(i + 1, earlier, already, ledger, names, start, before)
    requires Evolves(before, now) && sent == already + sends.All()
    requires targets == if sends == NOTHING then earlier else earlier + [t]
    requires PassedOver(ledger[i].record, start, now)
          || (sends != NOTHING && t.record == ledger[i].record && Signal(t.who, false) in sends.first)
    ensures AttendedFrom(i, targets, sent, ledger, names, start, now)
  {
    if !PassedOver(ledger[i].record, start, now) {
      assert t in targets && Signal(t.who, false) in sent;
    }
    AttendedNext(i, earlier, already, targets, sent, ledger, names, start, before, now);
  }

  /** A turn that ended well: there is as much to show for its record as for those after it. */
  lemma TurnSoFar(i: nat, targets: seq<Target>, earlier: seq<Target>, already: seq<Signal>, t: Target, sends: Sends,
                  ledger: seq<Entry>, names: Option<set<string>>, start: Host, before: Host, now: Host)
    requires i < |ledger| && SoFar(i + 1, earlier, already, ledger, names, start, before)
    requires Evolves(before, now) && AllRecorded(ledger, before)
    requires targets == if sends == NOTHING then earlier else earlier + [t]
    requires Account(targets, already + sends.All(), ledger, names, start, now)
    requires Alive(now, Who(ledger[i].record)) ==> Signal(Who(ledger[i].record), true) in sends.first
    requires PassedOver(ledger[i].record, start, now)
          || (sends != NOTHING && t.record == ledger[i].record && Signal(t.who, false) in sends.first)
    ensures SoFar(i, targets, already + sends.All(), ledger, names, start, now)
  {
    TurnHandled(i, already, sends, ledger, names, before, now);
    TurnAttended(i, targets, already + sends.All(), earlier, already, t, sends, ledger, names, start, before, now);
  }

  lemma SkippedSoFar(i: nat, targets: seq<Target>, sent: seq<Signal>, ledger: seq<Entry>, names: Option<set<string>>,
                     start: Host, now: Host)
    requires i < |ledger| && !Selected(names, ledger[i].name)
    requires SoFar(i + 1, targets, sent, ledger, names, start, now)
    ensures SoFar(i, targets, sent, ledger, names, start, now)
  {
  }

  /** What a turn that ends the stop makes it answer. */
  function AnswerTo(turn: Turn, name: string): StopOutcome {
    if turn.Refuse? then Refused(name) else if turn.Vanish? then Vanished else Crashed
  }

  /** Why a turn did not signal. */
  ghost predicate Explained(turn: Turn, r: Record, from: Host, to: Host) {
    match turn
    case Gone => PassedOver(r, from, to)
    case Refuse => InTheWay(r, from, to)
    case Vanish => Lost(r, from, to)
    case _ => true
  }

  /** A turn that ends the stop. */
  ghost predicate Ended(turn: Turn, r: Record, targets: seq<Target>, sent: seq<Signal>, ledger: seq<Entry>,
                        names: Option<set<string>>, from: Host, now: Host) {
    Explained(turn, r, from, now) && Account(targets, sent, ledger, names, from, now)
  }

  lemma ExplainedSinceEarlier(turn: Turn, r: Record, start: Host, from: Host, to: Host)
    requires Evolves(start, from) && Explained(turn, r, from, to)
    ensures Explained(turn, r, start, to)
  {
    match turn
    case Gone => PassedOverSinceEarlier(r, start, from, to);
    case Refuse => InTheWaySinceEarlier(r, start, from, to);
    case Vanish => LostSinceEarlier(r, start, from, to);
    case _ =>
  }

  /** How a turn leaves the account of the call. */
  lemma TurnResult(turn: Turn, i: nat, targets: seq<Target>, earlier: seq<Target>, already: seq<Signal>, t: Target,
                   sends: Sends, ledger: seq<Entry>, names: Option<set<string>>, start: Host, before: Host, now: Host)
    requires i < |ledger| && Selected(names, ledger[i].name)
    requires SoFar(i + 1, earlier, already, ledger, names, start, before)
    requires Evolves(start, before) && Evolves(before, now) && AllRecorded(ledger, before)
    requires targets == if sends == NOTHING then earlier else earlier + [t]
    requires sends == NOTHING
          || (Sound(t) && t.record == ledger[i].record && FamilySends(sends, t.who, Descendants(t.listed, t.who))
              && before.seen <= t.checked.seen && t.taken.seen <= now.seen)
    requires turn.Signalled? ==> sends != NOTHING && Signal(t.who, false) in sends.first
    requires turn.Gone? || turn.Signalled? ==>
             (Alive(now, Who(ledger[i].record)) ==> Signal(Who(ledger[i].record), true) in sends.first)
    requires Explained(turn, ledger[i].record, before, now)
    ensures if turn.Gone? || turn.Signalled? then SoFar(i, targets, already + sends.All(), ledger, names, start, now)
            else Ended(turn, ledger[i].record, targets, already + sends.All(), ledger, names, start, now)
  {
    TurnAccounted(targets, already + sends.All(), earlier, already, t, sends, ledger[i], ledger, names, start, before,
                  now);
    ExplainedSinceEarlier(turn, ledger[i].record, start, before, now);
    if turn.Gone? || turn.Signalled? {
      TurnSoFar(i, targets, earlier, already, t, sends, ledger, names, start, before, now);
    }
  }

  lemma EarlyAnswer(turn: Turn, i: nat, ledger: seq<Entry>, names: Option<set<string>>, from: Host, to: Host)
    requires i < |ledger| && Selected(names, ledger[i].name) && !turn.Gone? && !turn.Signalled?
    requires Explained(turn, ledger[i].record, from, to)
    ensures Answered(AnswerTo(turn, ledger[i].name), ledger, names, from, to)
  {
    var e := ledger[i];
    assert e in ledger;
  }

  /** Why a stop ended early: a selected record in the way, or one whose process was found and then lost. */
  ghost predicate Answered(outcome: StopOutcome, ledger: seq<Entry>, names: Option<set<string>>, from: Host, to: Host) {
    match outcome
    case Refused(name) =>
      exists e :: e in ledger && Selected(names, e.name) && e.name == name && InTheWay(e.record, from, to)
    case Vanished => exists e :: e in ledger && Selected(names, e.name) && Lost(e.record, from, to)
    case _ => true
  }

  /** The record describes a live process that was started with this program and command line. */
  ghost predicate AsStarted(r: Record, exe: string, cmd: seq<string>, from: Host, to: Host) {
    exists h :: Evolves(Popened(from, Who(r), exe, cmd), h) && Evolves(h, to)
                && Alive(h, Who(r)) && r == Described(h, Who(r), r.revision)
  }

  /** A process that has come in between is gone again. */
  ghost predicate NoneLasted(from: Host, to: Host) {
    exists who :: who in to.seen && who !in from.seen && !Alive(to, who)
  }

  /** A process unchanged since it was described passes the ownership check on that record. */
  lemma UnchangedIsOwned(h: Host, now: Host, who: Identity, revision: string)
    requires Alive(h, who) && Alive(now, who)
    requires now.live[who.pid].exe == h.live[who.pid].exe && now.live[who.pid].cmd == h.live[who.pid].cmd
    ensures Owned(now, Described(h, who, revision)) && Who(Described(h, who, revision)) == who
  {
  }

  /** No dead process that was there has come back, and no process that has come since has one of these ids. */
  ghost predicate NoNewcomer(before: Host, now: Host, ledger: seq<Entry>, names: Option<set<string>>) {
    forall x, e ::
      x in now.seen && x !in before.seen && e in ledger && Selected(names, e.name) ==> x.pid != e.record.pid
  }

  /** A sound target of one of the selected records, checked and taken during the call. */
  ghost predicate Chosen(t: Target, ledger: seq<Entry>, names: Option<set<string>>, before: Host, now: Host) {
    && Sound(t) && (exists e :: e in ledger && Selected(names, e.name) && e.record == t.record)
    && before.seen <= t.checked.seen && t.taken.seen <= now.seen
  }

  /** When no process takes a selected id during the call, its targets are the recorded processes. */
  lemma ChosenAreRecorded(t: Target, ledger: seq<Entry>, names: Option<set<string>>, before: Host, now: Host)
    requires Chosen(t, ledger, names, before, now) && NoNewcomer(before, now, ledger, names)
    ensures t.who == Who(t.record)
  {
    TargetIsRecordedExactlyWhenNotNew(t);
    assert t.who in t.taken.seen;
  }

  /** Every selected record from index i on is dealt with: its process is dead or has been sent SIGKILL in this call. */
  ghost predicate Handled(h: Host, records: seq<Entry>, names: Option<set<string>>, i: nat, sent: seq<Signal>) {
    forall k :: i <= k < |records| && Selected(names, records[k].name) && Alive(h, Who(records[k].record))
      ==> Signal(Who(records[k].record), true) in sent
  }

  lemma HandledAreKilled(h: Host, ledger: seq<Entry>, names: Option<set<string>>, sent: seq<Signal>)
    requires Handled(h, ledger, names, 0, sent)
    ensures forall e ::
            e in ledger && Selected(names, e.name) && Alive(h, Who(e.record)) ==> Who(e.record) in KilledBySignals(sent)
  {
    forall e | e in ledger && Selected(names, e.name) && Alive(h, Who(e.record))
      ensures Who(e.record) in KilledBySignals(sent)
    {
      var k :| 0 <= k < |ledger| && ledger[k] == e;
      assert Signal(Who(ledger[k].record), true) in sent;
    }
  }

  lemma HandledEvolves(h: Host, h': Host, records: seq<Entry>, names: Option<set<string>>, i: nat, sent: seq<Signal>,
                       more: seq<Signal>)
    requires Handled(h, records, names, i, sent) && Evolves(h, h')
    requires forall e :: e in records ==> Who(e.record) in h.seen
    ensures Handled(h', records, names, i, sent + more)
  {
  }

  /** Who was signalled so far, and on what account. */
  ghost predicate Account(targets: seq<Target>, sent: seq<Signal>, ledger: seq<Entry>, names: Option<set<string>>,
                          before: Host, now: Host) {
    && (forall t :: t in targets ==> Chosen(t, ledger, names, before, now))
    && (forall s :: s in sent ==> s.to in Families(targets))
  }

  lemma AccountEvolves(targets: seq<Target>, sent: seq<Signal>, ledger: seq<Entry>, names: Option<set<string>>,
                       before: Host, h: Host, now: Host)
    requires Account(targets, sent, ledger, names, before, h) && Evolves(h, now)
    ensures Account(targets, sent, ledger, names, before, now)
  {
  }

  lemma AccountGrows(targets: seq<Target>, sent: seq<Signal>, t: Target, more: seq<Signal>, ledger: seq<Entry>,
                     names: Option<set<string>>, before: Host, now: Host)
    requires Account(targets, sent, ledger, names, before, now) && Chosen(t, ledger, names, before, now)
    requires forall x :: x in more ==> x.to in Family(t)
    ensures Account(targets + [t], sent + more, ledger, names, before, now)
  {
    FamiliesAppend(targets, t);
  }

  function Families(targets: seq<Target>): set<Identity> {
    if targets == [] then {} else Families(targets[..|targets| - 1]) + Family(targets[|targets| - 1])
  }

  lemma FamiliesAppend(targets: seq<Target>, t: Target)
    ensures Families(targets + [t]) == Families(targets) + Family(t)
  {
    assert (targets + [t])[..|targets|] == targets;
  }

  // ----- One command -----------------------------------------------------------------------------

  class Machine {
    var host: Host
    var ledger: seq<Entry>
    /** Every signal ever sent, and every (service, process) pair ever written to the ledger. */
    ghost var log: seq<Signal>
    ghost var launched: set<(string, Identity)>
    /** How many commands were killed or ended by an error nobody catches. */
    ghost var cuts: nat

    ghost predicate Consistent()
      reads this
    {
      Sane(host, ledger, launched)
    }

    constructor (host: Host)
      requires Valid(host)
      ensures Consistent() && this.host == host && ledger == [] && log == [] && launched == {} && cuts == 0
    {
      this.host, ledger := host, [];
      log, launched, cuts := [], {}, 0;
    }

    /**
     Time passes, as it has since `start`. The result says whether this command is still running afterwards:
     it may be killed, or a statement may raise an error nobody catches.
     */
    method Meanwhile(ghost start: Host) returns (running: bool)
      requires Consistent() && Evolves(start, host)
      modifies this`host, this`cuts
      ensures Consistent() && Evolves(old(host), host) && Evolves(start, host)
      ensures cuts == old(cuts) + if running then 0 else 1
    {
      var next: Host := *;
      if Evolves(host, next) {
        SaneEvolves(host, next, ledger, launched);
        EvolvesTransitive(start, host, next);
        host := next;
      }
      running := *;
      cuts := if running then cuts else cuts + 1;
    }

    method Send(x: Identity, kill: bool)
      modifies this`log
      ensures log == old(log) + [Signal(x, kill)]
    {
      log := log + [Signal(x, kill)];
    }

    /** The ownership check, the second lookup and the listing of descendants; None when the turn goes on to signal. */
    method TakeTarget(e: Entry) returns (turn: Option<Turn>, who: Identity, family: set<Identity>, ghost t: Target)
      requires Consistent() && e in ledger
      modifies this`host, this`cuts
      ensures Consistent() && Evolves(old(host), host)
      ensures turn == Some(Gone) ==> !Alive(host, Who(e.record)) && PassedOver(e.record, old(host), host)
      ensures turn == Some(Refuse) ==> InTheWay(e.record, old(host), host)
      ensures turn == Some(Vanish) ==> Lost(e.record, old(host), host)
      ensures turn != Some(Signalled)
      ensures cuts == old(cuts) + if turn == Some(Killed) then 1 else 0
      ensures turn.None? ==>
              Sound(t) && t.record == e.record && t.who == who && t.listed == host && family == Descendants(host, who)
      ensures turn.None? ==> Evolves(old(host), t.checked) && t.taken.seen <= host.seen
    {
      var record := e.record;
      who, family := Who(record), {};
      t := Target(record, who, host, host, host);
      assert (e.name, Who(record)) in launched;
      var read: bool := *;
      if !Passes(Check(host, read), record) {
        var up := Meanwhile(old(host));
        if !up { return Some(Killed), who, family, t; }
        if record.created < host.boot {
          IsPassedOver(record, old(host), host);
          return Some(Gone), who, family, t;
        }
        ghost var booted := host;
        up := Meanwhile(old(host));
        if !up { return Some(Killed), who, family, t; }
        if record.pid in host.live {
          IsInTheWay(record, Check(old(host), read), booted, host);
          return Some(Refuse), who, family, t;
        }
        IsPassedOver(record, old(host), host);
        return Some(Gone), who, family, t;
      }
      var up := Meanwhile(old(host));
      if !up { return Some(Killed), who, family, t; }
      if record.pid !in host.live {
        IsLost(record, old(host), host);
        return Some(Vanish), who, family, t;
      }
      who := host.live[record.pid].who;
      t := t.(who := who, taken := host);
      up := Meanwhile(host);
      EvolvesTransitive(old(host), t.taken, host);
      if !up { return Some(Killed), who, family, t; }
      if !Alive(host, who) {
        TargetLost(t, host);
        IsLost(record, old(host), host);
        return Some(Vanish), who, family, t;
      }
      family := Descendants(host, who);
      t := t.(listed := host);
      turn := None;
    }

    /** After the wait: `kill` if the parent is still alive. */
    method ForceParent(parent: Identity) returns (turn: Turn, ghost forced: seq<Signal>)
      requires Consistent() && parent in host.seen
      modifies this`host, this`log, this`cuts
      ensures Consistent() && Evolves(old(host), host) && log == old(log) + forced
      ensures forced == [] || forced == [Signal(parent, true)]
      ensures turn.Vanish? || turn.Killed? || turn.Signalled?
      ensures turn.Signalled? ==> (Alive(host, parent) ==> forced != [])
      ensures turn.Vanish? ==> !Alive(host, parent)
      ensures cuts == old(cuts) + if turn.Killed? then 1 else 0
    {
      forced := [];
      if !Alive(host, parent) { return Signalled, forced; }
      var up := Meanwhile(host);
      if !up { return Killed, forced; }
      if !Alive(host, parent) { return Vanish, forced; }
      Send(parent, true);
      return Signalled, [Signal(parent, true)];
    }

    /** `terminate`, the wait, and `kill` if the parent outlives it. */
    method SignalParent(parent: Identity) returns (turn: Turn, ghost sent: seq<Signal>)
      requires Consistent() && parent in host.seen
      modifies this`host, this`log, this`cuts
      ensures Consistent() && Evolves(old(host), host) && log == old(log) + sent
      ensures sent == [] || sent == [Signal(parent, false)] || sent == [Signal(parent, false), Signal(parent, true)]
      ensures turn.Vanish? || turn.Killed? || turn.Signalled?
      ensures turn.Signalled? ==> sent != [] && (Alive(host, parent) ==> Signal(parent, true) in sent)
      ensures turn.Vanish? ==> !Alive(host, parent)
      ensures cuts == old(cuts) + if turn.Killed? then 1 else 0
    {
      sent := [];
      var up := Meanwhile(host);
      if !up { return Killed, sent; }
      if !Alive(host, parent) { return Vanish, sent; }
      Send(parent, false);
      sent := [Signal(parent, false)];
      up := Meanwhile(old(host));
      if !up { return Killed, sent; }
      ghost var before := host;
      ghost var forced;
      turn, forced := ForceParent(parent);
      EvolvesTransitive(old(host), before, host);
      sent := sent + forced;
    }

    /** The descendants: all asked first, and those that outlive the wait killed. */
    method SignalChildren(children: set<Identity>, ghost start: Host)
      returns (running: bool, ghost asked: seq<Signal>, ghost forced: seq<Signal>)
      requires Consistent() && Evolves(start, host) && children <= start.seen
      modifies this`host, this`log, this`cuts
      ensures Consistent() && Evolves(start, host) && log == old(log) + asked + forced
      ensures AllTo(asked, children, false) && AllTo(forced, children, true) && AskedFirst(asked, forced)
      ensures running ==> SentOrDead(host, children, true, forced)
      ensures cuts == old(cuts) + if running then 0 else 1
    {
      forced := [];
      running, asked := SignalAll(children, false, start);
      if !running { return; }
      running := Meanwhile(start);
      if !running { return; }
      var remaining := set c | c in children && Alive(host, c);
      ghost var waited := host;
      running, forced := SignalAll(remaining, true, waited);
      ForcedWereAsked(waited, children, remaining, asked, forced);
      EvolvesTransitive(start, waited, host);
      if running {
        RestAreDead(waited, host, children, remaining, forced);
        ghost var killed := host;
        running := Meanwhile(start);
        StillSentOrDead(killed, host, children, true, forced);
      }
    }

    /** The parent, then its descendants. */
    method SignalFamily(parent: Identity, children: set<Identity>) returns (turn: Turn, ghost sent: Sends)
      requires Consistent() && parent in host.seen && children <= host.seen
      modifies this`host, this`log, this`cuts
      ensures Consistent() && Evolves(old(host), host) && log == old(log) + sent.All()
      ensures FamilySends(sent, parent, children)
      ensures turn.Vanish? || turn.Killed? || turn.Signalled?
      ensures turn.Signalled? ==> (Alive(host, parent) ==> Signal(parent, true) in sent.first)
      ensures turn.Signalled? ==> SentOrDead(host, children, true, sent.forced) && sent.first != []
      ensures turn.Vanish? ==> !Alive(host, parent)
      ensures cuts == old(cuts) + if turn.Killed? then 1 else 0
    {
      ghost var first, asked, forced;
      turn, first := SignalParent(parent);
      sent := Sends(first, [], []);
      if !turn.Signalled? {
        return;
      }
      ghost var before := host;
      var up;
      up, asked, forced := SignalChildren(children, before);
      sent := Sends(first, asked, forced);
      EvolvesTransitive(old(host), before, host);
      turn := if up then Signalled else Killed;
    }

    /** `terminate` or `kill` for one process, ignored if it is already gone. */
    method SignalOne(x: Identity, kill: bool, ghost start: Host) returns (running: bool, ghost sent: seq<Signal>)
      requires Consistent() && Evolves(start, host)
      modifies this`host, this`log, this`cuts
      ensures Consistent() && Evolves(old(host), host) && Evolves(start, host) && log == old(log) + sent
      ensures sent == if running && Alive(host, x) then [Signal(x, kill)] else []
      ensures cuts == old(cuts) + if running then 0 else 1
    {
      sent := [];
      running := Meanwhile(start);
      if running && Alive(host, x) {
        Send(x, kill);
        sent := [Signal(x, kill)];
      }
    }

    /** One more of them, after what was sent to the others. */
    method SignalNext(x: Identity, ghost done: set<Identity>, kill: bool, ghost already: seq<Signal>, ghost start: Host)
      returns (running: bool, ghost one: seq<Signal>)
      requires Consistent() && Evolves(start, host) && done <= start.seen && SentOrDead(host, done, kill, already)
      modifies this`host, this`log, this`cuts
      ensures Consistent() && Evolves(start, host)
      ensures log == old(log) + one && AllTo(one, {x}, kill)
      ensures running ==> SentOrDead(host, done + {x}, kill, already + one)
      ensures cuts == old(cuts) + if running then 0 else 1
    {
      ghost var before := host;
      running, one := SignalOne(x, kill, start);
      if running {
        SentOrDeadGrows(before, host, done, kill, already, already + one, x);
      }
    }

    /** `terminate` or `kill` for each of some processes. */
    method SignalAll(processes: set<Identity>, kill: bool, ghost start: Host)
      returns (running: bool, ghost sent: seq<Signal>)
      requires Consistent() && Evolves(start, host) && processes <= start.seen
      modifies this`host, this`log, this`cuts
      ensures Consistent() && Evolves(start, host) && log == old(log) + sent
      ensures AllTo(sent, processes, kill)
      ensures running ==> SentOrDead(host, processes, kill, sent)
      ensures cuts == old(cuts) + if running then 0 else 1
    {
      var todo := processes;
      ghost var done: set<Identity> := {};
      sent := [];
      while todo != {}
        invariant todo + done == processes && Consistent() && Evolves(start, host)
        invariant log == old(log) + sent && AllTo(sent, processes, kill) && SentOrDead(host, done, kill, sent)
        invariant cuts == old(cuts)
        decreases |todo|
      {
        var x :| x in todo;
        var up;
        ghost var one;
        up, one := SignalNext(x, done, kill, sent, start);
        AllToGrows(sent, one, processes, x, kill);
        Append(old(log), sent, one);
        sent, done, todo := sent + one, done + {x}, todo - {x};
        if !up {
          return false, sent;
        }
      }
      return true, sent;
    }

    /** One record's turn in `stop_processes`. */
    method StopOne(e: Entry) returns (turn: Turn, ghost t: Target, ghost sent: Sends)
      requires Consistent() && e in ledger
      modifies this`host, this`log, this`cuts
      ensures Consistent() && Evolves(old(host), host) && log == old(log) + sent.All()
      ensures turn.Gone? || turn.Signalled? ==>
              (Alive(host, Who(e.record)) ==> Signal(Who(e.record), true) in sent.first)
      ensures sent == NOTHING
           || (Sound(t) && t.record == e.record && FamilySends(sent, t.who, Descendants(t.listed, t.who))
               && old(host).seen <= t.checked.seen && t.taken.seen <= host.seen)
      ensures turn.Signalled? ==> sent != NOTHING && Signal(t.who, false) in sent.first
      ensures Explained(turn, e.record, old(host), host)
      ensures cuts == old(cuts) + if turn.Killed? then 1 else 0
    {
      assert (e.name, Who(e.record)) in launched;
      var early, who, family;
      early, who, family, t := TakeTarget(e);
      if early.Some? {
        return early.value, t, NOTHING;
      }
      ghost var before := host;
      turn, sent := SignalFamily(who, family);
      if t.who != Who(e.record) {
        OtherTargetMeansGone(t);
        EvolvesTransitive(t.taken, before, host);
      }
      if turn.Vanish? {
        LostInTurn(t, old(host), host);
      }
    }

    /** The single write of `stop_processes`. */
    method WriteKept(names: Option<set<string>>, ghost sent: seq<Signal>)
      requires Consistent() && Handled(host, ledger, names, 0, sent)
      modifies this`ledger
      ensures Consistent() && StopPromise(names, KilledBySignals(sent), host, old(ledger), launched, ledger)
    {
      KeptSane(host, ledger, launched, names);
      HandledAreKilled(host, ledger, names, sent);
      StopWriteMeetsPromise(names, KilledBySignals(sent), host, ledger, launched);
      ledger := Kept(ledger, names);
    }

    /**
     `stop_processes`. On a normal return every selected recorded process is dead or was sent SIGKILL in this
     call; the other records are kept as they were, and what becomes an orphan is exactly the selected
     processes still alive. Otherwise no record changes. Every signal goes to the family of the target of a
     selected record's turn, and if no process took a selected id during the call those targets are the
     recorded processes.
     */
    method StopProcesses(names: Option<set<string>>)
      returns (outcome: StopOutcome, ghost targets: seq<Target>, ghost sent: seq<Signal>)
      requires Consistent()
      modifies this`host, this`log, this`ledger, this`cuts
      ensures Consistent() && Evolves(old(host), host) && log == old(log) + sent
      ensures outcome.Stopped? ==> StopPromise(names, KilledBySignals(sent), host, old(ledger), launched, ledger)
      ensures !outcome.Stopped? ==> ledger == old(ledger)
      ensures Account(targets, sent, old(ledger), names, old(host), host)
      ensures NoNewcomer(old(host), host, old(ledger), names) ==> forall t :: t in targets ==> t.who == Who(t.record)
      ensures outcome.Stopped? ==> forall e :: e in old(ledger) && Selected(names, e.name) ==>
                Attended(e.record, targets, sent, old(host), host)
      ensures Answered(outcome, old(ledger), names, old(host), host)
      ensures cuts == old(cuts) + if outcome.Crashed? then 1 else 0
    {
      var early;
      early, targets, sent := StopEach(names);
      forall t | t in targets && NoNewcomer(old(host), host, ledger, names) ensures t.who == Who(t.record) {
        ChosenAreRecorded(t, ledger, names, old(host), host);
      }
      if early.Some? {
        return early.value, targets, sent;
      }
      AllAttended(targets, sent, ledger, names, old(host), host);
      WriteKept(names, sent);
      outcome := Stopped;
    }

    /** The loop over the records, last one first; None when it ran to its end. */
    method StopEach(names: Option<set<string>>)
      returns (early: Option<StopOutcome>, ghost targets: seq<Target>, ghost sent: seq<Signal>)
      requires Consistent()
      modifies this`host, this`log, this`cuts
      ensures Consistent() && Evolves(old(host), host) && log == old(log) + sent
      ensures early.None? ==> SoFar(0, targets, sent, ledger, names, old(host), host)
      ensures early.Some? ==> !early.value.Stopped? && Answered(early.value, ledger, names, old(host), host)
                              && Account(targets, sent, ledger, names, old(host), host)
      ensures cuts == old(cuts) + if early == Some(Crashed) then 1 else 0
    {
      ghost var start, records := host, ledger;
      var i := |ledger|;
      targets, sent := [], [];
      HostStays(host);
      while i != 0
        invariant 0 <= i <= |ledger| && ledger == records && Consistent() && Evolves(start, host)
        invariant log == old(log) + sent && cuts == old(cuts)
        invariant SoFar(i, targets, sent, records, names, start, host)
      {
        i := i - 1;
        if Selected(names, ledger[i].name) {
          var turn;
          ghost var already, more := sent, [];
          turn, targets, more := Turnover(i, names, targets, already, start);
          sent := already + more;
          Append(old(log), already, more);
          if !turn.Gone? && !turn.Signalled? {
            EarlyAnswer(turn, i, records, names, start, host);
            return Some(AnswerTo(turn, ledger[i].name)), targets, sent;
          }
        } else {
          SkippedSoFar(i, targets, sent, records, names, start, host);
        }
      }
      early := None;
    }

    /** The turn of record i, added to the account of the call that began on `start`. */
    method Turnover(i: nat, names: Option<set<string>>, ghost earlier: seq<Target>, ghost already: seq<Signal>,
                    ghost start: Host)
      returns (turn: Turn, ghost targets: seq<Target>, ghost more: seq<Signal>)
      requires Consistent() && Evolves(start, host) && i < |ledger| && Selected(names, ledger[i].name)
      requires SoFar(i + 1, earlier, already, ledger, names, start, host)
      modifies this`host, this`log, this`cuts
      ensures Consistent() && Evolves(start, host) && log == old(log) + more
      ensures if turn.Gone? || turn.Signalled? then SoFar(i, targets, already + more, ledger, names, start, host)
              else Ended(turn, ledger[i].record, targets, already + more, ledger, names, start, host)
      ensures cuts == old(cuts) + if turn.Killed? then 1 else 0
    {
      ghost var t, sends;
      ghost var before := host;
      assert AllRecorded(ledger, before) by { RecordedAreSeen(host, ledger, launched); }
      turn, t, sends := StopOne(ledger[i]);
      EvolvesTransitive(start, before, host);
      more := sends.All();
      targets := if sends == NOTHING then earlier else earlier + [t];
      TurnResult(turn, i, targets, earlier, already, t, sends, ledger, names, start, before, host);
    }

    /** `Popen`: some process that never was before, which may be gone again at once. */
    method Spawn(exe: string, cmd: seq<string>) returns (who: Identity)
      requires Consistent()
      modifies this`host
      ensures Consistent() && Evolves(old(host), host)
      ensures who in host.seen && who !in old(host).seen && host == Popened(old(host), who, exe, cmd)
    {
      var pid := SomePid(host.seen);
      who := Identity(pid, host.boot);
      host := Popened(host, who, exe, cmd);
    }

    /** Popen, the short wait, `poll`, and reading the new process's identity: None when it did not last. */
    method Launch(exe: string, cmd: seq<string>, revision: string)
      returns (outcome: StartOutcome, record: Option<Record>)
      requires Consistent()
      modifies this`host, this`cuts
      ensures Consistent() && Evolves(old(host), host)
      ensures outcome.Started? <==> record.Some?
      ensures outcome.Started? || outcome.ExitedAtOnce? || outcome.Cut?
      ensures record.Some? ==>
              Who(record.value) in host.seen && Who(record.value) !in old(host).seen
                && record.value.revision == revision
      ensures record.Some? ==> AsStarted(record.value, exe, cmd, old(host), host)
      ensures cuts == old(cuts) || (outcome.Cut? && cuts == old(cuts) + 1)
      ensures outcome.ExitedAtOnce? || (outcome.Cut? && cuts == old(cuts)) ==> NoneLasted(old(host), host)
    {
      var who := Spawn(exe, cmd);
      ghost var born := host;
      HostStays(born);
      var up := Meanwhile(born);
      EvolvesTransitive(old(host), born, host);
      if !up { return Cut, None; }
      if !Alive(host, who) { return ExitedAtOnce, None; }
      up := Meanwhile(born);
      EvolvesTransitive(old(host), born, host);
      if !up || !Alive(host, who) { return Cut, None; }
      record := Some(Described(host, who, revision));
      ghost var described := host;
      HostStays(described);
      up := Meanwhile(described);
      EvolvesTransitive(old(host), described, host);
      if !up { return Cut, None; }
      assert AsStarted(record.value, exe, cmd, old(host), host);
      outcome := Started;
    }

    /**
     `start_process`. Nothing is written unless a new process was seen alive while no recorded one passed the
     check; what the write does then is its promise.
     */
    method StartProcess(name: string, exe: string, cmd: seq<string>, revision: string)
      returns (outcome: StartOutcome, ghost checked: Check, ghost started: Option<Record>)
      requires Consistent()
      modifies this`host, this`ledger, this`launched, this`cuts
      ensures Consistent() && Evolves(old(host), checked.host) && Evolves(checked.host, host)
      ensures started.Some? <==> outcome.Started?
      ensures Decided(Find(old(ledger), name), checked, outcome, revision)
      ensures started.Some? ==>
        StartPromise(name, revision, checked, started.value, host, old(ledger), old(launched), ledger, launched)
      ensures started.None? ==> ledger == old(ledger) && launched == old(launched)
      ensures started.Some? ==> AsStarted(started.value, exe, cmd, checked.host, host)
      ensures cuts == old(cuts) || (outcome.Cut? && cuts == old(cuts) + 1)
      ensures outcome.ExitedAtOnce? || (outcome.Cut? && cuts == old(cuts)) ==> NoneLasted(checked.host, host)
    {
      var record := Find(ledger, name);
      var up := Meanwhile(old(host));
      var read: bool := *;
      checked, started := Check(host, read), None;
      if !up { return Cut, checked, started; }
      if record.Some? && Passes(Check(host, read), record.value) {
        return if record.value.revision == revision then AlreadyRunning else OtherRevision, checked, started;
      }
      assert record.Some? ==> (name, Who(record.value)) in launched;
      var latest;
      outcome, latest := Launch(exe, cmd, revision);
      if latest.Some? {
        WriteStarted(name, revision, latest.value, checked);
        started := latest;
      }
    }

    /** The single write of `start_process`. */
    method WriteStarted(name: string, revision: string, record: Record, ghost checked: Check)
      requires Consistent() && Evolves(checked.host, host) && record.revision == revision
      requires Who(record) in host.seen && Who(record) !in checked.host.seen
               && forall m :: (m, Who(record)) !in launched
      requires var before := Find(ledger, name);
               before.Some? ==> !Passes(checked, before.value) && Who(before.value) in checked.host.seen
      modifies this`ledger, this`launched
      ensures Consistent()
      ensures StartPromise(name, revision, checked, record, host, old(ledger), old(launched), ledger, launched)
    {
      var entry := Entry(name, record);
      PutSane(host, ledger, launched, entry);
      StartWriteMeetsPromise(name, revision, checked, record, host, ledger, launched);
      ledger, launched := Put(ledger, entry), launched + {(name, Who(record))};
    }
  }

  /** The host with a newly started process. */
  function Popened(h: Host, who: Identity, exe: string, cmd: seq<string>): Host {
    h.(live := h.live[who.pid := Process(who, exe, cmd, None)], seen := h.seen + {who})
  }

  /** The record `start_process` makes of a live process. */
  function Described(h: Host, who: Identity, revision: string): Record
    requires Alive(h, who)
  {
    Record(who.pid, who.created, h.live[who.pid].exe, h.live[who.pid].cmd, revision)
  }

  /** An id that no process has had. */
  method SomePid(seen: set<Identity>) returns (pid: Pid)
    ensures forall x :: x in seen ==> x.pid < pid
  {
    pid := 0;
    var todo := seen;
    while todo != {}
      invariant forall x :: x in seen - todo ==> x.pid < pid
      decreases |todo|
    {
      var x :| x in todo;
      pid := if x.pid < pid then pid else x.pid + 1;
      todo := todo - {x};
    }
  }
}
