/**
 Any number of commands starting and stopping services at once, behind the command lock.

 A command works through its jobs inside the lock. Every statement of `start_process` and
 `stop_processes` is a step of its own; between any two steps other commands may try to enter, the
 operating system may do anything it can, and the command may be killed, leaving the lock file behind.
 The ledger is the one the lock protects: it is read, and later written from what was read.
 */
module ServiceCommands {
  import opened Common
  import opened ProcessOwnership
  import L = CommandLock

  type Command = L.Command

  /** The two ways processes.json is rewritten. */
  datatype Update = Recorded(entry: Entry) | Dropped(names: Option<set<string>>)

  function Apply(u: Update, ledger: seq<Entry>): seq<Entry> {
    match u case Recorded(e) => Put(ledger, e) case Dropped(names) => Kept(ledger, names)
  }

  datatype Job =
    | StartJob(name: string, exe: string, cmd: seq<string>, revision: string)
    | StopJob(names: Option<set<string>>)

  /** Signalling a family: the parent, then each child, then each child that outlived the wait. */
  datatype Phase =
    | Ask | Wait | Kill
    | AskChildren(todo: set<Identity>) | WaitChildren | KillChildren(todo: set<Identity>)

  /** Where a command is. In a stop, i is the record the turn is about; `StopNext(left)` has that many records left. */
  datatype Stage =
    | Between
    | StartCheck
    | StartPopen(checked: Check)
    | StartPoll(checked: Check, who: Identity)
    | StartDescribe(checked: Check, who: Identity)
    | StartWrite(checked: Check, record: Record)
    | StopNext(left: nat)
    | StopBoot(i: nat)
    | StopExists(i: nat)
    | StopLookup(i: nat, found: Host)
    | StopList(i: nat, t: Target)
    | StopTurn(i: nat, t: Target, phase: Phase)
    | Leaving

  /** The jobs left, the first one current; and whom the current job sent SIGKILL, a history variable. */
  datatype Worker = Worker(jobs: seq<Job>, stage: Stage, killed: set<Identity>)

  /** A signal, who sent it, and the turn it was sent in. */
  datatype Sent = Sent(sender: Command, signal: Signal, on: Target)

  datatype State = State(lock: L.State<seq<Entry>, Update>, workers: map<Command, Worker>, host: Host,
                         launched: set<(string, Identity)>, log: seq<Sent>)

  datatype Action =
    | Launch(c: Command, jobs: seq<Job>)
    | Enter(c: Command)
    | Go(c: Command)
    | Fault(c: Command)
    | Popen(c: Command, who: Identity)
    | Pick(c: Command, who: Identity)
    | Die(c: Command)
    | RemoveLock
    | Os(next: Host)

  // ----- One command's next step -----------------------------------------------------------------

  /** What a step inside a job does: the worker after it, a signal, a rewriting of the ledger. */
  datatype Move = Move(next: Worker, signal: Option<(Signal, Target)>, update: Option<Update>)

  function To(w: Worker, stage: Stage): Move {
    Move(w.(stage := stage), None, None)
  }

  /** The current job is done; the next one starts afresh. */
  function NextJob(w: Worker): Worker {
    Worker(if w.jobs == [] then [] else w.jobs[1..], Between, {})
  }

  /** The stage belongs to the current job, and its record is one of the ledger's. */
  predicate Fits(w: Worker, ledger: seq<Entry>) {
    w.jobs != [] &&
    match w.stage
    case Between | Leaving => true
    case StartCheck | StartPopen(_) | StartPoll(_, _) | StartDescribe(_, _) | StartWrite(_, _) => w.jobs[0].StartJob?
    case StopNext(left) => w.jobs[0].StopJob? && left <= |ledger|
    case StopBoot(i) => w.jobs[0].StopJob? && i < |ledger|
    case StopExists(i) => w.jobs[0].StopJob? && i < |ledger|
    case StopLookup(i, _) => w.jobs[0].StopJob? && i < |ledger|
    case StopList(i, _) => w.jobs[0].StopJob? && i < |ledger|
    case StopTurn(i, _, _) => w.jobs[0].StopJob? && i < |ledger|
  }

  function AdvanceStart(h: Host, ledger: seq<Entry>, w: Worker): Move
    requires Fits(w, ledger) && w.jobs[0].StartJob?
  {
    var job := w.jobs[0];
    match w.stage
    case StartCheck =>
      var before := Find(ledger, job.name);
      if before.Some? && Owned(h, before.value)
      then if before.value.revision == job.revision then Move(NextJob(w), None, None) else To(w, Leaving)
      else To(w, StartPopen(Check(h, true)))
    case StartPoll(checked, who) => To(w, if Alive(h, who) then StartDescribe(checked, who) else Leaving)
    case StartDescribe(checked, who) =>
      To(w, if Alive(h, who) then StartWrite(checked, Described(h, who, job.revision)) else Leaving)
    case StartWrite(_, record) => Move(NextJob(w), None, Some(Recorded(Entry(job.name, record))))
    case _ => To(w, w.stage)
  }

  function AdvanceStop(h: Host, ledger: seq<Entry>, w: Worker): Move
    requires Fits(w, ledger) && w.jobs[0].StopJob?
  {
    match w.stage
    case StopNext(i) =>
      if i == 0 then Move(NextJob(w), None, Some(Dropped(w.jobs[0].names)))
      else if !Selected(w.jobs[0].names, ledger[i - 1].name) then To(w, StopNext(i - 1))
      else if Owned(h, ledger[i - 1].record) then To(w, StopLookup(i - 1, h))
      else To(w, StopBoot(i - 1))
    case StopBoot(i) => To(w, if ledger[i].record.created < h.boot then StopNext(i) else StopExists(i))
    case StopExists(i) => To(w, if ledger[i].record.pid in h.live then Leaving else StopNext(i))
    case StopLookup(i, found) =>
      var r := ledger[i].record;
      To(w, if r.pid in h.live then StopList(i, Target(r, h.live[r.pid].who, found, h, h)) else Leaving)
    case StopList(i, t) => To(w, if Alive(h, t.who) then StopTurn(i, t.(listed := h), Ask) else Leaving)
    case StopTurn(i, t, phase) => AdvanceTurn(h, w, i, t, phase)
    case _ => To(w, w.stage)
  }

  /** The children alive after the wait. */
  function Outliving(h: Host, t: Target): (r: set<Identity>)
    ensures r <= Descendants(t.listed, t.who)
  {
    set x | x in Descendants(t.listed, t.who) && Alive(h, x)
  }

  function AdvanceTurn(h: Host, w: Worker, i: nat, t: Target, phase: Phase): Move {
    var children := Descendants(t.listed, t.who);
    match phase
    case Ask =>
      if Alive(h, t.who) then Move(w.(stage := StopTurn(i, t, Wait)), Some((Signal(t.who, false), t)), None)
      else To(w, Leaving)
    case Wait => To(w, StopTurn(i, t, if Alive(h, t.who) then Kill else AskChildren(children)))
    case Kill =>
      if Alive(h, t.who)
      then Move(w.(stage := StopTurn(i, t, AskChildren(children)), killed := w.killed + {t.who}),
                Some((Signal(t.who, true), t)), None)
      else To(w, Leaving)
    case AskChildren(todo) => To(w, if todo == {} then StopTurn(i, t, WaitChildren) else w.stage)
    case WaitChildren => To(w, StopTurn(i, t, KillChildren(Outliving(h, t))))
    case KillChildren(todo) => To(w, if todo == {} then StopNext(i) else w.stage)
  }

  function Advance(h: Host, ledger: seq<Entry>, w: Worker): Move
    requires Fits(w, ledger)
  {
    if w.jobs[0].StartJob? then AdvanceStart(h, ledger, w) else AdvanceStop(h, ledger, w)
  }

  /**
   A statement raises. The ownership check turns a psutil error into "not owned"; any other error ends the
   command, which leaves the lock.
   */
  function Faulted(h: Host, ledger: seq<Entry>, w: Worker): Move
    requires Fits(w, ledger)
  {
    match w.stage
    case StartCheck => To(w, StartPopen(Check(h, false)))
    case StopNext(left) =>
      if left > 0 && Selected(w.jobs[0].names, ledger[left - 1].name) then To(w, StopBoot(left - 1)) else To(w, Leaving)
    case _ => To(w, Leaving)
  }

  /** One of the children to terminate or kill; those already gone are skipped. */
  function PickChild(h: Host, w: Worker, x: Identity): Move {
    if !w.stage.StopTurn? then To(w, w.stage) else
    var (i, t) := (w.stage.i, w.stage.t);
    match w.stage.phase
    case AskChildren(todo) =>
      if x !in todo then To(w, w.stage)
      else Move(w.(stage := StopTurn(i, t, AskChildren(todo - {x}))),
                if Alive(h, x) then Some((Signal(x, false), t)) else None, None)
    case KillChildren(todo) =>
      if x !in todo then To(w, w.stage)
      else if !Alive(h, x) then To(w, StopTurn(i, t, KillChildren(todo - {x})))
      else Move(w.(stage := StopTurn(i, t, KillChildren(todo - {x})), killed := w.killed + {x}),
                Some((Signal(x, true), t)), None)
    case _ => To(w, w.stage)
  }

  // ----- Interleaving ----------------------------------------------------------------------------

  predicate Working(s: State, c: Command) {
    c in s.workers && L.IsInside(s.lock, c)
  }

  /** Inside, with the ledger read, at a stage that fits it. */
  predicate AtWork(s: State, c: Command) {
    Working(s, c) && s.lock.running[c].copy.Some? && Fits(s.workers[c], s.lock.running[c].copy.value)
  }

  function Perform(s: State, c: Command, m: Move): State {
    State(if m.update.Some? then L.Next(s.lock, L.Write(c, m.update.value), Apply) else s.lock,
          s.workers[c := m.next], s.host,
          if m.update.Some? && m.update.value.Recorded?
          then s.launched + {(m.update.value.entry.name, Who(m.update.value.entry.record))} else s.launched,
          if m.signal.Some? then s.log + [Sent(c, m.signal.value.0, m.signal.value.1)] else s.log)
  }

  /** Between jobs: read the ledger for the next one, or leave. */
  function BeginJob(s: State, c: Command): State
    requires Working(s, c)
  {
    var w := s.workers[c];
    if w.jobs == [] then s.(workers := s.workers[c := w.(stage := Leaving)])
    else
      var first := if w.jobs[0].StartJob? then StartCheck else StopNext(|s.lock.ledger|);
      s.(lock := L.Next(s.lock, L.Read(c), Apply), workers := s.workers[c := Worker(w.jobs, first, {})])
  }

  function GoOn(s: State, c: Command): State
    requires Working(s, c)
  {
    var w := s.workers[c];
    if w.stage.Between? then BeginJob(s, c)
    else if w.stage.Leaving? then s.(lock := L.Next(s.lock, L.Leave(c), Apply), workers := s.workers - {c})
    else if AtWork(s, c) then Perform(s, c, Advance(s.host, s.lock.running[c].copy.value, w))
    else s
  }

  /** `Popen` of a process that never was before. */
  function Spawned(s: State, c: Command, who: Identity): State
    requires Working(s, c)
  {
    var w := s.workers[c];
    if !AtWork(s, c) || !w.stage.StartPopen? || who in s.host.seen then s
    else
      var next := Popened(s.host, who, w.jobs[0].exe, w.jobs[0].cmd);
      if !Evolves(s.host, next) then s
      else s.(host := next, workers := s.workers[c := w.(stage := StartPoll(w.stage.checked, who))])
  }

  function EnterLock(s: State, c: Command): State {
    if c !in s.workers || L.IsInside(s.lock, c) then s
    else
      var lock := L.Next(s.lock, L.Enter(c), Apply);
      State(lock, if L.IsInside(lock, c) then s.workers else s.workers - {c}, s.host, s.launched, s.log)
  }

  /** One step of one command, of the operating system or of the operator; one that is not possible does nothing. */
  function Next(s: State, a: Action): State {
    match a
    case Launch(c, jobs) =>
      if c in s.workers || c in s.lock.running then s
      else s.(lock := L.Next(s.lock, L.Launch(c), Apply), workers := s.workers[c := Worker(jobs, Between, {})])
    case Enter(c) => EnterLock(s, c)
    case Go(c) => if Working(s, c) then GoOn(s, c) else s
    case Fault(c) =>
      if AtWork(s, c) then Perform(s, c, Faulted(s.host, s.lock.running[c].copy.value, s.workers[c])) else s
    case Popen(c, who) => if Working(s, c) then Spawned(s, c, who) else s
    case Pick(c, x) => if AtWork(s, c) then Perform(s, c, PickChild(s.host, s.workers[c], x)) else s
    case Die(c) => s.(lock := L.Next(s.lock, L.Die(c), Apply), workers := s.workers - {c})
    case RemoveLock => s.(lock := L.Next(s.lock, L.RemoveLock, Apply))
    case Os(next) => if Evolves(s.host, next) then s.(host := next) else s
  }

  function Steps(s: State, actions: seq<Action>): State
    decreases |actions|
  {
    if actions == [] then s else Steps(Next(s, actions[0]), actions[1..])
  }

  /** Nothing recorded yet. */
  function Fresh(h: Host): State {
    State(L.Start([]), map[], h, {}, [])
  }

  ghost predicate CarefulStep(s: State, a: Action) {
    a.RemoveLock? ==> forall c: Command :: !L.IsInside(s.lock, c)
  }

  /** The operator deletes the lock file only while no command that entered is still running. */
  ghost predicate Careful(s: State, actions: seq<Action>)
    decreases |actions|
  {
    actions != [] ==> CarefulStep(s, actions[0]) && Careful(Next(s, actions[0]), actions[1..])
  }

  // ----- The invariant ---------------------------------------------------------------------------

  /** Each selected record from i on is dealt with: its process is dead or was sent SIGKILL by this job. */
  ghost predicate Dealt(h: Host, ledger: seq<Entry>, names: Option<set<string>>, i: nat, killed: set<Identity>) {
    forall k :: i <= k < |ledger| && Selected(names, ledger[k].name) && Alive(h, Who(ledger[k].record))
      ==> Who(ledger[k].record) in killed
  }

  /** The recorded process did not pass the ownership check on `checked`. */
  ghost predicate Rejected(h: Host, ledger: seq<Entry>, name: string, checked: Check) {
    var before := Find(ledger, name);
    Evolves(checked.host, h)
      && (before.Some? ==> !Passes(checked, before.value) && Who(before.value) in checked.host.seen)
  }

  /** It has come since the check, and was never recorded. */
  ghost predicate Unrecorded(h: Host, launched: set<(string, Identity)>, checked: Check, who: Identity) {
    who in h.seen && who !in checked.host.seen && forall n :: (n, who) !in launched
  }

  /** A turn under way: whom it is on, and once the children's turn has come, that the parent is dealt with. */
  ghost predicate TurnOk(h: Host, r: Record, t: Target, phase: Phase, killed: set<Identity>) {
    && t.record == r && Sound(t) && Evolves(t.listed, h)
    && (phase.Ask? || phase.Wait? || phase.Kill? || (Alive(h, t.who) ==> t.who in killed))
    && (phase.AskChildren? || phase.KillChildren? ==> phase.todo <= Family(t))
  }

  ghost predicate StageOk(h: Host, ledger: seq<Entry>, launched: set<(string, Identity)>, w: Worker) {
    w.stage.Between? || w.stage.Leaving? ||
    (Fits(w, ledger) && if w.jobs[0].StartJob? then StartOk(h, ledger, launched, w) else StopOk(h, ledger, w))
  }

  ghost predicate StartOk(h: Host, ledger: seq<Entry>, launched: set<(string, Identity)>, w: Worker)
    requires Fits(w, ledger) && w.jobs[0].StartJob?
  {
    var name := w.jobs[0].name;
    match w.stage
    case StartPopen(checked) => Rejected(h, ledger, name, checked)
    case StartPoll(checked, who) => Rejected(h, ledger, name, checked) && Unrecorded(h, launched, checked, who)
    case StartDescribe(checked, who) => Rejected(h, ledger, name, checked) && Unrecorded(h, launched, checked, who)
    case StartWrite(checked, record) =>
      && Rejected(h, ledger, name, checked) && Unrecorded(h, launched, checked, Who(record))
      && record.revision == w.jobs[0].revision
    case _ => true
  }

  ghost predicate StopOk(h: Host, ledger: seq<Entry>, w: Worker)
    requires Fits(w, ledger) && w.jobs[0].StopJob?
  {
    var names := w.jobs[0].names;
    match w.stage
    case StopNext(left) => Dealt(h, ledger, names, left, w.killed)
    case StopBoot(i) => Dealt(h, ledger, names, i + 1, w.killed)
    case StopExists(i) => Dealt(h, ledger, names, i + 1, w.killed)
    case StopLookup(i, found) =>
      Dealt(h, ledger, names, i + 1, w.killed) && CheckedOwned(ledger[i].record, found) && Evolves(found, h)
    case StopList(i, t) =>
      Dealt(h, ledger, names, i + 1, w.killed) && t.record == ledger[i].record && Taken(t) && Evolves(t.taken, h)
    case StopTurn(i, t, phase) =>
      Dealt(h, ledger, names, i + 1, w.killed) && TurnOk(h, ledger[i].record, t, phase, w.killed)
    case _ => true
  }

  /** A signal goes to the family of the target of a turn on a process that was recorded at some time. */
  ghost predicate Accounted(s: Sent, launched: set<(string, Identity)>) {
    && Sound(s.on) && s.signal.to in Family(s.on)
    && exists n :: (n, Who(s.on.record)) in launched
  }

  ghost predicate LedgerInv(s: State) {
    L.Inv(s.lock, [], Apply) && Sane(s.host, s.lock.ledger, s.launched)
  }

  ghost predicate CrewInv(s: State) {
    && s.workers.Keys == s.lock.running.Keys
    && (forall c ::
        c in s.workers && !L.IsInside(s.lock, c) ==> s.workers[c].stage.Between? && s.workers[c].killed == {})
    && (forall c :: Working(s, c) ==> WorkerOk(s, c))
  }

  ghost predicate LogInv(s: State) {
    forall i :: 0 <= i < |s.log| ==> Accounted(s.log[i], s.launched)
  }

  ghost predicate Inv(s: State) {
    LedgerInv(s) && CrewInv(s) && LogInv(s)
  }

  ghost predicate WorkerOk(s: State, c: Command)
    requires Working(s, c)
  {
    && StageOk(s.host, s.lock.ledger, s.launched, s.workers[c])
    && (s.workers[c].stage.Between? || s.workers[c].stage.Leaving? || s.lock.running[c].copy.Some?)
    && forall x :: x in s.workers[c].killed ==> KilledBy(s.log, c, x)
  }

  ghost predicate KilledBy(log: seq<Sent>, c: Command, x: Identity) {
    exists i :: 0 <= i < |log| && log[i].sender == c && log[i].signal == Signal(x, true)
  }

  // ----- A worker's step keeps it ----------------------------------------------------------------

  lemma DealtEvolves(h: Host, h': Host, ledger: seq<Entry>, launched: set<(string, Identity)>,
                     names: Option<set<string>>, i: nat, killed: set<Identity>)
    requires Sane(h, ledger, launched) && Evolves(h, h') && Dealt(h, ledger, names, i, killed)
    ensures Dealt(h', ledger, names, i, killed)
  {
    forall k | i <= k < |ledger| && Selected(names, ledger[k].name) && Alive(h', Who(ledger[k].record))
      ensures Who(ledger[k].record) in killed
    {
      assert (ledger[k].name, Who(ledger[k].record)) in launched;
    }
  }

  lemma RejectedEvolves(h: Host, h': Host, ledger: seq<Entry>, name: string, checked: Check)
    requires Rejected(h, ledger, name, checked) && Evolves(h, h')
    ensures Rejected(h', ledger, name, checked)
  {
    EvolvesTransitive(checked.host, h, h');
  }

  lemma StartEvolves(h: Host, h': Host, ledger: seq<Entry>, launched: set<(string, Identity)>, w: Worker)
    requires Fits(w, ledger) && w.jobs[0].StartJob? && StartOk(h, ledger, launched, w) && Evolves(h, h')
    ensures StartOk(h', ledger, launched, w)
  {
    match w.stage
    case StartPopen(checked) => RejectedEvolves(h, h', ledger, w.jobs[0].name, checked);
    case StartPoll(checked, _) => RejectedEvolves(h, h', ledger, w.jobs[0].name, checked);
    case StartDescribe(checked, _) => RejectedEvolves(h, h', ledger, w.jobs[0].name, checked);
    case StartWrite(checked, _) => RejectedEvolves(h, h', ledger, w.jobs[0].name, checked);
    case _ =>
  }

  lemma TurnEvolves(h: Host, h': Host, r: Record, t: Target, phase: Phase, killed: set<Identity>)
    requires TurnOk(h, r, t, phase, killed) && Evolves(h, h')
    ensures TurnOk(h', r, t, phase, killed)
  {
    EvolvesTransitive(t.listed, h, h');
  }

  lemma StopEvolves(h: Host, h': Host, ledger: seq<Entry>, launched: set<(string, Identity)>, w: Worker)
    requires Sane(h, ledger, launched) && Evolves(h, h')
    requires Fits(w, ledger) && w.jobs[0].StopJob? && StopOk(h, ledger, w)
    ensures StopOk(h', ledger, w)
  {
    var names := w.jobs[0].names;
    match w.stage
    case StopNext(left) => DealtEvolves(h, h', ledger, launched, names, left, w.killed);
    case StopBoot(i) => DealtEvolves(h, h', ledger, launched, names, i + 1, w.killed);
    case StopExists(i) => DealtEvolves(h, h', ledger, launched, names, i + 1, w.killed);
    case StopLookup(i, found) =>
      DealtEvolves(h, h', ledger, launched, names, i + 1, w.killed);
      EvolvesTransitive(found, h, h');
    case StopList(i, t) =>
      DealtEvolves(h, h', ledger, launched, names, i + 1, w.killed);
      EvolvesTransitive(t.taken, h, h');
    case StopTurn(i, t, phase) =>
      DealtEvolves(h, h', ledger, launched, names, i + 1, w.killed);
      TurnEvolves(h, h', ledger[i].record, t, phase, w.killed);
    case _ =>
  }

  lemma StageEvolves(h: Host, h': Host, ledger: seq<Entry>, launched: set<(string, Identity)>, w: Worker)
    requires Sane(h, ledger, launched) && Evolves(h, h') && StageOk(h, ledger, launched, w)
    ensures StageOk(h', ledger, launched, w)
  {
    if !w.stage.Between? && !w.stage.Leaving? {
      if w.jobs[0].StartJob? {
        StartEvolves(h, h', ledger, launched, w);
      } else {
        StopEvolves(h, h', ledger, launched, w);
      }
    }
  }

  lemma AdvanceStartOk(h: Host, ledger: seq<Entry>, launched: set<(string, Identity)>, w: Worker)
    requires Sane(h, ledger, launched) && Fits(w, ledger) && w.jobs[0].StartJob? && StartOk(h, ledger, launched, w)
    ensures var m := AdvanceStart(h, ledger, w);
            && StageOk(h, ledger, launched, m.next) && m.signal.None? && m.next.killed <= w.killed
            && (m.update.Some? ==> m.next.stage.Between? && m.update.value.Recorded?)
  {
    HostStays(h);
    if w.stage.StartCheck? {
      var before := Find(ledger, w.jobs[0].name);
      assert before.Some? ==> (w.jobs[0].name, Who(before.value)) in launched;
    }
  }

  lemma AllSeen(h: Host, ledger: seq<Entry>, launched: set<(string, Identity)>, i: nat)
    requires Sane(h, ledger, launched) && i < |ledger|
    ensures Who(ledger[i].record) in h.seen && (ledger[i].name, Who(ledger[i].record)) in launched
  {
    assert (ledger[i].name, Who(ledger[i].record)) in launched;
  }

  /** A turn is over: its record is dealt with as well. */
  lemma TurnDeals(h: Host, ledger: seq<Entry>, names: Option<set<string>>, i: nat, killed: set<Identity>)
    requires i < |ledger| && Dealt(h, ledger, names, i + 1, killed)
    requires Alive(h, Who(ledger[i].record)) ==> Who(ledger[i].record) in killed
    ensures Dealt(h, ledger, names, i, killed)
  {
  }

  /**
   When a turn's parent is dealt with, so is the record: either it is that process, or it was gone when it
   was taken.
   */
  lemma ParentDeals(h: Host, r: Record, t: Target, phase: Phase, killed: set<Identity>)
    requires TurnOk(h, r, t, phase, killed) && !phase.Ask? && !phase.Wait? && !phase.Kill?
    ensures Alive(h, Who(r)) ==> Who(r) in killed
  {
    if t.who != Who(r) {
      OtherTargetMeansGone(t);
      EvolvesTransitive(t.taken, t.listed, h);
    }
  }

  /** The record is not owned: it is passed over when it is plainly gone. */
  lemma PassedOverOk(h: Host, ledger: seq<Entry>, launched: set<(string, Identity)>, w: Worker, i: nat)
    requires Sane(h, ledger, launched) && Fits(w, ledger) && w.jobs[0].StopJob? && i < |ledger|
    requires Dealt(h, ledger, w.jobs[0].names, i + 1, w.killed)
    requires ledger[i].record.created < h.boot || ledger[i].record.pid !in h.live
    ensures StageOk(h, ledger, launched, w.(stage := StopNext(i)))
  {
    TurnDeals(h, ledger, w.jobs[0].names, i, w.killed);
  }

  lemma NextRecordOk(h: Host, ledger: seq<Entry>, launched: set<(string, Identity)>, w: Worker)
    requires Sane(h, ledger, launched) && Fits(w, ledger) && w.jobs[0].StopJob? && StopOk(h, ledger, w)
    requires w.stage.StopNext? && w.stage.left > 0
    ensures StageOk(h, ledger, launched, AdvanceStop(h, ledger, w).next)
  {
    HostStays(h);
    AllSeen(h, ledger, launched, w.stage.left - 1);
  }

  lemma LookupOk(h: Host, ledger: seq<Entry>, launched: set<(string, Identity)>, w: Worker)
    requires Sane(h, ledger, launched) && Fits(w, ledger) && w.jobs[0].StopJob? && StopOk(h, ledger, w)
             && w.stage.StopLookup?
    ensures StageOk(h, ledger, launched, AdvanceStop(h, ledger, w).next)
  {
    HostStays(h);
  }

  lemma ListOk(h: Host, ledger: seq<Entry>, launched: set<(string, Identity)>, w: Worker)
    requires Sane(h, ledger, launched) && Fits(w, ledger) && w.jobs[0].StopJob? && StopOk(h, ledger, w)
             && w.stage.StopList?
    ensures StageOk(h, ledger, launched, AdvanceStop(h, ledger, w).next)
  {
    HostStays(h);
  }

  /** The steps of a stop up to the listing of descendants. */
  lemma EarlyStopOk(h: Host, ledger: seq<Entry>, launched: set<(string, Identity)>, w: Worker)
    requires Sane(h, ledger, launched) && Fits(w, ledger) && w.jobs[0].StopJob? && StopOk(h, ledger, w)
             && !w.stage.StopTurn?
    ensures StageOk(h, ledger, launched, AdvanceStop(h, ledger, w).next)
  {
    match w.stage
    case StopNext(left) =>
      if left > 0 {
        NextRecordOk(h, ledger, launched, w);
      }
    case StopBoot(i) =>
      if ledger[i].record.created < h.boot {
        PassedOverOk(h, ledger, launched, w, i);
      }
    case StopExists(i) =>
      if ledger[i].record.pid !in h.live {
        PassedOverOk(h, ledger, launched, w, i);
      }
    case StopLookup(_, _) => LookupOk(h, ledger, launched, w);
    case StopList(_, _) => ListOk(h, ledger, launched, w);
    case _ =>
  }

  /** Before its turns a stop sends nothing, and it rewrites the ledger only at its end. */
  lemma EarlyStopMoves(h: Host, ledger: seq<Entry>, w: Worker)
    requires Fits(w, ledger) && w.jobs[0].StopJob? && !w.stage.StopTurn?
    ensures var m := AdvanceStop(h, ledger, w);
            && m.signal.None? && m.next.killed <= w.killed
            && (m.update.Some? <==> w.stage == StopNext(0))
            && (m.update.Some? ==> m == Move(NextJob(w), None, Some(Dropped(w.jobs[0].names))))
  {
  }

  /** What a step inside a turn may do to its target and to the account of SIGKILLs. */
  ghost predicate TurnMove(w: Worker, m: Move, t: Target) {
    && m.update.None?
    && (m.signal.Some? ==> m.signal.value.1 == t && m.signal.value.0.to in Family(t))
    && m.next.killed == if m.signal.Some? && m.signal.value.0.kill then w.killed + {m.signal.value.0.to} else w.killed
  }

  lemma TurnStepMoves(h: Host, w: Worker, i: nat, t: Target, phase: Phase)
    requires w.stage == StopTurn(i, t, phase)
    ensures TurnMove(w, AdvanceTurn(h, w, i, t, phase), t)
  {
  }

  lemma PickMoves(h: Host, w: Worker, x: Identity)
    requires w.stage.StopTurn?
             && (w.stage.phase.AskChildren? || w.stage.phase.KillChildren? ==> w.stage.phase.todo <= Family(w.stage.t))
    ensures TurnMove(w, PickChild(h, w, x), w.stage.t)
  {
  }

  lemma TurnGoesOn(h: Host, r: Record, t: Target, phase: Phase, killed: set<Identity>, phase': Phase,
                   killed': set<Identity>)
    requires TurnOk(h, r, t, phase, killed)
    requires phase'.Ask? || phase'.Wait? || phase'.Kill? || (Alive(h, t.who) ==> t.who in killed')
    requires phase'.AskChildren? || phase'.KillChildren? ==> phase'.todo <= Family(t)
    ensures TurnOk(h, r, t, phase', killed')
  {
  }

  lemma DealtGrows(h: Host, ledger: seq<Entry>, names: Option<set<string>>, i: nat, killed: set<Identity>,
                   killed': set<Identity>)
    requires Dealt(h, ledger, names, i, killed) && killed <= killed'
    ensures Dealt(h, ledger, names, i, killed')
  {
  }

  /** A worker in the middle of a turn is in order. */
  lemma InTurn(h: Host, ledger: seq<Entry>, launched: set<(string, Identity)>, w: Worker)
    requires w.stage.StopTurn? && Fits(w, ledger)
    ensures StageOk(h, ledger, launched, w) <==>
            && Dealt(h, ledger, w.jobs[0].names, w.stage.i + 1, w.killed)
            && TurnOk(h, ledger[w.stage.i].record, w.stage.t, w.stage.phase, w.killed)
  {
  }

  /** A turn goes on to another phase. */
  lemma PhaseOk(h: Host, ledger: seq<Entry>, launched: set<(string, Identity)>, w: Worker, phase: Phase,
                killed: set<Identity>)
    requires Fits(w, ledger) && StageOk(h, ledger, launched, w) && w.stage.StopTurn? && w.killed <= killed
    requires phase.Ask? || phase.Wait? || phase.Kill? || (Alive(h, w.stage.t.who) ==> w.stage.t.who in killed)
    requires phase.AskChildren? || phase.KillChildren? ==> phase.todo <= Family(w.stage.t)
    ensures StageOk(h, ledger, launched, w.(stage := StopTurn(w.stage.i, w.stage.t, phase), killed := killed))
  {
    InTurn(h, ledger, launched, w);
    TurnGoesOn(h, ledger[w.stage.i].record, w.stage.t, w.stage.phase, w.killed, phase, killed);
    DealtGrows(h, ledger, w.jobs[0].names, w.stage.i + 1, w.killed, killed);
    InTurn(h, ledger, launched, w.(stage := StopTurn(w.stage.i, w.stage.t, phase), killed := killed));
  }

  /** A turn is over. */
  lemma TurnOverOk(h: Host, ledger: seq<Entry>, launched: set<(string, Identity)>, w: Worker)
    requires Fits(w, ledger) && StageOk(h, ledger, launched, w) && w.stage.StopTurn? && w.stage.phase.KillChildren?
    ensures StageOk(h, ledger, launched, w.(stage := StopNext(w.stage.i)))
  {
    InTurn(h, ledger, launched, w);
    ParentDeals(h, ledger[w.stage.i].record, w.stage.t, w.stage.phase, w.killed);
    TurnDeals(h, ledger, w.jobs[0].names, w.stage.i, w.killed);
  }

  lemma ParentStepOk(h: Host, ledger: seq<Entry>, launched: set<(string, Identity)>, w: Worker)
    requires Fits(w, ledger) && StageOk(h, ledger, launched, w) && w.stage.StopTurn?
    requires w.stage.phase.Ask? || w.stage.phase.Wait? || w.stage.phase.Kill?
    ensures StageOk(h, ledger, launched, AdvanceTurn(h, w, w.stage.i, w.stage.t, w.stage.phase).next)
  {
    var t, phase := w.stage.t, w.stage.phase;
    var children := Descendants(t.listed, t.who);
    match phase
    case Ask => PhaseOk(h, ledger, launched, w, Wait, w.killed);
    case Wait => PhaseOk(h, ledger, launched, w, if Alive(h, t.who) then Kill else AskChildren(children), w.killed);
    case Kill => PhaseOk(h, ledger, launched, w, AskChildren(children), w.killed + {t.who});
    case _ =>
  }

  /** Where the two steps between the parent and the end of a turn lead. */
  lemma ChildrenNext(h: Host, w: Worker)
    requires w.stage.StopTurn? && (w.stage.phase.AskChildren? || w.stage.phase.WaitChildren?)
    ensures var i, t, phase := w.stage.i, w.stage.t, w.stage.phase;
            AdvanceTurn(h, w, i, t, phase).next ==
            if phase.WaitChildren? then w.(stage := StopTurn(i, t, KillChildren(Outliving(h, t))), killed := w.killed)
            else if phase.todo == {} then w.(stage := StopTurn(i, t, WaitChildren), killed := w.killed)
            else w
  {
  }

  lemma ChildrenStepOk(h: Host, ledger: seq<Entry>, launched: set<(string, Identity)>, w: Worker)
    requires Fits(w, ledger) && StageOk(h, ledger, launched, w) && w.stage.StopTurn?
    requires w.stage.phase.AskChildren? || w.stage.phase.WaitChildren?
    ensures StageOk(h, ledger, launched, AdvanceTurn(h, w, w.stage.i, w.stage.t, w.stage.phase).next)
  {
    ChildrenNext(h, w);
    assert Alive(h, w.stage.t.who) ==> w.stage.t.who in w.killed by { InTurn(h, ledger, launched, w); }
    if w.stage.phase.WaitChildren? {
      PhaseOk(h, ledger, launched, w, KillChildren(Outliving(h, w.stage.t)), w.killed);
    } else if w.stage.phase.todo == {} {
      PhaseOk(h, ledger, launched, w, WaitChildren, w.killed);
    }
  }

  /** The steps of a turn, waits included, short of the signals to children. */
  lemma TurnStepOk(h: Host, ledger: seq<Entry>, launched: set<(string, Identity)>, w: Worker)
    requires Fits(w, ledger) && StageOk(h, ledger, launched, w) && w.stage.StopTurn?
    ensures StageOk(h, ledger, launched, AdvanceTurn(h, w, w.stage.i, w.stage.t, w.stage.phase).next)
  {
    match w.stage.phase
    case KillChildren(_) => TurnOverOk(h, ledger, launched, w);
    case Ask => ParentStepOk(h, ledger, launched, w);
    case Wait => ParentStepOk(h, ledger, launched, w);
    case Kill => ParentStepOk(h, ledger, launched, w);
    case _ => ChildrenStepOk(h, ledger, launched, w);
  }

  /** Where a picked child leaves the worker. */
  lemma PickNext(h: Host, w: Worker, x: Identity)
    requires w.stage.StopTurn?
    ensures var m, phase := PickChild(h, w, x).next, w.stage.phase;
            m == if phase.AskChildren? && x in phase.todo
                 then w.(stage := StopTurn(w.stage.i, w.stage.t, AskChildren(phase.todo - {x})), killed := w.killed)
                 else if phase.KillChildren? && x in phase.todo
                 then w.(stage := StopTurn(w.stage.i, w.stage.t, KillChildren(phase.todo - {x})),
                         killed := if Alive(h, x) then w.killed + {x} else w.killed)
                 else w
  {
  }

  lemma PickOk(h: Host, ledger: seq<Entry>, launched: set<(string, Identity)>, w: Worker, x: Identity)
    requires Fits(w, ledger) && StageOk(h, ledger, launched, w) && w.stage.StopTurn?
    ensures StageOk(h, ledger, launched, PickChild(h, w, x).next)
  {
    PickNext(h, w, x);
    var phase := w.stage.phase;
    if phase.AskChildren? && x in phase.todo {
      PhaseOk(h, ledger, launched, w, AskChildren(phase.todo - {x}), w.killed);
    } else if phase.KillChildren? && x in phase.todo {
      PhaseOk(h, ledger, launched, w, KillChildren(phase.todo - {x}), if Alive(h, x) then w.killed + {x} else w.killed);
    }
  }

  // ----- Every step keeps it ---------------------------------------------------------------------

  lemma OneWorking(s: State, c: Command, d: Command)
    requires LedgerInv(s) && Working(s, c) && Working(s, d)
    ensures c == d
  {
  }

  lemma LogGrows(log: seq<Sent>, log': seq<Sent>, c: Command, x: Identity)
    requires log <= log' && KilledBy(log, c, x)
    ensures KilledBy(log', c, x)
  {
    var i :| 0 <= i < |log| && log[i].sender == c && log[i].signal == Signal(x, true);
    assert log'[i] == log[i];
  }

  /** What makes a move of a working command acceptable. */
  ghost predicate MoveOk(s: State, c: Command, m: Move) {
    && StageOk(s.host, s.lock.ledger, s.launched, m.next)
    && (m.update.Some? ==> m.next.stage.Between?)
    && (m.update.Some? && m.update.value.Recorded? ==> Who(m.update.value.entry.record) in s.host.seen)
    && (m.signal.Some? ==> Accounted(Sent(c, m.signal.value.0, m.signal.value.1), s.launched))
    && (forall x :: x in m.next.killed ==> KilledBy(Perform(s, c, m).log, c, x))
  }

  lemma PerformKeepsLedger(s: State, c: Command, m: Move)
    requires Inv(s) && AtWork(s, c) && MoveOk(s, c, m)
    ensures LedgerInv(Perform(s, c, m))
  {
    if m.update.Some? {
      L.StepKeepsInv(s.lock, L.Write(c, m.update.value), [], Apply);
      match m.update.value
      case Recorded(e) => PutSane(s.host, s.lock.ledger, s.launched, e);
      case Dropped(names) => KeptSane(s.host, s.lock.ledger, s.launched, names);
    }
  }

  lemma PerformKeepsCrew(s: State, c: Command, m: Move)
    requires Inv(s) && AtWork(s, c) && MoveOk(s, c, m)
    ensures CrewInv(Perform(s, c, m))
  {
    var s' := Perform(s, c, m);
    forall d | Working(s', d) ensures WorkerOk(s', d) {
      assert Working(s, d);
      OneWorking(s, c, d);
    }
  }

  lemma PerformKeepsLog(s: State, c: Command, m: Move)
    requires LogInv(s) && (m.signal.Some? ==> Accounted(Sent(c, m.signal.value.0, m.signal.value.1), s.launched))
    ensures LogInv(Perform(s, c, m))
  {
    var s' := Perform(s, c, m);
    forall i | 0 <= i < |s'.log| ensures Accounted(s'.log[i], s'.launched) {
      var x := s'.log[i];
      assert Accounted(x, s.launched);
      var n :| (n, Who(x.on.record)) in s.launched;
      assert (n, Who(x.on.record)) in s'.launched;
    }
  }

  lemma PerformKeepsInv(s: State, c: Command, m: Move)
    requires Inv(s) && AtWork(s, c) && MoveOk(s, c, m)
    ensures Inv(Perform(s, c, m))
  {
    PerformKeepsLedger(s, c, m);
    PerformKeepsCrew(s, c, m);
    PerformKeepsLog(s, c, m);
  }

  /** The killed of a move are those already logged, and the one it logs. */
  lemma KilledStayLogged(s: State, c: Command, m: Move)
    requires Working(s, c) && WorkerOk(s, c)
    requires forall x :: x in m.next.killed ==>
      x in s.workers[c].killed || (m.signal.Some? && m.signal.value.0 == Signal(x, true))
    ensures forall x :: x in m.next.killed ==> KilledBy(Perform(s, c, m).log, c, x)
  {
    var log' := Perform(s, c, m).log;
    forall x | x in m.next.killed ensures KilledBy(log', c, x) {
      if x in s.workers[c].killed {
        LogGrows(s.log, log', c, x);
      } else {
        assert log'[|s.log|].sender == c && log'[|s.log|].signal == Signal(x, true);
      }
    }
  }

  lemma StartMoveOk(s: State, c: Command)
    requires Inv(s) && AtWork(s, c) && s.workers[c].jobs[0].StartJob?
    requires !s.workers[c].stage.Between? && !s.workers[c].stage.Leaving?
    ensures MoveOk(s, c, AdvanceStart(s.host, s.lock.ledger, s.workers[c]))
  {
    var m := AdvanceStart(s.host, s.lock.ledger, s.workers[c]);
    AdvanceStartOk(s.host, s.lock.ledger, s.launched, s.workers[c]);
    KilledStayLogged(s, c, m);
  }

  lemma TurnAccounted(s: State, c: Command, m: Move)
    requires Inv(s) && AtWork(s, c) && s.workers[c].stage.StopTurn? && TurnMove(s.workers[c], m, s.workers[c].stage.t)
    ensures m.signal.Some? ==> Accounted(Sent(c, m.signal.value.0, m.signal.value.1), s.launched)
    ensures forall x :: x in m.next.killed ==> KilledBy(Perform(s, c, m).log, c, x)
  {
    AllSeen(s.host, s.lock.ledger, s.launched, s.workers[c].stage.i);
    KilledStayLogged(s, c, m);
  }

  lemma StopMoveOk(s: State, c: Command)
    requires Inv(s) && AtWork(s, c) && s.workers[c].jobs[0].StopJob?
    requires !s.workers[c].stage.Between? && !s.workers[c].stage.Leaving?
    ensures MoveOk(s, c, AdvanceStop(s.host, s.lock.ledger, s.workers[c]))
  {
    var w := s.workers[c];
    var m := AdvanceStop(s.host, s.lock.ledger, w);
    if w.stage.StopTurn? {
      TurnStepOk(s.host, s.lock.ledger, s.launched, w);
      TurnStepMoves(s.host, w, w.stage.i, w.stage.t, w.stage.phase);
      TurnAccounted(s, c, m);
    } else {
      EarlyStopOk(s.host, s.lock.ledger, s.launched, w);
      EarlyStopMoves(s.host, s.lock.ledger, w);
      KilledStayLogged(s, c, m);
    }
  }

  /** Whatever raises, a stop or a start goes on as from a check that failed, or leaves. */
  lemma FaultedOk(h: Host, ledger: seq<Entry>, launched: set<(string, Identity)>, w: Worker)
    requires Sane(h, ledger, launched) && Fits(w, ledger) && StageOk(h, ledger, launched, w)
    ensures StageOk(h, ledger, launched, Faulted(h, ledger, w).next)
  {
    if w.stage.StartCheck? {
      HostStays(h);
      var before := Find(ledger, w.jobs[0].name);
      assert before.Some? ==> (w.jobs[0].name, Who(before.value)) in launched;
    }
  }

  lemma FaultMoves(h: Host, ledger: seq<Entry>, w: Worker)
    requires Fits(w, ledger)
    ensures var m := Faulted(h, ledger, w); m.update.None? && m.signal.None? && m.next.killed == w.killed
  {
  }

  lemma FaultMoveOk(s: State, c: Command)
    requires Inv(s) && AtWork(s, c)
    ensures MoveOk(s, c, Faulted(s.host, s.lock.ledger, s.workers[c]))
  {
    var m := Faulted(s.host, s.lock.ledger, s.workers[c]);
    assert WorkerOk(s, c);
    FaultedOk(s.host, s.lock.ledger, s.launched, s.workers[c]);
    FaultMoves(s.host, s.lock.ledger, s.workers[c]);
    KilledStayLogged(s, c, m);
  }

  lemma FaultKeepsInv(s: State, c: Command)
    requires Inv(s) && AtWork(s, c)
    ensures Inv(Next(s, Fault(c)))
  {
    CopyIsLedger(s, c);
    FaultMoveOk(s, c);
    PerformKeepsInv(s, c, Faulted(s.host, s.lock.ledger, s.workers[c]));
  }

  lemma PickKeepsInv(s: State, c: Command, x: Identity)
    requires Inv(s) && AtWork(s, c)
    ensures Inv(Perform(s, c, PickChild(s.host, s.workers[c], x)))
  {
    var w := s.workers[c];
    var m := PickChild(s.host, w, x);
    if w.stage.StopTurn? {
      PickOk(s.host, s.lock.ledger, s.launched, w, x);
      PickMoves(s.host, w, x);
      TurnAccounted(s, c, m);
    } else {
      KilledStayLogged(s, c, m);
    }
    PerformKeepsInv(s, c, m);
  }

  lemma BeginKeepsInv(s: State, c: Command)
    requires Inv(s) && Working(s, c) && s.workers[c].stage.Between?
    ensures Inv(BeginJob(s, c))
  {
    L.StepKeepsInv(s.lock, L.Read(c), [], Apply);
    var s' := BeginJob(s, c);
    forall d | Working(s', d) ensures WorkerOk(s', d) {
      assert Working(s, d);
      OneWorking(s, c, d);
    }
  }

  lemma LeaveKeepsInv(s: State, c: Command)
    requires Inv(s) && Working(s, c)
    ensures Inv(s.(lock := L.Next(s.lock, L.Leave(c), Apply), workers := s.workers - {c}))
  {
    L.StepKeepsInv(s.lock, L.Leave(c), [], Apply);
    forall d | Working(s, d) ensures d == c {
      OneWorking(s, c, d);
    }
  }

  lemma GoKeepsInv(s: State, c: Command)
    requires Inv(s) && Working(s, c)
    ensures Inv(GoOn(s, c))
  {
    var w := s.workers[c];
    if w.stage.Between? {
      BeginKeepsInv(s, c);
    } else if w.stage.Leaving? {
      LeaveKeepsInv(s, c);
    } else if AtWork(s, c) {
      if w.jobs[0].StartJob? {
        StartMoveOk(s, c);
      } else {
        StopMoveOk(s, c);
      }
      PerformKeepsInv(s, c, Advance(s.host, s.lock.ledger, w));
    }
  }

  lemma OsKeepsInv(s: State, next: Host)
    requires Inv(s) && Evolves(s.host, next)
    ensures Inv(s.(host := next))
  {
    SaneEvolves(s.host, next, s.lock.ledger, s.launched);
    var s' := s.(host := next);
    forall c | Working(s', c) ensures WorkerOk(s', c) {
      assert Working(s, c) && WorkerOk(s, c);
      StageEvolves(s.host, next, s.lock.ledger, s.launched, s.workers[c]);
    }
  }

  lemma PopenKeepsInv(s: State, c: Command, who: Identity)
    requires Inv(s) && Working(s, c)
    ensures Inv(Spawned(s, c, who))
  {
    var s' := Spawned(s, c, who);
    if s' != s {
      var between := s.(host := s'.host);
      OsKeepsInv(s, s'.host);
      assert WorkerOk(between, c);
      forall n ensures (n, who) !in s.launched {
        assert (n, who) in s.launched ==> who in s.host.seen;
      }
      forall d | Working(s', d) ensures WorkerOk(s', d) {
        assert Working(s, d);
        OneWorking(s, c, d);
      }
    }
  }

  lemma EnterKeepsInv(s: State, c: Command)
    requires Inv(s)
    ensures Inv(EnterLock(s, c))
  {
    var s' := EnterLock(s, c);
    if s' != s {
      L.StepKeepsInv(s.lock, L.Enter(c), [], Apply);
      forall d | Working(s', d) ensures WorkerOk(s', d) {
        assert d != c ==> Working(s, d) && WorkerOk(s, d);
      }
    }
  }

  lemma LaunchKeepsInv(s: State, c: Command, jobs: seq<Job>)
    requires Inv(s)
    ensures Inv(Next(s, Launch(c, jobs)))
  {
    var s' := Next(s, Launch(c, jobs));
    L.StepKeepsInv(s.lock, L.Launch(c), [], Apply);
    forall d | Working(s', d) ensures WorkerOk(s', d) {
      assert Working(s, d) && WorkerOk(s, d);
    }
  }

  lemma DieKeepsInv(s: State, c: Command)
    requires Inv(s)
    ensures Inv(Next(s, Die(c)))
  {
    var s' := Next(s, Die(c));
    L.StepKeepsInv(s.lock, L.Die(c), [], Apply);
    forall d | Working(s', d) ensures WorkerOk(s', d) {
      assert Working(s, d) && WorkerOk(s, d);
    }
  }

  lemma RemoveLockKeepsInv(s: State)
    requires Inv(s) && CarefulStep(s, RemoveLock)
    ensures Inv(Next(s, RemoveLock))
  {
    L.StepKeepsInv(s.lock, L.RemoveLock, [], Apply);
  }

  lemma StepKeepsInv(s: State, a: Action)
    requires Inv(s) && CarefulStep(s, a)
    ensures Inv(Next(s, a))
  {
    match a
    case Go(c) => if Working(s, c) { GoKeepsInv(s, c); }
    case Fault(c) => if AtWork(s, c) { FaultKeepsInv(s, c); }
    case Popen(c, who) => if Working(s, c) { PopenKeepsInv(s, c, who); }
    case Pick(c, x) => if AtWork(s, c) { PickKeepsInv(s, c, x); }
    case Os(next) => if Evolves(s.host, next) { OsKeepsInv(s, next); }
    case Enter(c) => EnterKeepsInv(s, c);
    case Launch(c, jobs) => LaunchKeepsInv(s, c, jobs);
    case Die(c) => DieKeepsInv(s, c);
    case RemoveLock => RemoveLockKeepsInv(s);
  }

  lemma FreshInv(h: Host)
    requires Valid(h)
    ensures Inv(Fresh(h))
  {
    assert forall c: Command :: !L.IsInside(Fresh(h).lock, c);
  }

  lemma {:induction false} StepsKeepInv(s: State, actions: seq<Action>)
    requires Inv(s) && Careful(s, actions)
    ensures Inv(Steps(s, actions))
    decreases |actions|
  {
    if actions != [] {
      StepKeepsInv(s, actions[0]);
      StepsKeepInv(Next(s, actions[0]), actions[1..]);
    }
  }

  // ----- Orphans ---------------------------------------------------------------------------------

  ghost predicate Orphaned(s: State, n: string, x: Identity) {
    Orphan(s.host, s.lock.ledger, s.launched, n, x)
  }

  /** The step records a process over x, which was recorded and did not pass the check though alive. */
  ghost predicate StartDrops(s: State, a: Action, n: string, x: Identity) {
    && a.Go? && AtWork(s, a.c) && s.workers[a.c].stage.StartWrite? && n == s.workers[a.c].jobs[0].name
    && OutlivesCheck(Find(s.lock.ledger, n), s.workers[a.c].stage.checked, x)
  }

  /** The step ends a stop that had selected x's record and sent x SIGKILL. */
  ghost predicate StopDrops(s: State, a: Action, n: string, x: Identity) {
    && a.Go? && AtWork(s, a.c) && s.workers[a.c].stage == StopNext(0) && Selected(s.workers[a.c].jobs[0].names, n)
    && Listed(s.lock.ledger, n, x) && x in s.workers[a.c].killed
  }

  ghost predicate Drops(s: State, a: Action, n: string, x: Identity) {
    StartDrops(s, a, n, x) || StopDrops(s, a, n, x)
  }

  lemma HostEvolves(s: State, a: Action)
    requires Valid(s.host)
    ensures Evolves(s.host, Next(s, a).host)
  {
    HostStays(s.host);
  }

  lemma CopyIsLedger(s: State, c: Command)
    requires LedgerInv(s) && AtWork(s, c)
    ensures s.lock.running[c].copy.value == s.lock.ledger
  {
  }

  lemma PerformEffect(s: State, c: Command, m: Move)
    requires AtWork(s, c) && m.update.Some?
    ensures Perform(s, c, m).lock.ledger == Apply(m.update.value, s.lock.running[c].copy.value)
    ensures var u := m.update.value;
            Perform(s, c, m).launched ==
            if u.Recorded? then s.launched + {(u.entry.name, Who(u.entry.record))} else s.launched
  {
  }

  lemma StartWriteEffect(s: State, c: Command)
    requires LedgerInv(s) && AtWork(s, c) && s.workers[c].stage.StartWrite?
    ensures var e := Entry(s.workers[c].jobs[0].name, s.workers[c].stage.record); var s' := Next(s, Go(c));
            s'.lock.ledger == Put(s.lock.ledger, e) && s'.launched == s.launched + {(e.name, Who(e.record))}
  {
    var w := s.workers[c];
    var e := Entry(w.jobs[0].name, w.stage.record);
    CopyIsLedger(s, c);
    assert Advance(s.host, s.lock.ledger, w) == Move(NextJob(w), None, Some(Recorded(e)));
    PerformEffect(s, c, Move(NextJob(w), None, Some(Recorded(e))));
  }

  lemma StopWriteEffect(s: State, c: Command)
    requires LedgerInv(s) && AtWork(s, c) && s.workers[c].stage == StopNext(0)
    ensures Next(s, Go(c)).lock.ledger == Kept(s.lock.ledger, s.workers[c].jobs[0].names)
  {
    var w := s.workers[c];
    CopyIsLedger(s, c);
    assert Advance(s.host, s.lock.ledger, w) == Move(NextJob(w), None, Some(Dropped(w.jobs[0].names)));
    PerformEffect(s, c, Move(NextJob(w), None, Some(Dropped(w.jobs[0].names))));
  }

  lemma DealtAreKilled(h: Host, ledger: seq<Entry>, names: Option<set<string>>, killed: set<Identity>)
    requires Dealt(h, ledger, names, 0, killed)
    ensures forall e :: e in ledger && Selected(names, e.name) && Alive(h, Who(e.record)) ==> Who(e.record) in killed
  {
    forall e | e in ledger && Selected(names, e.name) && Alive(h, Who(e.record)) ensures Who(e.record) in killed {
      var k :| 0 <= k < |ledger| && ledger[k] == e;
    }
  }

  lemma StopDealt(s: State, c: Command)
    requires Inv(s) && AtWork(s, c) && s.workers[c].stage == StopNext(0)
    ensures Dealt(s.host, s.lock.ledger, s.workers[c].jobs[0].names, 0, s.workers[c].killed)
  {
    assert WorkerOk(s, c);
    assert StopOk(s.host, s.lock.ledger, s.workers[c]);
  }

  lemma StartReady(s: State, c: Command)
    requires Inv(s) && AtWork(s, c) && s.workers[c].stage.StartWrite?
    ensures var w := s.workers[c];
            && Rejected(s.host, s.lock.ledger, w.jobs[0].name, w.stage.checked)
            && Unrecorded(s.host, s.launched, w.stage.checked, Who(w.stage.record))
            && w.stage.record.revision == w.jobs[0].revision
  {
    assert WorkerOk(s, c);
    assert StartOk(s.host, s.lock.ledger, s.launched, s.workers[c]);
  }

  /** The write of a start, at any moment of any run, keeps the promise the method makes. */
  lemma StartStepMeetsPromise(s: State, c: Command)
    requires Inv(s) && AtWork(s, c) && s.workers[c].stage.StartWrite?
    ensures var w := s.workers[c]; var s' := Next(s, Go(c));
            StartPromise(w.jobs[0].name, w.jobs[0].revision, w.stage.checked, w.stage.record, s.host,
                         s.lock.ledger, s.launched, s'.lock.ledger, s'.launched)
  {
    var w := s.workers[c];
    StartReady(s, c);
    StartWriteEffect(s, c);
    StartWriteMeetsPromise(w.jobs[0].name, w.jobs[0].revision, w.stage.checked, w.stage.record, s.host,
                           s.lock.ledger, s.launched);
  }

  /** And so does the write of a stop. */
  lemma StopStepMeetsPromise(s: State, c: Command)
    requires Inv(s) && AtWork(s, c) && s.workers[c].stage == StopNext(0)
    ensures StopPromise(s.workers[c].jobs[0].names, s.workers[c].killed, s.host, s.lock.ledger, s.launched,
                        Next(s, Go(c)).lock.ledger)
  {
    var w := s.workers[c];
    StopDealt(s, c);
    StopWriteEffect(s, c);
    DealtAreKilled(s.host, s.lock.ledger, w.jobs[0].names, w.killed);
    StopWriteMeetsPromise(w.jobs[0].names, w.killed, s.host, s.lock.ledger, s.launched);
  }

  lemma StartWriteOrphans(s: State, c: Command, n: string, x: Identity)
    requires Inv(s) && AtWork(s, c) && s.workers[c].stage.StartWrite?
    ensures Orphaned(Next(s, Go(c)), n, x) <==> Alive(s.host, x) && (Orphaned(s, n, x) || StartDrops(s, Go(c), n, x))
  {
    StartStepMeetsPromise(s, c);
  }

  lemma StopWriteOrphans(s: State, c: Command, n: string, x: Identity)
    requires Inv(s) && AtWork(s, c) && s.workers[c].stage == StopNext(0)
    ensures Orphaned(Next(s, Go(c)), n, x) <==> Alive(s.host, x) && (Orphaned(s, n, x) || StopDrops(s, Go(c), n, x))
  {
    StopStepMeetsPromise(s, c);
  }

  /** The two steps that rewrite the ledger. */
  predicate Writes(s: State, a: Action) {
    a.Go? && AtWork(s, a.c) && (s.workers[a.c].stage.StartWrite? || s.workers[a.c].stage == StopNext(0))
  }

  lemma AdvanceRewritesNothing(h: Host, ledger: seq<Entry>, w: Worker)
    requires Fits(w, ledger) && !w.stage.StartWrite? && w.stage != StopNext(0)
    ensures Advance(h, ledger, w).update.None?
  {
    if w.jobs[0].StopJob? {
      if w.stage.StopTurn? {
        TurnStepMoves(h, w, w.stage.i, w.stage.t, w.stage.phase);
      } else {
        EarlyStopMoves(h, ledger, w);
      }
    }
  }

  lemma PickRewritesNothing(h: Host, w: Worker, x: Identity)
    ensures PickChild(h, w, x).update.None?
  {
  }

  lemma GoKeepsLedger(s: State, c: Command)
    requires Working(s, c) && !Writes(s, Go(c))
    ensures GoOn(s, c).lock.ledger == s.lock.ledger && GoOn(s, c).launched == s.launched
  {
    if AtWork(s, c) {
      AdvanceRewritesNothing(s.host, s.lock.running[c].copy.value, s.workers[c]);
    }
  }

  /** A step that is not one of the two writes leaves ledger and history as they are. */
  lemma OtherStepsKeepLedger(s: State, a: Action)
    requires !Writes(s, a)
    ensures Next(s, a).lock.ledger == s.lock.ledger && Next(s, a).launched == s.launched
  {
    if a.Go? && Working(s, a.c) {
      GoKeepsLedger(s, a.c);
    } else if a.Fault? && AtWork(s, a.c) {
      FaultMoves(s.host, s.lock.running[a.c].copy.value, s.workers[a.c]);
    } else if a.Pick? && AtWork(s, a.c) {
      PickRewritesNothing(s.host, s.workers[a.c], a.who);
    }
  }

  /**
   At every step: an orphan is an earlier orphan still alive, or the process a start records over after it
   failed the check, or one that a stop sent SIGKILL and did not wait for.
   */
  lemma OrphansAriseExactly(s: State, a: Action, n: string, x: Identity)
    requires Inv(s) && CarefulStep(s, a)
    ensures Orphaned(Next(s, a), n, x) <==> Alive(Next(s, a).host, x) && (Orphaned(s, n, x) || Drops(s, a, n, x))
  {
    if Writes(s, a) {
      if s.workers[a.c].stage.StartWrite? {
        StartWriteOrphans(s, a.c, n, x);
      } else {
        StopWriteOrphans(s, a.c, n, x);
      }
    } else {
      OtherStepsKeepLedger(s, a);
      HostEvolves(s, a);
      SaneEvolves(s.host, Next(s, a).host, s.lock.ledger, s.launched);
    }
  }

  lemma {:induction false} StepsSplit(s: State, a: seq<Action>, b: seq<Action>)
    ensures Steps(s, a + b) == Steps(Steps(s, a), b)
    decreases |a|
  {
    if a == [] {
      assert a + b == b;
    } else {
      assert (a + b)[1..] == a[1..] + b;
      StepsSplit(Next(s, a[0]), a[1..], b);
    }
  }

  lemma {:induction false} CarefulSplit(s: State, a: seq<Action>, b: seq<Action>)
    requires Careful(s, a + b)
    ensures Careful(s, a) && Careful(Steps(s, a), b)
    decreases |a|
  {
    if a == [] {
      assert a + b == b;
    } else {
      assert (a + b)[1..] == a[1..] + b;
      CarefulSplit(Next(s, a[0]), a[1..], b);
    }
  }

  lemma OneMore(s: State, actions: seq<Action>, a: Action)
    ensures Steps(s, actions + [a]) == Next(Steps(s, actions), a)
  {
    StepsSplit(s, actions, [a]);
    assert [a][1..] == [];
    assert Steps(Steps(s, actions), [a]) == Steps(Next(Steps(s, actions), a), []);
  }

  lemma CarefulOneMore(s: State, actions: seq<Action>, a: Action)
    requires Careful(s, actions + [a])
    ensures Careful(s, actions) && CarefulStep(Steps(s, actions), a)
  {
    CarefulSplit(s, actions, [a]);
    assert [a][0] == a;
  }

  lemma LastStep(s: State, init: seq<Action>, last: Action)
    requires Inv(s) && Careful(s, init + [last])
    ensures Careful(s, init) && CarefulStep(Steps(s, init), last) && Inv(Steps(s, init))
    ensures Steps(s, init + [last]) == Next(Steps(s, init), last)
  {
    OneMore(s, init, last);
    CarefulOneMore(s, init, last);
    StepsKeepInv(s, init);
  }

  /** Somewhere along the run, x was dropped from the ledger by one of the two writes. */
  ghost predicate DroppedAlong(s: State, actions: seq<Action>, n: string, x: Identity) {
    exists i :: 0 <= i < |actions| && Drops(Steps(s, actions[..i]), actions[i], n, x)
  }

  lemma DroppedAt(s: State, actions: seq<Action>, n: string, x: Identity, m: nat)
    requires m < |actions| && Drops(Steps(s, actions[..m]), actions[m], n, x)
    ensures DroppedAlong(s, actions, n, x)
  {
  }

  lemma DroppedEarlier(s: State, init: seq<Action>, last: Action, n: string, x: Identity)
    requires DroppedAlong(s, init, n, x)
    ensures DroppedAlong(s, init + [last], n, x)
  {
    var i :| 0 <= i < |init| && Drops(Steps(s, init[..i]), init[i], n, x);
    assert (init + [last])[..i] == init[..i] && (init + [last])[i] == init[i];
    DroppedAt(s, init + [last], n, x, i);
  }

  lemma DroppedLastOrEarlier(s: State, init: seq<Action>, last: Action, n: string, x: Identity)
    requires DroppedAlong(s, init + [last], n, x)
    ensures DroppedAlong(s, init, n, x) || Drops(Steps(s, init), last, n, x)
  {
    var all := init + [last];
    var i :| 0 <= i < |all| && Drops(Steps(s, all[..i]), all[i], n, x);
    if i < |init| {
      assert all[..i] == init[..i] && all[i] == init[i];
      DroppedAt(s, init, n, x, i);
    } else {
      assert all[..i] == init;
    }
  }

  lemma DroppedSplit(s: State, init: seq<Action>, last: Action, n: string, x: Identity)
    ensures DroppedAlong(s, init + [last], n, x) <==>
            DroppedAlong(s, init, n, x) || Drops(Steps(s, init), last, n, x)
  {
    if DroppedAlong(s, init + [last], n, x) {
      DroppedLastOrEarlier(s, init, last, n, x);
    }
    if DroppedAlong(s, init, n, x) {
      DroppedEarlier(s, init, last, n, x);
    }
    if Drops(Steps(s, init), last, n, x) {
      assert (init + [last])[..|init|] == init;
      DroppedAt(s, init + [last], n, x, |init|);
    }
  }

  lemma DroppedWasSeen(s: State, a: Action, n: string, x: Identity)
    requires Inv(s) && (Orphaned(s, n, x) || Drops(s, a, n, x))
    ensures x in s.host.seen
  {
    if StartDrops(s, a, n, x) {
      assert (n, x) in s.launched;
    } else if StopDrops(s, a, n, x) {
      var e :| e in s.lock.ledger && e.name == n && Who(e.record) == x;
      assert (e.name, Who(e.record)) in s.launched;
    }
  }

  lemma {:induction false} DroppedIsSeen(s: State, actions: seq<Action>, n: string, x: Identity)
    requires Inv(s) && Careful(s, actions) && DroppedAlong(s, actions, n, x)
    ensures x in Steps(s, actions).host.seen
    decreases |actions|
  {
    var init, last := actions[..|actions| - 1], actions[|actions| - 1];
    assert actions == init + [last];
    LastStep(s, init, last);
    DroppedSplit(s, init, last, n, x);
    if DroppedAlong(s, init, n, x) {
      DroppedIsSeen(s, init, n, x);
    }
    DroppedStaysSeen(Steps(s, init), last, n, x);
  }

  lemma DroppedStaysSeen(s: State, a: Action, n: string, x: Identity)
    requires Inv(s) && CarefulStep(s, a) && (x in s.host.seen || Drops(s, a, n, x))
    ensures x in Next(s, a).host.seen
  {
    HostEvolves(s, a);
    if x !in s.host.seen {
      DroppedWasSeen(s, a, n, x);
    }
  }

  /** One more step: alive and dropped so far, or dropped by this step. */
  lemma OrphanOneMore(h: Host, init: seq<Action>, last: Action, n: string, x: Identity)
    requires Valid(h) && Careful(Fresh(h), init + [last])
    requires Orphaned(Steps(Fresh(h), init), n, x) <==>
             Alive(Steps(Fresh(h), init).host, x) && DroppedAlong(Fresh(h), init, n, x)
    ensures Orphaned(Steps(Fresh(h), init + [last]), n, x) <==>
            Alive(Steps(Fresh(h), init + [last]).host, x) && DroppedAlong(Fresh(h), init + [last], n, x)
  {
    var before := Steps(Fresh(h), init);
    FreshInv(h);
    LastStep(Fresh(h), init, last);
    OrphansAriseExactly(before, last, n, x);
    DroppedSplit(Fresh(h), init, last, n, x);
    HostEvolves(before, last);
    if DroppedAlong(Fresh(h), init, n, x) {
      DroppedIsSeen(Fresh(h), init, n, x);
    }
  }

  /** Over every careful run: a process is an orphan exactly when it is alive and one of the two writes dropped it. */
  lemma {:induction false} OrphanExactlyWhenDropped(h: Host, actions: seq<Action>, n: string, x: Identity)
    requires Valid(h) && Careful(Fresh(h), actions)
    ensures Orphaned(Steps(Fresh(h), actions), n, x) <==>
            Alive(Steps(Fresh(h), actions).host, x) && DroppedAlong(Fresh(h), actions, n, x)
    decreases |actions|
  {
    if actions != [] {
      var init, last := actions[..|actions| - 1], actions[|actions| - 1];
      assert actions == init + [last];
      FreshInv(h);
      LastStep(Fresh(h), init, last);
      OrphanExactlyWhenDropped(h, init, n, x);
      OrphanOneMore(h, init, last, n, x);
    }
  }

  ghost predicate Live(s: State, n: string, x: Identity) {
    Lives(s.host, s.launched, n, x)
  }

  /** Two different processes recorded for the service are alive. */
  ghost predicate TwoLive(s: State, n: string) {
    exists x, y :: x != y && Live(s, n, x) && Live(s, n, y)
  }

  ghost predicate TwoLiveOneDropped(h: Host, actions: seq<Action>, n: string) {
    exists x, y :: x != y && Live(Steps(Fresh(h), actions), n, x) && Live(Steps(Fresh(h), actions), n, y)
                   && DroppedAlong(Fresh(h), actions, n, x)
  }

  /**
   For any number of commands, any interleaving and anything the operating system does: a service has two
   live recorded processes exactly when one of them was dropped from the ledger alive, by a start whose check
   it did not pass, its program or command line changed or unreadable, or by a stop that killed it and did
   not wait.
   */
  lemma TwoLiveExactlyWhenDropped(h: Host, actions: seq<Action>, n: string)
    requires Valid(h) && Careful(Fresh(h), actions)
    ensures TwoLive(Steps(Fresh(h), actions), n) <==> TwoLiveOneDropped(h, actions, n)
  {
    var s := Steps(Fresh(h), actions);
    FreshInv(h);
    StepsKeepInv(Fresh(h), actions);
    TwoLiveExactlyWhenOrphaned(s.host, s.lock.ledger, s.launched, n);
    if x, y :| x != y && Live(s, n, x) && Live(s, n, y) {
      assert Lives(s.host, s.launched, n, x) && Lives(s.host, s.launched, n, y);
      var p, q :| p != q && Orphan(s.host, s.lock.ledger, s.launched, n, p) && Lives(s.host, s.launched, n, q);
      OrphanExactlyWhenDropped(h, actions, n, p);
      assert Live(s, n, p) && Live(s, n, q);
    }
  }

  /** So where no write has dropped a process that is alive, no service has two. */
  lemma OneLiveProcessPerName(h: Host, actions: seq<Action>, n: string)
    requires Valid(h) && Careful(Fresh(h), actions)
    requires forall z :: DroppedAlong(Fresh(h), actions, n, z) ==> !Alive(Steps(Fresh(h), actions).host, z)
    ensures !TwoLive(Steps(Fresh(h), actions), n)
  {
    TwoLiveExactlyWhenDropped(h, actions, n);
    forall p | Live(Steps(Fresh(h), actions), n, p) ensures !DroppedAlong(Fresh(h), actions, n, p) {
    }
  }

  // ----- What stops and locks promise ------------------------------------------------------------

  /** At the write that ends a stop, every selected recorded process is dead unless this very job sent it SIGKILL. */
  lemma StoppedAreDeadUnlessKilled(h: Host, actions: seq<Action>, c: Command, e: Entry)
    requires Valid(h) && Careful(Fresh(h), actions)
    requires var s := Steps(Fresh(h), actions);
             && AtWork(s, c) && s.workers[c].stage == StopNext(0)
             && e in s.lock.ledger && Selected(s.workers[c].jobs[0].names, e.name)
    ensures var s := Steps(Fresh(h), actions);
            && e !in Next(s, Go(c)).lock.ledger
            && (Alive(s.host, Who(e.record)) ==>
                Who(e.record) in s.workers[c].killed && KilledBy(s.log, c, Who(e.record)))
  {
    FreshInv(h);
    StepsKeepInv(Fresh(h), actions);
    var s := Steps(Fresh(h), actions);
    StopStepMeetsPromise(s, c);
    assert WorkerOk(s, c);
  }

  /**
   Every signal any command ever sends goes to the process its turn took or a descendant of it, in a turn on
   a process that was recorded; and that is the process taken exactly when no other came to have its id
   since the ownership check.
   */
  lemma SignalsAreAccountedFor(h: Host, actions: seq<Action>, i: nat)
    requires Valid(h) && Careful(Fresh(h), actions) && i < |Steps(Fresh(h), actions).log|
    ensures var s := Steps(Fresh(h), actions); var x := s.log[i];
            && Sound(x.on) && x.signal.to in Family(x.on)
            && (exists n :: (n, Who(x.on.record)) in s.launched)
            && (x.on.who == Who(x.on.record) <==> x.on.who in x.on.checked.seen)
  {
    FreshInv(h);
    StepsKeepInv(Fresh(h), actions);
    TargetIsRecordedExactlyWhenNotNew(Steps(Fresh(h), actions).log[i].on);
  }

  /** One command at a time inside, and the ledger is every rewriting in turn. */
  lemma NoRewritingIsLost(h: Host, actions: seq<Action>, c: Command, d: Command)
    requires Valid(h) && Careful(Fresh(h), actions)
    ensures var s := Steps(Fresh(h), actions);
            (Working(s, c) && Working(s, d) ==> c == d) && s.lock.ledger == L.Replay([], s.lock.log, Apply)
  {
    FreshInv(h);
    StepsKeepInv(Fresh(h), actions);
  }

  // ----- Whoever is killed was asked to end before ------------------------------------------------

  /** Among the first n signals is this command's request, in this turn, that the process end. */
  ghost predicate Asked(log: seq<Sent>, n: nat, c: Command, t: Target, x: Identity) {
    exists j :: 0 <= j < n && j < |log| && log[j] == Sent(c, Signal(x, false), t)
  }

  /** How far the requests of a turn have come. */
  ghost predicate TurnAsked(h: Host, log: seq<Sent>, c: Command, t: Target, phase: Phase) {
    match phase
    case Ask => true
    case Wait => Asked(log, |log|, c, t, t.who)
    case Kill => Asked(log, |log|, c, t, t.who)
    case AskChildren(todo) => AskedAll(h, log, c, t, Descendants(t.listed, t.who) - todo)
    case WaitChildren => AskedAll(h, log, c, t, Descendants(t.listed, t.who))
    case KillChildren(todo) => forall x :: x in todo ==> Asked(log, |log|, c, t, x)
  }

  ghost predicate AskedAll(h: Host, log: seq<Sent>, c: Command, t: Target, family: set<Identity>) {
    forall x :: x in family && Alive(h, x) ==> Asked(log, |log|, c, t, x)
  }

  ghost predicate WorkerAsked(s: State, c: Command) {
    c in s.workers && s.workers[c].stage.StopTurn? ==>
      TurnAsked(s.host, s.log, c, s.workers[c].stage.t, s.workers[c].stage.phase)
  }

  ghost predicate KillsAsked(log: seq<Sent>) {
    forall i :: 0 <= i < |log| && log[i].signal.kill ==> Asked(log, i, log[i].sender, log[i].on, log[i].signal.to)
  }

  ghost predicate AskInv(s: State) {
    (forall c :: WorkerAsked(s, c)) && KillsAsked(s.log)
  }

  lemma AskedGrows(log: seq<Sent>, log': seq<Sent>, n: nat, m: nat, c: Command, t: Target, x: Identity)
    requires log <= log' && Asked(log, n, c, t, x) && n <= m
    ensures Asked(log', m, c, t, x)
  {
    var j :| 0 <= j < n && j < |log| && log[j] == Sent(c, Signal(x, false), t);
    assert log'[j] == log[j];
  }

  /** Time passing and signals of others leave what was asked as it is. */
  lemma TurnAskedGrows(h: Host, h': Host, log: seq<Sent>, log': seq<Sent>, c: Command, t: Target, phase: Phase)
    requires TurnAsked(h, log, c, t, phase) && log <= log' && Evolves(h, h')
    requires Descendants(t.listed, t.who) <= h.seen
    ensures TurnAsked(h', log', c, t, phase)
  {
    forall x | Asked(log, |log|, c, t, x) ensures Asked(log', |log'|, c, t, x) {
      AskedGrows(log, log', |log|, |log'|, c, t, x);
    }
  }

  lemma FamilySeen(s: State, c: Command)
    requires Inv(s) && c in s.workers && s.workers[c].stage.StopTurn?
    ensures Working(s, c) && Descendants(s.workers[c].stage.t.listed, s.workers[c].stage.t.who) <= s.host.seen
  {
    assert Working(s, c) && WorkerOk(s, c);
    InTurn(s.host, s.lock.ledger, s.launched, s.workers[c]);
    ListedAreSeen(s.workers[c].stage.t, s.host);
  }

  lemma ListedAreSeen(t: Target, h: Host)
    requires Valid(t.listed) && Evolves(t.listed, h)
    ensures Descendants(t.listed, t.who) <= h.seen
  {
  }

  lemma OneInTurn(s: State, c: Command, d: Command)
    requires Inv(s) && Working(s, c) && d in s.workers && s.workers[d].stage.StopTurn?
    ensures d == c
  {
    assert Working(s, d);
    OneWorking(s, c, d);
  }

  lemma KillsAskedNext(log: seq<Sent>, x: Sent)
    requires KillsAsked(log) && (x.signal.kill ==> Asked(log, |log|, x.sender, x.on, x.signal.to))
    ensures KillsAsked(log + [x])
  {
    var log' := log + [x];
    forall i | 0 <= i < |log'| && log'[i].signal.kill
      ensures Asked(log', i, log'[i].sender, log'[i].on, log'[i].signal.to)
    {
      if i < |log| {
        AskedGrows(log, log', i, i, log[i].sender, log[i].on, log[i].signal.to);
      } else {
        AskedGrows(log, log', |log|, i, x.sender, x.on, x.signal.to);
      }
    }
  }

  /** What a move of a stop's turn must do: ask before it goes on, and kill only whom it has asked. */
  ghost predicate AsksFirst(h: Host, log: seq<Sent>, c: Command, m: Move) {
    var log' := Logs(log, c, m);
    && (m.signal.Some? && m.signal.value.0.kill ==> Asked(log, |log|, c, m.signal.value.1, m.signal.value.0.to))
    && (m.next.stage.StopTurn? ==> TurnAsked(h, log', c, m.next.stage.t, m.next.stage.phase))
  }

  function Logs(log: seq<Sent>, c: Command, m: Move): seq<Sent> {
    if m.signal.Some? then log + [Sent(c, m.signal.value.0, m.signal.value.1)] else log
  }

  lemma PerformKeepsAsked(s: State, c: Command, m: Move)
    requires Inv(s) && AskInv(s) && AtWork(s, c) && AsksFirst(s.host, s.log, c, m)
    ensures AskInv(Perform(s, c, m))
  {
    var s' := Perform(s, c, m);
    assert s'.log == Logs(s.log, c, m) && s'.host == s.host;
    forall d ensures WorkerAsked(s', d) {
      if d != c && d in s.workers && s.workers[d].stage.StopTurn? {
        OneInTurn(s, c, d);
      }
    }
    if m.signal.Some? {
      KillsAskedNext(s.log, Sent(c, m.signal.value.0, m.signal.value.1));
    }
  }

  /** One more request. */
  lemma JustAsked(log: seq<Sent>, c: Command, t: Target, x: Identity)
    ensures Asked(log + [Sent(c, Signal(x, false), t)], |log| + 1, c, t, x)
  {
    var log' := log + [Sent(c, Signal(x, false), t)];
    assert log'[|log|] == Sent(c, Signal(x, false), t);
  }

  lemma TurnAsksFirst(h: Host, log: seq<Sent>, c: Command, w: Worker, i: nat, t: Target, phase: Phase)
    requires w.stage == StopTurn(i, t, phase) && TurnAsked(h, log, c, t, phase)
    ensures AsksFirst(h, log, c, AdvanceTurn(h, w, i, t, phase))
  {
    JustAsked(log, c, t, t.who);
    if phase.WaitChildren? {
      forall x | x in Outliving(h, t) ensures Asked(log, |log|, c, t, x) {
        assert x in Descendants(t.listed, t.who) && Alive(h, x);
      }
    }
  }

  lemma PickAsksFirst(h: Host, log: seq<Sent>, c: Command, w: Worker, x: Identity)
    requires w.stage.StopTurn? && Valid(h) && TurnAsked(h, log, c, w.stage.t, w.stage.phase)
    requires Descendants(w.stage.t.listed, w.stage.t.who) <= h.seen
    ensures AsksFirst(h, log, c, PickChild(h, w, x))
  {
    var t, phase, m := w.stage.t, w.stage.phase, PickChild(h, w, x);
    var log' := Logs(log, c, m);
    HostStays(h);
    TurnAskedGrows(h, h, log, log', c, t, phase);
    JustAsked(log, c, t, x);
    if phase.AskChildren? && x in phase.todo {
      var family := Descendants(t.listed, t.who);
      forall y | y in family - (phase.todo - {x}) && Alive(h, y) ensures Asked(log', |log'|, c, t, y) {
        assert y == x || y in family - phase.todo;
      }
    }
  }

  lemma AdvanceAsksFirst(s: State, c: Command)
    requires Inv(s) && AskInv(s) && AtWork(s, c) && !s.workers[c].stage.Between? && !s.workers[c].stage.Leaving?
    ensures AsksFirst(s.host, s.log, c, Advance(s.host, s.lock.running[c].copy.value, s.workers[c]))
  {
    var w := s.workers[c];
    if w.stage.StopTurn? {
      assert WorkerAsked(s, c);
      TurnAsksFirst(s.host, s.log, c, w, w.stage.i, w.stage.t, w.stage.phase);
    } else {
      EarlyAsksFirst(s.host, s.log, c, s.lock.running[c].copy.value, w);
    }
  }

  /** Before its turns a command signals nobody, and a turn begins with nothing asked. */
  lemma EarlyAsksFirst(h: Host, log: seq<Sent>, c: Command, ledger: seq<Entry>, w: Worker)
    requires Fits(w, ledger) && !w.stage.StopTurn?
    ensures AsksFirst(h, log, c, Advance(h, ledger, w))
  {
    var m := Advance(h, ledger, w);
    assert m.signal.None? && (m.next.stage.StopTurn? ==> m.next.stage.phase.Ask?);
  }

  lemma GoKeepsAsked(s: State, c: Command)
    requires Inv(s) && AskInv(s) && Working(s, c)
    ensures AskInv(GoOn(s, c))
  {
    if !s.workers[c].stage.Between? && !s.workers[c].stage.Leaving? && AtWork(s, c) {
      AdvanceAsksFirst(s, c);
      PerformKeepsAsked(s, c, Advance(s.host, s.lock.running[c].copy.value, s.workers[c]));
    } else {
      CrewKeepsAsked(s, GoOn(s, c), c);
    }
  }

  /** Steps that log nothing and take no turn on. */
  lemma CrewKeepsAsked(s: State, s': State, c: Command)
    requires Inv(s) && AskInv(s) && s'.log == s.log && Evolves(s.host, s'.host)
    requires forall d :: d != c && d in s'.workers ==> d in s.workers && s'.workers[d] == s.workers[d]
    requires c in s'.workers && s'.workers[c].stage.StopTurn? ==> c in s.workers && s'.workers[c] == s.workers[c]
    ensures AskInv(s')
  {
    forall d ensures WorkerAsked(s', d) {
      if d in s'.workers && s'.workers[d].stage.StopTurn? {
        FamilySeen(s, d);
        assert WorkerAsked(s, d);
        TurnAskedGrows(s.host, s'.host, s.log, s'.log, d, s.workers[d].stage.t, s.workers[d].stage.phase);
      }
    }
  }

  lemma MoveKeepsAsked(s: State, a: Action)
    requires Inv(s) && AskInv(s) && (a.Pick? || a.Fault?) && AtWork(s, a.c)
    ensures AskInv(Next(s, a))
  {
    var w := s.workers[a.c];
    if a.Fault? {
      PerformKeepsAsked(s, a.c, Faulted(s.host, s.lock.running[a.c].copy.value, w));
    } else if w.stage.StopTurn? {
      FamilySeen(s, a.c);
      assert WorkerAsked(s, a.c);
      PickAsksFirst(s.host, s.log, a.c, w, a.who);
      PerformKeepsAsked(s, a.c, PickChild(s.host, w, a.who));
    } else {
      PerformKeepsAsked(s, a.c, PickChild(s.host, w, a.who));
    }
  }

  lemma StepKeepsAsked(s: State, a: Action)
    requires Inv(s) && AskInv(s)
    ensures AskInv(Next(s, a))
  {
    HostStays(s.host);
    match a
    case Go(c) => if Working(s, c) { GoKeepsAsked(s, c); }
    case Pick(c, _) => if AtWork(s, c) { MoveKeepsAsked(s, a); }
    case Fault(c) => if AtWork(s, c) { MoveKeepsAsked(s, a); }
    case Os(_) => CrewKeepsAsked(s, Next(s, a), 0);
    case RemoveLock => CrewKeepsAsked(s, Next(s, a), 0);
    case Launch(c, _) => CrewKeepsAsked(s, Next(s, a), c);
    case Enter(c) => CrewKeepsAsked(s, Next(s, a), c);
    case Popen(c, _) => CrewKeepsAsked(s, Next(s, a), c);
    case Die(c) => CrewKeepsAsked(s, Next(s, a), c);
  }

  lemma {:induction false} StepsKeepAsked(s: State, actions: seq<Action>)
    requires Inv(s) && AskInv(s) && Careful(s, actions)
    ensures AskInv(Steps(s, actions))
    decreases |actions|
  {
    if actions != [] {
      StepKeepsAsked(s, actions[0]);
      StepKeepsInv(s, actions[0]);
      StepsKeepAsked(Next(s, actions[0]), actions[1..]);
    }
  }

  /**
   For any number of commands and any interleaving: a process is sent SIGKILL only after the same command, in
   the same turn, has sent it SIGTERM.
   */
  lemma KilledWereAsked(h: Host, actions: seq<Action>, i: nat)
    requires Valid(h) && Careful(Fresh(h), actions) && i < |Steps(Fresh(h), actions).log|
    requires Steps(Fresh(h), actions).log[i].signal.kill
    ensures var log := Steps(Fresh(h), actions).log;
            exists j :: 0 <= j < i && log[j] == Sent(log[i].sender, Signal(log[i].signal.to, false), log[i].on)
  {
    FreshInv(h);
    StepsKeepAsked(Fresh(h), actions);
  }

  // ----- A stop left to itself -------------------------------------------------------------------

  /** A step the command takes of its own, and no fault. */
  predicate Own(a: Action, c: Command) {
    (a.Go? || a.Pick?) && a.c == c
  }

  ghost predicate Quiet(actions: seq<Action>, c: Command) {
    forall a :: a in actions ==> Own(a, c)
  }

  lemma {:induction false} QuietIsCareful(s: State, actions: seq<Action>, c: Command)
    requires Quiet(actions, c)
    ensures Careful(s, actions)
    decreases |actions|
  {
    if actions != [] {
      assert actions[0] in actions;
      QuietIsCareful(Next(s, actions[0]), actions[1..], c);
    }
  }

  /** The command is about to write the ledger that ends its stop. */
  predicate Ends(s: State, c: Command) {
    AtWork(s, c) && s.workers[c].stage == StopNext(0)
  }

  /** A record that makes a stop refuse: not owned, not from before the boot, its id in use. */
  predicate Reused(h: Host, r: Record) {
    !Owned(h, r) && r.created >= h.boot && r.pid in h.live
  }

  /** One of the first n records is selected and makes the stop refuse. */
  ghost predicate Obstructed(h: Host, ledger: seq<Entry>, names: Option<set<string>>, n: nat) {
    exists k :: 0 <= k < n && k < |ledger| && Selected(names, ledger[k].name) && Reused(h, ledger[k].record)
  }

  lemma ObstructedNext(h: Host, ledger: seq<Entry>, names: Option<set<string>>, n: nat)
    requires n < |ledger|
    ensures Obstructed(h, ledger, names, n + 1) <==>
            Obstructed(h, ledger, names, n) || (Selected(names, ledger[n].name) && Reused(h, ledger[n].record))
  {
  }

  /** The record the stage is about; the records before it are still to come. */
  function Index(stage: Stage): nat {
    match stage
    case StopNext(left) => left
    case StopBoot(i) => i
    case StopExists(i) => i
    case StopLookup(i, _) => i
    case StopList(i, _) => i
    case StopTurn(i, _, _) => i
    case _ => 0
  }

  /** Where nothing stands in the way of the rest of the stop, if the machine stays as it is. */
  ghost predicate Clear(h: Host, ledger: seq<Entry>, w: Worker)
    requires Fits(w, ledger) && w.jobs[0].StopJob?
  {
    && Valid(h) && !Obstructed(h, ledger, w.jobs[0].names, Index(w.stage))
    && match w.stage
       case StopNext(_) => true
       case StopBoot(i) => ledger[i].record.created < h.boot || ledger[i].record.pid !in h.live
       case StopExists(i) => ledger[i].record.pid !in h.live
       case StopLookup(i, _) => ledger[i].record.pid in h.live
       case StopList(_, t) => Alive(h, t.who)
       case StopTurn(_, t, phase) => OfChildren(phase) || Alive(h, t.who)
       case _ => false
  }

  predicate OfChildren(p: Phase) {
    p.AskChildren? || p.WaitChildren? || p.KillChildren?
  }

  /** How many kinds of step are left of a record's turn, and the children left of one kind. */
  function Rank(stage: Stage): nat {
    match stage
    case StopBoot(_) => 9
    case StopExists(_) => 8
    case StopLookup(_, _) => 8
    case StopList(_, _) => 7
    case StopTurn(_, _, phase) =>
      (match phase
       case Ask => 6 case Wait => 5 case Kill => 4 case AskChildren(_) => 3 case WaitChildren => 2
       case KillChildren(_) => 1)
    case _ => 0
  }

  function Todo(stage: Stage): set<Identity> {
    if !stage.StopTurn? then {}
    else match stage.phase case AskChildren(todo) => todo case KillChildren(todo) => todo case _ => {}
  }

  predicate Nearer(q: Stage, p: Stage) {
    || Index(q) < Index(p)
    || (Index(q) == Index(p) && (Rank(q) < Rank(p) || (Rank(q) == Rank(p) && |Todo(q)| < |Todo(p)|)))
  }

  /** What a step of a clear stop that is not at its end does to the worker. */
  ghost predicate Advances(h: Host, ledger: seq<Entry>, w: Worker, m: Move)
    requires Fits(w, ledger) && w.jobs[0].StopJob?
  {
    && m.update.None? && m.next.jobs == w.jobs && Fits(m.next, ledger)
    && Clear(h, ledger, m.next) && Nearer(m.next.stage, w.stage)
  }

  lemma TurnAdvances(h: Host, ledger: seq<Entry>, w: Worker)
    requires Fits(w, ledger) && w.jobs[0].StopJob? && Clear(h, ledger, w)
    requires w.stage.StopTurn? && Todo(w.stage) == {}
    ensures Advances(h, ledger, w, AdvanceTurn(h, w, w.stage.i, w.stage.t, w.stage.phase))
  {
  }

  lemma GoAdvances(h: Host, ledger: seq<Entry>, w: Worker)
    requires Fits(w, ledger) && w.jobs[0].StopJob? && Clear(h, ledger, w)
    requires w.stage != StopNext(0) && Todo(w.stage) == {}
    ensures Advances(h, ledger, w, AdvanceStop(h, ledger, w))
  {
    if w.stage.StopTurn? {
      TurnAdvances(h, ledger, w);
    } else if w.stage.StopNext? {
      ObstructedNext(h, ledger, w.jobs[0].names, w.stage.left - 1);
    }
  }

  lemma PickAdvances(h: Host, ledger: seq<Entry>, w: Worker, x: Identity)
    requires Fits(w, ledger) && w.jobs[0].StopJob? && Clear(h, ledger, w) && x in Todo(w.stage)
    ensures Advances(h, ledger, w, PickChild(h, w, x))
  {
    PickNext(h, w, x);
    PickRewritesNothing(h, w, x);
    assert Todo(w.stage) == (Todo(w.stage) - {x}) + {x};
  }

  lemma StaysAtWork(s: State, c: Command, m: Move)
    requires AtWork(s, c) && m.update.None? && Fits(m.next, s.lock.running[c].copy.value)
    ensures AtWork(Perform(s, c, m), c) && Perform(s, c, m).workers[c] == m.next && Perform(s, c, m).host == s.host
    ensures Perform(s, c, m).lock == s.lock
  {
  }

  ghost predicate ClearStop(s: State, c: Command) {
    AtWork(s, c) && s.workers[c].jobs[0].StopJob? && Clear(s.host, s.lock.running[c].copy.value, s.workers[c])
  }

  /** The same machine, lock, ledger and jobs. */
  predicate SameJob(s: State, s': State, c: Command) {
    && s'.host == s.host && s'.lock == s.lock && c in s.workers && c in s'.workers
    && s'.workers[c].jobs == s.workers[c].jobs
  }

  /** The next step of the stop, on some child if any is left. */
  lemma ClearStep(s: State, c: Command) returns (a: Action)
    requires ClearStop(s, c) && !Ends(s, c)
    ensures Own(a, c) && ClearStop(Next(s, a), c) && SameJob(s, Next(s, a), c)
    ensures Nearer(Next(s, a).workers[c].stage, s.workers[c].stage)
  {
    var w, ledger := s.workers[c], s.lock.running[c].copy.value;
    if Todo(w.stage) == {} {
      a := Go(c);
      GoAdvances(s.host, ledger, w);
      StaysAtWork(s, c, AdvanceStop(s.host, ledger, w));
    } else {
      var x :| x in Todo(w.stage);
      a := Pick(c, x);
      PickAdvances(s.host, ledger, w, x);
      StaysAtWork(s, c, PickChild(s.host, w, x));
    }
  }

  /** Left to itself, a clear stop comes to its write with the machine as it is. */
  lemma ClearStopEnds(s: State, c: Command) returns (actions: seq<Action>)
    requires ClearStop(s, c)
    ensures Quiet(actions, c) && Ends(Steps(s, actions), c) && SameJob(s, Steps(s, actions), c)
    decreases Index(s.workers[c].stage), Rank(s.workers[c].stage), |Todo(s.workers[c].stage)|
  {
    actions := [];
    if !Ends(s, c) {
      var a := ClearStep(s, c);
      var rest := ClearStopEnds(Next(s, a), c);
      actions := [a] + rest;
      assert actions[1..] == rest;
    }
  }

  /** Where a stop is bound to refuse, if the machine stays as it is. */
  ghost predicate Barred(h: Host, ledger: seq<Entry>, w: Worker)
    requires Fits(w, ledger) && w.jobs[0].StopJob?
  {
    match w.stage
    case Between => false
    case Leaving => true
    case StopBoot(i) =>
      || Obstructed(h, ledger, w.jobs[0].names, i)
      || (ledger[i].record.created >= h.boot && ledger[i].record.pid in h.live)
    case StopExists(i) => Obstructed(h, ledger, w.jobs[0].names, i) || ledger[i].record.pid in h.live
    case _ => Obstructed(h, ledger, w.jobs[0].names, Index(w.stage))
  }

  /** The command has left, is leaving, or is working towards a refusal. */
  ghost predicate BarredStop(s: State, c: Command) {
    c in s.workers ==>
      && Working(s, c) && s.workers[c].jobs != []
      && (s.workers[c].stage.Leaving?
          || (BetweenStops(s, c) && Obstructed(s.host, s.lock.ledger, s.workers[c].jobs[0].names, |s.lock.ledger|))
          || (AtWork(s, c) && s.workers[c].jobs[0].StopJob?
              && Barred(s.host, s.lock.running[c].copy.value, s.workers[c])))
  }

  /** Inside the lock, a stop is the next job. */
  predicate BetweenStops(s: State, c: Command) {
    Working(s, c) && s.workers[c].stage.Between? && s.workers[c].jobs != [] && s.workers[c].jobs[0].StopJob?
  }

  /** A move of a barred stop. */
  ghost predicate StaysBarred(h: Host, ledger: seq<Entry>, w: Worker, m: Move)
    requires Fits(w, ledger) && w.jobs[0].StopJob?
  {
    m.update.None? && m.next.jobs == w.jobs && Fits(m.next, ledger) && Barred(h, ledger, m.next)
  }

  lemma TurnStaysBarred(h: Host, ledger: seq<Entry>, w: Worker)
    requires Fits(w, ledger) && w.jobs[0].StopJob? && Barred(h, ledger, w) && w.stage.StopTurn?
    ensures StaysBarred(h, ledger, w, AdvanceTurn(h, w, w.stage.i, w.stage.t, w.stage.phase))
  {
  }

  lemma GoStaysBarred(h: Host, ledger: seq<Entry>, w: Worker)
    requires Fits(w, ledger) && w.jobs[0].StopJob? && Barred(h, ledger, w)
    ensures StaysBarred(h, ledger, w, AdvanceStop(h, ledger, w))
  {
    if w.stage.StopTurn? {
      TurnStaysBarred(h, ledger, w);
    } else if w.stage.StopNext? && w.stage.left > 0 {
      ObstructedNext(h, ledger, w.jobs[0].names, w.stage.left - 1);
    }
  }

  lemma PickStaysBarred(h: Host, ledger: seq<Entry>, w: Worker, x: Identity)
    requires Fits(w, ledger) && w.jobs[0].StopJob? && Barred(h, ledger, w)
    ensures StaysBarred(h, ledger, w, PickChild(h, w, x))
  {
    if w.stage.StopTurn? {
      PickNext(h, w, x);
    }
    PickRewritesNothing(h, w, x);
  }

  lemma BarredStep(s: State, c: Command, a: Action)
    requires BarredStop(s, c) && Own(a, c)
    ensures BarredStop(Next(s, a), c) && Next(s, a).host == s.host && Next(s, a).lock.ledger == s.lock.ledger
  {
    if c in s.workers && !s.workers[c].stage.Leaving? && AtWork(s, c) && !s.workers[c].stage.Between? {
      var w, ledger := s.workers[c], s.lock.running[c].copy.value;
      GoStaysBarred(s.host, ledger, w);
      StaysAtWork(s, c, AdvanceStop(s.host, ledger, w));
      if a.Pick? {
        PickStaysBarred(s.host, ledger, w, a.who);
        StaysAtWork(s, c, PickChild(s.host, w, a.who));
      }
    }
  }

  lemma {:induction false} BarredNeverEnds(s: State, c: Command, actions: seq<Action>)
    requires BarredStop(s, c) && Quiet(actions, c)
    ensures !Ends(Steps(s, actions), c) && Steps(s, actions).lock.ledger == s.lock.ledger
    decreases |actions|
  {
    if actions != [] {
      assert actions[0] in actions;
      BarredStep(s, c, actions[0]);
      BarredNeverEnds(Next(s, actions[0]), c, actions[1..]);
    }
  }

  lemma StopBegins(s: State, c: Command)
    requires BetweenStops(s, c)
    ensures var s1 := Next(s, Go(c));
            && AtWork(s1, c) && s1.workers[c] == Worker(s.workers[c].jobs, StopNext(|s.lock.ledger|), {})
            && s1.lock.running[c].copy == Some(s.lock.ledger) && s1.host == s.host && s1.lock.ledger == s.lock.ledger
  {
  }

  lemma EndWrites(s: State, c: Command)
    requires Ends(s, c)
    ensures Next(s, Go(c)).lock.ledger == Kept(s.lock.running[c].copy.value, s.workers[c].jobs[0].names)
    ensures Next(s, Go(c)).host == s.host
  {
  }

  /**
   A stop left to itself, with no fault and the machine as it is, comes to its write exactly when no selected
   record has its id in use by a process that is not the recorded one, or no longer looks like it; then the
   selected records are gone. Otherwise it never rewrites the ledger.
   */
  lemma StopEndsExactlyWhenNoneReused(s: State, c: Command)
    requires BetweenStops(s, c) && Valid(s.host)
    ensures var names := s.workers[c].jobs[0].names; var ledger := s.lock.ledger;
            && ((exists actions :: Quiet(actions, c) && Ends(Steps(s, actions), c)) <==>
                !Obstructed(s.host, ledger, names, |ledger|))
            && (Obstructed(s.host, ledger, names, |ledger|) ==>
                forall actions :: Quiet(actions, c) ==> Steps(s, actions).lock.ledger == ledger)
            && (!Obstructed(s.host, ledger, names, |ledger|) ==>
                exists actions :: Quiet(actions, c) && Steps(s, actions).lock.ledger == Kept(ledger, names)
                                  && Steps(s, actions).host == s.host)
  {
    var names, ledger := s.workers[c].jobs[0].names, s.lock.ledger;
    if Obstructed(s.host, ledger, names, |ledger|) {
      forall actions | Quiet(actions, c)
        ensures !Ends(Steps(s, actions), c) && Steps(s, actions).lock.ledger == ledger
      {
        BarredNeverEnds(s, c, actions);
      }
    } else {
      StopBegins(s, c);
      var s1 := Next(s, Go(c));
      var rest := ClearStopEnds(s1, c);
      var actions := [Go(c)] + rest;
      assert actions[1..] == rest;
      var end := Steps(s, actions);
      assert Quiet(actions, c) && Ends(end, c);
      OneMore(s, actions, Go(c));
      EndWrites(end, c);
      assert Quiet(actions + [Go(c)], c);
    }
  }

  // ----- A start left to itself ------------------------------------------------------------------

  /** Inside the lock, a start is the next job. */
  predicate BetweenStarts(s: State, c: Command) {
    Working(s, c) && s.workers[c].stage.Between? && s.workers[c].jobs != [] && s.workers[c].jobs[0].StartJob?
  }

  /** At this stage of a start, on the ledger as it is. */
  predicate Starts(s: State, c: Command, jobs: seq<Job>, stage: Stage) {
    && Working(s, c) && s.workers[c] == Worker(jobs, stage, {}) && s.lock.running[c].copy == Some(s.lock.ledger)
    && jobs != [] && jobs[0].StartJob?
  }

  /** Nothing but the command itself has changed. */
  predicate Undisturbed(s: State, s': State) {
    s'.host == s.host && s'.lock.ledger == s.lock.ledger && s'.launched == s.launched
  }

  lemma StartBegins(s: State, c: Command)
    requires BetweenStarts(s, c)
    ensures Starts(Next(s, Go(c)), c, s.workers[c].jobs, StartCheck) && Undisturbed(s, Next(s, Go(c)))
  {
  }

  predicate FindsOwned(h: Host, ledger: seq<Entry>, name: string) {
    var before := Find(ledger, name); before.Some? && Owned(h, before.value)
  }

  lemma StartChecks(s: State, c: Command, jobs: seq<Job>)
    requires Starts(s, c, jobs, StartCheck)
    ensures var s' := Next(s, Go(c)); var job := jobs[0];
            && Undisturbed(s, s')
            && (!FindsOwned(s.host, s.lock.ledger, job.name) ==> Starts(s', c, jobs, StartPopen(Check(s.host, true))))
            && (FindsOwned(s.host, s.lock.ledger, job.name) ==>
                 && c in s'.workers
                 && s'.workers[c] == if Find(s.lock.ledger, job.name).value.revision == job.revision
                                     then Worker(jobs[1..], Between, {}) else Worker(jobs, Leaving, {}))
  {
  }

  lemma StartPopens(s: State, c: Command, jobs: seq<Job>, k: Check, who: Identity)
    requires Starts(s, c, jobs, StartPopen(k)) && who !in s.host.seen
    requires Evolves(s.host, Popened(s.host, who, jobs[0].exe, jobs[0].cmd))
    ensures var s' := Next(s, Popen(c, who));
            && Starts(s', c, jobs, StartPoll(k, who)) && s'.host == Popened(s.host, who, jobs[0].exe, jobs[0].cmd)
            && s'.lock.ledger == s.lock.ledger
  {
  }

  /** The new process is alive at the poll and when it is described. */
  lemma StartPolls(s: State, c: Command, jobs: seq<Job>, k: Check, who: Identity)
    requires Starts(s, c, jobs, StartPoll(k, who)) && Alive(s.host, who)
    ensures var s1 := Next(s, Go(c)); var s2 := Next(s1, Go(c));
            && Starts(s2, c, jobs, StartWrite(k, Described(s.host, who, jobs[0].revision))) && Undisturbed(s, s2)
  {
    var s1 := Next(s, Go(c));
    assert Starts(s1, c, jobs, StartDescribe(k, who)) && Undisturbed(s, s1);
  }

  lemma StartWrites(s: State, c: Command, jobs: seq<Job>, k: Check, record: Record)
    requires Starts(s, c, jobs, StartWrite(k, record))
    ensures var s' := Next(s, Go(c));
            && s'.lock.ledger == Put(s.lock.ledger, Entry(jobs[0].name, record)) && s'.host == s.host
            && c in s'.workers && s'.workers[c] == Worker(jobs[1..], Between, {})
  {
  }

  lemma NewIdentity(h: Host, exe: string, cmd: seq<string>) returns (who: Identity)
    requires Valid(h)
    ensures who !in h.seen && Evolves(h, Popened(h, who, exe, cmd)) && Alive(Popened(h, who, exe, cmd), who)
    ensures Described(Popened(h, who, exe, cmd), who, "") == Record(who.pid, who.created, exe, cmd, "")
  {
    var pid := SomeUnused(PidsOf(h.seen));
    who := Identity(pid, h.boot);
    assert forall x :: x in h.seen ==> x.pid in PidsOf(h.seen);
  }

  function PidsOf(seen: set<Identity>): set<nat> {
    set x | x in seen :: x.pid
  }

  function StartRun(c: Command, who: Identity): seq<Action> {
    [Go(c), Go(c), Popen(c, who), Go(c), Go(c), Go(c)]
  }

  lemma Unroll6(s: State, c: Command, who: Identity)
    ensures Steps(s, StartRun(c, who))
            == Next(Next(Next(Next(Next(Next(s, Go(c)), Go(c)), Popen(c, who)), Go(c)), Go(c)), Go(c))
  {
    OneMore(s, [], Go(c));
    OneMore(s, [Go(c)], Go(c));
    OneMore(s, [Go(c), Go(c)], Popen(c, who));
    OneMore(s, [Go(c), Go(c), Popen(c, who)], Go(c));
    OneMore(s, [Go(c), Go(c), Popen(c, who), Go(c)], Go(c));
    OneMore(s, [Go(c), Go(c), Popen(c, who), Go(c), Go(c)], Go(c));
    assert [] + [Go(c)] == [Go(c)] && [Go(c)] + [Go(c)] == [Go(c), Go(c)];
    assert [Go(c), Go(c)] + [Popen(c, who)] == [Go(c), Go(c), Popen(c, who)];
    assert [Go(c), Go(c), Popen(c, who)] + [Go(c)] == [Go(c), Go(c), Popen(c, who), Go(c)];
    assert [Go(c), Go(c), Popen(c, who), Go(c)] + [Go(c)] == [Go(c), Go(c), Popen(c, who), Go(c), Go(c)];
    assert [Go(c), Go(c), Popen(c, who), Go(c), Go(c)] + [Go(c)] == StartRun(c, who);
  }

  /**
   A start left to itself, with no fault and the machine as it is. Where the check finds an owned process it
   leaves everything as it is: the command goes on when the revision is the same, and leaves otherwise. Where
   it finds none, and the new process lasts, that process is recorded under the service, as it was started.
   */
  lemma StartLeftToItself(s: State, c: Command) returns (who: Identity)
    requires BetweenStarts(s, c) && Valid(s.host)
    ensures var w, job, ledger := s.workers[c], s.workers[c].jobs[0], s.lock.ledger;
            FindsOwned(s.host, ledger, job.name) ==>
              var s' := Next(Next(s, Go(c)), Go(c));
              && Undisturbed(s, s') && c in s'.workers
              && s'.workers[c] == if Find(ledger, job.name).value.revision == job.revision
                                  then Worker(w.jobs[1..], Between, {}) else Worker(w.jobs, Leaving, {})
    ensures var w, job, ledger := s.workers[c], s.workers[c].jobs[0], s.lock.ledger;
            !FindsOwned(s.host, ledger, job.name) ==>
              var s' := Steps(s, StartRun(c, who));
              && who !in s.host.seen && s'.host == Popened(s.host, who, job.exe, job.cmd) && Alive(s'.host, who)
              && s'.lock.ledger
                 == Put(ledger, Entry(job.name, Record(who.pid, who.created, job.exe, job.cmd, job.revision)))
              && c in s'.workers && s'.workers[c] == Worker(w.jobs[1..], Between, {})
  {
    var jobs := s.workers[c].jobs;
    StartBegins(s, c);
    var s1 := Next(s, Go(c));
    StartChecks(s1, c, jobs);
    who := NewIdentity(s.host, jobs[0].exe, jobs[0].cmd);
    if !FindsOwned(s.host, s.lock.ledger, jobs[0].name) {
      StartRecords(s, Next(s1, Go(c)), c, jobs, who);
    }
  }

  lemma StartRecords(s: State, s2: State, c: Command, jobs: seq<Job>, who: Identity)
    requires s2 == Next(Next(s, Go(c)), Go(c)) && Undisturbed(s, s2)
    requires Starts(s2, c, jobs, StartPopen(Check(s.host, true))) && who !in s.host.seen
    requires var h := Popened(s.host, who, jobs[0].exe, jobs[0].cmd); Evolves(s.host, h) && Alive(h, who)
    ensures var s' := Steps(s, StartRun(c, who)); var job := jobs[0];
            && s'.host == Popened(s.host, who, job.exe, job.cmd)
            && s'.lock.ledger
               == Put(s.lock.ledger, Entry(job.name, Record(who.pid, who.created, job.exe, job.cmd, job.revision)))
            && c in s'.workers && s'.workers[c] == Worker(jobs[1..], Between, {})
  {
    var k := Check(s.host, true);
    StartPopens(s2, c, jobs, k, who);
    var s3 := Next(s2, Popen(c, who));
    StartPolls(s3, c, jobs, k, who);
    var s5 := Next(Next(s3, Go(c)), Go(c));
    StartWrites(s5, c, jobs, k, Described(s3.host, who, jobs[0].revision));
    Unroll6(s, c, who);
  }

  // ----- Surviving the last turn -----------------------------------------------------------------

  /** Past the parent of the last turn: what is left concerns its children. */
  predicate WithChildren(s: State, c: Command) {
    && AtWork(s, c) && s.workers[c].stage.StopTurn? && s.workers[c].stage.i == 0
    && OfChildren(s.workers[c].stage.phase)
  }

  lemma {:induction false} HostEvolvesAlong(s: State, actions: seq<Action>)
    requires Valid(s.host)
    ensures Evolves(s.host, Steps(s, actions).host)
    decreases |actions|
  {
    if actions == [] {
      HostStays(s.host);
    } else {
      HostEvolves(s, actions[0]);
      HostEvolvesAlong(Next(s, actions[0]), actions[1..]);
      EvolvesTransitive(s.host, Next(s, actions[0]).host, Steps(s, actions).host);
    }
  }

  lemma WithChildrenRunsOut(s: State, c: Command) returns (actions: seq<Action>)
    requires Valid(s.host) && WithChildren(s, c)
    ensures Careful(s, actions) && Ends(Steps(s, actions), c) && Steps(s, actions).host == s.host
  {
    assert ClearStop(s, c);
    actions := ClearStopEnds(s, c);
    QuietIsCareful(s, actions, c);
  }

  lemma TakenIsSeen(s: State, c: Command)
    requires Inv(s) && WithChildren(s, c)
    ensures s.workers[c].stage.t.who in s.host.seen
  {
    assert WorkerOk(s, c);
    InTurn(s.host, s.lock.ledger, s.launched, s.workers[c]);
  }

  /** Once the last turn is past its parent, a stop can end with that process alive exactly when it is alive then. */
  lemma SurvivesExactlyWhenAlive(s: State, c: Command)
    requires Inv(s) && WithChildren(s, c)
    ensures var x := s.workers[c].stage.t.who;
            (exists actions :: Careful(s, actions) && Ends(Steps(s, actions), c) && Alive(Steps(s, actions).host, x))
            <==> Alive(s.host, x)
  {
    var x := s.workers[c].stage.t.who;
    var run := WithChildrenRunsOut(s, c);
    TakenIsSeen(s, c);
    forall actions | Alive(Steps(s, actions).host, x) ensures Alive(s.host, x) {
      HostEvolvesAlong(s, actions);
    }
  }
}
