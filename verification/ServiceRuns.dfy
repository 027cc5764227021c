/**
 Runs of the service commands that show what their guarantees leave open.

 Each run is given for any service, program and process identities: a `Scene`.
 */
module ServiceRuns {
  import opened Common
  import opened ProcessOwnership
  import opened ServiceCommands
  import L = CommandLock

  /** A service; the process started first, one started later, and one that gets the first one's id after it. */
  datatype Scene = Scene(name: string, exe: string, cmd: seq<string>, otherCmd: seq<string>, revision: string,
                         first: Identity, second: Identity, stranger: Identity)

  predicate Apt(z: Scene) {
    && z.otherCmd != z.cmd && z.first.created >= 0.0 && z.second.created >= 0.0 && z.first.pid != z.second.pid
    && z.stranger.pid == z.first.pid && z.stranger.created >= z.first.created + TOLERANCE
  }

  /** A machine booted at time 0 with nothing on it. */
  function Empty(): Host {
    Host(map[], {}, 0.0)
  }

  function Running(z: Scene): Host {
    Host(map[z.first.pid := Process(z.first, z.exe, z.cmd, None)], {z.first}, 0.0)
  }

  /** The first process has changed its command line. */
  function Renamed(z: Scene): Host {
    Host(map[z.first.pid := Process(z.first, z.exe, z.otherCmd, None)], {z.first}, 0.0)
  }

  /** And another one has been started. */
  function Both(z: Scene, h: Host): Host {
    Popened(h, z.second, z.exe, z.cmd)
  }

  /** The first process is gone and another has its id. */
  function Replaced(z: Scene): Host {
    Host(map[z.first.pid := Process(z.stranger, z.exe, z.otherCmd, None)], {z.first, z.stranger}, 0.0)
  }

  lemma SceneUnfolds(z: Scene)
    requires Apt(z)
    ensures Valid(Empty())
    ensures Evolves(Empty(), Running(z)) && Popened(Empty(), z.first, z.exe, z.cmd) == Running(z)
    ensures Evolves(Running(z), Renamed(z)) && Evolves(Running(z), Replaced(z))
  {
    FirstAppears(z);
    StrangerReplaces(z);
  }

  lemma FirstAppears(z: Scene)
    requires Apt(z)
    ensures Evolves(Empty(), Running(z)) && Popened(Empty(), z.first, z.exe, z.cmd) == Running(z)
    ensures Evolves(Running(z), Renamed(z))
  {
  }

  lemma StrangerReplaces(z: Scene)
    requires Apt(z)
    ensures Evolves(Running(z), Replaced(z))
  {
  }

  lemma SecondStarts(z: Scene, h: Host)
    requires Apt(z) && (h == Renamed(z) || h == Running(z))
    ensures Evolves(h, Both(z, h)) && Alive(Both(z, h), z.first) && Alive(Both(z, h), z.second) && z.second !in h.seen
  {
  }

  function RecordOf(z: Scene, who: Identity): Record {
    Record(who.pid, who.created, z.exe, z.cmd, z.revision)
  }

  function EntryOf(z: Scene, who: Identity): Entry {
    Entry(z.name, RecordOf(z, who))
  }

  function StartOf(z: Scene): Job {
    StartJob(z.name, z.exe, z.cmd, z.revision)
  }

  // ----- One command at a time -------------------------------------------------------------------

  /** Everything but the running command. */
  datatype Rest = Rest(ledger: seq<Entry>, updates: seq<Update>, host: Host, launched: set<(string, Identity)>,
                       log: seq<Sent>)

  /** No command running, the lock free. */
  function Free(r: Rest): State {
    State(L.State(None, map[], r.ledger, r.updates), map[], r.host, r.launched, r.log)
  }

  /** One command, inside the lock, with its copy of the ledger. */
  function Solo(c: Command, w: Worker, copy: Option<seq<Entry>>, r: Rest): State {
    State(L.State(Some(c), map[c := L.Inside(copy)], r.ledger, r.updates), map[c := w], r.host, r.launched, r.log)
  }

  /** What a command's move changes outside it, when it rewrites nothing. */
  function Logged(c: Command, r: Rest, m: Move): Rest {
    if m.signal.None? then r else r.(log := r.log + [Sent(c, m.signal.value.0, m.signal.value.1)])
  }

  lemma SoloGoes(c: Command, w: Worker, r: Rest)
    requires Fits(w, r.ledger) && !w.stage.Between? && !w.stage.Leaving? && Advance(r.host, r.ledger, w).update.None?
    ensures var m := Advance(r.host, r.ledger, w);
            Next(Solo(c, w, Some(r.ledger), r), Go(c)) == Solo(c, m.next, Some(r.ledger), Logged(c, r, m))
  {
  }

  lemma SoloWrites(c: Command, w: Worker, r: Rest, u: Update, launched: set<(string, Identity)>)
    requires Fits(w, r.ledger) && !w.stage.Between? && !w.stage.Leaving?
    requires Advance(r.host, r.ledger, w) == Move(NextJob(w), None, Some(u))
    requires launched == if u.Recorded? then r.launched + {(u.entry.name, Who(u.entry.record))} else r.launched
    ensures Next(Solo(c, w, Some(r.ledger), r), Go(c))
         == Solo(c, NextJob(w), None, Rest(Apply(u, r.ledger), r.updates + [u], r.host, launched, r.log))
  {
  }

  lemma SoloBegins(c: Command, jobs: seq<Job>, copy: Option<seq<Entry>>, r: Rest)
    requires jobs != []
    ensures Next(Solo(c, Worker(jobs, Between, {}), copy, r), Go(c))
         == Solo(c, Worker(jobs, if jobs[0].StartJob? then StartCheck else StopNext(|r.ledger|), {}), Some(r.ledger), r)
  {
  }

  lemma SoloSpawns(c: Command, w: Worker, r: Rest, who: Identity)
    requires Fits(w, r.ledger) && w.stage.StartPopen? && who !in r.host.seen
    requires Evolves(r.host, Popened(r.host, who, w.jobs[0].exe, w.jobs[0].cmd))
    ensures Next(Solo(c, w, Some(r.ledger), r), Popen(c, who))
         == Solo(c, w.(stage := StartPoll(w.stage.checked, who)), Some(r.ledger),
                 r.(host := Popened(r.host, who, w.jobs[0].exe, w.jobs[0].cmd)))
  {
  }

  lemma SoloHost(c: Command, w: Worker, copy: Option<seq<Entry>>, r: Rest, h: Host)
    requires Evolves(r.host, h)
    ensures Next(Solo(c, w, copy, r), Os(h)) == Solo(c, w, copy, r.(host := h))
  {
  }

  lemma FreeHost(r: Rest, h: Host)
    requires Evolves(r.host, h)
    ensures Next(Free(r), Os(h)) == Free(r.(host := h))
  {
  }

  lemma GetsIn(c: Command, jobs: seq<Job>, r: Rest)
    ensures Next(Next(Free(r), Action.Launch(c, jobs)), Action.Enter(c)) == Solo(c, Worker(jobs, Between, {}), None, r)
  {
  }

  lemma GetsOut(c: Command, copy: Option<seq<Entry>>, r: Rest)
    ensures Next(Next(Solo(c, Worker([], Between, {}), copy, r), Go(c)), Go(c)) == Free(r)
  {
    var s := Solo(c, Worker([], Leaving, {}), copy, r);
    assert Next(Solo(c, Worker([], Between, {}), copy, r), Go(c)) == s;
  }

  // ----- Runs ------------------------------------------------------------------------------------

  /** The run leads from one state to the other, without the lock file being deleted. */
  ghost predicate Leads(s: State, actions: seq<Action>, s': State) {
    Steps(s, actions) == s' && forall a :: a in actions ==> !a.RemoveLock?
  }

  lemma LeadsNowhere(s: State)
    ensures Leads(s, [], s)
  {
  }

  lemma LeadsOn(s: State, actions: seq<Action>, s': State, a: Action)
    requires Leads(s, actions, s') && !a.RemoveLock?
    ensures Leads(s, actions + [a], Next(s', a))
  {
    OneMore(s, actions, a);
  }

  lemma LeadsTwice(s: State, actions: seq<Action>, s': State, a: Action, b: Action)
    requires Leads(s, actions, s') && !a.RemoveLock? && !b.RemoveLock?
    ensures Leads(s, actions + [a, b], Next(Next(s', a), b))
  {
    LeadsOn(s, actions, s', a);
    LeadsOn(s, actions + [a], Next(s', a), b);
    assert actions + [a] + [b] == actions + [a, b];
  }

  lemma {:induction false} LeadsCarefully(s: State, actions: seq<Action>)
    requires forall a :: a in actions ==> !a.RemoveLock?
    ensures Careful(s, actions)
    decreases |actions|
  {
    if actions != [] {
      assert actions[0] in actions;
      LeadsCarefully(Next(s, actions[0]), actions[1..]);
    }
  }

  // ----- A command that starts the service -------------------------------------------------------

  /** The ownership check, which succeeds in reading the process or does not. */
  function CheckStep(c: Command, read: bool): Action {
    if read then Go(c) else Fault(c)
  }

  function StartActions(c: Command, z: Scene, who: Identity, read: bool): seq<Action> {
    [Action.Launch(c, [StartOf(z)]), Action.Enter(c)] + [Go(c)] + [CheckStep(c, read)] + [Popen(c, who)]
    + [Go(c)] + [Go(c)] + [Go(c)] + [Go(c), Go(c)]
  }

  function Starting(z: Scene, stage: Stage): Worker {
    Worker([StartOf(z)], stage, {})
  }

  lemma SoloFaults(c: Command, w: Worker, r: Rest)
    requires Fits(w, r.ledger) && w.stage.StartCheck?
    ensures Next(Solo(c, w, Some(r.ledger), r), Fault(c))
         == Solo(c, w.(stage := StartPopen(Check(r.host, false))), Some(r.ledger), r)
  {
  }

  lemma SoloChecks(c: Command, z: Scene, r: Rest, read: bool)
    requires read && Find(r.ledger, z.name).Some? ==> !Owned(r.host, Find(r.ledger, z.name).value)
    ensures Next(Solo(c, Starting(z, StartCheck), Some(r.ledger), r), CheckStep(c, read))
         == Solo(c, Starting(z, StartPopen(Check(r.host, read))), Some(r.ledger), r)
  {
    if read {
      SoloGoes(c, Starting(z, StartCheck), r);
    } else {
      SoloFaults(c, Starting(z, StartCheck), r);
    }
  }

  /** Into the lock, the ledger read, the check not passed. */
  lemma StartBegins(s: State, before: seq<Action>, c: Command, z: Scene, r: Rest, read: bool)
    requires Leads(s, before, Free(r))
    requires read && Find(r.ledger, z.name).Some? ==> !Owned(r.host, Find(r.ledger, z.name).value)
    ensures Leads(s, before + [Action.Launch(c, [StartOf(z)]), Action.Enter(c)] + [Go(c)] + [CheckStep(c, read)],
                  Solo(c, Starting(z, StartPopen(Check(r.host, read))), Some(r.ledger), r))
  {
    var jobs := [StartOf(z)];
    var a := before + [Action.Launch(c, jobs), Action.Enter(c)];
    LeadsTwice(s, before, Free(r), Action.Launch(c, jobs), Action.Enter(c));
    GetsIn(c, jobs, r);
    LeadsOn(s, a, Solo(c, Starting(z, Between), None, r), Go(c));
    SoloBegins(c, jobs, None, r);
    LeadsOn(s, a + [Go(c)], Solo(c, Starting(z, StartCheck), Some(r.ledger), r), CheckStep(c, read));
    SoloChecks(c, z, r, read);
  }

  /** From an idle machine to an idle machine with one more process, recorded. */
  lemma Regroup<T>(before: seq<T>, a: seq<T>, b: seq<T>, c: seq<T>, d: seq<T>, e: seq<T>, f: seq<T>)
    ensures before + (a + b + c + d + e + e + e + f) == before + a + b + c + d + e + e + e + f
  {
  }

  lemma StartRuns(s: State, before: seq<Action>, c: Command, z: Scene, who: Identity, read: bool, r: Rest, r': Rest)
    requires Leads(s, before, Free(r)) && who !in r.host.seen
    requires read && Find(r.ledger, z.name).Some? ==> !Owned(r.host, Find(r.ledger, z.name).value)
    requires Evolves(r.host, r'.host) && r'.host == Popened(r.host, who, z.exe, z.cmd)
    requires r' == Rest(Put(r.ledger, EntryOf(z, who)), r.updates + [Recorded(EntryOf(z, who))], r'.host,
                        r.launched + {(z.name, who)}, r.log)
    ensures Leads(s, before + StartActions(c, z, who, read), Free(r'))
  {
    var q, checked := r.(host := r'.host), Check(r.host, read);
    var a := before + [Action.Launch(c, [StartOf(z)]), Action.Enter(c)] + [Go(c)] + [CheckStep(c, read)];
    StartBegins(s, before, c, z, r, read);
    StartSpawns(s, a, c, z, who, checked, r, q.host);
    StartEnds(s, a + [Popen(c, who)], c, z, who, checked, q, r');
    Regroup(before, [Action.Launch(c, [StartOf(z)]), Action.Enter(c)], [Go(c)], [CheckStep(c, read)], [Popen(c, who)],
            [Go(c)], [Go(c), Go(c)]);
  }

  lemma StartSpawns(s: State, before: seq<Action>, c: Command, z: Scene, who: Identity, checked: Check, r: Rest,
                    h: Host)
    requires Leads(s, before, Solo(c, Starting(z, StartPopen(checked)), Some(r.ledger), r))
    requires who !in r.host.seen && Evolves(r.host, h) && h == Popened(r.host, who, z.exe, z.cmd)
    ensures Leads(s, before + [Popen(c, who)],
                  Solo(c, Starting(z, StartPoll(checked, who)), Some(r.ledger), r.(host := h)))
  {
    var w := Starting(z, StartPopen(checked));
    LeadsOn(s, before, Solo(c, w, Some(r.ledger), r), Popen(c, who));
    SoloSpawns(c, w, r, who);
  }

  lemma StartEnds(s: State, before: seq<Action>, c: Command, z: Scene, who: Identity, checked: Check, q: Rest, r': Rest)
    requires Leads(s, before, Solo(c, Starting(z, StartPoll(checked, who)), Some(q.ledger), q))
    requires Alive(q.host, who) && Described(q.host, who, z.revision) == RecordOf(z, who)
    requires r' == Rest(Put(q.ledger, EntryOf(z, who)), q.updates + [Recorded(EntryOf(z, who))], q.host,
                        q.launched + {(z.name, who)}, q.log)
    ensures Leads(s, before + [Go(c)] + [Go(c)] + [Go(c)] + [Go(c), Go(c)], Free(r'))
  {
    var copy, write := Some(q.ledger), Starting(z, StartWrite(checked, RecordOf(z, who)));
    LeadsOn(s, before, Solo(c, Starting(z, StartPoll(checked, who)), copy, q), Go(c));
    SoloGoes(c, Starting(z, StartPoll(checked, who)), q);
    LeadsOn(s, before + [Go(c)], Solo(c, Starting(z, StartDescribe(checked, who)), copy, q), Go(c));
    SoloGoes(c, Starting(z, StartDescribe(checked, who)), q);
    LeadsOn(s, before + [Go(c)] + [Go(c)], Solo(c, write, copy, q), Go(c));
    SoloWrites(c, write, q, Recorded(EntryOf(z, who)), r'.launched);
    assert NextJob(write) == Worker([], Between, {});
    LeadsTwice(s, before + [Go(c)] + [Go(c)] + [Go(c)], Solo(c, Worker([], Between, {}), None, r'), Go(c), Go(c));
    GetsOut(c, None, r');
  }

  /** The machine once the first process is recorded. */
  function OneStarted(z: Scene, h: Host): Rest {
    Rest([EntryOf(z, z.first)], [Recorded(EntryOf(z, z.first))], h, {(z.name, z.first)}, [])
  }

  lemma FirstStarts(z: Scene)
    requires Apt(z)
    ensures Leads(Fresh(Empty()), StartActions(1, z, z.first, true), Free(OneStarted(z, Running(z))))
  {
    var r := Rest([], [], Empty(), {}, []);
    assert Free(r) == Fresh(Empty());
    SceneUnfolds(z);
    LeadsNowhere(Free(r));
    assert Put([], EntryOf(z, z.first)) == [EntryOf(z, z.first)];
    assert [] + [Recorded(EntryOf(z, z.first))] == [Recorded(EntryOf(z, z.first))];
    assert {} + {(z.name, z.first)} == {(z.name, z.first)};
    StartRuns(Free(r), [], 1, z, z.first, true, r, OneStarted(z, Running(z)));
    assert [] + StartActions(1, z, z.first, true) == StartActions(1, z, z.first, true);
  }

  // ----- Two live processes for one service ------------------------------------------------------

  function TwoLiveRun(z: Scene): seq<Action> {
    StartActions(1, z, z.first, true) + [Os(Renamed(z))] + StartActions(2, z, z.second, true)
  }

  function TwoStarted(z: Scene, h: Host): Rest {
    Rest([EntryOf(z, z.second)], [Recorded(EntryOf(z, z.first)), Recorded(EntryOf(z, z.second))], Both(z, h),
         {(z.name, z.first), (z.name, z.second)}, [])
  }

  /** Whatever the reason the check is not passed, the second start is recorded over the first. */
  lemma SecondRunsTo(z: Scene, before: seq<Action>, h: Host, read: bool)
    requires Apt(z) && (h == Renamed(z) || h == Running(z)) && Leads(Fresh(Empty()), before, Free(OneStarted(z, h)))
    requires read ==> !Owned(h, RecordOf(z, z.first))
    ensures Leads(Fresh(Empty()), before + StartActions(2, z, z.second, read), Free(TwoStarted(z, h)))
  {
    var r, r' := OneStarted(z, h), TwoStarted(z, h);
    SecondStarts(z, h);
    assert Put(r.ledger, EntryOf(z, z.second)) == [EntryOf(z, z.second)];
    assert r.updates + [Recorded(EntryOf(z, z.second))] == r'.updates;
    assert r.launched + {(z.name, z.second)} == r'.launched;
    StartRuns(Fresh(Empty()), before, 2, z, z.second, read, r, r');
  }

  lemma BothLive(z: Scene, h: Host)
    requires Apt(z) && (h == Renamed(z) || h == Running(z))
    ensures var s := Free(TwoStarted(z, h)); TwoLive(s, z.name) && Live(s, z.name, z.first) && Live(s, z.name, z.second)
  {
    SecondStarts(z, h);
    var s := Free(TwoStarted(z, h));
    assert z.first != z.second && Live(s, z.name, z.first) && Live(s, z.name, z.second);
  }

  /** A start, a change of command line, another start: two live processes recorded for one service. */
  lemma TwoMayLive(z: Scene)
    requires Apt(z)
    ensures var s := Steps(Fresh(Empty()), TwoLiveRun(z));
            && Valid(Empty()) && Careful(Fresh(Empty()), TwoLiveRun(z))
            && TwoLive(s, z.name) && Live(s, z.name, z.first) && Live(s, z.name, z.second)
  {
    FirstStarts(z);
    SceneUnfolds(z);
    LeadsOn(Fresh(Empty()), StartActions(1, z, z.first, true), Free(OneStarted(z, Running(z))), Os(Renamed(z)));
    FreeHost(OneStarted(z, Running(z)), Renamed(z));
    SecondRunsTo(z, StartActions(1, z, z.first, true) + [Os(Renamed(z))], Renamed(z), true);
    BothLive(z, Renamed(z));
    LeadsCarefully(Fresh(Empty()), TwoLiveRun(z));
  }

  function UnreadableRun(z: Scene): seq<Action> {
    StartActions(1, z, z.first, true) + StartActions(2, z, z.second, false)
  }

  /** Two starts, the first process unchanged but not readable at the second check: two live ones again. */
  lemma UnreadableMayLeaveTwo(z: Scene)
    requires Apt(z)
    ensures var s := Steps(Fresh(Empty()), UnreadableRun(z));
            && Valid(Empty()) && Careful(Fresh(Empty()), UnreadableRun(z))
            && TwoLive(s, z.name) && Live(s, z.name, z.first) && Live(s, z.name, z.second)
  {
    FirstStarts(z);
    SceneUnfolds(z);
    SecondRunsTo(z, StartActions(1, z, z.first, true), Running(z), false);
    BothLive(z, Running(z));
    LeadsCarefully(Fresh(Empty()), UnreadableRun(z));
  }

  // ----- A stop ----------------------------------------------------------------------------------

  function Stopping(stage: Stage, killed: set<Identity>): Worker {
    Worker([StopJob(None)], stage, killed)
  }

  /** Start the service, then begin to stop all services: the record is found owned. */
  function StopBegins(z: Scene): seq<Action> {
    StartActions(1, z, z.first, true) + [Action.Launch(2, [StopJob(None)]), Action.Enter(2)] + [Go(2)] + [Go(2)]
  }

  lemma StopLooksUp(z: Scene)
    requires Apt(z)
    ensures var r := OneStarted(z, Running(z));
            Leads(Fresh(Empty()), StopBegins(z), Solo(2, Stopping(StopLookup(0, r.host), {}), Some(r.ledger), r))
  {
    var r, s, a := OneStarted(z, Running(z)), Fresh(Empty()), StartActions(1, z, z.first, true);
    var enters := [Action.Launch(2, [StopJob(None)]), Action.Enter(2)];
    FirstStarts(z);
    LeadsTwice(s, a, Free(r), Action.Launch(2, [StopJob(None)]), Action.Enter(2));
    GetsIn(2, [StopJob(None)], r);
    LeadsOn(s, a + enters, Solo(2, Stopping(Between, {}), None, r), Go(2));
    SoloBegins(2, [StopJob(None)], None, r);
    LeadsOn(s, a + enters + [Go(2)], Solo(2, Stopping(StopNext(1), {}), Some(r.ledger), r), Go(2));
    assert Owned(r.host, RecordOf(z, z.first));
    SoloGoes(2, Stopping(StopNext(1), {}), r);
  }

  /** The target the turn takes on a host, and how far it gets: looked up, listed, asked. */
  function TargetOn(z: Scene, who: Identity, h: Host): Target {
    Target(RecordOf(z, z.first), who, Running(z), h, h)
  }

  function Signalled(z: Scene, who: Identity, h: Host, kill: bool): Sent {
    Sent(2, Signal(who, kill), TargetOn(z, who, h))
  }

  lemma TurnAsks(s: State, before: seq<Action>, z: Scene, who: Identity, h: Host)
    requires var r := OneStarted(z, h);
             Leads(s, before, Solo(2, Stopping(StopLookup(0, Running(z)), {}), Some(r.ledger), r))
    requires z.first.pid in h.live && h.live[z.first.pid].who == who && who.pid == z.first.pid
    ensures var r := OneStarted(z, h).(log := [Signalled(z, who, h, false)]);
            Leads(s, before + [Go(2)] + [Go(2)] + [Go(2)],
                  Solo(2, Stopping(StopTurn(0, TargetOn(z, who, h), Wait), {}), Some(r.ledger), r))
  {
    var r, t := OneStarted(z, h), TargetOn(z, who, h);
    LeadsOn(s, before, Solo(2, Stopping(StopLookup(0, Running(z)), {}), Some(r.ledger), r), Go(2));
    SoloGoes(2, Stopping(StopLookup(0, Running(z)), {}), r);
    LeadsOn(s, before + [Go(2)], Solo(2, Stopping(StopList(0, t), {}), Some(r.ledger), r), Go(2));
    SoloGoes(2, Stopping(StopList(0, t), {}), r);
    LeadsOn(s, before + [Go(2)] + [Go(2)], Solo(2, Stopping(StopTurn(0, t, Ask), {}), Some(r.ledger), r), Go(2));
    SoloGoes(2, Stopping(StopTurn(0, t, Ask), {}), r);
    assert [] + [Signalled(z, who, h, false)] == [Signalled(z, who, h, false)];
  }

  // ----- A stranger signalled --------------------------------------------------------------------

  function StrangerRun(z: Scene): seq<Action> {
    StopBegins(z) + [Os(Replaced(z))] + [Go(2)] + [Go(2)] + [Go(2)]
  }

  /** The recorded process ends between the ownership check and the lookup, another gets its id, and is signalled. */
  lemma StrangerMayBeSignalled(z: Scene)
    requires Apt(z)
    ensures var s := Steps(Fresh(Empty()), StrangerRun(z));
            && Valid(Empty()) && Careful(Fresh(Empty()), StrangerRun(z))
            && s.log == [Signalled(z, z.stranger, Replaced(z), false)] && forall n :: (n, z.stranger) !in s.launched
  {
    var r := OneStarted(z, Running(z));
    StopLooksUp(z);
    SceneUnfolds(z);
    var w := Stopping(StopLookup(0, r.host), {});
    LeadsOn(Fresh(Empty()), StopBegins(z), Solo(2, w, Some(r.ledger), r), Os(Replaced(z)));
    SoloHost(2, w, Some(r.ledger), r, Replaced(z));
    TurnAsks(Fresh(Empty()), StopBegins(z) + [Os(Replaced(z))], z, z.stranger, Replaced(z));
    LeadsCarefully(Fresh(Empty()), StrangerRun(z));
  }

  // ----- A process that survives its stop --------------------------------------------------------

  function SurvivorRun(z: Scene): seq<Action> {
    StopBegins(z) + [Go(2)] + [Go(2)] + [Go(2)] + [Go(2)] + [Go(2)] + [Go(2)] + [Go(2)] + [Go(2)] + [Go(2)]
  }

  lemma NoChildren(z: Scene)
    ensures Descendants(Running(z), z.first) == {}
  {
  }

  /** One step of the killed process's turn. */
  lemma TurnGoes(s: State, before: seq<Action>, z: Scene, r: Rest, phase: Phase, stage: Stage)
    requires r.ledger == [EntryOf(z, z.first)]
    requires var w := Stopping(StopTurn(0, TargetOn(z, z.first, r.host), phase), {z.first});
             Advance(r.host, r.ledger, w) == To(w, stage) && Leads(s, before, Solo(2, w, Some(r.ledger), r))
    ensures Leads(s, before + [Go(2)], Solo(2, Stopping(stage, {z.first}), Some(r.ledger), r))
  {
    var w := Stopping(StopTurn(0, TargetOn(z, z.first, r.host), phase), {z.first});
    LeadsOn(s, before, Solo(2, w, Some(r.ledger), r), Go(2));
    SoloGoes(2, w, r);
  }

  /** Killed, with no children, and not waited for: the turn ends. */
  lemma TurnEnds(s: State, before: seq<Action>, z: Scene, r: Rest)
    requires r.host == Running(z) && r.ledger == [EntryOf(z, z.first)]
    requires Leads(s, before,
                   Solo(2, Stopping(StopTurn(0, TargetOn(z, z.first, r.host), AskChildren({})), {z.first}),
                        Some(r.ledger), r))
    ensures Leads(s, before + [Go(2)] + [Go(2)] + [Go(2)], Solo(2, Stopping(StopNext(0), {z.first}), Some(r.ledger), r))
  {
    var t := TargetOn(z, z.first, r.host);
    NoChildren(z);
    TurnGoes(s, before, z, r, AskChildren({}), StopTurn(0, t, WaitChildren));
    assert Outliving(r.host, t) == {};
    TurnGoes(s, before + [Go(2)], z, r, WaitChildren, StopTurn(0, t, KillChildren({})));
    TurnGoes(s, before + [Go(2)] + [Go(2)], z, r, KillChildren({}), StopNext(0));
  }

  /** And the stop writes. */
  lemma StopWrites(s: State, before: seq<Action>, z: Scene, r: Rest)
    requires r == OneStarted(z, Running(z)).(log := r.log)
    requires Leads(s, before, Solo(2, Stopping(StopNext(0), {z.first}), Some(r.ledger), r))
    ensures Leads(s, before + [Go(2)],
                  Solo(2, Worker([], Between, {}), None,
                       Rest([], [Recorded(EntryOf(z, z.first)), Dropped(None)], r.host, r.launched, r.log)))
  {
    var w := Stopping(StopNext(0), {z.first});
    LeadsOn(s, before, Solo(2, w, Some(r.ledger), r), Go(2));
    SoloWrites(2, w, r, Dropped(None), r.launched);
    assert Kept(r.ledger, None) == [] && NextJob(w) == Worker([], Between, {});
    assert r.updates + [Dropped(None)] == [Recorded(EntryOf(z, z.first)), Dropped(None)];
  }

  /** What has been logged once the first process was asked, and once it was killed. */
  function AskedLog(z: Scene): Rest {
    OneStarted(z, Running(z)).(log := [Signalled(z, z.first, Running(z), false)])
  }

  function KilledLog(z: Scene): Rest {
    var asked, killed := Signalled(z, z.first, Running(z), false), Signalled(z, z.first, Running(z), true);
    OneStarted(z, Running(z)).(log := [asked, killed])
  }

  /** It outlives the wait, and is killed. */
  lemma SurvivorIsKilled(s: State, before: seq<Action>, z: Scene)
    requires Leads(s, before, Solo(2, Stopping(StopTurn(0, TargetOn(z, z.first, Running(z)), Wait), {}),
                                   Some(AskedLog(z).ledger), AskedLog(z)))
    ensures Leads(s, before + [Go(2)] + [Go(2)],
                  Solo(2, Stopping(StopTurn(0, TargetOn(z, z.first, Running(z)), AskChildren({})), {z.first}),
                       Some(KilledLog(z).ledger), KilledLog(z)))
  {
    var r, t := AskedLog(z), TargetOn(z, z.first, Running(z));
    var waiting, killing := Stopping(StopTurn(0, t, Wait), {}), Stopping(StopTurn(0, t, Kill), {});
    LeadsOn(s, before, Solo(2, waiting, Some(r.ledger), r), Go(2));
    SoloGoes(2, waiting, r);
    LeadsOn(s, before + [Go(2)], Solo(2, killing, Some(r.ledger), r), Go(2));
    SoloGoes(2, killing, r);
    NoChildren(z);
    assert r.log + [Signalled(z, z.first, Running(z), true)] == KilledLog(z).log && {} + {z.first} == {z.first};
  }

  lemma SurvivorRunsTo(z: Scene)
    requires Apt(z)
    ensures Leads(Fresh(Empty()), SurvivorRun(z),
                  Solo(2, Worker([], Between, {}), None,
                       Rest([], [Recorded(EntryOf(z, z.first)), Dropped(None)], Running(z), {(z.name, z.first)},
                            KilledLog(z).log)))
  {
    var s, a := Fresh(Empty()), StopBegins(z);
    StopLooksUp(z);
    TurnAsks(s, a, z, z.first, Running(z));
    var b := a + [Go(2)] + [Go(2)] + [Go(2)];
    SurvivorIsKilled(s, b, z);
    TurnEnds(s, b + [Go(2)] + [Go(2)], z, KilledLog(z));
    StopWrites(s, b + [Go(2)] + [Go(2)] + [Go(2)] + [Go(2)] + [Go(2)], z, KilledLog(z));
  }

  /**
   The process outlives the wait and, for a moment, the kill nobody waits for: the stop has returned and it
   is alive.
   */
  lemma StoppedMayLive(z: Scene)
    requires Apt(z)
    ensures var s := Steps(Fresh(Empty()), SurvivorRun(z));
            && Valid(Empty()) && Careful(Fresh(Empty()), SurvivorRun(z))
            && s.lock.ledger == [] && 2 in s.workers && s.workers[2] == Worker([], Between, {})
            && s.log == [Signalled(z, z.first, Running(z), false), Signalled(z, z.first, Running(z), true)]
            && Live(s, z.name, z.first)
  {
    SurvivorRunsTo(z);
    SceneUnfolds(z);
    LeadsCarefully(Fresh(Empty()), SurvivorRun(z));
  }
}
