/**
 The image server's request handler: one image request at a time behind a try-lock, with counters and a
 bounded history that are read and written under it.

 Requests run concurrently. A counter update is two steps, a read and a write, so it is the lock and
 nothing else that keeps updates from being lost.
 */
module ImageServer {
  import opened Common

  type Request = nat

  const MAX_PIXELS := 1408 * 1024
  const HISTORY := 50

  datatype Body = Body(width: nat, height: nat, n: nat)

  /** What the request model admits: one to four images. */
  predicate WellTyped(b: Body) {
    1 <= b.n <= 4
  }

  predicate Acceptable(b: Body) {
    && b.width % 8 == 0 && b.height % 8 == 0
    && b.width * b.height <= MAX_PIXELS && b.width >= 256 && b.height >= 256
  }

  datatype Reply = BadRequest | NotLoaded | LowMemory | Busy | Failed | Finished

  /** Where a request is. From `Making` to `Leaving` it holds the lock. */
  datatype Phase =
    | Arrived
    | Accepted
    | Making(images: nat)
    | CountingFailure(read: nat)
    | CountingMade(seconds: real, read: nat)
    | Recording(seconds: real)
    | Leaving(reply: Reply)
    | Ended(reply: Reply)

  datatype Call = Call(body: Body, phase: Phase)

  datatype Success = Success(n: nat, perImage: real)

  /**
   `admitted`, `released`, `successes` and `pipelineFailures` record what happened, in order; no step reads
   them.
   */
  datatype Server = Server(lock: Option<Request>, loaded: bool, made: nat, failed: nat, recent: seq<real>,
                           calls: map<Request, Call>, admitted: seq<Request>, released: seq<Request>,
                           successes: seq<Success>, pipelineFailures: nat)

  predicate Holding(p: Phase) {
    p.Making? || p.CountingFailure? || p.CountingMade? || p.Recording? || p.Leaving?
  }

  /** `deque(maxlen=50).append`. */
  function Push(recent: seq<real>, x: real): seq<real> {
    if |recent| < HISTORY then recent + [x] else recent[1..] + [x]
  }

  function Last(s: seq<real>): (r: seq<real>)
    ensures |r| == if |s| < HISTORY then |s| else HISTORY
  {
    if |s| <= HISTORY then s else s[|s| - HISTORY..]
  }

  function Times(successes: seq<Success>): (r: seq<real>)
    ensures |r| == |successes|
  {
    if successes == [] then [] else Times(successes[..|successes| - 1]) + [successes[|successes| - 1].perImage]
  }

  function Images(successes: seq<Success>): nat {
    if successes == [] then 0 else Images(successes[..|successes| - 1]) + successes[|successes| - 1].n
  }

  datatype Action =
    | Arrive(r: Request, body: Body)
    | Validate(r: Request)
    | TryLock(r: Request, enoughMemory: bool)
    | ImageMade(r: Request)
    | PipelineRaises(r: Request)
    | EncodingRaises(r: Request)
    | Raises(r: Request)
    | WriteFailed(r: Request)
    | LoopDone(r: Request, seconds: real)
    | WriteMade(r: Request)
    | AppendTime(r: Request)
    | Release(r: Request)

  function Go(s: Server, r: Request, p: Phase): Server
    requires r in s.calls
  {
    s.(calls := s.calls[r := s.calls[r].(phase := p)])
  }

  /**
   One step of one request; a step that is not the request's next does nothing. `Raises` is any exception
   other than the pipeline's or the encoder's, at any point between acquire and the release that follows.
   */
  function Next(s: Server, a: Action): Server {
    if a.Arrive? then
      if a.r in s.calls || !WellTyped(a.body) then s else s.(calls := s.calls[a.r := Call(a.body, Arrived)])
    else if a.r !in s.calls then s
    else
      var r, body, p := a.r, s.calls[a.r].body, s.calls[a.r].phase;
      match a
      case Validate(_) => if p.Arrived? then Go(s, r, if Acceptable(body) then Accepted else Ended(BadRequest)) else s
      case TryLock(_, enough) =>
        if !p.Accepted? then s
        else if !s.loaded then Go(s, r, Ended(NotLoaded))
        else if !enough then Go(s, r, Ended(LowMemory))
        else if s.lock.Some? then Go(s, r, Ended(Busy))
        else Go(s, r, Making(0)).(lock := Some(r), admitted := s.admitted + [r])
      case ImageMade(_) => if p.Making? && p.images < body.n then Go(s, r, Making(p.images + 1)) else s
      case PipelineRaises(_) =>
        if p.Making? && p.images < body.n
        then Go(s, r, CountingFailure(s.failed)).(pipelineFailures := s.pipelineFailures + 1) else s
      case EncodingRaises(_) => if p.Making? && p.images < body.n then Go(s, r, Leaving(Failed)) else s
      case Raises(_) => if Holding(p) && !p.Leaving? then Go(s, r, Leaving(Failed)) else s
      case WriteFailed(_) => if p.CountingFailure? then Go(s, r, Leaving(Failed)).(failed := p.read + 1) else s
      case LoopDone(_, seconds) =>
        if p.Making? && p.images == body.n then Go(s, r, CountingMade(seconds, s.made)) else s
      case WriteMade(_) => if p.CountingMade? then Go(s, r, Recording(p.seconds)).(made := p.read + body.n) else s
      case AppendTime(_) =>
        if p.Recording? && body.n > 0
        then Go(s, r, Leaving(Finished)).(recent := Push(s.recent, p.seconds / body.n as real),
                                          successes := s.successes + [Success(body.n, p.seconds / body.n as real)])
        else s
      case Release(_) =>
        if p.Leaving? then Go(s, r, Ended(p.reply)).(lock := None, released := s.released + [r]) else s
  }

  function Steps(s: Server, actions: seq<Action>): Server
    decreases |actions|
  {
    if actions == [] then s else Steps(Next(s, actions[0]), actions[1..])
  }

  function Fresh(loaded: bool): Server {
    Server(None, loaded, 0, 0, [], map[], [], [], [], 0)
  }

  /** Images whose count is in `made` although their request is not recorded as a success yet. */
  function InFlight(s: Server): nat {
    if s.lock.Some? && s.lock.value in s.calls && s.calls[s.lock.value].phase.Recording?
    then s.calls[s.lock.value].body.n else 0
  }

  /** A pipeline failure that has happened but is not in `failed` yet. */
  function Uncounted(s: Server): nat {
    if s.lock.Some? && s.lock.value in s.calls && s.calls[s.lock.value].phase.CountingFailure? then 1 else 0
  }

  predicate FreshRead(s: Server, p: Phase) {
    (p.CountingFailure? ==> p.read == s.failed) && (p.CountingMade? ==> p.read == s.made)
  }

  predicate CallOk(s: Server, r: Request)
    requires r in s.calls
  {
    var p := s.calls[r].phase;
    && WellTyped(s.calls[r].body)
    && (Holding(p) ==> s.lock == Some(r) && r in s.admitted && FreshRead(s, p))
    && (Holding(p) || p.Accepted? ==> Acceptable(s.calls[r].body))
    && (r in s.admitted ==> Holding(p) || p.Ended?)
  }

  /** The lock belongs to the one request between acquire and release; what it read under the lock is still so. */
  ghost predicate LockInv(s: Server) {
    && (forall r :: r in s.calls ==> CallOk(s, r))
    && (s.lock.Some? ==> s.lock.value in s.calls && Holding(s.calls[s.lock.value].phase))
    && (forall r :: r in s.admitted ==> r in s.calls)
    && Distinct(s.admitted)
    && s.admitted == s.released + if s.lock.Some? then [s.lock.value] else []
  }

  /**
   `spilled` images were counted by requests that raised before their success was recorded; `missed` failures
   went uncounted.
   */
  ghost predicate CountInv(s: Server, spilled: nat, missed: nat) {
    && s.made == Images(s.successes) + InFlight(s) + spilled
    && s.failed + Uncounted(s) + missed == s.pipelineFailures
    && s.recent == Last(Times(s.successes))
  }

  /** A raise between the write of `made` and the recording of the time. */
  predicate Spills(s: Server, a: Action) {
    a.Raises? && a.r in s.calls && s.calls[a.r].phase.Recording?
  }

  /** A raise between a pipeline failure and the write of `failed`. */
  predicate Misses(s: Server, a: Action) {
    a.Raises? && a.r in s.calls && s.calls[a.r].phase.CountingFailure?
  }

  /** Images counted without a success, along a run. */
  function Spilled(s: Server, actions: seq<Action>): nat
    decreases |actions|
  {
    if actions == [] then 0
    else
      var now := if Spills(s, actions[0]) then s.calls[actions[0].r].body.n else 0;
      now + Spilled(Next(s, actions[0]), actions[1..])
  }

  function Missed(s: Server, actions: seq<Action>): nat
    decreases |actions|
  {
    if actions == [] then 0
    else (if Misses(s, actions[0]) then 1 else 0) + Missed(Next(s, actions[0]), actions[1..])
  }

  lemma PushIsLast(s: seq<real>, x: real)
    ensures Push(Last(s), x) == Last(s + [x])
  {
  }

  /** Steps before the lock is tried. */
  lemma EarlyStepKeepsLock(s: Server, a: Action)
    requires LockInv(s) && (a.Arrive? || a.Validate?)
    ensures LockInv(Next(s, a))
  {
    var s' := Next(s, a);
    assert a.r in s.calls ==> CallOk(s, a.r);
    forall r | r in s'.calls ensures CallOk(s', r) {
      assert r in s.calls ==> CallOk(s, r);
    }
  }

  /** Steps of the request that holds the lock, short of releasing it. */
  lemma InnerStepKeepsLock(s: Server, a: Action)
    requires LockInv(s) && !a.Arrive? && !a.Validate? && !a.TryLock? && !a.Release?
    ensures LockInv(Next(s, a))
  {
    var s' := Next(s, a);
    if s' != s {
      assert CallOk(s, a.r) && s.lock == Some(a.r);
      forall r | r in s'.calls ensures CallOk(s', r) {
        assert CallOk(s, r);
      }
    }
  }

  lemma TryLockKeepsLock(s: Server, a: Action)
    requires LockInv(s) && a.TryLock?
    ensures LockInv(Next(s, a))
  {
    if a.r in s.calls && s.calls[a.r].phase.Accepted? {
      assert CallOk(s, a.r);
      if s.loaded && a.enoughMemory && s.lock.None? {
        AdmissionKeepsLock(s, a.r);
      } else {
        RefusalKeepsLock(s, a);
      }
    }
  }

  lemma RefusalKeepsLock(s: Server, a: Action)
    requires LockInv(s) && a.TryLock? && a.r in s.calls && s.calls[a.r].phase.Accepted?
    requires !s.loaded || !a.enoughMemory || s.lock.Some?
    ensures LockInv(Next(s, a))
  {
    var s' := Next(s, a);
    forall r | r in s'.calls ensures CallOk(s', r) {
      assert CallOk(s, r);
    }
  }

  lemma AdmissionKeepsLock(s: Server, r: Request)
    requires LockInv(s) && r in s.calls && s.calls[r].phase.Accepted? && s.lock.None?
    ensures LockInv(Go(s, r, Making(0)).(lock := Some(r), admitted := s.admitted + [r]))
  {
    var s' := Go(s, r, Making(0)).(lock := Some(r), admitted := s.admitted + [r]);
    assert CallOk(s, r);
    forall q | q in s'.calls ensures CallOk(s', q) {
      assert CallOk(s, q);
    }
  }

  lemma ReleaseKeepsLock(s: Server, a: Action)
    requires LockInv(s) && a.Release?
    ensures LockInv(Next(s, a))
  {
    var s' := Next(s, a);
    if a.r in s.calls {
      assert CallOk(s, a.r);
    }
    forall r | r in s'.calls ensures CallOk(s', r) {
      assert CallOk(s, r);
    }
  }

  lemma StepKeepsLock(s: Server, a: Action)
    requires LockInv(s)
    ensures LockInv(Next(s, a))
  {
    if a.TryLock? {
      TryLockKeepsLock(s, a);
    } else if a.Release? {
      ReleaseKeepsLock(s, a);
    } else if a.Arrive? || a.Validate? {
      EarlyStepKeepsLock(s, a);
    } else {
      InnerStepKeepsLock(s, a);
    }
  }

  lemma OneMoreSuccess(successes: seq<Success>, x: Success)
    ensures Images(successes + [x]) == Images(successes) + x.n
    ensures Push(Last(Times(successes)), x.perImage) == Last(Times(successes + [x]))
  {
    assert (successes + [x])[..|successes|] == successes;
    PushIsLast(Times(successes), x.perImage);
  }

  lemma AppendKeepsCounts(s: Server, a: Action, spilled: nat, missed: nat)
    requires LockInv(s) && CountInv(s, spilled, missed) && a.AppendTime?
    ensures CountInv(Next(s, a), spilled, missed)
  {
    var s' := Next(s, a);
    if s' != s {
      assert CallOk(s, a.r) && s.lock == Some(a.r);
      var x := s'.successes[|s.successes|];
      assert s'.successes == s.successes + [x] && s'.recent == Push(s.recent, x.perImage);
      OneMoreSuccess(s.successes, x);
    }
  }

  /** Writing a counter down: the value was read under the same lock. */
  lemma WriteKeepsCounts(s: Server, a: Action, spilled: nat, missed: nat)
    requires LockInv(s) && CountInv(s, spilled, missed)
    requires a.WriteMade? || a.WriteFailed? || a.LoopDone? || a.PipelineRaises?
    ensures CountInv(Next(s, a), spilled, missed)
  {
    if Next(s, a) != s {
      assert CallOk(s, a.r) && s.lock == Some(a.r);
    }
  }

  lemma OtherStepKeepsCounts(s: Server, a: Action, spilled: nat, missed: nat)
    requires LockInv(s) && CountInv(s, spilled, missed)
    requires a.Arrive? || a.Validate? || a.TryLock? || a.ImageMade? || a.EncodingRaises? || a.Release?
    ensures CountInv(Next(s, a), spilled, missed)
  {
    assert a.r in s.calls ==> CallOk(s, a.r);
  }

  lemma RaiseKeepsCounts(s: Server, a: Action, spilled: nat, missed: nat)
    requires LockInv(s) && CountInv(s, spilled, missed) && a.Raises?
    ensures CountInv(Next(s, a), spilled + (if Spills(s, a) then s.calls[a.r].body.n else 0),
                     missed + if Misses(s, a) then 1 else 0)
  {
    if Next(s, a) != s {
      assert CallOk(s, a.r) && s.lock == Some(a.r);
    }
  }

  lemma StepKeepsCounts(s: Server, a: Action, spilled: nat, missed: nat)
    requires LockInv(s) && CountInv(s, spilled, missed)
    ensures CountInv(Next(s, a), spilled + (if Spills(s, a) then s.calls[a.r].body.n else 0),
                     missed + if Misses(s, a) then 1 else 0)
  {
    if a.AppendTime? {
      AppendKeepsCounts(s, a, spilled, missed);
    } else if a.WriteMade? || a.WriteFailed? || a.LoopDone? || a.PipelineRaises? {
      WriteKeepsCounts(s, a, spilled, missed);
    } else if a.Raises? {
      RaiseKeepsCounts(s, a, spilled, missed);
    } else {
      OtherStepKeepsCounts(s, a, spilled, missed);
    }
  }

  lemma {:induction false} StepsKeepInv(s: Server, actions: seq<Action>, spilled: nat, missed: nat)
    requires LockInv(s) && CountInv(s, spilled, missed)
    ensures LockInv(Steps(s, actions))
    ensures CountInv(Steps(s, actions), spilled + Spilled(s, actions), missed + Missed(s, actions))
    decreases |actions|
  {
    if actions != [] {
      var a := actions[0];
      StepKeepsLock(s, a);
      StepKeepsCounts(s, a, spilled, missed);
      StepsKeepInv(Next(s, a), actions[1..], spilled + (if Spills(s, a) then s.calls[a.r].body.n else 0),
                   missed + if Misses(s, a) then 1 else 0);
    }
  }

  /**
   Whatever the interleaving and whatever raises: at most one request is between acquire and release;
   releases follow admissions one for one, in order, the last one outstanding only while a request holds
   the lock; and every admitted request kept to the size limits.
   */
  lemma OneAtATime(loaded: bool, actions: seq<Action>, q: Request, r: Request)
    requires q in Steps(Fresh(loaded), actions).calls && r in Steps(Fresh(loaded), actions).calls
    ensures var s := Steps(Fresh(loaded), actions);
            && (Holding(s.calls[q].phase) && Holding(s.calls[r].phase) ==> q == r)
            && Distinct(s.admitted)
            && s.admitted == s.released + (if s.lock.Some? then [s.lock.value] else [])
            && (Holding(s.calls[r].phase) ==> s.lock == Some(r) && Acceptable(s.calls[r].body))
  {
    StepsKeepInv(Fresh(loaded), actions, 0, 0);
    var s := Steps(Fresh(loaded), actions);
    assert CallOk(s, q) && CallOk(s, r);
  }

  /** A step of the run, on the state it finds. */
  ghost predicate Along(s: Server, actions: seq<Action>, bad: (Server, Action) -> bool)
    decreases |actions|
  {
    actions != [] && (bad(s, actions[0]) || Along(Next(s, actions[0]), actions[1..], bad))
  }

  lemma {:induction false} SpilledExactlyWhen(s: Server, actions: seq<Action>)
    requires LockInv(s)
    ensures Spilled(s, actions) > 0 <==> Along(s, actions, Spills)
    decreases |actions|
  {
    if actions != [] {
      StepKeepsLock(s, actions[0]);
      SpilledExactlyWhen(Next(s, actions[0]), actions[1..]);
      assert Spills(s, actions[0]) ==> CallOk(s, actions[0].r);
    }
  }

  lemma {:induction false} MissedExactlyWhen(s: Server, actions: seq<Action>)
    ensures Missed(s, actions) > 0 <==> Along(s, actions, Misses)
    decreases |actions|
  {
    if actions != [] {
      MissedExactlyWhen(Next(s, actions[0]), actions[1..]);
    }
  }

  /**
   Whenever no request holds the lock: `recent` is the last fifty per-image times in completion order;
   `made` is the images of all fully successful requests exactly when nothing raised between a write of
   `made` and the recording that follows; `failed` is the number of pipeline failures exactly when nothing
   raised between one and its counting.
   */
  lemma CountersAreExact(loaded: bool, actions: seq<Action>)
    requires Steps(Fresh(loaded), actions).lock.None?
    ensures var s := Steps(Fresh(loaded), actions);
            && s.recent == Last(Times(s.successes))
            && (s.made == Images(s.successes) <==> !Along(Fresh(loaded), actions, Spills))
            && (s.failed == s.pipelineFailures <==> !Along(Fresh(loaded), actions, Misses))
            && s.made == Images(s.successes) + Spilled(Fresh(loaded), actions)
            && s.failed + Missed(Fresh(loaded), actions) == s.pipelineFailures
  {
    StepsKeepInv(Fresh(loaded), actions, 0, 0);
    SpilledExactlyWhen(Fresh(loaded), actions);
    MissedExactlyWhen(Fresh(loaded), actions);
  }

  /** Without the lock's exclusion the same steps lose an update: two requests read `made` before either writes it. */
  lemma UnlockedUpdatesAreLost(s: Server, q: Request, r: Request, x: real, y: real)
    requires q != r && q in s.calls && r in s.calls
    requires s.calls[q].phase == Making(s.calls[q].body.n) && s.calls[r].phase == Making(s.calls[r].body.n)
    requires s.calls[q].body.n > 0
    ensures var s' := Steps(s, [LoopDone(q, x), LoopDone(r, y), WriteMade(q), WriteMade(r)]);
            s'.made == s.made + s.calls[r].body.n
  {
    var s1 := Next(s, LoopDone(q, x));
    var s2 := Next(s1, LoopDone(r, y));
    var s3 := Next(s2, WriteMade(q));
    var s4 := Next(s3, WriteMade(r));
    var four := [LoopDone(q, x), LoopDone(r, y), WriteMade(q), WriteMade(r)];
    assert four[1..][1..][1..][1..] == [];
    assert four[1..][0] == LoopDone(r, y) && four[1..][1..][0] == WriteMade(q)
           && four[1..][1..][1..][0] == WriteMade(r);
    assert Steps(s, four) == Steps(s1, four[1..]);
    assert Steps(s1, four[1..]) == Steps(s2, four[1..][1..]);
    assert Steps(s2, four[1..][1..]) == Steps(s3, four[1..][1..][1..]);
    assert Steps(s3, four[1..][1..][1..]) == Steps(s4, four[1..][1..][1..][1..]);
  }

  // ----- The handler -----------------------------------------------------------------------------

  /** What happens while image i is made. */
  datatype Attempt = Works | Pipeline | Encoding

  /** The first attempt that raises, if any of the first n does. */
  function FirstProblem(attempts: nat -> Attempt, n: nat): (r: Option<nat>)
    ensures r.Some? ==> r.value < n && !attempts(r.value).Works? && forall i :: 0 <= i < r.value ==> attempts(i).Works?
    ensures r.None? ==> forall i :: 0 <= i < n ==> attempts(i).Works?
  {
    if n == 0 then None
    else if FirstProblem(attempts, n - 1).Some? then FirstProblem(attempts, n - 1)
    else if attempts(n - 1).Works? then None else Some(n - 1)
  }

  /** What the handler finds: the request, the state of the server, and how its images turn out. */
  datatype Given = Given(body: Body, loaded: bool, enoughMemory: bool, busy: bool, attempts: nat -> Attempt,
                         seconds: real)

  datatype Counters = Counters(made: nat, failed: nat, recent: seq<real>)

  /** The refusals in their order, then what became of the images, and the counters that go with the reply. */
  ghost predicate Answered(g: Given, reply: Reply, before: Counters, after: Counters)
    requires WellTyped(g.body)
  {
    var problem := FirstProblem(g.attempts, g.body.n);
    && reply == (if !Acceptable(g.body) then BadRequest
                 else if !g.loaded then NotLoaded
                 else if !g.enoughMemory then LowMemory
                 else if g.busy then Busy
                 else if problem.Some? then Failed
                 else Finished)
    && after.made == before.made + (if reply.Finished? then g.body.n else 0)
    && after.failed == before.failed + (if reply.Failed? && g.attempts(problem.value).Pipeline? then 1 else 0)
    && after.recent == if reply.Finished? then Push(before.recent, g.seconds / g.body.n as real) else before.recent
  }

  class Handler {
    var locked: bool
    var made: nat
    var failed: nat
    var recent: seq<real>

    constructor ()
      ensures !locked && made == 0 && failed == 0 && recent == []
    {
      locked, made, failed, recent := false, 0, 0, [];
    }

    /** `generate`: the refusals in their order, then the try-lock, which is given back however the request ends. */
    method Generate(body: Body, loaded: bool, enoughMemory: bool, attempts: nat -> Attempt, seconds: real)
      returns (reply: Reply)
      requires WellTyped(body)
      modifies this
      ensures locked == old(locked)
      ensures Answered(Given(body, loaded, enoughMemory, old(locked), attempts, seconds), reply,
                       Counters(old(made), old(failed), old(recent)), Counters(made, failed, recent))
    {
      if !Acceptable(body) {
        return BadRequest;
      }
      if !loaded {
        return NotLoaded;
      }
      if !enoughMemory {
        return LowMemory;
      }
      if locked {
        return Busy;
      }
      locked := true;
      for i := 0 to body.n
        invariant locked && made == old(made) && failed == old(failed) && recent == old(recent)
        invariant FirstProblem(attempts, i).None?
      {
        if !attempts(i).Works? {
          FirstProblemStays(attempts, i + 1, body.n);
          failed := if attempts(i).Pipeline? then failed + 1 else failed;
          locked := false;
          return Failed;
        }
      }
      made := made + body.n;
      recent := Push(recent, seconds / body.n as real);
      locked := false;
      return Finished;
    }
  }

  lemma {:induction false} FirstProblemStays(attempts: nat -> Attempt, m: nat, n: nat)
    requires m <= n && FirstProblem(attempts, m).Some?
    ensures FirstProblem(attempts, n) == FirstProblem(attempts, m)
  {
    if m < n {
      FirstProblemStays(attempts, m, n - 1);
    }
  }

  // ----- The steps of an undisturbed request are the handler -------------------------------------

  function Count(s: Server): Counters {
    Counters(s.made, s.failed, s.recent)
  }

  ghost predicate OnlyOf(actions: seq<Action>, r: Request) {
    forall a :: a in actions ==> a.r == r
  }

  /**
   A request that has been accepted gets the lock exactly when the model is loaded, there is enough memory and
   nobody holds it; otherwise it ends with the first reason that applies.
   */
  lemma AdmittedExactlyWhen(s: Server, r: Request, enoughMemory: bool)
    requires r in s.calls && s.calls[r].phase.Accepted?
    ensures var s' := Next(s, TryLock(r, enoughMemory));
            && r in s'.calls && s'.calls[r].body == s.calls[r].body
            && (s'.calls[r].phase == Making(0) <==> s.loaded && enoughMemory && s.lock.None?)
            && (s'.calls[r].phase == Making(0) ==> s'.lock == Some(r) && s'.admitted == s.admitted + [r])
            && (s'.calls[r].phase != Making(0) ==>
                  s'.lock == s.lock && s'.calls[r].phase == Ended(if !s.loaded then NotLoaded
                                                                  else if !enoughMemory then LowMemory else Busy))
            && Count(s') == Count(s)
  {
  }

  lemma {:induction false} StepsAppend(s: Server, actions: seq<Action>, a: Action)
    ensures Steps(s, actions + [a]) == Next(Steps(s, actions), a)
    decreases |actions|
  {
    if actions == [] {
      assert actions + [a] == [a] && [a][1..] == [];
      assert Steps(s, [a]) == Steps(Next(s, a), []);
    } else {
      assert (actions + [a])[1..] == actions[1..] + [a];
      StepsAppend(Next(s, actions[0]), actions[1..], a);
    }
  }

  /** A run of one request leads from one state to another. */
  ghost predicate Leads(s: Server, actions: seq<Action>, r: Request, s': Server) {
    Steps(s, actions) == s' && OnlyOf(actions, r)
  }

  lemma LeadsOn(s: Server, actions: seq<Action>, r: Request, s': Server, a: Action)
    requires Leads(s, actions, r, s') && a.r == r
    ensures Leads(s, actions + [a], r, Next(s', a))
  {
    StepsAppend(s, actions, a);
  }

  /** The request at a later stage, all else as it was. */
  function Later(s: Server, r: Request, body: Body, p: Phase): Server {
    s.(calls := s.calls[r := Call(body, p)])
  }

  lemma {:induction false} MakesImages(s: Server, r: Request, body: Body, k: nat) returns (actions: seq<Action>)
    requires k <= body.n
    ensures Leads(Later(s, r, body, Making(0)), actions, r, Later(s, r, body, Making(k)))
  {
    actions := [];
    if k > 0 {
      actions := MakesImages(s, r, body, k - 1);
      LeadsOn(Later(s, r, body, Making(0)), actions, r, Later(s, r, body, Making(k - 1)), ImageMade(r));
      assert Next(Later(s, r, body, Making(k - 1)), ImageMade(r)) == Later(s, r, body, Making(k));
      actions := actions + [ImageMade(r)];
    }
  }

  /** The state after a request that held the lock has left with a reply. */
  ghost predicate Gave(s: Server, s': Server, r: Request, body: Body, reply: Reply) {
    s'.lock == None && s'.calls == s.calls[r := Call(body, Ended(reply))] && s'.loaded == s.loaded
  }

  lemma {:induction false} LeadsThrough(s: Server, a: seq<Action>, s1: Server, b: seq<Action>, s2: Server, r: Request)
    requires Leads(s, a, r, s1) && Leads(s1, b, r, s2)
    ensures Leads(s, a + b, r, s2)
    decreases |b|
  {
    if b == [] {
      assert a + b == a;
    } else {
      assert a + b == (a + [b[0]]) + b[1..];
      assert b[0] in b;
      LeadsOn(s, a, r, s1, b[0]);
      LeadsThrough(s, a + [b[0]], Next(s1, b[0]), b[1..], s2, r);
    }
  }

  lemma LeadsInOne(s: Server, a: Action)
    ensures Leads(s, [a], a.r, Next(s, a))
  {
    assert [a][1..] == [];
    assert Steps(s, [a]) == Steps(Next(s, a), []);
  }

  /** The two steps that count the images, as one. */
  lemma CountsMade(s: Server, r: Request, body: Body, seconds: real)
    ensures var s1 := Later(s, r, body, Making(body.n));
            var s2 := Later(s, r, body, CountingMade(seconds, s.made));
            var s3 := Later(s, r, body, Recording(seconds)).(made := s.made + body.n);
            Next(s1, LoopDone(r, seconds)) == s2 && Next(s2, WriteMade(r)) == s3
  {
  }

  /** The history and the release. */
  lemma RecordsAndLeaves(s: Server, r: Request, body: Body, seconds: real) returns (s': Server)
    requires WellTyped(body)
    ensures s' == Next(Next(Later(s, r, body, Recording(seconds)), AppendTime(r)), Release(r))
    ensures Gave(s, s', r, body, Finished)
    ensures Count(s') == Counters(s.made, s.failed, Push(s.recent, seconds / body.n as real))
  {
    s' := Next(Next(Later(s, r, body, Recording(seconds)), AppendTime(r)), Release(r));
  }

  lemma Succeeds(s: Server, r: Request, body: Body, seconds: real) returns (actions: seq<Action>, s': Server)
    requires WellTyped(body)
    ensures Leads(Later(s, r, body, Making(0)), actions, r, s') && Gave(s, s', r, body, Finished)
    ensures Count(s') == Counters(s.made + body.n, s.failed, Push(s.recent, seconds / body.n as real))
  {
    var zero, s1 := Later(s, r, body, Making(0)), Later(s, r, body, Making(body.n));
    var a := MakesImages(s, r, body, body.n);
    CountsMade(s, r, body, seconds);
    s' := RecordsAndLeaves(s.(made := s.made + body.n), r, body, seconds);
    var tail := FourSteps(s1, LoopDone(r, seconds), WriteMade(r), AppendTime(r), Release(r));
    LeadsThrough(zero, a, s1, tail, s', r);
    actions := a + tail;
  }

  lemma FourSteps(s: Server, a: Action, b: Action, c: Action, d: Action) returns (actions: seq<Action>)
    requires a.r == b.r == c.r == d.r
    ensures Leads(s, actions, a.r, Next(Next(Next(Next(s, a), b), c), d))
  {
    LeadsInOne(s, a);
    LeadsOn(s, [a], a.r, Next(s, a), b);
    LeadsOn(s, [a] + [b], a.r, Next(Next(s, a), b), c);
    LeadsOn(s, [a] + [b] + [c], a.r, Next(Next(Next(s, a), b), c), d);
    actions := [a] + [b] + [c] + [d];
  }

  /** An image that fails: counted when the pipeline raised. */
  lemma Fails(s: Server, r: Request, body: Body, k: nat, pipeline: bool) returns (actions: seq<Action>, s': Server)
    requires k < body.n
    ensures Leads(Later(s, r, body, Making(k)), actions, r, s') && Gave(s, s', r, body, Failed)
    ensures Count(s') == Counters(s.made, s.failed + if pipeline then 1 else 0, s.recent)
  {
    var s1 := Later(s, r, body, Making(k));
    var a := if pipeline then PipelineRaises(r) else EncodingRaises(r);
    LeadsInOne(s1, a);
    actions, s' := [a], Next(s1, a);
    if pipeline {
      LeadsOn(s1, actions, r, s', WriteFailed(r));
      actions, s' := actions + [WriteFailed(r)], Next(s', WriteFailed(r));
    }
    LeadsOn(s1, actions, r, s', Release(r));
    actions, s' := actions + [Release(r)], Next(s', Release(r));
  }

  lemma FailsAt(s: Server, r: Request, body: Body, k: nat, pipeline: bool) returns (actions: seq<Action>, s': Server)
    requires k < body.n
    ensures Leads(Later(s, r, body, Making(0)), actions, r, s') && Gave(s, s', r, body, Failed)
    ensures Count(s') == Counters(s.made, s.failed + if pipeline then 1 else 0, s.recent)
  {
    var a := MakesImages(s, r, body, k);
    var tail;
    tail, s' := Fails(s, r, body, k, pipeline);
    LeadsThrough(Later(s, r, body, Making(0)), a, Later(s, r, body, Making(k)), tail, s', r);
    actions := a + tail;
  }

  /** Up to the try-lock. */
  lemma ComesIn(s: Server, r: Request, body: Body) returns (actions: seq<Action>)
    requires WellTyped(body) && r !in s.calls
    ensures Leads(s, actions, r, Later(s, r, body, if Acceptable(body) then Accepted else Ended(BadRequest)))
  {
    actions := [];
    LeadsOn(s, [], r, s, Arrive(r, body));
    LeadsOn(s, [] + [Arrive(r, body)], r, Later(s, r, body, Arrived), Validate(r));
    actions := [] + [Arrive(r, body)] + [Validate(r)];
  }

  /**
   A request whose steps nobody interrupts, on a server in any state, is answered as the handler answers it:
   the same reply, the same changes to the counters and the history, the lock and all other requests as before.
   */
  lemma UndisturbedIsHandled(s: Server, r: Request, g: Given) returns (actions: seq<Action>, reply: Reply)
    requires WellTyped(g.body) && r !in s.calls && g.loaded == s.loaded && g.busy == s.lock.Some?
    ensures OnlyOf(actions, r)
    ensures var s' := Steps(s, actions);
            && Answered(g, reply, Count(s), Count(s')) && s'.lock == s.lock
            && s'.calls == s.calls[r := Call(g.body, Ended(reply))]
  {
    var body := g.body;
    actions := ComesIn(s, r, body);
    reply := BadRequest;
    if Acceptable(body) {
      var s1 := Later(s, r, body, Accepted);
      AdmittedExactlyWhen(s1, r, g.enoughMemory);
      LeadsOn(s, actions, r, s1, TryLock(r, g.enoughMemory));
      actions := actions + [TryLock(r, g.enoughMemory)];
      var s2 := Next(s1, TryLock(r, g.enoughMemory));
      if s.loaded && g.enoughMemory && s.lock.None? {
        var t := s.(lock := Some(r), admitted := s.admitted + [r]);
        assert s2 == Later(t, r, body, Making(0));
        var rest, s';
        rest, s', reply := MakesThem(t, r, g);
        LeadsThrough(s, actions, s2, rest, s', r);
        actions := actions + rest;
      } else {
        reply := s2.calls[r].phase.reply;
        assert s2.calls == s.calls[r := Call(body, Ended(reply))];
      }
    }
  }

  /** Under the lock. */
  lemma MakesThem(s: Server, r: Request, g: Given) returns (actions: seq<Action>, s': Server, reply: Reply)
    requires WellTyped(g.body)
    ensures Leads(Later(s, r, g.body, Making(0)), actions, r, s') && Gave(s, s', r, g.body, reply)
    ensures Acceptable(g.body) && g.loaded && g.enoughMemory && !g.busy ==> Answered(g, reply, Count(s), Count(s'))
  {
    var problem := FirstProblem(g.attempts, g.body.n);
    if problem.Some? {
      actions, s' := FailsAt(s, r, g.body, problem.value, g.attempts(problem.value).Pipeline?);
      reply := Failed;
    } else {
      actions, s' := Succeeds(s, r, g.body, g.seconds);
      reply := Finished;
    }
  }
}
