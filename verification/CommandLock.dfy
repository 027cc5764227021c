/**
 The command lock: a file created exclusively by a command on entry and unlinked by it on exit.

 Any number of commands run at once; each may be killed between any two steps, leaving the file behind.
 The steps of a command that has entered are reads of the process ledger and writes computed from what
 it read. An operator may delete the file.
 */
module CommandLock {
  import opened Common

  type Command = nat

  /** A command before it has entered, or after, with the ledger as it last read it. */
  datatype Phase<L> = Outside | Inside(copy: Option<L>)

  /** `log` lists the updates written so far: a history variable. */
  datatype State<L, U> = State(lockFile: Option<Command>, running: map<Command, Phase<L>>, ledger: L, log: seq<U>)

  datatype Action<U> =
    | Launch(c: Command)
    | Enter(c: Command)
    | Read(c: Command)
    | Write(c: Command, update: U)
    | Leave(c: Command)
    | Die(c: Command)
    | RemoveLock

  predicate IsInside<L, U>(s: State<L, U>, c: Command) {
    c in s.running && s.running[c].Inside?
  }

  /** One step. A command that finds the lock file ends; leaving unlinks the file whoever made it. */
  function Next<L, U>(s: State<L, U>, a: Action<U>, apply: (U, L) -> L): State<L, U> {
    match a
    case Launch(c) => if c in s.running then s else s.(running := s.running[c := Outside])
    case Enter(c) =>
      if c !in s.running || IsInside(s, c) then s
      else if s.lockFile.Some? then s.(running := s.running - {c})
      else s.(lockFile := Some(c), running := s.running[c := Inside(None)])
    case Read(c) => if IsInside(s, c) then s.(running := s.running[c := Inside(Some(s.ledger))]) else s
    case Write(c, u) =>
      if IsInside(s, c) && s.running[c].copy.Some?
      then State(s.lockFile, s.running[c := Inside(None)], apply(u, s.running[c].copy.value), s.log + [u])
      else s
    case Leave(c) => if IsInside(s, c) then s.(lockFile := None, running := s.running - {c}) else s
    case Die(c) => s.(running := s.running - {c})
    case RemoveLock => s.(lockFile := None)
  }

  function Steps<L, U>(s: State<L, U>, actions: seq<Action<U>>, apply: (U, L) -> L): State<L, U>
    decreases |actions|
  {
    if actions == [] then s else Steps(Next(s, actions[0], apply), actions[1..], apply)
  }

  function Start<L, U>(ledger: L): State<L, U> {
    State(None, map[], ledger, [])
  }

  function Replay<L, U>(ledger: L, log: seq<U>, apply: (U, L) -> L): L {
    if log == [] then ledger else apply(log[|log| - 1], Replay(ledger, log[..|log| - 1], apply))
  }

  /** Whoever is inside made the lock file; what it read is still the ledger; the ledger is every update in turn. */
  ghost predicate Inv<L, U>(s: State<L, U>, first: L, apply: (U, L) -> L) {
    && (forall c: Command :: IsInside(s, c) ==> s.lockFile == Some(c))
    && (forall c: Command :: IsInside(s, c) && s.running[c].copy.Some? ==> s.running[c].copy.value == s.ledger)
    && s.ledger == Replay(first, s.log, apply)
  }

  /** The operator deletes the file only while no command that entered is still running. */
  ghost predicate Careful<L, U>(s: State<L, U>, actions: seq<Action<U>>, apply: (U, L) -> L)
    decreases |actions|
  {
    actions != [] ==>
      && (actions[0].RemoveLock? ==> forall c: Command :: !IsInside(s, c))
      && Careful(Next(s, actions[0], apply), actions[1..], apply)
  }

  lemma StepKeepsInv<L, U>(s: State<L, U>, a: Action<U>, first: L, apply: (U, L) -> L)
    requires Inv(s, first, apply) && (a.RemoveLock? ==> forall c: Command :: !IsInside(s, c))
    ensures Inv(Next(s, a, apply), first, apply)
  {
    var s' := Next(s, a, apply);
    forall c: Command | IsInside(s', c)
      ensures s'.lockFile == Some(c) && (s'.running[c].copy.Some? ==> s'.running[c].copy.value == s'.ledger)
    {
      assert IsInside(s, c) || (a.Enter? && a.c == c);
    }
    if a.Write? && s' != s {
      assert s'.log[..|s'.log| - 1] == s.log;
    }
  }

  lemma {:induction false} StepsKeepInv<L, U>(s: State<L, U>, actions: seq<Action<U>>, first: L, apply: (U, L) -> L)
    requires Inv(s, first, apply) && Careful(s, actions, apply)
    ensures Inv(Steps(s, actions, apply), first, apply)
    decreases |actions|
  {
    if actions != [] {
      StepKeepsInv(s, actions[0], first, apply);
      StepsKeepInv(Next(s, actions[0], apply), actions[1..], first, apply);
    }
  }

  /**
   For any number of commands and any interleaving, deaths included: at most one running command is
   inside, and it is the one that made the lock file; and no update of the ledger is ever lost.
   */
  lemma OneInsideAndNoLostUpdate<L, U>(ledger: L, actions: seq<Action<U>>, apply: (U, L) -> L, c: Command, d: Command)
    requires Careful(Start(ledger), actions, apply)
    ensures var s := Steps(Start(ledger), actions, apply);
            && (IsInside(s, c) && IsInside(s, d) ==> c == d)
            && (IsInside(s, c) ==> s.lockFile == Some(c))
            && s.ledger == Replay(ledger, s.log, apply)
  {
    var zero: State<L, U> := Start(ledger);
    assert forall k: Command :: !IsInside(zero, k);
    StepsKeepInv(zero, actions, ledger, apply);
  }

  /** A command that tries to enter is inside afterwards exactly when there is no lock file, which is then its own. */
  lemma EntersExactlyWhenFree<L, U>(s: State<L, U>, c: Command, apply: (U, L) -> L)
    requires c in s.running && !IsInside(s, c)
    ensures var s' := Next(s, Enter(c), apply);
            && (IsInside(s', c) <==> s.lockFile.None?)
            && (IsInside(s', c) ==> s'.lockFile == Some(c))
            && (s.lockFile.Some? ==> c !in s'.running && s'.lockFile == s.lockFile)
            && s'.ledger == s.ledger
  {
  }

  /**
   A command that comes in and is not disturbed: it reads the ledger, writes one update of it, leaves, and the
   next one may enter.
   */
  lemma UndisturbedCommandUpdates<L, U>(s: State<L, U>, c: Command, u: U, apply: (U, L) -> L)
    requires s.lockFile.None? && c !in s.running
    ensures var s' := Steps(s, [Launch(c), Enter(c), Read(c), Write(c, u), Leave(c)], apply);
            s'.ledger == apply(u, s.ledger) && s'.lockFile.None? && s'.running == s.running && s'.log == s.log + [u]
  {
    var s1 := Next(s, Launch(c), apply);
    var s2 := Next(s1, Enter(c), apply);
    var s3 := Next(s2, Read(c), apply);
    var s4 := Next(s3, Write(c, u), apply);
    var s5 := Next(s4, Leave(c), apply);
    var all: seq<Action<U>> := [Launch(c), Enter(c), Read(c), Write(c, u), Leave(c)];
    assert all[1..] == [Enter(c), Read(c), Write(c, u), Leave(c)] && all[1..][1..] == [Read(c), Write(c, u), Leave(c)];
    assert all[1..][1..][1..] == [Write(c, u), Leave(c)] && all[1..][1..][1..][1..] == [Leave(c)];
    assert all[1..][1..][1..][1..][1..] == [];
    assert Steps(s, all, apply) == Steps(s1, all[1..], apply) == Steps(s2, all[1..][1..], apply);
    assert Steps(s2, all[1..][1..], apply) == Steps(s3, [Write(c, u), Leave(c)], apply) == Steps(s4, [Leave(c)], apply);
    assert Steps(s4, [Leave(c)], apply) == Steps(s5, [], apply);
  }

  /** A dead command's file keeps everyone out, and stays, until someone deletes it. */
  lemma {:induction false} CrashedLockStays<L, U>(s: State<L, U>, actions: seq<Action<U>>, apply: (U, L) -> L)
    requires s.lockFile.Some? && (forall c: Command :: !IsInside(s, c)) && RemoveLock !in actions
    ensures var s' := Steps(s, actions, apply);
            s'.lockFile == s.lockFile && s'.ledger == s.ledger && forall c: Command :: !IsInside(s', c)
    decreases |actions|
  {
    if actions != [] {
      var s1 := Next(s, actions[0], apply);
      assert actions[0] in actions;
      forall c: Command ensures !IsInside(s1, c) {
        assert !IsInside(s, c);
      }
      assert s1.lockFile == s.lockFile && s1.ledger == s.ledger by {
        if actions[0].Leave? || actions[0].Write? {
          assert !IsInside(s, actions[0].c);
        }
      }
      CrashedLockStays(s1, actions[1..], apply);
    }
  }

  ghost predicate TwoInside<L, U>(s: State<L, U>) {
    exists c: Command, d: Command :: c != d && IsInside(s, c) && IsInside(s, d)
  }

  ghost predicate NoRemoval<U(!new)>(actions: seq<Action<U>>) {
    forall a :: a in actions ==> !a.RemoveLock?
  }

  lemma {:induction false} NoRemovalIsCareful<L, U(!new)>(s: State<L, U>, actions: seq<Action<U>>, apply: (U, L) -> L)
    requires NoRemoval(actions)
    ensures Careful(s, actions, apply)
    decreases |actions|
  {
    if actions != [] {
      assert actions[0] in actions;
      NoRemovalIsCareful(Next(s, actions[0], apply), actions[1..], apply);
    }
  }

  /**
   Deleting the file can lead to two commands inside, with no further deletion, exactly when a command is
   inside at the time.
   */
  lemma RemovalLetsTwoInExactlyWhenActive<L, U(!new)>(s: State<L, U>, first: L, apply: (U, L) -> L)
    requires Inv(s, first, apply)
    ensures (exists actions :: NoRemoval(actions) && TwoInside(Steps(Next(s, RemoveLock, apply), actions, apply)))
       <==> (exists c: Command :: IsInside(s, c))
  {
    var s1 := Next(s, RemoveLock, apply);
    if c: Command :| IsInside(s, c) {
      var d := SomeUnused(s.running.Keys);
      SecondGetsIn(s, c, d, apply);
      var two: seq<Action<U>> := [Launch(d), Enter(d)];
      assert NoRemoval(two) && TwoInside(Steps(s1, two, apply));
    } else {
      forall actions: seq<Action<U>> | NoRemoval(actions) ensures !TwoInside(Steps(s1, actions, apply)) {
        assert Inv(s1, first, apply) by {
          forall c: Command ensures !IsInside(s1, c) { assert !IsInside(s, c); }
        }
        NoRemovalIsCareful(s1, actions, apply);
        StepsKeepInv(s1, actions, first, apply);
      }
    }
  }

  lemma SecondGetsIn<L, U>(s: State<L, U>, c: Command, d: Command, apply: (U, L) -> L)
    requires IsInside(s, c) && d !in s.running
    ensures var two := Steps(Next(s, RemoveLock, apply), [Launch(d), Enter(d)], apply);
            c != d && IsInside(two, c) && IsInside(two, d)
  {
    var s1 := Next(s, RemoveLock, apply);
    var s2 := Next(s1, Launch(d), apply);
    var s3 := Next(s2, Enter(d), apply);
    var two: seq<Action<U>> := [Launch(d), Enter(d)];
    assert two[1..] == [Enter(d)] && two[1..][1..] == [];
    assert Steps(s1, two, apply) == Steps(s2, two[1..], apply) == Steps(s3, [], apply);
  }

  /**
   What an active lock's deletion leads to: two commands inside, then the first one's exit deletes the second
   one's file.
   */
  lemma RemovingActiveLockLetsAnotherIn<L, U>(s: State<L, U>, c: Command, d: Command, apply: (U, L) -> L)
    requires IsInside(s, c) && d in s.running && !IsInside(s, d)
    ensures var two := Next(Next(s, RemoveLock, apply), Enter(d), apply);
            && IsInside(two, c) && IsInside(two, d)
            && var left := Next(two, Leave(c), apply);
               IsInside(left, d) && left.lockFile == None
  {
    var s1 := Next(s, RemoveLock, apply);
    assert !IsInside(s1, d);
  }
}
