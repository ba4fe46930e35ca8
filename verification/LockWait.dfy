/**
  Waiting for the lock, and letting go of it.  A request that finds the lock held keeps
  trying and wins it once it is released; a release is tried three times.
 */
module LockWait {
  import opened Base
  import opened Records
  import opened Desired
  import opened Protocol
  import opened LeaseProofs
  import opened TraceProofs
  import opened Outcomes

  // ----- a lock released in time -----

  /**
    Until `a` has the lock: nobody else writes the Lease, its own calls succeed, it is
    not cancelled, and it looks at its deadline in time.
   */
  predicate InTimeFor(s: State, l: Label, a: Id)
    requires Enabled(s, l)
  {
    && Uncontended(s, l, a)
    && (l.Poll? && l.a == a ==> !l.cancelled)
    && (l.CheckDeadline? && l.a == a ==> s.actors[a].clock <= s.actors[a].deadline)
  }

  ghost predicate PatientRun(s: State, ls: seq<Label>, a: Id)
    decreases |ls|
  {
    ls == [] ||
    (PatientRun(s, Front(ls), a) && Exec(s, ls).Some?
      && var p := Exec(s, Front(ls)).value;
         a in p.actors && p.actors[a].log == [] ==> InTimeFor(p, Last(ls), a))
  }

  /** Waiting for the lock, or trying to take it. */
  predicate BeforeLock(pc: PC) {
    Attempting(pc) || pc.Waiting? || pc.Polling?
  }

  /** How often a request has begun an attempt. */
  function Attempts(ls: seq<Label>, a: Id): nat {
    if ls == [] then 0 else Attempts(Front(ls), a) + if Last(ls) == TakeTime(a) then 1 else 0
  }

  /** How many steps of its own a request has taken; time passing is none. */
  function Steps(ls: seq<Label>, a: Id): nat {
    if ls == [] then 0
    else Steps(Front(ls), a) + if !Last(ls).Edit? && !Last(ls).Tick? && Last(ls).a == a then 1 else 0
  }

  /** Steps left until the lock is won, in the attempt under way or the next one. */
  function StepsLeft(pc: PC, begun: nat): nat {
    match pc
    case Reading => if begun == 0 then 9 else 3
    case Checking(_) => if begun == 0 then 8 else 2
    case Creating | Updating(_) => if begun == 0 then 7 else 1
    case Waiting => 6
    case Polling | Entering => 5
    case Trying => 4
    case _ => 0
  }

  /** At most the attempt under way, begun before the release, fails. */
  predicate Patient(s: State, a: Id, begun: nat) {
    && a in s.actors && begun <= 1
    && var x := s.actors[a];
       if x.log != [] then PastLock(x.pc)
       else
         && Free(s, x.clock) && BeforeLock(x.pc)
         && (begun == 1 || x.pc.Reading? ==> Winning(s, a) && !x.pc.Entering? && !x.pc.Trying?)
  }

  lemma FreeStays(s: State, s': State, now: int, later: int)
    requires Free(s, now) && s'.lease == s.lease && later >= now
    ensures Free(s', later)
  {
  }

  lemma PatientOthers(s: State, l: Label, a: Id, begun: nat)
    requires Enabled(s, l) && Patient(s, a, begun) && (l.Edit? || l.a != a)
    requires s.actors[a].log == [] ==> LeaseAfter(s, l) == s.lease
    ensures Patient(Effect(s, l), a, begun)
    ensures Effect(s, l).actors[a] == s.actors[a]
  {
    if Winning(s, a) {
      WinningOthers(s, l, a);
    }
  }

  /** A step of an attempt that is bound to win. */
  lemma PatientWinning(s: State, l: Label, a: Id, begun: nat)
    requires Enabled(s, l) && Patient(s, a, begun) && Winning(s, a) && !l.Edit? && l.a == a && s.actors[a].log == []
    requires InTimeFor(s, l, a) && (begun == 1 || s.actors[a].pc.Reading?) && !l.Tick?
    ensures Patient(Effect(s, l), a, begun)
    ensures Effect(s, l).actors[a].log == [] ==>
      StepsLeft(Effect(s, l).actors[a].pc, begun) < StepsLeft(s.actors[a].pc, begun)
  {
    WinningStep(s, l, a);
    OwnTimes(s, l);
    var y := Effect(s, l).actors[a];
    assert y == Mover(s, l);
    assert y.log == [] ==> Effect(s, l).lease == s.lease;
  }

  /** A step of an attempt that may have begun too early. */
  lemma PatientWaiting(s: State, l: Label, a: Id)
    requires Enabled(s, l) && Patient(s, a, 0) && !l.Edit? && l.a == a && s.actors[a].log == []
    requires InTimeFor(s, l, a) && !s.actors[a].pc.Reading? && !l.Tick?
    ensures var begun := if l == TakeTime(a) then 1 else 0;
      && Patient(Effect(s, l), a, begun)
      && (Effect(s, l).actors[a].log == [] ==>
            StepsLeft(Effect(s, l).actors[a].pc, begun) < StepsLeft(s.actors[a].pc, 0))
  {
    OwnTimes(s, l);
    var y := Effect(s, l).actors[a];
    assert y == Mover(s, l);
    assert y.log == [] ==> Effect(s, l).lease == s.lease;
  }

  lemma PatientTick(s: State, l: Label, a: Id, begun: nat)
    requires Enabled(s, l) && Patient(s, a, begun) && l.Tick? && l.a == a
    ensures Patient(Effect(s, l), a, begun)
    ensures Effect(s, l).actors[a].log == s.actors[a].log && Effect(s, l).actors[a].pc == s.actors[a].pc
  {
  }

  lemma PatientWon(s: State, l: Label, a: Id, begun: nat)
    requires Enabled(s, l) && Patient(s, a, begun) && !l.Edit? && l.a == a && s.actors[a].log != []
    ensures Patient(Effect(s, l), a, begun) && Effect(s, l).actors[a].log != [] && l != TakeTime(a)
  {
    LogNeverEmpties(s, l);
    NoWayBack(s, l);
    assert Effect(s, l).actors[a] == Mover(s, l);
  }

  /** What a run of a waiting request keeps. */
  ghost predicate Waits(ls: seq<Label>, s: State, a: Id) {
    && Patient(s, a, Attempts(ls, a))
    && (s.actors[a].log == [] ==> Steps(ls, a) + StepsLeft(s.actors[a].pc, Attempts(ls, a)) <= 9)
  }

  lemma WaitsStep(ls: seq<Label>, s: State, l: Label, a: Id)
    requires Waits(ls, s, a) && Enabled(s, l) && (s.actors[a].log == [] ==> InTimeFor(s, l, a))
    ensures Waits(ls + [l], Effect(s, l), a)
  {
    var n := Attempts(ls, a);
    Snoc(ls, l);
    if l.Edit? || l.a != a {
      PatientOthers(s, l, a, n);
    } else if l.Tick? {
      PatientTick(s, l, a, n);
    } else if s.actors[a].log != [] {
      PatientWon(s, l, a, n);
    } else if n == 1 || s.actors[a].pc.Reading? {
      PatientWinning(s, l, a, n);
      assert l != TakeTime(a);
    } else {
      PatientWaiting(s, l, a);
    }
  }

  /**
    A lock released in time is won.  From the moment it is free, a request that is
    waiting or trying goes on until it has it: it begins at most one more attempt, takes
    at most eight more steps without it, and does not end before.
   */
  lemma {:induction false} ReleasedLockIsWon(s0: State, ls: seq<Label>, s: State, a: Id)
    requires a in s0.actors && s0.actors[a].log == [] && BeforeLock(s0.actors[a].pc) && Free(s0, s0.actors[a].clock)
    requires Exec(s0, ls) == Some(s) && PatientRun(s0, ls, a)
    ensures a in s.actors && Waits(ls, s, a)
    ensures s.actors[a].log == [] ==> BeforeLock(s.actors[a].pc) && Steps(ls, a) <= 8
    ensures Attempts(ls, a) <= 1
    decreases |ls|
  {
    if ls != [] {
      StepTaken(s0, ls, s);
      var p := Exec(s0, Front(ls)).value;
      ReleasedLockIsWon(s0, Front(ls), p, a);
      WaitsStep(Front(ls), p, Last(ls), a);
      FrontLast(ls);
    }
  }

  // ----- letting go -----

  /** How often a request has looked at the Lease in order to release it. */
  function Looks(ls: seq<Label>, a: Id): nat {
    if ls == [] then 0 else Looks(Front(ls), a) + if Last(ls).GetOwnLease? && Last(ls).a == a then 1 else 0
  }

  /** A step that ends a release: somebody else holds the Lease, or the write was not answered by a conflict. */
  predicate EndsRelease(p: State, l: Label, a: Id)
    requires Enabled(p, l)
  {
    || (l.GetOwnLease? && l.a == a && l.ok && p.lease.Some? && p.lease.value.holder != a)
    || (l.ClearLease? && l.a == a && !l.reply.LostAsConflict?
        && !(l.reply.Deliver? && (p.lease.None? || p.lease.value.version != p.actors[a].pc.mine.version)))
  }

  ghost predicate ReleaseEnded(s0: State, ls: seq<Label>, a: Id) {
    exists i ::
      && 0 <= i < |ls| && Exec(s0, ls[..i]).Some? && Enabled(Exec(s0, ls[..i]).value, ls[i])
      && EndsRelease(Exec(s0, ls[..i]).value, ls[i], a)
  }

  lemma EndedStays(s0: State, ls: seq<Label>, l: Label, a: Id)
    requires ReleaseEnded(s0, ls, a)
    ensures ReleaseEnded(s0, ls + [l], a)
  {
    var i :|
      && 0 <= i < |ls| && Exec(s0, ls[..i]).Some? && Enabled(Exec(s0, ls[..i]).value, ls[i])
      && EndsRelease(Exec(s0, ls[..i]).value, ls[i], a);
    var more := ls + [l];
    assert more[..i] == ls[..i] && more[i] == ls[i];
  }

  lemma EndedNow(s0: State, ls: seq<Label>, p: State, l: Label, a: Id)
    requires Exec(s0, ls) == Some(p) && Enabled(p, l) && EndsRelease(p, l, a)
    ensures ReleaseEnded(s0, ls + [l], a)
  {
    var more := ls + [l];
    assert more[..|ls|] == ls && more[|ls|] == l;
  }

  /** Where a request is with its release, after so many looks. */
  predicate ReleaseOk(x: Actor, looks: nat, ended: bool) {
    match x.pc
    case Releasing(tries, _) => looks == tries < 3
    case Clearing(tries, _, _) => looks == tries + 1 <= 3
    case Done(_) => if x.log == [] then looks == 0 else 1 <= looks <= 3 && (looks == 3 || ended)
    case Crashed => true
    case _ => looks == 0
  }

  lemma ReleaseSteps(s: State, l: Label, a: Id)
    requires Enabled(s, l) && (l.GetOwnLease? || l.ClearLease?) && l.a == a
    requires s.actors[a].pc.tries < 3
    ensures var x, y := s.actors[a], Mover(s, l);
      && y.log == x.log
      && match y.pc
         case Releasing(tries, _) =>
           tries < 3 && tries == x.pc.tries + 1
         case Clearing(tries, _, _) => l.GetOwnLease? && tries == x.pc.tries
         case Done(_) => x.pc.tries == 2 || EndsRelease(s, l, a)
         case _ => false
  {
  }

  /** Everything else leaves a release that is under way or over alone. */
  lemma OtherSteps(s: State, l: Label, a: Id)
    requires Enabled(s, l) && !l.Edit? && !l.Spawn? && l.a == a && !l.GetOwnLease? && !l.ClearLease?
    requires BeforeLock(s.actors[a].pc) ==> s.actors[a].log == []
    ensures var x, y := s.actors[a], Mover(s, l);
      match y.pc
      case Releasing(tries, _) => y.pc == x.pc || (tries == 0 && OutcomeOf(x.pc).None?)
      case Clearing(_, _, _) => y.pc == x.pc
      case Done(_) => (y.pc == x.pc && y.log == x.log) || (OutcomeOf(x.pc).None? && y.log == [])
      case _ => y.pc.Crashed? || OutcomeOf(x.pc).None?
  {
    if l.CreateLease? || l.UpdateLease? || l.GetLease? || l.CheckDeadline? || l.Poll? {
      assert s.actors[a].log == [];
    }
  }

  lemma OwnReleaseStep(s: State, l: Label, a: Id, looks: nat, ended: bool)
    requires Enabled(s, l) && (l.GetOwnLease? || l.ClearLease?) && l.a == a
    requires ReleaseOk(s.actors[a], looks, ended) && (EndsRelease(s, l, a) ==> ended) && s.actors[a].log != []
    ensures ReleaseOk(Mover(s, l), if l.GetOwnLease? then looks + 1 else looks, ended)
  {
    ReleaseSteps(s, l, a);
  }

  lemma OwnOtherStep(s: State, l: Label, a: Id, looks: nat, ended: bool)
    requires Enabled(s, l) && !l.Edit? && !l.Spawn? && l.a == a && !l.GetOwnLease? && !l.ClearLease?
    requires ReleaseOk(s.actors[a], looks, ended) && (BeforeLock(s.actors[a].pc) ==> s.actors[a].log == [])
    ensures ReleaseOk(Mover(s, l), looks, ended)
  {
    OtherSteps(s, l, a);
  }

  /** Before the lock a trace is empty, and at the release it is not. */
  lemma LogAtRelease(x: Actor)
    requires LogOk(x)
    ensures BeforeLock(x.pc) ==> x.log == []
    ensures x.pc.Releasing? || x.pc.Clearing? ==> x.log != []
  {
  }

  ghost predicate ReleaseAt(s0: State, ls: seq<Label>, s: State, a: Id) {
    if a in s.actors then ReleaseOk(s.actors[a], Looks(ls, a), ReleaseEnded(s0, ls, a)) else Looks(ls, a) == 0
  }

  lemma {:induction false} ReleaseRun(s0: State, ls: seq<Label>, s: State, a: Id)
    requires Run(s0, ls, s)
    ensures ReleaseAt(s0, ls, s, a)
    decreases |ls|
  {
    if ls != [] {
      RunStep(s0, ls, s);
      var p, l := Exec(s0, Front(ls)).value, Last(ls);
      FrontLast(ls);
      ReleaseRun(s0, Front(ls), p, a);
      if !l.Edit? && l.a == a && !l.Spawn? {
        LogRun(s0, Front(ls), p);
        LogAtRelease(p.actors[a]);
        MyStep(s0, Front(ls), p, l, a);
      } else {
        NotMyStep(s0, Front(ls), p, l, a);
      }
    }
  }

  lemma NotMyStep(s0: State, ls: seq<Label>, p: State, l: Label, a: Id)
    requires Exec(s0, ls) == Some(p) && Enabled(p, l) && (l.Edit? || l.a != a || l.Spawn?) && ReleaseAt(s0, ls, p, a)
    ensures ReleaseAt(s0, ls + [l], Effect(p, l), a)
  {
    Snoc(ls, l);
    if ReleaseEnded(s0, ls, a) {
      EndedStays(s0, ls, l, a);
    }
  }

  lemma MyStep(s0: State, ls: seq<Label>, p: State, l: Label, a: Id)
    requires Exec(s0, ls) == Some(p) && Enabled(p, l) && !l.Edit? && l.a == a && !l.Spawn?
    requires ReleaseAt(s0, ls, p, a)
    requires BeforeLock(p.actors[a].pc) ==> p.actors[a].log == []
    requires p.actors[a].pc.Releasing? || p.actors[a].pc.Clearing? ==> p.actors[a].log != []
    ensures ReleaseAt(s0, ls + [l], Effect(p, l), a)
  {
    Snoc(ls, l);
    if ReleaseEnded(s0, ls, a) {
      EndedStays(s0, ls, l, a);
    }
    var ended := ReleaseEnded(s0, ls + [l], a);
    if l.GetOwnLease? || l.ClearLease? {
      if EndsRelease(p, l, a) {
        EndedNow(s0, ls, p, l, a);
      }
      OwnReleaseStep(p, l, a, Looks(ls, a), ended);
    } else {
      OwnOtherStep(p, l, a, Looks(ls, a), ended);
    }
  }

  /**
    A finished request that had the lock looked at the Lease one to three times in order
    to release it, and gave up before the third only because somebody else holds it or
    its write was answered by something other than a conflict.
   */
  lemma ReleaseTries(s0: State, ls: seq<Label>, s: State, a: Id)
    requires Run(s0, ls, s) && a in s.actors && s.actors[a].pc.Done? && s.actors[a].log != []
    ensures 1 <= Looks(ls, a) <= 3 && (Looks(ls, a) == 3 || ReleaseEnded(s0, ls, a))
  {
    ReleaseRun(s0, ls, s, a);
  }
}
