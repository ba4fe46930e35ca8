/**
  The lock: in every reachable state an actor past Acquire either is the recorded
  holder of the Lease, or some pod's clock has passed its RenewTime plus duration.
 */
module LeaseProofs {
  import opened Base
  import opened Records
  import opened Desired
  import opened Protocol

  /** Between taking the lock and releasing it. */
  predicate Critical(pc: PC) {
    pc.Loading? || pc.Expiring? || pc.Mutating? || pc.Saving? || pc.Keying? || pc.SerialBefore?
    || pc.Fetching? || pc.Refetching? || pc.SerialAfter? || pc.Putting?
  }

  function Expiry(x: Actor): int {
    x.renew + x.cfg.seconds * SECOND
  }

  /** A copy read earlier: if its version is still current, so is its content. */
  predicate CopyOk(lease: Option<Lease>, copy: Lease) {
    && lease.Some? && copy.version <= lease.value.version
    && (copy.version == lease.value.version ==> copy == lease.value)
  }

  /** The Lease records exactly this acquisition. */
  predicate Holds(lease: Option<Lease>, a: Id, x: Actor) {
    && lease.Some? && lease.value.holder == a
    && lease.value.renew == Some(x.renew) && lease.value.seconds == Some(x.cfg.seconds)
  }

  /** The Lease names `a`. */
  predicate IsHolder(s: State, a: Id) {
    s.lease.Some? && s.lease.value.holder == a
  }

  /** Nobody holds the lock, or the holder's time is up. */
  predicate Free(s: State, now: int) {
    s.lease.None? || s.lease.value.holder == NOBODY || Expired(s.lease.value, now)
  }

  /** A lease counts as expired unless it has both times and the clock has not passed their sum. */
  lemma ExpiredInPlainTerms(lease: Lease, now: int)
    ensures Expired(lease, now) <==>
      !exists t, d :: lease.renew == Some(t) && lease.seconds == Some(d) && now <= t + d * 1_000_000
  {
    if lease.renew.Some? && lease.seconds.Some? {
      var t, d := lease.renew.value, lease.seconds.value;
      assert lease.renew == Some(t) && lease.seconds == Some(d);
    }
  }

  /** Some pod's clock is past `t`. */
  ghost predicate Passed(s: State, t: int) {
    exists b | b in s.actors :: s.actors[b].clock > t
  }

  ghost predicate LeaseOkFor(s: State, a: Id)
    requires a in s.actors
  {
    var x := s.actors[a];
    && a != NOBODY
    && (x.pc.Checking? ==> CopyOk(s.lease, x.pc.copy))
    && (x.pc.Updating? ==> CopyOk(s.lease, x.pc.copy) && (x.pc.copy.holder == NOBODY || Expired(x.pc.copy, x.clock)))
    && (x.pc.Clearing? ==> CopyOk(s.lease, x.pc.mine) && x.pc.mine.holder == a)
    && (Critical(x.pc) ==> Holds(s.lease, a, x) || Passed(s, Expiry(x)))
  }

  ghost predicate LeaseOk(s: State) {
    forall a | a in s.actors :: LeaseOkFor(s, a)
  }

  /** Clocks only move forward, and nobody disappears. */
  lemma ClocksAdvance(s: State, l: Label, t: int)
    requires Enabled(s, l)
    ensures Passed(s, t) ==> Passed(Effect(s, l), t)
    ensures forall b | b in s.actors :: b in Effect(s, l).actors && Effect(s, l).actors[b].clock >= s.actors[b].clock
  {
    var s' := Effect(s, l);
    assert forall b | b in s.actors :: b in s'.actors && s'.actors[b].clock >= s.actors[b].clock;
    if Passed(s, t) {
      var b :| b in s.actors && s.actors[b].clock > t;
      assert s'.actors[b].clock > t;
    }
  }

  /** Every write to the Lease makes a new version. */
  lemma LeaseVersions(s: State, l: Label)
    requires Enabled(s, l)
    ensures s.lease.Some? ==> LeaseAfter(s, l).Some?
    ensures s.lease.Some? && LeaseAfter(s, l) != s.lease ==> LeaseAfter(s, l).value.version == s.lease.value.version + 1
  {
  }

  lemma CopyStays(s: State, l: Label, copy: Lease)
    requires Enabled(s, l) && CopyOk(s.lease, copy)
    ensures CopyOk(LeaseAfter(s, l), copy)
  {
    LeaseVersions(s, l);
  }

  /** The holder changes hands only by its own release, or after somebody saw it expired. */
  lemma HolderStays(s: State, l: Label, a: Id)
    requires LeaseOk(s) && Enabled(s, l) && a in s.actors
    requires Holds(s.lease, a, s.actors[a]) && Who(l) != a
    ensures Holds(LeaseAfter(s, l), a, s.actors[a]) || Passed(s, Expiry(s.actors[a]))
  {
    if l.UpdateLease? || l.ClearLease? {
      assert LeaseOkFor(s, l.a);
      assert LeaseOkFor(s, a);
    }
  }

  /** Nobody but the mover becomes the holder. */
  lemma HolderOnlyBySelf(s: State, l: Label, a: Id)
    requires Enabled(s, l) && a != NOBODY && (l.Edit? || l.a != a)
    requires IsHolder(Effect(s, l), a)
    ensures IsHolder(s, a)
  {
  }

  lemma OthersStay(s: State, l: Label, b: Id)
    requires LeaseOk(s) && Enabled(s, l) && b in s.actors && (l.Edit? || b != l.a)
    ensures LeaseOkFor(Effect(s, l), b)
  {
    var x := s.actors[b];
    assert LeaseOkFor(s, b);
    assert Effect(s, l).actors[b] == x;
    ClocksAdvance(s, l, Expiry(x));
    if x.pc.Checking? || x.pc.Updating? {
      CopyStays(s, l, x.pc.copy);
    }
    if x.pc.Clearing? {
      CopyStays(s, l, x.pc.mine);
    }
    if Critical(x.pc) && Holds(s.lease, b, x) {
      HolderStays(s, l, b);
    }
  }

  /** Inside the critical section an actor leaves its lease and its RenewTime alone. */
  lemma CriticalSteps(s: State, l: Label)
    requires Enabled(s, l) && !l.Edit? && !l.Spawn? && Critical(s.actors[l.a].pc)
    ensures LeaseAfter(s, l) == s.lease
    ensures var x, x' := s.actors[l.a], Mover(s, l);
      && x'.renew == x.renew && x'.cfg == x.cfg
      && !x'.pc.Checking? && !x'.pc.Updating? && !x'.pc.Clearing?
  {
  }

  /** Outside it, the critical section is entered only by a lease write that was answered. */
  lemma EntryStep(s: State, l: Label)
    requires Enabled(s, l) && !l.Edit? && !l.Spawn? && !Critical(s.actors[l.a].pc)
    requires Critical(Mover(s, l).pc)
    ensures Holds(LeaseAfter(s, l), l.a, Mover(s, l))
  {
    assert l.CreateLease? || l.UpdateLease?;
  }

  /** Copies are taken of the current Lease, and an Update follows a look at the clock. */
  lemma CopyStep(s: State, l: Label)
    requires Enabled(s, l) && !l.Edit? && !l.Spawn? && !Critical(s.actors[l.a].pc)
    requires l.a != NOBODY && LeaseOkFor(s, l.a)
    ensures var x' := Mover(s, l);
      && (x'.pc.Checking? ==> CopyOk(LeaseAfter(s, l), x'.pc.copy))
      && (x'.pc.Updating? ==>
            && CopyOk(LeaseAfter(s, l), x'.pc.copy)
            && (x'.pc.copy.holder == NOBODY || Expired(x'.pc.copy, x'.clock)))
      && (x'.pc.Clearing? ==> CopyOk(LeaseAfter(s, l), x'.pc.mine) && x'.pc.mine.holder == l.a)
  {
    var x, x' := s.actors[l.a], Mover(s, l);
    if x'.pc.Checking? || x'.pc.Updating? || x'.pc.Clearing? {
      assert l.GetLease? || l.CheckExpiry? || l.GetOwnLease? || l.Tick?;
    }
  }

  lemma MoverStays(s: State, l: Label)
    requires LeaseOk(s) && Enabled(s, l) && !l.Edit? && !l.Spawn?
    ensures LeaseOkFor(Effect(s, l), l.a)
  {
    var x, x' := s.actors[l.a], Mover(s, l);
    assert Effect(s, l).actors[l.a] == x';
    assert LeaseOkFor(s, l.a);
    if Critical(x.pc) {
      CriticalSteps(s, l);
      ClocksAdvance(s, l, Expiry(x));
    } else {
      CopyStep(s, l);
      if Critical(x'.pc) {
        EntryStep(s, l);
      }
    }
  }

  lemma LeaseStep(s: State, l: Label)
    requires LeaseOk(s) && Enabled(s, l)
    ensures LeaseOk(Effect(s, l))
  {
    var s' := Effect(s, l);
    forall b | b in s'.actors ensures LeaseOkFor(s', b) {
      if l.Edit? || b != l.a {
        OthersStay(s, l, b);
      } else if !l.Spawn? {
        MoverStays(s, l);
      }
    }
  }

  lemma {:induction false} LeaseRun(s0: State, ls: seq<Label>, s: State)
    requires Run(s0, ls, s)
    ensures LeaseOk(s)
    decreases |ls|
  {
    if ls != [] {
      RunStep(s0, ls, s);
      var p := Exec(s0, Front(ls)).value;
      LeaseRun(s0, Front(ls), p);
      LeaseStep(p, Last(ls));
    }
  }

  // ----- mutual exclusion -----

  /** Mutual exclusion: an actor past Acquire whose lease no clock has seen end is the recorded holder. */
  lemma Exclusion(s0: State, ls: seq<Label>, s: State, a: Id)
    requires Run(s0, ls, s) && a in s.actors && Critical(s.actors[a].pc)
    requires !Passed(s, Expiry(s.actors[a]))
    ensures Holds(s.lease, a, s.actors[a])
  {
    LeaseRun(s0, ls, s);
    assert LeaseOkFor(s, a);
  }

  /** No two actors are past Acquire with unexpired leases. */
  lemma SoleHolder(s0: State, ls: seq<Label>, s: State, a: Id, b: Id)
    requires Run(s0, ls, s) && a in s.actors && b in s.actors
    requires Critical(s.actors[a].pc) && !Passed(s, Expiry(s.actors[a]))
    requires Critical(s.actors[b].pc) && !Passed(s, Expiry(s.actors[b]))
    ensures a == b
  {
    Exclusion(s0, ls, s, a);
    Exclusion(s0, ls, s, b);
  }

  // ----- a free lock -----

  /** Until the attempt of `a` is decided, nobody else writes the Lease, and its own calls succeed. */
  predicate Uncontended(s: State, l: Label, a: Id)
    requires Enabled(s, l)
  {
    if l.Edit? || l.a != a then LeaseAfter(s, l) == s.lease
    else !l.Crash? && (l.GetLease? ==> l.ok) && (l.CreateLease? || l.UpdateLease? ==> l.reply.Deliver?)
  }

  ghost predicate UncontendedRun(s: State, ls: seq<Label>, a: Id)
    decreases |ls|
  {
    ls == [] ||
    (UncontendedRun(s, Front(ls), a) && Exec(s, ls).Some?
      && var p := Exec(s, Front(ls)).value;
         a in p.actors && p.actors[a].log == [] ==> Uncontended(p, Last(ls), a))
  }

  /** Before the outcome of the first attempt. */
  predicate Attempting(pc: PC) {
    pc.Entering? || pc.Trying? || pc.Reading? || pc.Creating? || pc.Checking? || pc.Updating?
  }

  /** The attempt is going to succeed, or has. */
  predicate Winning(s: State, a: Id) {
    && a in s.actors
    && var x := s.actors[a];
       if x.log != [] then PastLock(x.pc)
       else match x.pc
         case Entering | Trying | Reading => Free(s, x.clock)
         case Creating => s.lease.None?
         case Checking(copy) => s.lease == Some(copy) && Expired(copy, x.clock)
         case Updating(copy) => s.lease == Some(copy)
         case _ => false
  }

  lemma WinningOthers(s: State, l: Label, a: Id)
    requires Enabled(s, l) && Winning(s, a) && (l.Edit? || l.a != a)
    requires s.actors[a].log == [] ==> LeaseAfter(s, l) == s.lease
    ensures Winning(Effect(s, l), a)
  {
    assert Effect(s, l).actors[a] == s.actors[a];
  }

  lemma WinningStep(s: State, l: Label, a: Id)
    requires Enabled(s, l) && Winning(s, a) && !l.Edit? && l.a == a && s.actors[a].log == [] && Uncontended(s, l, a)
    ensures Winning(Effect(s, l), a)
    ensures Effect(s, l).actors[a].log != [] ==> IsHolder(Effect(s, l), a)
  {
  }

  /** A trace, once begun, stays. */
  lemma LogNeverEmpties(s: State, l: Label)
    requires Enabled(s, l) && !l.Edit? && !l.Spawn? && s.actors[l.a].log != []
    ensures Mover(s, l).log != []
  {
    var x := s.actors[l.a];
    if l.Get? || l.ReadSerial? || l.Upload? || l.Save? || l.Load? || l.ReadKey? {
      LogGrows(s, l);
    } else {
      assert l.CreateLease? || l.UpdateLease? || Mover(s, l).log == x.log;
    }
  }

  /** Past the lock a trace is only added to. */
  lemma LogGrows(s: State, l: Label)
    requires Enabled(s, l)
    requires l.Get? || l.ReadSerial? || l.Upload? || l.Save? || l.Load? || l.ReadKey?
    ensures s.actors[l.a].log <= Mover(s, l).log
  {
    var x, y := s.actors[l.a], Mover(s, l);
    if l.Get? {
      assert y == AfterGet(x, View(s, l.which), if l.which.Some? then l.which.value else 0);
    } else if l.ReadSerial? {
      assert x.log <= y.log;
    } else if l.Load? || l.Save? {
      assert x.log <= y.log;
    }
  }

  predicate PastLock(pc: PC) {
    !Attempting(pc) && !pc.Waiting? && !pc.Polling?
  }

  /** Nobody goes back to the lock. */
  lemma NoWayBack(s: State, l: Label)
    requires Enabled(s, l) && !l.Edit? && !l.Spawn? && PastLock(s.actors[l.a].pc)
    ensures PastLock(Mover(s, l).pc)
  {
    if l.Get? || l.ReadSerial? || l.Upload? {
      ZoneStepsStay(s, l);
    } else {
      assert l.Load? || l.Expire? || l.Mutate? || l.Save? || l.ReadKey? || l.Tick? || l.Crash?
        || l.GetOwnLease? || l.ClearLease?;
    }
  }

  lemma ZoneStepsStay(s: State, l: Label)
    requires Enabled(s, l) && (l.Get? || l.ReadSerial? || l.Upload?)
    ensures PastLock(Mover(s, l).pc)
  {
  }

  lemma WonStays(s: State, l: Label, a: Id)
    requires Enabled(s, l) && Winning(s, a) && !l.Edit? && l.a == a && s.actors[a].log != []
    ensures Winning(Effect(s, l), a)
  {
    LogNeverEmpties(s, l);
    NoWayBack(s, l);
    assert Effect(s, l).actors[a] == Mover(s, l);
  }

  /**
    A free lock is won by the first attempt when no other write to the Lease comes
    between: whatever else the others do, the request never waits, and its attempt
    ends only by taking the lock.
   */
  lemma {:induction false} FirstAttemptWins(s0: State, ls: seq<Label>, s: State, a: Id)
    requires a in s0.actors && s0.actors[a].log == [] && Free(s0, s0.actors[a].clock)
    requires s0.actors[a].pc.Entering? || s0.actors[a].pc.Trying? || s0.actors[a].pc.Reading?
    requires Exec(s0, ls) == Some(s) && UncontendedRun(s0, ls, a)
    ensures a in s.actors && !s.actors[a].pc.Waiting? && !s.actors[a].pc.Polling?
    ensures if Attempting(s.actors[a].pc) then s.actors[a].log == [] else s.actors[a].log != []
    ensures Winning(s, a)
    decreases |ls|
  {
    if ls != [] {
      StepTaken(s0, ls, s);
      var p, l := Exec(s0, Front(ls)).value, Last(ls);
      FirstAttemptWins(s0, Front(ls), p, a);
      if l.Edit? || l.a != a {
        WinningOthers(p, l, a);
      } else if p.actors[a].log == [] {
        WinningStep(p, l, a);
      } else {
        WonStays(p, l, a);
      }
    }
  }

  // ----- clock skew -----

  /** Any two pod clocks differ by at most `d`. */
  ghost predicate Skewed(s: State, d: int) {
    forall a, b | a in s.actors && b in s.actors :: s.actors[a].clock - s.actors[b].clock <= d
  }

  /** The request is still within its time budget on its own clock. */
  predicate InBudget(x: Actor, budget: int) {
    x.clock <= x.start + budget
  }

  ghost predicate TimesOk(s: State) {
    forall a | a in s.actors :: s.actors[a].start <= s.actors[a].renew <= s.actors[a].clock
  }

  lemma {:induction false} TimesRun(s0: State, ls: seq<Label>, s: State)
    requires Run(s0, ls, s)
    ensures TimesOk(s)
    decreases |ls|
  {
    if ls != [] {
      RunStep(s0, ls, s);
      var p := Exec(s0, Front(ls)).value;
      TimesRun(s0, Front(ls), p);
      TimesStep(p, Last(ls));
    }
  }

  lemma TimesStep(s: State, l: Label)
    requires TimesOk(s) && Enabled(s, l)
    ensures TimesOk(Effect(s, l))
  {
    var s' := Effect(s, l);
    forall a | a in s'.actors ensures s'.actors[a].start <= s'.actors[a].renew <= s'.actors[a].clock {
      if l.Edit? || a != l.a {
        assert s'.actors[a] == s.actors[a];
      } else if !l.Spawn? {
        OwnTimes(s, l);
      }
    }
  }

  /** RenewTime is always a reading of the actor's own clock, which does not go back. */
  lemma OwnTimes(s: State, l: Label)
    requires Enabled(s, l) && !l.Edit? && !l.Spawn?
    ensures var x, y := s.actors[l.a], Mover(s, l);
      y.start == x.start && y.clock >= x.clock && (y.renew == x.renew || y.renew == x.clock)
  {
  }

  /** The Lease of a holder carries its duration, and a RenewTime its clock has reached. */
  predicate Recorded(lease: Option<Lease>, x: Actor) {
    && lease.Some? && lease.value.seconds == Some(x.cfg.seconds)
    && lease.value.renew.Some? && x.start <= lease.value.renew.value <= x.clock
  }

  lemma RecordedStep(s: State, l: Label, a: Id)
    requires Enabled(s, l) && LeaseOk(s) && TimesOk(s) && a in Effect(s, l).actors && IsHolder(Effect(s, l), a)
    requires a in s.actors && IsHolder(s, a) ==> Recorded(s.lease, s.actors[a])
    ensures Recorded(Effect(s, l).lease, Effect(s, l).actors[a])
  {
    if l.Edit? || l.a != a {
      assert LeaseOkFor(s, a);
      HolderOnlyBySelf(s, l, a);
      LeaseKept(s, l, a);
    } else if !l.Spawn? {
      assert LeaseOkFor(s, a);
      OwnTimes(s, l);
    }
  }

  /** The Lease of a holder is replaced only by writes that name another holder, or none. */
  lemma LeaseKept(s: State, l: Label, a: Id)
    requires Enabled(s, l) && a != NOBODY && (l.Edit? || l.a != a) && IsHolder(Effect(s, l), a)
    ensures LeaseAfter(s, l) == s.lease || (l.ClearLease? && s.actors[l.a].pc.mine.holder == a)
  {
  }

  lemma {:induction false} HolderRecorded(s0: State, ls: seq<Label>, s: State, a: Id)
    requires Run(s0, ls, s) && a in s.actors && IsHolder(s, a)
    ensures Recorded(s.lease, s.actors[a])
    decreases |ls|
  {
    RunStep(s0, ls, s);
    var p := Exec(s0, Front(ls)).value;
    LeaseRun(s0, Front(ls), p);
    TimesRun(s0, Front(ls), p);
    if a in p.actors && IsHolder(p, a) {
      HolderRecorded(s0, Front(ls), p, a);
    }
    RecordedStep(p, Last(ls), a);
  }

  /** A budget that, with the skew, stays within the lease duration keeps the lease unexpired. */
  lemma BudgetUnexpired(s: State, a: Id, d: int, budget: int)
    requires TimesOk(s) && Skewed(s, d) && a in s.actors && InBudget(s.actors[a], budget)
    requires budget + d <= s.actors[a].cfg.seconds * SECOND
    ensures !Passed(s, Expiry(s.actors[a]))
  {
    var x := s.actors[a];
    forall b | b in s.actors ensures s.actors[b].clock <= Expiry(x) {
      assert s.actors[b].clock - x.clock <= d;
    }
  }

  /** The skew bound: within it, nobody finds the lease of a running request expired. */
  lemma SkewBound(s0: State, ls: seq<Label>, s: State, a: Id, d: int, budget: int)
    requires Run(s0, ls, s) && a in s.actors && Critical(s.actors[a].pc)
    requires Skewed(s, d) && InBudget(s.actors[a], budget)
    requires budget + d <= s.actors[a].cfg.seconds * SECOND
    ensures Holds(s.lease, a, s.actors[a])
    ensures forall b | b in s.actors :: !Expired(s.lease.value, s.actors[b].clock)
  {
    TimesRun(s0, ls, s);
    BudgetUnexpired(s, a, d, budget);
    Exclusion(s0, ls, s, a);
    forall b | b in s.actors ensures !Expired(s.lease.value, s.actors[b].clock) {
      assert !(s.actors[b].clock > Expiry(s.actors[a]));
    }
  }

  const REQUEST_TIMEOUT := 50 * SECOND
  const DEFAULT_LOCK_SECONDS := 60

  /** The shipped defaults tolerate ten seconds of skew. */
  lemma DefaultsTolerateTenSeconds(s0: State, ls: seq<Label>, s: State, a: Id)
    requires Run(s0, ls, s) && a in s.actors && Critical(s.actors[a].pc)
    requires s.actors[a].cfg.seconds == DEFAULT_LOCK_SECONDS
    requires Skewed(s, 10 * SECOND) && InBudget(s.actors[a], REQUEST_TIMEOUT)
    ensures forall b | b in s.actors :: s.lease.Some? && !Expired(s.lease.value, s.actors[b].clock)
  {
    SkewBound(s0, ls, s, a, 10 * SECOND, REQUEST_TIMEOUT);
  }

  /** Extends a run by one label. */
  lemma Then(s0: State, ls: seq<Label>, s: State, l: Label) returns (ls': seq<Label>, s': State)
    requires Run(s0, ls, s) && Enabled(s, l)
    ensures ls' == ls + [l] && s' == Effect(s, l) && Run(s0, ls', s')
  {
    ExecSnoc(s0, ls, l);
    ls', s' := ls + [l], Effect(s, l);
  }

  /** A new request comes to look at the Lease. */
  lemma ToLease(s0: State, ls0: seq<Label>, s1: State, a: Id, cfg: Config, op: Op, clock: int)
    returns (ls: seq<Label>, s: State)
    requires Run(s0, ls0, s1) && GoodConfig(cfg) && ChallengeOp(op)
    requires a !in s1.actors && a != NOBODY && (s1.lease.Some? ==> s1.lease.value.holder != a)
    ensures Run(s0, ls, s)
    ensures var x := Newborn(cfg, op, clock).(deadline := clock + cfg.wait);
      s == s1.(actors := s1.actors[a := AfterGetLease(x, s1.lease, true)])
  {
    ls := ThenNew(s0, ls0, s1, a, cfg, op, clock);
    var x := Newborn(cfg, op, clock).(deadline := clock + cfg.wait, pc := Trying);
    ls := ThenAlone(s0, ls, s1, x, TakeTime(a));
    x := x.(pc := Reading);
    ls := ThenAlone(s0, ls, s1, x, GetLease(a, true));
    s := With(s1, a, AfterGetLease(x, s1.lease, true));
  }

  /** Extends a run by a new request. */
  lemma ThenNew(s0: State, ls0: seq<Label>, s1: State, a: Id, cfg: Config, op: Op, clock: int)
    returns (ls: seq<Label>)
    requires Run(s0, ls0, s1) && Enabled(s1, Spawn(a, cfg, op, clock))
    ensures Run(s0, ls, With(s1, a, Newborn(cfg, op, clock).(deadline := clock + cfg.wait, pc := Trying)))
  {
    var s: State;
    ls, s := Then(s0, ls0, s1, Spawn(a, cfg, op, clock));
    assert s == With(s1, a, Newborn(cfg, op, clock));
    ls := ThenAlone(s0, ls, s1, Newborn(cfg, op, clock), Enter(a));
  }

  /** Extends a run by a label that changes only its actor. */
  lemma ThenAlone(s0: State, ls: seq<Label>, s1: State, x: Actor, l: Label) returns (ls': seq<Label>)
    requires l.Enter? || l.TakeTime? || l.GetLease?
    requires Run(s0, ls, With(s1, l.a, x)) && Enabled(With(s1, l.a, x), l)
    ensures Run(s0, ls', With(s1, l.a, Mover(With(s1, l.a, x), l)))
  {
    var s: State;
    ls', s := Then(s0, ls, With(s1, l.a, x), l);
    assert s == With(s1, l.a, Mover(With(s1, l.a, x), l));
  }

  /** The first request of a fresh cluster takes the lock at time 0 and is then busy for `budget`. */
  lemma FirstWriter(cfg: Config, op: Op, budget: nat) returns (s0: State, ls: seq<Label>, s: State)
    requires GoodConfig(cfg) && ChallengeOp(op)
    ensures Run(s0, ls, s) && s.actors.Keys == {1} && s.actors[1].pc.Loading?
    ensures s.actors[1].start == s.actors[1].renew == 0 && s.actors[1].clock == budget && s.actors[1].cfg == cfg
    ensures Holds(s.lease, 1, s.actors[1]) && s.lease.value.version == 1
  {
    s0 := State(map[], None, None, [ZoneVersion([], 0)], [], [], 0);
    ls, s := ToLease(s0, [], s0, 1, cfg, op, 0);
    ls, s := Then(s0, ls, s, CreateLease(1, Deliver));
    ls, s := Then(s0, ls, s, Tick(1, budget));
  }

  /** A second request reads the lease of the first, which its clock says is over. */
  lemma SecondWriter(s0: State, ls0: seq<Label>, s1: State, cfg: Config, op: Op, clock: int)
    returns (ls: seq<Label>, s: State)
    requires Run(s0, ls0, s1) && GoodConfig(cfg) && ChallengeOp(op)
    requires s1.actors.Keys == {1} && s1.lease.Some? && s1.lease.value.holder == 1 && Expired(s1.lease.value, clock)
    ensures Run(s0, ls, s) && s.lease == s1.lease && s.actors.Keys == {1, 2} && s.actors[1] == s1.actors[1]
    ensures s.actors[2].pc == Updating(s1.lease.value) && s.actors[2].clock == clock && s.actors[2].cfg == cfg
  {
    ls, s := ToLease(s0, ls0, s1, 2, cfg, op, clock);
    ls, s := Then(s0, ls, s, CheckExpiry(2));
  }

  /**
    The skew bound is exact, and because the lease is never renewed "one writer per
    zone" fails beyond it: whenever budget plus skew exceed the duration, some run
    has a second writer take the lock from a first that is still within its budget.
   */
  lemma SkewBoundTight(cfg: Config, op: Op, d: nat, budget: nat) returns (s0: State, ls: seq<Label>, s: State)
    requires GoodConfig(cfg) && ChallengeOp(op) && budget + d > cfg.seconds * SECOND
    ensures Run(s0, ls, s) && s.actors.Keys == {1, 2} && Skewed(s, d) && InBudget(s.actors[1], budget)
    ensures Critical(s.actors[1].pc) && Critical(s.actors[2].pc) && Holds(s.lease, 2, s.actors[2])
  {
    s0, ls, s := FirstWriter(cfg, op, budget);
    ls, s := SecondWriter(s0, ls, s, cfg, op, budget + d);
    ls, s := Then(s0, ls, s, UpdateLease(2, Deliver));
  }

  // ----- release and takeover -----

  /** A release changes only a Lease it holds, and then only clears the holder. */
  lemma ReleaseTouchesOwnLease(s0: State, ls: seq<Label>, s: State, l: Label)
    requires Run(s0, ls, s) && Enabled(s, l) && l.ClearLease?
    requires LeaseAfter(s, l) != s.lease
    ensures s.lease.Some? && s.lease.value.holder == l.a
    ensures LeaseAfter(s, l) == Some(s.lease.value.(holder := NOBODY, version := s.lease.value.version + 1))
  {
    LeaseRun(s0, ls, s);
    assert LeaseOkFor(s, l.a);
  }

  ghost predicate CountOk(s: State) {
    if s.lease.None? then s.takeovers == 0 else s.lease.value.transitions == Int32(s.takeovers)
  }

  /** LeaseTransitions counts the acquisitions by update, as an int32. */
  lemma {:induction false} TransitionsCount(s0: State, ls: seq<Label>, s: State)
    requires Run(s0, ls, s)
    ensures CountOk(s)
    decreases |ls|
  {
    if ls != [] {
      RunStep(s0, ls, s);
      var p, l := Exec(s0, Front(ls)).value, Last(ls);
      TransitionsCount(s0, Front(ls), p);
      LeaseRun(s0, Front(ls), p);
      Int32Step(p.takeovers);
      if l.UpdateLease? || l.ClearLease? {
        assert LeaseOkFor(p, l.a);
      }
    }
  }
}
