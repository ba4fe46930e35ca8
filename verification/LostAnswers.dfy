/**
  What a lost answer leaves behind.  A write to the Lease that lands, but whose
  answer does not arrive, makes a request the recorded holder without its knowing.
  It will not release the lock, and the zone is blocked until the lease is over.
 */
module LostAnswers {
  import opened Base
  import opened Records
  import opened Desired
  import opened Protocol
  import opened LeaseProofs
  import opened TraceProofs

  /** Step `i` of the run: a write of `a` to the Lease lands, and its answer is lost. */
  ghost predicate LostWrite(s0: State, ls: seq<Label>, a: Id, i: int) {
    && 0 <= i < |ls| && Exec(s0, ls[..i]).Some?
    && var p, l := Exec(s0, ls[..i]).value, ls[i];
    && Enabled(p, l) && (l.CreateLease? || l.UpdateLease?) && l.a == a
    && (l.reply.Lost? || l.reply.LostAsConflict?)
    && LeaseAfter(p, l) != p.lease && IsHolder(Effect(p, l), a)
  }

  lemma LostWriteStays(s0: State, ls: seq<Label>, a: Id, i: int)
    requires ls != [] && LostWrite(s0, Front(ls), a, i)
    ensures LostWrite(s0, ls, a, i)
  {
    assert ls[..i] == Front(ls)[..i];
  }

  /** Becoming the holder without taking the lock into the trace takes a lost answer. */
  lemma SilentHolder(s: State, l: Label)
    requires Enabled(s, l) && !l.Edit? && l.a != NOBODY
    requires IsHolder(Effect(s, l), l.a) && !IsHolder(s, l.a) && Mover(s, l).log == []
    ensures (l.CreateLease? || l.UpdateLease?) && (l.reply.Lost? || l.reply.LostAsConflict?)
    ensures LeaseAfter(s, l) != s.lease
  {
  }

  /**
    A request that has not seen itself take the lock is the recorded holder only if
    one of its own writes to the Lease landed and the answer was lost.
   */
  lemma {:induction false} HolderByLostAnswer(s0: State, ls: seq<Label>, s: State, a: Id)
    requires Run(s0, ls, s) && a in s.actors && s.actors[a].log == [] && IsHolder(s, a)
    ensures exists i :: LostWrite(s0, ls, a, i)
    decreases |ls|
  {
    RunStep(s0, ls, s);
    var p, l := Exec(s0, Front(ls)).value, Last(ls);
    LeaseRun(s0, ls, s);
    assert LeaseOkFor(s, a);
    if !l.Edit? && l.a == a && !IsHolder(p, a) {
      SilentHolder(p, l);
      assert Front(ls) == ls[..|ls| - 1];
      assert LostWrite(s0, ls, a, |ls| - 1);
    } else {
      Earlier(p, l, a);
      HolderByLostAnswer(s0, Front(ls), p, a);
      var i :| LostWrite(s0, Front(ls), a, i);
      LostWriteStays(s0, ls, a, i);
    }
  }

  /** The same for executions that may not start at the beginning. */
  lemma Unknowing(s0: State, ls: seq<Label>, s: State, a: Id)
    requires Exec(s0, ls) == Some(s) && a in s.actors
    ensures Init(s0) && s.actors[a].log == [] && IsHolder(s, a) ==> exists i :: LostWrite(s0, ls, a, i)
  {
    if Init(s0) && s.actors[a].log == [] && IsHolder(s, a) {
      HolderByLostAnswer(s0, ls, s, a);
    }
  }

  /** Otherwise it was so before the step. */
  lemma Earlier(s: State, l: Label, a: Id)
    requires Enabled(s, l) && a != NOBODY && a in Effect(s, l).actors
    requires Effect(s, l).actors[a].log == [] && IsHolder(Effect(s, l), a)
    requires l.Edit? || l.a != a || IsHolder(s, a)
    ensures a in s.actors && s.actors[a].log == [] && IsHolder(s, a)
  {
    if l.Edit? || l.a != a {
      HolderOnlyBySelf(s, l, a);
    } else if !l.Spawn? && s.actors[a].log != [] {
      LogNeverEmpties(s, l);
    }
  }

  /**
    A request that gives up waiting, strictly after its deadline or cancelled, is the
    recorded holder only through a lost answer; with all answers delivered, never.
   */
  lemma TimeoutWithoutLock(s0: State, ls: seq<Label>, s: State, a: Id)
    requires Run(s0, ls, s) && a in s.actors && s.actors[a].pc.Done?
    requires s.actors[a].pc.result.LockTimeout? || s.actors[a].pc.result.Cancelled?
    ensures s.actors[a].log == []
    ensures s.actors[a].pc.result.LockTimeout? ==> s.actors[a].clock > s.actors[a].deadline
    ensures IsHolder(s, a) ==> exists i :: LostWrite(s0, ls, a, i)
  {
    LogRun(s0, ls, s);
    assert LogOk(s.actors[a]);
    if IsHolder(s, a) {
      HolderByLostAnswer(s0, ls, s, a);
    }
  }

  /** The run in which it happens, for any settings: the lock is timed out on, by its holder. */
  lemma TimeoutCanHoldLock(cfg: Config, op: Op) returns (s0: State, ls: seq<Label>, s: State)
    requires GoodConfig(cfg) && ChallengeOp(op)
    ensures Run(s0, ls, s) && 1 in s.actors && s.actors[1].pc == Done(LockTimeout) && s.actors[1].log == []
    ensures IsHolder(s, 1) && s.lease.value.renew == Some(0) && s.lease.value.seconds == Some(cfg.seconds)
  {
    s0 := State(map[], None, None, [ZoneVersion([], 0)], [], [], 0);
    ls, s := ToLease(s0, [], s0, 1, cfg, op, 0);
    ls, s := Then(s0, ls, s, CreateLease(1, LostAsConflict));
    ls, s := GivesUp(s0, ls, s, cfg);
  }

  /** It waits until its deadline is past. */
  lemma GivesUp(s0: State, ls0: seq<Label>, t: State, cfg: Config) returns (ls: seq<Label>, s: State)
    requires Run(s0, ls0, t) && 1 in t.actors && t.actors[1].pc.Waiting?
    requires t.actors[1].clock == 0 && t.actors[1].deadline == cfg.wait
    ensures Run(s0, ls, s) && s.lease == t.lease && 1 in s.actors
    ensures s.actors[1].pc == Done(LockTimeout) && s.actors[1].log == t.actors[1].log
  {
    var late := if cfg.wait < 0 then 0 else cfg.wait + 1;
    ls, s := Then(s0, ls0, t, Tick(1, late));
    assert s == With(t, 1, t.actors[1].(clock := late));
    ls, s := Then(s0, ls, s, CheckDeadline(1));
  }

  /** A request that is over takes no more steps. */
  predicate Over(x: Actor) {
    x.pc.Done? || x.pc.Crashed?
  }

  /** The Lease of a holder that is over changes only after some clock has seen it end. */
  lemma AbandonedStep(s: State, l: Label, a: Id, end: int)
    requires LeaseOk(s) && Enabled(s, l) && a in s.actors && Over(s.actors[a]) && IsHolder(s, a)
    requires s.lease.value.renew.Some? && s.lease.value.seconds.Some?
    requires end == s.lease.value.renew.value + s.lease.value.seconds.value * SECOND && !Passed(s, end)
    ensures LeaseAfter(s, l) == s.lease
    ensures a in Effect(s, l).actors && Over(Effect(s, l).actors[a])
  {
    assert LeaseOkFor(s, a);
    if l.UpdateLease? || l.ClearLease? {
      assert LeaseOkFor(s, l.a);
    }
  }

  /**
    An abandoned lock blocks the zone: whatever anybody does, the Lease stays as it is
    until some clock passes its RenewTime plus duration.
   */
  lemma {:induction false} AbandonedBlocks(
    s0: State, ls: seq<Label>, s: State, a: Id, more: seq<Label>, t: State)
    requires Run(s0, ls, s) && a in s.actors && Over(s.actors[a]) && IsHolder(s, a)
    requires s.lease.value.renew.Some? && s.lease.value.seconds.Some?
    requires Exec(s, more) == Some(t)
    requires !Passed(t, s.lease.value.renew.value + s.lease.value.seconds.value * SECOND)
    ensures t.lease == s.lease && a in t.actors && Over(t.actors[a])
    decreases |more|
  {
    if more != [] {
      StepTaken(s, more, t);
      var p, l := Exec(s, Front(more)).value, Last(more);
      var end := s.lease.value.renew.value + s.lease.value.seconds.value * SECOND;
      ClocksAdvance(p, l, end);
      AbandonedBlocks(s0, ls, s, a, Front(more), p);
      ExecConcat(s0, ls, s, Front(more), p);
      LeaseRun(s0, ls + Front(more), p);
      AbandonedStep(p, l, a, end);
    }
  }
}
