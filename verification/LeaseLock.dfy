/** The Lease lock: Acquire polls, tryAcquire compares and swaps, release clears. */
module LeaseLock {
  import opened Base
  import opened Records
  import opened Protocol
  import opened LeaseProofs
  import opened TraceProofs
  import opened LostAnswers
  import opened Outcomes
  import opened Convergence
  import opened World

  datatype AcquireResult = Held | NotHeld | Broken

  /** Whole seconds of a duration, as the int32 the Lease stores. */
  function WholeSeconds(duration: int): int {
    Int32(duration / SECOND)
  }

  /** From one second up to 2^31 seconds nothing is lost but the fraction. */
  lemma WholeSecondsMeaning(duration: int)
    requires SECOND <= duration < 0x8000_0000 * SECOND
    ensures WholeSeconds(duration) * SECOND <= duration < (WholeSeconds(duration) + 1) * SECOND
    ensures WholeSeconds(duration) >= 1
  {
  }

  class LeaseLock {
    const duration: int
    const waitTimeout: int
    const pollInterval: int

    /** Values that are not positive pick the defaults: 60s, 25s, 500ms. */
    constructor (duration: int, waitTimeout: int, pollInterval: int)
      ensures this.duration == if duration <= 0 then 60 * SECOND else duration
      ensures this.waitTimeout == if waitTimeout <= 0 then 25 * SECOND else waitTimeout
      ensures this.pollInterval == if pollInterval <= 0 then SECOND / 2 else pollInterval
      ensures this.pollInterval >= 1 && this.waitTimeout >= 1
    {
      this.duration := if duration <= 0 then 60 * SECOND else duration;
      this.waitTimeout := if waitTimeout <= 0 then 25 * SECOND else waitTimeout;
      this.pollInterval := if pollInterval <= 0 then SECOND / 2 else pollInterval;
    }

    /** The actor runs with this lock's settings. */
    predicate Fits(cfg: Config) {
      cfg.seconds == WholeSeconds(duration) && cfg.wait == waitTimeout && cfg.poll == pollInterval && GoodConfig(cfg)
    }

    /** `expired`: leases without a RenewTime or a duration count as expired. */
    method IsExpired(w: Cluster, me: Id, lease: Lease) returns (yes: bool)
      requires w.Valid() && me in w.state.actors && w.state.actors[me].pc == Checking(lease)
      modifies w
      ensures w.Advanced(me)
      ensures w.state.actors[me] == AfterCheckExpiry(old(w.state.actors[me]).(clock := w.state.actors[me].clock))
      ensures yes == Expired(lease, w.state.actors[me].clock)
    {
      var now := w.NowForExpiry(me);
      if lease.renew.None? || lease.seconds.None? {
        return true;
      }
      var expiry := lease.renew.value + lease.seconds.value * SECOND;
      return now > expiry;
    }

    /** One attempt: create the Lease, or take it over when unheld or expired. */
    method TryAcquire(w: Cluster, me: Id) returns (r: AcquireResult)
      requires w.Valid() && me in w.state.actors && w.state.actors[me].pc.Trying? && Fits(w.state.actors[me].cfg)
      modifies w
      ensures w.Advanced(me)
      ensures var x, y := old(w.state.actors[me]), w.state.actors[me];
        && y.cfg == x.cfg && y.op == x.op && y.deadline == x.deadline && y.start == x.start
        && x.clock <= y.renew <= y.clock
        && match r
           case Held => y.pc.Loading? && y.log == [Acquired] && Holds(w.state.lease, me, y)
           case NotHeld => y.pc.Waiting? && y.log == x.log
           case Broken => y.pc == Done(Failed) && y.log == x.log
      ensures r.Broken? ==> |w.trace| > |old(w.trace)| && LockCallFails(Last(w.trace), me)
    {
      var now := w.TakeTime(me);
      var seconds := WholeSeconds(duration);
      var got := w.GetLease(me);
      match got {
        case Failure =>
          return Broken;
        case NotFound =>
          var answer, _ := w.CreateLease(me, Lease(0, me, Some(now), Some(seconds), 0));
          return ResultOf(answer);
        case Found(lease) =>
          r := TakeOver(w, me, lease, now, seconds);
      }
    }

    function ResultOf(answer: WriteResult): AcquireResult {
      match answer case Ok => Held case Conflict => NotHeld case Error => Broken
    }

    /** Replaces the holder of a Lease that is unheld or expired. */
    method TakeOver(w: Cluster, me: Id, lease: Lease, now: int, seconds: int) returns (r: AcquireResult)
      requires w.Valid() && me in w.state.actors
      requires w.state.actors[me].renew == now && w.state.actors[me].cfg.seconds == seconds
      requires w.state.actors[me].pc == if lease.holder != NOBODY then Checking(lease) else Updating(lease)
      modifies w
      ensures w.Advanced(me)
      ensures var x, y := old(w.state.actors[me]), w.state.actors[me];
        y == x.(clock := y.clock, pc := y.pc, log := y.log)
        && match r
           case Held => y.pc.Loading? && y.log == [Acquired] && Holds(w.state.lease, me, y)
           case NotHeld => y.pc.Waiting? && y.log == x.log
           case Broken => y.pc == Done(Failed) && y.log == x.log
      ensures r.Broken? ==> |w.trace| > |old(w.trace)| && LockCallFails(Last(w.trace), me)
    {
      if lease.holder != NOBODY {
        var expired := IsExpired(w, me, lease);
        if !expired {
          return NotHeld;
        }
      }
      var answer, _ := w.UpdateLease(me,
        lease.(holder := me, seconds := Some(seconds), renew := Some(now),
          transitions := Int32(lease.transitions + 1)));
      r := ResultOf(answer);
    }

    /**
      Polls until the lock is held, the deadline is past, the request is cancelled,
      or an API call fails.  Every poll takes at least the poll interval, which bounds
      the number of attempts; None means the lock is held.  After an error the Lease
      names the request only if the answer to one of its own writes was lost.  A free
      lock that nobody else wants is won by the first attempt.
     */
    method Acquire(w: Cluster, me: Id) returns (err: Option<Outcome>, ghost tries: nat)
      requires w.Valid() && me in w.state.actors && w.state.actors[me].pc.Entering? && Fits(w.state.actors[me].cfg)
      requires waitTimeout >= 1
      modifies w
      ensures w.Advanced(me)
      ensures var x, y := old(w.state.actors[me]), w.state.actors[me];
        && y.cfg == x.cfg && y.op == x.op && y.start == x.start
        && (err.None? ==> y.pc.Loading? && y.log == [Acquired] && Holds(w.state.lease, me, y))
        && (err.Some? ==> y.pc == Done(err.value) && y.log == x.log)
        && (err == Some(LockTimeout) ==> y.clock > x.clock + waitTimeout)
      ensures Init(w.origin) && err.Some? && IsHolder(w.state, me) ==>
        exists i :: LostWrite(w.origin, w.trace, me, i)
      ensures old(w.calm && w.calmFor == me && w.calmFrom == w.state && Ready(w.state, me)) ==>
        err.None? && tries == 1
      ensures 1 <= tries <= waitTimeout / pollInterval + 2
      ensures err == Some(Failed) ==>
        exists i | |old(w.trace)| <= i < |w.trace| :: LockCallFails(w.trace[i], me)
      ensures err == Some(Cancelled) ==>
        exists i | |old(w.trace)| <= i < |w.trace| ::
          w.trace[i].Poll? && w.trace[i].a == me && w.trace[i].cancelled
      ensures err.None? || err == Some(Failed) || err == Some(Cancelled) || err == Some(LockTimeout)
    {
      if Init(w.origin) {
        LogRun(w.origin, w.trace, w.state);
      }
      w.Enter(me);
      err, tries := Await(w, me, w.state.actors[me].deadline);
      Unknowing(w.origin, w.trace, w.state, me);
    }

    /** The polling loop. */
    method Await(w: Cluster, me: Id, deadline: int) returns (err: Option<Outcome>, ghost tries: nat)
      requires w.Valid() && me in w.state.actors && w.state.actors[me].pc.Trying? && Fits(w.state.actors[me].cfg)
      requires w.state.actors[me].deadline == deadline == w.state.actors[me].clock + waitTimeout && waitTimeout >= 1
      modifies w
      ensures w.Advanced(me)
      ensures var x, y := old(w.state.actors[me]), w.state.actors[me];
        && y.cfg == x.cfg && y.op == x.op && y.start == x.start && Decided(w.state, me, err, x.log)
        && (err == Some(LockTimeout) ==> y.clock > deadline)
      ensures old(w.calm && w.calmFor == me && Ready(w.calmFrom, me)) ==> err.None? && tries == 1
      ensures 1 <= tries <= waitTimeout / pollInterval + 2
      ensures Excused(old(w.trace), w.trace, me, err)
    {
      ghost var begun := w.state.actors[me].clock;
      ghost var alone := w.calm && w.calmFor == me && Ready(w.calmFrom, me);
      tries := 0;
      while true
        invariant w.Advanced(me) && w.state.actors[me].pc.Trying? && w.state.actors[me].deadline == deadline
        invariant var x, y := old(w.state.actors[me]), w.state.actors[me];
          y.cfg == x.cfg && y.op == x.op && y.start == x.start && y.log == x.log
        invariant w.state.actors[me].clock >= begun + Polls(tries, pollInterval)
        invariant tries > 0 ==> Polls(tries - 1, pollInterval) <= waitTimeout
        invariant alone ==> tries == 0 && w.calm && w.calmFor == me && Ready(w.calmFrom, me)
        decreases deadline - w.state.actors[me].clock
      {
        AttemptsBound(tries, waitTimeout, pollInterval);
        tries := tries + 1;
        var decided;
        decided, err := Round(w, me, deadline);
        if decided {
          return;
        }
      }
    }

    /** How a request stands once its wait for the lock is over. */
    ghost predicate Decided(s: State, me: Id, err: Option<Outcome>, log: seq<Event>) {
      && me in s.actors
      && var y := s.actors[me];
         if err.None? then y.pc.Loading? && y.log == [Acquired] && Holds(s.lease, me, y)
         else y.pc == Done(err.value) && y.log == log
    }

    /** A wait ends without the lock only past the deadline, by a failed call, or by cancellation. */
    ghost predicate Excused(before: seq<Label>, after: seq<Label>, me: Id, err: Option<Outcome>) {
      match err
      case None => true
      case Some(Failed) => exists i | |before| <= i < |after| :: LockCallFails(after[i], me)
      case Some(Cancelled) =>
        exists i | |before| <= i < |after| :: after[i].Poll? && after[i].a == me && after[i].cancelled
      case Some(out) => out.LockTimeout?
    }

    /** One attempt, a look at the deadline, and one sleep. */
    method Round(w: Cluster, me: Id, deadline: int) returns (decided: bool, err: Option<Outcome>)
      requires w.Valid() && me in w.state.actors && w.state.actors[me].pc.Trying? && Fits(w.state.actors[me].cfg)
      requires w.state.actors[me].deadline == deadline
      modifies w
      ensures w.Advanced(me)
      ensures var x, y := old(w.state.actors[me]), w.state.actors[me];
        && y.cfg == x.cfg && y.op == x.op && y.start == x.start && y.deadline == deadline
        && (decided ==> Decided(w.state, me, err, x.log))
        && (!decided ==> y.pc.Trying? && y.log == x.log && x.clock <= deadline && y.clock >= x.clock + pollInterval)
        && (decided && err == Some(LockTimeout) ==> y.clock > deadline)
      ensures old(w.calm && w.calmFor == me && Ready(w.calmFrom, me)) ==> decided && err.None?
      ensures decided ==> Excused(old(w.trace), w.trace, me, err)
    {
      var r := TryAcquire(w, me);
      if w.calm && w.calmFor == me && Ready(w.calmFrom, me) {
        NeverWaits(w.calmFrom, w.calmTrace, w.state, me);
      }
      if r.Broken? {
        return true, Some(Failed);
      }
      if r.Held? {
        return true, None;
      }
      var now := w.NowForDeadline(me);
      if now > deadline {
        return true, Some(LockTimeout);
      }
      var cancelled := w.Sleep(me);
      if cancelled {
        return true, Some(Cancelled);
      }
      return false, None;
    }

    /**
      Ends the request with the outcome it had.  A Lease that names another holder is
      left alone; failed reads and conflicts are tried again, three times in all.
     */
    method Release(w: Cluster, me: Id)
      requires w.Valid() && me in w.state.actors && w.state.actors[me].pc.Releasing? && w.state.actors[me].pc.tries == 0
      modifies w
      ensures w.Advanced(me)
      ensures w.state.actors[me].pc == Done(old(w.state.actors[me].pc.out))
      ensures var x, y := old(w.state.actors[me]), w.state.actors[me]; y == x.(clock := y.clock, pc := y.pc)
    {
      ghost var out := w.state.actors[me].pc.out;
      var attempt := 0;
      while attempt < 3
        invariant w.Advanced(me) && attempt <= 3
        invariant w.state.actors[me].pc == if attempt < 3 then Releasing(attempt, out) else Done(out)
        invariant var x, y := old(w.state.actors[me]), w.state.actors[me]; y == x.(clock := y.clock, pc := y.pc)
      {
        var done := ReleaseOnce(w, me);
        if done {
          return;
        }
        attempt := attempt + 1;
      }
    }

    /** One try; `done` unless a read failed or the Lease changed in between. */
    method ReleaseOnce(w: Cluster, me: Id) returns (done: bool)
      requires w.Valid() && me in w.state.actors && w.state.actors[me].pc.Releasing?
      modifies w
      ensures w.Advanced(me)
      ensures var x, y := old(w.state.actors[me]), w.state.actors[me];
        && y == x.(clock := y.clock, pc := y.pc)
        && y.pc == if done then Done(x.pc.out) else NextTry(x, x.pc.tries, x.pc.out).pc
    {
      var got := w.GetOwnLease(me);
      if !got.Found? {
        return false;
      }
      var lease := got.value;
      if lease.holder != me {
        return true;
      }
      var answer, _ := w.ClearLease(me, lease.(holder := NOBODY));
      return !answer.Conflict?;
    }
  }

  /** The time `n` polls take. */
  function Polls(n: nat, poll: nat): nat {
    if n == 0 then 0 else Polls(n - 1, poll) + poll
  }

  lemma {:induction false} PollsProduct(n: nat, poll: nat)
    ensures Polls(n, poll) == n * poll
  {
    if n > 0 {
      PollsProduct(n - 1, poll);
      assert n * poll == (n - 1) * poll + poll;
    }
  }

  /** While the deadline is not past, the polls so far fit into the wait. */
  lemma AttemptsBound(tries: nat, wait: int, poll: nat)
    requires poll >= 1 && wait >= 1
    requires tries > 0 ==> Polls(tries - 1, poll) <= wait
    ensures tries + 1 <= wait / poll + 2
  {
    if tries > 0 {
      PollsProduct(tries - 1, poll);
      Quotient(tries - 1, wait, poll);
    }
  }

  lemma Quotient(n: nat, wait: int, poll: nat)
    requires poll >= 1 && n * poll <= wait
    ensures n <= wait / poll
  {
    Multiples(n, wait / poll, poll);
  }

  lemma Multiples(n: nat, q: int, poll: nat)
    ensures n > q ==> n * poll >= q * poll + poll
  {
    if n > q {
      assert (n - q - 1) * poll >= 0;
      assert n * poll == (n - q - 1) * poll + q * poll + poll;
    }
  }
}
