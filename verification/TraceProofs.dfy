/**
  One actor's trace: what it has done since it took the lock, in which order and
  how often.  Nothing here depends on the other actors.
 */
module TraceProofs {
  import opened Base
  import opened Records
  import opened Payload
  import opened Names
  import opened Desired
  import opened Protocol
  import opened LeaseProofs

  function Gets(log: seq<Event>): nat {
    if log == [] then 0 else Gets(Front(log)) + if Last(log).Fetched? then 1 else 0
  }

  function Serials(log: seq<Event>): nat {
    if log == [] then 0 else Serials(Front(log)) + if Last(log).SerialRead? then 1 else 0
  }

  function Moves(log: seq<Event>): nat {
    if log == [] then 0 else Moves(Front(log)) + if Last(log).Moved? then 1 else 0
  }

  lemma CountSnoc(log: seq<Event>, e: Event)
    ensures Gets(log + [e]) == Gets(log) + if e.Fetched? then 1 else 0
    ensures Serials(log + [e]) == Serials(log) + if e.SerialRead? then 1 else 0
    ensures Moves(log + [e]) == Moves(log) + if e.Moved? then 1 else 0
  {
    Snoc(log, e);
  }

  // ----- the grammar of a trace -----

  /** The lock is taken, the state loaded and saved; then only reads and serial reads. */
  predicate Body(log: seq<Event>, st: ZoneState) {
    && |log| >= 3 && log[0] == Acquired && log[1] == Loaded && log[2] == Saved(st)
    && forall i | 3 <= i < |log| :: log[i].SerialRead? || log[i].Moved? || log[i].Fetched?
  }

  /** A body, at most one upload, and nothing after it. */
  predicate Written(log: seq<Event>, st: ZoneState) {
    Body(log, st) || (log != [] && Last(log).Uploaded? && Body(Front(log), st))
  }

  /** What may have happened by the time the lock is let go. */
  predicate Open(log: seq<Event>, st: ZoneState) {
    log == [Acquired] || log == [Acquired, Loaded] || Written(log, st)
  }

  /** A finished trace: an open one, then the release, exactly once and last. */
  predicate Closed(log: seq<Event>, st: ZoneState) {
    log != [] && Last(log) == Released && Open(Front(log), st)
  }

  /** Longest trace of reads that `n` attempts can leave. */
  predicate Bounded(log: seq<Event>, n: nat) {
    Gets(log) <= 2 * n && Serials(log) <= 2 * n
  }

  // ----- the write decision -----

  /** An upload is planned from the last view, which differs, and carries something. */
  predicate Planned(x: Actor) {
    && x.views != []
    && PlanFor(x, Last(x.views)).diff.Changed()
    && x.payload == NeverEmpty(x.cfg, PlanFor(x, Last(x.views)).payload)
  }

  /** A view without own records was read twice. */
  predicate Confirmed(x: Actor) {
    (|x.views| == 1 && Own(x.views[0]) != []) || (|x.views| == 2 && Own(x.views[0]) == [])
  }

  /** The serials around the read agree, or one is missing and the check is not required. */
  predicate Gate(x: Actor) {
    || (x.before.None? && !x.cfg.serialRequired)
    || (x.before.Some? && x.after == x.before)
    || (x.before.Some? && x.after.None? && !x.cfg.serialRequired)
  }

  /** An upload as the code meant it: planned, confirmed, past the serial gate. */
  predicate Justified(x: Actor, payload: seq<DNSRecord>) {
    payload == x.payload && Planned(x) && Confirmed(x) && Gate(x)
  }

  predicate Finished(x: Actor, out: Outcome) {
    && Closed(x.log, x.st)
    && !out.LockTimeout? && !out.Cancelled?
    && Bounded(x.log, x.cfg.attempts)
    && (out.ZoneChanging? ==> Moves(x.log) == x.cfg.attempts && Body(Front(x.log), x.st))
    && (out.Written? || out.Failed? || !Last(Front(x.log)).Uploaded?)
    && (out.Written? ==> Last(Front(x.log)).Uploaded?)
    && (out.InSync? ==> Body(Front(x.log), x.st) && x.views != [] && !PlanFor(x, Last(x.views)).diff.Changed())
    && (Last(Front(x.log)).Uploaded? ==> Justified(x, Last(Front(x.log)).payload))
  }

  // ----- the invariant -----

  predicate Working(x: Actor, gets: nat, serials: nat) {
    && Body(x.log, x.st)
    && 1 <= x.attempt <= x.cfg.attempts
    && Moves(x.log) == x.attempt - 1
    && Gets(x.log) <= 2 * (x.attempt - 1) + gets
    && Serials(x.log) <= 2 * (x.attempt - 1) + serials
  }

  predicate SerialKnown(x: Actor) {
    x.cfg.serialRequired ==> x.before.Some?
  }

  predicate LogOk(x: Actor) {
    && GoodConfig(x.cfg)
    && ChallengeOp(x.op)
    && match x.pc
       case Entering | Trying | Reading | Creating | Checking(_) | Updating(_) | Waiting | Polling => x.log == []
       case Loading => x.log == [Acquired]
       case Expiring | Mutating | Saving => x.log == [Acquired, Loaded]
       case Keying => Body(x.log, x.st) && Gets(x.log) == Serials(x.log) == Moves(x.log) == 0
       case SerialBefore => Working(x, 0, 0)
       case Fetching => Working(x, 0, 1) && SerialKnown(x) && x.views == []
       case Refetching => Working(x, 1, 1) && SerialKnown(x) && |x.views| == 1 && Own(x.views[0]) == []
       case SerialAfter => Working(x, 2, 1) && Planned(x) && Confirmed(x) && x.before.Some?
       case Putting => Working(x, 2, 2) && Planned(x) && Confirmed(x) && Gate(x)
       case Releasing(_, out) => Finished(x, out)
       case Clearing(_, _, out) => Finished(x, out)
       case Done(out) =>
         if x.log == [] then out.Failed? || out.Cancelled? || (out.LockTimeout? && x.clock > x.deadline)
         else Finished(x, out)
       case Crashed => x.log == [] || Open(x.log, x.st) || Closed(x.log, x.st)
  }

  lemma BodySnoc(log: seq<Event>, e: Event, st: ZoneState)
    requires Body(log, st) && (e.SerialRead? || e.Moved? || e.Fetched?)
    ensures Body(log + [e], st)
  {
    assert forall i | 0 <= i < |log| :: (log + [e])[i] == log[i];
  }

  lemma LeaveOk(x: Actor, out: Outcome)
    requires GoodConfig(x.cfg) && ChallengeOp(x.op) && x.log != []
    requires Open(x.log, x.st) && Bounded(x.log, x.cfg.attempts)
    requires out.ZoneChanging? ==> Moves(x.log) == x.cfg.attempts && Body(x.log, x.st)
    requires out.Written? || out.Failed? || !Last(x.log).Uploaded?
    requires out.Written? ==> Last(x.log).Uploaded?
    requires out.InSync? ==> Body(x.log, x.st) && x.views != [] && !PlanFor(x, Last(x.views)).diff.Changed()
    requires !out.LockTimeout? && !out.Cancelled?
    requires Last(x.log).Uploaded? ==> Justified(x, Last(x.log).payload)
    ensures LogOk(Leave(x, out))
  {
    Snoc(x.log, Released);
  }

  lemma BodyEnd(log: seq<Event>, st: ZoneState)
    requires Body(log, st)
    ensures !Last(log).Uploaded?
  {
  }

  lemma ShortCounts()
    ensures Gets([Acquired]) == Serials([Acquired]) == Moves([Acquired]) == 0
    ensures Gets([Acquired, Loaded]) == Serials([Acquired, Loaded]) == Moves([Acquired, Loaded]) == 0
  {
    CountSnoc([], Acquired);
    CountSnoc([Acquired], Loaded);
    assert [] + [Acquired] == [Acquired] && [Acquired] + [Loaded] == [Acquired, Loaded];
  }

  lemma LoadOk(x: Actor, cm: Option<ConfigMap>, ok: bool)
    requires LogOk(x) && x.pc.Loading?
    ensures LogOk(AfterLoad(x, cm, ok))
  {
    ShortCounts();
    if !ok {
      LeaveOk(x, Failed);
    } else {
      var st := StoredState(cm);
      var y := x.(st := st.(secret := Secret(x.op, st.secret)), version := StoredVersion(cm), log := x.log + [Loaded]);
      assert y.log == [Acquired, Loaded];
      if y.st.secret.name == "" {
        LeaveOk(y, NoKey);
      }
    }
  }

  lemma SaveOk(x: Actor, answer: WriteResult)
    requires LogOk(x) && x.pc.Saving?
    ensures LogOk(AfterSave(x, answer))
  {
    ShortCounts();
    if answer.Ok? {
      CountSnoc(x.log, Saved(x.st));
    } else {
      LeaveOk(x, Failed);
    }
  }

  lemma ReadKeyOk(x: Actor, ok: bool)
    requires LogOk(x) && x.pc.Keying?
    ensures LogOk(AfterReadKey(x, ok))
  {
    if !ok {
      BodyEnd(x.log, x.st);
      LeaveOk(x, Failed);
    }
  }

  lemma SerialBeforeOk(x: Actor, answer: Option<int>, current: nat)
    requires LogOk(x) && x.pc.SerialBefore?
    ensures LogOk(AfterSerialBefore(x, answer, current))
  {
    BodySnoc(x.log, SerialRead(answer), x.st);
    CountSnoc(x.log, SerialRead(answer));
    var y := if x.cfg.serialCheck then x.(log := x.log + [SerialRead(answer)]) else x;
    if x.cfg.serialRequired && answer.None? {
      BodyEnd(y.log, x.st);
      LeaveOk(y, SerialUnavailable);
    }
  }

  lemma DecideOk(x: Actor, view: seq<DNSRecord>)
    requires GoodConfig(x.cfg) && ChallengeOp(x.op)
    requires Working(x, 2, 1) && SerialKnown(x) && Confirmed(x) && Last(x.views) == view
    ensures LogOk(Decide(x, view))
  {
    if !PlanFor(x, view).diff.Changed() {
      BodyEnd(x.log, x.st);
      LeaveOk(x, InSync);
    }
  }

  lemma GetOk(x: Actor, view: Option<seq<DNSRecord>>, version: nat)
    requires LogOk(x) && (x.pc.Fetching? || x.pc.Refetching?)
    ensures LogOk(AfterGet(x, view, version))
  {
    BodySnoc(x.log, Fetched(view), x.st);
    CountSnoc(x.log, Fetched(view));
    var y := x.(log := x.log + [Fetched(view)]);
    if view.None? {
      BodyEnd(y.log, x.st);
      LeaveOk(y, Failed);
    } else {
      var z := y.(views := x.views + [view.value], got := version);
      Snoc(x.views, view.value);
      if !(x.pc.Fetching? && Own(view.value) == []) {
        DecideOk(z, view.value);
      }
    }
  }

  lemma MovedOk(x: Actor)
    requires GoodConfig(x.cfg) && ChallengeOp(x.op) && Working(x, 2, 2)
    ensures var y := x.(log := x.log + [Moved]);
      LogOk(if x.attempt < x.cfg.attempts then y.(attempt := x.attempt + 1, pc := SerialBefore)
        else Leave(y, ZoneChanging))
  {
    var y := x.(log := x.log + [Moved]);
    BodySnoc(x.log, Moved, x.st);
    CountSnoc(x.log, Moved);
    if x.attempt >= x.cfg.attempts {
      BodyEnd(y.log, x.st);
      LeaveOk(y, ZoneChanging);
    }
  }

  lemma SerialAfterOk(x: Actor, answer: Option<int>, current: nat)
    requires LogOk(x) && x.pc.SerialAfter?
    ensures LogOk(AfterSerialAfter(x, answer, current))
  {
    var y := x.(log := x.log + [SerialRead(answer)], after := answer, mid := current);
    BodySnoc(x.log, SerialRead(answer), x.st);
    CountSnoc(x.log, SerialRead(answer));
    if answer.Some? && answer != x.before {
      MovedOk(y);
    } else if answer.None? && x.cfg.serialRequired {
      BodyEnd(y.log, x.st);
      LeaveOk(y, SerialUnavailable);
    }
  }

  lemma UploadOk(x: Actor, reply: Reply)
    requires LogOk(x) && x.pc.Putting?
    ensures LogOk(AfterUpload(x, reply))
  {
    Snoc(x.log, Uploaded(x.payload));
    CountSnoc(x.log, Uploaded(x.payload));
    var y := x.(log := x.log + [Uploaded(x.payload)]);
    assert PlanFor(y, Last(y.views)) == PlanFor(x, Last(x.views));
    LeaveOk(y, if reply.Deliver? then Outcome.Written else Failed);
  }

  lemma CrashOk(x: Actor)
    requires LogOk(x)
    ensures LogOk(x.(pc := Crashed))
  {
  }

  /** Every step of an actor keeps its trace in order. */
  lemma LogStep(s: State, l: Label)
    requires Enabled(s, l) && !l.Edit?
    requires !l.Spawn? ==> LogOk(s.actors[l.a])
    ensures LogOk(Mover(s, l))
  {
    if l.Load? {
      LoadOk(s.actors[l.a], s.cm, l.ok);
    } else if l.Save? {
      SaveOk(s.actors[l.a], Answer(StoredVersion(s.cm) == s.actors[l.a].version, l.reply));
    } else if l.ReadKey? {
      ReadKeyOk(s.actors[l.a], l.ok);
    } else if l.ReadSerial? {
      if s.actors[l.a].pc.SerialBefore? {
        SerialBeforeOk(s.actors[l.a], l.answer, Current(s));
      } else {
        SerialAfterOk(s.actors[l.a], l.answer, Current(s));
      }
    } else if l.Get? {
      GetOk(s.actors[l.a], View(s, l.which), if l.which.Some? then l.which.value else 0);
    } else if l.Upload? {
      UploadOk(s.actors[l.a], l.reply);
    } else if l.Crash? {
      CrashOk(s.actors[l.a]);
    } else {
      PlainStep(s, l);
    }
  }

  /** The passing of time changes nothing else. */
  lemma TickOk(x: Actor, y: Actor)
    requires LogOk(x) && y == x.(clock := y.clock) && y.clock >= x.clock
    ensures LogOk(y)
  {
    assert y.views == x.views;
  }

  lemma TickIs(s: State, l: Label)
    requires Enabled(s, l) && l.Tick?
    ensures Mover(s, l) == s.actors[l.a].(clock := s.actors[l.a].clock + l.dt)
  {
  }

  lemma LockStep(s: State, l: Label)
    requires Enabled(s, l) && !l.Edit? && !l.Spawn? && LogOk(s.actors[l.a])
    requires l.Enter? || l.TakeTime? || l.GetLease? || l.CreateLease? || l.CheckExpiry? || l.UpdateLease?
      || l.CheckDeadline? || l.Poll?
    ensures LogOk(Mover(s, l))
  {
  }

  lemma FinishedAt(x: Actor, pc: PC, out: Outcome)
    requires Finished(x, out)
    ensures Finished(x.(pc := pc), out)
  {
    var y := x.(pc := pc);
    assert y.views == x.views && y.log == x.log;
    if x.views != [] {
      assert PlanFor(y, Last(y.views)) == PlanFor(x, Last(x.views));
    }
  }

  lemma NextTryOk(x: Actor, tries: nat, out: Outcome)
    requires GoodConfig(x.cfg) && ChallengeOp(x.op) && Finished(x, out)
    ensures LogOk(NextTry(x, tries, out)) && LogOk(x.(pc := Done(out)))
  {
    FinishedAt(x, Releasing(tries + 1, out), out);
    FinishedAt(x, Done(out), out);
  }

  lemma ReleaseStep(s: State, l: Label)
    requires Enabled(s, l) && !l.Edit? && !l.Spawn? && LogOk(s.actors[l.a])
    requires l.GetOwnLease? || l.ClearLease?
    ensures LogOk(Mover(s, l))
  {
    var x := s.actors[l.a];
    NextTryOk(x, x.pc.tries, x.pc.out);
    if l.GetOwnLease? && l.ok && s.lease.Some? {
      FinishedAt(x, Clearing(x.pc.tries, s.lease.value, x.pc.out), x.pc.out);
    }
  }

  lemma PlainStep(s: State, l: Label)
    requires Enabled(s, l) && !l.Edit?
    requires !l.Spawn? ==> LogOk(s.actors[l.a])
    requires !l.Load? && !l.Save? && !l.ReadKey? && !l.ReadSerial? && !l.Get? && !l.Upload? && !l.Crash?
    ensures LogOk(Mover(s, l))
  {
    if l.Tick? {
      TickIs(s, l);
      TickOk(s.actors[l.a], Mover(s, l));
    } else if l.GetOwnLease? || l.ClearLease? {
      ReleaseStep(s, l);
    } else if l.Spawn? || l.Expire? || l.Mutate? {
      SilentStep(s, l);
    } else {
      LockStep(s, l);
    }
  }

  lemma SilentStep(s: State, l: Label)
    requires Enabled(s, l) && (l.Spawn? || l.Expire? || l.Mutate?)
    requires !l.Spawn? ==> LogOk(s.actors[l.a])
    ensures LogOk(Mover(s, l))
  {
  }

  ghost predicate LogsOk(s: State) {
    && (forall a | a in s.actors :: LogOk(s.actors[a]))
    && (forall i | 0 <= i < |s.puts| :: LogOk(s.puts[i].writer) && s.puts[i].writer.pc.Putting?)
  }

  lemma {:induction false} LogRun(s0: State, ls: seq<Label>, s: State)
    requires Run(s0, ls, s)
    ensures LogsOk(s)
    decreases |ls|
  {
    if ls != [] {
      RunStep(s0, ls, s);
      var p := Exec(s0, Front(ls)).value;
      LogRun(s0, Front(ls), p);
      LogsStep(p, Last(ls));
    }
  }

  lemma LogsStep(s: State, l: Label)
    requires LogsOk(s) && Enabled(s, l)
    ensures LogsOk(Effect(s, l))
  {
    var s' := Effect(s, l);
    if !l.Edit? {
      LogStep(s, l);
    }
    forall a | a in s'.actors ensures LogOk(s'.actors[a]) {
      assert l.Edit? || a != l.a ==> s'.actors[a] == s.actors[a];
    }
  }

  // ----- what the invariant says about whole requests -----

  /** Order within an open trace. */
  lemma OpenShape(log: seq<Event>, st: ZoneState)
    requires Open(log, st)
    ensures log[0] == Acquired
    ensures forall i | 0 <= i < |log| :: log[i] != Released
    ensures forall i | 0 <= i < |log| && (log[i].Fetched? || log[i].SerialRead? || log[i].Uploaded?) ::
      i > 2 && log[1] == Loaded && log[2] == Saved(st)
    ensures forall i | 0 <= i < |log| && log[i].Uploaded? :: i == |log| - 1
  {
    if log != [] && Last(log).Uploaded? {
      FrontLast(log);
      var body := Front(log);
      assert forall i | 0 <= i < |body| :: log[i] == body[i];
    }
  }

  /** Order within a finished trace. */
  ghost predicate InOrder(x: Actor) {
    var n := |x.log| - 1;
    && n >= 0 && x.log[0] == Acquired
    && (forall i | 0 <= i <= n :: x.log[i] == Released <==> i == n)
    && (forall i | 0 <= i <= n && (x.log[i].Fetched? || x.log[i].SerialRead? || x.log[i].Uploaded?) ::
          i > 2 && x.log[1] == Loaded && x.log[2] == Saved(x.st))
    && (forall i | 0 <= i <= n && x.log[i].Uploaded? :: i == n - 1)
  }

  lemma ClosedShape(x: Actor)
    requires Closed(x.log, x.st)
    ensures InOrder(x)
  {
    var open := Front(x.log);
    FrontLast(x.log);
    OpenShape(open, x.st);
    assert forall i | 0 <= i < |open| :: x.log[i] == open[i];
  }

  /**
    Trace safety of a finished request that took the lock: it is released exactly
    once and last; nothing is read from or written to the zone before the save;
    there is at most one upload, the last thing before the release, and it is the
    payload rule applied to the records of that save and the last view fetched.
   */
  lemma TraceSafety(s0: State, ls: seq<Label>, s: State, a: Id)
    requires Run(s0, ls, s) && a in s.actors && s.actors[a].pc.Done? && s.actors[a].log != []
    ensures InOrder(s.actors[a])
    ensures var x := s.actors[a]; var n := |x.log| - 1;
      n >= 1 && (x.log[n - 1].Uploaded? ==>
        x.views != [] && x.log[n - 1].payload == NeverEmpty(x.cfg, PlanFor(x, Last(x.views)).payload))
    ensures var x := s.actors[a]; x.pc.result.Written? ==> x.log[|x.log| - 2].Uploaded?
  {
    LogRun(s0, ls, s);
    var x := s.actors[a];
    assert LogOk(x) && Finished(x, x.pc.result);
    ClosedShape(x);
  }

  /**
    The serial gate: an upload happens only if the serials around its read agree,
    or one was unavailable and is not required.
   */
  lemma SerialGate(s0: State, ls: seq<Label>, s: State, i: nat)
    requires Run(s0, ls, s) && i < |s.puts|
    ensures var x := s.puts[i].writer;
      || (x.before.None? && !x.cfg.serialRequired)
      || (x.before.Some? && x.after == x.before)
      || (x.before.Some? && x.after.None? && !x.cfg.serialRequired)
    ensures s.puts[i].writer.cfg.serialRequired ==>
      s.puts[i].writer.before.Some? && s.puts[i].writer.after == s.puts[i].writer.before
  {
    LogRun(s0, ls, s);
    assert LogOk(s.puts[i].writer);
  }

  /**
    ErrZoneChanging is returned only after exactly MaxWriteAttempts observed moves
    and no upload, and a request of N attempts makes at most 2N GETs and 2N serial reads.
   */
  lemma AttemptsBounded(s0: State, ls: seq<Label>, s: State, a: Id)
    requires Run(s0, ls, s) && a in s.actors && s.actors[a].pc.Done?
    ensures var x := s.actors[a];
      && Gets(x.log) <= 2 * x.cfg.attempts && Serials(x.log) <= 2 * x.cfg.attempts
      && (x.pc.result.ZoneChanging? ==>
            Moves(x.log) == x.cfg.attempts && forall i | 0 <= i < |x.log| :: !x.log[i].Uploaded?)
  {
    LogRun(s0, ls, s);
    var x := s.actors[a];
    assert LogOk(x);
    if x.pc.result.ZoneChanging? {
      assert forall i | 0 <= i < |x.log| - 1 :: x.log[i] == Front(x.log)[i];
    }
  }

  lemma PlaceholderAddsNoKey(cfg: Config, payload: seq<DNSRecord>)
    ensures Challenges(NeverEmpty(cfg, payload)) == Challenges(payload)
    ensures ChallengeKeys(NeverEmpty(cfg, payload)) == ChallengeKeys(payload)
  {
    if payload == [] {
      PlaceholderIsOwn(cfg.zone, cfg.stamp);
      Snoc([], Placeholder(cfg.zone, cfg.stamp));
      assert [] + [Placeholder(cfg.zone, cfg.stamp)] == NeverEmpty(cfg, payload);
    }
  }

  lemma UploadCarries(x: Actor)
    requires Planned(x) && AllChallenge(x.st.records)
    ensures Own(x.payload) != Own(Last(x.views)) ==>
      x.payload == [Placeholder(x.cfg.zone, x.cfg.stamp)] && PlanFor(x, Last(x.views)).payload == []
  {
    DesiredMeaning(x.st.records);
    PayloadMeaning(Last(x.views), DesiredRecords(x.st.records), Removal(x.op), x.cfg.ownAll);
  }

  lemma ViewedBefore(x: Actor)
    requires LogOk(x)
    ensures x.pc.SerialAfter? ==> x.views != []
  {
  }

  /** What an actor about to upload has made sure of. */
  lemma ReadyToPut(x: Actor)
    requires LogOk(x) && x.pc.Putting?
    ensures Planned(x) && Confirmed(x) && Gate(x) && x.log != []
    ensures x.payload != [] && (Own(Last(x.views)) == [] ==> |x.views| == 2 && Own(x.views[0]) == [])
  {
  }
}
