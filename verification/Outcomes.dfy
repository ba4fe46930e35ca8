/**
  Why a request ended the way it did.  Every outcome is decided by one call of the
  request itself and the answer to it, and every such call and answer decides it.
 */
module Outcomes {
  import opened Base
  import opened Records
  import opened Payload
  import opened Desired
  import opened Register
  import opened Protocol
  import opened LeaseProofs
  import opened TraceProofs
  import opened StoreProofs

  /** The outcome of a request, once there is one. */
  function OutcomeOf(pc: PC): Option<Outcome> {
    match pc
    case Releasing(_, out) => Some(out)
    case Clearing(_, _, out) => Some(out)
    case Done(out) => Some(out)
    case _ => None
  }

  // ----- the calls that decide -----

  /** A call that did not do what it was for. */
  predicate Fails(p: State, l: Label)
    requires Enabled(p, l)
  {
    match l
    case GetLease(_, ok) => !ok
    case CreateLease(_, reply) => reply.Lost? || reply.Refuse?
    case UpdateLease(_, reply) => reply.Lost? || reply.Refuse?
    case Load(_, ok) => !ok
    case Save(a, reply) => !reply.Deliver? || p.actors[a].version != (if p.cm.Some? then p.cm.value.version else 0)
    case ReadKey(_, ok) => !ok
    case Get(_, which) => which.None?
    case Upload(_, reply, _) => !reply.Deliver?
    case _ => false
  }

  /** A state is loaded for which no key reference is known. */
  predicate LacksKey(p: State, l: Label)
    requires Enabled(p, l)
  {
    l.Load? && l.ok &&
    match p.actors[l.a].op
    case Present(_, _, _, _, _, secret) => secret.name == ""
    case CleanUp(_, _, secret) => secret.name == ""
    case Sweep => p.cm.None? || p.cm.value.st.secret.name == ""
  }

  /** A view to decide on: with own records, or read a second time. */
  predicate Decisive(p: State, l: Label)
    requires Enabled(p, l)
  {
    l.Get? && l.which.Some? && (p.actors[l.a].pc.Refetching? || Own(p.zones[l.which.value].records) != [])
  }

  /** The serial is found to have moved. */
  predicate SeesMove(p: State, l: Label)
    requires Enabled(p, l)
  {
    l.ReadSerial? && p.actors[l.a].pc.SerialAfter? && l.answer.Some? && l.answer != p.actors[l.a].before
  }

  /** This step of a request decides its outcome. */
  predicate Decides(p: State, l: Label, out: Outcome)
    requires Enabled(p, l) && !l.Edit? && !l.Spawn?
  {
    var x := p.actors[l.a];
    match out
    case Written => l.Upload? && l.reply.Deliver?
    case InSync => Decisive(p, l) && !PlanFor(x, p.zones[l.which.value].records).diff.Changed()
    case Failed => Fails(p, l)
    case LockTimeout => l.CheckDeadline? && x.clock > x.deadline
    case Cancelled => l.Poll? && l.cancelled
    case NoKey => LacksKey(p, l)
    case SerialUnavailable => l.ReadSerial? && l.answer.None? && x.cfg.serialRequired
    case ZoneChanging => SeesMove(p, l) && x.attempt >= x.cfg.attempts
  }

  // ----- one step -----

  lemma LockDecides(s: State, l: Label, out: Outcome)
    requires Enabled(s, l)
    requires l.Enter? || l.TakeTime? || l.GetLease? || l.CreateLease? || l.CheckExpiry? || l.UpdateLease?
      || l.CheckDeadline? || l.Poll?
    ensures OutcomeOf(Mover(s, l).pc) == Some(out) <==> Decides(s, l, out)
  {
  }

  lemma StoreDecides(s: State, l: Label, out: Outcome)
    requires Enabled(s, l) && (l.Load? || l.Expire? || l.Mutate? || l.Save? || l.ReadKey? || l.Upload?)
    ensures OutcomeOf(Mover(s, l).pc) == Some(out) <==> Decides(s, l, out)
  {
  }

  lemma SerialDecides(s: State, l: Label, out: Outcome)
    requires Enabled(s, l) && l.ReadSerial?
    ensures OutcomeOf(Mover(s, l).pc) == Some(out) <==> Decides(s, l, out)
  {
  }

  lemma GetDecides(s: State, l: Label, out: Outcome)
    requires Enabled(s, l) && l.Get?
    ensures OutcomeOf(Mover(s, l).pc) == Some(out) <==> Decides(s, l, out)
  {
    if l.which.Some? {
      var x, view := s.actors[l.a], s.zones[l.which.value].records;
      var z := x.(log := x.log + [Fetched(Some(view))], views := x.views + [view], got := l.which.value);
      assert PlanFor(z, view) == PlanFor(x, view);
      assert Mover(s, l) == if x.pc.Fetching? && Own(view) == [] then z.(pc := Refetching) else Decide(z, view);
    }
  }

  /** A request without an outcome gets one exactly by a step that decides it. */
  lemma StepDecides(s: State, l: Label, out: Outcome)
    requires Enabled(s, l) && !l.Edit? && !l.Spawn? && OutcomeOf(s.actors[l.a].pc).None?
    ensures OutcomeOf(Mover(s, l).pc) == Some(out) <==> Decides(s, l, out)
  {
    if l.Get? {
      GetDecides(s, l, out);
    } else if l.ReadSerial? {
      SerialDecides(s, l, out);
    } else if l.Load? || l.Expire? || l.Mutate? || l.Save? || l.ReadKey? || l.Upload? {
      StoreDecides(s, l, out);
    } else if !l.Tick? && !l.Crash? {
      LockDecides(s, l, out);
    }
  }

  /** An outcome stays, and no later step decides anything. */
  lemma OutcomeStays(s: State, l: Label, out: Outcome)
    requires Enabled(s, l) && !l.Edit? && !l.Spawn? && OutcomeOf(s.actors[l.a].pc).Some?
    ensures !Decides(s, l, out)
    ensures l.Crash? || OutcomeOf(Mover(s, l).pc) == OutcomeOf(s.actors[l.a].pc)
  {
    assert l.GetOwnLease? || l.ClearLease? || l.Tick? || l.Crash?;
  }

  // ----- whole runs -----

  /** Step `i` of the run is one of `a` that decides its outcome. */
  ghost predicate DecidedAt(s0: State, ls: seq<Label>, a: Id, i: int, out: Outcome) {
    && 0 <= i < |ls| && !ls[i].Edit? && !ls[i].Spawn? && ls[i].a == a
    && Exec(s0, ls[..i]).Some? && Enabled(Exec(s0, ls[..i]).value, ls[i])
    && Decides(Exec(s0, ls[..i]).value, ls[i], out)
  }

  ghost predicate Decided(s0: State, ls: seq<Label>, a: Id, out: Outcome) {
    exists i :: DecidedAt(s0, ls, a, i, out)
  }

  /** What one more step adds to the decisions of a run. */
  lemma DecidedSnoc(s0: State, ls: seq<Label>, p: State, l: Label, a: Id, out: Outcome)
    requires Exec(s0, ls) == Some(p) && Enabled(p, l)
    ensures Decided(s0, ls + [l], a, out) <==>
      Decided(s0, ls, a, out) || (!l.Edit? && !l.Spawn? && l.a == a && Decides(p, l, out))
  {
    var more := ls + [l];
    assert more[..|ls|] == ls;
    forall i | 0 <= i < |ls| ensures DecidedAt(s0, more, a, i, out) <==> DecidedAt(s0, ls, a, i, out) {
      assert more[..i] == ls[..i] && more[i] == ls[i];
    }
    if !l.Edit? && !l.Spawn? && l.a == a && Decides(p, l, out) {
      assert DecidedAt(s0, more, a, |ls|, out);
    }
  }

  /** Nothing was decided for a request before it began. */
  lemma {:induction false} NotBefore(s0: State, ls: seq<Label>, s: State, a: Id, out: Outcome)
    requires Run(s0, ls, s) && a !in s.actors
    ensures !Decided(s0, ls, a, out)
    decreases |ls|
  {
    if ls != [] {
      RunStep(s0, ls, s);
      var p := Exec(s0, Front(ls)).value;
      FrontLast(ls);
      NotBefore(s0, Front(ls), p, a, out);
      DecidedSnoc(s0, Front(ls), p, Last(ls), a, out);
    }
  }

  /**
    Over every run: a request that has not crashed has an outcome exactly if one of its
    own calls, by its answer, decided it.
   */
  lemma {:induction false} OutcomeIsDecided(s0: State, ls: seq<Label>, s: State, a: Id, out: Outcome)
    requires Run(s0, ls, s) && a in s.actors && !s.actors[a].pc.Crashed?
    ensures OutcomeOf(s.actors[a].pc) == Some(out) <==> Decided(s0, ls, a, out)
    decreases |ls|
  {
    RunStep(s0, ls, s);
    var p, l := Exec(s0, Front(ls)).value, Last(ls);
    FrontLast(ls);
    DecidedSnoc(s0, Front(ls), p, l, a, out);
    if l.Spawn? && l.a == a {
      NotBefore(s0, Front(ls), p, a, out);
    } else {
      NoResurrection(p, l, a);
      OutcomeIsDecided(s0, Front(ls), p, a, out);
      if !l.Edit? && l.a == a {
        OwnStep(p, l, out);
      }
    }
  }

  lemma NoResurrection(s: State, l: Label, a: Id)
    requires Enabled(s, l) && a in Effect(s, l).actors && !Effect(s, l).actors[a].pc.Crashed?
    requires !(l.Spawn? && l.a == a)
    ensures a in s.actors && !s.actors[a].pc.Crashed?
    ensures l.Edit? || l.a != a ==> Effect(s, l).actors[a] == s.actors[a]
  {
  }

  lemma OwnStep(s: State, l: Label, out: Outcome)
    requires Enabled(s, l) && !l.Edit? && !l.Spawn? && !Mover(s, l).pc.Crashed?
    ensures OutcomeOf(Mover(s, l).pc) == Some(out) <==>
      OutcomeOf(s.actors[l.a].pc) == Some(out) || Decides(s, l, out)
  {
    if OutcomeOf(s.actors[l.a].pc).None? {
      StepDecides(s, l, out);
    } else {
      OutcomeStays(s, l, out);
    }
  }

  // ----- in plain terms -----

  /**
    A request ends with success after a PUT exactly if one of its PUTs was answered; if
    one was refused, or its answer was lost, it ends with an error.
   */
  lemma WrittenIsDelivered(s0: State, ls: seq<Label>, s: State, a: Id)
    requires Run(s0, ls, s) && a in s.actors && s.actors[a].pc.Done?
    ensures s.actors[a].pc.result.Written? <==>
      exists i | 0 <= i < |ls| :: ls[i].Upload? && ls[i].a == a && ls[i].reply.Deliver?
    ensures (exists i | 0 <= i < |ls| :: ls[i].Upload? && ls[i].a == a && !ls[i].reply.Deliver?) ==>
      s.actors[a].pc.result.Failed?
  {
    OutcomeIsDecided(s0, ls, s, a, Written);
    OutcomeIsDecided(s0, ls, s, a, Failed);
    forall i | 0 <= i < |ls| && ls[i].Upload? && ls[i].a == a
      ensures DecidedAt(s0, ls, a, i, if ls[i].reply.Deliver? then Written else Failed)
    {
      PrefixExec(s0, ls, s, i);
    }
  }

  /** A finished request: its trace in order, its outcome decided, success exactly after an answered PUT. */
  lemma EndsDecided(s0: State, ls: seq<Label>, s: State, a: Id, out: Outcome)
    requires Exec(s0, ls) == Some(s) && a in s.actors && s.actors[a].pc == Done(out)
    ensures Init(s0) ==> LogOk(s.actors[a]) && Decided(s0, ls, a, out)
    ensures Init(s0) ==>
      (out.Written? <==> exists i | 0 <= i < |ls| :: ls[i].Upload? && ls[i].a == a && ls[i].reply.Deliver?)
    ensures Init(s0) ==>
      (exists i | 0 <= i < |ls| :: ls[i].Upload? && ls[i].a == a && !ls[i].reply.Deliver?) ==> out.Failed?
  {
    if Init(s0) {
      LogRun(s0, ls, s);
      OutcomeIsDecided(s0, ls, s, a, out);
      WrittenIsDelivered(s0, ls, s, a);
    }
  }

  /** A call for the lock whose answer was an error, or did not come. */
  predicate LockCallFails(l: Label, a: Id) {
    !l.Edit? && l.a == a &&
    ((l.GetLease? && !l.ok) || ((l.CreateLease? || l.UpdateLease?) && (l.reply.Lost? || l.reply.Refuse?)))
  }

  /**
    A request that failed without having had the lock had an error from a call of its
    own for the lock: finding the lock held is no failure, but a reason to wait.
   */
  lemma {:induction false} FailedWithoutLock(s0: State, ls: seq<Label>, s: State, a: Id)
    requires Run(s0, ls, s) && a in s.actors && s.actors[a].log == [] && OutcomeOf(s.actors[a].pc) == Some(Failed)
    ensures exists i | 0 <= i < |ls| :: LockCallFails(ls[i], a)
    decreases |ls|
  {
    RunStep(s0, ls, s);
    var p, l := Exec(s0, Front(ls)).value, Last(ls);
    if !l.Edit? && l.a == a && !l.Spawn? && OutcomeOf(p.actors[a].pc).None? {
      StepDecides(p, l, Failed);
      SilentFailure(p, l);
      assert LockCallFails(ls[|ls| - 1], a);
    } else {
      if !l.Edit? && l.a == a && !l.Spawn? {
        OutcomeStays(p, l, Failed);
        if p.actors[a].log != [] {
          LogNeverEmpties(p, l);
        }
      }
      FailedWithoutLock(s0, Front(ls), p, a);
      var i :| 0 <= i < |Front(ls)| && LockCallFails(Front(ls)[i], a);
      assert LockCallFails(ls[i], a);
    }
  }

  lemma SilentFailure(s: State, l: Label)
    requires Enabled(s, l) && !l.Edit? && !l.Spawn? && Fails(s, l) && Mover(s, l).log == []
    ensures LockCallFails(l, l.a)
  {
  }

  /**
    A request that took the lock and had no error from any call, knew its key and, if
    required, every serial, ends well unless it saw the zone move at every attempt.
   */
  lemma EndsWell(s0: State, ls: seq<Label>, s: State, a: Id)
    requires Run(s0, ls, s) && a in s.actors && s.actors[a].pc.Done? && s.actors[a].log != []
    requires !Decided(s0, ls, a, Failed) && !Decided(s0, ls, a, NoKey) && !Decided(s0, ls, a, SerialUnavailable)
    ensures s.actors[a].pc.result.Written? || s.actors[a].pc.result.InSync?
      || (s.actors[a].pc.result.ZoneChanging? && Moves(s.actors[a].log) == s.actors[a].cfg.attempts)
  {
    LogRun(s0, ls, s);
    assert LogOk(s.actors[a]);
    OutcomeIsDecided(s0, ls, s, a, s.actors[a].pc.result);
  }

  // ----- what a move costs -----

  /** A serial to compare with has been read for this attempt. */
  predicate HasFirstSerial(x: Actor) {
    x.before.Some? && (x.pc.Fetching? || x.pc.Refetching? || x.pc.SerialAfter?)
  }

  /** Reads and serial reads that the moves seen so far stand for. */
  predicate Paid(x: Actor) {
    && Serials(x.log) >= 2 * Moves(x.log) + (if HasFirstSerial(x) then 1 else 0)
    && Gets(x.log) >= Moves(x.log) + (if x.pc.Refetching? || x.pc.SerialAfter? then 1 else 0)
    && (x.pc.SerialAfter? ==> x.before.Some?)
    && (x.before.Some? && (x.pc.Fetching? || x.pc.Refetching?) ==> x.cfg.serialCheck)
  }

  /** An event that is neither a read nor a move counts for nothing. */
  lemma PlainEvent(log: seq<Event>, e: Event)
    requires !e.Fetched? && !e.SerialRead? && !e.Moved?
    ensures Gets(log + [e]) == Gets(log) && Serials(log + [e]) == Serials(log) && Moves(log + [e]) == Moves(log)
  {
    CountSnoc(log, e);
  }

  lemma PaidLeave(x: Actor, out: Outcome)
    requires Serials(x.log) >= 2 * Moves(x.log) && Gets(x.log) >= Moves(x.log)
    ensures Paid(Leave(x, out))
  {
    PlainEvent(x.log, Released);
  }

  lemma PaidSerialBefore(x: Actor, answer: Option<int>, current: nat)
    requires Paid(x) && x.pc.SerialBefore? && (answer.Some? ==> x.cfg.serialCheck)
    ensures Paid(AfterSerialBefore(x, answer, current))
  {
    CountSnoc(x.log, SerialRead(answer));
    PaidLeave(if x.cfg.serialCheck then x.(log := x.log + [SerialRead(answer)]) else x, SerialUnavailable);
  }

  lemma PaidSerialAfter(x: Actor, answer: Option<int>, current: nat)
    requires Paid(x) && x.pc.SerialAfter?
    ensures Paid(AfterSerialAfter(x, answer, current))
  {
    var y := x.(log := x.log + [SerialRead(answer)], after := answer, mid := current);
    CountSnoc(x.log, SerialRead(answer));
    CountSnoc(y.log, Moved);
    PaidLeave(y, SerialUnavailable);
    PaidLeave(y.(log := y.log + [Moved]), ZoneChanging);
  }

  lemma PaidGet(x: Actor, view: Option<seq<DNSRecord>>, version: nat)
    requires Paid(x) && (x.pc.Fetching? || x.pc.Refetching?)
    ensures Paid(AfterGet(x, view, version))
  {
    CountSnoc(x.log, Fetched(view));
    PaidLeave(x.(log := x.log + [Fetched(view)]), Failed);
    PlainEvent(x.log + [Fetched(view)], Released);
  }

  lemma PaidLoad(x: Actor, cm: Option<ConfigMap>, ok: bool)
    requires Paid(x) && x.pc.Loading?
    ensures Paid(AfterLoad(x, cm, ok))
  {
    var st := StoredState(cm).(secret := Secret(x.op, StoredState(cm).secret));
    var y := x.(st := st, version := StoredVersion(cm), log := x.log + [Loaded]);
    PlainEvent(x.log, Loaded);
    PaidLeave(x, Failed);
    PaidLeave(y, NoKey);
  }

  lemma PaidSave(x: Actor, answer: WriteResult)
    requires Paid(x) && x.pc.Saving?
    ensures Paid(AfterSave(x, answer))
  {
    PlainEvent(x.log, Saved(x.st));
    PaidLeave(x, Failed);
  }

  lemma PaidUpload(x: Actor, reply: Reply)
    requires Paid(x) && x.pc.Putting?
    ensures Paid(AfterUpload(x, reply))
  {
    PlainEvent(x.log, Uploaded(x.payload));
    PaidLeave(x.(log := x.log + [Uploaded(x.payload)]), if reply.Deliver? then Written else Failed);
  }

  lemma PaidStore(s: State, l: Label)
    requires Enabled(s, l) && (l.Load? || l.Save? || l.ReadKey? || l.Upload?) && Paid(s.actors[l.a])
    ensures Paid(Mover(s, l))
  {
    var x := s.actors[l.a];
    if l.Load? {
      PaidLoad(x, s.cm, l.ok);
      assert Mover(s, l) == AfterLoad(x, s.cm, l.ok);
    } else if l.Save? {
      var answer := Answer(StoredVersion(s.cm) == x.version, l.reply);
      PaidSave(x, answer);
      assert Mover(s, l) == AfterSave(x, answer);
    } else if l.Upload? {
      PaidUpload(x, l.reply);
      assert Mover(s, l) == AfterUpload(x, l.reply);
    } else {
      PaidLeave(x, Failed);
      assert Mover(s, l) == AfterReadKey(x, l.ok);
    }
  }

  /** The other steps keep the trace, or begin it, and lead to no read. */
  lemma QuietCounts(s: State, l: Label)
    requires Enabled(s, l) && !l.Edit? && !l.Spawn? && !l.Get? && !l.ReadSerial?
    requires !l.Load? && !l.Save? && !l.ReadKey? && !l.Upload?
    ensures var x, y := s.actors[l.a], Mover(s, l);
      && (y.log == x.log || y.log == [Acquired]) && y.before == x.before && y.cfg == x.cfg
      && (y.pc == x.pc || (!y.pc.Fetching? && !y.pc.Refetching? && !y.pc.SerialAfter?))
      && (y.pc == x.pc ==> y.log == x.log)
  {
  }

  lemma PaidOther(s: State, l: Label)
    requires Enabled(s, l) && !l.Edit? && !l.Spawn? && !l.Get? && !l.ReadSerial? && Paid(s.actors[l.a])
    ensures Paid(Mover(s, l))
  {
    if l.Load? || l.Save? || l.ReadKey? || l.Upload? {
      PaidStore(s, l);
    } else {
      QuietCounts(s, l);
      ShortCounts();
    }
  }

  lemma {:induction false} PaidRun(s0: State, ls: seq<Label>, s: State)
    requires Run(s0, ls, s)
    ensures forall a | a in s.actors :: Paid(s.actors[a])
    decreases |ls|
  {
    if ls != [] {
      RunStep(s0, ls, s);
      var p, l := Exec(s0, Front(ls)).value, Last(ls);
      PaidRun(s0, Front(ls), p);
      PaidStep(p, l);
    }
  }

  lemma PaidStep(s: State, l: Label)
    requires Enabled(s, l) && forall a | a in s.actors :: Paid(s.actors[a])
    ensures forall a | a in Effect(s, l).actors :: Paid(Effect(s, l).actors[a])
  {
    if l.Get? {
      PaidGet(s.actors[l.a], View(s, l.which), if l.which.Some? then l.which.value else 0);
    } else if l.ReadSerial? {
      if s.actors[l.a].pc.SerialBefore? {
        PaidSerialBefore(s.actors[l.a], l.answer, Current(s));
      } else {
        PaidSerialAfter(s.actors[l.a], l.answer, Current(s));
      }
    } else if !l.Edit? && !l.Spawn? {
      PaidOther(s, l);
    }
    forall a | a in Effect(s, l).actors ensures Paid(Effect(s, l).actors[a]) {
      if l.Edit? || l.a != a {
        assert Effect(s, l).actors[a] == s.actors[a];
      } else {
        assert Effect(s, l).actors[a] == Mover(s, l);
      }
    }
  }

  /**
    Every move seen starts the attempt over, with a read of the zone and two serial reads
    of its own; so a request that gives up after N of them has read the serial exactly 2N
    times, and the zone N to 2N times.
   */
  lemma MovesAreSeen(s0: State, ls: seq<Label>, s: State, a: Id)
    requires Run(s0, ls, s) && a in s.actors && s.actors[a].pc.Done?
    ensures var x := s.actors[a];
      && Serials(x.log) >= 2 * Moves(x.log) && Gets(x.log) >= Moves(x.log)
      && (x.pc.result.ZoneChanging? ==>
            && Serials(x.log) == 2 * x.cfg.attempts
            && x.cfg.attempts <= Gets(x.log) <= 2 * x.cfg.attempts)
  {
    PaidRun(s0, ls, s);
    AttemptsBounded(s0, ls, s, a);
  }

  // ----- the calls of a run -----

  /** A save of `a` was answered. */
  ghost predicate SavedBy(ls: seq<Label>, a: Id) {
    exists j | 0 <= j < |ls| :: ls[j].Save? && ls[j].a == a && ls[j].reply.Deliver?
  }

  lemma AnsweredSave(s: State, l: Label)
    requires Enabled(s, l) && l.Save? && Settled(Mover(s, l).pc)
    ensures l.reply.Deliver?
  {
  }

  lemma {:induction false} SettledHasSaved(s0: State, ls: seq<Label>, s: State, a: Id)
    requires Run(s0, ls, s) && a in s.actors && Settled(s.actors[a].pc)
    ensures SavedBy(ls, a)
    decreases |ls|
  {
    RunStep(s0, ls, s);
    var p, l := Exec(s0, Front(ls)).value, Last(ls);
    if !l.Edit? && l.a == a && !l.Spawn? && l.Save? {
      AnsweredSave(p, l);
      assert ls[|ls| - 1] == l;
    } else {
      if !l.Edit? && l.a == a && !l.Spawn? {
        SettledStep(p, l);
      }
      SettledHasSaved(s0, Front(ls), p, a);
      var j :| 0 <= j < |Front(ls)| && Front(ls)[j].Save? && Front(ls)[j].a == a && Front(ls)[j].reply.Deliver?;
      assert ls[j] == Front(ls)[j];
    }
  }

  /** No request reads its key, the zone or its serial, or uploads, before a save of its own was answered. */
  lemma SaveComesFirst(s0: State, ls: seq<Label>, s: State, i: nat)
    requires Run(s0, ls, s) && i < |ls|
    requires ls[i].ReadKey? || ls[i].Get? || ls[i].ReadSerial? || ls[i].Upload?
    ensures exists j | 0 <= j < i :: ls[j].Save? && ls[j].a == ls[i].a && ls[j].reply.Deliver?
  {
    PrefixExec(s0, ls, s, i);
    var p := Exec(s0, ls[..i]).value;
    SettledHasSaved(s0, ls[..i], p, ls[i].a);
    var j :| 0 <= j < i && ls[..i][j].Save? && ls[..i][j].a == ls[i].a && ls[..i][j].reply.Deliver?;
    assert ls[j] == ls[..i][j];
  }

  /** No request uploads twice, whatever the answer to the first was. */
  lemma OneUpload(s0: State, ls: seq<Label>, s: State, i: nat, j: nat)
    requires Run(s0, ls, s) && i < j < |ls|
    ensures !(ls[i].Upload? && ls[j].Upload? && ls[i].a == ls[j].a)
  {
    if ls[i].Upload? && ls[j].Upload? && ls[i].a == ls[j].a {
      PrefixExec(s0, ls, s, i);
      PrefixExec(s0, ls, s, j);
      var p, out := Exec(s0, ls[..j]).value, if ls[i].reply.Deliver? then Written else Failed;
      assert ls[..j][..i] == ls[..i] && ls[..j][i] == ls[i];
      assert DecidedAt(s0, ls[..j], ls[i].a, i, out);
      OutcomeIsDecided(s0, ls[..j], p, ls[i].a, out);
      assert false;
    }
  }
}
