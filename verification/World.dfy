/**
  The cluster and the DNS API as the code sees them.  Every call of the code is one
  step of the protocol; before it the script lets any other actors move and says
  whether the call lands, what it answers and how much time goes by.  The methods'
  preconditions are the protocol's, so code that verifies only takes its steps.
 */
module World {
  import opened Base
  import opened Records
  import opened Desired
  import opened Protocol
  import opened LeaseProofs
  import opened Convergence

  /** What the environment does around one call. */
  datatype Turn = Turn(
    others: seq<Label>, ok: bool, reply: Reply, which: nat, answer: Option<int>, dt: nat, cancelled: bool, serial: int)

  /** Nobody else moves, and the call of `me` lands, is answered, and reads what there is. */
  function CalmTurn(s: State, me: Id): Turn
    requires me in s.actors
  {
    Turn([], true, Deliver, Current(s), TrueSerial(s, s.actors[me]), s.actors[me].cfg.poll, false, 0)
  }

  /** Outcome of a read of a Kubernetes object. */
  datatype Fetch<T> = Failure | NotFound | Found(value: T)

  function AsOption<T>(f: Fetch<T>): Option<T> {
    if f.Found? then Some(f.value) else None
  }

  /** Actor `x`, by the clock of `y`. */
  function Later(x: Actor, y: Actor): Actor {
    x.(clock := y.clock)
  }

  /** The same actor, some time later. */
  predicate Idle(x: Actor, y: Actor) {
    y == x.(clock := y.clock) && y.clock >= x.clock
  }

  /** The API server numbers versions from 1. */
  predicate VersionsStart(cm: Option<ConfigMap>) {
    cm.Some? ==> cm.value.version >= 1
  }

  lemma StepFacts(s: State, l: Label)
    requires Enabled(s, l) && s.zones != []
    ensures var s' := Effect(s, l);
      && s'.zones != []
      && (VersionsStart(s.cm) ==> VersionsStart(s'.cm))
      && (!l.Edit? ==> l.a in s'.actors && s'.actors[l.a] == Mover(s, l))
      && (forall a | a in s.actors :: a in s'.actors && s'.actors[a].clock >= s.actors[a].clock)
      && (forall a | a in s.actors && (l.Edit? || l.a != a) :: s'.actors[a] == s.actors[a])
  {
    ClocksAdvance(s, l, 0);
  }

  /** What a step of its own leaves of an actor and of the cluster. */
  lemma OwnStep(s: State, l: Label, next: State)
    requires Enabled(s, l) && !l.Edit? && !l.Spawn? && s.zones != [] && VersionsStart(s.cm) && next == Effect(s, l)
    ensures next.zones != [] && VersionsStart(next.cm)
    ensures l.a in next.actors && next.actors[l.a] == Mover(s, l) && next.actors[l.a].clock >= s.actors[l.a].clock
  {
    StepFacts(s, l);
  }

  class Cluster {
    var state: State
    var script: seq<Turn>
    ghost var origin: State
    ghost var trace: seq<Label>
    // A run of one actor left alone, as long as nothing disturbs it.
    ghost var calm: bool
    ghost var calmFor: Id
    ghost var calmFrom: State
    ghost var calmTrace: seq<Label>

    ghost predicate Valid()
      reads this
    {
      && Exec(origin, trace) == Some(state)
      && state.zones != [] && VersionsStart(state.cm)
      && (calm ==> script == [] && Exec(calmFrom, calmTrace) == Some(state) && QuietRun(calmFrom, calmTrace, calmFor))
    }

    constructor (s: State, script: seq<Turn>)
      requires s.zones != [] && VersionsStart(s.cm)
      ensures Valid() && state == origin == s && trace == [] && this.script == script && !calm
    {
      this.state, this.script, this.origin, this.trace := s, script, s, [];
      this.calm, this.calmFor, this.calmFrom, this.calmTrace := false, NOBODY, s, [];
    }

    /** The run went on, and a calm run of `me` stayed calm. */
    twostate predicate Advanced(me: Id)
      reads this
    {
      && Valid() && origin == old(origin) && old(trace) <= trace
      && me in old(state).actors && me in state.actors
      && state.actors[me].clock >= old(state).actors[me].clock
      && (old(calm) && old(calmFor) == me ==> calm && calmFor == me && calmFrom == old(calmFrom))
    }

    /** Starts watching a calm run. */
    ghost method Watch(me: Id)
      requires Valid()
      modifies this`calm, this`calmFor, this`calmFrom, this`calmTrace
      ensures Valid() && (script == [] ==> calm) && calmFor == me && calmFrom == state
    {
      calm, calmFor, calmFrom, calmTrace := script == [], me, state, [];
    }

    /** A step of `me`. */
    method Step(me: Id, l: Label)
      requires Valid() && Enabled(state, l) && !l.Edit? && !l.Spawn? && l.a == me
      requires calm ==> Quiet(state, l, me)
      modifies this`state, this`trace, this`calm, this`calmTrace
      ensures state == Effect(old(state), l) && state.actors[me] == Mover(old(state), l)
      ensures Advanced(me) && |trace| > |old(trace)| && Last(trace) == l
    {
      var next := Effect(state, l);
      OwnStep(state, l, next);
      Record(me, l, next);
      state := next;
    }

    /** Notes a step of `me` in the histories. */
    ghost method Record(me: Id, l: Label, next: State)
      requires Valid() && Enabled(state, l) && (calm ==> Quiet(state, l, me)) && next == Effect(state, l)
      modifies this`trace, this`calm, this`calmTrace
      ensures |trace| == |old(trace)| + 1 && old(trace) <= trace && Last(trace) == l
      ensures Exec(origin, trace) == Some(next)
      ensures calm == (old(calm) && calmFor == me)
      ensures calm ==> Exec(calmFrom, calmTrace) == Some(next) && QuietRun(calmFrom, calmTrace, me)
    {
      ExecSnoc(origin, trace, l);
      trace := trace + [l];
      if calm && calmFor == me {
        QuietSnoc(calmFrom, calmTrace, l, me);
        calmTrace := calmTrace + [l];
      } else {
        calm := false;
      }
    }

    /** A request arrives: a new actor with a fresh holder token. */
    method Begin(me: Id, cfg: Config, op: Op, clock: int)
      requires Valid() && Enabled(state, Spawn(me, cfg, op, clock))
      modifies this`state, this`trace, this`calm
      ensures Valid() && origin == old(origin) && trace == old(trace) + [Spawn(me, cfg, op, clock)]
      ensures state == Effect(old(state), Spawn(me, cfg, op, clock)) && script == old(script)
      ensures me in state.actors && state.actors[me] == Newborn(cfg, op, clock)
    {
      var l := Spawn(me, cfg, op, clock);
      StepFacts(state, l);
      ExecSnoc(origin, trace, l);
      trace := trace + [l];
      calm := false;
      state := Effect(state, l);
    }

    /** Lets the others move, and says how the next call of `me` goes. */
    method NextTurn(me: Id) returns (t: Turn)
      requires Valid() && me in state.actors
      modifies this`state, this`script, this`trace
      ensures Advanced(me) && Idle(old(state).actors[me], state.actors[me]) && calm == old(calm)
      ensures calm ==>
        t == CalmTurn(state, me)
    {
      if script == [] {
        return CalmTurn(state, me);
      }
      t := script[0];
      script := script[1..];
      for i := 0 to |t.others|
        invariant Valid() && origin == old(origin) && old(trace) <= trace && !calm
        invariant me in state.actors && Idle(old(state).actors[me], state.actors[me])
      {
        var l := t.others[i];
        if Enabled(state, l) && (l.Edit? || l.Tick? || l.a != me) {
          Other(me, l);
        }
      }
    }

    /** A step of somebody else, or time passing. */
    method Other(me: Id, l: Label)
      requires Valid() && me in state.actors && Enabled(state, l) && !calm
      requires l.Edit? || l.Tick? || l.a != me
      modifies this`state, this`trace
      ensures Valid() && state == Effect(old(state), l) && trace == old(trace) + [l]
      ensures me in state.actors && Idle(old(state).actors[me], state.actors[me])
    {
      StepFacts(state, l);
      ExecSnoc(origin, trace, l);
      trace := trace + [l];
      state := Effect(state, l);
    }

    // ----- the lock -----

    /** Entry of Acquire: the deadline. */
    method Enter(me: Id)
      requires Valid() && me in state.actors && state.actors[me].pc.Entering?
      modifies this`state, this`script, this`trace, this`calm, this`calmTrace
      ensures Advanced(me)
      ensures var x := Later(old(state).actors[me], state.actors[me]);
        state.actors[me] == x.(deadline := x.clock + x.cfg.wait, pc := Trying)
    {
      var t := NextTurn(me);
      Step(me, Protocol.Enter(me));
    }

    /** The clock, read for RenewTime. */
    method TakeTime(me: Id) returns (now: int)
      requires Valid() && me in state.actors && state.actors[me].pc.Trying?
      modifies this`state, this`script, this`trace, this`calm, this`calmTrace
      ensures Advanced(me)
      ensures now == state.actors[me].clock
      ensures state.actors[me] == Later(old(state).actors[me], state.actors[me]).(renew := now, pc := Reading)
    {
      var t := NextTurn(me);
      Step(me, Protocol.TakeTime(me));
      now := state.actors[me].clock;
    }

    /** GET of the Lease. */
    method GetLease(me: Id) returns (r: Fetch<Lease>)
      requires Valid() && me in state.actors && state.actors[me].pc.Reading?
      modifies this`state, this`script, this`trace, this`calm, this`calmTrace
      ensures Advanced(me) && |trace| > |old(trace)|
      ensures Last(trace) == Protocol.GetLease(me, !r.Failure?)
      ensures state.actors[me] ==
        AfterGetLease(Later(old(state).actors[me], state.actors[me]), AsOption(r), !r.Failure?)
    {
      var t := NextTurn(me);
      r := if !t.ok then Failure else if state.lease.None? then NotFound else Found(state.lease.value);
      Step(me, Protocol.GetLease(me, t.ok));
    }

    /**
      Create of the Lease.  An existing one is refused and stays as `before`; a new one
      has version 1; the answer may be lost, never the other way round.
     */
    method CreateLease(me: Id, lease: Lease) returns (r: WriteResult, ghost before: State)
      requires Valid() && me in state.actors && state.actors[me].pc.Creating?
      requires lease.(version := 1) == FreshLease(state.actors[me], me)
      modifies this`state, this`script, this`trace, this`calm, this`calmTrace
      ensures Advanced(me) && |trace| > |old(trace)|
      ensures Last(trace).CreateLease? && Last(trace).a == me
      ensures (r.Error? <==> Last(trace).reply.Lost? || Last(trace).reply.Refuse?)
      ensures state.actors[me] == AfterLeaseWrite(Later(old(state).actors[me], state.actors[me]), r)
      ensures r.Ok? ==> before.lease.None? && state.lease == Some(FreshLease(old(state).actors[me], me))
      ensures before.lease.Some? ==> !r.Ok? && state.lease == before.lease
      ensures state.lease == before.lease || state.lease == Some(FreshLease(old(state).actors[me], me))
    {
      var t := NextTurn(me);
      before := state;
      r := Answer(state.lease.None?, t.reply);
      Step(me, Protocol.CreateLease(me, t.reply));
    }

    /** The clock, read to judge a lease that is held. */
    method NowForExpiry(me: Id) returns (now: int)
      requires Valid() && me in state.actors && state.actors[me].pc.Checking?
      modifies this`state, this`script, this`trace, this`calm, this`calmTrace
      ensures Advanced(me)
      ensures now == state.actors[me].clock
      ensures state.actors[me] == AfterCheckExpiry(Later(old(state).actors[me], state.actors[me]))
    {
      var t := NextTurn(me);
      Step(me, Protocol.CheckExpiry(me));
      now := state.actors[me].clock;
    }

    /** Update of the Lease.  A stale copy is refused and changes nothing; a current one may lose its answer. */
    method UpdateLease(me: Id, lease: Lease) returns (r: WriteResult, ghost before: State)
      requires Valid() && me in state.actors && state.actors[me].pc.Updating?
      requires lease.(version := lease.version + 1) == TakenLease(state.actors[me], me, state.actors[me].pc.copy)
      modifies this`state, this`script, this`trace, this`calm, this`calmTrace
      ensures Advanced(me) && |trace| > |old(trace)|
      ensures Last(trace).UpdateLease? && Last(trace).a == me
      ensures (r.Error? <==> Last(trace).reply.Lost? || Last(trace).reply.Refuse?)
      ensures state.actors[me] == AfterLeaseWrite(Later(old(state).actors[me], state.actors[me]), r)
      ensures r.Ok? ==> state.lease == Some(TakenLease(old(state).actors[me], me, old(state).actors[me].pc.copy))
      ensures !IsCurrent(before.lease, lease) ==> !r.Ok? && state.lease == before.lease
      ensures state.lease == before.lease ||
        state.lease == Some(TakenLease(old(state).actors[me], me, old(state).actors[me].pc.copy))
    {
      var t := NextTurn(me);
      before := state;
      r := Answer(IsCurrent(state.lease, state.actors[me].pc.copy), t.reply);
      Step(me, Protocol.UpdateLease(me, t.reply));
    }

    /** The clock, read against the deadline. */
    method NowForDeadline(me: Id) returns (now: int)
      requires Valid() && me in state.actors && state.actors[me].pc.Waiting?
      modifies this`state, this`script, this`trace, this`calm, this`calmTrace
      ensures Advanced(me)
      ensures now == state.actors[me].clock
      ensures state.actors[me] == AfterCheckDeadline(Later(old(state).actors[me], state.actors[me]))
    {
      var t := NextTurn(me);
      Step(me, Protocol.CheckDeadline(me));
      now := state.actors[me].clock;
    }

    /** Sleeps one poll interval, unless the request is cancelled. */
    method Sleep(me: Id) returns (cancelled: bool)
      requires Valid() && me in state.actors && state.actors[me].pc.Polling?
      modifies this`state, this`script, this`trace, this`calm, this`calmTrace
      ensures Advanced(me) && |trace| > |old(trace)|
      ensures Last(trace).Poll? && Last(trace).a == me && Last(trace).cancelled == cancelled
      ensures state.actors[me] ==
        Later(old(state).actors[me], state.actors[me]).(pc := if cancelled then Done(Cancelled) else Trying)
      ensures !cancelled ==> state.actors[me].clock >= old(state).actors[me].clock + state.actors[me].cfg.poll
    {
      var t := NextTurn(me);
      cancelled := t.cancelled;
      var dt := if !cancelled && t.dt < state.actors[me].cfg.poll then state.actors[me].cfg.poll else t.dt;
      Step(me, Protocol.Poll(me, dt, cancelled));
    }

    /** GET of the Lease for its release. */
    method GetOwnLease(me: Id) returns (r: Fetch<Lease>)
      requires Valid() && me in state.actors && state.actors[me].pc.Releasing?
      modifies this`state, this`script, this`trace, this`calm, this`calmTrace
      ensures Advanced(me)
      ensures state.actors[me] ==
        AfterGetOwnLease(Later(old(state).actors[me], state.actors[me]), me, AsOption(r), !r.Failure?)
    {
      var t := NextTurn(me);
      r := if !t.ok then Failure else if state.lease.None? then NotFound else Found(state.lease.value);
      Step(me, Protocol.GetOwnLease(me, t.ok));
    }

    /** Update that clears the holder. */
    method ClearLease(me: Id, lease: Lease) returns (r: WriteResult, ghost before: State)
      requires Valid() && me in state.actors && state.actors[me].pc.Clearing?
      requires lease.(version := lease.version + 1) == ClearedLease(state.actors[me].pc.mine)
      modifies this`state, this`script, this`trace, this`calm, this`calmTrace
      ensures Advanced(me)
      ensures state.actors[me] == AfterClearLease(Later(old(state).actors[me], state.actors[me]), r)
      ensures r.Ok? ==> state.lease == Some(ClearedLease(old(state).actors[me].pc.mine))
      ensures !IsCurrent(before.lease, lease) ==> !r.Ok? && state.lease == before.lease
      ensures state.lease == before.lease || state.lease == Some(ClearedLease(old(state).actors[me].pc.mine))
    {
      var t := NextTurn(me);
      before := state;
      r := Answer(IsCurrent(state.lease, state.actors[me].pc.mine), t.reply);
      Step(me, Protocol.ClearLease(me, t.reply));
    }

    // ----- the state -----

    /** GET of the ConfigMap. */
    method GetConfigMap(me: Id) returns (r: Fetch<ConfigMap>)
      requires Valid() && me in state.actors && state.actors[me].pc.Loading?
      modifies this`state, this`script, this`trace, this`calm, this`calmTrace
      ensures Advanced(me)
      ensures state.actors[me] == AfterLoad(Later(old(state).actors[me], state.actors[me]), AsOption(r), !r.Failure?)
      ensures r.Found? ==> r.value.version >= 1
    {
      var t := NextTurn(me);
      r := if !t.ok then Failure else if state.cm.None? then NotFound else Found(state.cm.value);
      Step(me, Protocol.Load(me, t.ok));
    }

    /** The clock, read for the expiry cutoff. */
    method NowForExpire(me: Id) returns (now: int)
      requires Valid() && me in state.actors && state.actors[me].pc.Expiring?
      modifies this`state, this`script, this`trace, this`calm, this`calmTrace
      ensures Advanced(me)
      ensures now == state.actors[me].clock
      ensures state.actors[me] == AfterExpire(Later(old(state).actors[me], state.actors[me]))
    {
      var t := NextTurn(me);
      Step(me, Protocol.Expire(me));
      now := state.actors[me].clock;
    }

    /** The clock, read for AddedAt. */
    method NowForMutate(me: Id) returns (now: int)
      requires Valid() && me in state.actors && state.actors[me].pc.Mutating?
      modifies this`state, this`script, this`trace, this`calm, this`calmTrace
      ensures Advanced(me)
      ensures now == state.actors[me].clock
      ensures state.actors[me] == AfterMutate(Later(old(state).actors[me], state.actors[me]))
    {
      var t := NextTurn(me);
      Step(me, Protocol.Mutate(me));
      now := state.actors[me].clock;
    }

    /** Create of the ConfigMap: fails if there is one. */
    method CreateConfigMap(me: Id, st: ZoneState) returns (r: WriteResult, ghost before: State)
      requires Valid() && me in state.actors && state.actors[me].pc.Saving?
      requires state.actors[me].version == 0 && st == state.actors[me].st
      modifies this`state, this`script, this`trace, this`calm, this`calmTrace
      ensures Advanced(me)
      ensures state.actors[me] == AfterSave(Later(old(state).actors[me], state.actors[me]), r)
      ensures r.Ok? ==> before.cm.None? && state.cm == Some(ConfigMap(1, st))
      ensures before.cm.Some? ==> !r.Ok? && state.cm == before.cm
      ensures state.cm == before.cm || state.cm == Some(ConfigMap(1, st))
    {
      var t := NextTurn(me);
      before := state;
      r := Answer(state.cm.None?, t.reply);
      Step(me, Protocol.Save(me, t.reply));
    }

    /** Update of the ConfigMap, conditional on the version it was loaded at. */
    method UpdateConfigMap(me: Id, version: nat, st: ZoneState) returns (r: WriteResult, ghost before: State)
      requires Valid() && me in state.actors && state.actors[me].pc.Saving?
      requires version == state.actors[me].version > 0 && st == state.actors[me].st
      modifies this`state, this`script, this`trace, this`calm, this`calmTrace
      ensures Advanced(me)
      ensures state.actors[me] == AfterSave(Later(old(state).actors[me], state.actors[me]), r)
      ensures r.Ok? ==> state.cm == Some(ConfigMap(version + 1, st))
      ensures StoredVersion(before.cm) != version ==> !r.Ok? && state.cm == before.cm
      ensures state.cm == before.cm || state.cm == Some(ConfigMap(version + 1, st))
    {
      var t := NextTurn(me);
      before := state;
      r := Answer(state.cm.Some? && state.cm.value.version == version, t.reply);
      Step(me, Protocol.Save(me, t.reply));
    }

    /** Resolves the API key. */
    method ReadKey(me: Id) returns (ok: bool)
      requires Valid() && me in state.actors && state.actors[me].pc.Keying?
      modifies this`state, this`script, this`trace, this`calm, this`calmTrace
      ensures Advanced(me)
      ensures state.actors[me] == AfterReadKey(Later(old(state).actors[me], state.actors[me]), ok)
    {
      var t := NextTurn(me);
      ok := t.ok;
      Step(me, Protocol.ReadKey(me, ok));
    }

    // ----- the zone -----

    /** The serial before the read; without a reader there is none. */
    method SerialBeforeRead(me: Id) returns (answer: Option<int>, ghost current: nat)
      requires Valid() && me in state.actors && state.actors[me].pc.SerialBefore?
      modifies this`state, this`script, this`trace, this`calm, this`calmTrace
      ensures Advanced(me)
      ensures state.actors[me] == AfterSerialBefore(Later(old(state).actors[me], state.actors[me]), answer, current)
      ensures !state.actors[me].cfg.serialCheck ==> answer.None?
    {
      var t := NextTurn(me);
      answer := if state.actors[me].cfg.serialCheck then t.answer else None;
      current := Current(state);
      Step(me, Protocol.ReadSerial(me, answer));
    }

    /** The serial before the write. */
    method SerialBeforeWrite(me: Id) returns (answer: Option<int>, ghost current: nat)
      requires Valid() && me in state.actors && state.actors[me].pc.SerialAfter?
      modifies this`state, this`script, this`trace, this`calm, this`calmTrace
      ensures Advanced(me)
      ensures state.actors[me] == AfterSerialAfter(Later(old(state).actors[me], state.actors[me]), answer, current)
    {
      var t := NextTurn(me);
      answer := t.answer;
      current := Current(state);
      assert Mover(state, ReadSerial(me, answer)) == AfterSerialAfter(state.actors[me], answer, current);
      Step(me, Protocol.ReadSerial(me, answer));
    }

    /** GET of the zone: some version of it, or an error. */
    method GetRecords(me: Id) returns (view: Option<seq<DNSRecord>>, ghost version: nat)
      requires Valid() && me in state.actors && (state.actors[me].pc.Fetching? || state.actors[me].pc.Refetching?)
      modifies this`state, this`script, this`trace, this`calm, this`calmTrace
      ensures Advanced(me)
      ensures state.actors[me] == AfterGet(Later(old(state).actors[me], state.actors[me]), view, version)
      ensures view.Some? ==> version < |state.zones| && view.value == state.zones[version].records
    {
      var t := NextTurn(me);
      var which := if t.ok && t.which < |state.zones| then Some(t.which) else None;
      view := View(state, which);
      version := if which.Some? then which.value else 0;
      Step(me, Protocol.Get(me, which));
    }

    /** PUT of the whole zone. */
    method PutRecords(me: Id, records: seq<DNSRecord>) returns (ok: bool)
      requires Valid() && me in state.actors && state.actors[me].pc.Putting?
      requires records == state.actors[me].payload && records != []
      modifies this`state, this`script, this`trace, this`calm, this`calmTrace
      ensures Advanced(me) && |trace| > |old(trace)|
      ensures Last(trace).Upload? && Last(trace).a == me && Last(trace).reply.Deliver? == ok
      ensures state.actors[me] ==
        AfterUpload(Later(old(state).actors[me], state.actors[me]), if ok then Deliver else Lost)
      ensures ok ==> Zone(state) == records
    {
      var t := NextTurn(me);
      ok := t.reply.Deliver?;
      Step(me, Protocol.Upload(me, t.reply, t.serial));
    }
  }
}
