/**
  The zone protocol as a labelled transition system.  Any number of actors (one
  per Present, CleanUp or Sweep of one zone) share a Lease, a ConfigMap and the
  remote zone.  Every API call is one step; a label carries whatever the step
  leaves open: who moves, whether the call lands and is answered, which version
  of the zone a GET serves, what a nameserver says, how much time passes.
 */
module Protocol {
  import opened Base
  import opened Records
  import opened Payload
  import opened Names
  import opened Desired
  import opened Register

  /** Holder tokens are unique, so they number the actors; 0 is the empty holder. */
  type Id = nat
  const NOBODY: Id := 0

  const SECOND: int := 1_000_000
  const RELEASE_TRIES: nat := 3

  // ----- shared objects -----

  datatype Lease = Lease(version: nat, holder: Id, renew: Option<int>, seconds: Option<int>, transitions: int)

  /** The holder of a lease may be replaced once RenewTime plus the duration is past. */
  function Expired(lease: Lease, now: int): bool {
    lease.renew.None? || lease.seconds.None? || now > lease.renew.value + lease.seconds.value * SECOND
  }

  datatype ConfigMap = ConfigMap(version: nat, st: ZoneState)

  datatype ZoneVersion = ZoneVersion(records: seq<DNSRecord>, serial: int)

  /** What can happen to a write: it lands or not, and its answer arrives or not. */
  datatype Reply = Deliver | Lost | LostAsConflict | Refuse

  /** What the caller of a conditional write learns. */
  datatype WriteResult = Ok | Conflict | Error

  predicate Landed(current: bool, reply: Reply) {
    current && !reply.Refuse?
  }

  function Answer(current: bool, reply: Reply): WriteResult {
    match reply
    case Deliver => if current then Ok else Conflict
    case Lost => Error
    case LostAsConflict => Conflict
    case Refuse => Error
  }

  // ----- actors -----

  datatype Config = Config(
    seconds: int,          // lease duration, whole seconds
    wait: int,             // longest wait for the lock
    poll: nat,             // interval between attempts
    maxAge: int,           // of a wanted record
    ownAll: bool,
    serialCheck: bool,
    serialRequired: bool,
    attempts: nat,         // MaxWriteAttempts
    zone: string,
    stamp: string)         // date text of a placeholder

  datatype Outcome = Written | InSync | Failed | LockTimeout | Cancelled | NoKey | SerialUnavailable | ZoneChanging

  /** What an actor has done since it took the lock. */
  datatype Event =
    | Acquired
    | Loaded
    | Saved(st: ZoneState)
    | SerialRead(answer: Option<int>)
    | Moved
    | Fetched(view: Option<seq<DNSRecord>>)
    | Uploaded(payload: seq<DNSRecord>)
    | Released

  /** Where an actor is; each value names the call it makes next. */
  datatype PC =
    | Entering
    | Trying                                          // take RenewTime
    | Reading                                         // GET the lease
    | Creating                                        // create it
    | Checking(copy: Lease)                           // compare with the clock
    | Updating(copy: Lease)                           // compare-and-swap
    | Waiting                                         // compare with the deadline
    | Polling                                         // sleep
    | Loading                                         // lock held from here
    | Expiring
    | Mutating
    | Saving
    | Keying
    | SerialBefore
    | Fetching
    | Refetching
    | SerialAfter
    | Putting                                         // lock held until here
    | Releasing(tries: nat, out: Outcome)             // GET the lease again
    | Clearing(tries: nat, mine: Lease, out: Outcome) // clear the holder
    | Done(result: Outcome)
    | Crashed

  datatype Actor = Actor(
    cfg: Config,
    op: Op,
    clock: int,            // this pod's clock
    start: int,            // when the request began
    deadline: int,         // for taking the lock
    renew: int,            // RenewTime of the latest attempt
    pc: PC,
    log: seq<Event>,
    st: ZoneState,         // the handle: state ...
    version: nat,          // ... and resource version, 0 for a missing ConfigMap
    cutoff: int,
    at: int,
    attempt: nat,
    before: Option<int>,   // serial before the read
    after: Option<int>,    // serial before the write
    views: seq<seq<DNSRecord>>, // views fetched in this attempt
    payload: seq<DNSRecord>,
    seen: nat,             // zone version current at the first serial read
    got: nat,              // zone version served by the latest GET
    mid: nat)              // zone version current at the second serial read

  /**
    An upload that took effect: the actor as it was, the state stored then and the saves
    so far, the version overwritten.
   */
  datatype Put = Put(who: Id, writer: Actor, stored: ZoneState, saves: nat, over: nat)

  datatype State = State(
    actors: map<Id, Actor>,
    lease: Option<Lease>,
    cm: Option<ConfigMap>,
    zones: seq<ZoneVersion>,   // every version of the zone, the last is current
    commits: seq<Commit>,      // history: saves
    puts: seq<Put>,            // history: uploads
    takeovers: nat)            // history: acquisitions by update

  ghost predicate Init(s: State) {
    && s.actors == map[] && s.cm.None? && |s.zones| == 1
    && s.commits == [] && s.puts == [] && s.takeovers == 0
    && (s.lease.Some? ==> s.lease.value.transitions == 0)
  }

  datatype Label =
    | Spawn(a: Id, cfg: Config, op: Op, clock: int)
    | Tick(a: Id, dt: nat)
    | Crash(a: Id)
    | Edit(records: seq<DNSRecord>, serial: int)
    | Enter(a: Id)
    | TakeTime(a: Id)
    | GetLease(a: Id, ok: bool)
    | CreateLease(a: Id, reply: Reply)
    | CheckExpiry(a: Id)
    | UpdateLease(a: Id, reply: Reply)
    | CheckDeadline(a: Id)
    | Poll(a: Id, dt: nat, cancelled: bool)
    | Load(a: Id, ok: bool)
    | Expire(a: Id)
    | Mutate(a: Id)
    | Save(a: Id, reply: Reply)
    | ReadKey(a: Id, ok: bool)
    | ReadSerial(a: Id, answer: Option<int>)
    | Get(a: Id, which: Option<nat>)
    | Upload(a: Id, reply: Reply, serial: int)
    | GetOwnLease(a: Id, ok: bool)
    | ClearLease(a: Id, reply: Reply)

  function Who(l: Label): Id {
    if l.Edit? then NOBODY else l.a
  }

  // ----- what each step does to the actor that takes it -----

  function Newborn(cfg: Config, op: Op, clock: int): Actor {
    Actor(cfg, op, clock, clock, clock, clock, Entering, [], EMPTY_STATE, 0, 0, 0, 0, None, None, [], [], 0, 0, 0)
  }

  /** Leaves the critical section with an outcome; the deferred release runs next. */
  function Leave(x: Actor, out: Outcome): Actor {
    x.(pc := Releasing(0, out), log := x.log + [Released])
  }

  function AfterGetLease(x: Actor, lease: Option<Lease>, ok: bool): Actor {
    if !ok then x.(pc := Done(Failed))
    else if lease.None? then x.(pc := Creating)
    else if lease.value.holder != NOBODY then x.(pc := Checking(lease.value))
    else x.(pc := Updating(lease.value))
  }

  function AfterLeaseWrite(x: Actor, answer: WriteResult): Actor {
    match answer
    case Ok => x.(pc := Loading, log := [Acquired])
    case Conflict => x.(pc := Waiting)
    case Error => x.(pc := Done(Failed))
  }

  function AfterCheckExpiry(x: Actor): Actor
    requires x.pc.Checking?
  {
    if Expired(x.pc.copy, x.clock) then x.(pc := Updating(x.pc.copy)) else x.(pc := Waiting)
  }

  function AfterCheckDeadline(x: Actor): Actor {
    if x.clock > x.deadline then x.(pc := Done(LockTimeout)) else x.(pc := Polling)
  }

  function AfterPoll(x: Actor, dt: nat, cancelled: bool): Actor {
    if cancelled then x.(clock := x.clock + dt, pc := Done(Cancelled)) else x.(clock := x.clock + dt, pc := Trying)
  }

  function StoredState(cm: Option<ConfigMap>): ZoneState {
    if cm.None? then EMPTY_STATE else cm.value.st
  }

  function StoredVersion(cm: Option<ConfigMap>): nat {
    if cm.None? then 0 else cm.value.version
  }

  function AfterLoad(x: Actor, cm: Option<ConfigMap>, ok: bool): Actor {
    if !ok then Leave(x, Failed)
    else
      var st := StoredState(cm);
      var st := st.(secret := Secret(x.op, st.secret));
      var x := x.(st := st, version := StoredVersion(cm), log := x.log + [Loaded]);
      if st.secret.name == "" then Leave(x, NoKey) else x.(pc := Expiring)
  }

  function AfterExpire(x: Actor): Actor {
    var cutoff := x.clock - x.cfg.maxAge;
    x.(cutoff := cutoff, st := x.st.(records := Unexpired(x.st.records, cutoff)), pc := Mutating)
  }

  function AfterMutate(x: Actor): Actor {
    x.(at := x.clock, st := x.st.(records := Mutated(x.op, x.st.records, x.clock)), pc := Saving)
  }

  function AfterSave(x: Actor, answer: WriteResult): Actor {
    if answer.Ok? then x.(version := x.version + 1, log := x.log + [Saved(x.st)], pc := Keying)
    else Leave(x, Failed)
  }

  function AfterReadKey(x: Actor, ok: bool): Actor {
    if ok then x.(pc := SerialBefore, attempt := 1) else Leave(x, Failed)
  }

  function AfterSerialBefore(x: Actor, answer: Option<int>, current: nat): Actor {
    var x := if x.cfg.serialCheck then x.(log := x.log + [SerialRead(answer)]) else x;
    if x.cfg.serialRequired && answer.None? then Leave(x, SerialUnavailable)
    else x.(before := answer, after := None, seen := current, views := [], pc := Fetching)
  }

  /** The payload rule applied to a view of the zone. */
  function PlanFor(x: Actor, view: seq<DNSRecord>): Payload.Upload {
    Compute(view, DesiredRecords(x.st.records), Removal(x.op), x.cfg.ownAll)
  }

  /** mijn.host rejects an upload without records. */
  function NeverEmpty(cfg: Config, payload: seq<DNSRecord>): seq<DNSRecord> {
    if payload == [] then [Placeholder(cfg.zone, cfg.stamp)] else payload
  }

  function Decide(x: Actor, view: seq<DNSRecord>): Actor {
    var plan := PlanFor(x, view);
    if !plan.diff.Changed() then Leave(x, InSync)
    else x.(payload := NeverEmpty(x.cfg, plan.payload), pc := if x.before.Some? then SerialAfter else Putting)
  }

  function AfterGet(x: Actor, view: Option<seq<DNSRecord>>, version: nat): Actor {
    var first := x.pc.Fetching?;
    var x := x.(log := x.log + [Fetched(view)]);
    if view.None? then Leave(x, Failed)
    else
      var x := x.(views := x.views + [view.value], got := version);
      if first && Own(view.value) == [] then x.(pc := Refetching) else Decide(x, view.value)
  }

  function AfterSerialAfter(x: Actor, answer: Option<int>, current: nat): Actor {
    var x := x.(log := x.log + [SerialRead(answer)], after := answer, mid := current);
    if answer.Some? && answer != x.before then
      var x := x.(log := x.log + [Moved]);
      if x.attempt < x.cfg.attempts then x.(attempt := x.attempt + 1, pc := SerialBefore) else Leave(x, ZoneChanging)
    else if answer.None? && x.cfg.serialRequired then Leave(x, SerialUnavailable)
    else x.(pc := Putting)
  }

  function AfterUpload(x: Actor, reply: Reply): Actor {
    Leave(x.(log := x.log + [Uploaded(x.payload)]), if reply.Deliver? then Written else Failed)
  }

  function NextTry(x: Actor, tries: nat, out: Outcome): Actor {
    if tries + 1 < RELEASE_TRIES then x.(pc := Releasing(tries + 1, out)) else x.(pc := Done(out))
  }

  function AfterGetOwnLease(x: Actor, a: Id, lease: Option<Lease>, ok: bool): Actor
    requires x.pc.Releasing?
  {
    if !ok || lease.None? then NextTry(x, x.pc.tries, x.pc.out)
    else if lease.value.holder != a then x.(pc := Done(x.pc.out))
    else x.(pc := Clearing(x.pc.tries, lease.value, x.pc.out))
  }

  function AfterClearLease(x: Actor, answer: WriteResult): Actor
    requires x.pc.Clearing?
  {
    if answer.Conflict? then NextTry(x, x.pc.tries, x.pc.out) else x.(pc := Done(x.pc.out))
  }

  // ----- what each step does to the shared objects -----

  function FreshLease(x: Actor, a: Id): Lease {
    Lease(1, a, Some(x.renew), Some(x.cfg.seconds), 0)
  }

  function TakenLease(x: Actor, a: Id, copy: Lease): Lease {
    Lease(copy.version + 1, a, Some(x.renew), Some(x.cfg.seconds), Int32(copy.transitions + 1))
  }

  function ClearedLease(copy: Lease): Lease {
    copy.(version := copy.version + 1, holder := NOBODY)
  }

  predicate IsCurrent(lease: Option<Lease>, copy: Lease) {
    lease.Some? && lease.value.version == copy.version
  }

  function CommitOf(x: Actor): Commit {
    Commit(x.op, x.cutoff, x.at)
  }

  function With(s: State, a: Id, x: Actor): State {
    s.(actors := s.actors[a := x])
  }

  predicate GoodConfig(cfg: Config) {
    cfg.attempts >= 1 && cfg.poll >= 1
  }

  predicate At(s: State, a: Id, pc: PC) {
    a in s.actors && s.actors[a].pc == pc
  }

  predicate Enabled(s: State, l: Label) {
    match l
    case Spawn(a, cfg, op, _) =>
      && a !in s.actors && a != NOBODY && (s.lease.Some? ==> s.lease.value.holder != a)
      && GoodConfig(cfg) && ChallengeOp(op)
    case Tick(a, _) => a in s.actors
    case Crash(a) => a in s.actors && !s.actors[a].pc.Done?
    case Edit(_, _) => true
    case Enter(a) => At(s, a, Entering)
    case TakeTime(a) => At(s, a, Trying)
    case GetLease(a, _) => At(s, a, Reading)
    case CreateLease(a, _) => At(s, a, Creating)
    case CheckExpiry(a) => a in s.actors && s.actors[a].pc.Checking?
    case UpdateLease(a, _) => a in s.actors && s.actors[a].pc.Updating?
    case CheckDeadline(a) => At(s, a, Waiting)
    case Poll(a, dt, cancelled) => At(s, a, Polling) && (cancelled || dt >= s.actors[a].cfg.poll)
    case Load(a, _) => At(s, a, Loading)
    case Expire(a) => At(s, a, Expiring)
    case Mutate(a) => At(s, a, Mutating)
    case Save(a, _) => At(s, a, Saving)
    case ReadKey(a, _) => At(s, a, Keying)
    case ReadSerial(a, answer) =>
      (At(s, a, SerialBefore) && (answer.Some? ==> s.actors[a].cfg.serialCheck)) || At(s, a, SerialAfter)
    case Get(a, which) => (At(s, a, Fetching) || At(s, a, Refetching)) && (which.Some? ==> which.value < |s.zones|)
    case Upload(a, _, _) => At(s, a, Putting)
    case GetOwnLease(a, _) => a in s.actors && s.actors[a].pc.Releasing?
    case ClearLease(a, _) => a in s.actors && s.actors[a].pc.Clearing?
  }

  function View(s: State, which: Option<nat>): Option<seq<DNSRecord>>
    requires which.Some? ==> which.value < |s.zones|
  {
    if which.None? then None else Some(s.zones[which.value].records)
  }

  function Current(s: State): nat {
    if s.zones == [] then 0 else |s.zones| - 1
  }

  /** The zone as it is now. */
  function Zone(s: State): seq<DNSRecord> {
    if s.zones == [] then [] else Last(s.zones).records
  }

  /** The moving actor after the step. */
  function Mover(s: State, l: Label): Actor
    requires Enabled(s, l) && !l.Edit?
  {
    if l.Spawn? then Newborn(l.cfg, l.op, l.clock) else
    var x := s.actors[l.a];
    match l
    case Spawn(_, _, _, _) => x
    case Edit(_, _) => x
    case Tick(_, dt) => x.(clock := x.clock + dt)
    case Crash(_) => x.(pc := Crashed)
    case Enter(_) => x.(deadline := x.clock + x.cfg.wait, pc := Trying)
    case TakeTime(_) => x.(renew := x.clock, pc := Reading)
    case GetLease(_, ok) => AfterGetLease(x, s.lease, ok)
    case CreateLease(_, reply) => AfterLeaseWrite(x, Answer(s.lease.None?, reply))
    case CheckExpiry(_) => AfterCheckExpiry(x)
    case UpdateLease(_, reply) => AfterLeaseWrite(x, Answer(IsCurrent(s.lease, x.pc.copy), reply))
    case CheckDeadline(_) => AfterCheckDeadline(x)
    case Poll(_, dt, cancelled) => AfterPoll(x, dt, cancelled)
    case Load(_, ok) => AfterLoad(x, s.cm, ok)
    case Expire(_) => AfterExpire(x)
    case Mutate(_) => AfterMutate(x)
    case Save(_, reply) => AfterSave(x, Answer(StoredVersion(s.cm) == x.version, reply))
    case ReadKey(_, ok) => AfterReadKey(x, ok)
    case ReadSerial(_, answer) =>
      if x.pc.SerialBefore? then AfterSerialBefore(x, answer, Current(s)) else AfterSerialAfter(x, answer, Current(s))
    case Get(_, which) => AfterGet(x, View(s, which), if which.Some? then which.value else 0)
    case Upload(_, reply, _) => AfterUpload(x, reply)
    case GetOwnLease(a, ok) => AfterGetOwnLease(x, a, s.lease, ok)
    case ClearLease(_, reply) => AfterClearLease(x, Answer(IsCurrent(s.lease, x.pc.mine), reply))
  }

  function LeaseAfter(s: State, l: Label): Option<Lease>
    requires Enabled(s, l)
  {
    match l
    case CreateLease(a, reply) =>
      if Landed(s.lease.None?, reply) then Some(FreshLease(s.actors[a], a)) else s.lease
    case UpdateLease(a, reply) =>
      var copy := s.actors[a].pc.copy;
      if Landed(IsCurrent(s.lease, copy), reply) then Some(TakenLease(s.actors[a], a, copy)) else s.lease
    case ClearLease(a, reply) =>
      var copy := s.actors[a].pc.mine;
      if Landed(IsCurrent(s.lease, copy), reply) then Some(ClearedLease(copy)) else s.lease
    case _ => s.lease
  }

  /** A save creates version 1 or updates the version it loaded. */
  predicate Commits(s: State, l: Label)
    requires Enabled(s, l)
  {
    l.Save? && Landed(StoredVersion(s.cm) == s.actors[l.a].version, l.reply)
  }

  predicate Uploads(l: Label) {
    l.Upload? && !l.reply.Refuse?
  }

  predicate TakesOver(s: State, l: Label)
    requires Enabled(s, l)
  {
    l.UpdateLease? && Landed(IsCurrent(s.lease, s.actors[l.a].pc.copy), l.reply)
  }

  function Effect(s: State, l: Label): State
    requires Enabled(s, l)
  {
    State(
      if l.Edit? then s.actors else s.actors[l.a := Mover(s, l)],
      LeaseAfter(s, l),
      if Commits(s, l) then Some(ConfigMap(s.actors[l.a].version + 1, s.actors[l.a].st)) else s.cm,
      if l.Edit? then s.zones + [ZoneVersion(l.records, l.serial)]
      else if Uploads(l) then s.zones + [ZoneVersion(s.actors[l.a].payload, l.serial)]
      else s.zones,
      if Commits(s, l) then s.commits + [CommitOf(s.actors[l.a])] else s.commits,
      if Uploads(l) then s.puts + [Put(l.a, s.actors[l.a], StoredState(s.cm), |s.commits|, Current(s))] else s.puts,
      if TakesOver(s, l) then s.takeovers + 1 else s.takeovers)
  }

  // ----- runs -----

  /** The state a run of labels leads to, if every label is enabled when its turn comes. */
  function Exec(s: State, ls: seq<Label>): Option<State> {
    if ls == [] then Some(s)
    else
      var t := Exec(s, Front(ls));
      if t.Some? && Enabled(t.value, Last(ls)) then Some(Effect(t.value, Last(ls))) else None
  }

  /** `s` is reached from an initial state by the run `ls`. */
  ghost predicate Run(s0: State, ls: seq<Label>, s: State) {
    Init(s0) && Exec(s0, ls) == Some(s)
  }

  lemma RunStep(s0: State, ls: seq<Label>, s: State)
    requires Run(s0, ls, s) && ls != []
    ensures Exec(s0, Front(ls)).Some?
    ensures var p := Exec(s0, Front(ls)).value;
      Run(s0, Front(ls), p) && Enabled(p, Last(ls)) && s == Effect(p, Last(ls))
  {
  }

  lemma ExecSnoc(s: State, ls: seq<Label>, l: Label)
    requires Exec(s, ls).Some? && Enabled(Exec(s, ls).value, l)
    ensures Exec(s, ls + [l]) == Some(Effect(Exec(s, ls).value, l))
  {
    Snoc(ls, l);
  }

  /** Runs compose. */
  lemma {:induction false} ExecConcat(s: State, ls: seq<Label>, t: State, more: seq<Label>, u: State)
    requires Exec(s, ls) == Some(t) && Exec(t, more) == Some(u)
    ensures Exec(s, ls + more) == Some(u)
    decreases |more|
  {
    if more == [] {
      assert ls + more == ls;
    } else {
      StepTaken(t, more, u);
      ExecConcat(s, ls, t, Front(more), Exec(t, Front(more)).value);
      ExecSnoc(s, ls + Front(more), Last(more));
      Regroup(ls, more);
    }
  }

  lemma Regroup(ls: seq<Label>, more: seq<Label>)
    requires more != []
    ensures ls + more == ls + Front(more) + [Last(more)]
  {
  }

  /** The last step of an execution. */
  lemma StepTaken(s: State, ls: seq<Label>, t: State)
    requires ls != [] && Exec(s, ls) == Some(t)
    ensures Exec(s, Front(ls)).Some?
    ensures var p := Exec(s, Front(ls)).value; Enabled(p, Last(ls)) && t == Effect(p, Last(ls))
  {
  }

  /** Every prefix of an execution is one, and the next label is enabled after it. */
  lemma {:induction false} PrefixExec(s: State, ls: seq<Label>, t: State, i: nat)
    requires Exec(s, ls) == Some(t) && i < |ls|
    ensures Exec(s, ls[..i]).Some? && Enabled(Exec(s, ls[..i]).value, ls[i])
    decreases |ls|
  {
    StepTaken(s, ls, t);
    if i < |ls| - 1 {
      PrefixExec(s, Front(ls), Exec(s, Front(ls)).value, i);
      assert ls[..i] == Front(ls)[..i] && ls[i] == Front(ls)[i];
    } else {
      assert ls[..i] == Front(ls);
    }
  }
}
