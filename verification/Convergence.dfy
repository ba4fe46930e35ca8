/**
  Convergence: a request that runs alone, with fresh reads and no errors, takes a
  free lock at once, finishes, and leaves the zone as the stored records want it,
  whatever zone and stored state it started from.
 */
module Convergence {
  import opened Base
  import opened Records
  import opened Payload
  import opened Names
  import opened Desired
  import opened Register
  import opened Protocol
  import opened LeaseProofs
  import opened TraceProofs
  import opened Stamps

  /** What an undisturbed nameserver query yields. */
  function TrueSerial(s: State, x: Actor): Option<int> {
    if x.cfg.serialCheck && s.zones != [] then Some(Last(s.zones).serial) else None
  }

  /** Only `a` moves, every call lands and is answered, every read is fresh; time may pass. */
  predicate Quiet(s: State, l: Label, a: Id)
    requires Enabled(s, l)
  {
    match l
    case Spawn(_, _, _, _) => false
    case Crash(_) => false
    case Edit(_, _) => false
    case Tick(_, _) => true
    case GetLease(b, ok) => b == a && ok
    case CreateLease(b, reply) => b == a && reply.Deliver?
    case UpdateLease(b, reply) => b == a && reply.Deliver?
    case Load(b, ok) => b == a && ok
    case Save(b, reply) => b == a && reply.Deliver?
    case ReadKey(b, ok) => b == a && ok
    case ReadSerial(b, answer) => b == a && answer == TrueSerial(s, s.actors[a])
    case Get(b, which) => b == a && which == Some(Current(s))
    case Upload(b, reply, _) => b == a && reply.Deliver?
    case GetOwnLease(b, ok) => b == a && ok
    case ClearLease(b, reply) => b == a && reply.Deliver?
    case _ => l.a == a
  }

  ghost predicate QuietRun(s: State, ls: seq<Label>, a: Id)
    decreases |ls|
  {
    ls == [] ||
    (QuietRun(s, Front(ls), a) && Exec(s, ls).Some? && Quiet(Exec(s, Front(ls)).value, Last(ls), a))
  }

  /** A request about to take a free lock, with a key reference to use. */
  predicate Ready(s: State, a: Id) {
    && a in s.actors && a != NOBODY && s.zones != [] && s.actors[a].pc.Entering?
    && GoodConfig(s.actors[a].cfg) && (s.actors[a].cfg.serialRequired ==> s.actors[a].cfg.serialCheck)
    && Secret(s.actors[a].op, StoredState(s.cm).secret).name != ""
    && Free(s, s.actors[a].clock)
  }

  /** The records the request ends up wanting. */
  function Target(s0: State, x: Actor): seq<Record> {
    Mutated(x.op, Unexpired(StoredState(s0.cm).records, x.cutoff), x.at)
  }

  predicate SameStore(s0: State, s: State) {
    s.cm == s0.cm && SameZone(s0, s)
  }

  predicate SameZone(s0: State, s: State) {
    s.zones == s0.zones && s.puts == s0.puts
  }

  predicate SavedTarget(s0: State, s: State, x: Actor) {
    StoredState(s.cm) == x.st && x.st.records == Target(s0, x)
  }

  /** The one upload, or none, that the plan calls for has been made. */
  predicate Settled(s0: State, s: State, x: Actor, out: Outcome) {
    && SavedTarget(s0, s, x)
    && s.zones != []
    && var plan := PlanFor(x, Zone(s0));
       if plan.diff.Changed() then
         out.Written? && Zone(s) == NeverEmpty(x.cfg, plan.payload) && |s.puts| == |s0.puts| + 1
       else out.InSync? && SameZone(s0, s)
  }

  /** Where a quiet request stands, call by call. */
  predicate OnTrack(s0: State, s: State, a: Id) {
    && Ready(s0, a) && a in s.actors
    && var x, x0 := s.actors[a], s0.actors[a];
    && x.cfg == x0.cfg && x.op == x0.op && x.clock >= x0.clock
    && match x.pc
       case Entering | Trying | Reading => SameStore(s0, s) && s.lease == s0.lease
       case Creating => SameStore(s0, s) && s.lease == s0.lease && s.lease.None?
       case Checking(copy) => SameStore(s0, s) && s.lease == s0.lease == Some(copy) && copy.holder != NOBODY
       case Updating(copy) => SameStore(s0, s) && s.lease == s0.lease == Some(copy)
       case Loading => IsHolder(s, a) && SameStore(s0, s)
       case Expiring =>
         IsHolder(s, a) && SameStore(s0, s) && x.version == StoredVersion(s0.cm)
         && x.st.records == StoredState(s0.cm).records
       case Mutating =>
         IsHolder(s, a) && SameStore(s0, s) && x.version == StoredVersion(s0.cm)
         && x.st.records == Unexpired(StoredState(s0.cm).records, x.cutoff)
       case Saving =>
         IsHolder(s, a) && SameStore(s0, s) && x.version == StoredVersion(s0.cm) && x.st.records == Target(s0, x)
       case Keying | SerialBefore => IsHolder(s, a) && SavedTarget(s0, s, x) && SameZone(s0, s)
       case Fetching =>
         IsHolder(s, a) && SavedTarget(s0, s, x) && SameZone(s0, s) && x.before == TrueSerial(s, x) && x.views == []
       case Refetching =>
         IsHolder(s, a) && SavedTarget(s0, s, x) && SameZone(s0, s) && x.before == TrueSerial(s, x)
       case SerialAfter | Putting =>
         IsHolder(s, a) && SavedTarget(s0, s, x) && SameZone(s0, s) && x.before == TrueSerial(s, x)
         && PlanFor(x, Zone(s0)).diff.Changed() && x.payload == NeverEmpty(x.cfg, PlanFor(x, Zone(s0)).payload)
       case Releasing(tries, out) => IsHolder(s, a) && Settled(s0, s, x, out)
       case Clearing(_, mine, out) => IsHolder(s, a) && s.lease == Some(mine) && Settled(s0, s, x, out)
       case Done(out) => s.lease.Some? && s.lease.value.holder == NOBODY && Settled(s0, s, x, out)
       case Waiting | Polling | Crashed => false
  }

  lemma TrackLock(s0: State, s: State, l: Label, a: Id)
    requires OnTrack(s0, s, a) && Enabled(s, l) && Quiet(s, l, a) && l.a == a
    requires l.Enter? || l.TakeTime? || l.GetLease? || l.CreateLease? || l.CheckExpiry? || l.UpdateLease?
    ensures OnTrack(s0, Effect(s, l), a)
  {
  }

  lemma TrackStore(s0: State, s: State, l: Label, a: Id)
    requires OnTrack(s0, s, a) && Enabled(s, l) && Quiet(s, l, a) && l.a == a
    requires l.Load? || l.Expire? || l.Mutate? || l.Save? || l.ReadKey?
    ensures OnTrack(s0, Effect(s, l), a)
  {
  }

  lemma TrackSerial(s0: State, s: State, l: Label, a: Id)
    requires OnTrack(s0, s, a) && Enabled(s, l) && Quiet(s, l, a) && l.ReadSerial?
    ensures OnTrack(s0, Effect(s, l), a)
  {
  }

  /** A fresh view of an unchanged zone leads to the plan for that zone. */
  lemma TrackDecide(s0: State, s: State, a: Id, x: Actor)
    requires Ready(s0, a) && IsHolder(s, a) && SavedTarget(s0, s, x) && SameZone(s0, s) && x.before == TrueSerial(s, x)
    requires x.cfg == s0.actors[a].cfg && x.op == s0.actors[a].op && x.clock >= s0.actors[a].clock
    ensures OnTrack(s0, With(s, a, Decide(x, Zone(s0))), a)
  {
    var y := Decide(x, Zone(s0));
    assert With(s, a, y).actors[a] == y;
    SamePlan(s0, x, y);
    if PlanFor(x, Zone(s0)).diff.Changed() {
      TrackPlanned(s0, With(s, a, y), a, y);
    } else {
      TrackInSync(s0, With(s, a, y), a, x);
    }
  }

  lemma TrackPlanned(s0: State, s: State, a: Id, y: Actor)
    requires Ready(s0, a) && IsHolder(s, a) && SavedTarget(s0, s, y) && SameZone(s0, s) && y.before == TrueSerial(s, y)
    requires y.cfg == s0.actors[a].cfg && y.op == s0.actors[a].op && y.clock >= s0.actors[a].clock
    requires y.pc.SerialAfter? || y.pc.Putting?
    requires PlanFor(y, Zone(s0)).diff.Changed() && y.payload == NeverEmpty(y.cfg, PlanFor(y, Zone(s0)).payload)
    requires a in s.actors && s.actors[a] == y
    ensures OnTrack(s0, s, a)
  {
  }

  /** What a request plans and wants depends on its settings, operation, records and the times it stamped. */
  lemma SamePlan(s0: State, x: Actor, y: Actor)
    requires y.st == x.st && y.op == x.op && y.cfg == x.cfg && y.cutoff == x.cutoff && y.at == x.at
    ensures PlanFor(y, Zone(s0)) == PlanFor(x, Zone(s0)) && Target(s0, y) == Target(s0, x)
  {
  }

  lemma TrackInSync(s0: State, s: State, a: Id, x: Actor)
    requires Ready(s0, a) && IsHolder(s, a) && SavedTarget(s0, s, x) && SameZone(s0, s)
    requires x.cfg == s0.actors[a].cfg && x.op == s0.actors[a].op && x.clock >= s0.actors[a].clock
    requires !PlanFor(x, Zone(s0)).diff.Changed() && a in s.actors && s.actors[a] == Leave(x, InSync)
    ensures OnTrack(s0, s, a)
  {
    SamePlan(s0, x, s.actors[a]);
  }

  /** A fresh GET by a quiet request. */
  lemma GetEffect(s: State, l: Label, a: Id)
    requires Enabled(s, l) && Quiet(s, l, a) && l.Get? && s.zones != []
    ensures a in s.actors && (s.actors[a].pc.Fetching? || s.actors[a].pc.Refetching?)
    ensures Effect(s, l) == With(s, a, AfterGet(s.actors[a], Some(Zone(s)), Current(s)))
  {
  }

  lemma TrackGet(s0: State, s: State, l: Label, a: Id)
    requires OnTrack(s0, s, a) && Enabled(s, l) && Quiet(s, l, a) && l.Get? && s.zones != []
    ensures OnTrack(s0, Effect(s, l), a)
  {
    GetEffect(s, l, a);
    var x := s.actors[a];
    var z := x.(log := x.log + [Fetched(Some(Zone(s)))], views := x.views + [Zone(s)], got := Current(s));
    SamePlan(s0, x, z);
    if x.pc.Fetching? && Own(Zone(s)) == [] {
      TrackRefetch(s0, s, a, z);
    } else {
      TrackDecide(s0, s, a, z);
    }
  }

  lemma TrackRefetch(s0: State, s: State, a: Id, x: Actor)
    requires Ready(s0, a) && IsHolder(s, a) && SavedTarget(s0, s, x) && SameZone(s0, s) && x.before == TrueSerial(s, x)
    requires x.cfg == s0.actors[a].cfg && x.op == s0.actors[a].op && x.clock >= s0.actors[a].clock
    ensures OnTrack(s0, With(s, a, x.(pc := Refetching)), a)
  {
    SamePlan(s0, x, x.(pc := Refetching));
  }

  lemma TrackUpload(s0: State, s: State, l: Label, a: Id)
    requires OnTrack(s0, s, a) && Enabled(s, l) && Quiet(s, l, a) && l.a == a && l.Upload?
    ensures OnTrack(s0, Effect(s, l), a)
  {
    var x, y := s.actors[a], Effect(s, l).actors[a];
    assert PlanFor(y, Zone(s0)) == PlanFor(x, Zone(s0));
  }

  /** Letting go of the lock leaves everything else settled. */
  lemma SettledStays(s0: State, s: State, x: Actor, out: Outcome, s': State, pc: PC)
    requires Settled(s0, s, x, out) && s'.cm == s.cm && s'.zones == s.zones && s'.puts == s.puts
    ensures Settled(s0, s', x.(pc := pc), out)
  {
    assert PlanFor(x.(pc := pc), Zone(s0)) == PlanFor(x, Zone(s0));
  }

  lemma TrackRelease(s0: State, s: State, l: Label, a: Id)
    requires OnTrack(s0, s, a) && Enabled(s, l) && Quiet(s, l, a) && l.a == a && l.GetOwnLease?
    ensures OnTrack(s0, Effect(s, l), a)
  {
    var x, y := s.actors[a], Effect(s, l).actors[a];
    var pc := Clearing(x.pc.tries, s.lease.value, x.pc.out);
    assert y == x.(pc := pc);
    SettledStays(s0, s, x, x.pc.out, Effect(s, l), pc);
  }

  lemma TrackClear(s0: State, s: State, l: Label, a: Id)
    requires OnTrack(s0, s, a) && Enabled(s, l) && Quiet(s, l, a) && l.a == a && l.ClearLease?
    ensures OnTrack(s0, Effect(s, l), a)
  {
    var x, y := s.actors[a], Effect(s, l).actors[a];
    assert y == x.(pc := Done(x.pc.out));
    SettledStays(s0, s, x, x.pc.out, Effect(s, l), Done(x.pc.out));
  }

  lemma TrackClock(s0: State, s: State, a: Id, clock: int, s': State)
    requires OnTrack(s0, s, a) && clock >= s.actors[a].clock
    requires a in s'.actors && s'.actors[a] == s.actors[a].(clock := clock)
    requires s'.lease == s.lease && s'.cm == s.cm && s'.zones == s.zones && s'.puts == s.puts
    ensures OnTrack(s0, s', a)
  {
    var x, y := s.actors[a], s'.actors[a];
    assert PlanFor(y, Zone(s0)) == PlanFor(x, Zone(s0)) && Target(s0, y) == Target(s0, x);
  }

  lemma TrackTick(s0: State, s: State, l: Label, a: Id)
    requires OnTrack(s0, s, a) && Enabled(s, l) && l.Tick?
    ensures OnTrack(s0, Effect(s, l), a)
  {
    var x, y := s.actors[a], Effect(s, l).actors[a];
    assert y == x.(clock := y.clock) && y.clock >= x.clock;
    TrackClock(s0, s, a, y.clock, Effect(s, l));
  }

  lemma TrackStep(s0: State, s: State, l: Label, a: Id)
    requires OnTrack(s0, s, a) && Enabled(s, l) && Quiet(s, l, a)
    ensures OnTrack(s0, Effect(s, l), a)
  {
    if l.Tick? {
      TrackTick(s0, s, l, a);
    } else if l.ReadSerial? {
      TrackSerial(s0, s, l, a);
    } else if l.Get? {
      TrackGet(s0, s, l, a);
    } else if l.Upload? {
      TrackUpload(s0, s, l, a);
    } else if l.GetOwnLease? {
      TrackRelease(s0, s, l, a);
    } else if l.ClearLease? {
      TrackClear(s0, s, l, a);
    } else if l.Load? || l.Expire? || l.Mutate? || l.Save? || l.ReadKey? {
      TrackStore(s0, s, l, a);
    } else {
      TrackLock(s0, s, l, a);
    }
  }

  lemma {:induction false} TrackRun(s0: State, ls: seq<Label>, s: State, a: Id)
    requires Ready(s0, a) && Exec(s0, ls) == Some(s) && QuietRun(s0, ls, a)
    ensures OnTrack(s0, s, a)
    decreases |ls|
  {
    if ls != [] {
      var p := Exec(s0, Front(ls)).value;
      TrackRun(s0, Front(ls), p, a);
      TrackStep(s0, p, Last(ls), a);
    }
  }

  /** A quiet request neither waits for the lock nor fails. */
  lemma NeverWaits(s0: State, ls: seq<Label>, s: State, a: Id)
    requires Ready(s0, a) && Exec(s0, ls) == Some(s) && QuietRun(s0, ls, a)
    ensures a in s.actors && !s.actors[a].pc.Waiting? && s.actors[a].pc != Done(Failed)
  {
    TrackRun(s0, ls, s, a);
  }

  // ----- a quiet request finishes -----

  /** Calls left before a quiet request is done. */
  function CallsLeft(pc: PC): nat {
    match pc
    case Entering => 18
    case Trying => 17
    case Reading => 16
    case Checking(_) => 15
    case Creating | Updating(_) => 14
    case Loading => 13
    case Expiring => 12
    case Mutating => 11
    case Saving => 10
    case Keying => 9
    case SerialBefore => 8
    case Fetching => 7
    case Refetching => 6
    case SerialAfter => 5
    case Putting => 4
    case Releasing(_, _) => 2
    case Clearing(_, _, _) => 1
    case Done(_) => 0
    case Waiting | Polling | Crashed => 19
  }

  /** The call a quiet request makes next. */
  function NextCall(s: State, a: Id): Label
    requires a in s.actors
  {
    match s.actors[a].pc
    case Entering => Enter(a)
    case Trying => TakeTime(a)
    case Reading => GetLease(a, true)
    case Creating => CreateLease(a, Deliver)
    case Checking(_) => CheckExpiry(a)
    case Updating(_) => UpdateLease(a, Deliver)
    case Loading => Load(a, true)
    case Expiring => Expire(a)
    case Mutating => Mutate(a)
    case Saving => Save(a, Deliver)
    case Keying => ReadKey(a, true)
    case SerialBefore | SerialAfter => ReadSerial(a, TrueSerial(s, s.actors[a]))
    case Fetching | Refetching => Get(a, Some(Current(s)))
    case Putting => Label.Upload(a, Deliver, 0)
    case Releasing(_, _) => GetOwnLease(a, true)
    case Clearing(_, _, _) => ClearLease(a, Deliver)
    case _ => Tick(a, 0)
  }

  /** No clock moves. */
  predicate Still(l: Label) {
    !l.Poll? && (l.Tick? ==> l.dt == 0)
  }

  /** The next call is enabled, quiet, and brings the request closer to its end. */
  predicate Counts(s: State, a: Id)
    requires a in s.actors
  {
    var l := NextCall(s, a);
    Enabled(s, l) && !l.Edit? && Quiet(s, l, a) && CallsLeft(Mover(s, l).pc) < CallsLeft(s.actors[a].pc)
  }

  lemma LockCallCounts(s0: State, s: State, a: Id)
    requires OnTrack(s0, s, a) && CallsLeft(s.actors[a].pc) >= 14
    ensures Counts(s, a)
  {
  }

  lemma StoreCallCounts(s0: State, s: State, a: Id)
    requires OnTrack(s0, s, a) && 9 <= CallsLeft(s.actors[a].pc) <= 13
    ensures Counts(s, a)
  {
  }

  lemma AfterGetMovesOn(x: Actor, view: seq<DNSRecord>, version: nat)
    requires x.pc.Fetching? || x.pc.Refetching?
    ensures CallsLeft(AfterGet(x, Some(view), version).pc) < CallsLeft(x.pc)
  {
    var z := x.(log := x.log + [Fetched(Some(view))], views := x.views + [view], got := version);
    var changed := PlanFor(z, view).diff.Changed();
    assert CallsLeft(Decide(z, view).pc) <= 5;
  }

  lemma GetStep(s: State, a: Id)
    requires a in s.actors && s.zones != [] && (s.actors[a].pc.Fetching? || s.actors[a].pc.Refetching?)
    ensures var l := Get(a, Some(Current(s)));
      && NextCall(s, a) == l && Enabled(s, l) && Quiet(s, l, a)
      && Mover(s, l) == AfterGet(s.actors[a], Some(Zone(s)), Current(s))
  {
  }

  lemma GetCounts(s: State, a: Id)
    requires a in s.actors && s.zones != [] && (s.actors[a].pc.Fetching? || s.actors[a].pc.Refetching?)
    ensures Counts(s, a)
  {
    AfterGetMovesOn(s.actors[a], Zone(s), Current(s));
    GetStep(s, a);
  }

  lemma SerialCounts(s: State, a: Id)
    requires a in s.actors && s.zones != [] && (s.actors[a].pc.SerialBefore? || s.actors[a].pc.SerialAfter?)
    requires s.actors[a].cfg.serialRequired ==> s.actors[a].cfg.serialCheck
    requires s.actors[a].pc.SerialAfter? ==> s.actors[a].before == TrueSerial(s, s.actors[a])
    ensures Counts(s, a)
  {
  }

  lemma EndCounts(s: State, a: Id)
    requires a in s.actors && (s.actors[a].pc.Putting? || s.actors[a].pc.Releasing? || s.actors[a].pc.Clearing?)
    requires s.actors[a].pc.Releasing? ==> IsHolder(s, a)
    requires s.actors[a].pc.Clearing? ==> s.lease == Some(s.actors[a].pc.mine)
    ensures Counts(s, a)
  {
  }

  lemma NextCallCounts(s0: State, s: State, a: Id)
    requires OnTrack(s0, s, a) && !s.actors[a].pc.Done?
    ensures Counts(s, a)
  {
    var n := CallsLeft(s.actors[a].pc);
    if n >= 14 {
      LockCallCounts(s0, s, a);
    } else if n >= 9 {
      StoreCallCounts(s0, s, a);
    } else if s.actors[a].pc.Fetching? || s.actors[a].pc.Refetching? {
      GetCounts(s, a);
    } else if s.actors[a].pc.SerialBefore? || s.actors[a].pc.SerialAfter? {
      SerialCounts(s, a);
    } else {
      EndCounts(s, a);
    }
  }

  lemma QuietSnoc(s0: State, ls: seq<Label>, l: Label, a: Id)
    requires QuietRun(s0, ls, a) && Exec(s0, ls).Some? && Enabled(Exec(s0, ls).value, l)
      && Quiet(Exec(s0, ls).value, l, a)
    ensures QuietRun(s0, ls + [l], a) && Exec(s0, ls + [l]) == Some(Effect(Exec(s0, ls).value, l))
  {
    Snoc(ls, l);
    ExecSnoc(s0, ls, l);
  }

  /** Left alone, a request that is ready finishes, without waiting for time to pass. */
  lemma {:induction false} QuietFinishes(s0: State, ls: seq<Label>, s: State, a: Id)
    returns (more: seq<Label>, t: State)
    requires Ready(s0, a) && Exec(s0, ls) == Some(s) && QuietRun(s0, ls, a) && a in s.actors
    ensures Exec(s0, more) == Some(t) && QuietRun(s0, more, a) && ls <= more
    ensures a in t.actors && t.actors[a].pc.Done?
    ensures forall i | |ls| <= i < |more| :: Still(more[i])
    decreases CallsLeft(s.actors[a].pc)
  {
    if s.actors[a].pc.Done? {
      more, t := ls, s;
    } else {
      var l, u := QuietCall(s0, ls, s, a);
      more, t := QuietFinishes(s0, ls + [l], u, a);
      assert more[|ls|] == l;
    }
  }

  /** The next call of a quiet request, which keeps it quiet and brings it closer to its end. */
  lemma QuietCall(s0: State, ls: seq<Label>, s: State, a: Id) returns (l: Label, t: State)
    requires Ready(s0, a) && Exec(s0, ls) == Some(s) && QuietRun(s0, ls, a) && a in s.actors && !s.actors[a].pc.Done?
    ensures Exec(s0, ls + [l]) == Some(t) && QuietRun(s0, ls + [l], a) && Still(l)
    ensures l == NextCall(s, a) && Enabled(s, l) && t == Effect(s, l)
    ensures a in t.actors && CallsLeft(t.actors[a].pc) < CallsLeft(s.actors[a].pc)
  {
    TrackRun(s0, ls, s, a);
    l := NextCall(s, a);
    NextCallCounts(s0, s, a);
    QuietSnoc(s0, ls, l, a);
    t := Effect(s, l);
  }

  // ----- what it leaves behind -----

  /** The challenge keys a request is to leave in a zone. */
  function Wanting(x: Actor, zone: seq<DNSRecord>): set<Key> {
    TargetKeys(zone, DesiredRecords(x.st.records), Removal(x.op), x.cfg.ownAll)
  }

  /** The zone once the plan for it is carried out. */
  function CarriedOut(x: Actor, zone: seq<DNSRecord>): seq<DNSRecord> {
    if PlanFor(x, zone).diff.Changed() then NeverEmpty(x.cfg, PlanFor(x, zone).payload) else zone
  }

  /** Carrying out the plan makes the zone's challenge keys the wanted ones; it is called for iff they differ. */
  lemma PlanReaches(x: Actor, zone: seq<DNSRecord>)
    requires AllChallenge(x.st.records)
    ensures var after := CarriedOut(x, zone);
      && ChallengeKeys(after) == Wanting(x, zone)
      && StoredKeys(x.st.records) <= ChallengeKeys(after)
      && (x.cfg.ownAll ==> ChallengeKeys(after) == StoredKeys(x.st.records))
      && (Own(after) == Own(zone) || (Own(zone) == [] && after == [Placeholder(x.cfg.zone, x.cfg.stamp)]))
      && (PlanFor(x, zone).diff.Changed() <==> ChallengeKeys(zone) != Wanting(x, zone))
  {
    var ds := DesiredRecords(x.st.records);
    DesiredMeaning(x.st.records);
    PayloadMeaning(zone, ds, Removal(x.op), x.cfg.ownAll);
    DiffExact(zone, ds, Removal(x.op), x.cfg.ownAll);
    PlaceholderAddsNoKey(x.cfg, PlanFor(x, zone).payload);
  }

  /** What is stored and what the zone holds after a request that converged. */
  predicate Converged(s0: State, s: State, x: Actor) {
    && StoredState(s.cm).records == x.st.records == Target(s0, x)
    && Zone(s) == CarriedOut(x, Zone(s0))
    && ChallengeKeys(Zone(s)) == Wanting(x, Zone(s0))
    && StoredKeys(x.st.records) <= ChallengeKeys(Zone(s))
    && (x.cfg.ownAll ==> ChallengeKeys(Zone(s)) == StoredKeys(x.st.records))
    && (Own(Zone(s)) == Own(Zone(s0)) ||
        (Own(Zone(s0)) == [] && Zone(s) == [Placeholder(x.cfg.zone, x.cfg.stamp)]))
  }

  /**
    Convergence from any zone and any stored state: once a quiet request is done,
    the stored records are the unexpired ones with its mutation applied, as of its own
    clock while it ran; the zone's challenge keys are the wanted ones, with
    OwnAcmeRecords exactly the stored ones; its own records are untouched except for a
    possible placeholder; and the lock is free again.
   */
  lemma Converges(s0: State, ls: seq<Label>, s: State, a: Id)
    requires Ready(s0, a) && Exec(s0, ls) == Some(s) && QuietRun(s0, ls, a)
    requires a in s.actors && s.actors[a].pc.Done?
    requires ChallengeOp(s0.actors[a].op) && AllChallenge(StoredState(s0.cm).records)
    ensures (s.actors[a].pc.result.Written? || s.actors[a].pc.result.InSync?) && Converged(s0, s, s.actors[a])
    ensures s.lease.Some? && s.lease.value.holder == NOBODY
    ensures InTime(s0.actors[a].clock, s.actors[a])
  {
    TrackRun(s0, ls, s, a);
    StampRun(s0, ls, s, a);
    var x := s.actors[a];
    MutatedAllChallenge(x.op, StoredState(s0.cm).records, x.cutoff, x.at);
    PlanReaches(x, Zone(s0));
  }

  lemma {:induction false} NothingExpires(rs: seq<Record>, cutoff: int)
    requires forall r | r in rs :: !IsExpired(r, cutoff)
    ensures Unexpired(rs, cutoff) == rs
  {
    if rs != [] {
      FrontLast(rs);
      NothingExpires(Front(rs), cutoff);
    }
  }

  /** A sweep of a zone in sync, at which nothing expires, uploads nothing and keeps the records. */
  lemma SecondSweepIsIdle(s0: State, ls: seq<Label>, s: State, a: Id)
    requires Ready(s0, a) && Exec(s0, ls) == Some(s) && QuietRun(s0, ls, a)
    requires a in s.actors && s.actors[a].pc.Done?
    requires s0.actors[a].cfg.ownAll && s0.actors[a].op.Sweep? && AllChallenge(StoredState(s0.cm).records)
    requires ChallengeKeys(Zone(s0)) == StoredKeys(StoredState(s0.cm).records)
    requires forall r | r in StoredState(s0.cm).records :: !IsExpired(r, s.actors[a].cutoff)
    ensures s.actors[a].pc.result.InSync? && s.puts == s0.puts && s.zones == s0.zones
    ensures StoredState(s.cm).records == StoredState(s0.cm).records
    ensures InTime(s0.actors[a].clock, s.actors[a])
  {
    TrackRun(s0, ls, s, a);
    StampRun(s0, ls, s, a);
    var x := s.actors[a];
    NothingExpires(StoredState(s0.cm).records, x.cutoff);
    PlanReaches(x, Zone(s0));
  }
}
