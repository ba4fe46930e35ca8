/**
  Where the guarantee ends.  A writer that stalls between its last check and its PUT
  until its lease is over removes a record that another writer has stored and uploaded
  since; the serial check does not stop it.
 */
module LateWriter {
  import opened Base
  import opened Records
  import opened Payload
  import opened Desired
  import opened Register
  import opened Protocol
  import opened LeaseProofs
  import opened TraceProofs
  import opened StoreProofs
  import opened Overwrites
  import opened Convergence

  // ----- putting quiet runs together -----

  /** A quiet run without waiting leaves all clocks, and everybody else, where they are. */
  lemma {:induction false} OthersWait(s: State, ls: seq<Label>, t: State, a: Id)
    requires Exec(s, ls) == Some(t) && QuietRun(s, ls, a) && a in s.actors
    requires forall i | 0 <= i < |ls| :: Still(ls[i])
    ensures t.actors.Keys == s.actors.Keys
    ensures forall b | b in s.actors :: SameClock(s.actors[b], t.actors[b])
    ensures forall b | b in s.actors && b != a :: t.actors[b] == s.actors[b]
    decreases |ls|
  {
    if ls != [] {
      StepTaken(s, ls, t);
      var p := Exec(s, Front(ls)).value;
      OthersWait(s, Front(ls), p, a);
      StillStep(p, Last(ls), a);
    }
  }

  predicate SameClock(x: Actor, y: Actor) {
    y.clock == x.clock && y.start == x.start && y.cfg == x.cfg
  }

  lemma StillStep(s: State, l: Label, a: Id)
    requires Enabled(s, l) && Quiet(s, l, a) && Still(l) && a in s.actors
    ensures Effect(s, l).actors.Keys == s.actors.Keys
    ensures forall b | b in s.actors :: SameClock(s.actors[b], Effect(s, l).actors[b])
    ensures forall b | b in s.actors && b != a :: Effect(s, l).actors[b] == s.actors[b]
  {
    if !l.Tick? {
      StillMover(s, l);
    }
  }

  lemma StillMover(s: State, l: Label)
    requires Enabled(s, l) && !l.Edit? && !l.Spawn? && !l.Poll? && !l.Tick?
    ensures SameClock(s.actors[l.a], Mover(s, l))
  {
  }

  /** Such a run is punctual if it starts so. */
  lemma {:induction false} StillIsPunctual(s: State, ls: seq<Label>, t: State, a: Id, d: int, budget: int)
    requires Exec(s, ls) == Some(t) && QuietRun(s, ls, a) && a in s.actors
    requires forall i | 0 <= i < |ls| :: Still(ls[i])
    requires Skewed(s, d) && InBudget(s.actors[a], budget)
    ensures PunctualRun(s, ls, d, budget)
    decreases |ls|
  {
    if ls != [] {
      StepTaken(s, ls, t);
      var p := Exec(s, Front(ls)).value;
      StillIsPunctual(s, Front(ls), p, a, d, budget);
      OthersWait(s, Front(ls), p, a);
      assert Skewed(p, d) && InBudget(p.actors[a], budget);
    }
  }

  lemma {:induction false} PunctualConcat(
    s: State, ls: seq<Label>, t: State, more: seq<Label>, u: State, d: int, budget: int)
    requires Exec(s, ls) == Some(t) && PunctualRun(s, ls, d, budget)
    requires Exec(t, more) == Some(u) && PunctualRun(t, more, d, budget)
    ensures Exec(s, ls + more) == Some(u) && PunctualRun(s, ls + more, d, budget)
    decreases |more|
  {
    if more == [] {
      assert ls + more == ls;
    } else {
      var v := PunctualTaken(t, more, u, d, budget);
      PunctualConcat(s, ls, t, Front(more), v, d, budget);
      PunctualSnoc(s, ls + Front(more), v, Last(more), d, budget);
      Regroup(ls, more);
    }
  }

  lemma PunctualTaken(s: State, ls: seq<Label>, t: State, d: int, budget: int) returns (p: State)
    requires ls != [] && Exec(s, ls) == Some(t) && PunctualRun(s, ls, d, budget)
    ensures Exec(s, Front(ls)) == Some(p) && PunctualRun(s, Front(ls), d, budget)
    ensures Enabled(p, Last(ls)) && Punctual(p, Last(ls), d, budget) && t == Effect(p, Last(ls))
  {
    p := Exec(s, Front(ls)).value;
  }

  lemma PunctualSnoc(s: State, ls: seq<Label>, t: State, l: Label, d: int, budget: int)
    requires Exec(s, ls) == Some(t) && PunctualRun(s, ls, d, budget)
    requires Enabled(t, l) && Punctual(t, l, d, budget)
    ensures Exec(s, ls + [l]) == Some(Effect(t, l)) && PunctualRun(s, ls + [l], d, budget)
  {
    ExecSnoc(s, ls, l);
    Snoc(ls, l);
  }

  /** Extends a punctual run by a step that is neither Load nor PUT, or is on time. */
  lemma ThenPunctual(s0: State, ls: seq<Label>, s: State, l: Label, d: int, budget: int)
    returns (ls': seq<Label>, s': State)
    requires Run(s0, ls, s) && Enabled(s, l) && PunctualRun(s0, ls, d, budget) && Punctual(s, l, d, budget)
    ensures ls' == ls + [l] && s' == Effect(s, l) && Run(s0, ls', s') && PunctualRun(s0, ls', d, budget)
  {
    ls', s' := Then(s0, ls, s, l);
    PunctualSnoc(s0, ls, s, l, d, budget);
  }

  // ----- on the way to the PUT -----

  /** The request's record is not in the zone, so it has to upload. */
  predicate MustUpload(s0: State, a: Id) {
    && Ready(s0, a)
    && s0.actors[a].op.Present? && ChallengeOp(s0.actors[a].op) && AllChallenge(StoredState(s0.cm).records)
    && Key(s0.actors[a].op.name, s0.actors[a].op.value) !in ChallengeKeys(Zone(s0))
  }

  lemma PlanIsUpload(s0: State, a: Id, x: Actor)
    requires MustUpload(s0, a) && x.cfg == s0.actors[a].cfg && x.op == s0.actors[a].op
    requires x.st.records == Target(s0, x)
    ensures PlanFor(x, Zone(s0)).diff.Changed()
  {
    MutatedAllChallenge(x.op, StoredState(s0.cm).records, x.cutoff, x.at);
    PresentLists(x.op, Unexpired(StoredState(s0.cm).records, x.cutoff), x.at);
    PlanReaches(x, Zone(s0));
  }

  /** It does not let go of the lock before it has come to its PUT. */
  lemma NotYetReleased(s0: State, s: State, a: Id)
    requires MustUpload(s0, a) && OnTrack(s0, s, a) && s.puts == s0.puts
    ensures CallsLeft(s.actors[a].pc) >= 4
  {
    var x := s.actors[a];
    if x.pc.Releasing? || x.pc.Clearing? || x.pc.Done? {
      PlanIsUpload(s0, a, x);
    }
  }

  /** A call before the PUT is no upload. */
  lemma BeforePut(s: State, a: Id)
    requires a in s.actors && CallsLeft(s.actors[a].pc) > 4 && Enabled(s, NextCall(s, a))
    ensures Effect(s, NextCall(s, a)).puts == s.puts && a in Effect(s, NextCall(s, a)).actors
    ensures Effect(s, NextCall(s, a)).actors[a] == Mover(s, NextCall(s, a)) && Still(NextCall(s, a))
  {
  }

  /** A quiet run of `a` that has not uploaded. */
  ghost predicate OnTheWay(s0: State, ls: seq<Label>, s: State, a: Id) {
    Exec(s0, ls) == Some(s) && QuietRun(s0, ls, a) && a in s.actors && s.puts == s0.puts
  }

  /** One more call on the way. */
  lemma OneCall(s0: State, ls: seq<Label>, s: State, a: Id) returns (l: Label, t: State)
    requires MustUpload(s0, a) && OnTheWay(s0, ls, s, a) && !s.actors[a].pc.Putting?
    ensures OnTheWay(s0, ls + [l], t, a) && Still(l)
    ensures CallsLeft(t.actors[a].pc) < CallsLeft(s.actors[a].pc)
  {
    TrackRun(s0, ls, s, a);
    NotYetReleased(s0, s, a);
    l, t := QuietCall(s0, ls, s, a);
    BeforePut(s, a);
  }

  /** Left alone until then, it comes to its PUT. */
  lemma {:induction false} ReachesPut(s0: State, ls: seq<Label>, s: State, a: Id) returns (more: seq<Label>, t: State)
    requires MustUpload(s0, a) && OnTheWay(s0, ls, s, a)
    ensures OnTheWay(s0, more, t, a) && t.actors[a].pc.Putting? && ls <= more
    ensures forall i | |ls| <= i < |more| :: Still(more[i])
    decreases CallsLeft(s.actors[a].pc)
  {
    if s.actors[a].pc.Putting? {
      more, t := ls, s;
    } else {
      var l, u := OneCall(s0, ls, s, a);
      more, t := ReachesPut(s0, ls + [l], u, a);
      assert more[|ls|] == l;
    }
  }

  // ----- the first writer -----

  /** Settings under which a request can succeed at all. */
  predicate Usable(cfg: Config) {
    GoodConfig(cfg) && (cfg.serialRequired ==> cfg.serialCheck)
  }

  /** A request to present a challenge record, with a key reference. */
  predicate Presenting(op: Op) {
    op.Present? && ChallengeOp(op) && op.secret.name != ""
  }

  /** A new request finds the lock free. */
  lemma StartOf(s: State, a: Id, cfg: Config, op: Op, clock: int)
    requires Enabled(s, Spawn(a, cfg, op, clock)) && s.zones != []
    requires Presenting(op) && Usable(cfg) && Free(s, clock)
    ensures var t := Effect(s, Spawn(a, cfg, op, clock));
      && Ready(t, a) && t.puts == s.puts && t.cm == s.cm && t.zones == s.zones
      && t.actors == s.actors[a := Newborn(cfg, op, clock)]
  {
  }

  /** A cluster in which nothing has happened yet. */
  function Blank(): State {
    State(map[], None, None, [ZoneVersion([], 0)], [], [], 0)
  }

  /** The first writer: everything done but its PUT, at time 0. */
  lemma Stalled(cfg: Config, op: Op, d: nat, budget: nat) returns (ls: seq<Label>, s: State)
    requires Usable(cfg) && Presenting(op)
    ensures Run(Blank(), ls, s) && PunctualRun(Blank(), ls, d, budget)
    ensures s.zones == Blank().zones && s.puts == [] && s.actors.Keys == {1} && IsHolder(s, 1)
    ensures AboutToPut(s.actors[1], cfg, op) && s.actors[1].clock == s.actors[1].start == 0
    ensures s.actors[1].before == TrueSerial(s, s.actors[1])
    ensures |ls| >= 1 && ls[0] == Spawn(1, cfg, op, 0) && QuietRun(Effect(Blank(), ls[0]), ls[1..], 1)
  {
    var l := Spawn(1, cfg, op, 0);
    var first, s1 := ThenPunctual(Blank(), [], Blank(), l, d, budget);
    StartOf(Blank(), 1, cfg, op, 0);
    var more;
    more, s := FirstRun(s1, cfg, op);
    StillIsPunctual(s1, more, s, 1, d, budget);
    PunctualConcat(Blank(), first, s1, more, s, d, budget);
    ls := first + more;
    assert ls[1..] == more;
  }

  /** It runs undisturbed up to its PUT. */
  lemma FirstRun(s1: State, cfg: Config, op: Op) returns (more: seq<Label>, s: State)
    requires Ready(s1, 1) && s1.cm.None? && Zone(s1) == [] && Presenting(op)
    requires s1.actors.Keys == {1} && s1.actors[1].cfg == cfg && s1.actors[1].op == op
    ensures Exec(s1, more) == Some(s) && QuietRun(s1, more, 1) && forall i | 0 <= i < |more| :: Still(more[i])
    ensures s.zones == s1.zones && s.puts == s1.puts && s.actors.Keys == {1} && IsHolder(s, 1)
    ensures AboutToPut(s.actors[1], cfg, op) && SameClock(s1.actors[1], s.actors[1])
    ensures s.actors[1].before == TrueSerial(s, s.actors[1])
  {
    more, s := ReachesPut(s1, [], s1, 1);
    OthersWait(s1, more, s, 1);
    TrackRun(s1, more, s, 1);
    StoredOne(s1, s, 1, op);
  }

  /** Past all checks, with a payload of one challenge record and nothing else. */
  predicate AboutToPut(x: Actor, cfg: Config, op: Op)
    requires op.Present?
  {
    && x.pc.Putting? && x.cfg == cfg
    && ChallengeKeys(x.payload) == {Key(op.name, op.value)} && Own(x.payload) == []
  }

  /** Starting from nothing, a Present uploads exactly its own record. */
  lemma StoredOne(s0: State, s: State, a: Id, op: Op)
    requires a in s.actors && OnTrack(s0, s, a) && s.actors[a].pc.Putting?
    requires s0.cm.None? && Zone(s0) == [] && s0.actors[a].op == op && op.Present? && ChallengeOp(op)
    ensures AboutToPut(s.actors[a], s0.actors[a].cfg, op)
  {
    var x := s.actors[a];
    assert StoredState(s0.cm).records == [];
    assert x.st.records == Target(s0, x);
    FirstRecord(op, x.cutoff, x.at);
    OneRecord(x, Key(op.name, op.value));
  }

  lemma OneRecord(x: Actor, k: Key)
    requires AllChallenge(x.st.records) && StoredKeys(x.st.records) == {k}
    ensures var p := NeverEmpty(x.cfg, PlanFor(x, []).payload); ChallengeKeys(p) == {k} && Own(p) == []
  {
    DesiredMeaning(x.st.records);
    PayloadMeaning([], DesiredRecords(x.st.records), Removal(x.op), x.cfg.ownAll);
    assert TargetKeys([], DesiredRecords(x.st.records), Removal(x.op), x.cfg.ownAll) == {k};
    NoRecords(PlanFor(x, []).payload);
  }

  lemma FirstRecord(op: Op, cutoff: int, at: int)
    requires op.Present? && ChallengeOp(op)
    ensures var rs := Mutated(op, Unexpired([], cutoff), at);
      AllChallenge(rs) && StoredKeys(rs) == {Key(op.name, op.value)}
  {
    var r := Record(op.name, op.value, op.ttl, at, op.uid, op.dnsName);
    var rs := Mutated(op, Unexpired([], cutoff), at);
    assert rs == [r] && rs[0] == r && RecordKey(r) == Key(op.name, op.value);
  }

  // ----- the second writer -----

  /** It takes over a lock that is over by its clock and runs to its end while the first one stands still. */
  lemma Overtaken(s0: State, ls0: seq<Label>, s1: State, cfg: Config, op: Op, clock: int, d: int, budget: nat)
    returns (ls: seq<Label>, s: State)
    requires Run(s0, ls0, s1) && PunctualRun(s0, ls0, d, budget)
    requires s1.zones != [] && s1.actors.Keys == {1} && IsHolder(s1, 1) && Free(s1, clock)
    requires Usable(cfg) && Presenting(op) && -d <= clock - s1.actors[1].clock <= d
    ensures Run(s0, ls, s) && PunctualRun(s0, ls, d, budget)
    ensures s.actors.Keys == {1, 2} && s.actors[1] == s1.actors[1]
    ensures SameClock(Newborn(cfg, op, clock), s.actors[2])
    ensures s.zones != [] && Key(op.name, op.value) in StoredKeys(StoredState(s.cm).records)
    ensures StoredKeys(StoredState(s.cm).records) <= ChallengeKeys(Zone(s))
  {
    var l := Spawn(2, cfg, op, clock);
    var first, s2 := ThenPunctual(s0, ls0, s1, l, d, budget);
    StartOf(s1, 2, cfg, op, clock);
    SerializedIntents(s0, first, s2);
    var more;
    more, s := SecondRun(s2, op);
    StillIsPunctual(s2, more, s, 2, d, budget);
    PunctualConcat(s0, first, s2, more, s, d, budget);
    ls := first + more;
  }

  /** It runs undisturbed to its end. */
  lemma SecondRun(s2: State, op: Op) returns (more: seq<Label>, s: State)
    requires Ready(s2, 2) && AllChallenge(StoredState(s2.cm).records) && Presenting(op) && s2.actors[2].op == op
    ensures Exec(s2, more) == Some(s) && QuietRun(s2, more, 2) && forall i | 0 <= i < |more| :: Still(more[i])
    ensures s.actors.Keys == s2.actors.Keys && SameClock(s2.actors[2], s.actors[2])
    ensures forall b | b in s2.actors && b != 2 :: s.actors[b] == s2.actors[b]
    ensures s.zones != [] && Key(op.name, op.value) in StoredKeys(StoredState(s.cm).records)
    ensures StoredKeys(StoredState(s.cm).records) <= ChallengeKeys(Zone(s))
  {
    more, s := QuietFinishes(s2, [], s2, 2);
    OthersWait(s2, more, s, 2);
    TrackRun(s2, more, s, 2);
    Converges(s2, more, s, 2);
    PresentLists(op, Unexpired(StoredState(s2.cm).records, s.actors[2].cutoff), s.actors[2].at);
  }

  /** The upload takes `k` out of the zone, where it was, although it is stored. */
  predicate Loses(s: State, p: Put, k: Key) {
    && p.over + 1 < |s.zones| && s.zones[p.over + 1].records == p.writer.payload
    && k in StoredKeys(p.stored.records) && k in ChallengeKeys(s.zones[p.over].records)
    && k !in ChallengeKeys(p.writer.payload)
  }

  /** Everybody runs with these settings. */
  ghost predicate AllUse(s: State, cfg: Config) {
    forall a | a in s.actors :: s.actors[a].cfg == cfg
  }

  /**
    "No write may lose a challenge record that is still needed" fails as soon as budget
    and skew together exceed the lease: for any settings, the serial check included, and
    any two records, some run within that skew, with both requests within that budget,
    has an upload remove a record that is stored and was in the zone.
   */
  lemma LateWriterLosesRecord(cfg: Config, op1: Op, op2: Op, d: nat, budget: nat)
    returns (ls: seq<Label>, s: State)
    requires Usable(cfg) && Presenting(op1) && Presenting(op2)
    requires Key(op1.name, op1.value) != Key(op2.name, op2.value)
    requires budget + d > cfg.seconds * SECOND
    ensures Run(Blank(), ls, s) && PunctualRun(Blank(), ls, d, budget)
    ensures AllUse(s, cfg) && Skewed(s, d) && forall a | a in s.actors :: InBudget(s.actors[a], budget)
    ensures s.puts != [] && Loses(s, Last(s.puts), Key(op2.name, op2.value))
  {
    ls, s := Stalled(cfg, op1, d, budget);
    ls, s := Delayed(Blank(), ls, s, cfg, d, budget);
    ls, s := Overtaken(Blank(), ls, s, cfg, op2, budget + d, d, budget);
    WithinBounds(s, cfg, op2, d, budget);
    ls, s := FirstWriterPuts(Blank(), ls, s, cfg, op1, op2, d, budget);
  }

  /** The first writer uses up its budget; its lease is over for a clock ahead by the skew. */
  lemma Delayed(s0: State, ls0: seq<Label>, t: State, cfg: Config, d: nat, budget: nat)
    returns (ls: seq<Label>, s: State)
    requires Run(s0, ls0, t) && PunctualRun(s0, ls0, d, budget)
    requires t.zones != [] && t.actors.Keys == {1} && IsHolder(t, 1) && t.actors[1].cfg == cfg
    requires t.actors[1].clock == t.actors[1].start == 0 && budget + d > cfg.seconds * SECOND
    ensures Run(s0, ls, s) && PunctualRun(s0, ls, d, budget)
    ensures s == With(t, 1, t.actors[1].(clock := budget)) && Free(s, budget + d)
  {
    HolderRecorded(s0, ls0, t, 1);
    ls, s := ThenPunctual(s0, ls0, t, Tick(1, budget), d, budget);
    assert s == With(t, 1, t.actors[1].(clock := budget));
  }

  lemma WithinBounds(s: State, cfg: Config, op: Op, d: nat, budget: nat)
    requires s.actors.Keys == {1, 2} && s.actors[1].cfg == cfg
    requires s.actors[1].start == 0 && s.actors[1].clock == budget
    requires SameClock(Newborn(cfg, op, budget + d), s.actors[2])
    ensures AllUse(s, cfg) && Skewed(s, d) && forall a | a in s.actors :: InBudget(s.actors[a], budget)
  {
  }

  /** The first writer's PUT, which is all that is left. */
  lemma FirstWriterPuts(s0: State, ls0: seq<Label>, t: State, cfg: Config, op1: Op, op2: Op, d: int, budget: int)
    returns (ls: seq<Label>, s: State)
    requires op1.Present? && op2.Present? && Key(op1.name, op1.value) != Key(op2.name, op2.value)
    requires Run(s0, ls0, t) && PunctualRun(s0, ls0, d, budget) && t.zones != []
    requires AllUse(t, cfg) && Skewed(t, d) && 1 in t.actors
    requires forall a | a in t.actors :: InBudget(t.actors[a], budget)
    requires AboutToPut(t.actors[1], cfg, op1)
    requires Key(op2.name, op2.value) in StoredKeys(StoredState(t.cm).records)
    requires StoredKeys(StoredState(t.cm).records) <= ChallengeKeys(Zone(t))
    ensures Run(s0, ls, s) && PunctualRun(s0, ls, d, budget)
    ensures AllUse(s, cfg) && Skewed(s, d) && forall a | a in s.actors :: InBudget(s.actors[a], budget)
    ensures s.puts != [] && Loses(s, Last(s.puts), Key(op2.name, op2.value))
  {
    var l := Label.Upload(1, Deliver, 0);
    ls, s := ThenPunctual(s0, ls0, t, l, d, budget);
    StillMover(t, l);
    assert s.actors == t.actors[1 := Mover(t, l)];
  }

  // ----- the exact condition -----

  /** With these settings, whatever happens within skew and budget, no upload misses a stored key. */
  ghost predicate Guaranteed(cfg: Config, d: int, budget: int) {
    forall s0, ls, s, i: nat ::
      Run(s0, ls, s) && PunctualRun(s0, ls, d, budget) && AllUse(s, cfg) && i < |s.puts| ==>
        StoredKeys(s.puts[i].stored.records) <= ChallengeKeys(s.puts[i].writer.payload)
  }

  /**
    The exact condition under which no write loses a needed record, one the operator can
    check: the time a request may take plus the clock skew fit into the lease duration.
   */
  lemma GuaranteeIsExact(cfg: Config, d: nat, budget: nat)
    requires Usable(cfg)
    ensures Guaranteed(cfg, d, budget) <==> budget + d <= cfg.seconds * SECOND
  {
    if budget + d <= cfg.seconds * SECOND {
      forall s0, ls, s, i: nat
        | Run(s0, ls, s) && PunctualRun(s0, ls, d, budget) && AllUse(s, cfg) && i < |s.puts|
        ensures StoredKeys(s.puts[i].stored.records) <= ChallengeKeys(s.puts[i].writer.payload)
      {
        PunctualUploadsMatchStore(s0, ls, s, i, d, budget);
      }
    } else {
      var secret := SecretRef("", "s", "");
      var op1 := Op.Present(CHALLENGE_PREFIX, "1", 0, "", "", secret);
      var op2 := Op.Present(CHALLENGE_PREFIX, "2", 0, "", "", secret);
      var ls, s := LateWriterLosesRecord(cfg, op1, op2, d, budget);
      assert Loses(s, s.puts[|s.puts| - 1], Key(CHALLENGE_PREFIX, "2"));
    }
  }
}
