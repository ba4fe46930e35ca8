/** The three operations: Present, CleanUp, and Sweep over every zone with state. */
module Requests {
  import opened Base
  import opened Records
  import opened Payload
  import opened PlainPayload
  import opened PlainRuns
  import opened Outcomes
  import opened Names
  import opened Desired
  import opened Register
  import opened Protocol
  import opened LeaseProofs
  import opened TraceProofs
  import opened StoreProofs
  import opened Stamps
  import opened Convergence
  import opened World
  import opened Reconciler

  /** What cert-manager asks for: a record, in its own spelling of zone and name. */
  datatype Request = Request(
    zone: string, name: string, value: string, ttl: int, uid: string, dnsName: string, secret: SecretRef)

  /** The key both operations use for a request, whatever its spelling. */
  function RequestKey(req: Request): Key {
    Key(AbsoluteName(req.name, req.zone), req.value)
  }

  /** The name, or for the apex the zone, is or starts with the challenge label. */
  predicate NamesChallenge(req: Request) {
    var n, z := TrimDot(req.name), TrimDot(req.zone);
    if n == "" || n == "@" then UnderLabel(z) else UnderLabel(n)
  }

  /** Exactly such requests are for a challenge record of the zone. */
  lemma RequestIsChallenge(req: Request)
    ensures CHALLENGE_PREFIX <= RequestKey(req).name <==> NamesChallenge(req)
  {
    AbsoluteIsChallenge(req.name, req.zone);
  }

  /** A request that finds the cluster alone and the lock free: what it needs to succeed. */
  ghost predicate Undisturbed(w: Cluster, me: Id, cfg: Config, op: Op, clock: int)
    reads w
  {
    && w.script == [] && Init(w.origin)
    && (cfg.serialRequired ==> cfg.serialCheck)
    && Free(w.state, clock)
    && Secret(op, StoredState(w.state.cm).secret).name != ""
  }

  /** Runs one operation as a new actor. */
  method Operate(r: Reconciler, w: Cluster, me: Id, op: Op, zone: string, clock: int, stamp: string)
    returns (out: Outcome)
    requires r.Valid() && w.Valid()
    requires Enabled(w.state, Spawn(me, r.Settings(TrimDot(zone), stamp), op, clock))
    modifies w
    ensures w.Valid() && w.origin == old(w.origin) && old(w.trace) <= w.trace
    ensures me in w.state.actors && w.state.actors[me].pc == Done(out) && w.state.actors[me].op == op
    ensures Init(w.origin) ==>
      (out.Written? <==>
        exists i | 0 <= i < |w.trace| :: w.trace[i].Upload? && w.trace[i].a == me && w.trace[i].reply.Deliver?)
    ensures Init(w.origin) ==>
      (exists i | 0 <= i < |w.trace| :: w.trace[i].Upload? && w.trace[i].a == me && !w.trace[i].reply.Deliver?) ==>
        out.Failed?
    ensures Init(w.origin) ==> Decided(w.origin, w.trace, me, out)
    ensures Init(w.origin) ==> LogOk(w.state.actors[me])
    ensures var s0, s := old(w.state), w.state;
      old(Undisturbed(w, me, r.Settings(TrimDot(zone), stamp), op, clock)) ==>
        && (out.Written? || out.InSync?)
        && Converged(s0, s, s.actors[me]) && InTime(clock, s.actors[me])
    ensures w.state.actors[me].cfg == r.Settings(TrimDot(zone), stamp)
  {
    Arrive(r, w, me, op, zone, clock, stamp);
    out := r.Reconcile(w, me, op, TrimDot(zone), stamp);
  }

  /** The request arrives, and if it is undisturbed, is ready. */
  method Arrive(r: Reconciler, w: Cluster, me: Id, op: Op, zone: string, clock: int, stamp: string)
    requires r.Valid() && w.Valid()
    requires Enabled(w.state, Spawn(me, r.Settings(TrimDot(zone), stamp), op, clock))
    modifies w
    ensures r.Runs(w, me) && w.origin == old(w.origin) && old(w.trace) <= w.trace && w.state.actors[me].pc.Entering?
    ensures w.state.actors[me] == Newborn(r.Settings(TrimDot(zone), stamp), op, clock)
    ensures w.state.cm == old(w.state.cm) && w.state.zones == old(w.state.zones)
    ensures old(Undisturbed(w, me, r.Settings(TrimDot(zone), stamp), op, clock)) ==>
      && w.calm && w.calmFor == me && w.calmFrom == w.state && Ready(w.state, me)
      && AllChallenge(StoredState(w.state.cm).records)
  {
    var cfg := r.Settings(TrimDot(zone), stamp);
    w.Begin(me, cfg, op, clock);
    w.Watch(me);
    if old(Undisturbed(w, me, cfg, op, clock)) {
      UndisturbedBegin(old(w.origin), old(w.trace), old(w.state), w.state, me, cfg, op, clock);
    }
  }

  lemma UndisturbedBegin(s0: State, ls: seq<Label>, s: State, t: State, me: Id, cfg: Config, op: Op, clock: int)
    requires Run(s0, ls, s) && s.zones != []
    requires Enabled(s, Spawn(me, cfg, op, clock)) && t == Effect(s, Spawn(me, cfg, op, clock))
    requires (cfg.serialRequired ==> cfg.serialCheck) && Free(s, clock)
      && Secret(op, StoredState(s.cm).secret).name != ""
    ensures Ready(t, me) && AllChallenge(StoredState(t.cm).records)
    ensures t.cm == s.cm && t.zones == s.zones
  {
    SerializedIntents(s0, ls, s);
  }

  /**
    Present.  Every run of it is a run of the protocol; left alone it ends with the
    record in the zone.
   */
  method Present(r: Reconciler, w: Cluster, me: Id, req: Request, clock: int, stamp: string) returns (out: Outcome)
    requires r.Valid() && w.Valid() && NamesChallenge(req)
    requires me !in w.state.actors && me != NOBODY && (w.state.lease.Some? ==> w.state.lease.value.holder != me)
    modifies w
    ensures w.Valid() && w.origin == old(w.origin) && old(w.trace) <= w.trace
    ensures me in w.state.actors && w.state.actors[me].pc == Done(out)
    ensures w.state.actors[me].op ==
      Op.Present(AbsoluteName(req.name, req.zone), req.value, req.ttl, req.uid, req.dnsName, req.secret)
    ensures Init(w.origin) ==>
      (out.Written? <==>
        exists i | 0 <= i < |w.trace| :: w.trace[i].Upload? && w.trace[i].a == me && w.trace[i].reply.Deliver?)
    ensures Init(w.origin) ==>
      (exists i | 0 <= i < |w.trace| :: w.trace[i].Upload? && w.trace[i].a == me && !w.trace[i].reply.Deliver?) ==>
        out.Failed?
    ensures Init(w.origin) ==> Decided(w.origin, w.trace, me, out)
    ensures Init(w.origin) ==> LogOk(w.state.actors[me])
    ensures var op := w.state.actors[me].op;
      old(Undisturbed(w, me, r.Settings(TrimDot(req.zone), stamp), op, clock)) ==>
        && (out.Written? || out.InSync?)
        && Lists(Zone(w.state), AbsoluteName(req.name, req.zone), req.value)
        && (!Lists(Zone(old(w.state)), AbsoluteName(req.name, req.zone), req.value) ==>
              DNSRecord("TXT", AbsoluteName(req.name, req.zone), req.value, req.ttl) in Zone(w.state))
  {
    RequestIsChallenge(req);
    var op := Op.Present(AbsoluteName(req.name, req.zone), req.value, req.ttl, req.uid, req.dnsName, req.secret);
    out := Operate(r, w, me, op, req.zone, clock, stamp);
    if old(Undisturbed(w, me, r.Settings(TrimDot(req.zone), stamp), op, clock)) {
      PresentedAlone(old(w.origin), old(w.trace), old(w.state), w.state, w.state.actors[me]);
    }
  }

  /** A Present left alone: the record is in the zone, and if it is new there, with the TTL of the request. */
  lemma PresentedAlone(s0: State, ls: seq<Label>, was: State, s: State, x: Actor)
    requires Run(s0, ls, was) && Converged(was, s, x) && x.op.Present? && "_acme-challenge." <= x.op.name
    ensures Lists(Zone(s), x.op.name, x.op.value)
    ensures !Lists(Zone(was), x.op.name, x.op.value) ==>
      DNSRecord("TXT", x.op.name, x.op.value, x.op.ttl) in Zone(s)
  {
    SerializedIntents(s0, ls, was);
    RecordsAreRegisters(was.commits, Key("", ""));
    var rs := StoredState(was.cm).records;
    MutatedAllChallenge(x.op, rs, x.cutoff, x.at);
    CommitOfCell(Commit(x.op, x.cutoff, x.at), StoredState(was.cm), Key("", ""));
    PresentLists(x.op, Unexpired(rs, x.cutoff), x.at);
    ListsIsKey(Zone(s), x.op.name, x.op.value);
    if !Lists(Zone(was), x.op.name, x.op.value) {
      PresentedWithTTL(was, s, x);
    }
  }

  /**
    What is left of a key that is not among the challenge keys of a zone: nothing for a
    name under the challenge label, and for any other what there was before.
   */
  lemma OnlyChallengesGo(before: seq<DNSRecord>, after: seq<DNSRecord>, name: string, value: string)
    requires Key(name, value) !in ChallengeKeys(after)
    ensures "_acme-challenge." <= name ==> !Lists(after, name, value)
    ensures !("_acme-challenge." <= name) && Own(after) == Own(before) ==>
      (Lists(after, name, value) <==> Lists(before, name, value))
  {
    if "_acme-challenge." <= name {
      ListsIsKey(after, name, value);
    } else if Own(after) == Own(before) {
      forall r: DNSRecord | r.name == name ensures r in after <==> r in before {
        Partition(before);
        Partition(after);
        assert r in after <==> r in Own(after);
        assert r in before <==> r in Own(before);
      }
    }
  }

  /** A record outside the challenge label survives its own CleanUp: the run in which it does. */
  lemma CleanUpKeepsOthers(r: DNSRecord, ownAll: bool)
    requires r.typ == "TXT" && !IsChallengeRecord(r)
    ensures var u := Compute([r], [], [KeyOf(r)], ownAll); u.payload == [r] && !u.diff.Changed()
  {
    var one := [r];
    assert Front(one) == [] && Last(one) == r;
    assert Scan(one, map[], SetOf([KeyOf(r)]), ownAll).payload == one;
  }

  /**
    CleanUp.  Left alone it leaves no record of the key iff the name is under the
    challenge label, or there was none; other records it does not touch.
   */
  method CleanUp(r: Reconciler, w: Cluster, me: Id, req: Request, clock: int, stamp: string) returns (out: Outcome)
    requires r.Valid() && w.Valid()
    requires me !in w.state.actors && me != NOBODY && (w.state.lease.Some? ==> w.state.lease.value.holder != me)
    modifies w
    ensures w.Valid() && w.origin == old(w.origin) && old(w.trace) <= w.trace
    ensures me in w.state.actors && w.state.actors[me].pc == Done(out)
    ensures w.state.actors[me].op == Op.CleanUp(AbsoluteName(req.name, req.zone), req.value, req.secret)
    ensures Init(w.origin) ==>
      (out.Written? <==>
        exists i | 0 <= i < |w.trace| :: w.trace[i].Upload? && w.trace[i].a == me && w.trace[i].reply.Deliver?)
    ensures Init(w.origin) ==>
      (exists i | 0 <= i < |w.trace| :: w.trace[i].Upload? && w.trace[i].a == me && !w.trace[i].reply.Deliver?) ==>
        out.Failed?
    ensures Init(w.origin) ==> Decided(w.origin, w.trace, me, out)
    ensures Init(w.origin) ==> LogOk(w.state.actors[me])
    ensures var op, before, after := w.state.actors[me].op, Zone(old(w.state)), Zone(w.state);
      var name := AbsoluteName(req.name, req.zone);
      old(Undisturbed(w, me, r.Settings(TrimDot(req.zone), stamp), op, clock)) ==>
        && (out.Written? || out.InSync?)
        && ("_acme-challenge." <= name ==> !Lists(after, name, req.value))
        && (Own(before) != [] ==>
              (!Lists(after, name, req.value) <==> "_acme-challenge." <= name || !Lists(before, name, req.value)))
  {
    RequestIsChallenge(req);
    var op := Op.CleanUp(AbsoluteName(req.name, req.zone), req.value, req.secret);
    out := Operate(r, w, me, op, req.zone, clock, stamp);
    ghost var x := w.state.actors[me];
    CleanedUp(old(w.state), x, RequestKey(req));
    if RequestKey(req) !in ChallengeKeys(Zone(w.state)) {
      OnlyChallengesGo(Zone(old(w.state)), Zone(w.state), op.name, op.value);
    }
  }

  /** What a CleanUp wants of a zone excludes its key. */
  lemma CleanedUp(s0: State, x: Actor, k: Key)
    requires x.op.CleanUp? && Key(x.op.name, x.op.value) == k
    ensures x.st.records == Target(s0, x) ==> k !in Wanting(x, Zone(s0))
  {
    WithoutMembers(Unexpired(StoredState(s0.cm).records, x.cutoff), k);
    DesiredMeaning(x.st.records);
    assert k in Removal(x.op);
  }

  // ----- the sweep -----

  /** One zone of a sweep: its cluster, a holder token for it, and the clock when its turn comes. */
  datatype Site = Site(zone: string, w: Cluster, me: Id, clock: int)

  predicate Succeeded(out: Outcome) {
    out.Written? || out.InSync?
  }

  /** The zones whose reconcile failed, in order. */
  function FailedZones(sites: seq<Site>, outs: seq<Outcome>): seq<string>
    requires |sites| == |outs|
  {
    if sites == [] then []
    else FailedZones(Front(sites), Front(outs)) + if Succeeded(Last(outs)) then [] else [Last(sites).zone]
  }

  /** The failures among the first zones, one per outcome so far. */
  predicate Reports(sites: seq<Site>, outs: seq<Outcome>, failed: seq<string>) {
    |outs| <= |sites| && failed == FailedZones(sites[..|outs|], outs)
  }

  /** Notes the outcome of the next zone. */
  method Report(sites: seq<Site>, outs: seq<Outcome>, out: Outcome, failed: seq<string>, i: nat)
    returns (all: seq<string>)
    requires i == |outs| < |sites| && Reports(sites, outs, failed)
    ensures Reports(sites, outs + [out], all)
  {
    Take(sites, i);
    Snoc(outs, out);
    all := failed;
    if !Succeeded(out) {
      all := all + [sites[i].zone];
    }
  }

  lemma ReportsAll(sites: seq<Site>, outs: seq<Outcome>, failed: seq<string>)
    requires Reports(sites, outs, failed) && |outs| == |sites|
    ensures failed == FailedZones(sites, outs)
  {
    assert sites[..|sites|] == sites;
  }

  /** The zones reported are exactly those that ended neither written nor in sync, in the order of the list. */
  ghost predicate FailuresOf(sites: seq<Site>, outs: seq<Outcome>, failed: seq<string>, at: seq<nat>)
    requires |sites| == |outs|
  {
    && |at| == |failed|
    && (forall m, n | 0 <= m < n < |at| :: at[m] < at[n])
    && (forall i: nat :: i in at <==> i < |sites| && !outs[i].Written? && !outs[i].InSync?)
    && (forall m | 0 <= m < |at| :: at[m] < |sites| && failed[m] == sites[at[m]].zone)
  }

  lemma {:induction false} FailedMeaning(sites: seq<Site>, outs: seq<Outcome>) returns (at: seq<nat>)
    requires |sites| == |outs|
    ensures FailuresOf(sites, outs, FailedZones(sites, outs), at)
    ensures FailedZones(sites, outs) == [] <==> forall i | 0 <= i < |outs| :: outs[i].Written? || outs[i].InSync?
  {
    if sites == [] {
      at := [];
    } else {
      var before := FailedMeaning(Front(sites), Front(outs));
      at := FailedSnoc(sites, outs, FailedZones(Front(sites), Front(outs)), before);
    }
    NoFailures(sites, outs, FailedZones(sites, outs), at);
  }

  /** One more zone, reported if it failed. */
  lemma FailedSnoc(sites: seq<Site>, outs: seq<Outcome>, failed: seq<string>, before: seq<nat>) returns (at: seq<nat>)
    requires |sites| == |outs| > 0 && FailuresOf(Front(sites), Front(outs), failed, before)
    ensures FailuresOf(sites, outs, failed + if Succeeded(Last(outs)) then [] else [Last(sites).zone], at)
  {
    var n := |sites| - 1;
    forall m | 0 <= m < |before| ensures before[m] < n {
      assert before[m] in before;
    }
    forall i: nat ensures i in before <==> i < n && !outs[i].Written? && !outs[i].InSync? {
      assert i < n ==> Front(outs)[i] == outs[i];
    }
    at := before + if Succeeded(Last(outs)) then [] else [n];
  }

  lemma NoFailures(sites: seq<Site>, outs: seq<Outcome>, failed: seq<string>, at: seq<nat>)
    requires |sites| == |outs| && FailuresOf(sites, outs, failed, at)
    ensures failed == [] <==> forall i | 0 <= i < |outs| :: outs[i].Written? || outs[i].InSync?
  {
    if failed != [] {
      assert at[0] in at;
    }
  }

  ghost predicate Distinct(sites: seq<Site>) {
    forall i, j | 0 <= i < j < |sites| :: sites[i].w != sites[j].w
  }

  /** The holder token is new to this zone. */
  ghost predicate Waiting(site: Site)
    reads site.w
  {
    && site.w.Valid()
    && site.me !in site.w.state.actors && site.me != NOBODY
    && (site.w.state.lease.Some? ==> site.w.state.lease.value.holder != site.me)
  }

  /** Nobody disturbs the sweep of this zone. */
  ghost predicate Alone(site: Site, r: Reconciler, stamp: string)
    requires r.Valid()
    reads site.w
  {
    Undisturbed(site.w, site.me, r.Settings(TrimDot(site.zone), stamp), Op.Sweep, site.clock)
  }

  /** The zone's reconcile has ended with this outcome. */
  ghost predicate Swept(site: Site, out: Outcome)
    reads site.w
  {
    && site.w.Valid() && site.me in site.w.state.actors
    && site.w.state.actors[site.me].pc == Done(out) && site.w.state.actors[site.me].op.Sweep?
    && (Init(site.w.origin) ==> Delivered(site.w.trace, site.me, out))
  }

  /** Written means that the PUT was answered; a PUT that was not means failure. */
  ghost predicate Delivered(trace: seq<Label>, me: Id, out: Outcome) {
    && (out.Written? <==>
          exists i | 0 <= i < |trace| :: trace[i].Upload? && trace[i].a == me && trace[i].reply.Deliver?)
    && ((exists i | 0 <= i < |trace| :: trace[i].Upload? && trace[i].a == me && !trace[i].reply.Deliver?) ==>
          out.Failed?)
  }

  /** It has left the zone as the stored records want it. */
  ghost predicate Repaired(site: Site, was: State, out: Outcome)
    reads site.w
  {
    && site.me in site.w.state.actors && Succeeded(out)
    && Converged(was, site.w.state, site.w.state.actors[site.me])
    && InTime(site.clock, site.w.state.actors[site.me])
    && RepairedPlainly(was, site.w.state, site.w.state.actors[site.me])
  }

  /**
    What a repaired zone holds: every stored record that is not too old, nothing else
    under the challenge label if that is all the webhook's, and other records as before.
   */
  ghost predicate RepairedPlainly(was: State, now: State, x: Actor) {
    var stored := StoredState(now.cm).records;
    && (forall q :: q in stored <==>
          q in StoredState(was.cm).records && (q.addedAt == 0 || q.addedAt >= x.cutoff))
    && (forall q | q in stored :: Lists(Zone(now), q.name, q.value))
    && (x.cfg.ownAll ==>
          forall r | r in Zone(now) && r.typ == "TXT" && "_acme-challenge." <= r.name ::
            Stores(stored, r.name, r.value))
    && ((forall r: DNSRecord | r.typ != "TXT" || !("_acme-challenge." <= r.name) ::
           multiset(Zone(now))[r] == multiset(Zone(was))[r])
        || (|Zone(now)| == 1 && Zone(now)[0].typ == "TXT" && Zone(now)[0].ttl == 86400
            && forall r | r in Zone(was) :: r.typ == "TXT" && "_acme-challenge." <= r.name))
  }

  method SweepZone(r: Reconciler, site: Site, stamp: string) returns (out: Outcome)
    requires r.Valid() && Waiting(site)
    modifies site.w
    ensures Swept(site, out) && site.w.origin == old(site.w.origin)
    ensures old(Alone(site, r, stamp)) ==> Repaired(site, old(site.w.state), out)
  {
    out := Operate(r, site.w, site.me, Op.Sweep, site.zone, site.clock, stamp);
    if old(Alone(site, r, stamp)) {
      SerializedIntents(site.w.origin, site.w.trace, site.w.state);
      ConvergedInPlainTerms(old(site.w.state), site.w.state, site.w.state.actors[site.me]);
    }
  }

  /** How a site stood when the sweep began: its run, its state, and whether it was left alone. */
  datatype Begun = Begun(origin: State, was: State, alone: bool)

  ghost predicate StillToCome(site: Site, b: Begun, r: Reconciler, stamp: string)
    requires r.Valid()
    reads site.w
  {
    Waiting(site) && site.w.origin == b.origin && site.w.state == b.was && (b.alone ==> Alone(site, r, stamp))
  }

  ghost predicate Finished(site: Site, b: Begun, out: Outcome)
    reads site.w
  {
    Swept(site, out) && site.w.origin == b.origin && (b.alone ==> Repaired(site, b.was, out))
  }

  /** One zone swept per outcome so far, the others still to come. */
  ghost predicate Progress(sites: seq<Site>, begun: seq<Begun>, outs: seq<Outcome>, r: Reconciler, stamp: string)
    requires r.Valid()
    reads set i | 0 <= i < |sites| :: sites[i].w
  {
    && |outs| <= |sites| == |begun|
    && (forall j | 0 <= j < |outs| :: Finished(sites[j], begun[j], outs[j]))
    && (forall j | |outs| <= j < |sites| :: StillToCome(sites[j], begun[j], r, stamp))
  }

  /** The next zone of a sweep; the others stay as they are. */
  method SweepNext(
    r: Reconciler, sites: seq<Site>, ghost begun: seq<Begun>, ghost outs: seq<Outcome>, stamp: string, i: nat)
    returns (out: Outcome)
    requires r.Valid() && Distinct(sites) && |outs| == i < |sites| && Progress(sites, begun, outs, r, stamp)
    modifies sites[i].w
    ensures Progress(sites, begun, outs + [out], r, stamp)
  {
    assert StillToCome(sites[i], begun[i], r, stamp);
    out := SweepZone(r, sites[i], stamp);
    forall j | 0 <= j <= i ensures Finished(sites[j], begun[j], (outs + [out])[j]) {
      assert j < i ==> sites[j].w != sites[i].w;
    }
    forall j | i < j < |sites| ensures StillToCome(sites[j], begun[j], r, stamp) {
      assert sites[j].w != sites[i].w;
    }
  }

  ghost function Beginning(site: Site, r: Reconciler, stamp: string): Begun
    requires r.Valid()
    reads site.w
  {
    Begun(site.w.origin, site.w.state, Alone(site, r, stamp))
  }

  ghost function Beginnings(sites: seq<Site>, r: Reconciler, stamp: string): (begun: seq<Begun>)
    requires r.Valid() && forall i | 0 <= i < |sites| :: Waiting(sites[i])
    reads set i | 0 <= i < |sites| :: sites[i].w
    ensures |begun| == |sites| && Progress(sites, begun, [], r, stamp)
    ensures forall i | 0 <= i < |sites| :: begun[i] == Beginning(sites[i], r, stamp)
  {
    seq(|sites|, i requires 0 <= i < |sites| reads set j | 0 <= j < |sites| :: sites[j].w =>
      Beginning(sites[i], r, stamp))
  }

  /** The loop over the zones. */
  method SweepAll(r: Reconciler, sites: seq<Site>, ghost begun: seq<Begun>, stamp: string)
    returns (failed: seq<string>, outs: seq<Outcome>)
    requires r.Valid() && Distinct(sites) && Progress(sites, begun, [], r, stamp)
    modifies set i | 0 <= i < |sites| :: sites[i].w
    ensures |outs| == |sites| && failed == FailedZones(sites, outs) && Progress(sites, begun, outs, r, stamp)
  {
    failed, outs := [], [];
    for i := 0 to |sites|
      invariant |outs| == i && Reports(sites, outs, failed)
      invariant Progress(sites, begun, outs, r, stamp)
    {
      var out := SweepNext(r, sites, begun, outs, stamp, i);
      failed := Report(sites, outs, out, failed, i);
      outs := outs + [out];
    }
    ReportsAll(sites, outs, failed);
  }

  /**
    A sweep of the zones listed, unless the List call failed.  Each is reconciled once,
    whatever happens to the others, the failures are reported in order, and every zone
    that was left alone is repaired.
   */
  method Sweep(r: Reconciler, listed: bool, sites: seq<Site>, stamp: string)
    returns (failed: seq<string>, outs: seq<Outcome>, ghost at: seq<nat>)
    requires r.Valid() && Distinct(sites)
    requires forall i | 0 <= i < |sites| :: Waiting(sites[i])
    modifies set i | 0 <= i < |sites| :: sites[i].w
    ensures !listed ==> failed == [] && outs == [] && forall i | 0 <= i < |sites| :: unchanged(sites[i].w)
    ensures listed ==> |outs| == |sites|
    ensures listed ==> (failed == [] <==> forall i | 0 <= i < |outs| :: outs[i].Written? || outs[i].InSync?)
    ensures listed ==>
      && |at| == |failed| && (forall m, n | 0 <= m < n < |at| :: at[m] < at[n])
      && (forall i: nat :: i in at <==> i < |sites| && !outs[i].Written? && !outs[i].InSync?)
      && (forall m | 0 <= m < |at| :: at[m] < |sites| && failed[m] == sites[at[m]].zone)
    ensures listed ==> forall i | 0 <= i < |sites| && Init(sites[i].w.origin) ::
      var trace := sites[i].w.trace;
      outs[i].Written? <==>
        exists j | 0 <= j < |trace| :: trace[j].Upload? && trace[j].a == sites[i].me && trace[j].reply.Deliver?
    ensures listed ==> forall i | 0 <= i < |sites| ::
      && Swept(sites[i], outs[i]) && sites[i].w.origin == old(sites[i].w.origin)
      && (old(Alone(sites[i], r, stamp)) ==> Repaired(sites[i], old(sites[i].w.state), outs[i]))
  {
    if !listed {
      return [], [], [];
    }
    ghost var begun := Beginnings(sites, r, stamp);
    failed, outs := SweepAll(r, sites, begun, stamp);
    at := FailedMeaning(sites, outs);
    forall i | 0 <= i < |sites| ensures Finished(sites[i], begun[i], outs[i]) {
    }
  }
}
