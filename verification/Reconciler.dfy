/**
  How one request changes a zone under its lock, as imperative code against the
  cluster.  Its calls are the protocol's steps, so every run of it is a run of the
  protocol and every theorem about reachable states applies.
 */
module Reconciler {
  import opened Base
  import opened Records
  import opened Payload
  import opened PayloadCode
  import opened Names
  import opened Desired
  import opened Protocol
  import opened LeaseProofs
  import opened TraceProofs
  import opened Outcomes
  import opened Stamps
  import opened Convergence
  import opened World
  import opened LeaseLock
  import opened Store
  import StateCode

  /** `hasOwnRecords`: some record is not a challenge record. */
  method HasOwnRecords(records: seq<DNSRecord>) returns (yes: bool)
    ensures yes <==> Own(records) != []
    ensures yes <==> exists r :: r in records && (r.typ != "TXT" || !("_acme-challenge." <= r.name))
  {
    Partition(records);
    for i := 0 to |records|
      invariant forall j | 0 <= j < i :: IsChallengeRecord(records[j])
    {
      if !IsChallengeRecord(records[i]) {
        assert records[i] in Own(records);
        return true;
      }
    }
    ChallengeOnlySplit(records);
    return false;
  }

  /** The view decided on is the first read, or the second after one without own records. */
  predicate TwiceIfEmpty(before: seq<seq<DNSRecord>>, after: seq<seq<DNSRecord>>, view: seq<DNSRecord>) {
    && |before| < |after| && Last(after) == view
    && if |after| == |before| + 1 then after == before + [view] && Own(view) != []
       else after == before + [after[|before|], view] && Own(after[|before|]) == []
  }

  /** The actor with a view just read. */
  ghost function Seen(x: Actor, view: seq<DNSRecord>, version: nat): Actor {
    x.(log := x.log + [Fetched(Some(view))], views := x.views + [view], got := version)
  }

  /** The decision depends on the settings, the operation, the wanted records and the first serial. */
  lemma SameDecision(x: Actor, y: Actor, view: seq<DNSRecord>)
    requires y.cfg == x.cfg && y.op == x.op && y.st == x.st && y.before == x.before && y.payload == x.payload
    ensures Decide(y, view).pc == Decide(x, view).pc && Decide(y, view).payload == Decide(x, view).payload
    ensures var z := Decide(y, view);
      && z.cfg == y.cfg && z.op == y.op && z.st == y.st && z.attempt == y.attempt
      && z.before == y.before && z.views == y.views
  {
  }

  /** The decision for a view, given its payload and diff. */
  lemma DecisionOf(x: Actor, view: seq<DNSRecord>, records: seq<DNSRecord>, diff: Diff)
    requires Payload.Upload(records, diff) == Compute(view, DesiredRecords(x.st.records), Removal(x.op), x.cfg.ownAll)
    ensures !diff.Changed() ==> Decide(x, view) == Leave(x, InSync)
    ensures diff.Changed() ==>
      Decide(x, view) == x.(payload := if records == [] then [Placeholder(x.cfg.zone, x.cfg.stamp)] else records,
                            pc := if x.before.Some? then SerialAfter else Putting)
  {
  }

  class Reconciler {
    const lock: LeaseLock
    const store: ConfigMapStore
    const ownAcmeRecords: bool
    const maxRecordAge: int
    const serial: bool           // a SerialReader is configured
    const serialRequired: bool
    const maxWriteAttempts: nat

    /** Values that are not positive pick the defaults: 24h and 5 attempts. */
    constructor (lock: LeaseLock, store: ConfigMapStore, ownAcmeRecords: bool, maxRecordAge: int,
                 serial: bool, serialRequired: bool, maxWriteAttempts: int)
      ensures this.lock == lock && this.store == store && this.ownAcmeRecords == ownAcmeRecords
      ensures this.maxRecordAge == if maxRecordAge <= 0 then 24 * 3600 * SECOND else maxRecordAge
      ensures this.maxWriteAttempts == if maxWriteAttempts <= 0 then 5 else maxWriteAttempts
      ensures this.serial == serial && this.serialRequired == serialRequired
    {
      this.lock := lock;
      this.store := store;
      this.ownAcmeRecords := ownAcmeRecords;
      this.maxRecordAge := if maxRecordAge <= 0 then 24 * 3600 * SECOND else maxRecordAge;
      this.serial := serial;
      this.serialRequired := serialRequired;
      this.maxWriteAttempts := if maxWriteAttempts <= 0 then 5 else maxWriteAttempts;
    }

    predicate Valid() {
      maxWriteAttempts >= 1 && lock.pollInterval >= 1 && lock.waitTimeout >= 1
    }

    /** The settings an actor of this reconciler runs with. */
    function Settings(zone: string, stamp: string): Config
      requires lock.pollInterval >= 0
    {
      Config(WholeSeconds(lock.duration), lock.waitTimeout, lock.pollInterval, maxRecordAge,
             ownAcmeRecords, serial, serialRequired, maxWriteAttempts, zone, stamp)
    }

    /** `me` is a request of this reconciler. */
    ghost predicate Runs(w: Cluster, me: Id)
      reads w
    {
      && Valid() && w.Valid() && me in w.state.actors
      && w.state.actors[me].cfg == Settings(w.state.actors[me].cfg.zone, w.state.actors[me].cfg.stamp)
    }

    /** `readSerial` before the read; without a SerialReader there is nothing to read. */
    method ReadSerialBefore(w: Cluster, me: Id) returns (before: int, checkable: bool, ghost current: nat)
      requires Runs(w, me) && w.state.actors[me].pc.SerialBefore?
      modifies w
      ensures w.Advanced(me)
      ensures w.state.actors[me] ==
        AfterSerialBefore(old(w.state.actors[me]).(clock := w.state.actors[me].clock),
                          if checkable then Some(before) else None, current)
      ensures !serial ==> !checkable
    {
      var answer: Option<int>;
      answer, current := w.SerialBeforeRead(me);
      match answer {
        case None => before, checkable := 0, false;
        case Some(v) => before, checkable := v, true;
      }
    }

    /** `readSerial` before the write. */
    method ReadSerialAfter(w: Cluster, me: Id) returns (now: int, ok: bool, ghost current: nat)
      requires Runs(w, me) && w.state.actors[me].pc.SerialAfter?
      modifies w
      ensures w.Advanced(me)
      ensures w.state.actors[me] ==
        AfterSerialAfter(old(w.state.actors[me]).(clock := w.state.actors[me].clock),
                         if ok then Some(now) else None, current)
    {
      var answer: Option<int>;
      answer, current := w.SerialBeforeWrite(me);
      match answer {
        case None => now, ok := 0, false;
        case Some(v) => now, ok := v, true;
      }
    }

    /** Reads the zone; an answer without own records is read once more. */
    method ReadZone(w: Cluster, me: Id) returns (current: Option<seq<DNSRecord>>)
      requires Runs(w, me) && w.state.actors[me].pc.Fetching?
      modifies w
      ensures w.Advanced(me)
      ensures var x, y := old(w.state.actors[me]), w.state.actors[me];
        && y.cfg == x.cfg && y.op == x.op && y.st == x.st && y.attempt == x.attempt && y.before == x.before
        && match current
           case None => y.pc == Releasing(0, Failed)
           case Some(view) =>
             && y.pc == Decide(x, view).pc && y.payload == Decide(x, view).payload
             && TwiceIfEmpty(x.views, y.views, view)
    {
      ghost var version;
      current, version := w.GetRecords(me);
      if current.None? {
        return;
      }
      var own := HasOwnRecords(current.value);
      if own {
        ghost var z := old(w.state.actors[me]).(clock := w.state.actors[me].clock);
        SameDecision(old(w.state.actors[me]), Seen(z, current.value, version), current.value);
        return;
      }
      ghost var x := w.state.actors[me];
      current := ReadAgain(w, me);
      if current.Some? {
        SameDecision(old(w.state.actors[me]), x, current.value);
      }
    }

    /** The second read, which is the one that counts. */
    method ReadAgain(w: Cluster, me: Id) returns (current: Option<seq<DNSRecord>>)
      requires Runs(w, me) && w.state.actors[me].pc.Refetching?
      modifies w
      ensures w.Advanced(me)
      ensures var x, y := old(w.state.actors[me]), w.state.actors[me];
        && y.cfg == x.cfg && y.op == x.op && y.st == x.st && y.attempt == x.attempt && y.before == x.before
        && match current
           case None => y.pc == Releasing(0, Failed)
           case Some(view) =>
             && y.pc == Decide(x, view).pc && y.payload == Decide(x, view).payload
             && y.views == x.views + [view]
    {
      ghost var version;
      current, version := w.GetRecords(me);
      if current.Some? {
        ghost var z := old(w.state.actors[me]).(clock := w.state.actors[me].clock);
        SameDecision(old(w.state.actors[me]), Seen(z, current.value, version), current.value);
      }
    }

    /** The mutation of an operation. */
    method Mutate(h: Handle, op: Op, now: int)
      requires h.Valid()
      modifies h.state`buf, h.state`len, h.state.buf
      ensures h.Valid()
      ensures h.state.Value() == old(h.state.Value()).(records := Mutated(op, old(h.state.Records()), now))
    {
      match op {
        case Present(name, value, ttl, uid, dnsName, _) =>
          h.state.Present(name, value, ttl, uid, dnsName, now);
        case CleanUp(name, value, _) =>
          h.state.CleanUp(name, value);
        case Sweep =>
      }
    }

    /** `dropExpired`: cutoff from the clock, compaction in place. */
    method DropExpired(w: Cluster, me: Id, h: Handle) returns (expired: seq<DNSRecord>)
      requires Runs(w, me) && w.state.actors[me].pc.Expiring?
      requires h.Valid() && h.state.Value() == w.state.actors[me].st
      modifies w, h.state`len, h.state.buf
      ensures w.Advanced(me) && h.Valid() && h.state.buf == old(h.state.buf)
      ensures w.state.actors[me] == AfterExpire(old(w.state.actors[me]).(clock := w.state.actors[me].clock))
      ensures h.state.Value() == w.state.actors[me].st
      ensures expired == DesiredRecords(Lapsed(old(h.state.Records()), w.state.actors[me].cutoff))
    {
      ghost var x := w.state.actors[me];
      var now := w.NowForExpire(me);
      ghost var y := w.state.actors[me];
      assert h.state.Value() == x.st && y == AfterExpire(x.(clock := y.clock)) && y.cutoff == now - maxRecordAge;
      expired := h.state.DropExpired(now - maxRecordAge);
    }

    /** The operation's mutation, stamped with the clock. */
    method ApplyOp(w: Cluster, me: Id, op: Op, h: Handle)
      requires Runs(w, me) && w.state.actors[me].pc.Mutating? && w.state.actors[me].op == op
      requires h.Valid() && h.state.Value() == w.state.actors[me].st
      modifies w, h.state`buf, h.state`len, h.state.buf
      ensures w.Advanced(me) && h.Valid()
      ensures w.state.actors[me] == AfterMutate(old(w.state.actors[me]).(clock := w.state.actors[me].clock))
      ensures h.state.Value() == w.state.actors[me].st
    {
      var now := w.NowForMutate(me);
      Mutate(h, op, now);
    }

    /** Drops expired records, applies the operation, and saves. */
    method Intend(w: Cluster, me: Id, op: Op, h: Handle) returns (ok: bool)
      requires Runs(w, me) && w.state.actors[me].pc.Expiring? && w.state.actors[me].op == op
      requires h.Valid() && h.state.Value() == w.state.actors[me].st && h.resourceVersion == w.state.actors[me].version
      modifies w, h`resourceVersion, h`found, h.state`buf, h.state`len, h.state.buf
      ensures w.Advanced(me) && h.Valid()
      ensures var x, y := old(w.state.actors[me]), w.state.actors[me];
        && y.cfg == x.cfg && y.op == x.op
        && (if ok then y.pc.Keying? && h.state.Value() == y.st else y.pc == Releasing(0, Failed))
    {
      var expired := DropExpired(w, me, h);
      ApplyOp(w, me, op, h);
      ok := store.Save(w, me, h);
    }

    /** The payload for a view, never empty; None when the zone is in sync. */
    method PayloadFor(
      ghost x: Actor, view: seq<DNSRecord>, desired: seq<DNSRecord>, remove: seq<Key>, zone: string, stamp: string)
      returns (payload: Option<seq<DNSRecord>>)
      requires desired == DesiredRecords(x.st.records) && remove == Removal(x.op)
      requires x.cfg.ownAll == ownAcmeRecords && x.cfg.zone == zone && x.cfg.stamp == stamp
      ensures payload.None? ==> Decide(x, view) == Leave(x, InSync)
      ensures payload.Some? ==> payload.value != []
      ensures payload.Some? ==>
        Decide(x, view) == x.(payload := payload.value, pc := if x.before.Some? then SerialAfter else Putting)
    {
      var records, diff := ComputePayload(view, desired, remove, ownAcmeRecords);
      DecisionOf(x, view, records, diff);
      if !diff.Changed() {
        return None;
      }
      if records == [] {
        records := records + [Placeholder(zone, stamp)];
      }
      return Some(records);
    }

    /** First half of an attempt: serial, read, compute. An outcome ends the request. */
    method Prepare(w: Cluster, me: Id, desired: seq<DNSRecord>, remove: seq<Key>, zone: string, stamp: string)
      returns (out: Option<Outcome>, payload: seq<DNSRecord>, before: int, checkable: bool)
      requires Runs(w, me) && w.state.actors[me].pc.SerialBefore?
      requires desired == DesiredRecords(w.state.actors[me].st.records) && remove == Removal(w.state.actors[me].op)
      requires w.state.actors[me].cfg == Settings(zone, stamp)
      modifies w
      ensures w.Advanced(me)
      ensures var x, y := old(w.state.actors[me]), w.state.actors[me];
        && y.cfg == x.cfg && y.op == x.op && y.st == x.st && y.attempt == x.attempt
        && match out
           case Some(o) => y.pc == Releasing(0, o) && !o.Written?
           case None =>
             y.pc == (if checkable then SerialAfter else Putting) && y.payload == payload != []
             && y.before == if checkable then Some(before) else None
    {
      ghost var seenVersion;
      before, checkable, seenVersion := ReadSerialBefore(w, me);
      if serialRequired && !checkable {
        return Some(SerialUnavailable), [], before, checkable;
      }
      ghost var x := w.state.actors[me];
      var current := ReadZone(w, me);
      if current.None? {
        return Some(Failed), [], before, checkable;
      }
      var upload := PayloadFor(x, current.value, desired, remove, zone, stamp);
      if upload.None? {
        return Some(InSync), [], before, checkable;
      }
      return None, upload.value, before, checkable;
    }

    /** One attempt at the write; None means the zone moved under it and the attempt starts over. */
    method Attempt(w: Cluster, me: Id, desired: seq<DNSRecord>, remove: seq<Key>, zone: string, stamp: string)
      returns (out: Option<Outcome>)
      requires Runs(w, me) && w.state.actors[me].pc.SerialBefore?
      requires desired == DesiredRecords(w.state.actors[me].st.records) && remove == Removal(w.state.actors[me].op)
      requires w.state.actors[me].cfg == Settings(zone, stamp)
      modifies w
      ensures w.Advanced(me)
      ensures var x, y := old(w.state.actors[me]), w.state.actors[me];
        && y.cfg == x.cfg && y.op == x.op && y.st == x.st
        && match out
           case Some(o) => y.pc == Releasing(0, o)
           case None =>
             if x.attempt < maxWriteAttempts then y.pc.SerialBefore? && y.attempt == x.attempt + 1
             else y.pc == Releasing(0, ZoneChanging)
      ensures out == Some(Outcome.Written) ==>
        |w.trace| > |old(w.trace)| && Last(w.trace).Upload? && Last(w.trace).a == me && Last(w.trace).reply.Deliver?
    {
      var payload, before, checkable;
      out, payload, before, checkable := Prepare(w, me, desired, remove, zone, stamp);
      if out.Some? {
        return;
      }
      if checkable {
        var now, ok, _ := ReadSerialAfter(w, me);
        if ok && now != before {
          return None;
        }
        if !ok && serialRequired {
          return Some(SerialUnavailable);
        }
      }
      var done := w.PutRecords(me, payload);
      return Some(if done then Outcome.Written else Failed);
    }

    /** The bounded write loop. */
    method WriteZone(w: Cluster, me: Id, desired: seq<DNSRecord>, remove: seq<Key>, zone: string, stamp: string)
      returns (out: Outcome)
      requires Runs(w, me) && w.state.actors[me].pc.SerialBefore? && w.state.actors[me].attempt == 1
      requires desired == DesiredRecords(w.state.actors[me].st.records) && remove == Removal(w.state.actors[me].op)
      requires w.state.actors[me].cfg == Settings(zone, stamp)
      modifies w
      ensures w.Advanced(me) && w.state.actors[me].pc == Releasing(0, out)
      ensures w.state.actors[me].cfg == old(w.state.actors[me].cfg)
      ensures w.state.actors[me].op == old(w.state.actors[me].op)
    {
      var attempt := 1;
      while attempt <= maxWriteAttempts
        invariant w.Advanced(me) && attempt <= maxWriteAttempts + 1
        invariant var x, y := old(w.state.actors[me]), w.state.actors[me];
          y.cfg == x.cfg && y.op == x.op && y.st == x.st
        invariant if attempt <= maxWriteAttempts
          then w.state.actors[me].pc.SerialBefore? && w.state.actors[me].attempt == attempt
          else w.state.actors[me].pc == Releasing(0, ZoneChanging)
      {
        var r := Attempt(w, me, desired, remove, zone, stamp);
        if r.Some? {
          return r.value;
        }
        attempt := attempt + 1;
      }
      return ZoneChanging;
    }

    /** Loads the state and settles the key reference; null with the error otherwise. */
    method LoadState(w: Cluster, me: Id, op: Op) returns (h: Handle?, err: Outcome)
      requires Runs(w, me) && w.state.actors[me].pc.Loading? && w.state.actors[me].op == op
      modifies w
      ensures w.Advanced(me)
      ensures w.state.actors[me].cfg == old(w.state.actors[me].cfg) && w.state.actors[me].op == op
      ensures h == null ==> w.state.actors[me].pc == Releasing(0, err)
      ensures h != null ==>
        && fresh(h) && fresh(h.state) && fresh(h.state.buf) && h.Valid()
        && w.state.actors[me].pc.Expiring?
        && h.state.Value() == w.state.actors[me].st && h.resourceVersion == w.state.actors[me].version
    {
      ghost var cm;
      err := Failed;
      h, cm := store.Load(w, me);
      if h == null {
        return;
      }
      if !op.Sweep? {
        h.state.secret := op.secret;
      }
      if h.state.secret.name == "" {
        return null, NoKey;
      }
    }

    /** Everything between taking and releasing the lock. */
    method Locked(w: Cluster, me: Id, op: Op, zone: string, stamp: string) returns (out: Outcome)
      requires Runs(w, me) && w.state.actors[me].pc.Loading? && w.state.actors[me].op == op
      requires w.state.actors[me].cfg == Settings(zone, stamp)
      modifies w
      ensures w.Advanced(me) && w.state.actors[me].pc == Releasing(0, out)
      ensures w.state.actors[me].cfg == old(w.state.actors[me].cfg) && w.state.actors[me].op == op
    {
      var h, err := LoadState(w, me, op);
      if h == null {
        return err;
      }
      var saved := Intend(w, me, op, h);
      if !saved {
        return Failed;
      }
      var ok := w.ReadKey(me);
      if !ok {
        return Failed;
      }
      var desired := h.state.Desired();
      out := WriteZone(w, me, desired, Removal(op), zone, stamp);
    }

    /** The lock, what is done under it, and its release. */
    method Cycle(w: Cluster, me: Id, op: Op, zone: string, stamp: string) returns (out: Outcome)
      requires Runs(w, me) && w.state.actors[me].pc.Entering? && w.state.actors[me].op == op
      requires w.state.actors[me].cfg == Settings(zone, stamp)
      modifies w
      ensures w.Advanced(me) && w.state.actors[me].pc == Done(out) && w.state.actors[me].op == op
      ensures w.state.actors[me].cfg == Settings(zone, stamp)
    {
      var err, _ := lock.Acquire(w, me);
      if err.Some? {
        out := err.value;
      } else {
        out := Locked(w, me, op, zone, stamp);
        lock.Release(w, me);
      }
    }

    /**
      One whole request.  However it ends, it lets go of the lock and leaves a trace in
      order.  Undisturbed, with a free lock and a key reference, it ends in success and
      leaves the zone as the stored records want it.
     */
    method Reconcile(w: Cluster, me: Id, op: Op, zone: string, stamp: string) returns (out: Outcome)
      requires Runs(w, me) && w.state.actors[me].pc.Entering? && w.state.actors[me].op == op
      requires w.state.actors[me].cfg == Settings(zone, stamp)
      modifies w
      ensures w.Advanced(me) && w.state.actors[me].pc == Done(out) && w.state.actors[me].op == op
      ensures w.state.actors[me].cfg == Settings(zone, stamp)
      ensures var c := w.state.actors[me].cfg;
        && c.ownAll == ownAcmeRecords && c.maxAge == maxRecordAge && c.attempts == maxWriteAttempts
        && c.serialCheck == serial && c.serialRequired == serialRequired
        && c.wait == lock.waitTimeout && c.poll == lock.pollInterval && c.zone == zone && c.stamp == stamp
        && (SECOND <= lock.duration < 0x8000_0000 * SECOND ==> c.seconds == lock.duration / SECOND)
      ensures Init(w.origin) ==> Decided(w.origin, w.trace, me, out)
      ensures Init(w.origin) ==>
        (out.Written? <==>
          exists i | 0 <= i < |w.trace| :: w.trace[i].Upload? && w.trace[i].a == me && w.trace[i].reply.Deliver?)
      ensures Init(w.origin) ==>
        (exists i | 0 <= i < |w.trace| :: w.trace[i].Upload? && w.trace[i].a == me && !w.trace[i].reply.Deliver?) ==>
          out.Failed?
      ensures Init(w.origin) ==> LogOk(w.state.actors[me])
      ensures var s0, s := old(w.state), w.state;
        old(w.calm) && old(w.calmFor) == me && old(w.calmFrom) == s0 && Ready(s0, me)
        && ChallengeOp(op) && AllChallenge(StoredState(s0.cm).records) ==>
          && (out.Written? || out.InSync?)
          && Converged(s0, s, s.actors[me]) && InTime(s0.actors[me].clock, s.actors[me])
    {
      out := Cycle(w, me, op, zone, stamp);
      EndsDecided(w.origin, w.trace, w.state, me, out);
      ghost var s0 := old(w.state);
      if old(w.calm) && old(w.calmFor) == me && old(w.calmFrom) == s0 && Ready(s0, me)
        && ChallengeOp(op) && AllChallenge(StoredState(s0.cm).records)
      {
        Converges(s0, w.calmTrace, w.state, me);
      }
    }
  }
}
