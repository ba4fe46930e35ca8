/**
  Optimistic validation of the remote zone: when the serial moves on every change
  and reads are no older than the first serial, an upload checked by two serials
  carries the own records exactly as they stood at the second one.
 */
module ZoneProofs {
  import opened Base
  import opened Records
  import opened Payload
  import opened Names
  import opened Desired
  import opened Register
  import opened Protocol
  import opened LeaseProofs
  import opened TraceProofs
  import opened StoreProofs

  /** Nameservers answer with the current serial; a GET is no older than the first serial read. */
  ghost predicate Fresh(s: State, l: Label)
    requires Enabled(s, l)
  {
    && (l.ReadSerial? && l.answer.Some? ==> s.zones != [] && l.answer.value == Last(s.zones).serial)
    && (l.Get? && l.which.Some? && s.actors[l.a].before.Some? ==> l.which.value >= s.actors[l.a].seen)
  }

  ghost predicate FreshRun(s0: State, ls: seq<Label>)
    decreases |ls|
  {
    ls == [] ||
    (FreshRun(s0, Front(ls)) && Exec(s0, ls).Some? && Fresh(Exec(s0, Front(ls)).value, Last(ls)))
  }

  /** The serial moves on every change, so it names a version of the zone. */
  ghost predicate SerialsMove(zones: seq<ZoneVersion>) {
    forall i, j | 0 <= i < j < |zones| :: zones[i].serial != zones[j].serial
  }

  predicate Reading(pc: PC) {
    pc.Fetching? || pc.Refetching? || pc.SerialAfter? || pc.Putting?
  }

  /** What an actor read is what the zone history says. */
  predicate ReadOk(zones: seq<ZoneVersion>, x: Actor) {
    && (Reading(x.pc) && x.before.Some? ==> x.seen < |zones| && zones[x.seen].serial == x.before.value)
    && (Reading(x.pc) && x.views != [] ==>
          && x.got < |zones| && Last(x.views) == zones[x.got].records
          && (x.before.Some? ==> x.seen <= x.got))
    && (x.pc.Putting? && x.before.Some? && x.after.Some? ==>
          x.got <= x.mid < |zones| && zones[x.mid].serial == x.after.value)
  }

  ghost predicate PutOk(zones: seq<ZoneVersion>, p: Put) {
    && p.over + 1 < |zones| && zones[p.over + 1].records == p.writer.payload
    && ReadOk(zones[..p.over + 1], p.writer)
  }

  ghost predicate ReadsOk(s: State) {
    && s.zones != []
    && (forall a | a in s.actors :: ReadOk(s.zones, s.actors[a]))
    && (forall i | 0 <= i < |s.puts| :: PutOk(s.zones, s.puts[i]))
  }

  lemma ReadStays(zones: seq<ZoneVersion>, more: seq<ZoneVersion>, x: Actor)
    requires ReadOk(zones, x) && zones <= more
    ensures ReadOk(more, x)
  {
  }

  /** A GET serves a version of the zone, no older than the first serial. */
  lemma GetReads(zones: seq<ZoneVersion>, x: Actor, which: Option<nat>)
    requires (x.pc.Fetching? || x.pc.Refetching?) && ReadOk(zones, x)
    requires which.Some? ==> which.value < |zones| && (x.before.Some? ==> which.value >= x.seen)
    ensures ReadOk(zones, AfterGet(x, if which.None? then None else Some(zones[which.value].records),
                                   if which.Some? then which.value else 0))
  {
    if which.Some? {
      Snoc(x.views, zones[which.value].records);
    }
  }

  /** Serial reads name the current version. */
  lemma SerialReads(zones: seq<ZoneVersion>, x: Actor, answer: Option<int>)
    requires zones != [] && ReadOk(zones, x)
    requires x.pc.SerialBefore? || (x.pc.SerialAfter? && x.views != [])
    requires answer.Some? ==> answer.value == Last(zones).serial
    ensures x.pc.SerialBefore? ==> ReadOk(zones, AfterSerialBefore(x, answer, |zones| - 1))
    ensures x.pc.SerialAfter? ==> ReadOk(zones, AfterSerialAfter(x, answer, |zones| - 1))
  {
  }

  /** All other steps read nothing. */
  lemma OtherReads(s: State, l: Label)
    requires Enabled(s, l) && !l.Edit? && !l.Spawn? && !l.Get? && !l.ReadSerial?
    requires Reading(Mover(s, l).pc)
    ensures var x, x' := s.actors[l.a], Mover(s, l);
      && x'.pc == x.pc && x'.views == x.views && x'.before == x.before && x'.after == x.after
      && x'.seen == x.seen && x'.got == x.got && x'.mid == x.mid
  {
  }

  lemma ReadStep(s: State, l: Label)
    requires s.zones != [] && Enabled(s, l) && !l.Edit? && !l.Spawn? && Fresh(s, l)
    requires ReadOk(s.zones, s.actors[l.a]) && LogOk(s.actors[l.a])
    ensures ReadOk(s.zones, Mover(s, l))
  {
    if l.Get? {
      ZoneReadStep(s, l);
    } else if l.ReadSerial? {
      ViewedBefore(s.actors[l.a]);
      SerialReadStep(s, l);
    } else if Reading(Mover(s, l).pc) {
      OtherReads(s, l);
      SameReads(s.zones, s.actors[l.a], Mover(s, l));
    }
  }

  lemma ZoneReadStep(s: State, l: Label)
    requires Enabled(s, l) && l.Get? && Fresh(s, l) && ReadOk(s.zones, s.actors[l.a])
    ensures ReadOk(s.zones, Mover(s, l))
  {
    GetReads(s.zones, s.actors[l.a], l.which);
  }

  lemma SerialReadStep(s: State, l: Label)
    requires s.zones != [] && Enabled(s, l) && l.ReadSerial? && Fresh(s, l)
    requires ReadOk(s.zones, s.actors[l.a]) && (s.actors[l.a].pc.SerialAfter? ==> s.actors[l.a].views != [])
    ensures ReadOk(s.zones, Mover(s, l))
  {
    SerialReads(s.zones, s.actors[l.a], l.answer);
  }

  lemma SameReads(zones: seq<ZoneVersion>, x: Actor, y: Actor)
    requires ReadOk(zones, x) && y.pc == x.pc && y.views == x.views && y.before == x.before && y.after == x.after
    requires y.seen == x.seen && y.got == x.got && y.mid == x.mid
    ensures ReadOk(zones, y)
  {
  }

  lemma PutsStep(s: State, l: Label, i: nat)
    requires ReadsOk(s) && Enabled(s, l) && i < |Effect(s, l).puts|
    ensures PutOk(Effect(s, l).zones, Effect(s, l).puts[i])
  {
    if i < |s.puts| {
      assert Effect(s, l).puts[i] == s.puts[i];
      PutStays(s.zones, Effect(s, l).zones, s.puts[i]);
    } else {
      assert Uploads(l);
      PutFresh(s.zones, l.a, s.actors[l.a], StoredState(s.cm), |s.commits|, l.serial);
    }
  }

  lemma PutStays(zones: seq<ZoneVersion>, more: seq<ZoneVersion>, p: Put)
    requires PutOk(zones, p) && zones <= more
    ensures PutOk(more, p)
  {
    assert more[..p.over + 1] == zones[..p.over + 1];
  }

  lemma PutFresh(zones: seq<ZoneVersion>, who: Id, x: Actor, stored: ZoneState, saves: nat, serial: int)
    requires zones != [] && ReadOk(zones, x)
    ensures PutOk(zones + [ZoneVersion(x.payload, serial)], Put(who, x, stored, saves, |zones| - 1))
  {
    assert (zones + [ZoneVersion(x.payload, serial)])[..|zones|] == zones;
  }

  lemma ActorsStep(s: State, l: Label, a: Id)
    requires ReadsOk(s) && LogsOk(s) && Enabled(s, l) && Fresh(s, l) && a in Effect(s, l).actors
    ensures ReadOk(Effect(s, l).zones, Effect(s, l).actors[a])
  {
    var s' := Effect(s, l);
    assert s.zones <= s'.zones;
    if l.Edit? || a != l.a {
      ReadStays(s.zones, s'.zones, s.actors[a]);
    } else if !l.Spawn? {
      ReadStep(s, l);
      ReadStays(s.zones, s'.zones, Mover(s, l));
    }
  }

  lemma {:induction false} ReadRun(s0: State, ls: seq<Label>, s: State)
    requires Run(s0, ls, s) && FreshRun(s0, ls)
    ensures ReadsOk(s)
    decreases |ls|
  {
    if ls != [] {
      RunStep(s0, ls, s);
      var p, l := Exec(s0, Front(ls)).value, Last(ls);
      ReadRun(s0, Front(ls), p);
      LogRun(s0, Front(ls), p);
      forall a | a in s.actors ensures ReadOk(s.zones, s.actors[a]) {
        ActorsStep(p, l, a);
      }
      forall i | 0 <= i < |s.puts| ensures PutOk(s.zones, s.puts[i]) {
        PutsStep(p, l, i);
      }
    }
  }

  lemma PutReads(s0: State, ls: seq<Label>, s: State, i: nat)
    requires Run(s0, ls, s) && FreshRun(s0, ls) && i < |s.puts|
    ensures PutOk(s.zones, s.puts[i])
  {
    ReadRun(s0, ls, s);
  }

  /** Own records of an upload: those of its last view, or the placeholder when there are none. */
  lemma OwnOfUpload(x: Actor)
    requires Planned(x) && AllChallenge(x.st.records)
    ensures Own(x.payload) == Own(Last(x.views)) ||
      (Own(Last(x.views)) == [] && x.payload == [Placeholder(x.cfg.zone, x.cfg.stamp)])
  {
    DesiredMeaning(x.st.records);
    PayloadMeaning(Last(x.views), DesiredRecords(x.st.records), Removal(x.op), x.cfg.ownAll);
  }

  /**
    Optimistic validation: an upload made with both serials readable carries the own
    records exactly as they stood at the second serial read, so no edit made before
    that read is overwritten, whichever attempt succeeded.
   */
  lemma ValidatedUpload(s0: State, ls: seq<Label>, s: State, i: nat)
    requires Run(s0, ls, s) && FreshRun(s0, ls) && SerialsMove(s.zones) && i < |s.puts|
    requires s.puts[i].writer.before.Some? && s.puts[i].writer.after.Some?
    ensures var p := s.puts[i]; var x := p.writer;
      && x.seen == x.got == x.mid <= p.over
      && p.over + 1 < |s.zones| && s.zones[p.over + 1].records == x.payload
      && (Own(x.payload) == Own(s.zones[x.mid].records) ||
          (Own(s.zones[x.mid].records) == [] && x.payload == [Placeholder(x.cfg.zone, x.cfg.stamp)]))
  {
    PutReads(s0, ls, s, i);
    WriterReady(s0, ls, s, i);
    ValidatedPut(s.zones, s.puts[i]);
  }

  lemma ValidatedPut(zones: seq<ZoneVersion>, p: Put)
    requires SerialsMove(zones) && PutOk(zones, p) && p.writer.pc.Putting?
    requires Planned(p.writer) && Gate(p.writer) && AllChallenge(p.writer.st.records)
    requires p.writer.before.Some? && p.writer.after.Some?
    ensures var x := p.writer;
      && x.seen == x.got == x.mid <= p.over
      && p.over + 1 < |zones| && zones[p.over + 1].records == x.payload
      && (Own(x.payload) == Own(zones[x.mid].records) ||
          (Own(zones[x.mid].records) == [] && x.payload == [Placeholder(x.cfg.zone, x.cfg.stamp)]))
  {
    OneVersion(zones, p);
    OwnOfUpload(p.writer);
  }

  /** Two equal serials around a read pin it to one version. */
  lemma OneVersion(zones: seq<ZoneVersion>, p: Put)
    requires SerialsMove(zones) && PutOk(zones, p) && p.writer.pc.Putting? && p.writer.views != []
    requires p.writer.before.Some? && p.writer.after == p.writer.before
    ensures var x := p.writer;
      x.seen == x.got == x.mid <= p.over < |zones| && Last(x.views) == zones[x.mid].records
  {
    var x := p.writer;
    assert zones[x.seen].serial == zones[x.mid].serial;
  }
}
