/**
  Runs in plain terms: what an upload does to records of a given type, name, value and
  TTL, and what it means for a request to find the zone in sync.
 */
module PlainRuns {
  import opened Base
  import opened Records
  import opened Payload
  import opened PlainPayload
  import opened Names
  import opened Desired
  import opened Register
  import opened Protocol
  import opened LeaseProofs
  import opened TraceProofs
  import opened StoreProofs
  import opened Outcomes
  import opened Convergence

  /** Some stored record has this name and value. */
  predicate Stores(rs: seq<Record>, name: string, value: string) {
    exists q :: q in rs && q.name == name && q.value == value
  }

  // ----- the wanted records -----

  lemma DesiredIsPlain(rs: seq<Record>)
    requires AllChallenge(rs)
    ensures forall d | d in DesiredRecords(rs) :: d.typ == "TXT" && "_acme-challenge." <= d.name
    ensures forall name, value :: Lists(DesiredRecords(rs), name, value) <==> Stores(rs, name, value)
  {
    var ds := DesiredRecords(rs);
    forall d | d in ds ensures d.typ == "TXT" && "_acme-challenge." <= d.name && Stores(rs, d.name, d.value) {
      var i :| 0 <= i < |ds| && ds[i] == d;
      assert rs[i] in rs;
    }
    forall q | q in rs ensures Lists(ds, q.name, q.value) {
      var i :| 0 <= i < |rs| && rs[i] == q;
      assert ds[i] in ds;
    }
  }

  lemma SoleStored(rs: seq<Record>, m: int, q: Record)
    requires DistinctRecords(rs) && 0 <= m < |rs| && q in rs && rs[m].name == q.name && rs[m].value == q.value
    ensures rs[m] == q
  {
    var i :| 0 <= i < |rs| && rs[i] == q;
    assert RecordKey(rs[i]) == RecordKey(rs[m]);
  }

  // ----- one plan -----

  /** Every stored record is in the planned upload, with its own TTL. */
  lemma StoredIsUploaded(x: Actor, view: seq<DNSRecord>, q: Record)
    requires AllChallenge(x.st.records) && DistinctRecords(x.st.records) && q in x.st.records
    ensures DNSRecord("TXT", q.name, q.value, q.ttl) in PlanFor(x, view).payload
  {
    var ds := DesiredRecords(x.st.records);
    var payload := PlanFor(x, view).payload;
    DesiredIsPlain(x.st.records);
    WantedAreListed(view, ds, Removal(x.op), x.cfg.ownAll, q.name, q.value);
    assert Stores(x.st.records, q.name, q.value);
    var r :| r in payload && r.typ == "TXT" && r.name == q.name && r.value == q.value;
    FirstDesiredWins(view, ds, Removal(x.op), x.cfg.ownAll, r);
    var m :| 0 <= m < |ds| && r == ds[m];
    SoleStored(x.st.records, m, q);
  }

  /** With ownAll nothing else is uploaded under the challenge label. */
  lemma UploadedIsStored(x: Actor, view: seq<DNSRecord>, r: DNSRecord)
    requires AllChallenge(x.st.records) && x.cfg.ownAll
    requires r in PlanFor(x, view).payload && r.typ == "TXT" && "_acme-challenge." <= r.name
    ensures exists q :: q in x.st.records && r == DNSRecord("TXT", q.name, q.value, q.ttl)
  {
    var ds := DesiredRecords(x.st.records);
    DesiredIsPlain(x.st.records);
    WantedAreListed(view, ds, Removal(x.op), true, r.name, r.value);
    FirstDesiredWins(view, ds, Removal(x.op), true, r);
    var m :| 0 <= m < |ds| && r == ds[m];
    assert x.st.records[m] in x.st.records;
  }

  // ----- the uploads of a run -----

  /** The records an upload was made for: each name and value once, all under the challenge label. */
  lemma WriterState(s0: State, ls: seq<Label>, s: State, i: nat)
    requires Run(s0, ls, s) && i < |s.puts|
    ensures var x := s.puts[i].writer;
      && AllChallenge(x.st.records) && DistinctRecords(x.st.records)
      && x.version <= |s.commits| && x.st == Folded(s.commits[..x.version])
  {
    WriterRecords(s0, ls, s, i);
    SavedState(s, s.puts[i].writer);
    RecordsAreRegisters(s.commits[..s.puts[i].writer.version], Key("", ""));
  }

  /**
    Every upload of every run carries each record its actor saved, as a TXT record with
    that record's TTL; with OwnAcmeRecords it carries no other TXT record under the
    challenge label.
   */
  lemma UploadCarriesStored(s0: State, ls: seq<Label>, s: State, i: nat)
    requires Run(s0, ls, s) && i < |s.puts|
    ensures var x := s.puts[i].writer;
      forall q | q in x.st.records :: DNSRecord("TXT", q.name, q.value, q.ttl) in x.payload
    ensures var x := s.puts[i].writer;
      x.cfg.ownAll ==>
        forall r | r in x.payload && r.typ == "TXT" && "_acme-challenge." <= r.name ::
          exists q :: q in x.st.records && r == DNSRecord("TXT", q.name, q.value, q.ttl)
  {
    WriterReady(s0, ls, s, i);
    WriterState(s0, ls, s, i);
    PayloadInPlainTerms(s.puts[i].writer);
  }

  lemma PayloadInPlainTerms(x: Actor)
    requires Planned(x) && AllChallenge(x.st.records) && DistinctRecords(x.st.records)
    ensures forall q | q in x.st.records :: DNSRecord("TXT", q.name, q.value, q.ttl) in x.payload
    ensures x.cfg.ownAll ==>
      forall r | r in x.payload && r.typ == "TXT" && "_acme-challenge." <= r.name ::
        exists q :: q in x.st.records && r == DNSRecord("TXT", q.name, q.value, q.ttl)
  {
    var view := Last(x.views);
    forall q | q in x.st.records ensures DNSRecord("TXT", q.name, q.value, q.ttl) in x.payload {
      StoredIsUploaded(x, view, q);
    }
    if x.cfg.ownAll {
      forall r | r in x.payload && r.typ == "TXT" && "_acme-challenge." <= r.name
        ensures exists q :: q in x.st.records && r == DNSRecord("TXT", q.name, q.value, q.ttl)
      {
        PlaceholderIsOwn(x.cfg.zone, x.cfg.stamp);
        assert IsChallengeRecord(r);
        UploadedIsStored(x, view, r);
      }
    }
  }

  /** The TTL a saved record is uploaded with is that of the last Present of its name and value in the history. */
  lemma UploadHasLastTTL(s0: State, ls: seq<Label>, s: State, i: nat, q: Record) returns (j: nat)
    requires Run(s0, ls, s) && i < |s.puts| && q in s.puts[i].writer.st.records
    ensures s.puts[i].writer.version <= |s.commits| && j < s.puts[i].writer.version
    ensures var op := s.commits[j].op; op.Present? && op.name == q.name && op.value == q.value && op.ttl == q.ttl
    ensures forall h | j < h < s.puts[i].writer.version ::
      !(s.commits[h].op.Present? && s.commits[h].op.name == q.name && s.commits[h].op.value == q.value)
  {
    WriterState(s0, ls, s, i);
    var cs := s.commits[..s.puts[i].writer.version];
    LastPresentTTL(cs, q);
    j :| 0 <= j < |cs|
      && cs[j].op.Present? && cs[j].op.name == q.name && cs[j].op.value == q.value && cs[j].op.ttl == q.ttl
      && forall h | j < h < |cs| :: !(cs[h].op.Present? && cs[h].op.name == q.name && cs[h].op.value == q.value);
    assert forall h | 0 <= h < |cs| :: cs[h] == s.commits[h];
  }

  ghost predicate TTLOfLast(cs: seq<Commit>, q: Record) {
    exists j | 0 <= j < |cs| ::
      && cs[j].op.Present? && cs[j].op.name == q.name && cs[j].op.value == q.value && cs[j].op.ttl == q.ttl
      && forall h | j < h < |cs| :: !(cs[h].op.Present? && cs[h].op.name == q.name && cs[h].op.value == q.value)
  }

  lemma LastPresentTTL(cs: seq<Commit>, q: Record)
    requires q in Folded(cs).records
    ensures TTLOfLast(cs, q)
  {
    var k := Key(q.name, q.value);
    KeyRegister(cs, k);
    var j := LastPresent(cs, k);
    assert Presents(cs[j], k);
    forall h | j < h < |cs|
      ensures !(cs[h].op.Present? && cs[h].op.name == q.name && cs[h].op.value == q.value)
    {
      assert !Presents(cs[h], k);
    }
  }

  /**
    Every upload of every run carries records of another type, or outside the challenge
    label, exactly as often as the view it was made from; or it is the placeholder alone,
    and there were none.
   */
  lemma UploadPassesOthers(s0: State, ls: seq<Label>, s: State, i: nat)
    requires Run(s0, ls, s) && i < |s.puts|
    ensures var x := s.puts[i].writer;
      && x.views != []
      && var view := Last(x.views);
         || (forall r: DNSRecord | r.typ != "TXT" || !("_acme-challenge." <= r.name) ::
               multiset(x.payload)[r] == multiset(view)[r])
         || (|x.payload| == 1 && x.payload[0].typ == "TXT" && x.payload[0].value == x.cfg.stamp
             && x.payload[0].ttl == 86400 && !("_acme-challenge." <= x.payload[0].name)
             && forall r | r in view :: r.typ == "TXT" && "_acme-challenge." <= r.name)
  {
    WriterReady(s0, ls, s, i);
    var x := s.puts[i].writer;
    var view, ds := Last(x.views), DesiredRecords(x.st.records);
    DesiredIsPlain(x.st.records);
    forall r: DNSRecord | r.typ != "TXT" || !("_acme-challenge." <= r.name)
      ensures multiset(PlanFor(x, view).payload)[r] == multiset(view)[r]
    {
      OthersPass(view, ds, Removal(x.op), x.cfg.ownAll, r);
    }
    if PlanFor(x, view).payload == [] {
      PlaceholderIsOwn(x.cfg.zone, x.cfg.stamp);
      forall r | r in view ensures r.typ == "TXT" && "_acme-challenge." <= r.name {
        assert multiset(view)[r] > 0;
      }
    }
  }

  /**
    In a zone shared with others, without OwnAcmeRecords, every upload lists each name and
    value under the label that its view listed, but for the one it was to remove, and that
    one only if it is stored.
   */
  lemma UploadSharesZone(s0: State, ls: seq<Label>, s: State, i: nat, name: string, value: string)
    requires Run(s0, ls, s) && i < |s.puts| && !s.puts[i].writer.cfg.ownAll && "_acme-challenge." <= name
    ensures var x := s.puts[i].writer;
      && x.views != []
      && var removing := x.op.CleanUp? && x.op.name == name && x.op.value == value;
         Lists(x.payload, name, value) <==>
           Stores(x.st.records, name, value) || (Lists(Last(x.views), name, value) && !removing)
  {
    WriterReady(s0, ls, s, i);
    var x := s.puts[i].writer;
    DesiredIsPlain(x.st.records);
    WantedAreListed(Last(x.views), DesiredRecords(x.st.records), Removal(x.op), false, name, value);
    PlaceholderIsOwn(x.cfg.zone, x.cfg.stamp);
    ListsIsKey(x.payload, name, value);
    ListsIsKey(PlanFor(x, Last(x.views)).payload, name, value);
    PlaceholderAddsNoKey(x.cfg, PlanFor(x, Last(x.views)).payload);
  }

  // ----- in sync -----

  lemma SavedRecords(s0: State, ls: seq<Label>, s: State, a: Id)
    requires Run(s0, ls, s) && a in s.actors && HasSaved(s.actors[a])
    ensures AllChallenge(s.actors[a].st.records)
  {
    StoreRun(s0, ls, s);
    var x := s.actors[a];
    assert HandleOk(s, x);
    forall c | c in s.commits[..x.version] ensures ChallengeOp(c.op) {
      assert c in s.commits;
    }
    FoldedAllChallenge(s.commits[..x.version]);
  }

  /**
    A request that reports the zone in sync saw, in its last view, every name and value
    it saved, with OwnAcmeRecords no other under the challenge label, and none it was to
    remove.
   */
  lemma InSyncInPlainTerms(s0: State, ls: seq<Label>, s: State, a: Id, name: string, value: string)
    requires Run(s0, ls, s) && a in s.actors && s.actors[a].pc == Done(InSync) && "_acme-challenge." <= name
    ensures var x := s.actors[a];
      && x.views != []
      && (Stores(x.st.records, name, value) ==> Lists(Last(x.views), name, value))
      && (x.cfg.ownAll && Lists(Last(x.views), name, value) ==> Stores(x.st.records, name, value))
      && (x.op.CleanUp? && x.op.name == name && x.op.value == value && Lists(Last(x.views), name, value) ==>
            Stores(x.st.records, name, value))
  {
    LogRun(s0, ls, s);
    InSyncShape(s.actors[a]);
    SavedRecords(s0, ls, s, a);
    var x := s.actors[a];
    var ds := DesiredRecords(x.st.records);
    DesiredIsPlain(x.st.records);
    ChangeIsDifference(Last(x.views), ds, Removal(x.op), x.cfg.ownAll);
    WantedAreListed(Last(x.views), ds, Removal(x.op), x.cfg.ownAll, name, value);
  }

  lemma InSyncShape(x: Actor)
    requires LogOk(x) && x.pc == Done(InSync)
    ensures HasSaved(x) && x.views != [] && !PlanFor(x, Last(x.views)).diff.Changed()
  {
    var log := Front(x.log);
    FrontLast(x.log);
    assert log[2] == x.log[2];
  }

  // ----- what a converged request leaves -----

  /** A record presented into a zone that lacked it is there afterwards, with its TTL. */
  lemma PresentedWithTTL(s0: State, s: State, x: Actor)
    requires Converged(s0, s, x) && x.op.Present? && "_acme-challenge." <= x.op.name
    requires AllChallenge(x.st.records) && DistinctRecords(x.st.records)
    requires !Lists(Zone(s0), x.op.name, x.op.value)
    ensures DNSRecord("TXT", x.op.name, x.op.value, x.op.ttl) in Zone(s)
  {
    var ds := DesiredRecords(x.st.records);
    var us := Unexpired(StoredState(s0.cm).records, x.cutoff);
    var i := IndexOf(us, Key(x.op.name, x.op.value));
    var q := x.st.records[i];
    assert q in x.st.records && q.name == x.op.name && q.value == x.op.value && q.ttl == x.op.ttl;
    DesiredIsPlain(x.st.records);
    assert Stores(x.st.records, x.op.name, x.op.value);
    ChangeIsDifference(Zone(s0), ds, Removal(x.op), x.cfg.ownAll);
    WantedAreListed(Zone(s0), ds, Removal(x.op), x.cfg.ownAll, x.op.name, x.op.value);
    StoredIsUploaded(x, Zone(s0), q);
  }

  /** Converged in plain terms. */
  lemma ConvergedInPlainTerms(s0: State, s: State, x: Actor)
    requires Converged(s0, s, x) && AllChallenge(x.st.records)
    ensures forall q | q in StoredState(s.cm).records :: Lists(Zone(s), q.name, q.value)
    ensures x.cfg.ownAll ==>
      forall r | r in Zone(s) && r.typ == "TXT" && "_acme-challenge." <= r.name ::
        Stores(StoredState(s.cm).records, r.name, r.value)
    ensures
      || (forall r: DNSRecord | r.typ != "TXT" || !("_acme-challenge." <= r.name) ::
            multiset(Zone(s))[r] == multiset(Zone(s0))[r])
      || (|Zone(s)| == 1 && Zone(s)[0].typ == "TXT" && Zone(s)[0].ttl == 86400
          && forall r | r in Zone(s0) :: r.typ == "TXT" && "_acme-challenge." <= r.name)
    ensures x.op.Sweep? ==>
      forall q :: q in StoredState(s.cm).records <==>
        q in StoredState(s0.cm).records && (q.addedAt == 0 || q.addedAt >= x.cutoff)
  {
    var rs := x.st.records;
    forall q | q in rs ensures Lists(Zone(s), q.name, q.value) {
      assert RecordKey(q) in StoredKeys(rs);
      ListsIsKey(Zone(s), q.name, q.value);
    }
    if x.cfg.ownAll {
      forall r | r in Zone(s) && r.typ == "TXT" && "_acme-challenge." <= r.name ensures Stores(rs, r.name, r.value) {
        assert Lists(Zone(s), r.name, r.value);
        ListsIsKey(Zone(s), r.name, r.value);
        var q :| q in rs && RecordKey(q) == Key(r.name, r.value);
      }
    }
    forall r: DNSRecord | r.typ != "TXT" || !("_acme-challenge." <= r.name)
      ensures multiset(Zone(s))[r] == multiset(Own(Zone(s)))[r] && multiset(Zone(s0))[r] == multiset(Own(Zone(s0)))[r]
    {
      OthersAreOwn(Zone(s), r);
      OthersAreOwn(Zone(s0), r);
    }
    forall r | r in Zone(s0) && Own(Zone(s0)) == [] ensures r.typ == "TXT" && "_acme-challenge." <= r.name {
      Partition(Zone(s0));
      assert r !in Own(Zone(s0));
    }
    UnexpiredMembers(StoredState(s0.cm).records, x.cutoff);
  }
}
