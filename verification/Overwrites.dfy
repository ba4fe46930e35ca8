/**
  What an upload overwrites.  Who made each version of the zone; that in timely runs
  only edits can come between the last serial read and the PUT; and that with fresh
  reads own records, a placeholder among them, survive every interleaving.
 */
module Overwrites {
  import opened Base
  import opened Records
  import opened Payload
  import opened Names
  import opened Desired
  import opened Protocol
  import opened LeaseProofs
  import opened TraceProofs
  import opened StoreProofs
  import opened ZoneProofs

  // ----- who made a version -----

  /** Version `v` is what some upload sent. */
  ghost predicate UploadedAt(s: State, v: int) {
    exists j | 0 <= j < |s.puts| :: s.puts[j].over + 1 == v
  }

  /** Step `m` of the run is an edit that makes version `v`. */
  ghost predicate EditStep(s0: State, ls: seq<Label>, v: int, m: int) {
    0 <= m < |ls| && ls[m].Edit? && Exec(s0, ls[..m]).Some? && |Exec(s0, ls[..m]).value.zones| == v
  }

  /** Version `v` was made by an edit. */
  ghost predicate EditedAt(s0: State, ls: seq<Label>, v: int) {
    exists m :: EditStep(s0, ls, v, m)
  }

  /** The uploads, in order, are versions of the zone. */
  ghost predicate PutsOk(s: State) {
    && s.zones != []
    && (forall i | 0 <= i < |s.puts| ::
          s.puts[i].over + 1 < |s.zones| && s.zones[s.puts[i].over + 1].records == s.puts[i].writer.payload)
    && (forall i, j | 0 <= i < j < |s.puts| :: s.puts[i].over < s.puts[j].over)
  }

  lemma {:induction false} PutsRun(s0: State, ls: seq<Label>, s: State)
    requires Run(s0, ls, s)
    ensures PutsOk(s)
    decreases |ls|
  {
    if ls != [] {
      RunStep(s0, ls, s);
      PutsRun(s0, Front(ls), Exec(s0, Front(ls)).value);
      VersionsStep(Exec(s0, Front(ls)).value, Last(ls));
    }
  }

  lemma VersionsStep(s: State, l: Label)
    requires PutsOk(s) && Enabled(s, l)
    ensures PutsOk(Effect(s, l))
  {
    var s' := Effect(s, l);
    assert s.zones <= s'.zones && s.puts <= s'.puts;
    forall i | 0 <= i < |s'.puts|
      ensures s'.puts[i].over + 1 < |s'.zones| && s'.zones[s'.puts[i].over + 1].records == s'.puts[i].writer.payload
    {
      if i < |s.puts| {
        assert s'.puts[i] == s.puts[i];
      } else {
        assert Uploads(l);
      }
    }
  }

  /** Every version but the first was uploaded or made by an edit. */
  lemma {:induction false} VersionsHaveAuthors(s0: State, ls: seq<Label>, s: State, v: int)
    requires Run(s0, ls, s) && 1 <= v < |s.zones|
    ensures UploadedAt(s, v) || EditedAt(s0, ls, v)
    decreases |ls|
  {
    RunStep(s0, ls, s);
    var p, l := Exec(s0, Front(ls)).value, Last(ls);
    PutsRun(s0, Front(ls), p);
    assert p.zones <= s.zones && p.puts <= s.puts;
    if v < |p.zones| {
      VersionsHaveAuthors(s0, Front(ls), p, v);
      if UploadedAt(p, v) {
        var j :| 0 <= j < |p.puts| && p.puts[j].over + 1 == v;
        assert s.puts[j] == p.puts[j];
      } else {
        var m :| EditStep(s0, Front(ls), v, m);
        assert ls[..m] == Front(ls)[..m];
        assert EditStep(s0, ls, v, m);
      }
    } else if l.Edit? {
      assert ls[..|ls| - 1] == Front(ls);
      assert EditStep(s0, ls, v, |ls| - 1);
    } else {
      assert Uploads(l) && s.puts[|p.puts|].over + 1 == v;
    }
  }

  // ----- the window after the second serial read -----

  /** No upload since the writer's second serial read. */
  predicate NoneSince(puts: seq<Put>, mid: nat) {
    forall j | 0 <= j < |puts| :: puts[j].over < mid
  }

  predicate AfterCheck(x: Actor) {
    x.pc.Putting? && x.before.Some?
  }

  /** While the holder is past its second serial read nobody uploads. */
  ghost predicate WindowOk(s: State) {
    && (forall a | a in s.actors && IsHolder(s, a) && AfterCheck(s.actors[a]) ::
          s.actors[a].mid < |s.zones| && NoneSince(s.puts, s.actors[a].mid))
    && (forall i | 0 <= i < |s.puts| && s.puts[i].writer.before.Some? ::
          s.puts[i].writer.mid <= s.puts[i].over && NoneSince(s.puts[..i], s.puts[i].writer.mid))
  }

  /** The second serial read is the only way past the check. */
  lemma CheckStep(s: State, l: Label)
    requires Enabled(s, l) && !l.Edit? && !l.Spawn? && AfterCheck(Mover(s, l))
    ensures Effect(s, l).zones == s.zones && Effect(s, l).puts == s.puts && Effect(s, l).lease == s.lease
    ensures Mover(s, l).mid == Current(s) || (AfterCheck(s.actors[l.a]) && Mover(s, l).mid == s.actors[l.a].mid)
  {
    if l.Get? {
      NoShortcut(s, l);
    } else {
      assert l.ReadSerial? || l.Tick?;
    }
  }

  /** A GET with a first serial in hand leads to the second serial read. */
  lemma NoShortcut(s: State, l: Label)
    requires Enabled(s, l) && l.Get?
    ensures !AfterCheck(Mover(s, l))
  {
  }

  lemma WindowStep(s: State, l: Label, a: Id)
    requires WindowOk(s) && PutsOk(s) && LeaseOk(s) && Enabled(s, l) && Timely(s, l)
    requires var s' := Effect(s, l); a in s'.actors && IsHolder(s', a) && AfterCheck(s'.actors[a])
    ensures var s' := Effect(s, l); s'.actors[a].mid < |s'.zones| && NoneSince(s'.puts, s'.actors[a].mid)
  {
    if l.Edit? || l.a != a {
      assert LeaseOkFor(s, a);
      HolderOnlyBySelf(s, l, a);
      NobodyElseUploads(s, l, a);
    } else if !l.Spawn? {
      CheckStep(s, l);
    }
  }

  /** A timely upload is the holder's. */
  lemma NobodyElseUploads(s: State, l: Label, a: Id)
    requires LeaseOk(s) && Enabled(s, l) && Timely(s, l) && IsHolder(s, a) && (l.Edit? || l.a != a)
    ensures Effect(s, l).puts == s.puts && s.zones <= Effect(s, l).zones
    ensures !l.Edit? ==> Effect(s, l).zones == s.zones
  {
    if Uploads(l) {
      TimelyHolder(s, l);
    }
  }

  lemma {:induction false} WindowRun(s0: State, ls: seq<Label>, s: State)
    requires Run(s0, ls, s) && TimelyRun(s0, ls)
    ensures WindowOk(s)
    decreases |ls|
  {
    if ls != [] {
      RunStep(s0, ls, s);
      var p, l := Exec(s0, Front(ls)).value, Last(ls);
      WindowRun(s0, Front(ls), p);
      PutsRun(s0, Front(ls), p);
      LogRun(s0, Front(ls), p);
      LeaseRun(s0, Front(ls), p);
      forall a | a in s.actors && IsHolder(s, a) && AfterCheck(s.actors[a])
        ensures s.actors[a].mid < |s.zones| && NoneSince(s.puts, s.actors[a].mid)
      {
        WindowStep(p, l, a);
      }
      WindowPuts(p, l);
    }
  }

  lemma WindowPuts(s: State, l: Label)
    requires WindowOk(s) && LeaseOk(s) && LogsOk(s) && Enabled(s, l) && Timely(s, l)
    ensures var s' := Effect(s, l);
      forall i | 0 <= i < |s'.puts| && s'.puts[i].writer.before.Some? ::
        s'.puts[i].writer.mid <= s'.puts[i].over && NoneSince(s'.puts[..i], s'.puts[i].writer.mid)
  {
    var s' := Effect(s, l);
    if Uploads(l) {
      TimelyHolder(s, l);
      assert s'.puts[..|s.puts|] == s.puts;
    }
    forall i | 0 <= i < |s.puts| ensures s'.puts[i] == s.puts[i] && s'.puts[..i] == s.puts[..i] {
    }
  }

  /** In timely runs every version between the second serial read and the upload was made by an edit. */
  lemma OnlyEditsInWindow(s0: State, ls: seq<Label>, s: State, i: nat, v: int)
    requires Run(s0, ls, s) && TimelyRun(s0, ls) && i < |s.puts| && s.puts[i].writer.before.Some?
    requires s.puts[i].writer.mid < v <= s.puts[i].over
    ensures EditedAt(s0, ls, v)
  {
    WindowRun(s0, ls, s);
    PutsRun(s0, ls, s);
    VersionsHaveAuthors(s0, ls, s, v);
    NotUploaded(s.puts, i, v);
  }

  lemma NotUploaded(puts: seq<Put>, i: nat, v: int)
    requires i < |puts| && forall h, j | 0 <= h < j < |puts| :: puts[h].over < puts[j].over
    requires NoneSince(puts[..i], puts[i].writer.mid) && puts[i].writer.mid < v <= puts[i].over
    ensures forall j | 0 <= j < |puts| :: puts[j].over + 1 != v
  {
    forall j | 0 <= j < |puts| ensures puts[j].over + 1 != v {
      if j < i {
        assert puts[..i][j] == puts[j];
      }
    }
  }

  /**
    The unprotected window is exactly the one after the second serial read.  In timely
    runs whatever happened to the zone since then was done by edits; so without one, a
    validated upload replaces the very version it read and keeps its own records.
   */
  lemma WindowIsExact(s0: State, ls: seq<Label>, s: State, i: nat)
    requires Run(s0, ls, s) && FreshRun(s0, ls) && TimelyRun(s0, ls) && SerialsMove(s.zones) && i < |s.puts|
    requires s.puts[i].writer.before.Some? && s.puts[i].writer.after.Some?
    ensures var p := s.puts[i]; var x := p.writer;
      && x.mid <= p.over < |s.zones|
      && (forall v | x.mid < v <= p.over :: EditedAt(s0, ls, v))
      && ((forall v | x.mid < v <= p.over :: !EditedAt(s0, ls, v)) ==> p.over == x.mid == x.got)
      && (p.over == x.mid ==>
            Own(x.payload) == Own(s.zones[p.over].records) ||
            (Own(s.zones[p.over].records) == [] && x.payload == [Placeholder(x.cfg.zone, x.cfg.stamp)]))
  {
    ValidatedUpload(s0, ls, s, i);
    var p := s.puts[i];
    forall v | p.writer.mid < v <= p.over ensures EditedAt(s0, ls, v) {
      OnlyEditsInWindow(s0, ls, s, i, v);
    }
    if p.over != p.writer.mid {
      assert EditedAt(s0, ls, p.writer.mid + 1);
    }
  }

  // ----- fresh reads without edits -----

  /** Every GET serves the current version, and nobody else changes the zone. */
  predicate UpToDate(s: State, l: Label)
    requires Enabled(s, l)
  {
    !l.Edit? && (l.Get? && l.which.Some? ==> l.which.value == Current(s))
  }

  ghost predicate CurrentRun(s0: State, ls: seq<Label>)
    decreases |ls|
  {
    ls == [] ||
    (CurrentRun(s0, Front(ls)) && Exec(s0, ls).Some? && UpToDate(Exec(s0, Front(ls)).value, Last(ls)))
  }

  predicate HasView(pc: PC) {
    pc.Refetching? || pc.SerialAfter? || pc.Putting?
  }

  predicate Sees(x: Actor, zone: seq<DNSRecord>) {
    x.views != [] && Last(x.views) == zone
  }

  /** The holder's view is the zone, and every upload replaced what its writer saw. */
  ghost predicate ViewsOk(s: State) {
    && s.zones != []
    && (forall a | a in s.actors && IsHolder(s, a) && HasView(s.actors[a].pc) :: Sees(s.actors[a], Zone(s)))
    && (forall i | 0 <= i < |s.puts| ::
          s.puts[i].over < |s.zones| && Sees(s.puts[i].writer, s.zones[s.puts[i].over].records))
  }

  /** A view is taken by a GET and kept until the next one. */
  lemma ViewStep(s: State, l: Label)
    requires s.zones != [] && Enabled(s, l) && UpToDate(s, l) && !l.Spawn? && HasView(Mover(s, l).pc)
    ensures Effect(s, l).zones == s.zones && Effect(s, l).lease == s.lease
    ensures l.Get? || (HasView(s.actors[l.a].pc) && Mover(s, l).views == s.actors[l.a].views)
    ensures l.Get? ==> Sees(Mover(s, l), Zone(s))
  {
    if l.Get? {
      Snoc(s.actors[l.a].views, Zone(s));
    } else {
      assert l.ReadSerial? || l.Tick?;
    }
  }

  lemma HolderSees(s: State, l: Label, a: Id)
    requires ViewsOk(s) && LeaseOk(s) && Enabled(s, l) && Timely(s, l) && UpToDate(s, l)
    requires var s' := Effect(s, l); a in s'.actors && IsHolder(s', a) && HasView(s'.actors[a].pc)
    ensures Sees(Effect(s, l).actors[a], Zone(Effect(s, l)))
  {
    if l.a != a {
      assert LeaseOkFor(s, a);
      HolderOnlyBySelf(s, l, a);
      NobodyElseUploads(s, l, a);
    } else if !l.Spawn? {
      ViewStep(s, l);
    }
  }

  lemma {:induction false} ViewsRun(s0: State, ls: seq<Label>, s: State)
    requires Run(s0, ls, s) && TimelyRun(s0, ls) && CurrentRun(s0, ls)
    ensures ViewsOk(s)
    decreases |ls|
  {
    if ls != [] {
      RunStep(s0, ls, s);
      var p, l := Exec(s0, Front(ls)).value, Last(ls);
      ViewsRun(s0, Front(ls), p);
      LeaseRun(s0, Front(ls), p);
      forall a | a in s.actors && IsHolder(s, a) && HasView(s.actors[a].pc) ensures Sees(s.actors[a], Zone(s)) {
        HolderSees(p, l, a);
      }
      ViewsPuts(p, l);
    }
  }

  lemma ViewsPuts(s: State, l: Label)
    requires ViewsOk(s) && LeaseOk(s) && Enabled(s, l) && Timely(s, l)
    ensures var s' := Effect(s, l);
      forall i | 0 <= i < |s'.puts| ::
        s'.puts[i].over < |s'.zones| && Sees(s'.puts[i].writer, s'.zones[s'.puts[i].over].records)
  {
    var s' := Effect(s, l);
    assert s.zones <= s'.zones;
    if Uploads(l) {
      TimelyHolder(s, l);
    }
    forall i | 0 <= i < |s'.puts|
      ensures s'.puts[i].over < |s'.zones| && Sees(s'.puts[i].writer, s'.zones[s'.puts[i].over].records)
    {
      assert i < |s.puts| ==> s'.puts[i] == s.puts[i];
    }
  }

  /**
    In timely runs with fresh reads and no edits an upload replaces exactly the version
    its writer saw, so it keeps the own records it overwrites, or writes the placeholder
    when there were none.
   */
  lemma UploadKeepsOwn(s0: State, ls: seq<Label>, s: State, i: nat)
    requires Run(s0, ls, s) && TimelyRun(s0, ls) && CurrentRun(s0, ls) && i < |s.puts|
    ensures var p := s.puts[i]; var x := p.writer;
      && p.over + 1 < |s.zones| && Sees(x, s.zones[p.over].records)
      && s.zones[p.over + 1].records == x.payload
      && (Own(x.payload) == Own(s.zones[p.over].records) ||
          (Own(s.zones[p.over].records) == [] && x.payload == [Placeholder(x.cfg.zone, x.cfg.stamp)]))
  {
    ViewsRun(s0, ls, s);
    PutsRun(s0, ls, s);
    WriterReady(s0, ls, s, i);
    OwnOfUpload(s.puts[i].writer);
  }

  lemma {:induction false} NoEdits(s0: State, ls: seq<Label>, s: State, v: int)
    requires Exec(s0, ls) == Some(s) && CurrentRun(s0, ls)
    ensures !EditedAt(s0, ls, v)
    decreases |ls|
  {
    if ls != [] {
      NoEdits(s0, Front(ls), Exec(s0, Front(ls)).value, v);
      forall m | 0 <= m < |ls| ensures !EditStep(s0, ls, v, m) {
        if m < |ls| - 1 {
          assert ls[..m] == Front(ls)[..m] && ls[m] == Front(ls)[m];
          assert !EditStep(s0, Front(ls), v, m);
        }
      }
    }
  }

  /**
    Own records, a placeholder among them, survive every interleaving of any number of
    timely requests with fresh reads, and no second placeholder is written.
   */
  lemma OwnRecordsSurvive(s0: State, ls: seq<Label>, s: State, v: nat, w: nat)
    requires Run(s0, ls, s) && TimelyRun(s0, ls) && CurrentRun(s0, ls)
    requires v <= w < |s.zones| && Own(s.zones[v].records) != []
    ensures Own(s.zones[w].records) == Own(s.zones[v].records)
  {
    forall u | 1 <= u < |s.zones| ensures KeepsOwn(s.zones, u) {
      NextVersion(s0, ls, s, u);
    }
    OwnChain(s.zones, v, w);
  }

  /** Version `u` keeps the own records of the one before, if that had any. */
  predicate KeepsOwn(zones: seq<ZoneVersion>, u: int)
    requires 1 <= u < |zones|
  {
    Own(zones[u].records) == Own(zones[u - 1].records) || Own(zones[u - 1].records) == []
  }

  lemma {:induction false} OwnChain(zones: seq<ZoneVersion>, v: nat, w: nat)
    requires v <= w < |zones| && Own(zones[v].records) != []
    requires forall u | 1 <= u < |zones| :: KeepsOwn(zones, u)
    ensures Own(zones[w].records) == Own(zones[v].records)
    decreases w
  {
    if v < w {
      OwnChain(zones, v, w - 1);
      assert KeepsOwn(zones, w);
    }
  }

  lemma NextVersion(s0: State, ls: seq<Label>, s: State, w: nat)
    requires Run(s0, ls, s) && TimelyRun(s0, ls) && CurrentRun(s0, ls) && 1 <= w < |s.zones|
    ensures KeepsOwn(s.zones, w)
  {
    VersionsHaveAuthors(s0, ls, s, w);
    NoEdits(s0, ls, s, w);
    var j :| 0 <= j < |s.puts| && s.puts[j].over + 1 == w;
    UploadKeepsOwn(s0, ls, s, j);
  }

  /** When there is nothing to upload: no own records and no key to keep or add. */
  lemma EmptyPlan(x: Actor, view: seq<DNSRecord>)
    requires AllChallenge(x.st.records)
    ensures PlanFor(x, view).payload == [] <==>
      Own(view) == [] && TargetKeys(view, DesiredRecords(x.st.records), Removal(x.op), x.cfg.ownAll) == {}
  {
    DesiredMeaning(x.st.records);
    PayloadMeaning(view, DesiredRecords(x.st.records), Removal(x.op), x.cfg.ownAll);
    NoRecords(PlanFor(x, view).payload);
  }

  lemma NoRecords(rs: seq<DNSRecord>)
    ensures rs == [] <==> Own(rs) == [] && ChallengeKeys(rs) == {}
  {
    Partition(rs);
    if rs != [] {
      if IsChallengeRecord(rs[0]) {
        assert KeyOf(rs[0]) in ChallengeKeys(rs);
      } else {
        assert rs[0] in Own(rs);
      }
    }
  }

  /**
    An upload that would be empty is the placeholder, and from then on the placeholder
    is the one own record of the zone, whatever requests follow.
   */
  lemma PlaceholderStays(s0: State, ls: seq<Label>, s: State, i: nat, w: nat)
    requires Run(s0, ls, s) && TimelyRun(s0, ls) && CurrentRun(s0, ls)
    requires i < |s.puts| && s.puts[i].writer.views != []
    requires PlanFor(s.puts[i].writer, Last(s.puts[i].writer.views)).payload == []
    requires s.puts[i].over < w < |s.zones|
    ensures var x := s.puts[i].writer;
      && s.zones[s.puts[i].over + 1].records == [Placeholder(x.cfg.zone, x.cfg.stamp)]
      && Own(s.zones[w].records) == [Placeholder(x.cfg.zone, x.cfg.stamp)]
  {
    var p := s.puts[i];
    var ph := Placeholder(p.writer.cfg.zone, p.writer.cfg.stamp);
    UploadKeepsOwn(s0, ls, s, i);
    WriterReady(s0, ls, s, i);
    PlaceholderIsOwn(p.writer.cfg.zone, p.writer.cfg.stamp);
    assert Own([ph]) == Own([]) + [ph] by {
      Snoc([], ph);
      assert [] + [ph] == [ph];
    }
    OwnRecordsSurvive(s0, ls, s, p.over + 1, w);
  }
}
