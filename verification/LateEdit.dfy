/**
  What the serial check cannot do: an edit made after the second serial read is
  overwritten, even with the lock held and every read fresh.
 */
module LateEdit {
  import opened Base
  import opened Records
  import opened Desired
  import opened Protocol
  import opened LeaseProofs
  import opened TraceProofs
  import opened StoreProofs
  import opened ZoneProofs
  import opened Overwrites
  import opened Convergence
  import opened LateWriter

  /** Quiet runs read what there is. */
  lemma {:induction false} QuietIsFresh(
    s0: State, ls0: seq<Label>, s1: State, ls: seq<Label>, s: State, a: Id)
    requires Run(s0, ls0, s1) && FreshRun(s0, ls0) && Exec(s1, ls) == Some(s) && QuietRun(s1, ls, a)
    ensures Run(s0, ls0 + ls, s) && FreshRun(s0, ls0 + ls)
    decreases |ls|
  {
    if ls == [] {
      assert ls0 + ls == ls0;
    } else {
      var p := QuietTaken(s1, ls, s, a);
      QuietIsFresh(s0, ls0, s1, Front(ls), p, a);
      ReadRun(s0, ls0 + Front(ls), p);
      QuietStepIsFresh(p, Last(ls), a);
      FreshSnoc(s0, ls0 + Front(ls), p, Last(ls));
      Regroup(ls0, ls);
    }
  }

  lemma QuietTaken(s: State, ls: seq<Label>, t: State, a: Id) returns (p: State)
    requires ls != [] && Exec(s, ls) == Some(t) && QuietRun(s, ls, a)
    ensures Exec(s, Front(ls)) == Some(p) && QuietRun(s, Front(ls), a)
    ensures Enabled(p, Last(ls)) && Quiet(p, Last(ls), a) && t == Effect(p, Last(ls))
  {
    p := Exec(s, Front(ls)).value;
  }

  lemma QuietStepIsFresh(s: State, l: Label, a: Id)
    requires ReadsOk(s) && Enabled(s, l) && Quiet(s, l, a)
    ensures Fresh(s, l)
  {
    if l.Get? {
      assert ReadOk(s.zones, s.actors[a]);
    }
  }

  lemma FreshSnoc(s0: State, ls: seq<Label>, s: State, l: Label)
    requires Run(s0, ls, s) && FreshRun(s0, ls) && Enabled(s, l) && Fresh(s, l)
    ensures Run(s0, ls + [l], Effect(s, l)) && FreshRun(s0, ls + [l])
  {
    ExecSnoc(s0, ls, l);
    Snoc(ls, l);
  }

  /** A writer about to upload, its serials checked, in a run with fresh reads. */
  lemma Checked(cfg: Config, op: Op) returns (ls: seq<Label>, s: State)
    requires Usable(cfg) && Presenting(op) && cfg.serialRequired
    ensures Run(Blank(), ls, s) && FreshRun(Blank(), ls) && PunctualRun(Blank(), ls, 0, 0)
    ensures s.zones == Blank().zones && s.puts == [] && s.actors.Keys == {1}
    ensures AboutToPut(s.actors[1], cfg, op) && s.actors[1].clock == s.actors[1].start == 0
    ensures s.actors[1].before.Some? && s.actors[1].after.Some?
  {
    ls, s := Stalled(cfg, op, 0, 0);
    var l := ls[0];
    FreshSnoc(Blank(), [], Blank(), l);
    assert [] + [l] == [l] && ls == [l] + ls[1..];
    SplitExec(Blank(), l, ls[1..], s);
    QuietIsFresh(Blank(), [l], Effect(Blank(), l), ls[1..], s, 1);
    LogRun(Blank(), ls, s);
    ReadyToPut(s.actors[1]);
  }

  /** A run continues from the state its first step leads to. */
  lemma {:induction false} SplitExec(s: State, l: Label, ls: seq<Label>, t: State)
    requires Enabled(s, l) && Exec(s, [l] + ls) == Some(t)
    ensures Exec(Effect(s, l), ls) == Some(t)
    decreases |ls|
  {
    if ls == [] {
      assert [l] + ls == [l] && Front([l]) == [] && Last([l]) == l;
    } else {
      StepTaken(s, [l] + ls, t);
      assert Front([l] + ls) == [l] + Front(ls) && Last([l] + ls) == Last(ls);
      SplitExec(s, l, Front(ls), Exec(s, [l] + Front(ls)).value);
    }
  }

  /**
    The window cannot be closed by the check: even with serials required and moving,
    fresh reads, one clock and an unexpired lease, some run has a validated upload wipe
    out a record that was edited into the zone after the second serial read.
   */
  lemma EditOverwritten(cfg: Config, op: Op, r: DNSRecord) returns (ls: seq<Label>, s: State)
    requires Usable(cfg) && Presenting(op) && cfg.serialRequired && cfg.seconds >= 0 && !IsChallengeRecord(r)
    ensures Run(Blank(), ls, s) && FreshRun(Blank(), ls) && TimelyRun(Blank(), ls) && SerialsMove(s.zones)
    ensures s.puts != [] && Last(s.puts).over + 1 < |s.zones| && EditedAt(Blank(), ls, Last(s.puts).over)
    ensures var p := Last(s.puts);
      && p.writer.before.Some? && p.writer.after.Some?
      && r in s.zones[p.over].records && r !in s.zones[p.over + 1].records
  {
    var ls0, t := Checked(cfg, op);
    var edit := Edit([r], 1);
    AfterEdit(Blank(), ls0, t, edit);
    ls, s := PutOverEdit(Blank(), ls0 + [edit], Effect(t, edit), Label.Upload(1, Deliver, 2), cfg, r);
  }

  lemma PutOverEdit(s0: State, ls0: seq<Label>, t: State, put: Label, cfg: Config, r: DNSRecord)
    returns (ls: seq<Label>, s: State)
    requires cfg.seconds >= 0 && !IsChallengeRecord(r) && put == Label.Upload(1, Deliver, 2)
    requires Run(s0, ls0, t) && FreshRun(s0, ls0) && PunctualRun(s0, ls0, 0, 0) && EditedAt(s0, ls0, 1)
    requires |t.zones| == 2 && t.zones[0].serial == 0 && t.zones[1] == ZoneVersion([r], 1) && t.puts == []
    requires t.actors.Keys == {1} && Enabled(t, put) && Own(t.actors[1].payload) == []
    requires t.actors[1].clock == t.actors[1].start == 0 && t.actors[1].cfg == cfg
    ensures Run(s0, ls, s) && FreshRun(s0, ls) && TimelyRun(s0, ls) && EditedAt(s0, ls, 1)
    ensures |s.zones| == 3 && SerialsMove(s.zones) && s.zones[1].records == [r] && r !in s.zones[2].records
    ensures |s.puts| == 1 && s.puts[0].over == 1 && s.puts[0].writer == t.actors[1]
  {
    OnTime(t, put);
    FreshSnoc(s0, ls0, t, put);
    PunctualSnoc(s0, ls0, t, put, 0, 0);
    ls, s := ls0 + [put], Effect(t, put);
    EditStays(s0, ls0, put, 1);
    PutEffect(t, put, cfg);
    PunctualIsTimely(s0, ls, s, 0, 0);
    MovingSerials(s.zones);
    NoneOwn(s.zones[2].records, r);
  }

  lemma MovingSerials(zones: seq<ZoneVersion>)
    requires |zones| == 3 && zones[0].serial == 0 && zones[1].serial == 1 && zones[2].serial == 2
    ensures SerialsMove(zones)
  {
  }

  lemma OnTime(t: State, put: Label)
    requires put == Label.Upload(1, Deliver, 2) && Enabled(t, put) && t.actors.Keys == {1}
    requires t.actors[1].clock == t.actors[1].start
    ensures Fresh(t, put) && Punctual(t, put, 0, 0)
  {
  }

  /** What the PUT leaves behind. */
  lemma PutEffect(t: State, put: Label, cfg: Config)
    requires put == Label.Upload(1, Deliver, 2) && Enabled(t, put) && |t.zones| == 2 && t.puts == []
    requires t.actors.Keys == {1} && t.actors[1].cfg == cfg && cfg.seconds >= 0
    ensures var s := Effect(t, put);
      && s.zones == t.zones + [ZoneVersion(t.actors[1].payload, 2)] && LongLeases(s, 0, 0)
      && |s.puts| == 1 && s.puts[0].over == 1 && s.puts[0].writer == t.actors[1]
  {
    StillMover(t, put);
  }

  lemma AfterEdit(s0: State, ls: seq<Label>, s: State, edit: Label)
    requires Run(s0, ls, s) && FreshRun(s0, ls) && PunctualRun(s0, ls, 0, 0) && edit.Edit?
    ensures var ls', s' := ls + [edit], Effect(s, edit);
      && Run(s0, ls', s') && FreshRun(s0, ls') && PunctualRun(s0, ls', 0, 0) && EditedAt(s0, ls', |s.zones|)
      && s'.actors == s.actors && s'.puts == s.puts
      && s'.zones == s.zones + [ZoneVersion(edit.records, edit.serial)]
  {
    FreshSnoc(s0, ls, s, edit);
    PunctualSnoc(s0, ls, s, edit, 0, 0);
    EditMakes(s0, ls, s, edit);
  }

  lemma EditMakes(s0: State, ls: seq<Label>, s: State, l: Label)
    requires Exec(s0, ls) == Some(s) && l.Edit?
    ensures EditedAt(s0, ls + [l], |s.zones|)
  {
    assert (ls + [l])[..|ls|] == ls && EditStep(s0, ls + [l], |s.zones|, |ls|);
  }

  lemma EditStays(s0: State, ls: seq<Label>, l: Label, v: int)
    requires EditedAt(s0, ls, v)
    ensures EditedAt(s0, ls + [l], v)
  {
    var m :| EditStep(s0, ls, v, m);
    assert (ls + [l])[..m] == ls[..m] && EditStep(s0, ls + [l], v, m);
  }

  lemma NoneOwn(rs: seq<DNSRecord>, r: DNSRecord)
    requires Own(rs) == [] && !IsChallengeRecord(r)
    ensures r !in rs
  {
    Partition(rs);
  }
}
