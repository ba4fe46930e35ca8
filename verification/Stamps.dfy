/**
  The times a request works with: its cutoff and the AddedAt it stamps are readings
  of its own clock between its start and now, so nothing expires before its time.
 */
module Stamps {
  import opened Base
  import opened Records
  import opened Desired
  import opened Register
  import opened Protocol
  import opened LeaseProofs
  import opened TraceProofs
  import opened StoreProofs

  /** Cutoff and stamp were taken one after the other, since `from`, on the request's own clock. */
  predicate InTime(from: int, x: Actor) {
    from <= x.cutoff + x.cfg.maxAge <= x.at <= x.clock
  }

  /** Where a request has both its cutoff and its stamp. */
  predicate HasStamps(pc: PC) {
    match pc
    case Saving | Keying | SerialBefore | Fetching | Refetching | SerialAfter | Putting => true
    case Releasing(_, out) => out.Written? || out.InSync?
    case Clearing(_, _, out) => out.Written? || out.InSync?
    case Done(out) => out.Written? || out.InSync?
    case _ => false
  }

  predicate Stamped(from: int, x: Actor) {
    && from <= x.clock
    && (x.pc.Mutating? ==> from <= x.cutoff + x.cfg.maxAge <= x.clock)
    && (HasStamps(x.pc) ==> InTime(from, x))
  }

  /** The two clock readings apart, no step touches a time. */
  lemma TimesKept(s: State, l: Label)
    requires Enabled(s, l) && !l.Edit? && !l.Spawn? && !l.Expire? && !l.Mutate?
    ensures var x, y := s.actors[l.a], Mover(s, l);
      && y.cutoff == x.cutoff && y.at == x.at && y.cfg == x.cfg && y.clock >= x.clock
      && (y.pc.Mutating? ==> x.pc.Mutating?)
  {
  }

  /** The mutation is the only way to a stamp. */
  lemma StampsKept(s: State, l: Label)
    requires Enabled(s, l) && !l.Edit? && !l.Spawn? && !l.Expire? && !l.Mutate? && HasStamps(Mover(s, l).pc)
    ensures HasStamps(s.actors[l.a].pc)
  {
    if l.GetOwnLease? || l.ClearLease? || l.Tick? {
      assert s.actors[l.a].pc.Releasing? || s.actors[l.a].pc.Clearing? || l.Tick?;
    } else {
      assert l.Save? || l.ReadKey? || l.ReadSerial? || l.Get? || l.Upload?;
    }
  }

  lemma StampStep(s: State, l: Label, from: int)
    requires Enabled(s, l) && !l.Edit? && !l.Spawn? && Stamped(from, s.actors[l.a])
    ensures Stamped(from, Mover(s, l)) && Mover(s, l).cfg == s.actors[l.a].cfg
  {
    if !l.Expire? && !l.Mutate? {
      TimesKept(s, l);
      if HasStamps(Mover(s, l).pc) {
        StampsKept(s, l);
      }
    }
  }

  /** From the start of a request on. */
  lemma {:induction false} StampRun(s0: State, ls: seq<Label>, s: State, a: Id)
    requires Exec(s0, ls) == Some(s) && a in s0.actors && s0.actors[a].pc.Entering?
    ensures a in s.actors && s.actors[a].cfg == s0.actors[a].cfg && Stamped(s0.actors[a].clock, s.actors[a])
    decreases |ls|
  {
    if ls != [] {
      StepTaken(s0, ls, s);
      var p, l := Exec(s0, Front(ls)).value, Last(ls);
      StampRun(s0, Front(ls), p, a);
      if l.Edit? || l.a != a {
        assert s.actors[a] == p.actors[a];
      } else {
        StampStep(p, l, s0.actors[a].clock);
      }
    }
  }

  ghost predicate StampsOk(s: State) {
    forall a | a in s.actors :: Stamped(s.actors[a].start, s.actors[a])
  }

  lemma {:induction false} StampsRun(s0: State, ls: seq<Label>, s: State)
    requires Run(s0, ls, s)
    ensures StampsOk(s)
    decreases |ls|
  {
    if ls != [] {
      RunStep(s0, ls, s);
      var p, l := Exec(s0, Front(ls)).value, Last(ls);
      StampsRun(s0, Front(ls), p);
      forall a | a in s.actors ensures Stamped(s.actors[a].start, s.actors[a]) {
        if l.Edit? || l.a != a {
          assert s.actors[a] == p.actors[a];
        } else if !l.Spawn? {
          OwnTimes(p, l);
          StampStep(p, l, p.actors[a].start);
        }
      }
    }
  }

  /**
    Nothing expires before its time, and what is overdue expires.  A stored record
    loses its key or its AddedAt in a save only by a CleanUp of it, or after the saving
    pod's clock passed AddedAt plus MaxRecordAge; and if that was past when the request
    began, no record of the key is left but one the request itself stamped.
   */
  lemma ExpiryIsDue(s0: State, ls: seq<Label>, s: State, l: Label, r: Record)
    requires Run(s0, ls, s) && Enabled(s, l) && Commits(s, l) && r in StoredState(s.cm).records
    ensures var x, k, after := s.actors[l.a], RecordKey(r), StoredState(Effect(s, l).cm).records;
      var due := r.addedAt != ZERO_TIME && x.clock > r.addedAt + x.cfg.maxAge;
      && (k !in StoredKeys(after) ==> CleansUp(CommitOf(x), k) || due)
      && (forall q | q in after && RecordKey(q) == k :: q.addedAt == r.addedAt || (due && q.addedAt == x.at))
      && (r.addedAt != ZERO_TIME && x.start > r.addedAt + x.cfg.maxAge ==>
            forall q | q in after && RecordKey(q) == k :: q.addedAt == x.at)
  {
    StampsRun(s0, ls, s);
    SaveOnPredecessor(s0, ls, s, l);
    SerializedIntents(s0, ls, s);
    RecordsAreRegisters(s.commits, RecordKey(r));
    AppliedTo(CommitOf(s.actors[l.a]), StoredState(s.cm), r);
    assert Stamped(s.actors[l.a].start, s.actors[l.a]);
  }

  /** What one commit does to a record: kept with its AddedAt, cleaned up, or expired and perhaps presented anew. */
  lemma AppliedTo(c: Commit, st: ZoneState, r: Record)
    requires DistinctRecords(st.records) && r in st.records
    ensures var k, after := RecordKey(r), Applied(c, st).records;
      && (k !in StoredKeys(after) ==> CleansUp(c, k) || IsExpired(r, c.cutoff))
      && forall q | q in after && RecordKey(q) == k ::
           q.addedAt == if IsExpired(r, c.cutoff) then c.at else r.addedAt
  {
    var k, after := RecordKey(r), Applied(c, st).records;
    CommitOfCell(c, st, k);
    CellOfMember(st.records, r);
    CellOfMissing(after, k);
    forall q | q in after && RecordKey(q) == k ensures CellOf(after, k) == Live(q.addedAt, q.ttl) {
      CellOfMember(after, q);
    }
  }
}
