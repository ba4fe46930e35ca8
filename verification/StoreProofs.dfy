/**
  The stored intents.  Optimistic concurrency alone makes the ConfigMap the fold of
  the committed saves, even when the lock has failed; with the lock held at Load
  and at PUT, every upload carries exactly the stored challenge keys.
 */
module StoreProofs {
  import opened Base
  import opened Records
  import opened Payload
  import opened Names
  import opened Desired
  import opened Register
  import opened Protocol
  import opened LeaseProofs
  import opened TraceProofs

  // ----- the ConfigMap is the fold of its commits -----

  /** The stored state an actor loaded. */
  ghost function LoadedFrom(s: State, x: Actor): ZoneState
    requires x.version <= |s.commits|
  {
    Folded(s.commits[..x.version])
  }

  predicate HasSaved(x: Actor) {
    |x.log| >= 3 && x.log[2].Saved?
  }

  ghost predicate HandleOk(s: State, x: Actor) {
    && (x.pc.Expiring? || x.pc.Mutating? || x.pc.Saving? || HasSaved(x) ==> x.version <= |s.commits|)
    && (x.pc.Expiring? ==> x.st == ZoneState(Secret(x.op, LoadedFrom(s, x).secret), LoadedFrom(s, x).records))
    && (x.pc.Mutating? ==>
          x.st == ZoneState(Secret(x.op, LoadedFrom(s, x).secret), Unexpired(LoadedFrom(s, x).records, x.cutoff)))
    && (x.pc.Saving? ==> x.st == Applied(CommitOf(x), LoadedFrom(s, x)))
    && (HasSaved(x) ==> x.version >= 1 && s.commits[x.version - 1] == CommitOf(x) && x.st == LoadedFrom(s, x))
  }

  ghost predicate StoreOk(s: State) {
    && LogsOk(s)
    && (s.cm.None? <==> s.commits == [])
    && StoredVersion(s.cm) == |s.commits|
    && StoredState(s.cm) == Folded(s.commits)
    && (forall c | c in s.commits :: ChallengeOp(c.op))
    && (forall a | a in s.actors :: HandleOk(s, s.actors[a]))
    && (forall i | 0 <= i < |s.puts| :: HandleOk(s, s.puts[i].writer) && StoredThen(s.commits, s.puts[i]))
  }

  /** The state stored when an upload was made. */
  predicate StoredThen(commits: seq<Commit>, p: Put) {
    p.writer.version <= p.saves <= |commits| && p.stored == Folded(commits[..p.saves])
  }

  /** Older prefixes of the history do not change. */
  lemma HandleStays(s: State, s': State, x: Actor)
    requires HandleOk(s, x) && s.commits <= s'.commits
    ensures HandleOk(s', x)
  {
    if x.version <= |s.commits| {
      assert s'.commits[..x.version] == s.commits[..x.version];
    }
  }

  lemma LogPrefix(x: Actor, e: Event)
    requires |x.log| >= 2
    ensures |x.log| >= 3 ==> (x.log + [e])[2] == x.log[2]
    ensures |x.log| == 2 ==> (x.log + [e])[2] == e
  {
  }

  /** Between load and save, and after the save, only those two steps and the mutation touch the handle. */
  lemma HandleKept(s: State, l: Label)
    requires Enabled(s, l) && !l.Edit? && !l.Spawn?
    requires !l.Load? && !l.Expire? && !l.Mutate? && !l.Save?
    ensures var x, x' := s.actors[l.a], Mover(s, l);
      x'.st == x.st && x'.version == x.version && x'.cutoff == x.cutoff && x'.at == x.at && x'.op == x.op
  {
  }

  lemma OutsideStays(s: State, l: Label)
    requires Enabled(s, l) && !l.Edit? && !l.Spawn?
    requires !l.Load? && !l.Expire? && !l.Mutate? && !l.Save?
    ensures !Unsaved(Mover(s, l).pc) || Mover(s, l).pc == s.actors[l.a].pc
  {
  }

  /** Events are only ever added, and the save is never added late. */
  lemma SavedKept(s: State, l: Label)
    requires Enabled(s, l) && !l.Edit? && !l.Spawn? && LogOk(s.actors[l.a])
    requires !l.Load? && !l.Save?
    ensures HasSaved(Mover(s, l)) <==> HasSaved(s.actors[l.a])
  {
    SaveIsThird(s.actors[l.a]);
    if l.ReadKey? || l.ReadSerial? || l.Get? || l.Upload? {
      LogGrows(s, l);
    } else {
      LogKept(s, l);
    }
  }

  /** Before the lock a trace is empty, and after the save it has at least three events. */
  lemma SaveIsThird(x: Actor)
    requires LogOk(x)
    ensures x.pc.Creating? || x.pc.Updating? ==> x.log == []
    ensures Settled(x.pc) ==> |x.log| >= 3
  {
  }

  lemma LogKept(s: State, l: Label)
    requires Enabled(s, l) && !l.Edit? && !l.Spawn?
    requires !l.ReadKey? && !l.ReadSerial? && !l.Get? && !l.Upload? && !l.Load? && !l.Save?
    ensures Mover(s, l).log == s.actors[l.a].log || ((l.CreateLease? || l.UpdateLease?) && |Mover(s, l).log| == 1)
  {
  }

  /** Loading reads the newest state. */
  lemma LoadHandle(s: State, x: Actor, ok: bool)
    requires StoredVersion(s.cm) == |s.commits| && StoredState(s.cm) == Folded(s.commits)
    requires x.pc.Loading? && x.log == [Acquired]
    ensures HandleOk(s, AfterLoad(x, s.cm, ok))
  {
    assert s.commits[..|s.commits|] == s.commits;
    LogPrefix(x.(log := [Acquired, Loaded]), Released);
  }

  /** Expiry and mutation work on what was loaded. */
  lemma MutateHandle(s: State, x: Actor)
    requires HandleOk(s, x) && x.log == [Acquired, Loaded]
    ensures x.pc.Expiring? ==> HandleOk(s, AfterExpire(x))
    ensures x.pc.Mutating? ==> HandleOk(s, AfterMutate(x))
  {
  }

  lemma HandleStep(s: State, l: Label)
    requires StoreOk(s) && Enabled(s, l) && !l.Edit? && !l.Spawn?
    ensures HandleOk(Effect(s, l), Mover(s, l))
  {
    var x := s.actors[l.a];
    assert HandleOk(s, x) && LogOk(x);
    if l.Save? {
      SaveHandle(s, l);
    } else {
      assert Effect(s, l).commits == s.commits;
      if l.Load? {
        LoadHandle(s, x, l.ok);
        HandleStays(s, Effect(s, l), AfterLoad(x, s.cm, l.ok));
      } else if l.Expire? {
        MutateHandle(s, x);
        HandleStays(s, Effect(s, l), AfterExpire(x));
      } else if l.Mutate? {
        MutateHandle(s, x);
        HandleStays(s, Effect(s, l), AfterMutate(x));
      } else {
        OtherStep(s, l);
      }
    }
  }

  lemma OtherStep(s: State, l: Label)
    requires Enabled(s, l) && !l.Edit? && !l.Spawn? && HandleOk(s, s.actors[l.a]) && LogOk(s.actors[l.a])
    requires !l.Load? && !l.Expire? && !l.Mutate? && !l.Save?
    ensures HandleOk(Effect(s, l), Mover(s, l))
  {
    HandleKept(s, l);
    OutsideStays(s, l);
    SavedKept(s, l);
    SameHandle(s, s.actors[l.a], Effect(s, l), Mover(s, l));
  }

  /** An actor whose handle stays as it was keeps what holds of it. */
  lemma SameHandle(s: State, x: Actor, s': State, x': Actor)
    requires HandleOk(s, x) && s'.commits == s.commits
    requires x'.st == x.st && x'.version == x.version && x'.cutoff == x.cutoff && x'.at == x.at && x'.op == x.op
    requires (!x'.pc.Expiring? && !x'.pc.Mutating? && !x'.pc.Saving?) || x'.pc == x.pc
    requires HasSaved(x') <==> HasSaved(x)
    ensures HandleOk(s', x')
  {
  }

  lemma SaveHandle(s: State, l: Label)
    requires StoreOk(s) && Enabled(s, l) && l.Save?
    ensures HandleOk(Effect(s, l), Mover(s, l))
    ensures Commits(s, l) ==> Folded(Effect(s, l).commits) == s.actors[l.a].st
  {
    var x, s' := s.actors[l.a], Effect(s, l);
    assert HandleOk(s, x) && LogOk(x);
    if Commits(s, l) {
      SavedFold(s, s', x);
    }
    if Answer(StoredVersion(s.cm) == x.version, l.reply).Ok? {
      SavedHandle(s', x);
    } else {
      HandleStays(s, s', x);
      LeftHandle(s', x);
    }
  }

  lemma SavedHandle(s: State, x: Actor)
    requires x.log == [Acquired, Loaded] && |s.commits| == x.version + 1
    requires s.commits[x.version] == CommitOf(x) && Folded(s.commits[..x.version + 1]) == x.st
    ensures HandleOk(s, AfterSave(x, WriteResult.Ok))
  {
    LogPrefix(x, Saved(x.st));
  }

  lemma LeftHandle(s: State, x: Actor)
    requires x.log == [Acquired, Loaded] && HandleOk(s, x)
    ensures HandleOk(s, Leave(x, Failed))
  {
    LogPrefix(x, Released);
  }

  /** A save based on the newest state extends the fold by one commit. */
  lemma SavedFold(s: State, s': State, x: Actor)
    requires HandleOk(s, x) && x.pc.Saving? && x.version == |s.commits| && s'.commits == s.commits + [CommitOf(x)]
    ensures Folded(s'.commits) == Folded(s'.commits[..x.version + 1]) == x.st
  {
    assert s.commits[..x.version] == s.commits;
    Snoc(s.commits, CommitOf(x));
    assert s'.commits[..x.version + 1] == s'.commits;
  }

  lemma StoreStep(s: State, l: Label)
    requires StoreOk(s) && Enabled(s, l) && LogsOk(Effect(s, l))
    ensures StoreOk(Effect(s, l))
  {
    var s' := Effect(s, l);
    if Commits(s, l) {
      SaveHandle(s, l);
      assert LogOk(s.actors[l.a]);
    }
    forall a | a in s'.actors ensures HandleOk(s', s'.actors[a]) {
      if l.Edit? || a != l.a {
        HandleStays(s, s', s.actors[a]);
      } else if !l.Spawn? {
        HandleStep(s, l);
      }
    }
    forall i | 0 <= i < |s'.puts| ensures HandleOk(s', s'.puts[i].writer) && StoredThen(s'.commits, s'.puts[i]) {
      PutKept(s, l, i);
    }
  }

  /** An upload happens while the store stands still, and its history stays. */
  lemma PutKept(s: State, l: Label, i: nat)
    requires StoreOk(s) && Enabled(s, l) && i < |Effect(s, l).puts|
    ensures HandleOk(Effect(s, l), Effect(s, l).puts[i].writer)
    ensures StoredThen(Effect(s, l).commits, Effect(s, l).puts[i])
  {
    var s' := Effect(s, l);
    assert s.commits <= s'.commits;
    if i < |s.puts| {
      assert s'.puts[i] == s.puts[i];
      HandleStays(s, s', s.puts[i].writer);
      PrefixKept(s.commits, s'.commits, s.puts[i]);
    } else {
      NewPut(s, l);
    }
  }

  lemma NewPut(s: State, l: Label)
    requires StoreOk(s) && Enabled(s, l) && Uploads(l)
    ensures HandleOk(Effect(s, l), Last(Effect(s, l).puts).writer)
    ensures StoredThen(Effect(s, l).commits, Last(Effect(s, l).puts))
  {
    var x := s.actors[l.a];
    assert HandleOk(s, x) && LogOk(x);
    HandleStays(s, Effect(s, l), x);
    assert s.commits[..|s.commits|] == s.commits;
  }

  lemma PrefixKept(commits: seq<Commit>, more: seq<Commit>, p: Put)
    requires StoredThen(commits, p) && commits <= more
    ensures StoredThen(more, p)
  {
    assert more[..p.saves] == commits[..p.saves];
  }

  lemma {:induction false} StoreRun(s0: State, ls: seq<Label>, s: State)
    requires Run(s0, ls, s)
    ensures StoreOk(s)
    decreases |ls|
  {
    LogRun(s0, ls, s);
    if ls != [] {
      RunStep(s0, ls, s);
      StoreRun(s0, Front(ls), Exec(s0, Front(ls)).value);
      StoreStep(Exec(s0, Front(ls)).value, Last(ls));
    }
  }

  /** Serialized intents, lock or no lock: the ConfigMap is the fold of the committed saves in commit order. */
  lemma SerializedIntents(s0: State, ls: seq<Label>, s: State)
    requires Run(s0, ls, s)
    ensures StoredState(s.cm) == Folded(s.commits) && StoredVersion(s.cm) == |s.commits|
    ensures AllChallenge(StoredState(s.cm).records)
  {
    StoreRun(s0, ls, s);
    FoldedAllChallenge(s.commits);
  }

  /** No save is based on anything but its immediate predecessor. */
  lemma SaveOnPredecessor(s0: State, ls: seq<Label>, s: State, l: Label)
    requires Run(s0, ls, s) && Enabled(s, l) && Commits(s, l)
    ensures s.actors[l.a].version == |s.commits|
    ensures s.actors[l.a].st == Applied(CommitOf(s.actors[l.a]), StoredState(s.cm))
    ensures StoredState(Effect(s, l).cm) == s.actors[l.a].st
  {
    StoreRun(s0, ls, s);
    assert HandleOk(s, s.actors[l.a]);
    assert s.commits[..|s.commits|] == s.commits;
  }

  /** Every committed save stays in the history of every continuation of the run. */
  lemma {:induction false} CommitsGrow(s: State, ls: seq<Label>, t: State)
    requires Exec(s, ls) == Some(t)
    ensures s.commits <= t.commits
    decreases |ls|
  {
    if ls != [] {
      CommitsGrow(s, Front(ls), Exec(s, Front(ls)).value);
    }
  }

  /**
    A saved intent outlives its request, however that ends: the commit stays in the
    history at the version it was saved under.
   */
  lemma IntentKept(s0: State, ls: seq<Label>, s: State, a: Id, more: seq<Label>, t: State)
    requires Run(s0, ls, s) && a in s.actors && HasSaved(s.actors[a])
    requires Exec(s, more) == Some(t)
    ensures var x := s.actors[a];
      && 1 <= x.version <= |t.commits| && t.commits[x.version - 1] == CommitOf(x)
      && x.st == Folded(t.commits[..x.version])
  {
    StoreRun(s0, ls, s);
    CommitsGrow(s, more, t);
    assert HandleOk(s, s.actors[a]);
    assert t.commits[..s.actors[a].version] == s.commits[..s.actors[a].version];
  }

  /** The per-key register of every reachable ConfigMap. */
  lemma StoredRegister(s0: State, ls: seq<Label>, s: State, k: Key)
    requires Run(s0, ls, s)
    ensures var rs := StoredState(s.cm).records;
      && DistinctRecords(rs)
      && (k in StoredKeys(rs) <==> exists i :: AliveFrom(s.commits, k, i))
      && (forall r, i | r in rs && RecordKey(r) == k && 0 <= i < |s.commits| && AliveFrom(s.commits, k, i) ::
            r.addedAt == s.commits[i].at)
      && (forall r | r in rs && RecordKey(r) == k ::
            LastPresent(s.commits, k) >= 0 && r.ttl == s.commits[LastPresent(s.commits, k)].op.ttl)
  {
    SerializedIntents(s0, ls, s);
    KeyRegister(s.commits, k);
  }

  // ----- timely runs -----

  /** Load and PUT happen while no clock has seen the actor's lease end. */
  ghost predicate Timely(s: State, l: Label)
    requires Enabled(s, l)
  {
    l.Load? || l.Upload? ==> !Passed(s, Expiry(s.actors[l.a]))
  }

  ghost predicate TimelyRun(s0: State, ls: seq<Label>)
    decreases |ls|
  {
    ls == [] ||
    (TimelyRun(s0, Front(ls)) && Exec(s0, ls).Some? && Timely(Exec(s0, Front(ls)).value, Last(ls)))
  }

  predicate Unsaved(pc: PC) {
    pc.Expiring? || pc.Mutating? || pc.Saving?
  }

  predicate Settled(pc: PC) {
    pc.Keying? || pc.SerialBefore? || pc.Fetching? || pc.Refetching? || pc.SerialAfter? || pc.Putting?
  }

  /** The recorded holder, once it has loaded, is ahead of everybody else who still has to save. */
  ghost predicate Ahead(s: State, a: Id, b: Id)
    requires a in s.actors && b in s.actors
  {
    IsHolder(s, a) && a != b && Unsaved(s.actors[b].pc) ==>
      && (Unsaved(s.actors[a].pc) ==> s.actors[b].version <= s.actors[a].version)
      && (Settled(s.actors[a].pc) ==> s.actors[b].version < s.actors[a].version)
  }

  /** The recorded holder, once it has saved, has the newest version. */
  ghost predicate Newest(s: State, a: Id)
    requires a in s.actors
  {
    IsHolder(s, a) && Settled(s.actors[a].pc) ==> s.actors[a].version == StoredVersion(s.cm)
  }

  ghost predicate OrderOk(s: State) {
    && (forall a, b | a in s.actors && b in s.actors :: Ahead(s, a, b))
    && (forall a | a in s.actors :: Newest(s, a))
    && (forall i | 0 <= i < |s.puts| :: s.puts[i].stored == s.puts[i].writer.st)
  }

  /** Only loading leads to an unsaved state; expiry and mutation stay in it. */
  lemma UnsavedLabel(s: State, l: Label)
    requires Enabled(s, l) && !l.Edit? && !l.Spawn? && Unsaved(Mover(s, l).pc)
    ensures l.Load? || l.Expire? || l.Mutate? || l.Tick?
  {
  }

  /** An actor becomes unsaved by loading the current version. */
  lemma UnsavedStep(s: State, l: Label)
    requires Enabled(s, l) && !l.Edit? && !l.Spawn? && Unsaved(Mover(s, l).pc)
    ensures Effect(s, l).cm == s.cm && Effect(s, l).lease == s.lease
    ensures l.Load? || (Unsaved(s.actors[l.a].pc) && Mover(s, l).version == s.actors[l.a].version)
    ensures l.Load? ==> Mover(s, l).version == StoredVersion(s.cm) && Critical(s.actors[l.a].pc)
  {
    UnsavedLabel(s, l);
  }

  /** An actor becomes settled by committing its own version. */
  lemma SettledStep(s: State, l: Label)
    requires Enabled(s, l) && !l.Edit? && !l.Spawn? && Settled(Mover(s, l).pc)
    ensures l.Save? ||
      (Settled(s.actors[l.a].pc) && Mover(s, l).version == s.actors[l.a].version && Effect(s, l).cm == s.cm)
    ensures l.Save? ==>
      Unsaved(s.actors[l.a].pc) && Mover(s, l).version == s.actors[l.a].version + 1 == StoredVersion(Effect(s, l).cm)
    ensures Effect(s, l).lease == s.lease
  {
  }

  /** While a settled actor holds the lock nobody else's save goes through. */
  lemma NoForeignSave(s: State, l: Label, a: Id)
    requires OrderOk(s) && Enabled(s, l) && a in s.actors && Settled(s.actors[a].pc) && IsHolder(s, a)
    requires l.Edit? || l.a != a
    ensures Effect(s, l).cm == s.cm
  {
    if l.Save? {
      assert Ahead(s, a, l.a) && Newest(s, a);
    }
  }

  /** A timely load means the loader is the holder. */
  lemma TimelyHolder(s: State, l: Label)
    requires LeaseOk(s) && Enabled(s, l) && Timely(s, l) && (l.Load? || l.Upload?)
    ensures IsHolder(s, l.a)
  {
    assert LeaseOkFor(s, l.a);
  }

  lemma AheadOthers(s: State, l: Label, a: Id, b: Id)
    requires Enabled(s, l) && a in s.actors && b in s.actors && a != NOBODY && Ahead(s, a, b)
    requires l.Edit? || (l.a != a && l.a != b)
    ensures Ahead(Effect(s, l), a, b)
  {
    if IsHolder(Effect(s, l), a) {
      HolderOnlyBySelf(s, l, a);
    }
  }

  /** Whoever loads is the holder, so no other holder falls behind. */
  lemma AheadLoader(s: State, l: Label, a: Id, b: Id)
    requires LeaseOk(s) && Enabled(s, l) && Timely(s, l)
    requires a in s.actors && b in s.actors && a != NOBODY && a != b && Ahead(s, a, b)
    requires !l.Edit? && !l.Spawn? && l.a == b
    ensures Ahead(Effect(s, l), a, b)
  {
    if IsHolder(Effect(s, l), a) && Unsaved(Mover(s, l).pc) {
      HolderOnlyBySelf(s, l, a);
      UnsavedStep(s, l);
      if l.Load? {
        TimelyHolder(s, l);
      }
    }
  }

  /** The holder loads the newest version and saves the next one. */
  lemma AheadHolder(s: State, l: Label, a: Id, b: Id)
    requires Enabled(s, l) && a in s.actors && b in s.actors && a != b && Ahead(s, a, b)
    requires Unsaved(s.actors[b].pc) ==> s.actors[b].version <= StoredVersion(s.cm)
    requires !l.Edit? && !l.Spawn? && l.a == a
    ensures Ahead(Effect(s, l), a, b)
  {
    if Unsaved(s.actors[b].pc) {
      if Unsaved(Mover(s, l).pc) {
        UnsavedStep(s, l);
      } else if Settled(Mover(s, l).pc) {
        SettledStep(s, l);
      }
    }
  }

  lemma AheadStep(s: State, l: Label, a: Id, b: Id)
    requires StoreOk(s) && OrderOk(s) && LeaseOk(s) && Enabled(s, l) && Timely(s, l)
    requires a in Effect(s, l).actors && b in Effect(s, l).actors
    ensures Ahead(Effect(s, l), a, b)
  {
    if a != b && !(l.Spawn? && (l.a == a || l.a == b)) {
      assert LeaseOkFor(s, a) && Ahead(s, a, b);
      if l.Edit? || (l.a != a && l.a != b) {
        AheadOthers(s, l, a, b);
      } else if l.a == b {
        AheadLoader(s, l, a, b);
      } else {
        assert HandleOk(s, s.actors[b]);
        AheadHolder(s, l, a, b);
      }
    }
  }

  lemma NewestStep(s: State, l: Label, a: Id)
    requires StoreOk(s) && OrderOk(s) && LeaseOk(s) && Enabled(s, l)
    requires a in Effect(s, l).actors
    ensures Newest(Effect(s, l), a)
  {
    var s' := Effect(s, l);
    if IsHolder(s', a) && Settled(s'.actors[a].pc) {
      assert LeaseOkFor(s, a) && Newest(s, a);
      if l.Edit? || l.a != a {
        HolderOnlyBySelf(s, l, a);
        NoForeignSave(s, l, a);
      } else {
        SettledStep(s, l);
      }
    }
  }

  lemma OrderStep(s: State, l: Label)
    requires StoreOk(s) && OrderOk(s) && LeaseOk(s) && Enabled(s, l) && Timely(s, l)
    ensures OrderOk(Effect(s, l))
  {
    var s' := Effect(s, l);
    forall a, b | a in s'.actors && b in s'.actors ensures Ahead(s', a, b) {
      AheadStep(s, l, a, b);
    }
    forall a | a in s'.actors ensures Newest(s', a) {
      NewestStep(s, l, a);
    }
    if Uploads(l) {
      PutOfHolder(s, l);
    }
  }

  /** A timely upload finds in the store what its actor saved. */
  lemma PutOfHolder(s: State, l: Label)
    requires StoreOk(s) && OrderOk(s) && LeaseOk(s) && Enabled(s, l) && Timely(s, l) && Uploads(l)
    ensures StoredState(s.cm) == s.actors[l.a].st
  {
    var x := s.actors[l.a];
    TimelyHolder(s, l);
    assert Newest(s, l.a) && HandleOk(s, x) && LogOk(x);
    assert s.commits[..|s.commits|] == s.commits;
  }

  lemma {:induction false} OrderRun(s0: State, ls: seq<Label>, s: State)
    requires Run(s0, ls, s) && TimelyRun(s0, ls)
    ensures OrderOk(s)
    decreases |ls|
  {
    if ls != [] {
      RunStep(s0, ls, s);
      var p := Exec(s0, Front(ls)).value;
      OrderRun(s0, Front(ls), p);
      StoreRun(s0, Front(ls), p);
      LeaseRun(s0, Front(ls), p);
      OrderStep(p, Last(ls));
    }
  }

  lemma PayloadCarries(x: Actor)
    requires Planned(x) && AllChallenge(x.st.records)
    ensures StoredKeys(x.st.records) <= ChallengeKeys(x.payload)
    ensures x.cfg.ownAll ==> ChallengeKeys(x.payload) == StoredKeys(x.st.records)
    ensures DistinctKeys(Challenges(x.payload))
  {
    DesiredMeaning(x.st.records);
    var view := Last(x.views);
    PayloadMeaning(view, DesiredRecords(x.st.records), Removal(x.op), x.cfg.ownAll);
    PlaceholderAddsNoKey(x.cfg, PlanFor(x, view).payload);
  }

  lemma WriterRecords(s0: State, ls: seq<Label>, s: State, i: nat)
    requires Run(s0, ls, s) && i < |s.puts|
    ensures var x := s.puts[i].writer;
      && LogOk(x) && x.pc.Putting? && HandleOk(s, x) && StoredThen(s.commits, s.puts[i])
      && AllChallenge(x.st.records)
  {
    StoreRun(s0, ls, s);
    var x := s.puts[i].writer;
    assert LogOk(x) && HandleOk(s, x);
    forall c | c in s.commits[..x.version] ensures ChallengeOp(c.op) {
      assert c in s.commits;
    }
    FoldedAllChallenge(s.commits[..x.version]);
  }

  /** What every upload was made on. */
  lemma WriterReady(s0: State, ls: seq<Label>, s: State, i: nat)
    requires Run(s0, ls, s) && i < |s.puts|
    ensures var x := s.puts[i].writer;
      && x.pc.Putting? && Planned(x) && Confirmed(x) && Gate(x) && AllChallenge(x.st.records)
      && x.payload != [] && (Own(Last(x.views)) == [] ==> |x.views| == 2 && Own(x.views[0]) == [])
  {
    WriterRecords(s0, ls, s, i);
    ReadyToPut(s.puts[i].writer);
  }

  /**
    Every upload carries at least one record.  It lacks own records other than the
    placeholder only if two consecutive reads showed none, and the placeholder is
    added only when there was nothing else to upload.
   */
  lemma UploadsCarryRecords(s0: State, ls: seq<Label>, s: State, i: nat)
    requires Run(s0, ls, s) && i < |s.puts|
    ensures var x := s.puts[i].writer;
      && x.payload != []
      && x.views != []
      && (Own(x.payload) != Own(Last(x.views)) ==>
            x.payload == [Placeholder(x.cfg.zone, x.cfg.stamp)] && PlanFor(x, Last(x.views)).payload == [])
      && (Own(Last(x.views)) == [] ==> |x.views| == 2 && Own(x.views[0]) == [])
  {
    WriterReady(s0, ls, s, i);
    UploadCarries(s.puts[i].writer);
  }

  /**
    Without any assumption on the lock: every upload carries exactly the keys of its own
    save.  So with OwnAcmeRecords it misses a stored key iff a save committed since then
    presented it anew, and carries a key that is not stored iff one ended it.
   */
  lemma UploadMatchesUnlessOvertaken(s0: State, ls: seq<Label>, s: State, i: nat, k: Key)
    requires Run(s0, ls, s) && i < |s.puts| && s.puts[i].writer.cfg.ownAll
    ensures s.puts[i].writer.version <= s.puts[i].saves <= |s.commits|
    ensures var p := s.puts[i]; var n, cs := p.writer.version, s.commits[..p.saves];
      && StoredKeys(p.stored.records) == StoredKeys(Folded(cs).records)
      && ChallengeKeys(p.writer.payload) == StoredKeys(Folded(cs[..n]).records)
      && (k in StoredKeys(p.stored.records) && k !in ChallengeKeys(p.writer.payload) <==>
            BegunSince(cs, k, n) && !Alive(cs[..n], k))
      && (k in ChallengeKeys(p.writer.payload) && k !in StoredKeys(p.stored.records) <==>
            EndedSince(cs, k, n) && !BegunSince(cs, k, n))
  {
    OwnSave(s0, ls, s, i);
    var n, cs := s.puts[i].writer.version, s.commits[..s.puts[i].saves];
    assert cs[..n] == s.commits[..n];
    KeysSince(cs, k, n);
  }

  /** What an upload carries is its own save. */
  lemma OwnSave(s0: State, ls: seq<Label>, s: State, i: nat)
    requires Run(s0, ls, s) && i < |s.puts|
    ensures var p := s.puts[i]; var n := p.writer.version;
      && n <= p.saves <= |s.commits| && p.stored == Folded(s.commits[..p.saves])
      && Folded(s.commits[..n]) == p.writer.st
      && (p.writer.cfg.ownAll ==> ChallengeKeys(p.writer.payload) == StoredKeys(p.writer.st.records))
  {
    WriterRecords(s0, ls, s, i);
    SavedState(s, s.puts[i].writer);
    ReadyToPut(s.puts[i].writer);
    PayloadCarries(s.puts[i].writer);
  }

  /** What a settled actor holds is the state of the history at its version. */
  lemma SavedState(s: State, x: Actor)
    requires HandleOk(s, x) && LogOk(x) && x.pc.Putting?
    ensures x.version <= |s.commits| && Folded(s.commits[..x.version]) == x.st
  {
  }

  /**
    The goal of the design.  In every interleaving of any number of actors, with
    crashes, lost replies and arbitrarily stale reads, as long as Load and PUT
    happen on an unexpired lease: every upload carries every stored challenge key,
    each once, and with OwnAcmeRecords no other challenge key.
   */
  lemma UploadsMatchStore(s0: State, ls: seq<Label>, s: State, i: nat)
    requires Run(s0, ls, s) && TimelyRun(s0, ls) && i < |s.puts|
    ensures var p := s.puts[i];
      && StoredKeys(p.stored.records) <= ChallengeKeys(p.writer.payload)
      && (p.writer.cfg.ownAll ==> ChallengeKeys(p.writer.payload) == StoredKeys(p.stored.records))
      && DistinctKeys(Challenges(p.writer.payload))
  {
    OrderRun(s0, ls, s);
    WriterRecords(s0, ls, s, i);
    PayloadCarries(s.puts[i].writer);
  }

  // ----- timeliness from clocks -----

  /** Clocks differ by at most `d`, and Load and PUT happen within `budget` of the request's start. */
  ghost predicate Punctual(s: State, l: Label, d: int, budget: int)
    requires Enabled(s, l)
  {
    l.Load? || l.Upload? ==> Skewed(s, d) && InBudget(s.actors[l.a], budget)
  }

  ghost predicate PunctualRun(s0: State, ls: seq<Label>, d: int, budget: int)
    decreases |ls|
  {
    ls == [] ||
    (PunctualRun(s0, Front(ls), d, budget) && Exec(s0, ls).Some?
      && Punctual(Exec(s0, Front(ls)).value, Last(ls), d, budget))
  }

  /** Every lease lasts for the budget and the skew together. */
  ghost predicate LongLeases(s: State, d: int, budget: int) {
    forall a | a in s.actors :: budget + d <= s.actors[a].cfg.seconds * SECOND
  }

  /** Nobody disappears, and settings stay. */
  lemma SettingsStay(s: State, l: Label)
    requires Enabled(s, l)
    ensures forall a | a in s.actors :: a in Effect(s, l).actors && Effect(s, l).actors[a].cfg == s.actors[a].cfg
  {
    if !l.Edit? && !l.Spawn? {
      assert Mover(s, l).cfg == s.actors[l.a].cfg;
    }
  }

  lemma {:induction false} PunctualIsTimely(s0: State, ls: seq<Label>, s: State, d: int, budget: int)
    requires Run(s0, ls, s) && PunctualRun(s0, ls, d, budget) && LongLeases(s, d, budget)
    ensures TimelyRun(s0, ls)
    decreases |ls|
  {
    if ls != [] {
      RunStep(s0, ls, s);
      var p, l := Exec(s0, Front(ls)).value, Last(ls);
      SettingsStay(p, l);
      PunctualIsTimely(s0, Front(ls), p, d, budget);
      TimesRun(s0, Front(ls), p);
      if l.Load? || l.Upload? {
        BudgetUnexpired(p, l.a, d, budget);
      }
    }
  }

  /** End to end: bounded skew and bounded requests are enough for every upload to match the store. */
  lemma PunctualUploadsMatchStore(s0: State, ls: seq<Label>, s: State, i: nat, d: int, budget: int)
    requires Run(s0, ls, s) && PunctualRun(s0, ls, d, budget) && LongLeases(s, d, budget) && i < |s.puts|
    ensures var p := s.puts[i];
      && StoredKeys(p.stored.records) <= ChallengeKeys(p.writer.payload)
      && (p.writer.cfg.ownAll ==> ChallengeKeys(p.writer.payload) == StoredKeys(p.stored.records))
  {
    PunctualIsTimely(s0, ls, s, d, budget);
    UploadsMatchStore(s0, ls, s, i);
  }
}
