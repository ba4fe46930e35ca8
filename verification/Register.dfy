/**
  The history of committed saves of one zone, the stored state it adds up to, and
  the view of that state as one register per challenge key.
 */
module Register {
  import opened Base
  import opened Sequences
  import opened Records
  import opened Desired

  /** A committed save: the operation, its expiry cutoff, and the time it stamped. */
  datatype Commit = Commit(op: Op, cutoff: int, at: int)

  /** "Drop expired, then mutate." */
  function Applied(c: Commit, st: ZoneState): ZoneState {
    ZoneState(Secret(c.op, st.secret), Mutated(c.op, Unexpired(st.records, c.cutoff), c.at))
  }

  function Folded(cs: seq<Commit>): ZoneState {
    if cs == [] then EMPTY_STATE else Applied(Last(cs), Folded(Front(cs)))
  }

  ghost predicate DistinctRecords(rs: seq<Record>) {
    forall i, j | 0 <= i < j < |rs| :: RecordKey(rs[i]) != RecordKey(rs[j])
  }

  lemma {:induction false} FoldedAllChallenge(cs: seq<Commit>)
    requires forall c | c in cs :: ChallengeOp(c.op)
    ensures AllChallenge(Folded(cs).records)
  {
    if cs != [] {
      FrontLast(cs);
      FoldedAllChallenge(Front(cs));
      MutatedAllChallenge(Last(cs).op, Folded(Front(cs)).records, Last(cs).cutoff, Last(cs).at);
    }
  }

  // ----- one register per key -----

  datatype Cell = Absent | Live(addedAt: int, ttl: int)

  predicate Presents(c: Commit, k: Key) {
    c.op.Present? && Key(c.op.name, c.op.value) == k
  }

  predicate CleansUp(c: Commit, k: Key) {
    c.op.CleanUp? && Key(c.op.name, c.op.value) == k
  }

  predicate TooOld(at: int, cutoff: int) {
    at != ZERO_TIME && at < cutoff
  }

  function NextCell(cell: Cell, c: Commit, k: Key): Cell {
    var kept := if cell.Live? && TooOld(cell.addedAt, c.cutoff) then Absent else cell;
    if Presents(c, k) then Live(if kept.Live? then kept.addedAt else c.at, c.op.ttl)
    else if CleansUp(c, k) then Absent
    else kept
  }

  function CellAfter(cs: seq<Commit>, k: Key): Cell {
    if cs == [] then Absent else NextCell(CellAfter(Front(cs), k), Last(cs), k)
  }

  function CellOf(rs: seq<Record>, k: Key): Cell {
    var i := IndexOf(rs, k);
    if i < |rs| then Live(rs[i].addedAt, rs[i].ttl) else Absent
  }

  lemma CellOfMember(rs: seq<Record>, r: Record)
    requires DistinctRecords(rs) && r in rs
    ensures CellOf(rs, RecordKey(r)) == Live(r.addedAt, r.ttl)
  {
    var j :| 0 <= j < |rs| && rs[j] == r;
    var i := IndexOf(rs, RecordKey(r));
    assert i == j;
  }

  lemma SoleRecord(rs: seq<Record>, a: Record, b: Record)
    requires DistinctRecords(rs) && a in rs && b in rs
    ensures RecordKey(a) == RecordKey(b) ==> a == b
  {
    var i :| 0 <= i < |rs| && rs[i] == a;
    var j :| 0 <= j < |rs| && rs[j] == b;
    if RecordKey(a) == RecordKey(b) {
      assert i == j;
    }
  }

  lemma CellOfMissing(rs: seq<Record>, k: Key)
    ensures CellOf(rs, k).Absent? <==> k !in StoredKeys(rs)
  {
    if k in StoredKeys(rs) {
      var r :| r in rs && RecordKey(r) == k;
    }
  }

  /** A subsequence given by its members keeps the registers of the keys it keeps. */
  lemma CellOfSame(rs: seq<Record>, ss: seq<Record>, k: Key)
    requires DistinctRecords(rs) && DistinctRecords(ss)
    requires forall r | RecordKey(r) == k :: r in rs <==> r in ss
    ensures CellOf(rs, k) == CellOf(ss, k)
  {
    CellOfMissing(rs, k);
    CellOfMissing(ss, k);
    if k in StoredKeys(rs) {
      var r :| r in rs && RecordKey(r) == k;
      CellOfMember(rs, r);
      CellOfMember(ss, r);
    }
  }

  lemma DistinctSnoc(f: seq<Record>, x: Record)
    ensures DistinctRecords(f + [x]) <==> DistinctRecords(f) && RecordKey(x) !in StoredKeys(f)
  {
    var rs := f + [x];
    if DistinctRecords(rs) {
      forall i, j | 0 <= i < j < |f| ensures RecordKey(f[i]) != RecordKey(f[j]) {
        assert rs[i] == f[i] && rs[j] == f[j];
      }
      forall r | r in f ensures RecordKey(r) != RecordKey(x) {
        var i :| 0 <= i < |f| && f[i] == r;
        assert rs[i] == r && rs[|f|] == x;
      }
    }
  }

  lemma {:induction false} UnexpiredDistinct(rs: seq<Record>, cutoff: int)
    requires DistinctRecords(rs)
    ensures DistinctRecords(Unexpired(rs, cutoff))
  {
    if rs != [] {
      FrontLast(rs);
      DistinctSnoc(Front(rs), Last(rs));
      UnexpiredDistinct(Front(rs), cutoff);
      UnexpiredMembers(Front(rs), cutoff);
      DistinctSnoc(Unexpired(Front(rs), cutoff), Last(rs));
    }
  }

  lemma {:induction false} WithoutDistinct(rs: seq<Record>, k: Key)
    requires DistinctRecords(rs)
    ensures DistinctRecords(Without(rs, k))
  {
    if rs != [] {
      FrontLast(rs);
      DistinctSnoc(Front(rs), Last(rs));
      WithoutDistinct(Front(rs), k);
      WithoutMembers(Front(rs), k);
      DistinctSnoc(Without(Front(rs), k), Last(rs));
    }
  }

  lemma ExpiryOfCell(rs: seq<Record>, cutoff: int, k: Key)
    requires DistinctRecords(rs)
    ensures DistinctRecords(Unexpired(rs, cutoff))
    ensures CellOf(Unexpired(rs, cutoff), k) ==
      var cell := CellOf(rs, k); if cell.Live? && TooOld(cell.addedAt, cutoff) then Absent else cell
  {
    UnexpiredDistinct(rs, cutoff);
    UnexpiredMembers(rs, cutoff);
    var us := Unexpired(rs, cutoff);
    CellOfMissing(rs, k);
    CellOfMissing(us, k);
    if k in StoredKeys(rs) {
      var r :| r in rs && RecordKey(r) == k;
      CellOfMember(rs, r);
      if IsExpired(r, cutoff) {
        forall x | x in us ensures RecordKey(x) != k {
          SoleRecord(rs, x, r);
        }
      } else {
        CellOfMember(us, r);
      }
    }
  }

  /** One commit moves the register of every key as `NextCell` says, and keeps keys distinct. */
  lemma CommitOfCell(c: Commit, st: ZoneState, k: Key)
    requires DistinctRecords(st.records)
    ensures DistinctRecords(Applied(c, st).records)
    ensures CellOf(Applied(c, st).records, k) == NextCell(CellOf(st.records, k), c, k)
  {
    ExpiryOfCell(st.records, c.cutoff, k);
    var us := Unexpired(st.records, c.cutoff);
    match c.op
    case Present(name, value, ttl, uid, dnsName, _) => PresentOfCell(c, us, k);
    case CleanUp(name, value, _) =>
      var gone := Key(name, value);
      WithoutDistinct(us, gone);
      WithoutMembers(us, gone);
      if k == gone {
        CellOfMissing(Without(us, gone), k);
      } else {
        CellOfSame(us, Without(us, gone), k);
      }
    case Sweep =>
  }

  lemma PresentOfCell(c: Commit, us: seq<Record>, k: Key)
    requires c.op.Present? && DistinctRecords(us)
    ensures DistinctRecords(Mutated(c.op, us, c.at))
    ensures CellOf(Mutated(c.op, us, c.at), k) ==
      if Presents(c, k) then Live(if CellOf(us, k).Live? then CellOf(us, k).addedAt else c.at, c.op.ttl)
      else CellOf(us, k)
  {
    var key := Key(c.op.name, c.op.value);
    var i := IndexOf(us, key);
    var ms := Mutated(c.op, us, c.at);
    if i < |us| {
      assert forall j | 0 <= j < |us| :: RecordKey(ms[j]) == RecordKey(us[j]);
      assert DistinctRecords(ms);
      var j := IndexOf(us, k);
      assert IndexOf(ms, k) == j;
    } else {
      var x := Record(c.op.name, c.op.value, c.op.ttl, c.at, c.op.uid, c.op.dnsName);
      CellOfMissing(us, key);
      DistinctSnoc(us, x);
      assert ms[|us|] == x;
      assert x in ms;
      if k == key {
        CellOfMember(ms, x);
      } else {
        CellOfSame(us, ms, k);
      }
    }
  }

  /** The stored records are the registers: every key at most once, with the register's AddedAt and TTL. */
  lemma {:induction false} RecordsAreRegisters(cs: seq<Commit>, k: Key)
    ensures DistinctRecords(Folded(cs).records)
    ensures CellOf(Folded(cs).records, k) == CellAfter(cs, k)
  {
    if cs != [] {
      RecordsAreRegisters(Front(cs), k);
      CommitOfCell(Last(cs), Folded(Front(cs)), k);
    }
  }

  // ----- the register, read off the history -----

  /** Commit `c` ends an incarnation of `k` that was added at `at`. */
  predicate Ends(c: Commit, k: Key, at: int) {
    CleansUp(c, k) || TooOld(at, c.cutoff)
  }

  /** The incarnation begun at commit `i` is not ended by any commit in (i, n]. */
  ghost predicate Survives(cs: seq<Commit>, k: Key, i: int, n: int)
    requires 0 <= i < |cs| && n < |cs|
  {
    forall j | i < j <= n :: !Ends(cs[j], k, cs[i].at)
  }

  /** Commit `i` is a Present of `k` that begins an incarnation: none was alive then. */
  ghost predicate Begins(cs: seq<Commit>, k: Key, i: int)
    requires 0 <= i < |cs|
    decreases i
  {
    Presents(cs[i], k) && !exists h | 0 <= h < i :: Begins(cs, k, h) && Survives(cs, k, h, i)
  }

  /** The incarnation begun at commit `i` is the one stored now. */
  ghost predicate AliveFrom(cs: seq<Commit>, k: Key, i: int) {
    0 <= i < |cs| && Begins(cs, k, i) && Survives(cs, k, i, |cs| - 1)
  }

  lemma {:induction false} BeginsPrefix(cs: seq<Commit>, k: Key, i: int, n: int)
    requires 0 <= i < n <= |cs|
    ensures Begins(cs[..n], k, i) <==> Begins(cs, k, i)
    decreases i
  {
    forall h | 0 <= h < i
      ensures Begins(cs[..n], k, h) <==> Begins(cs, k, h)
      ensures Survives(cs[..n], k, h, i) <==> Survives(cs, k, h, i)
    {
      BeginsPrefix(cs, k, h, n);
      assert forall j | 0 <= j < n :: cs[..n][j] == cs[j];
    }
  }

  /** An older incarnation is alive iff it was before the newest commit, which does not end it. */
  lemma AliveStep(cs: seq<Commit>, k: Key, i: int)
    requires cs != [] && 0 <= i < |cs| - 1
    ensures AliveFrom(cs, k, i) <==> AliveFrom(Front(cs), k, i) && !Ends(Last(cs), k, cs[i].at)
  {
    var n := |cs| - 1;
    BeginsPrefix(cs, k, i, n);
    assert forall j | 0 <= j < n :: Front(cs)[j] == cs[j];
  }

  /** The newest commit begins an incarnation iff it presents the key and none survived it. */
  lemma LastBegins(cs: seq<Commit>, k: Key)
    requires cs != []
    ensures var n := |cs| - 1;
      AliveFrom(cs, k, n) <==> Presents(cs[n], k) && !exists h | 0 <= h < n :: AliveFrom(cs, k, h)
  {
    var n := |cs| - 1;
    assert Begins(cs, k, n) <==>
      Presents(cs[n], k) && !exists h | 0 <= h < n :: Begins(cs, k, h) && Survives(cs, k, h, n);
    assert forall h | 0 <= h < n :: AliveFrom(cs, k, h) <==> Begins(cs, k, h) && Survives(cs, k, h, n);
  }

  /** The register is live exactly from the Present that began the current incarnation. */
  lemma {:induction false} CellFromHistory(cs: seq<Commit>, k: Key)
    ensures forall i | 0 <= i < |cs| && AliveFrom(cs, k, i) ::
      CellAfter(cs, k).Live? && CellAfter(cs, k).addedAt == cs[i].at
    ensures CellAfter(cs, k).Live? ==> exists i :: AliveFrom(cs, k, i)
  {
    if cs != [] {
      var f, c, n := Front(cs), Last(cs), |cs| - 1;
      CellFromHistory(f, k);
      LastBegins(cs, k);
      forall i | 0 <= i < n
        ensures AliveFrom(cs, k, i) <==> AliveFrom(f, k, i) && !Ends(c, k, cs[i].at)
        ensures f[i] == cs[i]
      {
        AliveStep(cs, k, i);
      }
      if CellAfter(cs, k).Live? {
        if Presents(c, k) {
          assert AliveFrom(cs, k, n) || exists h | 0 <= h < n :: AliveFrom(cs, k, h);
        } else {
          var i :| AliveFrom(f, k, i);
          assert AliveFrom(cs, k, i);
        }
      }
      if Presents(c, k) && CellAfter(f, k).Live? && !TooOld(CellAfter(f, k).addedAt, c.cutoff) {
        var i :| AliveFrom(f, k, i);
        assert AliveFrom(cs, k, i);
      }
    }
  }

  /** The incarnation alive at the end was alive at every earlier point after its begin. */
  lemma AliveEarlier(cs: seq<Commit>, k: Key, i: int, n: int)
    requires AliveFrom(cs, k, i) && i < n <= |cs|
    ensures AliveFrom(cs[..n], k, i)
  {
    BeginsPrefix(cs, k, i, n);
    assert forall j | 0 <= j < n :: cs[..n][j] == cs[j];
  }

  /** An incarnation that is not alive any more was ended by a later commit. */
  lemma EndedLater(cs: seq<Commit>, k: Key, i: int, n: nat)
    requires n <= |cs| && AliveFrom(cs[..n], k, i) && !AliveFrom(cs, k, i)
    ensures exists c :: n <= c < |cs| && Ends(cs[c], k, cs[i].at)
  {
    BeginsPrefix(cs, k, i, n);
    assert forall j | 0 <= j < n :: cs[..n][j] == cs[j];
    var c :| i < c <= |cs| - 1 && Ends(cs[c], k, cs[i].at);
    assert Survives(cs[..n], k, i, n - 1);
  }

  /** Some incarnation of the key is stored now. */
  ghost predicate Alive(cs: seq<Commit>, k: Key) {
    exists i :: AliveFrom(cs, k, i)
  }

  /** A commit from the n-th on began the incarnation that is stored now. */
  ghost predicate BegunSince(cs: seq<Commit>, k: Key, n: int) {
    exists j :: n <= j && AliveFrom(cs, k, j)
  }

  /** A commit from the n-th on ended the incarnation that was stored then. */
  ghost predicate EndedSince(cs: seq<Commit>, k: Key, n: int)
    requires 0 <= n <= |cs|
  {
    exists i, c :: n <= c < |cs| && AliveFrom(cs[..n], k, i) && Ends(cs[c], k, cs[i].at)
  }

  /** What the commits from the n-th on do to the stored keys. */
  lemma KeysSince(cs: seq<Commit>, k: Key, n: nat)
    requires n <= |cs|
    ensures var before, now := k in StoredKeys(Folded(cs[..n]).records), k in StoredKeys(Folded(cs).records);
      && (now && !before <==> BegunSince(cs, k, n) && !Alive(cs[..n], k))
      && (before && !now <==> EndedSince(cs, k, n) && !BegunSince(cs, k, n))
  {
    KeyRegister(cs[..n], k);
    KeyRegister(cs, k);
    if i: int :| AliveFrom(cs, k, i) && i < n {
      AliveEarlier(cs, k, i, n);
      forall h | AliveFrom(cs[..n], k, h) ensures h == i {
        SoleIncarnation(cs[..n], k, h, i);
      }
      assert Survives(cs, k, i, |cs| - 1);
    }
    if h: int :| AliveFrom(cs[..n], k, h) && !AliveFrom(cs, k, h) {
      EndedLater(cs, k, h, n);
    }
  }

  /** At most one incarnation is alive. */
  lemma SoleIncarnation(cs: seq<Commit>, k: Key, h: int, i: int)
    requires AliveFrom(cs, k, h) && AliveFrom(cs, k, i)
    ensures h == i
  {
  }

  /** Index of the last Present of `k`, or -1. */
  function LastPresent(cs: seq<Commit>, k: Key): (i: int)
    ensures -1 <= i < |cs|
    ensures i >= 0 ==> Presents(cs[i], k)
    ensures forall j | i < j < |cs| :: !Presents(cs[j], k)
  {
    if cs == [] then -1
    else if Presents(Last(cs), k) then |cs| - 1
    else LastPresent(Front(cs), k)
  }

  lemma {:induction false} TTLFromHistory(cs: seq<Commit>, k: Key)
    requires CellAfter(cs, k).Live?
    ensures LastPresent(cs, k) >= 0 && CellAfter(cs, k).ttl == cs[LastPresent(cs, k)].op.ttl
  {
    if !Presents(Last(cs), k) {
      TTLFromHistory(Front(cs), k);
    }
  }

  /**
    The per-key register over whole histories.  A key is stored iff some committed
    Present of it began an incarnation that no later commit cleaned up or found
    older than its cutoff; it is stored once, added when that incarnation began,
    with the TTL of the last Present.
   */
  lemma KeyRegister(cs: seq<Commit>, k: Key)
    ensures k in StoredKeys(Folded(cs).records) <==> exists i :: AliveFrom(cs, k, i)
    ensures DistinctRecords(Folded(cs).records)
    ensures forall r, i | r in Folded(cs).records && RecordKey(r) == k && 0 <= i < |cs| && AliveFrom(cs, k, i) ::
      r.addedAt == cs[i].at
    ensures forall r | r in Folded(cs).records && RecordKey(r) == k ::
      LastPresent(cs, k) >= 0 && r.ttl == cs[LastPresent(cs, k)].op.ttl
  {
    var rs := Folded(cs).records;
    RecordsAreRegisters(cs, k);
    CellFromHistory(cs, k);
    CellOfMissing(rs, k);
    forall r | r in rs && RecordKey(r) == k
      ensures CellAfter(cs, k) == Live(r.addedAt, r.ttl)
      ensures LastPresent(cs, k) >= 0 && r.ttl == cs[LastPresent(cs, k)].op.ttl
    {
      CellOfMember(rs, r);
      TTLFromHistory(cs, k);
    }
  }

  /**
    An incarnation in plain terms: commit `i` presents the name and value when none of an
    earlier one was left, and since then no commit cleaned it up or found it too old.
   */
  lemma IncarnationInPlainTerms(cs: seq<Commit>, name: string, value: string, i: nat)
    requires i < |cs|
    ensures AliveFrom(cs, Key(name, value), i) <==>
      && cs[i].op.Present? && cs[i].op.name == name && cs[i].op.value == value
      && (forall h | 0 <= h < i && AliveFrom(cs[..i], Key(name, value), h) :: cs[h].at != 0 && cs[h].at < cs[i].cutoff)
      && (forall j | i < j < |cs| ::
            && !(cs[j].op.CleanUp? && cs[j].op.name == name && cs[j].op.value == value)
            && !(cs[i].at != 0 && cs[i].at < cs[j].cutoff))
  {
    var k := Key(name, value);
    forall h | 0 <= h < i && cs[i].op.Present?
      ensures Begins(cs, k, h) && Survives(cs, k, h, i) <==>
        AliveFrom(cs[..i], k, h) && !(cs[h].at != 0 && cs[h].at < cs[i].cutoff)
    {
      BeginsPrefix(cs, k, h, i);
      assert forall j | 0 <= j < i :: cs[..i][j] == cs[j];
      assert Survives(cs, k, h, i) <==> Survives(cs[..i], k, h, i - 1) && !Ends(cs[i], k, cs[h].at);
    }
  }

  // ----- the stored state in full -----

  /** The key reference is that of the last request; sweeps leave it alone. */
  lemma {:induction false} SecretFromHistory(cs: seq<Commit>, i: nat)
    requires i < |cs| && !cs[i].op.Sweep? && forall j | i < j < |cs| :: cs[j].op.Sweep?
    ensures Folded(cs).secret == cs[i].op.secret
    decreases |cs|
  {
    if i < |cs| - 1 {
      SecretFromHistory(Front(cs), i);
    }
  }

  lemma {:induction false} NoSecretYet(cs: seq<Commit>)
    requires forall j | 0 <= j < |cs| :: cs[j].op.Sweep?
    ensures Folded(cs).secret == SecretRef("", "", "")
  {
    if cs != [] {
      NoSecretYet(Front(cs));
    }
  }

  /** Record `r` is the one begun by commit `i`: its name, value, time and origin. */
  ghost predicate BegunBy(cs: seq<Commit>, r: Record, i: nat) {
    && AliveFrom(cs, Key(r.name, r.value), i) && cs[i].op.Present?
    && r.name == cs[i].op.name && r.value == cs[i].op.value && r.addedAt == cs[i].at
    && r.uid == cs[i].op.uid && r.dnsName == cs[i].op.dnsName
  }

  /** Record by record, the commits that began them, in order. */
  ghost predicate BegunInOrder(cs: seq<Commit>, rs: seq<Record>, begins: seq<nat>) {
    && |begins| == |rs|
    && (forall m | 0 <= m < |rs| :: BegunBy(cs, rs[m], begins[m]))
    && (forall m, n | 0 <= m < n < |begins| :: begins[m] < begins[n])
  }

  /** Records that a commit does not end keep their begin. */
  lemma StillBegun(cs: seq<Commit>, r: Record, i: nat)
    requires cs != [] && BegunBy(Front(cs), r, i) && !Ends(Last(cs), Key(r.name, r.value), r.addedAt)
    ensures BegunBy(cs, r, i)
  {
    AliveStep(cs, Key(r.name, r.value), i);
  }

  /** Part of the records, picked in order. */
  lemma PickedBegins(f: seq<Commit>, cs: seq<Commit>, rs: seq<Record>, begins: seq<nat>, keep: Record -> bool)
    returns (kept: seq<nat>)
    requires cs != [] && f == Front(cs) && BegunInOrder(f, rs, begins)
    requires forall r | r in rs && keep(r) :: !Ends(Last(cs), Key(r.name, r.value), r.addedAt)
    ensures BegunInOrder(cs, Filter(rs, keep), kept)
    ensures forall i | i in kept :: i < |f|
  {
    var picks := FilterPicks(rs, keep);
    kept := seq(|picks|, m requires 0 <= m < |picks| => begins[picks[m]]);
    var out := Filter(rs, keep);
    forall m | 0 <= m < |out| ensures BegunBy(cs, out[m], kept[m]) {
      assert picks[m] in picks;
      StillBegun(cs, out[m], kept[m]);
    }
  }

  /** What one commit keeps of the records. */
  lemma KeptByCommit(cs: seq<Commit>, rs: seq<Record>, begins: seq<nat>) returns (kept: seq<nat>)
    requires cs != [] && BegunInOrder(Front(cs), rs, begins)
    ensures var c := Last(cs); var us := Unexpired(rs, c.cutoff);
      BegunInOrder(cs, if c.op.CleanUp? then Without(us, Key(c.op.name, c.op.value)) else us, kept)
    ensures forall i | i in kept :: i < |cs| - 1
  {
    var c := Last(cs);
    var keep := (r: Record) =>
      (r.addedAt == 0 || r.addedAt >= c.cutoff) && !(c.op.CleanUp? && r.name == c.op.name && r.value == c.op.value);
    kept := PickedBegins(Front(cs), cs, rs, begins, keep);
    KeptIsFilter(rs, c, keep);
  }

  lemma {:induction false} KeptIsFilter(rs: seq<Record>, c: Commit, keep: Record -> bool)
    requires forall r :: keep(r) <==>
      (r.addedAt == 0 || r.addedAt >= c.cutoff) && !(c.op.CleanUp? && r.name == c.op.name && r.value == c.op.value)
    ensures var us := Unexpired(rs, c.cutoff);
      (if c.op.CleanUp? then Without(us, Key(c.op.name, c.op.value)) else us) == Filter(rs, keep)
  {
    if rs != [] {
      var f, r := Front(rs), Last(rs);
      KeptIsFilter(f, c, keep);
      if IsExpired(r, c.cutoff) {
        assert Unexpired(rs, c.cutoff) == Unexpired(f, c.cutoff);
      } else {
        Snoc(Unexpired(f, c.cutoff), r);
      }
    }
  }

  /**
    The stored records in full, after any history: one for every incarnation that is
    alive, in the order in which they began, with the name, value, time, challenge and
    DNS name of the Present that began it.
   */
  lemma {:induction false} StoredInFull(cs: seq<Commit>) returns (begins: seq<nat>)
    ensures var rs := Folded(cs).records;
      && |begins| == |rs| && (forall m, n | 0 <= m < n < |begins| :: begins[m] < begins[n])
      && (forall i: nat :: i in begins <==> i < |cs| && exists k :: AliveFrom(cs, k, i))
      && (forall m | 0 <= m < |rs| ::
            && begins[m] < |cs| && cs[begins[m]].op.Present?
            && var p := cs[begins[m]].op;
               rs[m] == Record(p.name, p.value, rs[m].ttl, cs[begins[m]].at, p.uid, p.dnsName))
  {
    begins := BeginsOf(cs);
    var rs := Folded(cs).records;
    forall i: nat ensures i in begins <==> i < |cs| && exists k :: AliveFrom(cs, k, i) {
      if i in begins {
        var m :| 0 <= m < |begins| && begins[m] == i;
        assert BegunBy(cs, rs[m], i);
      }
      if k: Key :| AliveFrom(cs, k, i) {
        KeyRegister(cs, k);
        assert k in StoredKeys(rs);
        var r :| r in rs && RecordKey(r) == k;
        var m :| 0 <= m < |rs| && rs[m] == r;
        assert BegunBy(cs, rs[m], begins[m]);
        SoleIncarnation(cs, k, begins[m], i);
      }
    }
  }

  lemma {:induction false} BeginsOf(cs: seq<Commit>) returns (begins: seq<nat>)
    ensures BegunInOrder(cs, Folded(cs).records, begins)
  {
    if cs == [] {
      begins := [];
    } else {
      var f, c := Front(cs), Last(cs);
      var before := BeginsOf(f);
      begins := KeptByCommit(cs, Folded(f).records, before);
      if c.op.Present? {
        begins := PresentBegins(cs, Unexpired(Folded(f).records, c.cutoff), begins);
      }
    }
  }

  /** A Present refreshes the record it finds, or begins a new one at the end. */
  lemma PresentBegins(cs: seq<Commit>, us: seq<Record>, kept: seq<nat>) returns (begins: seq<nat>)
    requires cs != [] && Last(cs).op.Present? && us == Unexpired(Folded(Front(cs)).records, Last(cs).cutoff)
    requires BegunInOrder(cs, us, kept) && forall i | i in kept :: i < |cs| - 1
    ensures BegunInOrder(cs, Mutated(Last(cs).op, us, Last(cs).at), begins)
  {
    var c, n := Last(cs), |cs| - 1;
    var k := Key(c.op.name, c.op.value);
    var i := IndexOf(us, k);
    var ms := Mutated(c.op, us, c.at);
    if i < |us| {
      begins := kept;
      assert forall m | 0 <= m < |us| :: ms[m] == us[m].(ttl := ms[m].ttl);
      forall m | 0 <= m < |ms| ensures BegunBy(cs, ms[m], begins[m]) {
        assert BegunBy(cs, us[m], kept[m]);
      }
    } else {
      begins := kept + [n];
      NewBegin(cs, us, k);
      forall m | 0 <= m < |ms| ensures BegunBy(cs, ms[m], begins[m]) {
        assert m < |us| ==> BegunBy(cs, us[m], kept[m]);
      }
      forall m | 0 <= m < |kept| ensures kept[m] < n {
        assert kept[m] in kept;
      }
    }
  }

  lemma NewBegin(cs: seq<Commit>, us: seq<Record>, k: Key)
    requires cs != [] && Presents(Last(cs), k) && us == Unexpired(Folded(Front(cs)).records, Last(cs).cutoff)
    requires IndexOf(us, k) == |us|
    ensures AliveFrom(cs, k, |cs| - 1)
  {
    LastBegins(cs, k);
    forall h | 0 <= h < |cs| - 1 ensures !AliveFrom(cs, k, h) {
      AliveStep(cs, k, h);
      NotAliveAnyMore(cs, us, k, h);
    }
  }

  /** A key that is not among the unexpired records has no incarnation that lives on. */
  lemma NotAliveAnyMore(cs: seq<Commit>, us: seq<Record>, k: Key, h: nat)
    requires cs != [] && h < |cs| - 1 && us == Unexpired(Folded(Front(cs)).records, Last(cs).cutoff)
    requires IndexOf(us, k) == |us|
    ensures !(AliveFrom(Front(cs), k, h) && !TooOld(cs[h].at, Last(cs).cutoff))
  {
    KeyRegister(Front(cs), k);
    UnexpiredMembers(Folded(Front(cs)).records, Last(cs).cutoff);
    assert forall r | r in us :: RecordKey(r) != k;
  }
}
