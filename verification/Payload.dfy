/**
  The payload rule: what to upload, given what mijn.host returned, what is
  wanted, and what was just removed.  The functions give the loops of
  `ComputePayload` a value; the lemmas say what that value means.
 */
module Payload {
  import opened Records

  /** Challenge records of an upload compared with those of the view: new, missing, and the number of the rest. */
  datatype Diff = Diff(add: seq<DNSRecord>, remove: seq<DNSRecord>, kept: nat) {
    predicate Changed() {
      |add| > 0 || |remove| > 0
    }
  }

  datatype Upload = Upload(payload: seq<DNSRecord>, diff: Diff)

  // ----- the loops, as functions of the prefix processed so far -----

  function Deduped(rs: seq<DNSRecord>): seq<DNSRecord> {
    if rs == [] then []
    else Deduped(Front(rs)) + if KeyOf(Last(rs)) in Keys(Front(rs)) then [] else [Last(rs)]
  }

  function Wanted(rs: seq<DNSRecord>): map<Key, DNSRecord> {
    if rs == [] then map[] else Wanted(Front(rs))[KeyOf(Last(rs)) := Last(rs)]
  }

  predicate Wants(wanted: map<Key, DNSRecord>, k: Key) {
    k in wanted && wanted[k].name != ""
  }

  /** One turn of the main loop; `seen` says whether the key already came by. */
  function Visit(
    u: Upload, r: DNSRecord, seen: bool, wanted: map<Key, DNSRecord>, dropping: set<Key>, ownAll: bool): Upload
  {
    var k := KeyOf(r);
    if !IsChallengeRecord(r) then u.(payload := u.payload + [r])
    else if seen then u
    else if Wants(wanted, k) then Upload(u.payload + [wanted[k]], u.diff.(kept := u.diff.kept + 1))
    else if ownAll || k in dropping then u.(diff := u.diff.(remove := u.diff.remove + [r]))
    else Upload(u.payload + [r], u.diff.(kept := u.diff.kept + 1))
  }

  function Scan(api: seq<DNSRecord>, wanted: map<Key, DNSRecord>, dropping: set<Key>, ownAll: bool): Upload {
    if api == [] then Upload([], Diff([], [], 0))
    else
      Visit(Scan(Front(api), wanted, dropping, ownAll),
            Last(api), KeyOf(Last(api)) in ChallengeKeys(Front(api)), wanted, dropping, ownAll)
  }

  function Missing(ds: seq<DNSRecord>, present: set<Key>): seq<DNSRecord> {
    if ds == [] then []
    else Missing(Front(ds), present) + if KeyOf(Last(ds)) in present then [] else [Last(ds)]
  }

  function SetOf(remove: seq<Key>): set<Key> {
    set k | k in remove
  }

  function Compute(api: seq<DNSRecord>, desired: seq<DNSRecord>, remove: seq<Key>, ownAll: bool): Upload {
    var ds := Deduped(desired);
    var u := Scan(api, Wanted(ds), SetOf(remove), ownAll);
    var add := Missing(ds, ChallengeKeys(api));
    Upload(u.payload + add, u.diff.(add := add))
  }

  // ----- desired records -----

  /** The first record of `rs` with key `k`. */
  ghost predicate FirstWith(rs: seq<DNSRecord>, k: Key, r: DNSRecord) {
    exists i :: 0 <= i < |rs| && rs[i] == r && KeyOf(r) == k && k !in Keys(rs[..i])
  }

  lemma KeysSnoc(rs: seq<DNSRecord>, r: DNSRecord)
    ensures Keys(rs + [r]) == Keys(rs) + {KeyOf(r)}
  {
    assert r in rs + [r];
    forall k | k in Keys(rs) ensures k in Keys(rs + [r]) {
      var x :| x in rs && KeyOf(x) == k;
      assert x in rs + [r];
    }
  }

  /** `Deduped` keeps the first record of every key and nothing else. */
  lemma {:induction false} DedupeMeaning(rs: seq<DNSRecord>)
    ensures Keys(Deduped(rs)) == Keys(rs)
    ensures DistinctKeys(Deduped(rs))
    ensures forall r :: r in Deduped(rs) <==> FirstWith(rs, KeyOf(r), r)
  {
    if rs != [] {
      FrontLast(rs);
      var f, x := Front(rs), Last(rs);
      DedupeMeaning(f);
      KeysSnoc(f, x);
      if KeyOf(x) !in Keys(f) {
        KeysSnoc(Deduped(f), x);
      }
      forall r ensures r in Deduped(rs) <==> FirstWith(rs, KeyOf(r), r) {
        FirstWithSnoc(f, x, r);
      }
    }
  }

  lemma FirstWithSnoc(f: seq<DNSRecord>, x: DNSRecord, r: DNSRecord)
    ensures FirstWith(f + [x], KeyOf(r), r) <==> FirstWith(f, KeyOf(r), r) || (r == x && KeyOf(x) !in Keys(f))
  {
    var rs := f + [x];
    if FirstWith(rs, KeyOf(r), r) {
      var i :| 0 <= i < |rs| && rs[i] == r && KeyOf(r) !in Keys(rs[..i]);
      if i < |f| {
        assert rs[..i] == f[..i];
        assert f[i] == r;
      } else {
        assert rs[..i] == f;
      }
    }
    if FirstWith(f, KeyOf(r), r) {
      var i :| 0 <= i < |f| && f[i] == r && KeyOf(r) !in Keys(f[..i]);
      assert rs[..i] == f[..i];
      assert rs[i] == r;
    }
    if r == x && KeyOf(x) !in Keys(f) {
      assert rs[..|f|] == f;
      assert rs[|f|] == r;
    }
  }

  lemma {:induction false} DedupeDistinct(rs: seq<DNSRecord>)
    requires DistinctKeys(rs)
    ensures Deduped(rs) == rs
  {
    if rs != [] {
      FrontLast(rs);
      DedupeDistinct(Front(rs));
    }
  }

  lemma {:induction false} DedupeIdempotent(rs: seq<DNSRecord>)
    ensures Deduped(Deduped(rs)) == Deduped(rs)
  {
    DedupeMeaning(rs);
    DedupeDistinct(Deduped(rs));
  }

  /** Distinct keys, read off one record at a time. */
  lemma DistinctSnoc(f: seq<DNSRecord>, x: DNSRecord)
    ensures DistinctKeys(f + [x]) <==> DistinctKeys(f) && KeyOf(x) !in Keys(f)
  {
    var rs := f + [x];
    if DistinctKeys(rs) {
      forall i, j | 0 <= i < j < |f| ensures KeyOf(f[i]) != KeyOf(f[j]) {
        assert rs[i] == f[i] && rs[j] == f[j];
      }
      forall r | r in f ensures KeyOf(r) != KeyOf(x) {
        var i :| 0 <= i < |f| && f[i] == r;
        assert rs[i] == r && rs[|f|] == x;
      }
    }
  }

  lemma DedupeKeeps(rs: seq<DNSRecord>)
    requires ChallengeOnly(rs)
    ensures ChallengeOnly(Deduped(rs))
  {
    DedupeMeaning(rs);
    forall r | r in Deduped(rs) ensures IsChallengeRecord(r) {
      assert FirstWith(rs, KeyOf(r), r);
      assert r in rs;
    }
  }

  /** `Wanted` of distinct records is the lookup table of those records. */
  lemma {:induction false} WantedMeaning(ds: seq<DNSRecord>)
    requires DistinctKeys(ds)
    ensures Wanted(ds).Keys == Keys(ds)
    ensures forall r | r in ds :: KeyOf(r) in Wanted(ds) && Wanted(ds)[KeyOf(r)] == r
    ensures forall k | k in Wanted(ds) :: Wanted(ds)[k] in ds && KeyOf(Wanted(ds)[k]) == k
  {
    if ds != [] {
      FrontLast(ds);
      var f, x := Front(ds), Last(ds);
      WantedMeaning(f);
      KeysSnoc(f, x);
      DistinctSnoc(f, x);
    }
  }

  /** For challenge records the test `wanted[k].Name != ""` is plain membership. */
  lemma WantsIsMembership(ds: seq<DNSRecord>, k: Key)
    requires DistinctKeys(ds) && ChallengeOnly(ds)
    ensures Wants(Wanted(ds), k) <==> k in Keys(ds)
  {
    WantedMeaning(ds);
  }

  lemma {:induction false} MissingMeaning(ds: seq<DNSRecord>, present: set<Key>)
    ensures forall r :: r in Missing(ds, present) <==> r in ds && KeyOf(r) !in present
    ensures Keys(Missing(ds, present)) == Keys(ds) - present
    ensures DistinctKeys(ds) ==> DistinctKeys(Missing(ds, present))
  {
    if ds != [] {
      FrontLast(ds);
      var f, x := Front(ds), Last(ds);
      MissingMeaning(f, present);
      KeysSnoc(f, x);
      DistinctSnoc(f, x);
      if KeyOf(x) !in present {
        KeysSnoc(Missing(f, present), x);
        DistinctSnoc(Missing(f, present), x);
      }
    }
  }

  lemma NoKeys(rs: seq<DNSRecord>)
    ensures rs == [] <==> Keys(rs) == {}
  {
    if rs != [] {
      assert KeyOf(rs[0]) in Keys(rs);
    }
  }

  // ----- the scan over the zone read from the API -----

  /** The challenge keys of the API view that an upload keeps. */
  function KeptKeys(api: seq<DNSRecord>, wanted: map<Key, DNSRecord>, dropping: set<Key>, ownAll: bool): set<Key> {
    set k | k in ChallengeKeys(api) && (Wants(wanted, k) || (!ownAll && k !in dropping))
  }

  ghost predicate WellKeyed(wanted: map<Key, DNSRecord>) {
    forall k | k in wanted && CHALLENGE_PREFIX <= k.name :: KeyOf(wanted[k]) == k && IsChallengeRecord(wanted[k])
  }

  lemma KeptKeysSnoc(f: seq<DNSRecord>, r: DNSRecord, wanted: map<Key, DNSRecord>, dropping: set<Key>, ownAll: bool)
    ensures KeptKeys(f + [r], wanted, dropping, ownAll) == KeptKeys(f, wanted, dropping, ownAll) +
      if IsChallengeRecord(r) && (Wants(wanted, KeyOf(r)) || (!ownAll && KeyOf(r) !in dropping)) then {KeyOf(r)} else {}
  {
    ChallengeKeysSnoc(f, r);
  }

  predicate Keeps(r: DNSRecord, wanted: map<Key, DNSRecord>, dropping: set<Key>, ownAll: bool) {
    Wants(wanted, KeyOf(r)) || (!ownAll && KeyOf(r) !in dropping)
  }

  /** What one turn of the loop adds to the two halves of the payload. */
  lemma VisitMeaning(u: Upload, r: DNSRecord, seen: bool, wanted: map<Key, DNSRecord>, dropping: set<Key>, ownAll: bool)
    requires WellKeyed(wanted)
    ensures var v := Visit(u, r, seen, wanted, dropping, ownAll);
      if !IsChallengeRecord(r) then
        Own(v.payload) == Own(u.payload) + [r] && Challenges(v.payload) == Challenges(u.payload) && v.diff == u.diff
      else if seen || !Keeps(r, wanted, dropping, ownAll) then
        v.payload == u.payload && v.diff.kept == u.diff.kept
      else
        var q := if Wants(wanted, KeyOf(r)) then wanted[KeyOf(r)] else r;
        && Own(v.payload) == Own(u.payload)
        && Challenges(v.payload) == Challenges(u.payload) + [q] && KeyOf(q) == KeyOf(r)
        && v.diff.kept == u.diff.kept + 1
  {
    var q := if IsChallengeRecord(r) && Wants(wanted, KeyOf(r)) then wanted[KeyOf(r)] else r;
    Snoc(u.payload, q);
  }

  lemma VisitRemoves(u: Upload, r: DNSRecord, seen: bool, wanted: map<Key, DNSRecord>, dropping: set<Key>, ownAll: bool)
    ensures Visit(u, r, seen, wanted, dropping, ownAll).diff.remove ==
      u.diff.remove + if IsChallengeRecord(r) && !seen && !Keeps(r, wanted, dropping, ownAll) then [r] else []
  {
  }

  /** One pass over the API view passes its own records through. */
  lemma {:induction false} ScanOwn(api: seq<DNSRecord>, wanted: map<Key, DNSRecord>, dropping: set<Key>, ownAll: bool)
    requires WellKeyed(wanted)
    ensures Own(Scan(api, wanted, dropping, ownAll).payload) == Own(api)
  {
    if api != [] {
      var f, r := Front(api), Last(api);
      ScanOwn(f, wanted, dropping, ownAll);
      VisitMeaning(Scan(f, wanted, dropping, ownAll), r, KeyOf(r) in ChallengeKeys(f), wanted, dropping, ownAll);
    }
  }

  /** One pass over the API view uploads each kept key once, and counts them. */
  lemma {:induction false} ScanKept(api: seq<DNSRecord>, wanted: map<Key, DNSRecord>, dropping: set<Key>, ownAll: bool)
    requires WellKeyed(wanted)
    ensures var u := Scan(api, wanted, dropping, ownAll);
      && Keys(Challenges(u.payload)) == KeptKeys(api, wanted, dropping, ownAll)
      && DistinctKeys(Challenges(u.payload))
      && u.diff.kept == |Challenges(u.payload)|
  {
    if api != [] {
      var f, r := Front(api), Last(api);
      FrontLast(api);
      KeptKeysSnoc(f, r, wanted, dropping, ownAll);
      ScanKept(f, wanted, dropping, ownAll);
      var u := Scan(f, wanted, dropping, ownAll);
      VisitMeaning(u, r, KeyOf(r) in ChallengeKeys(f), wanted, dropping, ownAll);
      var q := if Wants(wanted, KeyOf(r)) then wanted[KeyOf(r)] else r;
      KeysSnoc(Challenges(u.payload), q);
      DistinctSnoc(Challenges(u.payload), q);
    }
  }

  /** What the pass removes: exactly the challenge keys it does not keep, each once. */
  lemma {:induction false} ScanRemoves(
    api: seq<DNSRecord>, wanted: map<Key, DNSRecord>, dropping: set<Key>, ownAll: bool)
    ensures var rm := Scan(api, wanted, dropping, ownAll).diff.remove;
      && Keys(rm) == ChallengeKeys(api) - KeptKeys(api, wanted, dropping, ownAll)
      && DistinctKeys(rm)
      && forall r | r in rm :: r in api && IsChallengeRecord(r)
  {
    if api != [] {
      var f, r := Front(api), Last(api);
      FrontLast(api);
      ChallengeKeysSnoc(f, r);
      KeptKeysSnoc(f, r, wanted, dropping, ownAll);
      ScanRemoves(f, wanted, dropping, ownAll);
      var u := Scan(f, wanted, dropping, ownAll);
      VisitRemoves(u, r, KeyOf(r) in ChallengeKeys(f), wanted, dropping, ownAll);
      KeysSnoc(u.diff.remove, r);
      DistinctSnoc(u.diff.remove, r);
    }
  }

  /** A wanted key is uploaded as the wanted record; an unwanted one as the API's record. */
  lemma {:induction false} ScanValues(
    api: seq<DNSRecord>, wanted: map<Key, DNSRecord>, dropping: set<Key>, ownAll: bool, r: DNSRecord)
    requires WellKeyed(wanted)
    requires r in Scan(api, wanted, dropping, ownAll).payload && IsChallengeRecord(r)
    ensures if Wants(wanted, KeyOf(r)) then r == wanted[KeyOf(r)] else r in api
  {
    FrontLast(api);
    var u := Scan(Front(api), wanted, dropping, ownAll);
    if r in u.payload {
      ScanValues(Front(api), wanted, dropping, ownAll, r);
    }
  }

  // ----- the payload -----

  lemma ComputeParts(api: seq<DNSRecord>, desired: seq<DNSRecord>, remove: seq<Key>, ownAll: bool)
    requires ChallengeOnly(desired)
    ensures var ds := Deduped(desired);
      && DistinctKeys(ds) && ChallengeOnly(ds) && Keys(ds) == Keys(desired)
      && WellKeyed(Wanted(ds)) && Wanted(ds).Keys == Keys(desired)
      && (forall k :: Wants(Wanted(ds), k) <==> k in Keys(desired))
      && (forall k | k in Wanted(ds) :: Wanted(ds)[k] in ds)
  {
    var ds := Deduped(desired);
    DedupeMeaning(desired);
    DedupeKeeps(desired);
    WantedMeaning(ds);
    forall k ensures Wants(Wanted(ds), k) <==> k in Keys(desired) {
      WantsIsMembership(ds, k);
    }
  }

  /** Challenge keys the upload is meant to carry. */
  function TargetKeys(api: seq<DNSRecord>, desired: seq<DNSRecord>, remove: seq<Key>, ownAll: bool): set<Key> {
    if ownAll then Keys(desired) else (ChallengeKeys(api) - SetOf(remove)) + Keys(desired)
  }

  /**
    The set specification of the payload rule: own records pass through in order
    and multiplicity, the challenge keys are the target keys, each exactly once.
   */
  lemma PayloadMeaning(api: seq<DNSRecord>, desired: seq<DNSRecord>, remove: seq<Key>, ownAll: bool)
    requires ChallengeOnly(desired)
    ensures var p := Compute(api, desired, remove, ownAll).payload;
      && Own(p) == Own(api)
      && ChallengeKeys(p) == TargetKeys(api, desired, remove, ownAll)
      && DistinctKeys(Challenges(p))
  {
    ComputeParts(api, desired, remove, ownAll);
    var ds := Deduped(desired);
    var w, d := Wanted(ds), SetOf(remove);
    var u := Scan(api, w, d, ownAll);
    var add := Missing(ds, ChallengeKeys(api));
    ScanOwn(api, w, d, ownAll);
    ScanKept(api, w, d, ownAll);
    MissingMeaning(ds, ChallengeKeys(api));
    ChallengeOnlySplit(add);
    OwnConcat(u.payload, add);
    ChallengesConcat(u.payload, add);
    ChallengeKeysOf(u.payload + add);
    KeysConcat(Challenges(u.payload), add);
    DistinctConcat(Challenges(u.payload), add);
  }

  lemma KeysConcat(a: seq<DNSRecord>, b: seq<DNSRecord>)
    ensures Keys(a + b) == Keys(a) + Keys(b)
  {
    forall k | k in Keys(a) + Keys(b) ensures k in Keys(a + b) {
      var x :| (x in a || x in b) && KeyOf(x) == k;
      assert x in a + b;
    }
  }

  lemma DistinctConcat(a: seq<DNSRecord>, b: seq<DNSRecord>)
    requires DistinctKeys(a) && DistinctKeys(b) && Keys(a) !! Keys(b)
    ensures DistinctKeys(a + b)
  {
    forall i, j | 0 <= i < j < |a + b| ensures KeyOf((a + b)[i]) != KeyOf((a + b)[j]) {
      if i < |a| <= j {
        assert KeyOf(a[i]) in Keys(a) && KeyOf(b[j - |a|]) in Keys(b);
      }
    }
  }

  /** Every uploaded challenge record: the first desired one of its key if wanted, else one the API showed. */
  lemma PayloadValues(api: seq<DNSRecord>, desired: seq<DNSRecord>, remove: seq<Key>, ownAll: bool, r: DNSRecord)
    requires ChallengeOnly(desired)
    requires r in Compute(api, desired, remove, ownAll).payload && IsChallengeRecord(r)
    ensures if KeyOf(r) in Keys(desired) then FirstWith(desired, KeyOf(r), r) else r in api
  {
    ComputeParts(api, desired, remove, ownAll);
    var ds := Deduped(desired);
    DedupeMeaning(desired);
    MissingMeaning(ds, ChallengeKeys(api));
    if r in Missing(ds, ChallengeKeys(api)) {
      assert KeyOf(r) in Keys(ds);
    } else {
      ScanValues(api, Wanted(ds), SetOf(remove), ownAll, r);
      if KeyOf(r) in Keys(desired) {
        assert r in ds;
      }
    }
  }

  lemma KeptAreTarget(api: seq<DNSRecord>, desired: seq<DNSRecord>, remove: seq<Key>, ownAll: bool)
    requires ChallengeOnly(desired)
    ensures KeptKeys(api, Wanted(Deduped(desired)), SetOf(remove), ownAll) ==
      ChallengeKeys(api) * TargetKeys(api, desired, remove, ownAll)
  {
    ComputeParts(api, desired, remove, ownAll);
  }

  /** The added and removed records are the two sides of the difference between view and payload. */
  lemma DiffSides(api: seq<DNSRecord>, desired: seq<DNSRecord>, remove: seq<Key>, ownAll: bool)
    requires ChallengeOnly(desired)
    ensures var u := Compute(api, desired, remove, ownAll);
      && Keys(u.diff.add) == ChallengeKeys(u.payload) - ChallengeKeys(api)
      && Keys(u.diff.remove) == ChallengeKeys(api) - ChallengeKeys(u.payload)
      && DistinctKeys(u.diff.add) && DistinctKeys(u.diff.remove)
      && u.diff.kept == |ChallengeKeys(api) * ChallengeKeys(u.payload)|
  {
    PayloadMeaning(api, desired, remove, ownAll);
    ComputeParts(api, desired, remove, ownAll);
    var ds := Deduped(desired);
    var w, d := Wanted(ds), SetOf(remove);
    ScanKept(api, w, d, ownAll);
    ScanRemoves(api, w, d, ownAll);
    MissingMeaning(ds, ChallengeKeys(api));
    DistinctCount(Challenges(Scan(api, w, d, ownAll).payload));
    KeptAreTarget(api, desired, remove, ownAll);
    TargetDifference(api, desired, remove, ownAll);
  }

  lemma TargetDifference(api: seq<DNSRecord>, desired: seq<DNSRecord>, remove: seq<Key>, ownAll: bool)
    ensures var c, t := ChallengeKeys(api), TargetKeys(api, desired, remove, ownAll);
      Keys(desired) - c == t - c && c - c * t == c - t
  {
  }

  /**
    `Diff` is exact: a write is called for iff the challenge key set of the API
    view differs from that of the payload, and the counts add up on both sides.
   */
  lemma DiffExact(api: seq<DNSRecord>, desired: seq<DNSRecord>, remove: seq<Key>, ownAll: bool)
    requires ChallengeOnly(desired)
    ensures var u := Compute(api, desired, remove, ownAll);
      && (u.diff.Changed() <==> ChallengeKeys(api) != ChallengeKeys(u.payload))
      && Keys(u.diff.add) == ChallengeKeys(u.payload) - ChallengeKeys(api)
      && Keys(u.diff.remove) == ChallengeKeys(api) - ChallengeKeys(u.payload)
      && u.diff.kept + |u.diff.remove| == |ChallengeKeys(api)|
      && u.diff.kept + |u.diff.add| == |Challenges(u.payload)|
  {
    DiffSides(api, desired, remove, ownAll);
    PayloadMeaning(api, desired, remove, ownAll);
    var u := Compute(api, desired, remove, ownAll);
    ChallengeKeysOf(u.payload);
    DistinctCount(Challenges(u.payload));
    DistinctCount(u.diff.add);
    DistinctCount(u.diff.remove);
    NoKeys(u.diff.add);
    NoKeys(u.diff.remove);
    SplitCount(ChallengeKeys(api), ChallengeKeys(u.payload));
    SplitCount(ChallengeKeys(u.payload), ChallengeKeys(api));
  }

  lemma SplitCount(a: set<Key>, b: set<Key>)
    ensures |a * b| + |a - b| == |a|
    ensures a * b == b * a
    ensures a == b <==> a - b == {} && b - a == {}
  {
    assert a == a * b + (a - b);
  }

  // ----- fixpoint and staleness independence -----

  /** Scanning a view whose challenge records are distinct and already final returns it unchanged. */
  lemma {:induction false} ScanFixed(p: seq<DNSRecord>, wanted: map<Key, DNSRecord>, dropping: set<Key>, ownAll: bool)
    requires DistinctKeys(Challenges(p))
    requires forall r | r in p && IsChallengeRecord(r) ::
      if Wants(wanted, KeyOf(r)) then r == wanted[KeyOf(r)] else !ownAll && KeyOf(r) !in dropping
    ensures var u := Scan(p, wanted, dropping, ownAll); u.payload == p && u.diff.remove == []
  {
    if p != [] {
      var f, r := Front(p), Last(p);
      FrontLast(p);
      ChallengeKeysOf(f);
      if IsChallengeRecord(r) {
        DistinctSnoc(Challenges(f), r);
      } else {
        assert Challenges(p) == Challenges(f);
      }
      ScanFixed(f, wanted, dropping, ownAll);
    }
  }

  /** Uploading the payload and reading it back leaves nothing to do, and the same zone to upload. */
  lemma Fixpoint(api: seq<DNSRecord>, desired: seq<DNSRecord>, remove: seq<Key>, ownAll: bool)
    requires ChallengeOnly(desired)
    ensures var p := Compute(api, desired, remove, ownAll).payload;
      var again := Compute(p, desired, remove, ownAll);
      again.payload == p && again.diff.add == [] && again.diff.remove == []
  {
    var p := Compute(api, desired, remove, ownAll).payload;
    var ds := Deduped(desired);
    var w := Wanted(ds);
    PayloadMeaning(api, desired, remove, ownAll);
    ComputeParts(api, desired, remove, ownAll);
    WantedMeaning(ds);
    DedupeMeaning(desired);
    forall r | r in p && IsChallengeRecord(r)
      ensures if Wants(w, KeyOf(r)) then r == w[KeyOf(r)] else !ownAll && KeyOf(r) !in SetOf(remove)
    {
      PayloadValues(api, desired, remove, ownAll, r);
      assert KeyOf(r) in ChallengeKeys(p);
    }
    ScanFixed(p, w, SetOf(remove), ownAll);
    MissingMeaning(ds, ChallengeKeys(p));
    NoKeys(Missing(ds, ChallengeKeys(p)));
  }

  /**
    Exactly when a second run has nothing to add: when every desired record is a
    challenge record.  Any other one is appended again, whatever the zone holds.
   */
  lemma SettlesIffChallengeOnly(api: seq<DNSRecord>, desired: seq<DNSRecord>, remove: seq<Key>, ownAll: bool)
    requires forall r | r in desired :: r.typ == "TXT"
    ensures var p := Compute(api, desired, remove, ownAll).payload;
      Compute(p, desired, remove, ownAll).diff.add == [] <==> ChallengeOnly(desired)
  {
    var p := Compute(api, desired, remove, ownAll).payload;
    var ds := Deduped(desired);
    if ChallengeOnly(desired) {
      Fixpoint(api, desired, remove, ownAll);
    } else {
      var r :| r in desired && !IsChallengeRecord(r);
      DedupeMeaning(desired);
      MissingMeaning(ds, ChallengeKeys(p));
      assert KeyOf(r) in Keys(desired);
      assert KeyOf(r) !in ChallengeKeys(p);
      NoKeys(Missing(ds, ChallengeKeys(p)));
    }
  }

  /** Records that are no challenge records are never taken for present. */
  lemma {:induction false} OwnMissing(ds: seq<DNSRecord>, api: seq<DNSRecord>)
    requires forall r | r in ds :: r.typ == "TXT"
    ensures Own(Missing(ds, ChallengeKeys(api))) == Own(ds)
  {
    if ds != [] {
      var f, x := Front(ds), Last(ds);
      FrontLast(ds);
      OwnMissing(f, api);
      if !IsChallengeRecord(x) {
        assert KeyOf(x) !in ChallengeKeys(api);
      }
      if KeyOf(x) in ChallengeKeys(api) {
        assert Missing(ds, ChallengeKeys(api)) == Missing(f, ChallengeKeys(api));
      } else {
        Snoc(Missing(f, ChallengeKeys(api)), x);
      }
    }
  }

  /**
    What becomes of desired records that are no challenge records: every run appends
    another copy of each, so the own records of the zone grow without end.
   */
  lemma OwnGrows(api: seq<DNSRecord>, desired: seq<DNSRecord>, remove: seq<Key>, ownAll: bool)
    requires forall r | r in desired :: r.typ == "TXT"
    ensures Own(Compute(api, desired, remove, ownAll).payload) == Own(api) + Own(Deduped(desired))
  {
    var ds := Deduped(desired);
    DedupeMeaning(desired);
    WantedMeaning(ds);
    forall r | r in ds ensures r.typ == "TXT" {
      assert FirstWith(desired, KeyOf(r), r);
      assert r in desired;
    }
    ScanOwn(api, Wanted(ds), SetOf(remove), ownAll);
    OwnMissing(ds, api);
    OwnConcat(Scan(api, Wanted(ds), SetOf(remove), ownAll).payload, Missing(ds, ChallengeKeys(api)));
  }

  /** The records of `ds` whose key is in `ks`. */
  function Among(ds: seq<DNSRecord>, ks: set<Key>): multiset<DNSRecord> {
    if ds == [] then multiset{}
    else Among(Front(ds), ks) + if KeyOf(Last(ds)) in ks then multiset{Last(ds)} else multiset{}
  }

  lemma {:induction false} AmongSplit(ds: seq<DNSRecord>, ks: set<Key>)
    ensures Among(ds, ks) + multiset(Missing(ds, ks)) == multiset(ds)
  {
    if ds != [] {
      FrontLast(ds);
      AmongSplit(Front(ds), ks);
    }
  }

  lemma {:induction false} AmongMore(ds: seq<DNSRecord>, ks: set<Key>, k: Key)
    requires DistinctKeys(ds) && k !in ks
    ensures k !in Keys(ds) ==> Among(ds, ks + {k}) == Among(ds, ks)
    ensures forall r | r in ds && KeyOf(r) == k :: Among(ds, ks + {k}) == Among(ds, ks) + multiset{r}
  {
    if ds != [] {
      var f, x := Front(ds), Last(ds);
      FrontLast(ds);
      KeysSnoc(f, x);
      DistinctSnoc(f, x);
      AmongMore(f, ks, k);
      forall r | r in ds && KeyOf(r) == k
        ensures Among(ds, ks + {k}) == Among(ds, ks) + multiset{r}
      {
        DistinctSnoc(f, x);
      }
    }
  }

  /** With ownAll, the scan uploads the own records and the desired records it saw. */
  lemma {:induction false} ScanMultiset(api: seq<DNSRecord>, ds: seq<DNSRecord>, dropping: set<Key>)
    requires DistinctKeys(ds) && ChallengeOnly(ds)
    ensures multiset(Scan(api, Wanted(ds), dropping, true).payload) ==
      multiset(Own(api)) + Among(ds, ChallengeKeys(api))
  {
    if api == [] {
      assert ChallengeKeys(api) == {};
      AmongNone(ds);
    } else {
      var f, r := Front(api), Last(api);
      FrontLast(api);
      ChallengeKeysSnoc(f, r);
      ScanMultiset(f, ds, dropping);
      if IsChallengeRecord(r) && KeyOf(r) !in ChallengeKeys(f) {
        AmongMore(ds, ChallengeKeys(f), KeyOf(r));
        WantsIsMembership(ds, KeyOf(r));
        WantedMeaning(ds);
      } else {
        assert ChallengeKeys(api) == ChallengeKeys(f);
      }
    }
  }

  lemma {:induction false} AmongNone(ds: seq<DNSRecord>)
    ensures Among(ds, {}) == multiset{}
  {
    if ds != [] {
      AmongNone(Front(ds));
    }
  }

  /** With ownAll the upload is, as a multiset, the own records plus the deduplicated desired ones. */
  lemma OwnAllMultiset(api: seq<DNSRecord>, desired: seq<DNSRecord>, remove: seq<Key>)
    requires ChallengeOnly(desired)
    ensures multiset(Compute(api, desired, remove, true).payload) == multiset(Own(api)) + multiset(Deduped(desired))
  {
    ComputeParts(api, desired, remove, true);
    ScanMultiset(api, Deduped(desired), SetOf(remove));
    AmongSplit(Deduped(desired), ChallengeKeys(api));
  }

  /** Staleness independence: two views that agree on the own records give the same upload. */
  lemma StaleViewsAgree(api: seq<DNSRecord>, stale: seq<DNSRecord>, desired: seq<DNSRecord>, remove: seq<Key>)
    requires ChallengeOnly(desired)
    requires Own(api) == Own(stale)
    ensures multiset(Compute(api, desired, remove, true).payload) ==
      multiset(Compute(stale, desired, remove, true).payload)
  {
    OwnAllMultiset(api, desired, remove);
    OwnAllMultiset(stale, desired, remove);
  }

  /**
    Why desired records must be challenge records: one that is not is appended
    to a zone that already holds it, and the write is reported as a change.
   */
  lemma NonChallengeDesiredIsRepeated(r: DNSRecord)
    requires !IsChallengeRecord(r)
    ensures var u := Compute([r], [r], [], true); u.payload == [r, r] && u.diff.Changed()
  {
    var one := [r];
    assert Front(one) == [] && Last(one) == r;
    assert Deduped(one) == one;
    assert SetOf([]) == {};
    assert Scan(one, Wanted(one), {}, true).payload == one;
    assert Missing(one, ChallengeKeys(one)) == one;
  }
}
