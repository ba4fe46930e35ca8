/**
  The payload rule in plain terms: what happens to a record of type, name and value,
  with the challenge label and every condition written out.
 */
module PlainPayload {
  import opened Sequences
  import opened Records
  import opened Payload

  /** The records hold a TXT record of this name and value. */
  predicate Lists(rs: seq<DNSRecord>, name: string, value: string) {
    exists r :: r in rs && r.typ == "TXT" && r.name == name && r.value == value
  }

  lemma ListsIsKey(rs: seq<DNSRecord>, name: string, value: string)
    requires "_acme-challenge." <= name
    ensures Lists(rs, name, value) <==> Key(name, value) in ChallengeKeys(rs)
  {
    forall r: DNSRecord | r.name == name ensures IsChallengeRecord(r) <==> r.typ == "TXT" {
    }
    if Lists(rs, name, value) {
      var r :| r in rs && r.typ == "TXT" && r.name == name && r.value == value;
      assert KeyOf(r) == Key(name, value);
    }
  }

  /** Records of another type, or outside the challenge label, are uploaded as often as the view shows them. */
  lemma OthersPass(api: seq<DNSRecord>, desired: seq<DNSRecord>, remove: seq<Key>, ownAll: bool, r: DNSRecord)
    requires forall d | d in desired :: d.typ == "TXT" && "_acme-challenge." <= d.name
    requires r.typ != "TXT" || !("_acme-challenge." <= r.name)
    ensures multiset(Compute(api, desired, remove, ownAll).payload)[r] == multiset(api)[r]
  {
    var payload := Compute(api, desired, remove, ownAll).payload;
    PayloadMeaning(api, desired, remove, ownAll);
    OthersAreOwn(payload, r);
    OthersAreOwn(api, r);
  }

  lemma OthersAreOwn(rs: seq<DNSRecord>, r: DNSRecord)
    requires r.typ != "TXT" || !("_acme-challenge." <= r.name)
    ensures multiset(rs)[r] == multiset(Own(rs))[r]
  {
    Partition(rs);
    assert r !in Challenges(rs);
    assert multiset(Challenges(rs))[r] == 0;
  }

  lemma {:induction false} OwnIsFilter(rs: seq<DNSRecord>, keep: DNSRecord -> bool)
    requires forall r :: keep(r) <==> r.typ != "TXT" || !("_acme-challenge." <= r.name)
    ensures Own(rs) == Filter(rs, keep)
  {
    if rs != [] {
      OwnIsFilter(Front(rs), keep);
    }
  }

  /** They keep their order: position by position they are those of the view. */
  lemma OthersInOrder(api: seq<DNSRecord>, desired: seq<DNSRecord>, remove: seq<Key>, ownAll: bool)
    returns (at: seq<nat>, was: seq<nat>)
    requires forall d | d in desired :: d.typ == "TXT" && "_acme-challenge." <= d.name
    ensures var payload := Compute(api, desired, remove, ownAll).payload;
      && |at| == |was|
      && (forall m, n | 0 <= m < n < |at| :: at[m] < at[n] && was[m] < was[n])
      && (forall i: nat ::
            i in at <==> i < |payload| && (payload[i].typ != "TXT" || !("_acme-challenge." <= payload[i].name)))
      && (forall i: nat ::
            i in was <==> i < |api| && (api[i].typ != "TXT" || !("_acme-challenge." <= api[i].name)))
      && (forall m | 0 <= m < |at| :: at[m] < |payload| && was[m] < |api| && payload[at[m]] == api[was[m]])
  {
    var payload := Compute(api, desired, remove, ownAll).payload;
    var keep := (r: DNSRecord) => r.typ != "TXT" || !("_acme-challenge." <= r.name);
    PayloadMeaning(api, desired, remove, ownAll);
    OwnIsFilter(payload, keep);
    OwnIsFilter(api, keep);
    at := FilterPicks(payload, keep);
    was := FilterPicks(api, keep);
  }

  /**
    Which challenge records are uploaded: the desired ones, and without ownAll also
    those of the view that are not to be removed.
   */
  lemma WantedAreListed(
    api: seq<DNSRecord>, desired: seq<DNSRecord>, remove: seq<Key>, ownAll: bool, name: string, value: string)
    requires forall d | d in desired :: d.typ == "TXT" && "_acme-challenge." <= d.name
    requires "_acme-challenge." <= name
    ensures Lists(Compute(api, desired, remove, ownAll).payload, name, value) <==>
      Lists(desired, name, value) || (!ownAll && Lists(api, name, value) && Key(name, value) !in remove)
  {
    var payload := Compute(api, desired, remove, ownAll).payload;
    PayloadMeaning(api, desired, remove, ownAll);
    ListsIsKey(payload, name, value);
    ListsIsKey(desired, name, value);
    ListsIsKey(api, name, value);
    ChallengeOnlySplit(desired);
  }

  /** No name and value is uploaded twice under the challenge label. */
  lemma EachOnce(api: seq<DNSRecord>, desired: seq<DNSRecord>, remove: seq<Key>, ownAll: bool)
    requires forall d | d in desired :: d.typ == "TXT" && "_acme-challenge." <= d.name
    ensures var payload := Compute(api, desired, remove, ownAll).payload;
      forall i, j | 0 <= i < j < |payload| ::
        && payload[i].typ == "TXT" && "_acme-challenge." <= payload[i].name
        && payload[j].typ == "TXT" && "_acme-challenge." <= payload[j].name ==>
          payload[i].name != payload[j].name || payload[i].value != payload[j].value
  {
    PayloadMeaning(api, desired, remove, ownAll);
    DistinctInPlace(Compute(api, desired, remove, ownAll).payload);
  }

  lemma {:induction false} DistinctInPlace(rs: seq<DNSRecord>)
    requires DistinctKeys(Challenges(rs))
    ensures forall i, j | 0 <= i < j < |rs| && IsChallengeRecord(rs[i]) && IsChallengeRecord(rs[j]) ::
      KeyOf(rs[i]) != KeyOf(rs[j])
  {
    if rs != [] {
      var f, x := Front(rs), Last(rs);
      FrontLast(rs);
      if IsChallengeRecord(x) {
        DistinctSnoc(Challenges(f), x);
        forall i | 0 <= i < |f| && IsChallengeRecord(f[i]) ensures KeyOf(f[i]) != KeyOf(x) {
          Partition(f);
          assert f[i] in Challenges(f);
        }
      } else {
        assert Challenges(rs) == Challenges(f);
      }
      DistinctInPlace(f);
    }
  }

  /** A wanted record is uploaded as its first desired version, TTL and all; any other as the view shows it. */
  lemma FirstDesiredWins(api: seq<DNSRecord>, desired: seq<DNSRecord>, remove: seq<Key>, ownAll: bool, q: DNSRecord)
    requires forall d | d in desired :: d.typ == "TXT" && "_acme-challenge." <= d.name
    requires q in Compute(api, desired, remove, ownAll).payload && q.typ == "TXT" && "_acme-challenge." <= q.name
    ensures if Lists(desired, q.name, q.value)
      then exists m | 0 <= m < |desired| ::
        (q == desired[m] && forall h | 0 <= h < m :: desired[h].name != q.name || desired[h].value != q.value)
      else q in api
  {
    PayloadValues(api, desired, remove, ownAll, q);
    ListsIsKey(desired, q.name, q.value);
    ChallengeOnlySplit(desired);
    if KeyOf(q) in Keys(desired) {
      var m :| 0 <= m < |desired| && desired[m] == q && KeyOf(q) !in Keys(desired[..m]);
      forall h | 0 <= h < m ensures desired[h].name != q.name || desired[h].value != q.value {
        assert desired[..m][h] == desired[h];
        assert KeyOf(desired[h]) in Keys(desired[..m]);
      }
    }
  }

  /** A write is called for iff some name and value under the label is in one of view and payload only. */
  lemma ChangeIsDifference(api: seq<DNSRecord>, desired: seq<DNSRecord>, remove: seq<Key>, ownAll: bool)
    requires forall d | d in desired :: d.typ == "TXT" && "_acme-challenge." <= d.name
    ensures var u := Compute(api, desired, remove, ownAll);
      (|u.diff.add| > 0 || |u.diff.remove| > 0) <==>
        exists name, value :: "_acme-challenge." <= name && Lists(api, name, value) != Lists(u.payload, name, value)
  {
    var u := Compute(api, desired, remove, ownAll);
    DiffExact(api, desired, remove, ownAll);
    forall name, value | "_acme-challenge." <= name
      ensures Lists(api, name, value) <==> Key(name, value) in ChallengeKeys(api)
      ensures Lists(u.payload, name, value) <==> Key(name, value) in ChallengeKeys(u.payload)
    {
      ListsIsKey(api, name, value);
      ListsIsKey(u.payload, name, value);
    }
    if ChallengeKeys(api) != ChallengeKeys(u.payload) {
      var k :| (k in ChallengeKeys(api)) != (k in ChallengeKeys(u.payload));
      assert Lists(api, k.name, k.value) != Lists(u.payload, k.name, k.value);
    }
  }

  // ----- the order of an upload -----

  /** Record by record, `p` has the names and values of `rs` at the positions `was`, from left to right. */
  ghost predicate Follows(p: seq<DNSRecord>, rs: seq<DNSRecord>, was: seq<nat>) {
    && |was| == |p|
    && (forall m, n | 0 <= m < n < |was| :: was[m] < was[n])
    && (forall m | 0 <= m < |was| :: was[m] < |rs| && p[m].name == rs[was[m]].name && p[m].value == rs[was[m]].value)
  }

  lemma FollowsMore(p: seq<DNSRecord>, rs: seq<DNSRecord>, was: seq<nat>, r: DNSRecord, q: DNSRecord)
    requires Follows(p, rs, was)
    ensures Follows(p, rs + [r], was)
    ensures q.name == r.name && q.value == r.value ==> Follows(p + [q], rs + [r], was + [|rs|])
  {
  }

  /** One turn of the loop adds at most one record, with the name and value of the one it looks at. */
  lemma VisitAppends(
    u: Upload, r: DNSRecord, seen: bool, wanted: map<Key, DNSRecord>, dropping: set<Key>, ownAll: bool)
    returns (q: DNSRecord)
    requires WellKeyed(wanted)
    ensures q.name == r.name && q.value == r.value
    ensures var p := Visit(u, r, seen, wanted, dropping, ownAll).payload; p == u.payload || p == u.payload + [q]
  {
    q := if IsChallengeRecord(r) && Wants(wanted, KeyOf(r)) then wanted[KeyOf(r)] else r;
  }

  /** The payload up to the added records follows the view. */
  lemma {:induction false} ScanOrder(
    api: seq<DNSRecord>, wanted: map<Key, DNSRecord>, dropping: set<Key>, ownAll: bool) returns (was: seq<nat>)
    requires WellKeyed(wanted)
    ensures Follows(Scan(api, wanted, dropping, ownAll).payload, api, was)
  {
    if api == [] {
      was := [];
    } else {
      var f, r := Front(api), Last(api);
      FrontLast(api);
      was := ScanOrder(f, wanted, dropping, ownAll);
      var u := Scan(f, wanted, dropping, ownAll);
      var q := VisitAppends(u, r, KeyOf(r) in ChallengeKeys(f), wanted, dropping, ownAll);
      FollowsMore(u.payload, f, was, r, q);
      if Scan(api, wanted, dropping, ownAll).payload != u.payload {
        was := was + [|f|];
      }
    }
  }

  /** `out` is `rs` at the positions `at`, from left to right. */
  ghost predicate Selects(out: seq<DNSRecord>, rs: seq<DNSRecord>, at: seq<nat>) {
    && |at| == |out|
    && (forall m, n | 0 <= m < n < |at| :: at[m] < at[n])
    && (forall m | 0 <= m < |at| :: at[m] < |rs| && out[m] == rs[at[m]])
  }

  lemma SelectsMore(out: seq<DNSRecord>, rs: seq<DNSRecord>, at: seq<nat>, r: DNSRecord)
    requires Selects(out, rs, at)
    ensures Selects(out, rs + [r], at) && Selects(out + [r], rs + [r], at + [|rs|])
  {
  }

  lemma SelectsTwice(
    out: seq<DNSRecord>, mid: seq<DNSRecord>, rs: seq<DNSRecord>, second: seq<nat>, first: seq<nat>)
    returns (at: seq<nat>)
    requires Selects(out, mid, second) && Selects(mid, rs, first)
    ensures Selects(out, rs, at)
  {
    at := seq(|second|, m requires 0 <= m < |second| => first[second[m]]);
  }

  lemma {:induction false} DedupeOrder(rs: seq<DNSRecord>) returns (at: seq<nat>)
    ensures Selects(Deduped(rs), rs, at)
  {
    if rs == [] {
      at := [];
    } else {
      at := DedupeOrder(Front(rs));
      FrontLast(rs);
      SelectsMore(Deduped(Front(rs)), Front(rs), at, Last(rs));
      if KeyOf(Last(rs)) !in Keys(Front(rs)) {
        at := at + [|rs| - 1];
      } else {
        assert Deduped(rs) == Deduped(Front(rs));
      }
    }
  }

  lemma {:induction false} MissingOrder(ds: seq<DNSRecord>, present: set<Key>) returns (at: seq<nat>)
    ensures Selects(Missing(ds, present), ds, at)
  {
    if ds == [] {
      at := [];
    } else {
      at := MissingOrder(Front(ds), present);
      FrontLast(ds);
      SelectsMore(Missing(Front(ds), present), Front(ds), at, Last(ds));
      if KeyOf(Last(ds)) !in present {
        at := at + [|ds| - 1];
      } else {
        assert Missing(ds, present) == Missing(Front(ds), present);
      }
    }
  }

  /**
    The order of an upload: first what is kept, in the order of the view; then what is
    added, in the order in which it is desired.
   */
  lemma UploadOrder(api: seq<DNSRecord>, desired: seq<DNSRecord>, remove: seq<Key>, ownAll: bool)
    returns (kept: seq<DNSRecord>, was: seq<nat>, at: seq<nat>)
    requires forall d | d in desired :: d.typ == "TXT" && "_acme-challenge." <= d.name
    ensures var u := Compute(api, desired, remove, ownAll);
      u.payload == kept + u.diff.add && Follows(kept, api, was) && Selects(u.diff.add, desired, at)
  {
    ComputeParts(api, desired, remove, ownAll);
    var ds := Deduped(desired);
    kept := Scan(api, Wanted(ds), SetOf(remove), ownAll).payload;
    was := ScanOrder(api, Wanted(ds), SetOf(remove), ownAll);
    var first := DedupeOrder(desired);
    var second := MissingOrder(ds, ChallengeKeys(api));
    at := SelectsTwice(Missing(ds, ChallengeKeys(api)), ds, desired, second, first);
  }
}
