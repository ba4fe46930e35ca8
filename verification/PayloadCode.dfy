/** The payload rule as code: maps and loops, tied to the functions that give them a value. */
module PayloadCode {
  import opened Records
  import opened Payload
  import opened PlainPayload

  /** Drops every record whose key came by before. */
  method Dedupe(records: seq<DNSRecord>) returns (out: seq<DNSRecord>)
    ensures out == Deduped(records)
  {
    var seen: set<Key> := {};
    out := [];
    for i := 0 to |records|
      invariant seen == Keys(records[..i])
      invariant out == Deduped(records[..i])
    {
      Take(records, i);
      KeysSnoc(records[..i], records[i]);
      assert records[..i + 1] == records[..i] + [records[i]];
      var k := KeyOf(records[i]);
      if k in seen {
        continue;
      }
      seen := seen + {k};
      out := out + [records[i]];
    }
    assert records[..|records|] == records;
  }

  /** One more record scanned: the value of one turn of the main loop. */
  lemma ScanStep(api: seq<DNSRecord>, i: nat, wanted: map<Key, DNSRecord>, dropping: set<Key>, ownAll: bool)
    requires i < |api|
    ensures Scan(api[..i + 1], wanted, dropping, ownAll) ==
      Visit(Scan(api[..i], wanted, dropping, ownAll),
            api[i], KeyOf(api[i]) in ChallengeKeys(api[..i]), wanted, dropping, ownAll)
    ensures ChallengeKeys(api[..i + 1]) ==
      ChallengeKeys(api[..i]) + if IsChallengeRecord(api[i]) then {KeyOf(api[i])} else {}
  {
    Take(api, i);
    ChallengeKeysSnoc(api[..i], api[i]);
    assert api[..i + 1] == api[..i] + [api[i]];
  }

  /** The table of wanted records. */
  method Tabulate(ds: seq<DNSRecord>) returns (wanted: map<Key, DNSRecord>)
    ensures wanted == Wanted(ds)
  {
    wanted := map[];
    for i := 0 to |ds|
      invariant wanted == Wanted(ds[..i])
    {
      Take(ds, i);
      wanted := wanted[KeyOf(ds[i]) := ds[i]];
    }
    assert ds[..|ds|] == ds;
  }

  /** The set of keys listed for removal. */
  method Collect(remove: seq<Key>) returns (dropping: set<Key>)
    ensures dropping == SetOf(remove)
  {
    dropping := {};
    for i := 0 to |remove|
      invariant dropping == SetOf(remove[..i])
    {
      assert remove[..i + 1] == remove[..i] + [remove[i]];
      dropping := dropping + {remove[i]};
    }
    assert remove[..|remove|] == remove;
  }

  /** The main loop: own records pass, challenge records are kept, replaced, dropped or collapsed. */
  method ScanView(api: seq<DNSRecord>, wanted: map<Key, DNSRecord>, dropping: set<Key>, ownAll: bool)
    returns (payload: seq<DNSRecord>, diff: Diff, present: set<Key>)
    ensures Upload(payload, diff) == Scan(api, wanted, dropping, ownAll)
    ensures present == ChallengeKeys(api)
  {
    payload, diff, present := [], Diff([], [], 0), {};
    for i := 0 to |api|
      invariant present == ChallengeKeys(api[..i])
      invariant Upload(payload, diff) == Scan(api[..i], wanted, dropping, ownAll)
    {
      var r := api[i];
      ScanStep(api, i, wanted, dropping, ownAll);
      if !IsChallengeRecord(r) {
        payload := payload + [r];
        continue;
      }
      var k := KeyOf(r);
      if k in present {
        continue;
      }
      present := present + {k};
      if k in wanted && wanted[k].name != "" {
        payload := payload + [wanted[k]];
        diff := diff.(kept := diff.kept + 1);
      } else if ownAll || k in dropping {
        diff := diff.(remove := diff.remove + [r]);
      } else {
        payload := payload + [r];
        diff := diff.(kept := diff.kept + 1);
      }
    }
    assert api[..|api|] == api;
  }

  /** The upload for a view, computed as the source does, loop by loop. */
  method ComputePayload(api: seq<DNSRecord>, desired: seq<DNSRecord>, remove: seq<Key>, ownAll: bool)
    returns (payload: seq<DNSRecord>, diff: Diff)
    ensures Upload(payload, diff) == Compute(api, desired, remove, ownAll)
    ensures (forall d | d in desired :: d.typ == "TXT" && "_acme-challenge." <= d.name) ==>
      && (forall r: DNSRecord | r.typ != "TXT" || !("_acme-challenge." <= r.name) ::
            multiset(payload)[r] == multiset(api)[r])
      && (forall name, value | "_acme-challenge." <= name ::
            Lists(payload, name, value) <==>
              Lists(desired, name, value)
              || (!ownAll && Lists(api, name, value) && Key(name, value) !in remove))
  {
    var ds := Dedupe(desired);
    var wanted := Tabulate(ds);
    var dropping := Collect(remove);
    var present: set<Key>;
    payload, diff, present := ScanView(api, wanted, dropping, ownAll);
    ghost var scanned := Upload(payload, diff);
    ScanAddsNothing(api, wanted, dropping, ownAll);
    for i := 0 to |ds|
      invariant diff == scanned.diff.(add := Missing(ds[..i], present))
      invariant payload == scanned.payload + diff.add
    {
      Take(ds, i);
      if KeyOf(ds[i]) !in present {
        payload := payload + [ds[i]];
        diff := diff.(add := diff.add + [ds[i]]);
      }
    }
    assert ds[..|ds|] == ds;
    InPlainTerms(api, desired, remove, ownAll);
  }

  /** The two laws of the payload, for challenge-only desired records. */
  lemma InPlainTerms(api: seq<DNSRecord>, desired: seq<DNSRecord>, remove: seq<Key>, ownAll: bool)
    ensures (forall d | d in desired :: d.typ == "TXT" && "_acme-challenge." <= d.name) ==>
      var payload := Compute(api, desired, remove, ownAll).payload;
      && (forall r: DNSRecord | r.typ != "TXT" || !("_acme-challenge." <= r.name) ::
            multiset(payload)[r] == multiset(api)[r])
      && (forall name, value | "_acme-challenge." <= name ::
            Lists(payload, name, value) <==>
              Lists(desired, name, value)
              || (!ownAll && Lists(api, name, value) && Key(name, value) !in remove))
  {
    if forall d | d in desired :: d.typ == "TXT" && "_acme-challenge." <= d.name {
      var payload := Compute(api, desired, remove, ownAll).payload;
      forall r: DNSRecord | r.typ != "TXT" || !("_acme-challenge." <= r.name)
        ensures multiset(payload)[r] == multiset(api)[r]
      {
        OthersPass(api, desired, remove, ownAll, r);
      }
      forall name, value | "_acme-challenge." <= name
        ensures Lists(payload, name, value) <==>
          Lists(desired, name, value) || (!ownAll && Lists(api, name, value) && Key(name, value) !in remove)
      {
        WantedAreListed(api, desired, remove, ownAll, name, value);
      }
    }
  }

  lemma {:induction false} ScanAddsNothing(
    api: seq<DNSRecord>, wanted: map<Key, DNSRecord>, dropping: set<Key>, ownAll: bool)
    ensures Scan(api, wanted, dropping, ownAll).diff.add == []
  {
    if api != [] {
      ScanAddsNothing(Front(api), wanted, dropping, ownAll);
    }
  }
}
