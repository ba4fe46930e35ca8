/**
  The durable per-zone state: the challenge records the webhook wants, and what the
  three operations do to it.
 */
module Desired {
  import opened Base
  import opened Sequences
  import opened Records

  datatype SecretRef = SecretRef(namespace: string, name: string, key: string)

  /** Times are microseconds since Go's zero time, so `ZERO_TIME` is `time.Time{}`. */
  const ZERO_TIME: int := 0

  datatype Record = Record(name: string, value: string, ttl: int, addedAt: int, uid: string, dnsName: string)

  datatype ZoneState = ZoneState(secret: SecretRef, records: seq<Record>)

  const NO_SECRET := SecretRef("", "", "")
  const EMPTY_STATE := ZoneState(NO_SECRET, [])

  /** One operation; the record name of a request is already absolute. */
  datatype Op =
    | Present(name: string, value: string, ttl: int, uid: string, dnsName: string, secret: SecretRef)
    | CleanUp(name: string, value: string, secret: SecretRef)
    | Sweep

  function RecordKey(r: Record): Key {
    Key(r.name, r.value)
  }

  /** The operation keeps challenge records challenge records. */
  predicate ChallengeOp(op: Op) {
    op.Present? ==> CHALLENGE_PREFIX <= op.name
  }

  predicate IsExpired(r: Record, cutoff: int) {
    r.addedAt != ZERO_TIME && r.addedAt < cutoff
  }

  function Unexpired(rs: seq<Record>, cutoff: int): seq<Record> {
    if rs == [] then []
    else Unexpired(Front(rs), cutoff) + if IsExpired(Last(rs), cutoff) then [] else [Last(rs)]
  }

  function Lapsed(rs: seq<Record>, cutoff: int): seq<Record> {
    if rs == [] then []
    else Lapsed(Front(rs), cutoff) + if IsExpired(Last(rs), cutoff) then [Last(rs)] else []
  }

  function Without(rs: seq<Record>, k: Key): seq<Record> {
    if rs == [] then []
    else Without(Front(rs), k) + if RecordKey(Last(rs)) == k then [] else [Last(rs)]
  }

  /** Index of the first record with key `k`, or the length. */
  function IndexOf(rs: seq<Record>, k: Key): (i: nat)
    ensures i <= |rs|
    ensures i < |rs| ==> RecordKey(rs[i]) == k
    ensures forall j | 0 <= j < i :: RecordKey(rs[j]) != k
  {
    if rs == [] then 0
    else if RecordKey(rs[0]) == k then 0
    else 1 + IndexOf(rs[1..], k)
  }

  /** What an operation does to the list of wanted records at time `now`. */
  function Mutated(op: Op, rs: seq<Record>, now: int): seq<Record> {
    match op
    case Present(name, value, ttl, uid, dnsName, _) =>
      var i := IndexOf(rs, Key(name, value));
      if i < |rs| then rs[i := rs[i].(ttl := ttl)]
      else rs + [Record(name, value, ttl, now, uid, dnsName)]
    case CleanUp(name, value, _) => Without(rs, Key(name, value))
    case Sweep => rs
  }

  /** The keys an operation asks to be removed from the zone. */
  function Removal(op: Op): seq<Key> {
    if op.CleanUp? then [Key(op.name, op.value)] else []
  }

  /** Requests carry a key reference; a sweep uses the stored one. */
  function Secret(op: Op, stored: SecretRef): SecretRef {
    match op
    case Present(_, _, _, _, _, secret) => secret
    case CleanUp(_, _, secret) => secret
    case Sweep => stored
  }

  function ToDNS(r: Record): DNSRecord {
    DNSRecord("TXT", r.name, r.value, r.ttl)
  }

  function DesiredRecords(rs: seq<Record>): (out: seq<DNSRecord>)
    ensures |out| == |rs| && forall i | 0 <= i < |rs| :: out[i] == ToDNS(rs[i])
  {
    if rs == [] then [] else DesiredRecords(Front(rs)) + [ToDNS(Last(rs))]
  }

  function StoredKeys(rs: seq<Record>): set<Key> {
    set r | r in rs :: RecordKey(r)
  }

  predicate AllChallenge(rs: seq<Record>) {
    forall r | r in rs :: CHALLENGE_PREFIX <= r.name
  }

  lemma DesiredMeaning(rs: seq<Record>)
    ensures |DesiredRecords(rs)| == |rs|
    ensures forall i | 0 <= i < |rs| ::
      var d := DesiredRecords(rs)[i];
      d.typ == "TXT" && d.name == rs[i].name && d.value == rs[i].value && d.ttl == rs[i].ttl
    ensures Keys(DesiredRecords(rs)) == StoredKeys(rs)
    ensures AllChallenge(rs) ==> ChallengeOnly(DesiredRecords(rs))
  {
    var ds := DesiredRecords(rs);
    forall k | k in StoredKeys(rs) ensures k in Keys(ds) {
      var i :| 0 <= i < |rs| && RecordKey(rs[i]) == k;
      assert KeyOf(ds[i]) == k;
    }
    forall d | d in ds ensures exists r | r in rs :: d == ToDNS(r) {
      var i :| 0 <= i < |ds| && ds[i] == d;
      assert ds[i] == ToDNS(rs[i]);
    }
  }

  /** Expiry and cleaning up are filters: what stays stays in order, and as often as it was. */
  lemma {:induction false} UnexpiredIsFilter(rs: seq<Record>, cutoff: int, keep: Record -> bool)
    requires forall r :: keep(r) <==> r.addedAt == 0 || r.addedAt >= cutoff
    ensures Unexpired(rs, cutoff) == Filter(rs, keep)
  {
    if rs != [] {
      UnexpiredIsFilter(Front(rs), cutoff, keep);
    }
  }

  lemma {:induction false} LapsedIsFilter(rs: seq<Record>, cutoff: int, drop: Record -> bool)
    requires forall r :: drop(r) <==> r.addedAt != 0 && r.addedAt < cutoff
    ensures Lapsed(rs, cutoff) == Filter(rs, drop)
  {
    if rs != [] {
      LapsedIsFilter(Front(rs), cutoff, drop);
    }
  }

  lemma {:induction false} WithoutIsFilter(rs: seq<Record>, name: string, value: string, keep: Record -> bool)
    requires forall r :: keep(r) <==> r.name != name || r.value != value
    ensures Without(rs, Key(name, value)) == Filter(rs, keep)
  {
    if rs != [] {
      WithoutIsFilter(Front(rs), name, value, keep);
    }
  }

  lemma {:induction false} UnexpiredMembers(rs: seq<Record>, cutoff: int)
    ensures forall r :: r in Unexpired(rs, cutoff) <==> r in rs && !IsExpired(r, cutoff)
  {
    if rs != [] {
      FrontLast(rs);
      UnexpiredMembers(Front(rs), cutoff);
    }
  }

  lemma {:induction false} WithoutMembers(rs: seq<Record>, k: Key)
    ensures forall r :: r in Without(rs, k) <==> r in rs && RecordKey(r) != k
  {
    if rs != [] {
      FrontLast(rs);
      WithoutMembers(Front(rs), k);
    }
  }

  lemma PresentLists(op: Op, rs: seq<Record>, now: int)
    requires op.Present?
    ensures Key(op.name, op.value) in StoredKeys(Mutated(op, rs, now))
  {
    var ms := Mutated(op, rs, now);
    var i := IndexOf(rs, Key(op.name, op.value));
    assert RecordKey(ms[i]) == Key(op.name, op.value);
    assert ms[i] in ms;
  }

  lemma MutatedAllChallenge(op: Op, rs: seq<Record>, cutoff: int, now: int)
    requires ChallengeOp(op) && AllChallenge(rs)
    ensures AllChallenge(Mutated(op, Unexpired(rs, cutoff), now))
  {
    UnexpiredMembers(rs, cutoff);
    var us := Unexpired(rs, cutoff);
    match op
    case Present(_, _, _, _, _, _) =>
      var ms := Mutated(op, us, now);
      forall r | r in ms ensures CHALLENGE_PREFIX <= r.name {
        var i :| 0 <= i < |ms| && ms[i] == r;
        if i < |us| { assert us[i].name == r.name; }
      }
    case CleanUp(name, value, _) => WithoutMembers(us, Key(name, value));
    case Sweep =>
  }
}
