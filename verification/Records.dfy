/**
  DNS records as mijn.host lists them, and the split of a zone into challenge
  records (the webhook's business) and own records (everybody else's).
 */
module Records {

  datatype DNSRecord = DNSRecord(typ: string, name: string, value: string, ttl: int)

  /** What tells challenge records apart: the name together with the value. */
  datatype Key = Key(name: string, value: string)

  const CHALLENGE_PREFIX := "_acme-challenge."

  function KeyOf(r: DNSRecord): Key {
    Key(r.name, r.value)
  }

  predicate IsChallengeRecord(r: DNSRecord) {
    r.typ == "TXT" && CHALLENGE_PREFIX <= r.name
  }

  predicate ChallengeOnly(rs: seq<DNSRecord>) {
    forall r | r in rs :: IsChallengeRecord(r)
  }

  function Last<T>(s: seq<T>): T
    requires s != []
  {
    s[|s| - 1]
  }

  function Front<T>(s: seq<T>): seq<T>
    requires s != []
  {
    s[..|s| - 1]
  }

  /** The records that are not challenge records, in order and with multiplicity. */
  function Own(rs: seq<DNSRecord>): seq<DNSRecord> {
    if rs == [] then []
    else Own(Front(rs)) + if IsChallengeRecord(Last(rs)) then [] else [Last(rs)]
  }

  /** The challenge records, in order and with multiplicity. */
  function Challenges(rs: seq<DNSRecord>): seq<DNSRecord> {
    if rs == [] then []
    else Challenges(Front(rs)) + if IsChallengeRecord(Last(rs)) then [Last(rs)] else []
  }

  function Keys(rs: seq<DNSRecord>): set<Key> {
    set r | r in rs :: KeyOf(r)
  }

  function ChallengeKeys(rs: seq<DNSRecord>): set<Key> {
    set r | r in rs && IsChallengeRecord(r) :: KeyOf(r)
  }

  predicate DistinctKeys(rs: seq<DNSRecord>) {
    forall i, j | 0 <= i < j < |rs| :: KeyOf(rs[i]) != KeyOf(rs[j])
  }

  lemma FrontLast<T>(s: seq<T>)
    requires s != []
    ensures s == Front(s) + [Last(s)]
  {
  }

  lemma Snoc<T>(s: seq<T>, x: T)
    ensures s + [x] != [] && Front(s + [x]) == s && Last(s + [x]) == x
  {
  }

  /** Taking one more element of a sequence is a snoc. */
  lemma Take<T>(s: seq<T>, i: nat)
    requires i < |s|
    ensures s[..i + 1] != [] && Front(s[..i + 1]) == s[..i] && Last(s[..i + 1]) == s[i]
  {
    assert s[..i + 1] == s[..i] + [s[i]];
  }

  lemma {:induction false} OwnConcat(a: seq<DNSRecord>, b: seq<DNSRecord>)
    ensures Own(a + b) == Own(a) + Own(b)
  {
    if b == [] {
      assert a + b == a;
    } else {
      assert Front(a + b) == a + Front(b);
      OwnConcat(a, Front(b));
    }
  }

  lemma {:induction false} ChallengesConcat(a: seq<DNSRecord>, b: seq<DNSRecord>)
    ensures Challenges(a + b) == Challenges(a) + Challenges(b)
  {
    if b == [] {
      assert a + b == a;
    } else {
      assert Front(a + b) == a + Front(b);
      ChallengesConcat(a, Front(b));
    }
  }

  /** Own and Challenges partition a zone. */
  lemma {:induction false} Partition(rs: seq<DNSRecord>)
    ensures multiset(rs) == multiset(Own(rs)) + multiset(Challenges(rs))
    ensures forall r :: r in Own(rs) <==> r in rs && !IsChallengeRecord(r)
    ensures forall r :: r in Challenges(rs) <==> r in rs && IsChallengeRecord(r)
  {
    if rs != [] {
      FrontLast(rs);
      Partition(Front(rs));
    }
  }

  lemma {:induction false} ChallengeOnlySplit(rs: seq<DNSRecord>)
    requires ChallengeOnly(rs)
    ensures Own(rs) == [] && Challenges(rs) == rs && ChallengeKeys(rs) == Keys(rs)
  {
    if rs != [] {
      FrontLast(rs);
      ChallengeOnlySplit(Front(rs));
    }
  }

  lemma ChallengeKeysSnoc(rs: seq<DNSRecord>, r: DNSRecord)
    ensures ChallengeKeys(rs + [r]) == ChallengeKeys(rs) + if IsChallengeRecord(r) then {KeyOf(r)} else {}
  {
    forall k | k in ChallengeKeys(rs) + (if IsChallengeRecord(r) then {KeyOf(r)} else {})
      ensures k in ChallengeKeys(rs + [r])
    {
      if k in ChallengeKeys(rs) {
        var x :| x in rs && IsChallengeRecord(x) && KeyOf(x) == k;
        assert x in rs + [r];
      } else {
        assert r in rs + [r];
      }
    }
  }

  lemma ChallengeKeysOf(rs: seq<DNSRecord>)
    ensures ChallengeKeys(rs) == Keys(Challenges(rs))
  {
    Partition(rs);
  }

  /** A sequence of records with distinct keys has as many keys as records. */
  lemma {:induction false} DistinctCount(rs: seq<DNSRecord>)
    requires DistinctKeys(rs)
    ensures |Keys(rs)| == |rs|
  {
    if rs != [] {
      FrontLast(rs);
      var f, r := Front(rs), Last(rs);
      DistinctCount(f);
      assert Keys(rs) == Keys(f) + {KeyOf(r)};
      assert KeyOf(r) !in Keys(f);
    }
  }
}
