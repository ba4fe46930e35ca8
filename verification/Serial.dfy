/**
  The SOA serial of a zone: the highest one any authoritative nameserver answers,
  with the nameservers discovered through the resolver and cached per zone.
 */
module Serial {
  import opened Base
  import opened Records
  import opened Names

  type U32 = x: int | 0 <= x < 0x1_0000_0000

  const CACHE_TTL := 3600 * 1_000_000

  /** A record of a nameserver's answer section. */
  datatype RR = SOA(serial: U32) | Other

  /** A nameserver's answer, or None for a failed exchange. */
  type Exchange = string -> Option<seq<RR>>

  /** The serials in one answer section. */
  function SerialsOf(answer: seq<RR>): seq<U32> {
    if answer == [] then []
    else SerialsOf(Front(answer)) + if Last(answer).SOA? then [Last(answer).serial] else []
  }

  /** Everything the nameservers answer, in the order asked. */
  function Answers(servers: seq<string>, exchange: Exchange): seq<U32> {
    if servers == [] then []
    else
      Answers(Front(servers), exchange) +
      match exchange(Last(servers))
      case None => []
      case Some(answer) => SerialsOf(answer)
  }

  /** A serial counts if some server answered, with it in its answer; other servers' failures do not matter. */
  lemma {:induction false} AnswersMeaning(servers: seq<string>, exchange: Exchange, s: U32)
    ensures s in Answers(servers, exchange) <==>
      exists i | 0 <= i < |servers| :: exchange(servers[i]).Some? && SOA(s) in exchange(servers[i]).value
  {
    if s in Answers(servers, exchange) {
      var i := WhoAnswered(servers, exchange, s);
    }
    forall i | 0 <= i < |servers| && exchange(servers[i]).Some? && SOA(s) in exchange(servers[i]).value
      ensures s in Answers(servers, exchange)
    {
      AnswerCounts(servers, exchange, s, i);
    }
  }

  lemma {:induction false} WhoAnswered(servers: seq<string>, exchange: Exchange, s: U32) returns (i: nat)
    requires s in Answers(servers, exchange)
    ensures i < |servers| && exchange(servers[i]).Some? && SOA(s) in exchange(servers[i]).value
  {
    if s in Answers(Front(servers), exchange) {
      i := WhoAnswered(Front(servers), exchange, s);
    } else {
      i := |servers| - 1;
      SerialsMeaning(exchange(servers[i]).value, s);
    }
  }

  lemma {:induction false} AnswerCounts(servers: seq<string>, exchange: Exchange, s: U32, i: nat)
    requires i < |servers| && exchange(servers[i]).Some? && SOA(s) in exchange(servers[i]).value
    ensures s in Answers(servers, exchange)
  {
    if i < |servers| - 1 {
      AnswerCounts(Front(servers), exchange, s, i);
    } else {
      SerialsMeaning(exchange(servers[i]).value, s);
    }
  }

  lemma {:induction false} SerialsMeaning(answer: seq<RR>, s: U32)
    ensures s in SerialsOf(answer) <==> SOA(s) in answer
  {
    if answer != [] {
      SerialsMeaning(Front(answer), s);
      FrontLast(answer);
    }
  }

  ghost predicate IsMaximum(best: U32, all: seq<U32>) {
    best in all && forall s | s in all :: s <= best
  }

  /** One more answer: `>` against the best so far, which starts at 0. */
  lemma MaximumSnoc(best: U32, all: seq<U32>, s: U32)
    requires if all == [] then best == 0 else IsMaximum(best, all)
    ensures IsMaximum(if s > best then s else best, all + [s])
  {
    assert (all + [s])[|all|] == s;
  }

  /** A successful lookup of a zone's nameservers. */
  datatype Lookup = Lookup(zone: string, servers: seq<string>)

  /** The latest successful, non-empty lookup of a zone. */
  function Latest(lookups: seq<Lookup>, zone: string): Option<seq<string>> {
    if lookups == [] then None
    else if Last(lookups).zone == zone then Some(Last(lookups).servers)
    else Latest(Front(lookups), zone)
  }

  class DNSSerialReader {
    var nsCache: map<string, seq<string>>
    var nsCacheAt: map<string, int>
    ghost var lookups: seq<Lookup>

    ghost predicate Valid()
      reads this
    {
      && nsCache.Keys == nsCacheAt.Keys
      && (forall z | z in nsCache :: nsCache[z] != [])
      && (forall z :: Latest(lookups, z) == if z in nsCache then Some(nsCache[z]) else None)
    }

    constructor ()
      ensures Valid() && nsCache == map[] && lookups == []
    {
      nsCache, nsCacheAt, lookups := map[], map[], [];
    }

    /**
      The nameservers to ask: the cached ones while they are fresh, else those of a
      new lookup, else the stale ones.  `found` is what the resolver says, None for a
      failure; `later` is the clock when a new entry is stored.
     */
    method Nameservers(zone: string, now: int, found: Option<seq<string>>, later: int) returns (r: Option<seq<string>>)
      requires Valid()
      modifies this
      ensures Valid()
      ensures r.Some? ==> r.value != [] && Latest(lookups, zone) == r
      ensures var hit := old(zone in nsCacheAt && now - nsCacheAt[zone] < 3600 * 1_000_000);
        && (hit || found.None? || found.value == [] ==>
              nsCache == old(nsCache) && nsCacheAt == old(nsCacheAt) && lookups == old(lookups))
        && (!hit && found.Some? && found.value != [] ==>
              && r == found && lookups == old(lookups) + [Lookup(zone, found.value)]
              && nsCache == old(nsCache)[zone := found.value] && nsCacheAt == old(nsCacheAt)[zone := later])
        && (r.None? <==> !hit && (found == Some([]) || (found.None? && zone !in old(nsCache))))
    {
      if zone in nsCacheAt && now - nsCacheAt[zone] < CACHE_TTL {
        return Some(nsCache[zone]);
      }
      match found {
        case None =>
          if zone in nsCache {
            return Some(nsCache[zone]);
          }
          return None;
        case Some(servers) =>
          if |servers| == 0 {
            return None;
          }
          nsCache := nsCache[zone := servers];
          nsCacheAt := nsCacheAt[zone := later];
          Snoc(lookups, Lookup(zone, servers));
          lookups := lookups + [Lookup(zone, servers)];
          return Some(servers);
      }
    }

    /** The highest serial any nameserver of the zone, less a trailing dot, answers; None when none does. */
    method Serial(zone: string, now: int, found: Option<seq<string>>, later: int, exchange: Exchange)
      returns (r: Option<U32>)
      requires Valid()
      modifies this
      ensures Valid()
      ensures var z := TrimDot(zone);
        var hit := old(TrimDot(zone) in nsCacheAt && now - nsCacheAt[TrimDot(zone)] < 3600 * 1_000_000);
        match Latest(lookups, z)
        case Some(servers) =>
          if r.None? then Answers(servers, exchange) == [] || (!hit && found == Some([]))
          else IsMaximum(r.value, Answers(servers, exchange))
        case None => r.None?
    {
      var servers := Nameservers(TrimDot(zone), now, found, later);
      if servers.None? {
        return None;
      }
      r := Highest(servers.value, exchange);
    }
  }

  /** The loop over the nameservers and their answers. */
  method Highest(servers: seq<string>, exchange: Exchange) returns (r: Option<U32>)
    ensures r.None? <==> Answers(servers, exchange) == []
    ensures r.Some? ==> IsMaximum(r.value, Answers(servers, exchange))
  {
    var best: U32, answered := 0, 0;
    for i := 0 to |servers|
      invariant Best(best, answered, Answers(servers[..i], exchange))
    {
      Take(servers, i);
      var resp := exchange(servers[i]);
      if resp.None? {
        continue;
      }
      best, answered := HighestOf(resp.value, best, answered, Answers(servers[..i], exchange));
    }
    assert servers[..|servers|] == servers;
    return if answered == 0 then None else Some(best);
  }

  /** The best of the serials seen so far, and how many there were. */
  ghost predicate Best(best: U32, answered: nat, all: seq<U32>) {
    answered == |all| && if all == [] then best == 0 else IsMaximum(best, all)
  }

  /** The loop over the records of one answer. */
  method HighestOf(answer: seq<RR>, sofar: U32, count: nat, ghost before: seq<U32>) returns (best: U32, answered: nat)
    requires Best(sofar, count, before)
    ensures Best(best, answered, before + SerialsOf(answer))
  {
    best, answered := sofar, count;
    assert before + [] == before;
    for j := 0 to |answer|
      invariant Best(best, answered, before + SerialsOf(answer[..j]))
    {
      Take(answer, j);
      if answer[j].SOA? {
        ghost var seen := before + SerialsOf(answer[..j]);
        assert before + SerialsOf(answer[..j + 1]) == seen + [answer[j].serial];
        MaximumSnoc(best, seen, answer[j].serial);
        answered := answered + 1;
        if answer[j].serial > best {
          best := answer[j].serial;
        }
      } else {
        assert SerialsOf(answer[..j + 1]) == SerialsOf(answer[..j]);
      }
    }
    assert answer[..|answer|] == answer;
  }

  // ----- serial number arithmetic (RFC 1982) -----

  /** Section 3.1: adding less than 2^31 moves a serial forward. */
  predicate Reaches(s: U32, n: int, t: U32) {
    0 < n < 0x8000_0000 && t == (s + n) % 0x1_0000_0000
  }

  /** Section 3.2: serial `s` is less than serial `t`. */
  predicate SerialLess(s: U32, t: U32) {
    (s < t && t - s < 0x8000_0000) || (s > t && s - t > 0x8000_0000)
  }

  lemma SerialLessMeaning(s: U32, t: U32)
    ensures SerialLess(s, t) <==> exists n :: Reaches(s, n, t)
  {
    if SerialLess(s, t) {
      var n := if s < t then t - s else t - s + 0x1_0000_0000;
      assert Reaches(s, n, t);
    }
  }

  /** The plain maximum is the newest serial as long as the answers lie within 2^31 of each other. */
  lemma MaximumIsNewest(best: U32, all: seq<U32>)
    requires IsMaximum(best, all)
    ensures (forall s | s in all :: s == best || SerialLess(s, best)) <==> forall s | s in all :: best - s < 0x8000_0000
  {
  }

  /** Across a wrap-around the plain maximum is the older serial. */
  lemma WrapPicksOldSerial()
    ensures IsMaximum(0xFFFF_FFFF, [0xFFFF_FFFF, 0]) && SerialLess(0xFFFF_FFFF, 0)
  {
    var all: seq<U32> := [0xFFFF_FFFF, 0];
    assert all[0] == 0xFFFF_FFFF;
  }
}
