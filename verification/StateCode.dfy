/** The in-place code that changes a loaded state. */
module StateCode {
  import opened Base
  import opened Records
  import opened Desired

  /** One more record looked at for expiry. */
  lemma ExpiryStep(rs: seq<Record>, i: nat, cutoff: int)
    requires i < |rs|
    ensures Unexpired(rs[..i + 1], cutoff) ==
      Unexpired(rs[..i], cutoff) + if IsExpired(rs[i], cutoff) then [] else [rs[i]]
    ensures DesiredRecords(Lapsed(rs[..i + 1], cutoff)) ==
      DesiredRecords(Lapsed(rs[..i], cutoff)) + if IsExpired(rs[i], cutoff) then [ToDNS(rs[i])] else []
  {
    Take(rs, i);
    Snoc(Lapsed(rs[..i], cutoff), rs[i]);
  }

  /**
    `State` with its records held in a slice: the first `len` elements of a
    backing array whose length is the capacity.
   */
  class State {
    var secret: SecretRef
    var buf: array<Record>
    var len: nat

    ghost predicate Valid()
      reads this
    {
      len <= buf.Length
    }

    ghost function Records(): seq<Record>
      requires Valid()
      reads this, buf
    {
      buf[..len]
    }

    /** The state as stored in the ConfigMap. */
    ghost function Value(): ZoneState
      requires Valid()
      reads this, buf
    {
      ZoneState(secret, Records())
    }

    /** The state decoded from a ConfigMap. */
    constructor (st: ZoneState)
      ensures Valid() && fresh(buf) && Value() == st
    {
      secret := st.secret;
      var a := new Record[|st.records|](i requires 0 <= i < |st.records| => st.records[i]);
      buf := a;
      len := |st.records|;
      new;
      assert buf[..len] == st.records;
    }

    /** The records as stored. */
    method Snapshot() returns (st: ZoneState)
      requires Valid()
      ensures st == Value()
    {
      st := ZoneState(secret, buf[..len]);
    }

    /** `append`: in place while the capacity allows, else into a larger array. */
    method Append(r: Record)
      requires Valid()
      modifies this`buf, this`len, buf
      ensures Valid() && Records() == old(Records()) + [r] && (buf == old(buf) || fresh(buf))
    {
      if len == buf.Length {
        var all := buf[..];
        buf := new Record[2 * |all| + 1](i => if 0 <= i < |all| then all[i] else r);
        assert buf[..len] == all;
      }
      buf[len] := r;
      len := len + 1;
    }

    /**
      Compacts the slice over its own backing array: records older than the
      cutoff move to `expired`, the rest keep their order.
     */
    method DropExpired(cutoff: int) returns (expired: seq<DNSRecord>)
      requires Valid()
      modifies this`len, buf
      ensures Valid() && buf == old(buf) && len <= old(len)
      ensures Records() == Unexpired(old(Records()), cutoff)
      ensures expired == DesiredRecords(Lapsed(old(Records()), cutoff))
      ensures forall j | old(len) <= j < buf.Length :: buf[j] == old(buf[j])
    {
      ghost var all := buf[..len];
      var kept := 0;
      expired := [];
      for i := 0 to len
        invariant kept <= i && len == old(len)
        invariant buf[..kept] == Unexpired(all[..i], cutoff)
        invariant forall j | i <= j < buf.Length :: buf[j] == old(buf[j])
        invariant expired == DesiredRecords(Lapsed(all[..i], cutoff))
      {
        var rec := buf[i];
        ExpiryStep(all, i, cutoff);
        if rec.addedAt != ZERO_TIME && rec.addedAt < cutoff {
          expired := expired + [ToDNS(rec)];
        } else {
          buf[kept] := rec;
          kept := kept + 1;
        }
      }
      assert all[..len] == all;
      len := kept;
    }

    /** Present: refresh the TTL of a listed record, or list it. */
    method Present(name: string, value: string, ttl: int, uid: string, dnsName: string, now: int)
      requires Valid()
      modifies this`buf, this`len, buf
      ensures Valid() && (buf == old(buf) || fresh(buf))
      ensures Records() == Mutated(Op.Present(name, value, ttl, uid, dnsName, secret), old(Records()), now)
    {
      for i := 0 to len
        invariant forall j | 0 <= j < i :: RecordKey(buf[j]) != Key(name, value)
        invariant unchanged(this) && unchanged(buf)
      {
        if buf[i].name == name && buf[i].value == value {
          assert IndexOf(Records(), Key(name, value)) == i;
          buf[i] := buf[i].(ttl := ttl);
          return;
        }
      }
      Append(Record(name, value, ttl, now, uid, dnsName));
    }

    /** CleanUp: the same in-place compaction, by key. */
    method CleanUp(name: string, value: string)
      requires Valid()
      modifies this`len, buf
      ensures Valid() && buf == old(buf) && len <= old(len)
      ensures Records() == Without(old(Records()), Key(name, value))
    {
      ghost var all := buf[..len];
      var kept := 0;
      for i := 0 to len
        invariant kept <= i && len == old(len)
        invariant buf[..kept] == Without(all[..i], Key(name, value))
        invariant forall j | i <= j < buf.Length :: buf[j] == old(buf[j])
      {
        var rec := buf[i];
        Take(all, i);
        assert rec == all[i];
        if !(rec.name == name && rec.value == value) {
          buf[kept] := rec;
          kept := kept + 1;
        }
      }
      assert all[..len] == all;
      len := kept;
    }

    /** The wanted records as DNS records. */
    method Desired() returns (out: seq<DNSRecord>)
      requires Valid()
      ensures out == DesiredRecords(Records())
      ensures |out| == len && forall i | 0 <= i < len ::
        out[i].typ == "TXT" && out[i].name == buf[i].name && out[i].value == buf[i].value && out[i].ttl == buf[i].ttl
    {
      out := [];
      for i := 0 to len
        invariant out == DesiredRecords(Records()[..i])
      {
        Take(Records(), i);
        out := out + [ToDNS(buf[i])];
      }
      assert Records()[..len] == Records();
    }
  }
}
