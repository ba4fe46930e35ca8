/** Canonical record names and Kubernetes object names. */
module Names {
  import opened Records

  // ----- AbsoluteName -----

  predicate EndsWith(s: string, suffix: string) {
    |suffix| <= |s| && s[|s| - |suffix|..] == suffix
  }

  /** Drops one trailing dot, if there is one. */
  function TrimDot(s: string): string {
    if s != "" && s[|s| - 1] == '.' then s[..|s| - 1] else s
  }

  function AbsoluteName(name: string, zone: string): string {
    var n, z := TrimDot(name), TrimDot(zone);
    if n == "" || n == "@" then z + "."
    else if n == z || EndsWith(n, "." + z) then n + "."
    else n + "." + z + "."
  }

  /**
    What an absolute name looks like, for a name and zone without trailing dots: it lies
    in the zone and ends with a dot; a name in the zone already only gets the dot, any
    other gets the zone, and an empty one or `@` is the zone itself.
   */
  lemma AbsoluteInPlainTerms(name: string, zone: string)
    requires (name == "" || name[|name| - 1] != '.') && (zone == "" || zone[|zone| - 1] != '.')
    ensures var a := AbsoluteName(name, zone);
      && (a == zone + "." || (|a| > |zone| + 1 && a[|a| - |zone| - 2..] == "." + zone + "."))
      && (name == "" || name == "@" ==> a == zone + ".")
      && (name != "" && name != "@" ==>
            && |a| > |name| && a[..|name|] == name && a[|name|] == '.'
            && |a| == if name == zone || (|name| > |zone| && name[|name| - |zone| - 1..] == "." + zone)
                      then |name| + 1 else |name| + |zone| + 2)
  {
    var a := AbsoluteName(name, zone);
    if name == "" || name == "@" {
    } else if name == zone || EndsWith(name, "." + zone) {
      if name != zone {
        assert name == name[..|name| - |zone| - 1] + ("." + zone);
        assert a == name[..|name| - |zone| - 1] + ("." + zone + ".");
      }
    } else {
      assert a == name + ("." + zone + ".");
    }
  }

  /** An absolute name is its own absolute form. */
  lemma AbsoluteIdempotent(name: string, zone: string)
    ensures AbsoluteName(AbsoluteName(name, zone), zone) == AbsoluteName(name, zone)
  {
    var n, z := TrimDot(name), TrimDot(zone);
    var a := AbsoluteName(name, zone);
    if n == "" || n == "@" {
      assert TrimDot(a) == z;
    } else if n == z || EndsWith(n, "." + z) {
      assert TrimDot(a) == n;
    } else {
      assert TrimDot(a) == n + "." + z;
      assert EndsWith(n + "." + z, "." + z) by {
        assert n + "." + z == n + ("." + z);
      }
      assert (n + "." + z)[|n|] == '.';
    }
  }

  /** One trailing dot on either argument makes no difference. */
  lemma AbsoluteIgnoresDot(name: string, zone: string)
    ensures !EndsWith(name, ".") ==> AbsoluteName(name + ".", zone) == AbsoluteName(name, zone)
    ensures !EndsWith(zone, ".") ==> AbsoluteName(name, zone + ".") == AbsoluteName(name, zone)
  {
    DotTrims(name);
    DotTrims(zone);
  }

  lemma DotTrims(s: string)
    ensures TrimDot(s + ".") == s
    ensures !EndsWith(s, ".") ==> TrimDot(s) == s
  {
    if s != "" && s[|s| - 1] == '.' {
      assert s[|s| - 1..] == ".";
    }
  }

  const CHALLENGE_LABEL := "_acme-challenge"

  /** Names that are, or start with, the challenge label. */
  predicate UnderLabel(n: string) {
    n == CHALLENGE_LABEL || CHALLENGE_PREFIX <= n
  }

  /**
    Exactly the names under the challenge label become challenge names; the zone
    apex does so only when the zone itself lies under that label.
   */
  lemma AbsoluteIsChallenge(name: string, zone: string)
    ensures var n, z := TrimDot(name), TrimDot(zone);
      CHALLENGE_PREFIX <= AbsoluteName(name, zone) <==>
        if n == "" || n == "@" then UnderLabel(z) else UnderLabel(n)
  {
    var n, z := TrimDot(name), TrimDot(zone);
    PrefixOfDotted(z, "");
    PrefixOfDotted(n, "");
    PrefixOfDotted(n, z + ".");
    assert z + "." + "" == z + ".";
    assert n + "." + "" == n + ".";
    assert n + "." + z + "." == n + "." + (z + ".");
  }

  /** The label holds no dot, so whether `n.rest` is a challenge name depends on `n` alone. */
  lemma PrefixOfDotted(n: string, rest: string)
    ensures CHALLENGE_PREFIX <= n + "." + rest <==> UnderLabel(n)
  {
    var p, s := CHALLENGE_PREFIX, n + "." + rest;
    assert p == CHALLENGE_LABEL + ".";
    assert forall i | 0 <= i < |CHALLENGE_LABEL| :: p[i] != '.';
    assert s[|n|] == '.';
    if UnderLabel(n) {
      if n == CHALLENGE_LABEL {
        assert s == p + rest;
      } else {
        assert s == p + (n[|p|..] + "." + rest);
      }
    }
    if p <= s {
      assert forall i | 0 <= i < |p| :: s[i] == p[i];
      if |n| >= |p| {
        assert n[..|p|] == p;
      } else {
        assert |n| == |CHALLENGE_LABEL|;
        assert n == s[..|n|] == p[..|n|] == CHALLENGE_LABEL;
      }
    }
  }

  const PLACEHOLDER_LABEL := "_placeholder"
  const PLACEHOLDER_TTL := 86400

  /** A TXT record for a zone that has no other; `date` is its day of writing. */
  function Placeholder(zone: string, date: string): DNSRecord {
    DNSRecord("TXT", AbsoluteName(PLACEHOLDER_LABEL, zone), date, PLACEHOLDER_TTL)
  }

  lemma PlaceholderInPlainTerms(zone: string, date: string)
    requires zone != "" && zone[|zone| - 1] != '.' && zone != "_placeholder"
    ensures Placeholder(zone, date) == DNSRecord("TXT", "_placeholder." + zone + ".", date, 86400)
  {
    var p, suffix := "_placeholder", "." + zone;
    if |suffix| <= |p| {
      assert p[|p| - |suffix|..][0] == p[|p| - |suffix|] != '.' && suffix[0] == '.';
    }
  }

  lemma PlaceholderIsOwn(zone: string, date: string)
    ensures !IsChallengeRecord(Placeholder(zone, date))
  {
    AbsoluteIsChallenge(PLACEHOLDER_LABEL, zone);
    assert PLACEHOLDER_LABEL[1] == 'p' && CHALLENGE_PREFIX[1] == 'a' && CHALLENGE_LABEL[1] == 'a';
    assert TrimDot(PLACEHOLDER_LABEL) == PLACEHOLDER_LABEL;
  }

  // ----- ObjectName -----

  const OBJECT_PREFIX := "mijn-host-zone-"

  /**
    Lower-casing, as far as it can yield an ASCII letter: besides A-Z only the
    Kelvin sign and the dotted capital I do.
   */
  function Lower(c: char): char {
    if 'A' <= c <= 'Z' then (c as int + 32) as char
    else if c == '\U{212A}' then 'k'
    else if c == '\U{0130}' then 'i'
    else c
  }

  predicate Alphanumeric(c: char) {
    'a' <= c <= 'z' || '0' <= c <= '9'
  }

  /** The character an object name holds for a zone character. */
  function Clean(c: char): char {
    if Alphanumeric(Lower(c)) then Lower(c) else '-'
  }

  function CleanAll(s: string): (r: string)
    ensures |r| == |s| && forall i | 0 <= i < |s| :: r[i] == Clean(s[i])
  {
    if s == "" then "" else CleanAll(s[..|s| - 1]) + [Clean(s[|s| - 1])]
  }

  function TrimLeft(s: string): string {
    if s != "" && s[0] == '-' then TrimLeft(s[1..]) else s
  }

  function TrimRight(s: string): string {
    if s != "" && s[|s| - 1] == '-' then TrimRight(s[..|s| - 1]) else s
  }

  function ObjectNameOf(zone: string): string {
    OBJECT_PREFIX + TrimRight(TrimLeft(CleanAll(TrimDot(zone))))
  }

  /** Derives the name shared by a zone's Lease and ConfigMap. */
  method ObjectName(zone: string) returns (name: string)
    ensures name == ObjectNameOf(zone)
  {
    var z := TrimDot(zone);
    var b := "";
    for i := 0 to |z|
      invariant b == CleanAll(z[..i])
    {
      assert z[..i + 1][..i] == z[..i];
      var c := Lower(z[i]);
      if Alphanumeric(c) {
        b := b + [c];
      } else {
        b := b + ['-'];
      }
    }
    assert z[..|z|] == z;
    name := OBJECT_PREFIX + TrimRight(TrimLeft(b));
  }

  /** A zone whose first and last characters survive the cleaning. */
  predicate Framed(zone: string) {
    var z := TrimDot(zone);
    z != "" && Clean(z[0]) != '-' && Clean(z[|z| - 1]) != '-'
  }

  lemma FramedName(zone: string)
    requires Framed(zone)
    ensures ObjectNameOf(zone) == OBJECT_PREFIX + CleanAll(TrimDot(zone))
  {
  }

  /**
    The object name of a zone that starts and ends with an ASCII letter or digit: letters
    lower-cased, digits as they are, everything else a dash.  Besides A-Z the Kelvin sign
    and the dotted capital I lower-case to an ASCII letter.
   */
  lemma ObjectNameInPlainTerms(zone: string)
    requires zone != ""
    requires forall i | i == 0 || i == |zone| - 1 ::
      'a' <= zone[i] <= 'z' || 'A' <= zone[i] <= 'Z' || '0' <= zone[i] <= '9'
    ensures var n := ObjectNameOf(zone);
      && |n| == 15 + |zone| && n[..15] == "mijn-host-zone-"
      && forall i | 0 <= i < |zone| :: n[15 + i] ==
           if 'a' <= zone[i] <= 'z' || '0' <= zone[i] <= '9' then zone[i]
           else if 'A' <= zone[i] <= 'Z' then (zone[i] as int + 32) as char
           else if zone[i] == '\U{212A}' then 'k' else if zone[i] == '\U{0130}' then 'i' else '-'
  {
    FramedName(zone);
    assert TrimDot(zone) == zone;
  }

  /** For any zone the dashes at both ends go, and only those. */
  lemma ObjectNameTrims(zone: string) returns (i: nat, j: nat)
    ensures var n, c := ObjectNameOf(zone), CleanAll(TrimDot(zone));
      && i <= j <= |c| && n == "mijn-host-zone-" + c[i..j]
      && (forall h | 0 <= h < i || j <= h < |c| :: c[h] == '-')
      && (i < j ==> c[i] != '-' && c[j - 1] != '-')
  {
    var c := CleanAll(TrimDot(zone));
    i := TrimLeftShape(c);
    var k := TrimRightShape(TrimLeft(c));
    j := i + k;
    assert c[i..j] == c[i..][..k];
    forall h | j <= h < |c| ensures c[h] == '-' {
      assert c[i..][h - i] == c[h];
    }
  }

  lemma {:induction false} TrimLeftShape(s: string) returns (i: nat)
    ensures i <= |s| && TrimLeft(s) == s[i..] && (forall h | 0 <= h < i :: s[h] == '-') && (i < |s| ==> s[i] != '-')
  {
    i := 0;
    if s != "" && s[0] == '-' {
      var k := TrimLeftShape(s[1..]);
      i := k + 1;
      assert s[1..][k..] == s[i..];
      forall h | 0 <= h < i ensures s[h] == '-' {
        assert h > 0 ==> s[1..][h - 1] == s[h];
      }
    }
  }

  lemma {:induction false} TrimRightShape(s: string) returns (k: nat)
    ensures k <= |s| && TrimRight(s) == s[..k]
    ensures (forall h | k <= h < |s| :: s[h] == '-') && (k > 0 ==> s[k - 1] != '-')
  {
    k := |s|;
    if s != "" && s[|s| - 1] == '-' {
      k := TrimRightShape(s[..|s| - 1]);
      assert s[..|s| - 1][..k] == s[..k];
    }
  }

  /** The characters two zones must agree on to share a Lease and a ConfigMap. */
  ghost predicate SameLetters(z0: string, z1: string) {
    |z0| == |z1| && forall i | 0 <= i < |z0| :: Clean(z0[i]) == Clean(z1[i])
  }

  /** When two zones share their Kubernetes objects. */
  lemma SharedObject(z0: string, z1: string)
    requires Framed(z0) && Framed(z1)
    ensures ObjectNameOf(z0) == ObjectNameOf(z1) <==> SameLetters(TrimDot(z0), TrimDot(z1))
  {
    var c0, c1 := CleanAll(TrimDot(z0)), CleanAll(TrimDot(z1));
    var n0, n1 := ObjectNameOf(z0), ObjectNameOf(z1);
    FramedName(z0);
    FramedName(z1);
    assert n0[|OBJECT_PREFIX|..] == c0 && n1[|OBJECT_PREFIX|..] == c1;
    if SameLetters(TrimDot(z0), TrimDot(z1)) {
      assert forall i | 0 <= i < |c0| :: c0[i] == c1[i];
      assert c0 == c1;
    }
    if c0 == c1 {
      forall i | 0 <= i < |c0| ensures Clean(TrimDot(z0)[i]) == Clean(TrimDot(z1)[i]) {
        assert c0[i] == c1[i];
      }
    }
  }

  /** ASCII letters, digits and dots: an ordinary hyphen-free domain. */
  predicate PlainDomain(z: string) {
    forall i | 0 <= i < |z| ::
      z[i] == '.' || 'a' <= z[i] <= 'z' || 'A' <= z[i] <= 'Z' || '0' <= z[i] <= '9'
  }

  ghost predicate SameUpToCase(z0: string, z1: string) {
    |z0| == |z1| && forall i | 0 <= i < |z0| :: Lower(z0[i]) == Lower(z1[i])
  }

  /** On hyphen-free domains the object name tells zones apart up to case and one trailing dot. */
  lemma ObjectNameInjective(z0: string, z1: string)
    requires Framed(z0) && Framed(z1) && PlainDomain(TrimDot(z0)) && PlainDomain(TrimDot(z1))
    ensures ObjectNameOf(z0) == ObjectNameOf(z1) <==> SameUpToCase(TrimDot(z0), TrimDot(z1))
  {
    SharedObject(z0, z1);
    var a, b := TrimDot(z0), TrimDot(z1);
    if SameLetters(a, b) {
      forall i | 0 <= i < |a| ensures Lower(a[i]) == Lower(b[i]) {
        assert Clean(a[i]) == Clean(b[i]);
      }
    }
    if SameUpToCase(a, b) {
      forall i | 0 <= i < |a| ensures Clean(a[i]) == Clean(b[i]) {
        assert Lower(a[i]) == Lower(b[i]);
      }
    }
  }

  /** A hyphen and a dot collide: these two zones share one Lease and one ConfigMap. */
  lemma ObjectNameCollision()
    ensures ObjectNameOf("a.b") == ObjectNameOf("a-b") && "a.b" != "a-b"
  {
    SharedObject("a.b", "a-b");
    var x, y := "a.b", "a-b";
    assert x[1] == '.' && y[1] == '-';
  }
}
