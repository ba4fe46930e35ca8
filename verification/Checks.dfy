/**
  The calls around an upload.  Whatever answers a request got before, its upload follows
  a serial read, one or two reads of the zone, and, if the first serial came, a second
  serial read that did not show a move.
 */
module Checks {
  import opened Base
  import opened Records
  import opened Desired
  import opened Protocol
  import opened LeaseProofs
  import opened TraceProofs

  /** A call that asks about the zone, with its answer. */
  datatype Question = Serial(answer: Option<int>) | Zone

  /** The questions a request has asked, in order. */
  function Questions(ls: seq<Label>, a: Id): seq<Question> {
    if ls == [] then []
    else
      Questions(Front(ls), a) +
      match Last(ls)
      case ReadSerial(b, answer) => if b == a then [Serial(answer)] else []
      case Get(b, which) => if b == a && which.Some? then [Zone] else []
      case _ => []
  }

  /** The `n`-th question from the end is `q`. */
  predicate Back(qs: seq<Question>, n: nat, q: Question) {
    1 <= n <= |qs| && qs[|qs| - n] == q
  }

  /** A serial, then the zone once or twice. */
  predicate ReadAfter(qs: seq<Question>, before: Option<int>) {
    Back(qs, 1, Zone) && (Back(qs, 2, Serial(before)) || (Back(qs, 2, Zone) && Back(qs, 3, Serial(before))))
  }

  /** What a request remembers is what it was told last. */
  predicate Remembers(x: Actor, qs: seq<Question>) {
    match x.pc
    case Fetching => Back(qs, 1, Serial(x.before))
    case Refetching => Back(qs, 1, Zone) && Back(qs, 2, Serial(x.before))
    case SerialAfter => x.before.Some? && ReadAfter(qs, x.before)
    case Putting =>
      if x.before.None? then ReadAfter(qs, None)
      else Back(qs, 1, Serial(x.after)) && ReadAfter(qs[..|qs| - 1], x.before)
    case _ => true
  }

  /** Where a serial read leads. */
  lemma SerialMoves(x: Actor, answer: Option<int>, current: nat)
    requires x.pc.SerialBefore? || x.pc.SerialAfter?
    ensures x.pc.SerialBefore? ==>
      var y := AfterSerialBefore(x, answer, current);
      y.pc.Releasing? || (y.pc.Fetching? && y.before == answer)
    ensures x.pc.SerialAfter? ==>
      var y := AfterSerialAfter(x, answer, current);
      y.pc.Releasing? || y.pc.SerialBefore? || (y.pc.Putting? && y.before == x.before && y.after == answer)
  {
  }

  lemma RemembersSerial(x: Actor, qs: seq<Question>, answer: Option<int>, current: nat)
    requires Remembers(x, qs) && (x.pc.SerialBefore? || x.pc.SerialAfter?)
    ensures x.pc.SerialBefore? ==> Remembers(AfterSerialBefore(x, answer, current), qs + [Serial(answer)])
    ensures x.pc.SerialAfter? ==> Remembers(AfterSerialAfter(x, answer, current), qs + [Serial(answer)])
  {
    SerialMoves(x, answer, current);
    assert (qs + [Serial(answer)])[..|qs|] == qs;
  }

  lemma RemembersGet(x: Actor, qs: seq<Question>, view: seq<DNSRecord>, version: nat)
    requires Remembers(x, qs) && (x.pc.Fetching? || x.pc.Refetching?)
    ensures Remembers(AfterGet(x, Some(view), version), qs + [Zone])
  {
    DecideKeeps(x, view, version);
    RemembersRead(x, AfterGet(x, Some(view), version), qs);
  }

  lemma RemembersRead(x: Actor, y: Actor, qs: seq<Question>)
    requires Remembers(x, qs) && (x.pc.Fetching? || x.pc.Refetching?) && y.before == x.before
    requires y.pc.Releasing? || y.pc.SerialAfter? || y.pc.Putting? || (y.pc.Refetching? && x.pc.Fetching?)
    requires (y.pc.SerialAfter? ==> x.before.Some?) && (y.pc.Putting? ==> x.before.None?)
    ensures Remembers(y, qs + [Zone])
  {
    var more := qs + [Zone];
    assert Back(more, 1, Zone) && forall n: nat, q | Back(qs, n, q) :: Back(more, n + 1, q);
  }

  lemma DecideKeeps(x: Actor, view: seq<DNSRecord>, version: nat)
    requires x.pc.Fetching? || x.pc.Refetching?
    ensures var y := AfterGet(x, Some(view), version);
      && y.before == x.before
      && (y.pc.Releasing? || y.pc.SerialAfter? || y.pc.Putting? || (y.pc.Refetching? && x.pc.Fetching?))
      && (y.pc.SerialAfter? ==> x.before.Some?) && (y.pc.Putting? ==> x.before.None?)
  {
  }

  /** The other steps lead to no place where something is remembered. */
  lemma OtherStepsForget(s: State, l: Label)
    requires Enabled(s, l) && !l.Edit? && !l.Spawn? && !l.Get? && !l.ReadSerial?
    ensures var x, y := s.actors[l.a], Mover(s, l);
      && y.before == x.before && y.after == x.after
      && (y.pc == x.pc || (!y.pc.Fetching? && !y.pc.Refetching? && !y.pc.SerialAfter? && !y.pc.Putting?))
  {
  }

  lemma FailedGetForgets(x: Actor, version: nat)
    ensures AfterGet(x, None, version).pc.Releasing?
  {
  }

  lemma MyQuestion(s: State, l: Label, qs: seq<Question>)
    requires Enabled(s, l) && !l.Edit? && !l.Spawn? && Remembers(s.actors[l.a], qs)
    ensures Remembers(Mover(s, l), qs +
      match l
      case ReadSerial(_, answer) => [Serial(answer)]
      case Get(_, which) => if which.Some? then [Zone] else []
      case _ => [])
  {
    assert qs + [] == qs;
    if l.Get? {
      if l.which.Some? {
        RemembersGet(s.actors[l.a], qs, s.zones[l.which.value].records, l.which.value);
      } else {
        FailedGetForgets(s.actors[l.a], 0);
      }
    } else if l.ReadSerial? {
      RemembersSerial(s.actors[l.a], qs, l.answer, Current(s));
    } else {
      OtherStepsForget(s, l);
    }
  }

  lemma {:induction false} RemembersRun(s0: State, ls: seq<Label>, s: State, a: Id)
    requires Run(s0, ls, s) && a in s.actors
    ensures Remembers(s.actors[a], Questions(ls, a))
    decreases |ls|
  {
    RunStep(s0, ls, s);
    var p, l := Exec(s0, Front(ls)).value, Last(ls);
    if l.Edit? || l.a != a {
      RemembersRun(s0, Front(ls), p, a);
      assert Questions(Front(ls), a) + [] == Questions(Front(ls), a);
    } else if !l.Spawn? {
      RemembersRun(s0, Front(ls), p, a);
      MyQuestion(p, l, Questions(Front(ls), a));
    }
  }

  /**
    Every upload, at the moment it is sent: either the serial was asked for and did not
    come, and is not required, or it came, and was asked for again after the read of the
    zone, with the same answer, or with none if none is required.
   */
  lemma UploadIsChecked(s0: State, ls: seq<Label>, s: State, i: nat)
    returns (required: bool, before: Option<int>, again: Option<int>)
    requires Run(s0, ls, s) && i < |ls| && ls[i].Upload?
    ensures Exec(s0, ls[..i]).Some? && ls[i].a in Exec(s0, ls[..i]).value.actors
    ensures required == Exec(s0, ls[..i]).value.actors[ls[i].a].cfg.serialRequired
    ensures before.None? ==>
      var qs := Questions(ls[..i], ls[i].a);
      && !required && Back(qs, 1, Zone)
      && (Back(qs, 2, Serial(None)) || (Back(qs, 2, Zone) && Back(qs, 3, Serial(None))))
    ensures before.Some? ==>
      var qs := Questions(ls[..i], ls[i].a);
      && (again == before || (again.None? && !required))
      && Back(qs, 1, Serial(again)) && Back(qs, 2, Zone)
      && (Back(qs, 3, Serial(before)) || (Back(qs, 3, Zone) && Back(qs, 4, Serial(before))))
  {
    PrefixExec(s0, ls, s, i);
    var p := Exec(s0, ls[..i]).value;
    var x := p.actors[ls[i].a];
    RemembersRun(s0, ls[..i], p, ls[i].a);
    LogRun(s0, ls[..i], p);
    ReadyToPut(x);
    LastQuestions(x, Questions(ls[..i], ls[i].a));
    required, before, again := x.cfg.serialRequired, x.before, x.after;
  }

  lemma LastQuestions(x: Actor, qs: seq<Question>)
    requires x.pc.Putting? && Remembers(x, qs) && Gate(x)
    ensures x.before.None? ==> !x.cfg.serialRequired && ReadAfter(qs, None)
    ensures x.before.Some? ==>
      && (x.after == x.before || (x.after.None? && !x.cfg.serialRequired))
      && Back(qs, 1, Serial(x.after)) && Back(qs, 2, Zone)
      && (Back(qs, 3, Serial(x.before)) || (Back(qs, 3, Zone) && Back(qs, 4, Serial(x.before))))
  {
    if x.before.Some? {
      var f := qs[..|qs| - 1];
      assert forall n: nat, q | Back(f, n, q) :: Back(qs, n + 1, q);
    }
  }

  // ----- the view an upload is made from -----

  /** The version served by the last read of the zone. */
  function LastGet(ls: seq<Label>, a: Id): Option<nat> {
    if ls == [] then None
    else if Last(ls).Get? && Last(ls).a == a then Last(ls).which
    else LastGet(Front(ls), a)
  }

  predicate HasRead(pc: PC) {
    pc.Refetching? || pc.SerialAfter? || pc.Putting?
  }

  /** A request that has read the zone works on the version it was served last. */
  predicate ReadLast(s: State, x: Actor, which: Option<nat>) {
    HasRead(x.pc) ==>
      which.Some? && which.value < |s.zones| && x.views != [] && Last(x.views) == s.zones[which.value].records
  }

  lemma GetIsLast(s: State, l: Label)
    requires Enabled(s, l) && l.Get?
    ensures ReadLast(Effect(s, l), Mover(s, l), l.which)
  {
    if l.which.Some? {
      Snoc(s.actors[l.a].views, s.zones[l.which.value].records);
    } else {
      FailedGetForgets(s.actors[l.a], 0);
    }
  }

  /** Nothing else leads to a view, or changes it. */
  lemma ViewStays(s: State, l: Label)
    requires Enabled(s, l) && !l.Edit? && !l.Spawn? && !l.Get? && HasRead(Mover(s, l).pc)
    ensures HasRead(s.actors[l.a].pc) && Mover(s, l).views == s.actors[l.a].views
  {
    if !l.ReadSerial? {
      OtherStepsForget(s, l);
    }
  }

  lemma {:induction false} ReadLastRun(s0: State, ls: seq<Label>, s: State, a: Id)
    requires Run(s0, ls, s) && a in s.actors
    ensures ReadLast(s, s.actors[a], LastGet(ls, a))
    decreases |ls|
  {
    RunStep(s0, ls, s);
    var p, l := Exec(s0, Front(ls)).value, Last(ls);
    assert p.zones <= s.zones;
    if l.Edit? || l.a != a {
      ReadLastRun(s0, Front(ls), p, a);
    } else if l.Get? {
      GetIsLast(p, l);
    } else if !l.Spawn? {
      ReadLastRun(s0, Front(ls), p, a);
      if HasRead(s.actors[a].pc) {
        ViewStays(p, l);
      }
    }
  }

  /** Every upload is planned from the version of the zone that the last GET of its request was served. */
  lemma UploadFromLastGet(s0: State, ls: seq<Label>, s: State, i: nat) returns (p: State, which: nat)
    requires Run(s0, ls, s) && i < |ls| && ls[i].Upload?
    ensures Exec(s0, ls[..i]) == Some(p) && ls[i].a in p.actors
    ensures LastGet(ls[..i], ls[i].a) == Some(which) && which < |p.zones|
    ensures var x := p.actors[ls[i].a];
      x.payload == NeverEmpty(x.cfg, PlanFor(x, p.zones[which].records).payload)
  {
    PrefixExec(s0, ls, s, i);
    p := Exec(s0, ls[..i]).value;
    ReadLastRun(s0, ls[..i], p, ls[i].a);
    LogRun(s0, ls[..i], p);
    ReadyToPut(p.actors[ls[i].a]);
    which := LastGet(ls[..i], ls[i].a).value;
  }
}
