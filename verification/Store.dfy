/** The ConfigMap store: optimistic concurrency on the wanted records. */
module Store {
  import opened Base
  import opened Records
  import opened Desired
  import opened Protocol
  import opened World
  import StateCode

  /** A state in memory, and the version of the ConfigMap it came from. */
  class Handle {
    const state: StateCode.State
    var resourceVersion: nat
    var found: bool

    constructor (st: ZoneState, resourceVersion: nat, found: bool)
      requires found <==> resourceVersion > 0
      ensures this.resourceVersion == resourceVersion && Valid()
      ensures fresh(state) && fresh(state.buf) && state.Value() == st
    {
      this.state := new StateCode.State(st);
      this.resourceVersion := resourceVersion;
      this.found := found;
    }

    ghost predicate Valid()
      reads this, state
    {
      state.Valid() && (found <==> resourceVersion > 0)
    }

    /** True for a version other than 0. */
    predicate Exists()
      reads this
    {
      found
    }
  }

  class ConfigMapStore {
    constructor () {
    }

    /** A handle on what is stored, version 0 and no records if nothing is; null for an error. */
    method Load(w: Cluster, me: Id) returns (h: Handle?, ghost cm: Option<ConfigMap>)
      requires w.Valid() && me in w.state.actors && w.state.actors[me].pc.Loading?
      modifies w
      ensures w.Advanced(me)
      ensures w.state.actors[me] ==
        AfterLoad(old(w.state.actors[me]).(clock := w.state.actors[me].clock), cm, h != null)
      ensures h != null ==>
        fresh(h) && fresh(h.state) && fresh(h.state.buf) && h.Valid()
        && h.state.Value() == StoredState(cm) && h.resourceVersion == StoredVersion(cm)
    {
      var got := w.GetConfigMap(me);
      cm := AsOption(got);
      match got {
        case Failure => h := null;
        case NotFound => h := new Handle(EMPTY_STATE, 0, false);
        case Found(c) => h := new Handle(c.st, c.version, true);
      }
    }

    /** On success the ConfigMap is what the handle holds, at the version it now carries. */
    method Save(w: Cluster, me: Id, h: Handle) returns (ok: bool)
      requires w.Valid() && me in w.state.actors && w.state.actors[me].pc.Saving?
      requires h.Valid() && h.state.Value() == w.state.actors[me].st && h.resourceVersion == w.state.actors[me].version
      modifies w, h`resourceVersion, h`found
      ensures w.Advanced(me) && h.Valid()
      ensures w.state.actors[me] ==
        AfterSave(old(w.state.actors[me]).(clock := w.state.actors[me].clock), if ok then Ok else Error)
      ensures ok ==> w.state.cm == Some(ConfigMap(h.resourceVersion, h.state.Value()))
      ensures h.resourceVersion == if ok then old(h.resourceVersion) + 1 else old(h.resourceVersion)
    {
      var st := h.state.Snapshot();
      var answer: WriteResult;
      ghost var before: State;
      if h.Exists() {
        answer, before := w.UpdateConfigMap(me, h.resourceVersion, st);
      } else {
        answer, before := w.CreateConfigMap(me, st);
      }
      if !answer.Ok? {
        return false;
      }
      h.resourceVersion := h.resourceVersion + 1;
      h.found := true;
      return true;
    }
  }

  /** The annotations that name a zone. */
  function Named(annotations: seq<string>): seq<string> {
    if annotations == [] then []
    else Named(Front(annotations)) + if Last(annotations) != "" then [Last(annotations)] else []
  }

  /** Every annotation is kept as often as it occurs, but the empty one; the order is that of the list. */
  lemma {:induction false} NamedMeaning(annotations: seq<string>, z: string)
    ensures multiset(Named(annotations))[z] == if z == "" then 0 else multiset(annotations)[z]
    ensures forall i | 0 <= i <= |annotations| :: Named(annotations[..i]) <= Named(annotations)
  {
    if annotations != [] {
      var f := Front(annotations);
      FrontLast(annotations);
      NamedMeaning(f, z);
      forall i | 0 <= i <= |annotations| ensures Named(annotations[..i]) <= Named(annotations) {
        assert annotations[..i] == if i < |annotations| then f[..i] else annotations;
      }
    }
  }

  /** The zones with state, given the answer to the List call, None for an error. */
  method ListZones(listed: Option<seq<string>>) returns (zones: Option<seq<string>>)
    ensures zones == if listed.Some? then Some(Named(listed.value)) else None
  {
    if listed.None? {
      return None;
    }
    var annotations := listed.value;
    var found := [];
    for i := 0 to |annotations|
      invariant found == Named(annotations[..i])
    {
      Take(annotations, i);
      var z := annotations[i];
      if z != "" {
        found := found + [z];
      }
    }
    assert annotations[..|annotations|] == annotations;
    return Some(found);
  }
}
