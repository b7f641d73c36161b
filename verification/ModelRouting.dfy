/** `route_model`: the first acceptable model of preference, fallback and alphabetical order. */
module ModelRouting {
  import opened Prelude
  import opened Text
  import opened Sorting

  datatype Entry = Entry(provider: string, enabled: bool, capabilities: set<string>)

  /** The registry: a model is only registered under a registered provider. */
  datatype Registry = Registry(models: map<string, Entry>, providers: map<string, bool>) {
    predicate Consistent() { forall m :: m in models ==> models[m].provider in providers }
  }

  datatype RoutingPolicy = RoutingPolicy(
    allowedModels: set<string>, deniedModels: set<string>, allowedProviders: set<string>, deniedProviders: set<string>,
    fallback: seq<string>)
  {
    predicate Permits(id: string, model: Entry) {
      && id !in deniedModels && model.provider !in deniedProviders
      && (allowedModels == {} || id in allowedModels) && (allowedProviders == {} || model.provider in allowedProviders)
    }
  }

  function Eligible(r: Registry, capability: string): set<string>
    requires r.Consistent()
  {
    set id | id in r.models && r.models[id].enabled && capability in r.models[id].capabilities && r.providers[r.models[id].provider]
  }

  predicate Usable(r: Registry, p: RoutingPolicy, capability: string, id: string)
    requires r.Consistent()
  {
    id in Eligible(r, capability) && p.Permits(id, r.models[id])
  }

  /** The models named ahead of the alphabetical rest. */
  function Named(p: RoutingPolicy, preferred: Option<string>): seq<string> {
    (if preferred.Some? && preferred.value != "" then [preferred.value] else []) + p.fallback
  }

  /** The k-th place of the full order beats another candidate. */
  predicate Before(named: seq<string>, a: string, b: string) {
    || (exists i :: 0 <= i < |named| && named[i] == a && b !in named[..i])
    || (a !in named && b !in named && Below(a, b))
  }

  predicate Wanted(r: Registry, p: RoutingPolicy, capability: string, preferred: Option<string>)
    requires r.Consistent()
  {
    preferred.Some? && preferred.value != "" && Usable(r, p, capability, preferred.value)
  }

  /** The first entry of the fallback order that is usable. */
  predicate FirstUsable(r: Registry, p: RoutingPolicy, capability: string, k: int)
    requires r.Consistent()
  {
    && 0 <= k < |p.fallback| && Usable(r, p, capability, p.fallback[k])
    && forall j :: 0 <= j < k ==> !Usable(r, p, capability, p.fallback[j])
  }

  /** A usable preference wins, then the first usable fallback, then the usable model whose name comes first. */
  ghost predicate Prefers(r: Registry, p: RoutingPolicy, capability: string, preferred: Option<string>, routed: Option<string>)
    requires r.Consistent()
  {
    && (Wanted(r, p, capability, preferred) ==> routed == preferred)
    && (!Wanted(r, p, capability, preferred) ==>
          && (forall k :: FirstUsable(r, p, capability, k) ==> routed == Some(p.fallback[k]))
          && (routed.Some? && (forall k :: 0 <= k < |p.fallback| ==> !Usable(r, p, capability, p.fallback[k])) ==>
                forall id :: id in r.models && id != routed.value && Usable(r, p, capability, id) ==> Below(routed.value, id)))
  }

  /** A usable model is enabled, under an enabled provider, has the capability, and is neither denied nor left off a list of the allowed. */
  lemma UsableExactly(r: Registry, p: RoutingPolicy, capability: string, id: string)
    requires r.Consistent()
    ensures Usable(r, p, capability, id) <==>
            && id in r.models && r.models[id].enabled && capability in r.models[id].capabilities
            && r.providers[r.models[id].provider]
            && id !in p.deniedModels && r.models[id].provider !in p.deniedProviders
            && (|p.allowedModels| == 0 || id in p.allowedModels)
            && (|p.allowedProviders| == 0 || r.models[id].provider in p.allowedProviders)
  {
    hide Below;
    assert |p.allowedModels| == 0 <==> p.allowedModels == {};
    assert |p.allowedProviders| == 0 <==> p.allowedProviders == {};
  }

  /** A usable model is found exactly if there is one, and no usable model comes before it. */
  method Route(r: Registry, p: RoutingPolicy, capability: string, preferred: Option<string>) returns (routed: Option<string>)
    requires r.Consistent()
    ensures routed.None? <==> forall id :: id in r.models ==> !Usable(r, p, capability, id)
    ensures routed.Some? ==> Usable(r, p, capability, routed.value)
    ensures routed.Some? ==> forall id :: id in r.models && id != routed.value && Usable(r, p, capability, id) ==>
              Before(Named(p, preferred), routed.value, id)
    ensures Prefers(r, p, capability, preferred, routed)
  {
    var candidates := Eligible(r, capability);
    var named := Named(p, preferred);
    var rest := SortedKeys(candidates - set id | id in named);
    var order := named + rest;
    var i := 0;
    while i < |order|
      invariant 0 <= i <= |order|
      invariant forall k :: 0 <= k < i ==> !Usable(r, p, capability, order[k])
    {
      if order[i] in candidates && p.Permits(order[i], r.models[order[i]]) {
        FirstIsBest(r, p, capability, named, rest, i);
        BestIsPreferred(r, p, capability, preferred, order[i]);
        return Some(order[i]);
      }
      i := i + 1;
    }
    forall id | id in candidates ensures !Usable(r, p, capability, id) {
      var k := Place(named, rest, candidates, id);
      assert order[k] == id;
    }
    return None;
  }

  lemma Place(named: seq<string>, rest: seq<string>, candidates: set<string>, id: string) returns (k: nat)
    requires id in candidates && forall x :: x in rest <==> x in candidates && x !in named
    ensures k < |named + rest| && (named + rest)[k] == id
  {
    if id in named {
      k :| 0 <= k < |named| && named[k] == id;
    } else {
      var j :| 0 <= j < |rest| && rest[j] == id;
      k := |named| + j;
    }
  }

  lemma FirstIsBest(r: Registry, p: RoutingPolicy, capability: string, named: seq<string>, rest: seq<string>, i: nat)
    requires r.Consistent() && i < |named + rest|
    requires forall x :: x in rest <==> x in Eligible(r, capability) && x !in named
    requires forall j, k :: 0 <= j < k < |rest| ==> Below(rest[j], rest[k])
    requires forall k :: 0 <= k < i ==> !Usable(r, p, capability, (named + rest)[k])
    requires Usable(r, p, capability, (named + rest)[i])
    ensures forall id :: id in r.models && id != (named + rest)[i] && Usable(r, p, capability, id) ==> Before(named, (named + rest)[i], id)
  {
    hide Below;
    var order := named + rest;
    forall id | id in r.models && id != order[i] && Usable(r, p, capability, id) ensures Before(named, order[i], id) {
      if i < |named| {
        assert forall k :: 0 <= k < i ==> order[k] == named[k];
        assert named[i] == order[i] && id !in named[..i];
      } else {
        assert order[i] == rest[i - |named|] && order[i] in rest;
        assert forall k :: 0 <= k < |named| ==> named[k] == order[k] && !Usable(r, p, capability, named[k]);
        var j :| 0 <= j < |rest| && rest[j] == id;
        assert order[|named| + j] == id;
      }
    }
  }

  /** Whoever beats an entry of the named order stands before it. */
  lemma BeatsEarlier(named: seq<string>, a: string, b: string, k: int) returns (i: int)
    requires Before(named, a, b) && 0 <= k < |named| && named[k] == b
    ensures a == b || (0 <= i < k && named[i] == a)
  {
    hide Below;
    assert b in named;
    i :| 0 <= i < |named| && named[i] == a && b !in named[..i];
  }

  lemma NamedPlaces(p: RoutingPolicy, preferred: Option<string>) returns (n: int)
    ensures n == |Named(p, preferred)| - |p.fallback| && (n == 0 || n == 1)
    ensures n == 1 <==> preferred.Some? && preferred.value != ""
    ensures n == 1 ==> Named(p, preferred)[0] == preferred.value
    ensures forall k :: 0 <= k < |p.fallback| ==> Named(p, preferred)[n + k] == p.fallback[k]
    ensures forall k :: n <= k < |Named(p, preferred)| ==> Named(p, preferred)[k] == p.fallback[k - n]
  {
    n := |Named(p, preferred)| - |p.fallback|;
  }

  lemma BestIsPreferred(r: Registry, p: RoutingPolicy, capability: string, preferred: Option<string>, best: string)
    requires r.Consistent() && Usable(r, p, capability, best)
    requires forall id :: id in r.models && id != best && Usable(r, p, capability, id) ==> Before(Named(p, preferred), best, id)
    ensures Prefers(r, p, capability, preferred, Some(best))
  {
    var named := Named(p, preferred);
    var n := NamedPlaces(p, preferred);
    hide Named, Below, Usable, Before;
    if Wanted(r, p, capability, preferred) {
      UsableIsKnown(r, p, capability, preferred.value);
      if best != preferred.value { var i := BeatsEarlier(named, best, preferred.value, 0); }
    } else {
      forall k | FirstUsable(r, p, capability, k) ensures best == p.fallback[k] {
        UsableIsKnown(r, p, capability, p.fallback[k]);
        if best != p.fallback[k] { var i := BeatsEarlier(named, best, p.fallback[k], n + k); }
      }
      if forall k :: 0 <= k < |p.fallback| ==> !Usable(r, p, capability, p.fallback[k]) {
        Unnamed(r, p, capability, preferred, best);
      }
    }
  }

  lemma Unnamed(r: Registry, p: RoutingPolicy, capability: string, preferred: Option<string>, best: string)
    requires r.Consistent() && Usable(r, p, capability, best) && !Wanted(r, p, capability, preferred)
    requires forall k :: 0 <= k < |p.fallback| ==> !Usable(r, p, capability, p.fallback[k])
    ensures forall b :: Before(Named(p, preferred), best, b) ==> Below(best, b)
  {
    var named := Named(p, preferred);
    var n := NamedPlaces(p, preferred);
    hide Named, Below, Usable;
  }

  lemma UsableIsKnown(r: Registry, p: RoutingPolicy, capability: string, id: string)
    requires r.Consistent() && Usable(r, p, capability, id)
    ensures id in r.models
  {
  }
}
