/**
 PodPlacementConfigs: their admission (api/v1beta1/podplacementconfig_types.go and
 internal/controller/podplacementconfig/podplacementconfig_webhook.go) and the descending
 sort by priority that every consumer performs.
 */
module Configs {
  import opened Decimal

  type Priority = n: int | 0 <= n < 256

  datatype Platform = Platform(architecture: string, weight: int)

  datatype Rule = Rule(name: string, expression: string, architectures: seq<string>)

  datatype CelPlugin = CelPlugin(rules: seq<Rule>, fallback: seq<string>)

  /** A plugin is `Some` when it is configured and enabled. */
  datatype Ppc = Ppc(name: string, priority: Priority, scoring: Option<seq<Platform>>, cel: Option<CelPlugin>)

  /** The cluster-wide configuration; an empty fallback architecture means none is set. */
  datatype Cppc = Cppc(scoring: Option<seq<Platform>>, fallback: string)

  // ---------- The unstable descending sort ----------

  predicate Descending(s: seq<Ppc>) {
    forall i, j | 0 <= i < j < |s| :: s[i].priority >= s[j].priority
  }

  /** Everything `sort.Slice` promises: a permutation in descending order, ties in any order. */
  ghost predicate IsSortOf(sorted: seq<Ppc>, s: seq<Ppc>) {
    multiset(sorted) == multiset(s) && Descending(sorted)
  }

  ghost predicate DistinctPriorities(s: seq<Ppc>) {
    && (forall x | x in multiset(s) :: multiset(s)[x] == 1)
    && (forall x, y | x in multiset(s) && y in multiset(s) && x.priority == y.priority :: x == y)
  }

  method InsertByPriority(sorted: seq<Ppc>, p: Ppc) returns (r: seq<Ppc>)
    requires Descending(sorted)
    ensures IsSortOf(r, sorted + [p])
  {
    var i := 0;
    while i < |sorted| && sorted[i].priority >= p.priority
      invariant i <= |sorted|
      invariant forall j | 0 <= j < i :: sorted[j].priority >= p.priority
    {
      i := i + 1;
    }
    r := sorted[..i] + [p] + sorted[i..];
    InsertedMultiset(sorted, i, p);
    InsertedDescending(sorted, i, p);
  }

  lemma InsertedMultiset(s: seq<Ppc>, i: nat, p: Ppc)
    requires i <= |s|
    ensures multiset(s[..i] + [p] + s[i..]) == multiset(s + [p])
  {
    assert s == s[..i] + s[i..];
  }

  lemma InsertedDescending(s: seq<Ppc>, i: nat, p: Ppc)
    requires i <= |s| && Descending(s)
    requires forall j | 0 <= j < i :: s[j].priority >= p.priority
    requires i < |s| ==> s[i].priority <= p.priority
    ensures Descending(s[..i] + [p] + s[i..])
  {
    var r := s[..i] + [p] + s[i..];
    forall k | 0 <= k < |r| ensures r[k] == if k < i then s[k] else if k == i then p else s[k - 1] {
    }
  }

  method SortByPriority(s: seq<Ppc>) returns (sorted: seq<Ppc>)
    ensures IsSortOf(sorted, s)
  {
    sorted := [];
    for k := 0 to |s|
      invariant IsSortOf(sorted, s[..k])
    {
      assert s[..k + 1] == s[..k] + [s[k]];
      sorted := InsertByPriority(sorted, s[k]);
    }
    assert s[..|s|] == s;
  }

  lemma SameHead(a: seq<Ppc>, b: seq<Ppc>)
    requires a != [] && multiset(a) == multiset(b)
    requires Descending(a) && Descending(b)
    requires forall i | 0 < i < |a| :: a[i].priority != a[0].priority
    ensures b != [] && a[0] == b[0]
  {
    assert a[0] in multiset(b);
    var j :| 0 <= j < |b| && b[j] == a[0];
    assert b[0] in multiset(a);
    var i :| 0 <= i < |a| && a[i] == b[0];
    assert b[0].priority >= a[0].priority;
  }

  lemma SameTails(a: seq<Ppc>, b: seq<Ppc>)
    requires a != [] && b != [] && multiset(a) == multiset(b) && a[0] == b[0]
    ensures multiset(a[1..]) == multiset(b[1..])
  {
    assert a == [a[0]] + a[1..] && b == [b[0]] + b[1..];
    assert multiset(a[1..]) == multiset(a) - multiset{a[0]};
    assert multiset(b[1..]) == multiset(b) - multiset{b[0]};
  }

  lemma {:induction false} SortIsUniqueByIndex(a: seq<Ppc>, b: seq<Ppc>)
    requires multiset(a) == multiset(b)
    requires Descending(a) && Descending(b)
    requires forall i, j | 0 <= i < j < |a| :: a[i].priority != a[j].priority
    ensures a == b
  {
    if a == [] {
      assert |multiset(b)| == 0;
    } else {
      SameHead(a, b);
      SameTails(a, b);
      SortIsUniqueByIndex(a[1..], b[1..]);
      assert a == [a[0]] + a[1..] && b == [b[0]] + b[1..];
    }
  }

  lemma DistinctByIndex(s: seq<Ppc>, i: nat, j: nat)
    requires DistinctPriorities(s) && i < j < |s|
    ensures s[i].priority != s[j].priority
  {
    assert s[i] in multiset(s) && s[j] in multiset(s);
    assert s == s[..j] + s[j..];
    assert s[i] in s[..j] && s[j] in s[j..];
    assert multiset(s)[s[i]] == multiset(s[..j])[s[i]] + multiset(s[j..])[s[i]];
  }

  /** With distinct priorities the sort has one result, whatever the order of the input. */
  lemma SortIsUnique(s: seq<Ppc>, t: seq<Ppc>, a: seq<Ppc>, b: seq<Ppc>)
    requires DistinctPriorities(s) && multiset(s) == multiset(t)
    requires IsSortOf(a, s) && IsSortOf(b, t)
    ensures a == b
  {
    assert DistinctPriorities(a);
    forall i, j | 0 <= i < j < |a| ensures a[i].priority != a[j].priority {
      DistinctByIndex(a, i, j);
    }
    SortIsUniqueByIndex(a, b);
  }

  // ---------- Admission ----------

  /** `ValidateArchitecturesSet`: no architecture is listed twice. */
  predicate DistinctArchitectures(platforms: seq<Platform>) {
    forall i, j | 0 <= i < j < |platforms| :: platforms[i].architecture != platforms[j].architecture
  }

  predicate ValidatePriorityNew(p: Ppc, existing: seq<Ppc>) {
    forall i | 0 <= i < |existing| :: existing[i].priority != p.priority
  }

  predicate ValidatePriorityUpdate(p: Ppc, stored: Ppc, existing: seq<Ppc>) {
    p.priority == stored.priority ||
    forall i | 0 <= i < |existing| :: existing[i].name != p.name ==> existing[i].priority != p.priority
  }

  /** One request to the API server. `listed` is the webhook's direct list of the namespace and
      `celValid` the verdict of the CEL checks; `cppcExists` whether the cluster configuration
      was found. */
  datatype Request =
    | Create(ppc: Ppc, listed: seq<Ppc>, cppcExists: bool, celValid: bool)
    | Update(ppc: Ppc, listed: seq<Ppc>, cppcExists: bool, celValid: bool)
    | Delete(name: string)

  type Store = map<string, Ppc>

  ghost predicate IsListing(listed: seq<Ppc>, store: Store) {
    forall p :: p in listed <==> p.name in store && store[p.name] == p
  }

  /** The admission decision of the validating webhook. */
  predicate Admitted(r: Request, store: Store)
    requires r.Update? ==> r.ppc.name in store
  {
    match r
    case Delete(_) => true
    case Create(p, listed, cppcExists, celValid) =>
      && cppcExists
      && (p.scoring.Some? ==> DistinctArchitectures(p.scoring.value))
      && (p.cel.Some? ==> celValid)
      && ValidatePriorityNew(p, listed)
    case Update(p, listed, cppcExists, celValid) =>
      && cppcExists
      && (p.scoring.Some? ==> DistinctArchitectures(p.scoring.value))
      && (p.cel.Some? ==> celValid)
      && ValidatePriorityUpdate(p, store[p.name], listed)
  }

  /** The API server: names are unique, and a rejected request changes nothing. */
  function Apply(store: Store, r: Request): Store {
    match r
    case Create(p, _, _, _) => if p.name !in store && Admitted(r, store) then store[p.name := p] else store
    case Update(p, _, _, _) => if p.name in store && Admitted(r, store) then store[p.name := p] else store
    case Delete(name) => store - {name}
  }

  function ApplyAll(store: Store, requests: seq<Request>): Store {
    if requests == [] then store
    else Apply(ApplyAll(store, requests[..|requests| - 1]), requests[|requests| - 1])
  }

  /** Requests are serialized and each one's listing is read from the store it meets. */
  ghost predicate Serialized(store: Store, requests: seq<Request>) {
    forall k | 0 <= k < |requests| && !requests[k].Delete? ::
      IsListing(requests[k].listed, ApplyAll(store, requests[..k]))
  }

  ghost predicate StoreValid(store: Store) {
    && (forall n | n in store :: store[n].name == n)
    && (forall n, m | n in store && m in store && n != m :: store[n].priority != store[m].priority)
  }

  lemma ApplyKeepsValid(store: Store, r: Request)
    requires StoreValid(store)
    requires !r.Delete? ==> IsListing(r.listed, store)
    ensures StoreValid(Apply(store, r))
    ensures (r.Update? ==> r.ppc.name in store) && !Admitted(r, store) ==> Apply(store, r) == store
    ensures !r.Delete? && Apply(store, r) != store ==>
              && Apply(store, r) == store[r.ppc.name := r.ppc]
              && forall n | n in store && n != r.ppc.name :: store[n].priority != r.ppc.priority
  {
    if !r.Delete? && Apply(store, r) != store {
      forall n | n in store && n != r.ppc.name
        ensures store[n].priority != r.ppc.priority
      {
        assert store[n] in r.listed;
        if r.Update? && r.ppc.priority == store[r.ppc.name].priority {
          assert store[n].priority != store[r.ppc.name].priority;
        } else {
          var i :| 0 <= i < |r.listed| && r.listed[i] == store[n];
        }
      }
    }
  }

  /** The configuration of a request is acceptable by itself. */
  predicate WellFormed(p: Ppc, cppcExists: bool, celValid: bool) {
    && cppcExists
    && (p.scoring.Some? ==>
          forall i, j | 0 <= i < j < |p.scoring.value| :: p.scoring.value[i].architecture != p.scoring.value[j].architecture)
    && (p.cel.Some? ==> celValid)
  }

  /** Exactly which creations are stored. */
  lemma CreateStoredIff(store: Store, p: Ppc, listed: seq<Ppc>, cppcExists: bool, celValid: bool)
    requires IsListing(listed, store) && StoreValid(store) && p.name !in store
    ensures Apply(store, Create(p, listed, cppcExists, celValid)) ==
            if WellFormed(p, cppcExists, celValid) && forall n | n in store :: store[n].priority != p.priority
            then store[p.name := p] else store
  {
    assert forall n | n in store :: store[n] in listed;
    assert forall i | 0 <= i < |listed| :: listed[i] in listed;
  }

  /** Exactly which updates are stored: those that keep the priority, or take one that nobody else has, by
      what the request lists. */
  lemma UpdateStoredIff(store: Store, p: Ppc, listed: seq<Ppc>, cppcExists: bool, celValid: bool)
    requires p.name in store
    ensures Apply(store, Update(p, listed, cppcExists, celValid)) ==
            if WellFormed(p, cppcExists, celValid)
               && (p.priority == store[p.name].priority || forall q | q in listed && q.name != p.name :: q.priority != p.priority)
            then store[p.name := p] else store
    ensures IsListing(listed, store) && StoreValid(store) ==>
              ((forall q | q in listed && q.name != p.name :: q.priority != p.priority) <==>
               (forall n | n in store && n != p.name :: store[n].priority != p.priority))
  {
    assert forall i | 0 <= i < |listed| :: listed[i] in listed;
    if IsListing(listed, store) && StoreValid(store) {
      assert forall n | n in store :: store[n] in listed;
    }
  }

  /** A deletion makes room: the priority can be taken by a new configuration. */
  lemma DeletionFreesPriority(store: Store, name: string, p: Ppc, listed: seq<Ppc>, celValid: bool)
    requires StoreValid(store) && name in store && p.priority == store[name].priority && p.name !in store - {name}
    requires IsListing(listed, Apply(store, Delete(name))) && WellFormed(p, true, celValid)
    ensures ApplyAll(store, [Delete(name), Create(p, listed, true, celValid)]) == (store - {name})[p.name := p]
  {
    var rest := Apply(store, Delete(name));
    var requests := [Delete(name), Create(p, listed, true, celValid)];
    assert requests[..1] == [Delete(name)] && [Delete(name)][..0] == [];
    assert ApplyAll(store, [Delete(name)]) == Apply(ApplyAll(store, []), Delete(name)) == rest;
    CreateStoredIff(rest, p, listed, true, celValid);
  }

  lemma {:induction false} RunKeepsValid(requests: seq<Request>)
    requires Serialized(map[], requests)
    ensures StoreValid(ApplyAll(map[], requests))
  {
    if requests != [] {
      var front := requests[..|requests| - 1];
      forall k | 0 <= k < |front| && !front[k].Delete?
        ensures IsListing(front[k].listed, ApplyAll(map[], front[..k]))
      {
        assert requests[..k] == front[..k];
      }
      RunKeepsValid(front);
      ApplyKeepsValid(ApplyAll(map[], front), requests[|requests| - 1]);
    }
  }

  /** Nothing in the webhook makes requests wait for each other: two creations that both list the
      namespace before either is stored are both admitted, with the same priority. */
  lemma ConcurrentCreatesClash(a: Ppc, b: Ppc)
    requires a.name != b.name && a.priority == b.priority
    requires a.scoring == b.scoring == None && a.cel == b.cel == None
    ensures var requests := [Create(a, [], true, true), Create(b, [], true, true)];
            && IsListing(requests[0].listed, map[]) && IsListing(requests[1].listed, map[])
            && !StoreValid(ApplyAll(map[], requests))
  {
    var requests := [Create(a, [], true, true), Create(b, [], true, true)];
    var first := requests[..1];
    assert first[..0] == [] && first[0] == requests[0];
    assert ApplyAll(map[], first) == Apply(map[], requests[0]);
    var store := ApplyAll(map[], requests);
    assert store == Apply(ApplyAll(map[], first), requests[1]);
    assert store[a.name].priority == store[b.name].priority;
  }

  lemma {:induction false} AtMost256(store: Store, bound: nat)
    requires StoreValid(store)
    requires forall n | n in store :: store[n].priority < bound
    ensures |store| <= bound
  {
    if bound == 0 {
      assert forall n :: n !in store;
    } else if n :| n in store && store[n].priority == bound - 1 {
      var rest := store - {n};
      assert store.Keys == rest.Keys + {n};
      AtMost256(rest, bound - 1);
    } else {
      AtMost256(store, bound - 1);
    }
  }

  /** Every serialized run of admissions from an empty namespace leaves at most 256 configurations
      with distinct priorities, and any two consumers that list the same ones sort them alike. */
  lemma AdmittedConfigsSortOneWay(requests: seq<Request>, listed: seq<Ppc>, a: seq<Ppc>, b: seq<Ppc>)
    requires Serialized(map[], requests)
    requires forall p | p in multiset(listed) ::
               && multiset(listed)[p] == 1
               && p.name in ApplyAll(map[], requests) && ApplyAll(map[], requests)[p.name] == p
    requires IsSortOf(a, listed) && IsSortOf(b, listed)
    ensures |ApplyAll(map[], requests)| <= 256
    ensures a == b
  {
    RunKeepsValid(requests);
    var store := ApplyAll(map[], requests);
    AtMost256(store, 256);
    SortIsUnique(listed, listed, a, b);
  }
}
