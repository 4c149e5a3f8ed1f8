/**
 The image cache under concurrency. A lookup is three steps (consult the cache, let the inspector
 read the global secret and answer, insert) and storing a global secret is two (store, purge);
 pod workers and the secret watcher interleave them freely.
 */
module CacheInterleaving {
  import opened ImageCache

  /** A cached answer with its history: the global secret the inspector read for it, and how many
      secrets had been stored by then. */
  datatype Stamped = Stamped(entry: Entry, global: Bytes, epoch: nat)

  /** A lookup between two of its steps. */
  datatype Lookup =
    | Missed(reference: Bytes, secrets: seq<Bytes>, podAuths: AuthMap, skipCache: bool)
    | Answered(key: string, stamped: Stamped, skipCache: bool)

  /** `stores` counts the secrets stored so far. */
  datatype State = State(global: Bytes, stores: nat, cache: map<string, Stamped>, lookups: map<nat, Lookup>)

  datatype Event =
    | Begin(id: nat, reference: Bytes, secrets: seq<Bytes>, podAuths: AuthMap, skipCache: bool)
    | Inspect(id: nat, authFile: AuthMap, architectures: set<string>)
    | Fail(id: nat)
    | Finish(id: nat)
    | Store(secret: Bytes)
    | Purge
    | Drop(keys: set<string>)

  /** The lookup that begins here is answered from the cache. */
  predicate Hits(c: Codec, s: State, e: Event) {
    && e.Begin? && !e.skipCache
    && IsExpansion(c, Merged(c, map[], e.secrets), e.reference, e.podAuths)
    && Key(c, e.reference, e.podAuths) in s.cache
  }

  /** What it is answered with. */
  function Found(c: Codec, s: State, e: Event): Stamped
    requires Hits(c, s, e)
  {
    s.cache[Key(c, e.reference, e.podAuths)]
  }

  /** Steps whose guard does not hold change nothing. */
  function Step(c: Codec, s: State, e: Event): State {
    match e
    case Begin(id, reference, secrets, podAuths, skipCache) =>
      if id !in s.lookups && IsExpansion(c, Merged(c, map[], secrets), reference, podAuths) && !Hits(c, s, e)
      then s.(lookups := s.lookups[id := Missed(reference, secrets, podAuths, skipCache)]) else s
    case Inspect(id, authFile, architectures) =>
      if id in s.lookups && s.lookups[id].Missed?
         && IsExpansion(c, Merged(c, map[], [s.global] + s.lookups[id].secrets), s.lookups[id].reference, authFile)
      then
        var l := s.lookups[id];
        var entry := Entry(l.podAuths, l.secrets, Answer(l.reference, authFile, architectures));
        s.(lookups := s.lookups[id := Answered(Key(c, l.reference, l.podAuths), Stamped(entry, s.global, s.stores), l.skipCache)])
      else s
    case Fail(id) => s.(lookups := s.lookups - {id})
    case Finish(id) =>
      if id in s.lookups && s.lookups[id].Answered?
      then
        var l := s.lookups[id];
        s.(lookups := s.lookups - {id}, cache := if l.skipCache then s.cache else s.cache[l.key := l.stamped])
      else s
    case Store(secret) => s.(global := secret, stores := s.stores + 1)
    case Purge => s.(cache := map[])
    case Drop(keys) => s.(cache := s.cache - keys)
  }

  function Run(c: Codec, s: State, events: seq<Event>): State
    decreases events
  {
    if events == [] then s else Run(c, Step(c, s, events[0]), events[1..])
  }

  lemma RunTwo(c: Codec, s: State, a: Event, b: Event)
    ensures Run(c, s, [a, b]) == Step(c, Step(c, s, a), b)
  {
    assert [a, b][1..] == [b] && [b][1..] == [];
    assert Run(c, Step(c, s, a), [b]) == Step(c, Step(c, s, a), b);
  }

  lemma RunThree(c: Codec, s: State, a: Event, b: Event, d: Event)
    ensures Run(c, s, [a, b, d]) == Step(c, Step(c, Step(c, s, a), b), d)
  {
    assert [a, b, d][1..] == [b, d];
    RunTwo(c, Step(c, s, a), b, d);
  }

  function Empty(global: Bytes): State {
    State(global, 0, map[], map[])
  }

  // ---------- Every entry is right for the secret it was made with ----------

  /** The entry is what the inspector would be asked with the recorded secret, and if no secret was
      stored since, that is the present one. */
  ghost predicate Honest(c: Codec, s: State, key: string, e: Stamped) {
    && Current(c, e.global, key, e.entry)
    && e.epoch <= s.stores
    && (e.epoch == s.stores ==> e.global == s.global)
  }

  ghost predicate HonestLookup(c: Codec, s: State, l: Lookup) {
    match l
    case Missed(reference, secrets, podAuths, _) => IsExpansion(c, Merged(c, map[], secrets), reference, podAuths)
    case Answered(key, stamped, _) => Honest(c, s, key, stamped)
  }

  ghost predicate Recorded(c: Codec, s: State) {
    && (forall k | k in s.cache :: Honest(c, s, k, s.cache[k]))
    && (forall id | id in s.lookups :: HonestLookup(c, s, s.lookups[id]))
  }

  lemma StoreKeepsRecorded(c: Codec, s: State, e: Event)
    requires e.Store? && Recorded(c, s)
    ensures Recorded(c, Step(c, s, e))
  {
    var t := Step(c, s, e);
    forall k | k in t.cache ensures Honest(c, t, k, t.cache[k]) {
      assert Honest(c, s, k, s.cache[k]);
    }
    forall id | id in t.lookups ensures HonestLookup(c, t, t.lookups[id]) {
      assert HonestLookup(c, s, s.lookups[id]);
    }
  }

  lemma InspectKeepsRecorded(c: Codec, s: State, e: Event)
    requires e.Inspect? && Recorded(c, s)
    ensures Recorded(c, Step(c, s, e))
  {
    var t := Step(c, s, e);
    if t != s {
      assert HonestLookup(c, s, s.lookups[e.id]);
      assert HonestLookup(c, t, t.lookups[e.id]);
      forall id | id in t.lookups && id != e.id ensures HonestLookup(c, t, t.lookups[id]) {
        assert HonestLookup(c, s, s.lookups[id]);
      }
      forall k | k in t.cache ensures Honest(c, t, k, t.cache[k]) {
        assert Honest(c, s, k, s.cache[k]);
      }
    }
  }

  lemma FinishKeepsRecorded(c: Codec, s: State, e: Event)
    requires e.Finish? && Recorded(c, s)
    ensures Recorded(c, Step(c, s, e))
  {
    var t := Step(c, s, e);
    if t != s {
      assert HonestLookup(c, s, s.lookups[e.id]);
      forall k | k in t.cache ensures Honest(c, t, k, t.cache[k]) {
        assert k != s.lookups[e.id].key ==> Honest(c, s, k, s.cache[k]);
      }
      forall id | id in t.lookups ensures HonestLookup(c, t, t.lookups[id]) {
        assert HonestLookup(c, s, s.lookups[id]);
      }
    }
  }

  lemma StepKeepsRecorded(c: Codec, s: State, e: Event)
    requires Recorded(c, s)
    ensures Recorded(c, Step(c, s, e))
  {
    if e.Store? {
      StoreKeepsRecorded(c, s, e);
    } else if e.Inspect? {
      InspectKeepsRecorded(c, s, e);
    } else if e.Finish? {
      FinishKeepsRecorded(c, s, e);
    } else {
      OthersKeepRecorded(c, s, e);
    }
  }

  lemma OthersKeepRecorded(c: Codec, s: State, e: Event)
    requires (e.Begin? || e.Fail? || e.Purge? || e.Drop?) && Recorded(c, s)
    ensures Recorded(c, Step(c, s, e))
  {
    var t := Step(c, s, e);
    forall k | k in t.cache ensures Honest(c, t, k, t.cache[k]) {
      assert Honest(c, s, k, s.cache[k]);
    }
    forall id | id in t.lookups ensures HonestLookup(c, t, t.lookups[id]) {
      assert id in s.lookups ==> HonestLookup(c, s, s.lookups[id]);
    }
  }

  /** Over every interleaving; an empty cache has nothing to be dishonest about. */
  lemma {:induction false} RunKeepsRecorded(c: Codec, s: State, events: seq<Event>)
    requires Recorded(c, s)
    ensures Recorded(c, Run(c, s, events))
    decreases events
  {
    if events != [] {
      StepKeepsRecorded(c, s, events[0]);
      RunKeepsRecorded(c, Step(c, s, events[0]), events[1..]);
    }
  }

  // ---------- Lookups that skip the cache ----------

  predicate IsStepOf(e: Event, id: nat) {
    (e.Begin? || e.Inspect? || e.Fail? || e.Finish?) && e.id == id
  }

  /** The run without one lookup. */
  function Others(events: seq<Event>, id: nat): seq<Event> {
    if events == [] then []
    else (if IsStepOf(events[0], id) then [] else [events[0]]) + Others(events[1..], id)
  }

  predicate AlikeBut(s: State, t: State, id: nat) {
    && s.global == t.global && s.stores == t.stores && s.cache == t.cache
    && (forall x | x in s.lookups && x != id :: x in t.lookups && t.lookups[x] == s.lookups[x])
    && (forall x | x in t.lookups && x != id :: x in s.lookups)
    && (id in s.lookups ==> s.lookups[id].skipCache)
  }

  lemma OwnStepLeavesNoTrace(c: Codec, s: State, t: State, e: Event, id: nat)
    requires AlikeBut(s, t, id) && IsStepOf(e, id) && (e.Begin? ==> e.skipCache)
    ensures AlikeBut(Step(c, s, e), t, id)
  {
  }

  lemma OtherStepIsAlike(c: Codec, s: State, t: State, e: Event, id: nat)
    requires AlikeBut(s, t, id) && !IsStepOf(e, id)
    ensures AlikeBut(Step(c, s, e), Step(c, t, e), id)
  {
    assert Hits(c, s, e) == Hits(c, t, e);
  }

  /** A lookup that skips the cache might as well not have happened, for the cache and for every other
      lookup, however they interleave. */
  lemma {:induction false} SkippingLeavesNoTrace(c: Codec, s: State, t: State, events: seq<Event>, id: nat)
    requires AlikeBut(s, t, id)
    requires forall i | 0 <= i < |events| :: events[i].Begin? && events[i].id == id ==> events[i].skipCache
    ensures AlikeBut(Run(c, s, events), Run(c, t, Others(events, id)), id)
    decreases events
  {
    if events != [] {
      if IsStepOf(events[0], id) {
        OwnStepLeavesNoTrace(c, s, t, events[0], id);
        SkippingLeavesNoTrace(c, Step(c, s, events[0]), t, events[1..], id);
        assert Others(events, id) == Others(events[1..], id);
      } else {
        OtherStepIsAlike(c, s, t, events[0], id);
        SkippingLeavesNoTrace(c, Step(c, s, events[0]), Step(c, t, events[0]), events[1..], id);
        assert Others(events, id)[0] == events[0] && Others(events, id)[1..] == Others(events[1..], id);
      }
    }
  }

  /** And it goes to the registry whatever the cache holds. */
  lemma SkippingAsks(c: Codec, s: State, e: Event)
    requires e.Begin? && e.skipCache && e.id !in s.lookups
    requires IsExpansion(c, Merged(c, map[], e.secrets), e.reference, e.podAuths)
    ensures Step(c, s, e).lookups == s.lookups[e.id := Missed(e.reference, e.secrets, e.podAuths, true)]
    ensures Step(c, s, e).cache == s.cache
  {
  }

  // ---------- When a hit is right ----------

  /** The answer is one for this image, with an auth file that the present global secret and the
      request's own secrets could make. */
  predicate RightFor(c: Codec, global: Bytes, e: Event, answer: Answer)
    requires e.Begin?
  {
    && answer.reference == e.reference
    && IsExpansion(c, Merged(c, map[], [global] + e.secrets), e.reference, answer.authFile)
  }

  /** The recorded and the present secret make the same credentials together with the request's. */
  predicate MergesAlike(c: Codec, global: Bytes, e: Event, found: Stamped)
    requires e.Begin?
  {
    Merged(c, map[], [global] + e.secrets) == Merged(c, map[], [found.global] + e.secrets)
  }

  /** The request's credentials fix its cache key's meaning. */
  predicate Plain(c: Codec, e: Event) {
    e.Begin? ==> Settled(c, Merged(c, map[], e.secrets), e.reference)
  }

  /** And together with a global secret they fix its auth file. */
  predicate PlainWith(c: Codec, e: Event, global: Bytes) {
    e.Begin? ==> Settled(c, Merged(c, map[], [global] + e.secrets), e.reference)
  }

  /** A hit on an entry is right for the secret the entry was made with. */
  lemma HitWasRight(c: Codec, s: State, e: Event)
    requires c.Sound() && Recorded(c, s) && Hits(c, s, e) && Plain(c, e)
    ensures RightFor(c, Found(c, s, e).global, e, Found(c, s, e).entry.answer)
  {
    var found, key := Found(c, s, e), Key(c, e.reference, e.podAuths);
    assert Honest(c, s, key, found);
    HitIsRight(c, found.global, key, found.entry, e.reference, e.secrets, e.podAuths);
  }

  /** The exact condition for one hit. */
  lemma HitIsRightIff(c: Codec, s: State, e: Event)
    requires c.Sound() && Recorded(c, s) && Hits(c, s, e) && Plain(c, e)
    requires PlainWith(c, e, Found(c, s, e).global)
    ensures RightFor(c, s.global, e, Found(c, s, e).entry.answer) <==> MergesAlike(c, s.global, e, Found(c, s, e))
  {
    var found := Found(c, s, e);
    HitWasRight(c, s, e);
    var before, now := Merged(c, map[], [found.global] + e.secrets), Merged(c, map[], [s.global] + e.secrets);
    if RightFor(c, s.global, e, found.entry.answer) {
      SettledIsAlone(c, before, now, e.reference, found.entry.answer.authFile);
    }
  }

  ghost predicate HitsRight(c: Codec, s: State, events: seq<Event>)
    decreases events
  {
    events != [] ==>
      && (Hits(c, s, events[0]) ==> RightFor(c, s.global, events[0], Found(c, s, events[0]).entry.answer))
      && HitsRight(c, Step(c, s, events[0]), events[1..])
  }

  ghost predicate HitsMergeAlike(c: Codec, s: State, events: seq<Event>)
    decreases events
  {
    events != [] ==>
      && (Hits(c, s, events[0]) ==> MergesAlike(c, s.global, events[0], Found(c, s, events[0])))
      && HitsMergeAlike(c, Step(c, s, events[0]), events[1..])
  }

  /** Every global secret of the run is among these. */
  ghost predicate Known(s: State, events: seq<Event>, globals: set<Bytes>) {
    && s.global in globals
    && (forall k | k in s.cache :: s.cache[k].global in globals)
    && (forall id | id in s.lookups && s.lookups[id].Answered? :: s.lookups[id].stamped.global in globals)
    && (forall i | 0 <= i < |events| && events[i].Store? :: events[i].secret in globals)
  }

  lemma StepKeepsKnown(c: Codec, s: State, events: seq<Event>, globals: set<Bytes>)
    requires events != [] && Known(s, events, globals)
    ensures Known(Step(c, s, events[0]), events[1..], globals)
  {
    var t := Step(c, s, events[0]);
    assert events[0].Store? ==> events[0].secret in globals;
    forall i | 0 <= i < |events| - 1 && events[1..][i].Store? ensures events[1..][i].secret in globals {
      assert events[1..][i] == events[i + 1];
    }
  }

  /** The exact condition for whole runs: for requests whose credentials, alone and with each of the
      run's global secrets, leave nothing to a glob, all hits are right if and only if at each of them
      the secret read for the entry and the present one merge alike with the request's. */
  lemma {:induction false} RunIsRightIff(c: Codec, s: State, events: seq<Event>, globals: set<Bytes>)
    requires c.Sound() && Recorded(c, s) && Known(s, events, globals)
    requires forall i | 0 <= i < |events| :: Plain(c, events[i]) && forall g | g in globals :: PlainWith(c, events[i], g)
    ensures HitsRight(c, s, events) <==> HitsMergeAlike(c, s, events)
    decreases events
  {
    if events != [] {
      var e := events[0];
      if Hits(c, s, e) {
        assert Found(c, s, e).global in globals;
        HitIsRightIff(c, s, e);
      }
      StepKeepsRecorded(c, s, e);
      StepKeepsKnown(c, s, events, globals);
      RunIsRightIff(c, Step(c, s, e), events[1..], globals);
    }
  }

  // ---------- Schedules that are safe ----------

  /** At every hit, no secret was stored since the inspector answered. */
  ghost predicate NoStoreBetween(c: Codec, s: State, events: seq<Event>)
    decreases events
  {
    events != [] ==>
      && (Hits(c, s, events[0]) ==> Found(c, s, events[0]).epoch == s.stores)
      && NoStoreBetween(c, Step(c, s, events[0]), events[1..])
  }

  /** Then every hit is right, however lookups, purges and expiry interleave. */
  lemma {:induction false} UndisturbedIsRight(c: Codec, s: State, events: seq<Event>)
    requires c.Sound() && Recorded(c, s) && NoStoreBetween(c, s, events)
    requires forall i | 0 <= i < |events| :: Plain(c, events[i])
    ensures HitsRight(c, s, events)
    decreases events
  {
    if events != [] {
      if Hits(c, s, events[0]) {
        HitWasRight(c, s, events[0]);
        assert Honest(c, s, Key(c, events[0].reference, events[0].podAuths), Found(c, s, events[0]));
      }
      StepKeepsRecorded(c, s, events[0]);
      UndisturbedIsRight(c, Step(c, s, events[0]), events[1..]);
    }
  }

  predicate NothingPending(s: State) {
    forall id | id in s.lookups :: !s.lookups[id].Answered?
  }

  /** Secret changes are not split from their purge and do not overlap an answered lookup. */
  predicate StoresAlone(c: Codec, s: State, events: seq<Event>)
    decreases events
  {
    events != [] ==>
      && (events[0].Store? ==> NothingPending(s) && |events| > 1 && events[1] == Purge)
      && StoresAlone(c, Step(c, s, events[0]), events[1..])
  }

  /** Everything inserted or about to be is of the present epoch. */
  predicate FreshCache(s: State) {
    forall k | k in s.cache :: s.cache[k].epoch == s.stores
  }

  predicate FreshLookups(s: State) {
    forall id | id in s.lookups && s.lookups[id].Answered? :: s.lookups[id].stamped.epoch == s.stores
  }

  /** A serialized watcher is safe: such schedules never have a store between answer and hit. */
  lemma {:induction false} SerializedIsUndisturbed(c: Codec, s: State, events: seq<Event>)
    requires FreshLookups(s) && (FreshCache(s) || (events != [] && events[0] == Purge))
    requires StoresAlone(c, s, events)
    ensures NoStoreBetween(c, s, events)
    decreases events
  {
    if events != [] {
      var t := Step(c, s, events[0]);
      assert FreshLookups(t);
      assert events[0].Store? ==> events[1..][0] == Purge;
      SerializedIsUndisturbed(c, t, events[1..]);
    }
  }

  // ---------- Schedules that are not ----------

  lemma {:induction false} HitsRightConcat(c: Codec, s: State, a: seq<Event>, b: seq<Event>)
    ensures HitsRight(c, s, a + b) ==> HitsRight(c, Run(c, s, a), b)
    decreases a
  {
    if a == [] {
      assert a + b == b;
    } else {
      assert (a + b)[0] == a[0] && (a + b)[1..] == a[1..] + b;
      HitsRightConcat(c, Step(c, s, a[0]), a[1..], b);
    }
  }

  /** Two global secrets that make different credentials, with no glob to expand. */
  predicate Differ(c: Codec, before: Bytes, after: Bytes) {
    && NoGlobs(Merged(c, map[], [before])) && NoGlobs(Merged(c, map[], [after]))
    && Merged(c, map[], [before]) != Merged(c, map[], [after])
  }

  function Ask(id: nat, reference: Bytes): Event {
    Begin(id, reference, [], map[], false)
  }

  function AnsweredBefore(c: Codec, reference: Bytes, before: Bytes, architectures: set<string>): seq<Event> {
    [Ask(0, reference), Inspect(0, Merged(c, map[], [before]), architectures)]
  }

  /** A worker has its answer and has not inserted it yet. */
  function Pending(c: Codec, reference: Bytes, before: Bytes, architectures: set<string>): Stamped {
    Stamped(Entry(map[], [], Answer(reference, Merged(c, map[], [before]), architectures)), before, 0)
  }

  lemma NoGlobsIsItsExpansion(c: Codec, auths: AuthMap, reference: Bytes)
    requires NoGlobs(auths)
    ensures IsExpansion(c, auths, reference, auths)
  {
  }

  lemma AskAndInspect(c: Codec, reference: Bytes, before: Bytes, architectures: set<string>)
    requires NoGlobs(Merged(c, map[], [before]))
    ensures Run(c, Empty(before), AnsweredBefore(c, reference, before, architectures)) ==
            Empty(before).(lookups := map[0 := Answered(Key(c, reference, map[]), Pending(c, reference, before, architectures), false)])
  {
    var none: AuthMap := map[];
    var authFile := Merged(c, map[], [before]);
    var events := AnsweredBefore(c, reference, before, architectures);
    assert Merged(c, map[], []) == none;
    assert [before] + [] == [before];
    NoGlobsIsItsExpansion(c, none, reference);
    NoGlobsIsItsExpansion(c, authFile, reference);
    var s1 := Step(c, Empty(before), events[0]);
    assert s1.lookups == map[0 := Missed(reference, [], none, false)];
    var s2 := Step(c, s1, events[1]);
    assert s2.lookups == map[0 := Answered(Key(c, reference, none), Pending(c, reference, before, architectures), false)];
    RunTwo(c, Empty(before), events[0], events[1]);
  }

  /** An entry made with the old secret answers a request under the new one. */
  lemma StaleAnswer(c: Codec, s: State, reference: Bytes, before: Bytes, after: Bytes, architectures: set<string>)
    requires Differ(c, before, after) && s.global == after
    requires Key(c, reference, map[]) in s.cache
    requires s.cache[Key(c, reference, map[])] == Pending(c, reference, before, architectures)
    ensures !HitsRight(c, s, [Ask(1, reference)])
  {
    var e, none: AuthMap := Ask(1, reference), map[];
    assert Merged(c, map[], []) == none;
    NoGlobsIsItsExpansion(c, none, reference);
    assert Hits(c, s, e);
    assert [after] + [] == [after];
    if RightFor(c, after, e, Found(c, s, e).entry.answer) {
      ExpansionWithoutGlobs(c, Merged(c, map[], [after]), reference, Merged(c, map[], [before]));
    }
    assert [e][0] == e;
  }

  /** A worker that read the old secret inserts its answer after the purge, and the next lookup hits
      it. */
  lemma StaleAfterPurge(c: Codec, reference: Bytes, before: Bytes, after: Bytes, architectures: set<string>)
    requires Differ(c, before, after)
    ensures !HitsRight(c, Empty(before),
                       AnsweredBefore(c, reference, before, architectures) + [Store(after), Purge, Finish(0)] + [Ask(1, reference)])
  {
    var first, rest := AnsweredBefore(c, reference, before, architectures), [Store(after), Purge, Finish(0)];
    AskAndInspect(c, reference, before, architectures);
    RunConcat(c, Empty(before), first, rest);
    var s := Run(c, Empty(before), first);
    RunThree(c, s, Store(after), Purge, Finish(0));
    var t := Step(c, Step(c, Step(c, s, Store(after)), Purge), Finish(0));
    StaleAnswer(c, t, reference, before, after, architectures);
    HitsRightConcat(c, Empty(before), first + rest, [Ask(1, reference)]);
  }

  /** And with nothing pending at all: a lookup between the store and the purge hits what the purge
      is about to remove. */
  lemma StaleBeforePurge(c: Codec, reference: Bytes, before: Bytes, after: Bytes, architectures: set<string>)
    requires Differ(c, before, after)
    ensures !HitsRight(c, Empty(before),
                       AnsweredBefore(c, reference, before, architectures) + [Finish(0), Store(after)] + [Ask(1, reference), Purge])
  {
    var first, rest := AnsweredBefore(c, reference, before, architectures), [Finish(0), Store(after)];
    var last := [Ask(1, reference), Purge];
    AskAndInspect(c, reference, before, architectures);
    RunConcat(c, Empty(before), first, rest);
    var s := Run(c, Empty(before), first);
    RunTwo(c, s, Finish(0), Store(after));
    var t := Step(c, Step(c, s, Finish(0)), Store(after));
    StaleAnswer(c, t, reference, before, after, architectures);
    assert [Ask(1, reference)][0] == last[0];
    assert !HitsRight(c, t, last);
    HitsRightConcat(c, Empty(before), first + rest, last);
  }

  lemma {:induction false} RunConcat(c: Codec, s: State, a: seq<Event>, b: seq<Event>)
    ensures Run(c, s, a + b) == Run(c, Run(c, s, a), b)
    decreases a
  {
    if a == [] {
      assert a + b == b;
    } else {
      assert (a + b)[0] == a[0] && (a + b)[1..] == a[1..] + b;
      RunConcat(c, Step(c, s, a[0]), a[1..], b);
    }
  }
}
