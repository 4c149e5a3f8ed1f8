/**
 The image architecture cache: pkg/image/cache.go in front of the registry inspector, the pull
 secret merging of pkg/image/auth.go and inspector.go, and the store-then-purge of facade.go.
 */
module ImageCache {
  import opened Decimal

  type Byte = b: int | 0 <= b < 256
  type Bytes = seq<Byte>
  type AuthMap = map<string, string>

  /** The libraries the cache key goes through: JSON both ways, SHA-256, and the URL matching behind
      registry globs. */
  datatype Codec = Codec(
    decode: Bytes -> Option<AuthMap>,
    encode: AuthMap -> Bytes,
    hash: Bytes -> string,
    expand: (string, Bytes) -> Option<string>)
  {
    /** JSON text has no zero byte and determines its value; the hash has no collisions; a registry
        that already has the image's host expands to itself, if it matches. */
    ghost predicate Sound() {
      && (forall a, b :: encode(a) == encode(b) ==> a == b)
      && (forall a :: 0 !in encode(a))
      && (forall x, y :: hash(x) == hash(y) ==> x == y)
      && (forall r, h, x :: expand(r, x) == Some(h) ==> expand(h, x) == None || expand(h, x) == Some(h))
    }
  }

  // ---------- Merging pull secrets ----------

  /** `unmarshallAuthsDataAndStore`: a secret that does not parse is skipped. */
  function MergeOne(c: Codec, auths: AuthMap, secret: Bytes): AuthMap {
    var decoded := c.decode(secret);
    if decoded.None? then auths else auths + decoded.value
  }

  function Merged(c: Codec, auths: AuthMap, secrets: seq<Bytes>): AuthMap
    decreases secrets
  {
    if secrets == [] then auths else Merged(c, MergeOne(c, auths, secrets[0]), secrets[1..])
  }

  /** The last-wins merge is associative: what came before only matters where nothing overrides it. */
  lemma {:induction false} MergedFrom(c: Codec, auths: AuthMap, secrets: seq<Bytes>)
    ensures Merged(c, auths, secrets) == auths + Merged(c, map[], secrets)
    decreases secrets
  {
    if secrets != [] {
      var rest := secrets[1..];
      MergedFrom(c, MergeOne(c, auths, secrets[0]), rest);
      MergedFrom(c, MergeOne(c, map[], secrets[0]), rest);
    } else {
      assert auths + map[] == auths;
    }
  }

  /** The inspector's auth file is determined by the global secret and the pod's own merge. */
  lemma GlobalFirst(c: Codec, global: Bytes, secrets: seq<Bytes>)
    ensures Merged(c, map[], [global] + secrets) == MergeOne(c, map[], global) + Merged(c, map[], secrets)
  {
    assert ([global] + secrets)[1..] == secrets;
    MergedFrom(c, MergeOne(c, map[], global), secrets);
  }

  // ---------- Registry globs ----------

  predicate IsGlob(registry: string) {
    exists i | 0 <= i < |registry| :: registry[i] == '*' || registry[i] == '?' || registry[i] == ']'
  }

  predicate NoGlobs(auths: AuthMap) {
    forall r | r in auths :: !IsGlob(r)
  }

  /** `matchAndExpandGlob`, with its empty results taken out: the registry a glob stands for. */
  function Target(c: Codec, registry: string, reference: Bytes): Option<string> {
    if !IsGlob(registry) || c.expand(registry, reference) == Some("") then None else c.expand(registry, reference)
  }

  /** What `expandGlobs` may return, ranging over the map in any order: everything that was there,
      plus every target of a glob with the credentials of a glob that has this target. */
  predicate IsExpansion(c: Codec, auths: AuthMap, reference: Bytes, expanded: AuthMap) {
    && (forall r | r in auths :: r in expanded && expanded[r] == auths[r])
    && (forall h | h in expanded && h !in auths ::
          exists r | r in auths :: Target(c, r, reference) == Some(h) && expanded[h] == auths[r])
    && (forall r | r in auths && Target(c, r, reference).Some? :: Target(c, r, reference).value in expanded)
  }

  lemma ExpansionWithoutGlobs(c: Codec, auths: AuthMap, reference: Bytes, expanded: AuthMap)
    requires IsExpansion(c, auths, reference, expanded)
    requires NoGlobs(auths) || NoGlobs(expanded)
    ensures expanded == auths
  {
    assert forall r | r in auths :: r in expanded && Target(c, r, reference) == None;
  }

  method ExpandGlobs(c: Codec, auths: AuthMap, reference: Bytes) returns (expanded: AuthMap)
    ensures IsExpansion(c, auths, reference, expanded)
  {
    expanded := auths;
    var todo := auths.Keys;
    while todo != {}
      invariant todo <= auths.Keys
      invariant forall r | r in auths :: r in expanded && expanded[r] == auths[r]
      invariant forall h | h in expanded && h !in auths ::
                  exists r | r in auths :: Target(c, r, reference) == Some(h) && expanded[h] == auths[r]
      invariant forall r | r in auths && r !in todo && Target(c, r, reference).Some? ::
                  Target(c, r, reference).value in expanded
    {
      var r :| r in todo;
      todo := todo - {r};
      var host := Target(c, r, reference);
      if host.Some? && host.value !in expanded {
        expanded := expanded[host.value := auths[r]];
      }
    }
  }

  /** A registry with a wildcard that matches the image brings credentials for the registry it stands for,
      unless that one has its own: those of the wildcard, or of another one that matches it too. */
  lemma WildcardProvides(c: Codec, auths: AuthMap, reference: Bytes, expanded: AuthMap, registry: string, host: string)
    requires IsExpansion(c, auths, reference, expanded)
    requires registry in auths && c.expand(registry, reference) == Some(host) && host != ""
    requires '*' in registry || '?' in registry || ']' in registry
    ensures host in expanded
    ensures host in auths ==> expanded[host] == auths[host]
    ensures host !in auths && (forall r | r in auths && r != registry :: c.expand(r, reference) != Some(host)) ==>
              expanded[host] == auths[registry]
  {
    assert IsGlob(registry);
    assert Target(c, registry, reference) == Some(host);
  }

  /** A wildcard that stands for no registry brings nothing. */
  lemma NothingForNoRegistry(c: Codec, auths: AuthMap, reference: Bytes, expanded: AuthMap)
    requires IsExpansion(c, auths, reference, expanded)
    ensures "" in expanded <==> "" in auths
  {
  }

  /** A registry without a wildcard brings nothing but itself. */
  lemma PlainProvidesItself(c: Codec, auths: AuthMap, reference: Bytes, expanded: AuthMap)
    requires IsExpansion(c, auths, reference, expanded)
    requires forall r | r in auths :: '*' !in r && '?' !in r && ']' !in r
    ensures expanded == auths
  {
    ExpansionWithoutGlobs(c, auths, reference, expanded);
  }

  method MergeSecrets(c: Codec, reference: Bytes, secrets: seq<Bytes>) returns (expanded: AuthMap)
    ensures IsExpansion(c, Merged(c, map[], secrets), reference, expanded)
  {
    var auths: AuthMap := map[];
    for k := 0 to |secrets|
      invariant Merged(c, auths, secrets[k..]) == Merged(c, map[], secrets)
    {
      assert secrets[k..][1..] == secrets[k + 1..];
      var decoded := c.decode(secrets[k]);
      if decoded.Some? {
        auths := auths + decoded.value;
      }
    }
    expanded := ExpandGlobs(c, auths, reference);
  }

  // ---------- The cache key ----------

  /** `computeHash` */
  function Key(c: Codec, reference: Bytes, auths: AuthMap): string {
    c.hash(reference + [0] + c.encode(auths))
  }

  lemma FramingIsInjective(a: Bytes, x: Bytes, b: Bytes, y: Bytes)
    requires a + [0] + x == b + [0] + y
    requires 0 !in x && 0 !in y
    ensures a == b && x == y
  {
    var s := a + [0] + x;
    assert s[|a|] == 0 && s[|b|] == 0;
    assert forall i | |a| < i < |s| :: s[i] == x[i - |a| - 1];
    assert forall i | |b| < i < |s| :: s[i] == y[i - |b| - 1];
    assert |a| == |b|;
    assert a == s[..|a|] == b;
    assert x == s[|a| + 1..] == y;
  }

  /** A key stands for one image reference and one set of credentials. */
  lemma KeyIsInjective(c: Codec, a: Bytes, x: AuthMap, b: Bytes, y: AuthMap)
    requires c.Sound()
    requires Key(c, a, x) == Key(c, b, y)
    ensures a == b && x == y
  {
    FramingIsInjective(a, c.encode(x), b, c.encode(y));
  }

  // ---------- When a key stands for one auth file ----------

  ghost function SourceOf(c: Codec, auths: AuthMap, reference: Bytes, h: string): (r: string)
    requires exists r | r in auths :: Target(c, r, reference) == Some(h)
    ensures r in auths && Target(c, r, reference) == Some(h)
  {
    var r :| r in auths && Target(c, r, reference) == Some(h);
    r
  }

  /** There is an expansion in which the glob `g` is the one that provides for its target. */
  lemma SomeExpansion(c: Codec, auths: AuthMap, reference: Bytes, g: string) returns (expanded: AuthMap)
    requires auths != map[] ==> g in auths
    ensures IsExpansion(c, auths, reference, expanded)
    ensures g in auths && Target(c, g, reference).Some? && Target(c, g, reference).value !in auths ==>
              expanded[Target(c, g, reference).value] == auths[g]
  {
    var hosts := set r | r in auths && Target(c, r, reference).Some? :: Target(c, r, reference).value;
    var added := map h | h in hosts :: auths[SourceOf(c, auths, reference, h)];
    if g in auths && Target(c, g, reference).Some? {
      added := added[Target(c, g, reference).value := auths[g]];
    }
    expanded := added + auths;
  }

  /** A matching glob whose target is missing, or listed with the glob's own credentials. */
  predicate Loose(c: Codec, auths: AuthMap, reference: Bytes, g: string) {
    && g in auths && Target(c, g, reference).Some? && Target(c, g, reference).value != g
    && (Target(c, g, reference).value in auths ==> auths[Target(c, g, reference).value] == auths[g])
  }

  /** Every matching glob is backed by an entry for its target with other credentials, or is its own
      target: nothing in the expansion can have come from a glob. */
  predicate Settled(c: Codec, auths: AuthMap, reference: Bytes) {
    forall g | g in auths :: !Loose(c, auths, reference, g)
  }

  lemma SettledIsAlone(c: Codec, mine: AuthMap, theirs: AuthMap, reference: Bytes, expanded: AuthMap)
    requires Settled(c, mine, reference)
    requires IsExpansion(c, mine, reference, expanded) && IsExpansion(c, theirs, reference, expanded)
    ensures mine == theirs && expanded == mine
  {
    assert forall h | h in expanded :: h in mine;
    assert forall h | h in mine :: h in theirs;
  }

  /** Whatever the global secret is and whoever filled the entry: an auth file they could have used
      is one this request could use. */
  ghost predicate KeyIsSafe(c: Codec, mine: AuthMap, reference: Bytes) {
    forall theirs: AuthMap, expanded: AuthMap, global: AuthMap, authFile: AuthMap ::
      (&& IsExpansion(c, mine, reference, expanded)
       && IsExpansion(c, theirs, reference, expanded)
       && IsExpansion(c, global + theirs, reference, authFile)) ==>
        IsExpansion(c, global + mine, reference, authFile)
  }

  /** The credentials with the target of the glob toggled: spelled out, or left to the glob. */
  function Twin(c: Codec, auths: AuthMap, reference: Bytes, g: string): AuthMap
    requires Loose(c, auths, reference, g)
  {
    var h := Target(c, g, reference).value;
    if h in auths then auths - {h} else auths[h := auths[g]]
  }

  lemma TwinExpandsAlike(c: Codec, mine: AuthMap, reference: Bytes, g: string, expanded: AuthMap)
    requires c.Sound() && Loose(c, mine, reference, g)
    requires IsExpansion(c, mine, reference, expanded) && expanded[Target(c, g, reference).value] == mine[g]
    ensures IsExpansion(c, Twin(c, mine, reference, g), reference, expanded)
  {
    var h, theirs := Target(c, g, reference).value, Twin(c, mine, reference, g);
    assert Target(c, h, reference) == None || Target(c, h, reference) == Some(h);
    forall x | x in expanded && x !in theirs
      ensures exists r | r in theirs :: Target(c, r, reference) == Some(x) && expanded[x] == theirs[r]
    {
      if x == h {
        assert g in theirs && theirs[g] == mine[g];
      } else {
        var r :| r in mine && Target(c, r, reference) == Some(x) && expanded[x] == mine[r];
        assert r in theirs && theirs[r] == mine[r];
      }
    }
  }

  /** For a global secret that names the target, the twins' auth files have different credentials. */
  lemma TwinsDiffer(c: Codec, mine: AuthMap, reference: Bytes, g: string, global: AuthMap, authFile: AuthMap)
    requires Loose(c, mine, reference, g)
    requires global == map[Target(c, g, reference).value := mine[g] + "-"]
    requires IsExpansion(c, global + Twin(c, mine, reference, g), reference, authFile)
    ensures !IsExpansion(c, global + mine, reference, authFile)
  {
    var h, theirs := Target(c, g, reference).value, Twin(c, mine, reference, g);
    assert h in global + theirs && h in global + mine;
    assert (global + theirs)[h] != (global + mine)[h];
  }

  lemma LooseIsUnsafe(c: Codec, mine: AuthMap, reference: Bytes, g: string)
    requires c.Sound() && Loose(c, mine, reference, g)
    ensures !KeyIsSafe(c, mine, reference)
  {
    var expanded := SomeExpansion(c, mine, reference, g);
    TwinExpandsAlike(c, mine, reference, g, expanded);
    var global: AuthMap := map[Target(c, g, reference).value := mine[g] + "-"];
    var authFile := SomeExpansion(c, global + Twin(c, mine, reference, g), reference, g);
    TwinsDiffer(c, mine, reference, g, global, authFile);
  }

  /** The cache key, made of the pod's credentials alone, stands for one auth file exactly when every
      matching glob among them is backed by an entry of its own. */
  lemma KeyIsSafeIff(c: Codec, mine: AuthMap, reference: Bytes)
    requires c.Sound()
    ensures KeyIsSafe(c, mine, reference) <==> Settled(c, mine, reference)
  {
    if Settled(c, mine, reference) {
      forall theirs: AuthMap, expanded: AuthMap, global: AuthMap, authFile: AuthMap |
        IsExpansion(c, mine, reference, expanded) && IsExpansion(c, theirs, reference, expanded)
        && IsExpansion(c, global + theirs, reference, authFile)
        ensures IsExpansion(c, global + mine, reference, authFile)
      {
        SettledIsAlone(c, mine, theirs, reference, expanded);
      }
    } else {
      var g :| Loose(c, mine, reference, g);
      LooseIsUnsafe(c, mine, reference, g);
    }
  }

  // ---------- The cache object: every call runs to its end ----------

  /** An answer the registry inspector gave: for which image, with which auth file. */
  datatype Answer = Answer(reference: Bytes, authFile: AuthMap, architectures: set<string>)

  /** A cached answer, with the pod secrets it was obtained for. */
  datatype Entry = Entry(podAuths: AuthMap, secrets: seq<Bytes>, answer: Answer)

  /** The entry sits under its own key and is what the inspector would be asked with `global`. */
  ghost predicate Current(c: Codec, global: Bytes, key: string, e: Entry) {
    && key == Key(c, e.answer.reference, e.podAuths)
    && IsExpansion(c, Merged(c, map[], e.secrets), e.answer.reference, e.podAuths)
    && IsExpansion(c, Merged(c, map[], [global] + e.secrets), e.answer.reference, e.answer.authFile)
  }

  /** What a hit is worth: it is an answer for this image, with an auth file this request could use. */
  lemma HitIsRight(c: Codec, global: Bytes, key: string, e: Entry, reference: Bytes, secrets: seq<Bytes>, podAuths: AuthMap)
    requires c.Sound() && Current(c, global, key, e)
    requires IsExpansion(c, Merged(c, map[], secrets), reference, podAuths)
    requires key == Key(c, reference, podAuths)
    requires Settled(c, Merged(c, map[], secrets), reference)
    ensures e.answer.reference == reference
    ensures IsExpansion(c, Merged(c, map[], [global] + secrets), reference, e.answer.authFile)
  {
    KeyIsInjective(c, reference, podAuths, e.answer.reference, e.podAuths);
    SettledIsAlone(c, Merged(c, map[], secrets), Merged(c, map[], e.secrets), reference, podAuths);
    GlobalFirst(c, global, secrets);
    GlobalFirst(c, global, e.secrets);
  }

  class CacheProxy {
    const codec: Codec
    var globalPullSecret: Bytes
    var cache: map<string, Entry>
    /** Every answer the inspector ever gave. */
    ghost var given: set<Answer>

    ghost predicate Valid()
      reads this
    {
      && codec.Sound()
      && forall k | k in cache :: Current(codec, globalPullSecret, k, cache[k]) && cache[k].answer in given
    }

    constructor (codec: Codec)
      requires codec.Sound()
      ensures Valid() && cache == map[] && globalPullSecret == [] && given == {} && this.codec == codec
    {
      this.codec := codec;
      globalPullSecret := [];
      cache := map[];
      given := {};
    }

    /** The registry said so, asked with the pod's secrets merged over the global one. */
    ghost predicate Asked(reference: Bytes, secrets: seq<Bytes>, registry: (Bytes, AuthMap) -> Option<set<string>>,
                          architectures: Option<set<string>>)
      reads this`globalPullSecret
    {
      exists authFile ::
        && IsExpansion(codec, Merged(codec, map[], [globalPullSecret] + secrets), reference, authFile)
        && registry(reference, authFile) == architectures
    }

    /** The inspector: merge the global secret under the pod's, then ask the registry. */
    method Inspect(reference: Bytes, secrets: seq<Bytes>, registry: (Bytes, AuthMap) -> Option<set<string>>)
      returns (r: Option<Answer>)
      modifies this`given
      ensures r.Some? ==>
                && r.value.reference == reference
                && IsExpansion(codec, Merged(codec, map[], [globalPullSecret] + secrets), reference, r.value.authFile)
                && registry(reference, r.value.authFile) == Some(r.value.architectures)
      ensures r.None? ==> Asked(reference, secrets, registry, None)
      ensures given == old(given) + if r.Some? then {r.value} else {}
    {
      var authFile := MergeSecrets(codec, reference, [globalPullSecret] + secrets);
      var architectures := registry(reference, authFile);
      if architectures.None? {
        return None;
      }
      r := Some(Answer(reference, authFile, architectures.value));
      given := given + {r.value};
    }

    /** A hit, like a miss, returns what the inspector answered for this image with an auth file
        that the current global secret and these pod secrets make. A hit asks nobody; a miss asks the
        registry and, unless told to skip the cache, remembers the answer. */
    method GetCompatibleArchitecturesSet(reference: Bytes, skipCache: bool, secrets: seq<Bytes>,
                                         registry: (Bytes, AuthMap) -> Option<set<string>>)
      returns (architectures: Option<set<string>>, ghost podAuths: AuthMap)
      requires Valid()
      modifies this`cache, this`given
      ensures Valid() && given >= old(given)
      ensures IsExpansion(codec, Merged(codec, map[], secrets), reference, podAuths)
      ensures architectures.Some? && (skipCache || Settled(codec, Merged(codec, map[], secrets), reference)) ==>
                exists authFile ::
                  && IsExpansion(codec, Merged(codec, map[], [globalPullSecret] + secrets), reference, authFile)
                  && Answer(reference, authFile, architectures.value) in given
      ensures var key := Key(codec, reference, podAuths);
              if !skipCache && key in old(cache) then
                given == old(given) && cache == old(cache) && architectures == Some(cache[key].answer.architectures)
              else
                && Asked(reference, secrets, registry, architectures)
                && if skipCache || architectures.None? then cache == old(cache)
                   else key in cache && cache == old(cache)[key := cache[key]] && Some(cache[key].answer.architectures) == architectures
    {
      var auths := MergeSecrets(codec, reference, secrets);
      var key := Key(codec, reference, auths);
      podAuths := auths;
      if key in cache && !skipCache {
        if Settled(codec, Merged(codec, map[], secrets), reference) {
          HitIsRight(codec, globalPullSecret, key, cache[key], reference, secrets, podAuths);
        }
        architectures := Some(cache[key].answer.architectures);
        return;
      }
      var answer := Inspect(reference, secrets, registry);
      if answer.None? {
        architectures := None;
        return;
      }
      assert Answer(reference, answer.value.authFile, answer.value.architectures) == answer.value;
      if !skipCache {
        cache := cache[key := Entry(auths, secrets, answer.value)];
      }
      architectures := Some(answer.value.architectures);
    }

    /** Expiry and eviction. */
    method Drop(keys: set<string>)
      requires Valid()
      modifies this`cache
      ensures Valid() && cache == old(cache) - keys
    {
      cache := cache - keys;
    }

    /** The facade: store the secret, then purge what was obtained with the previous one. */
    method StoreGlobalPullSecret(pullSecret: Bytes)
      requires Valid()
      modifies this`globalPullSecret, this`cache
      ensures Valid() && globalPullSecret == pullSecret && cache == map[]
    {
      globalPullSecret := pullSecret;
      cache := map[];
    }
  }
}
