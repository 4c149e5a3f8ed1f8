/**
 `parseImageReference` of pkg/image/inspector.go: a reference with both a tag and a digest loses
 the tag, and nothing else changes.
 */
module ImageReference {

  datatype Result = Ok(reference: string) | EmptyName | DigestWithoutName | SeveralDigests

  /** The digest separator "@sha" occurs at position `i`. */
  predicate DigestAt(s: string, i: int) {
    0 <= i && i + 4 <= |s| && s[i] == '@' && s[i + 1] == 's' && s[i + 2] == 'h' && s[i + 3] == 'a'
  }

  predicate HasDigest(s: string) {
    exists i | 0 <= i < |s| :: DigestAt(s, i)
  }

  /** `strings.Index(s, "@sha")` from position `start` on. */
  function IndexFrom(s: string, start: nat): (r: int)
    requires start <= |s|
    ensures r == -1 || (start <= r < |s| && DigestAt(s, r))
    ensures forall i | start <= i < (if r == -1 then |s| else r) :: !DigestAt(s, i)
    decreases |s| - start
  {
    if start == |s| then -1 else if DigestAt(s, start) then start else IndexFrom(s, start + 1)
  }

  /** `strings.LastIndex(s, c)` for a one-character string. */
  function LastIndex(s: string, c: char): (r: int)
    ensures -1 <= r < |s|
    ensures r >= 0 ==> s[r] == c
    ensures forall i | r < i < |s| :: s[i] != c
  {
    if s == [] then -1 else if s[|s| - 1] == c then |s| - 1 else LastIndex(s[..|s| - 1], c)
  }

  function Parse(imageName: string): Result {
    if imageName == "" then EmptyName
    else
      var d := IndexFrom(imageName, 0);
      if d == -1 then Ok(imageName)
      else if d == 0 then DigestWithoutName
      else if HasDigest(imageName[d + 1..]) then SeveralDigests
      else
        var name, digest := imageName[..d], imageName[d..];
        var lastSlash, lastColon := LastIndex(name, '/'), LastIndex(name, ':');
        if lastColon == -1 then Ok(imageName)
        else if lastColon > lastSlash then Ok(name[..lastColon] + digest)
        else Ok(imageName)
  }

  // ---------- References by their parts ----------

  /** A single digest: it starts with the separator, which does not occur again. */
  predicate IsDigest(s: string) {
    DigestAt(s, 0) && !HasDigest(s[1..])
  }

  /** No colon follows the last slash: every colon belongs to a registry port. */
  predicate OnlyPorts(name: string) {
    LastIndex(name, ':') <= LastIndex(name, '/')
  }

  /** The separator cannot straddle the end of a prefix that is followed by '@' or ':'. */
  lemma NoStraddle(a: string, b: string, i: int)
    requires !HasDigest(a)
    requires b != "" && b[0] != 's' && b[0] != 'h' && b[0] != 'a'
    requires 0 <= i < |a|
    ensures !DigestAt(a + b, i)
  {
    var s := a + b;
    assert s[|a|] == b[0];
    assert !DigestAt(a, i);
    assert i + 4 <= |a| ==> s[i] == a[i] && s[i + 1] == a[i + 1] && s[i + 2] == a[i + 2] && s[i + 3] == a[i + 3];
  }

  lemma IndexOfDigest(prefix: string, digest: string)
    requires !HasDigest(prefix) && IsDigest(digest)
    ensures IndexFrom(prefix + digest, 0) == |prefix|
    ensures (prefix + digest)[..|prefix|] == prefix && (prefix + digest)[|prefix|..] == digest
    ensures (prefix + digest)[|prefix| + 1..] == digest[1..]
  {
    var s := prefix + digest;
    assert DigestAt(s, |prefix|);
    var d := IndexFrom(s, 0);
    if 0 <= d < |prefix| {
      NoStraddle(prefix, digest, d);
    }
  }

  lemma ParseSplit(s: string, d: int)
    requires s != "" && IndexFrom(s, 0) == d && d > 0 && !HasDigest(s[d + 1..])
    ensures Parse(s) == Ok(if OnlyPorts(s[..d]) then s else s[..d][..LastIndex(s[..d], ':')] + s[d..])
  {
  }

  /** With a single digest the tag goes, and only the tag. */
  lemma ParseWithDigest(prefix: string, digest: string)
    requires prefix != "" && !HasDigest(prefix) && IsDigest(digest)
    ensures Parse(prefix + digest) ==
            Ok(if OnlyPorts(prefix) then prefix + digest else prefix[..LastIndex(prefix, ':')] + digest)
  {
    IndexOfDigest(prefix, digest);
    ParseSplit(prefix + digest, |prefix|);
  }

  lemma NoDigestConcat(a: string, b: string)
    requires !HasDigest(a) && !HasDigest(b)
    requires b != "" && b[0] == ':'
    ensures !HasDigest(a + b)
  {
    forall i | 0 <= i < |a + b| ensures !DigestAt(a + b, i) {
      if i < |a| {
        NoStraddle(a, b, i);
      } else {
        assert !DigestAt(b, i - |a|);
        assert (a + b)[i..] == b[i - |a|..];
        DigestAtSuffix(a + b, i);
        DigestAtSuffix(b, i - |a|);
      }
    }
  }

  lemma DigestAtSuffix(s: string, i: nat)
    requires i <= |s|
    ensures DigestAt(s, i) <==> DigestAt(s[i..], 0)
  {
  }

  lemma ColonTagHasNoDigest(rest: string)
    requires rest != "" && rest[0] == ':' && !HasDigest(rest[1..])
    ensures !HasDigest(rest)
  {
    forall i | 0 < i < |rest| ensures !DigestAt(rest, i) {
      assert !DigestAt(rest[1..], i - 1);
      assert rest[1..][i - 1..] == rest[i..];
      DigestAtSuffix(rest, i);
      DigestAtSuffix(rest[1..], i - 1);
    }
  }

  lemma LastIndexOfTail(a: string, b: string, c: char)
    requires b != "" && forall i | 0 < i < |b| :: b[i] != c
    ensures b[0] == c ==> LastIndex(a + b, c) == |a|
    ensures b[0] != c ==> LastIndex(a + b, c) < |a|
  {
    var k := LastIndex(a + b, c);
    assert k >= |a| ==> (a + b)[k] == b[k - |a|];
    assert (a + b)[|a|] == b[0];
  }

  /** The last tag goes, whatever the name before it. */
  lemma OneTag(name: string, tag: string, digest: string)
    requires name != "" && !HasDigest(name) && '/' !in tag && ':' !in tag && !HasDigest(tag) && IsDigest(digest)
    ensures Parse(name + ":" + tag + digest) == Ok(name + digest)
    ensures !HasDigest(name + ":" + tag)
  {
    var rest := ":" + tag;
    assert rest[1..] == tag;
    assert forall i | 0 < i < |rest| :: rest[i] == tag[i - 1];
    ColonTagHasNoDigest(rest);
    NoDigestConcat(name, rest);
    LastIndexOfTail(name, rest, ':');
    LastIndexOfTail(name, rest, '/');
    assert name + ":" + tag == name + rest && (name + rest)[..|name|] == name;
    ParseWithDigest(name + rest, digest);
  }

  /** The documented normal form: for a name whose colons are all ports, an optional tag and an
      optional digest, the result is name and digest, or the input itself when there is no digest. */
  lemma Normalises(name: string, tag: string, digest: string)
    requires name != "" && OnlyPorts(name) && !HasDigest(name)
    requires '/' !in tag && ':' !in tag && !HasDigest(tag)
    requires IsDigest(digest)
    ensures Parse(name + ":" + tag + digest) == Ok(name + digest)
    ensures Parse(name + digest) == Ok(name + digest)
    ensures Parse(name + ":" + tag) == Ok(name + ":" + tag)
    ensures Parse(name) == Ok(name)
  {
    OneTag(name, tag, digest);
    ParseWithDigest(name, digest);
    NoDigestIsIdentity(name);
    NoDigestIsIdentity(name + ":" + tag);
  }

  lemma NoDigestIsIdentity(s: string)
    requires s != "" && !HasDigest(s)
    ensures Parse(s) == Ok(s)
  {
  }

  // ---------- All inputs ----------

  /** The part before the first digest separator. */
  function NamePart(s: string): string {
    var d := IndexFrom(s, 0);
    if d == -1 then s else s[..d]
  }

  predicate TwoDigests(s: string) {
    exists i, j | 0 <= i < j < |s| :: DigestAt(s, i) && DigestAt(s, j)
  }

  /** A second separator shows in what follows the first one. */
  lemma SecondDigest(s: string)
    requires IndexFrom(s, 0) >= 0
    ensures HasDigest(s[IndexFrom(s, 0) + 1..]) <==> TwoDigests(s)
  {
    var d := IndexFrom(s, 0);
    var rest := s[d + 1..];
    forall k | 0 <= k < |rest| ensures DigestAt(rest, k) <==> DigestAt(s, d + 1 + k) {
    }
    if HasDigest(rest) {
      var k :| 0 <= k < |rest| && DigestAt(rest, k);
      assert DigestAt(s, d) && DigestAt(s, d + 1 + k);
    }
    if i, j :| 0 <= i < j < |s| && DigestAt(s, i) && DigestAt(s, j) {
      assert d <= i;
      assert DigestAt(rest, j - d - 1);
    }
  }

  /** Exactly which inputs are rejected, and for which reason. */
  lemma Rejections(s: string)
    ensures Parse(s) == EmptyName <==> s == ""
    ensures Parse(s) == DigestWithoutName <==> DigestAt(s, 0)
    ensures Parse(s) == SeveralDigests <==> !DigestAt(s, 0) && TwoDigests(s)
  {
    var d := IndexFrom(s, 0);
    if d == -1 {
      assert !TwoDigests(s);
    } else if d == 0 {
      assert DigestAt(s, 0);
    } else {
      SecondDigest(s);
      assert !DigestAt(s, 0);
    }
  }

  lemma SplitAtDigest(s: string)
    requires IndexFrom(s, 0) > 0 && Parse(s).Ok?
    ensures var d := IndexFrom(s, 0);
            s == s[..d] + s[d..] && s[..d] != "" && !HasDigest(s[..d]) && IsDigest(s[d..])
  {
    var d := IndexFrom(s, 0);
    forall i | 0 <= i < d ensures !DigestAt(s[..d], i) {
      assert DigestAt(s[..d], i) ==> DigestAt(s, i);
    }
    assert s[d..][1..] == s[d + 1..];
  }

  /** Normalising twice is normalising once exactly when the input has no digest, or at most one
      colon of the name part is a tag separator and something precedes it. */
  lemma IdempotentIff(s: string)
    requires Parse(s).Ok?
    ensures Parse(Parse(s).reference) == Parse(s) <==>
            (|| !HasDigest(s)
             || OnlyPorts(NamePart(s))
             || (var name := NamePart(s)[..LastIndex(NamePart(s), ':')]; name != "" && OnlyPorts(name)))
  {
    var d := IndexFrom(s, 0);
    if d > 0 {
      SplitAtDigest(s);
      var name, digest := s[..d], s[d..];
      ParseWithDigest(name, digest);
      assert DigestAt(s, d);
      if !OnlyPorts(name) {
        var shorter := name[..LastIndex(name, ':')];
        forall i | 0 <= i < |shorter| ensures !DigestAt(shorter, i) {
          assert DigestAt(shorter, i) ==> DigestAt(name, i);
        }
        if shorter == "" {
          assert shorter + digest == digest;
        } else {
          ParseWithDigest(shorter, digest);
          if !OnlyPorts(shorter) {
            assert |shorter[..LastIndex(shorter, ':')] + digest| < |shorter + digest|;
          }
        }
      }
    }
  }

  /** Only the last of two tags goes: such a reference is not a fixpoint after one step. */
  lemma TwoTagsTakeTwoSteps(name: string, first: string, second: string, digest: string)
    requires name != "" && !HasDigest(name) && IsDigest(digest)
    requires '/' !in first && ':' !in first && !HasDigest(first)
    requires '/' !in second && ':' !in second && !HasDigest(second)
    ensures Parse(name + ":" + first + ":" + second + digest) == Ok(name + ":" + first + digest)
    ensures Parse(name + ":" + first + digest) == Ok(name + digest)
    ensures name + ":" + first + digest != name + digest
  {
    OneTag(name, first, digest);
    OneTag(name + ":" + first, second, digest);
    assert |name + ":" + first + digest| > |name + digest|;
  }

  /** A concrete input, "b:b:b@sha", that takes two steps. */
  lemma NotIdempotent() returns (s: string, once: string)
    ensures Parse(s) == Ok(once) && Parse(once) != Ok(once)
  {
    var tag, digest := "b", "@sha";
    assert '/' !in tag && ':' !in tag && !HasDigest(tag) && IsDigest(digest);
    s, once := tag + ":" + tag + ":" + tag + digest, tag + ":" + tag + digest;
    TwoTagsTakeTwoSteps(tag, tag, tag, digest);
  }

  // ---------- On plain texts ----------

  lemma NoAtNoDigest(s: string)
    requires '@' !in s
    ensures !HasDigest(s)
  {
  }

  lemma AtShaIsDigest(rest: string)
    requires '@' !in rest
    ensures IsDigest("@sha" + rest)
  {
    var s := "@sha" + rest;
    assert s[0] == '@' && s[1] == 's' && s[2] == 'h' && s[3] == 'a';
    assert s[1..] == "sha" + rest;
    assert forall i | 0 <= i < |s[1..]| :: s[1..][i] != '@';
  }

  /** A text with one "@sha" and a tag before it loses the tag. */
  lemma TaggedDigest(name: string, tag: string, rest: string)
    requires name != "" && '@' !in name && '@' !in tag && '@' !in rest && '/' !in tag && ':' !in tag
    ensures Parse(name + ":" + tag + ("@sha" + rest)) == Ok(name + ("@sha" + rest))
  {
    NoAtNoDigest(name);
    NoAtNoDigest(tag);
    AtShaIsDigest(rest);
    OneTag(name, tag, "@sha" + rest);
  }

  /** A text in which "@sha" does not occur stays as it is. */
  lemma WithoutSha(s: string)
    requires s != "" && forall i | 0 <= i < |s| :: !("@sha" <= s[i..])
    ensures Parse(s) == Ok(s)
  {
    assert forall i | 0 <= i < |s| :: DigestAt(s, i) ==> "@sha" <= s[i..];
    NoDigestIsIdentity(s);
  }
}
