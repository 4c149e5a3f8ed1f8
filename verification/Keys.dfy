/**
 The names the operator writes into pods: label keys, annotation keys, the scheduling gate and
 the node label it constrains. A key stands for its text; any other name is `Other`.
 */
module Keys {

  datatype Key =
    | Arch
    | NodeAffinity
    | PreferredNodeAffinity
    | AffinitySources
    | SchedulingGate
    | SingleArch
    | MultiArch
    | NoSupportedArch
    | FallbackArch
    | InspectionError
    | InspectionErrorCount
    | Master
    | ControlPlane
    | SupportedArch(arch: string)
    | Other(name: string)

  const LabelGroup := "multiarch.openshift.io"

  const SupportedArchitectures: set<string> := {"amd64", "arm64", "ppc64le", "s390x"}

  /** The text behind a key (pkg/utils/const.go). */
  function Text(k: Key): string {
    match k
    case Arch => "kubernetes.io/arch"
    case NodeAffinity => LabelGroup + "/node-affinity"
    case PreferredNodeAffinity => LabelGroup + "/preferred-node-affinity"
    case AffinitySources => LabelGroup + "/preferred-affinity-sources"
    case SchedulingGate => LabelGroup + "/scheduling-gate"
    case SingleArch => LabelGroup + "/single-arch"
    case MultiArch => LabelGroup + "/multi-arch"
    case NoSupportedArch => LabelGroup + "/no-supported-arch"
    case FallbackArch => LabelGroup + "/fallback-arch"
    case InspectionError => LabelGroup + "/image-inspect-error"
    case InspectionErrorCount => LabelGroup + "/image-inspect-error-count"
    case Master => "node-role.kubernetes.io/master"
    case ControlPlane => "node-role.kubernetes.io/control-plane"
    case SupportedArch(arch) => LabelGroup + "/" + arch
    case Other(name) => name
  }

  /** The operator's own keys; there is one per-architecture label for each supported architecture. */
  predicate Named(k: Key) {
    !k.Other? && (k.SupportedArch? ==> k.arch in SupportedArchitectures)
  }

  /** A key is canonical when no other key is the proper way to write its text. */
  ghost predicate Canonical(k: Key) {
    if k.Other? then forall named | Named(named) :: Text(named) != k.name else Named(k)
  }

  /** Length and 25th character, which already tell the operator's keys apart. */
  function Fingerprint(k: Key): (nat, char)
    requires Named(k)
  {
    match k
    case Arch => (18, ' ')
    case NodeAffinity => (36, 'o')
    case PreferredNodeAffinity => (46, 'r')
    case AffinitySources => (49, 'r')
    case SchedulingGate => (38, 'c')
    case SingleArch => (34, 'i')
    case MultiArch => (33, 'u')
    case NoSupportedArch => (40, 'o')
    case FallbackArch => (36, 'a')
    case InspectionError => (42, 'm')
    case InspectionErrorCount => (48, 'm')
    case Master => (30, 'm')
    case ControlPlane => (37, 'c')
    case SupportedArch(arch) =>
      if arch == "amd64" then (28, 'm')
      else if arch == "arm64" then (28, 'r')
      else if arch == "s390x" then (28, '3')
      else (30, 'p')
  }

  lemma FingerprintOfText(k: Key)
    requires Named(k)
    ensures |Text(k)| == Fingerprint(k).0
    ensures |Text(k)| > 24 ==> Text(k)[24] == Fingerprint(k).1
  {
  }

  /** Canonical keys and their texts are in one-to-one correspondence, so working with keys
      loses nothing over working with strings. */
  lemma TextIsInjective(a: Key, b: Key)
    requires Canonical(a) && Canonical(b)
    requires Text(a) == Text(b)
    ensures a == b
  {
    if Named(a) && Named(b) {
      FingerprintOfText(a);
      FingerprintOfText(b);
    }
  }
}
