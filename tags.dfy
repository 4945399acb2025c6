/**
 * The `task_type` discriminant: the fourteen task kinds of a Linux or Windows
 * build, the two spellings each one accepts, and the decoding of a tag into a
 * kind. `ContainerType` follows the same name-or-alias scheme.
 */
module Tags {
  import opened Wrappers

  /** The task kinds, in declaration order. */
  datatype Kind =
    | Coverage
    | DotnetCoverage
    | DotnetCrashReport
    | LibFuzzerDotnetFuzz
    | LibFuzzerFuzz
    | LibFuzzerReport
    | LibFuzzerMerge
    | LibFuzzerRegression
    | GenericAnalysis
    | GenericGenerator
    | GenericSupervisor
    | GenericMerge
    | GenericReport
    | GenericRegression

  /** The Rust variant name, accepted verbatim as a tag. */
  function VariantName(k: Kind): string {
    match k
    case Coverage => "Coverage"
    case DotnetCoverage => "DotnetCoverage"
    case DotnetCrashReport => "DotnetCrashReport"
    case LibFuzzerDotnetFuzz => "LibFuzzerDotnetFuzz"
    case LibFuzzerFuzz => "LibFuzzerFuzz"
    case LibFuzzerReport => "LibFuzzerReport"
    case LibFuzzerMerge => "LibFuzzerMerge"
    case LibFuzzerRegression => "LibFuzzerRegression"
    case GenericAnalysis => "GenericAnalysis"
    case GenericGenerator => "GenericGenerator"
    case GenericSupervisor => "GenericSupervisor"
    case GenericMerge => "GenericMerge"
    case GenericReport => "GenericReport"
    case GenericRegression => "GenericRegression"
  }

  /** The one declared alias of each kind. */
  function Alias(k: Kind): string {
    match k
    case Coverage => "coverage"
    case DotnetCoverage => "dotnet_coverage"
    case DotnetCrashReport => "dotnet_crash_report"
    case LibFuzzerDotnetFuzz => "libfuzzer_dotnet_fuzz"
    case LibFuzzerFuzz => "libfuzzer_fuzz"
    case LibFuzzerReport => "libfuzzer_crash_report"
    case LibFuzzerMerge => "libfuzzer_merge"
    case LibFuzzerRegression => "libfuzzer_regression"
    case GenericAnalysis => "generic_analysis"
    case GenericGenerator => "generic_generator"
    case GenericSupervisor => "generic_supervisor"
    case GenericMerge => "generic_merge"
    case GenericReport => "generic_crash_report"
    case GenericRegression => "generic_regression"
  }

  /** `tag` is one of the two spellings of `k` (matched case-sensitively). */
  predicate Names(k: Kind, tag: string) {
    tag == VariantName(k) || tag == Alias(k)
  }

  /**
   * Decoding of the discriminant, a case-sensitive match of the tag against
   * each variant name and alias: a tag yields only a kind it spells, and a
   * string that spells no kind yields nothing. `DecodeTagExactly` below
   * closes the rule: every spelling of `k` yields `k`.
   */
  function DecodeTag(tag: string): (r: Option<Kind>)
    ensures r.Some? ==> Names(r.value, tag)
    ensures r.None? ==> forall k :: !Names(k, tag)
  {
    match tag
    case "Coverage" => Some(Coverage)
    case "coverage" => Some(Coverage)
    case "DotnetCoverage" => Some(DotnetCoverage)
    case "dotnet_coverage" => Some(DotnetCoverage)
    case "DotnetCrashReport" => Some(DotnetCrashReport)
    case "dotnet_crash_report" => Some(DotnetCrashReport)
    case "LibFuzzerDotnetFuzz" => Some(LibFuzzerDotnetFuzz)
    case "libfuzzer_dotnet_fuzz" => Some(LibFuzzerDotnetFuzz)
    case "LibFuzzerFuzz" => Some(LibFuzzerFuzz)
    case "libfuzzer_fuzz" => Some(LibFuzzerFuzz)
    case "LibFuzzerReport" => Some(LibFuzzerReport)
    case "libfuzzer_crash_report" => Some(LibFuzzerReport)
    case "LibFuzzerMerge" => Some(LibFuzzerMerge)
    case "libfuzzer_merge" => Some(LibFuzzerMerge)
    case "LibFuzzerRegression" => Some(LibFuzzerRegression)
    case "libfuzzer_regression" => Some(LibFuzzerRegression)
    case "GenericAnalysis" => Some(GenericAnalysis)
    case "generic_analysis" => Some(GenericAnalysis)
    case "GenericGenerator" => Some(GenericGenerator)
    case "generic_generator" => Some(GenericGenerator)
    case "GenericSupervisor" => Some(GenericSupervisor)
    case "generic_supervisor" => Some(GenericSupervisor)
    case "GenericMerge" => Some(GenericMerge)
    case "generic_merge" => Some(GenericMerge)
    case "GenericReport" => Some(GenericReport)
    case "generic_crash_report" => Some(GenericReport)
    case "GenericRegression" => Some(GenericRegression)
    case "generic_regression" => Some(GenericRegression)
    case _ => None
  }

  /** The six kinds whose variant name starts with `Generic`. */
  predicate IsGeneric(k: Kind) {
    k.GenericAnalysis? || k.GenericGenerator? || k.GenericSupervisor? || k.GenericMerge? || k.GenericReport? || k.GenericRegression?
  }

  // The four lemmas below evaluate the decoding on every spelling; they are
  // split by kind group and by spelling so that each proof stays small.

  lemma GenericNamesDecode(k: Kind)
    requires IsGeneric(k)
    ensures DecodeTag(VariantName(k)) == Some(k)
  {
    match k
    case GenericAnalysis =>
    case GenericGenerator =>
    case GenericSupervisor =>
    case GenericMerge =>
    case GenericReport =>
    case GenericRegression =>
  }

  lemma GenericAliasesDecode(k: Kind)
    requires IsGeneric(k)
    ensures DecodeTag(Alias(k)) == Some(k)
  {
    match k
    case GenericAnalysis =>
    case GenericGenerator =>
    case GenericSupervisor =>
    case GenericMerge =>
    case GenericReport =>
    case GenericRegression =>
  }

  lemma OtherNamesDecode(k: Kind)
    requires !IsGeneric(k)
    ensures DecodeTag(VariantName(k)) == Some(k)
  {
    match k
    case Coverage =>
    case DotnetCoverage =>
    case DotnetCrashReport =>
    case LibFuzzerDotnetFuzz =>
    case LibFuzzerFuzz =>
    case LibFuzzerReport =>
    case LibFuzzerMerge =>
    case LibFuzzerRegression =>
  }

  lemma OtherAliasesDecode(k: Kind)
    requires !IsGeneric(k)
    ensures DecodeTag(Alias(k)) == Some(k)
  {
    match k
    case Coverage =>
    case DotnetCoverage =>
    case DotnetCrashReport =>
    case LibFuzzerDotnetFuzz =>
    case LibFuzzerFuzz =>
    case LibFuzzerReport =>
    case LibFuzzerMerge =>
    case LibFuzzerRegression =>
  }

  /** Both spellings of every kind decode back to that kind. */
  lemma SpellingsDecode(k: Kind)
    ensures DecodeTag(VariantName(k)) == Some(k)
    ensures DecodeTag(Alias(k)) == Some(k)
  {
    if IsGeneric(k) {
      GenericNamesDecode(k);
      GenericAliasesDecode(k);
    } else {
      OtherNamesDecode(k);
      OtherAliasesDecode(k);
    }
  }

  /**
   * The discriminant rule: a tag decodes to `k` exactly when it is one of
   * `k`'s two spellings; in particular no string names two kinds.
   */
  lemma DecodeTagExactly(tag: string, k: Kind)
    ensures DecodeTag(tag) == Some(k) <==> Names(k, tag)
  {
    if Names(k, tag) {
      SpellingsDecode(k);
    }
  }

  /** No string names two kinds: the 28 accepted spellings are pairwise distinct. */
  lemma SpellingsUnambiguous(k1: Kind, k2: Kind, tag: string)
    requires Names(k1, tag) && Names(k2, tag)
    ensures k1 == k2
  {
    DecodeTagExactly(tag, k1);
    DecodeTagExactly(tag, k2);
  }

  /** Matching is case-sensitive: an upper-cased alias is rejected. */
  lemma CaseSensitive()
    ensures DecodeTag("GenericAnalysis") == Some(GenericAnalysis)
    ensures DecodeTag("generic_analysis") == Some(GenericAnalysis)
    ensures DecodeTag("GENERIC_ANALYSIS") == None
    ensures DecodeTag("genericanalysis") == None
  {
  }

  /** The kind of a container; only `Inputs` exists. */
  datatype ContainerType = Inputs

  /** Decoding of a container type: `"Inputs"` or its alias `"inputs"`, nothing else. */
  function DecodeContainerType(s: string): (r: Option<ContainerType>)
    ensures r == Some(Inputs) <==> s == "Inputs" || s == "inputs"
    ensures r.None? <==> s != "Inputs" && s != "inputs"
  {
    match s
    case "Inputs" => Some(Inputs)
    case "inputs" => Some(Inputs)
    case _ => None
  }
}
