/**
 * The task configuration: a closed union of fourteen variants, each carrying
 * one `CommonConfig`; its decoding from a parsed document, the loader that
 * overrides `setup_dir`, the uniform access to the envelope, and the start
 * event each variant reports.
 */
module TaskConfig {
  import opened Wrappers
  import opened Envelope
  import opened Telemetry
  import Tags

  /**
   * The payload of a variant whose kind-specific fields this core never reads:
   * only its envelope is modelled.
   */
  datatype TaskPayload = TaskPayload(common: CommonConfig)

  /** The analysis payload: the envelope and the analysis tool it runs. */
  datatype AnalysisPayload = AnalysisPayload(common: CommonConfig, analyzerExe: string)

  /** The generator payload: the envelope and the input generator it runs. */
  datatype GeneratorPayload = GeneratorPayload(common: CommonConfig, generatorExe: string)

  datatype Config =
    | Coverage(payload: TaskPayload)
    | DotnetCoverage(payload: TaskPayload)
    | DotnetCrashReport(payload: TaskPayload)
    | LibFuzzerDotnetFuzz(payload: TaskPayload)
    | LibFuzzerFuzz(payload: TaskPayload)
    | LibFuzzerReport(payload: TaskPayload)
    | LibFuzzerMerge(payload: TaskPayload)
    | LibFuzzerRegression(payload: TaskPayload)
    | GenericAnalysis(analysis: AnalysisPayload)
    | GenericGenerator(generator: GeneratorPayload)
    | GenericSupervisor(payload: TaskPayload)
    | GenericMerge(payload: TaskPayload)
    | GenericReport(payload: TaskPayload)
    | GenericRegression(payload: TaskPayload)

  /** The kind a configuration belongs to. */
  function KindOf(c: Config): Tags.Kind {
    match c
    case Coverage(_) => Tags.Coverage
    case DotnetCoverage(_) => Tags.DotnetCoverage
    case DotnetCrashReport(_) => Tags.DotnetCrashReport
    case LibFuzzerDotnetFuzz(_) => Tags.LibFuzzerDotnetFuzz
    case LibFuzzerFuzz(_) => Tags.LibFuzzerFuzz
    case LibFuzzerReport(_) => Tags.LibFuzzerReport
    case LibFuzzerMerge(_) => Tags.LibFuzzerMerge
    case LibFuzzerRegression(_) => Tags.LibFuzzerRegression
    case GenericAnalysis(_) => Tags.GenericAnalysis
    case GenericGenerator(_) => Tags.GenericGenerator
    case GenericSupervisor(_) => Tags.GenericSupervisor
    case GenericMerge(_) => Tags.GenericMerge
    case GenericReport(_) => Tags.GenericReport
    case GenericRegression(_) => Tags.GenericRegression
  }

  /** `common`: the envelope of whichever variant `c` is. */
  function CommonOf(c: Config): CommonConfig {
    match c
    case Coverage(p) => p.common
    case DotnetCoverage(p) => p.common
    case DotnetCrashReport(p) => p.common
    case LibFuzzerDotnetFuzz(p) => p.common
    case LibFuzzerFuzz(p) => p.common
    case LibFuzzerMerge(p) => p.common
    case LibFuzzerReport(p) => p.common
    case LibFuzzerRegression(p) => p.common
    case GenericAnalysis(p) => p.common
    case GenericMerge(p) => p.common
    case GenericReport(p) => p.common
    case GenericSupervisor(p) => p.common
    case GenericGenerator(p) => p.common
    case GenericRegression(p) => p.common
  }

  /** The external tool a configuration names: only analysis and generator tasks have one. */
  function ToolExe(c: Config): Option<string> {
    match c
    case GenericAnalysis(p) => Some(p.analyzerExe)
    case GenericGenerator(p) => Some(p.generatorExe)
    case _ => None
  }

  /**
   * A write through `common_mut`: `c` with its envelope replaced by `common`.
   * The envelope it reaches is the one `CommonOf` reads, and the variant and
   * the kind-specific fields stay as they were.
   */
  function WithCommon(c: Config, common: CommonConfig): (r: Config)
    ensures CommonOf(r) == common
    ensures KindOf(r) == KindOf(c)
    ensures ToolExe(r) == ToolExe(c)
  {
    match c
    case Coverage(p) => Coverage(p.(common := common))
    case DotnetCoverage(p) => DotnetCoverage(p.(common := common))
    case DotnetCrashReport(p) => DotnetCrashReport(p.(common := common))
    case LibFuzzerDotnetFuzz(p) => LibFuzzerDotnetFuzz(p.(common := common))
    case LibFuzzerFuzz(p) => LibFuzzerFuzz(p.(common := common))
    case LibFuzzerMerge(p) => LibFuzzerMerge(p.(common := common))
    case LibFuzzerReport(p) => LibFuzzerReport(p.(common := common))
    case LibFuzzerRegression(p) => LibFuzzerRegression(p.(common := common))
    case GenericAnalysis(p) => GenericAnalysis(p.(common := common))
    case GenericMerge(p) => GenericMerge(p.(common := common))
    case GenericReport(p) => GenericReport(p.(common := common))
    case GenericSupervisor(p) => GenericSupervisor(p.(common := common))
    case GenericGenerator(p) => GenericGenerator(p.(common := common))
    case GenericRegression(p) => GenericRegression(p.(common := common))
  }

  /** A configuration is determined by its kind, its envelope and its tool. */
  lemma {:induction false} ConfigDetermined(a: Config, b: Config)
    requires KindOf(a) == KindOf(b) && CommonOf(a) == CommonOf(b) && ToolExe(a) == ToolExe(b)
    ensures a == b
  {
  }

  /** Writing back the envelope just read changes nothing. */
  lemma WithOwnCommon(c: Config)
    ensures WithCommon(c, CommonOf(c)) == c
  {
    ConfigDetermined(WithCommon(c, CommonOf(c)), c);
  }

  /** Of two writes through `common_mut`, the later one wins. */
  lemma WithCommonTwice(c: Config, first: CommonConfig, second: CommonConfig)
    ensures WithCommon(WithCommon(c, first), second) == WithCommon(c, second)
  {
    ConfigDetermined(WithCommon(WithCommon(c, first), second), WithCommon(c, second));
  }

  /**
   * The variant of kind `k` holding `common`; the tool paths are used only by
   * the analysis and generator variants.
   */
  function Assemble(k: Tags.Kind, common: CommonConfig, analyzerExe: string, generatorExe: string): (r: Config)
    ensures KindOf(r) == k && CommonOf(r) == common
    ensures r.GenericAnalysis? ==> r.analysis.analyzerExe == analyzerExe
    ensures r.GenericGenerator? ==> r.generator.generatorExe == generatorExe
  {
    match k
    case Coverage => Coverage(TaskPayload(common))
    case DotnetCoverage => DotnetCoverage(TaskPayload(common))
    case DotnetCrashReport => DotnetCrashReport(TaskPayload(common))
    case LibFuzzerDotnetFuzz => LibFuzzerDotnetFuzz(TaskPayload(common))
    case LibFuzzerFuzz => LibFuzzerFuzz(TaskPayload(common))
    case LibFuzzerReport => LibFuzzerReport(TaskPayload(common))
    case LibFuzzerMerge => LibFuzzerMerge(TaskPayload(common))
    case LibFuzzerRegression => LibFuzzerRegression(TaskPayload(common))
    case GenericAnalysis => GenericAnalysis(AnalysisPayload(common, analyzerExe))
    case GenericGenerator => GenericGenerator(GeneratorPayload(common, generatorExe))
    case GenericSupervisor => GenericSupervisor(TaskPayload(common))
    case GenericMerge => GenericMerge(TaskPayload(common))
    case GenericReport => GenericReport(TaskPayload(common))
    case GenericRegression => GenericRegression(TaskPayload(common))
  }

  /**
   * A parsed configuration document: the `task_type` discriminant, the
   * envelope's fields, and the two tool fields. Absent fields are `None`;
   * any other field of the document is ignored.
   */
  datatype Document = Document(
    taskType: Option<string>,
    common: CommonFields,
    analyzerExe: Option<string>,
    generatorExe: Option<string>)

  /** What reading and parsing the file produced. */
  datatype FileRead = Unreadable | NotJson | Json(document: Document)

  /** The document can be decoded: a known tag, the required envelope fields, and the tool its kind needs. */
  predicate Decodable(doc: Document) {
    && doc.taskType.Some?
    && Tags.DecodeTag(doc.taskType.value).Some?
    && HasRequired(doc.common)
    && (Tags.DecodeTag(doc.taskType.value) == Some(Tags.GenericAnalysis) ==> doc.analyzerExe.Some?)
    && (Tags.DecodeTag(doc.taskType.value) == Some(Tags.GenericGenerator) ==> doc.generatorExe.Some?)
  }

  /**
   * Decoding of the tagged union: the tag selects the variant, the envelope
   * is decoded from the document, and the analysis and generator variants
   * take their tool from it. A missing or unknown tag is an error.
   */
  function Decode(doc: Document): (r: Result<Config, Error>)
    ensures doc.taskType.None? ==> r == Err(MissingTag)
    ensures doc.taskType.Some? && Tags.DecodeTag(doc.taskType.value).None? ==>
      r == Err(UnknownVariant(doc.taskType.value))
    ensures r.Ok? <==> Decodable(doc)
    ensures r.Ok? ==> Tags.Names(KindOf(r.value), doc.taskType.value)
    ensures r.Ok? ==> DecodeCommon(doc.common) == Ok(CommonOf(r.value))
    ensures r.Ok? && r.value.GenericAnalysis? ==> doc.analyzerExe == Some(r.value.analysis.analyzerExe)
    ensures r.Ok? && r.value.GenericGenerator? ==> doc.generatorExe == Some(r.value.generator.generatorExe)
  {
    match doc.taskType
    case None => Err(MissingTag)
    case Some(tag) =>
      match Tags.DecodeTag(tag)
      case None => Err(UnknownVariant(tag))
      case Some(k) =>
        match DecodeCommon(doc.common)
        case Err(e) => Err(e)
        case Ok(common) =>
          if k == Tags.GenericAnalysis && doc.analyzerExe.None? then Err(MissingField("analyzer_exe"))
          else if k == Tags.GenericGenerator && doc.generatorExe.None? then Err(MissingField("generator_exe"))
          else
            Ok(Assemble(k, common,
                        match doc.analyzerExe case Some(a) => a case None => "",
                        match doc.generatorExe case Some(g) => g case None => ""))
  }

  /**
   * A document carrying either spelling of a kind's tag, the required
   * envelope fields and the tool its kind needs decodes to that kind.
   */
  lemma DecodeSelectsNamedVariant(doc: Document, k: Tags.Kind)
    requires doc.taskType.Some? && Tags.Names(k, doc.taskType.value)
    requires HasRequired(doc.common)
    requires k == Tags.GenericAnalysis ==> doc.analyzerExe.Some?
    requires k == Tags.GenericGenerator ==> doc.generatorExe.Some?
    ensures Decode(doc).Ok? && KindOf(Decode(doc).value) == k
  {
    Tags.DecodeTagExactly(doc.taskType.value, k);
    assert Decodable(doc);
    Tags.SpellingsUnambiguous(KindOf(Decode(doc).value), k, doc.taskType.value);
  }

  /**
   * `from_file`: decode the document, then override its `setup_dir` with the
   * caller's. The loaded configuration has the caller's `setup_dir` whatever
   * the document held (or lacked), and agrees with the decoded one in
   * everything else.
   */
  method FromFile(file: FileRead, setupDir: Path) returns (r: Result<Config, Error>)
    ensures file.Unreadable? ==> r == Err(IoError)
    ensures file.NotJson? ==> r == Err(JsonSyntax)
    ensures file.Json? ==> (r.Ok? <==> Decodable(file.document))
    ensures file.Json? && r.Err? ==> r == Decode(file.document)
    ensures r.Ok? ==> file.Json? && CommonOf(r.value).setupDir == setupDir
    ensures r.Ok? ==>
      var parsed := Decode(file.document).value;
      && KindOf(r.value) == KindOf(parsed)
      && ToolExe(r.value) == ToolExe(parsed)
      && CommonOf(r.value) == CommonOf(parsed).(setupDir := setupDir)
  {
    match file {
      case Unreadable =>
        return Err(IoError);
      case NotJson =>
        return Err(JsonSyntax);
      case Json(document) =>
        var parsed := Decode(document);
        if parsed.Err? {
          return Err(parsed.error);
        }
        var config := parsed.value;
        config := WithCommon(config, CommonOf(config).(setupDir := setupDir));
        return Ok(config);
    }
  }

  /** The event type string each variant reports at start. */
  function EventType(c: Config): string {
    match c
    case Coverage(_) => "coverage"
    case DotnetCoverage(_) => "dotnet_coverage"
    case DotnetCrashReport(_) => "dotnet_crash_report"
    case LibFuzzerDotnetFuzz(_) => "libfuzzer_fuzz"
    case LibFuzzerFuzz(_) => "libfuzzer_fuzz"
    case LibFuzzerMerge(_) => "libfuzzer_merge"
    case LibFuzzerReport(_) => "libfuzzer_crash_report"
    case LibFuzzerRegression(_) => "libfuzzer_regression"
    case GenericAnalysis(_) => "generic_analysis"
    case GenericMerge(_) => "generic_merge"
    case GenericReport(_) => "generic_crash_report"
    case GenericSupervisor(_) => "generic_supervisor"
    case GenericGenerator(_) => "generic_generator"
    case GenericRegression(_) => "generic_regression"
  }

  /**
   * The event type is the kind's alias, except that a .NET libFuzzer fuzzing
   * task reports the alias of the plain libFuzzer fuzzing task.
   */
  lemma EventTypeIsAlias(c: Config)
    ensures EventType(c) == Tags.Alias(if c.LibFuzzerDotnetFuzz? then Tags.LibFuzzerFuzz else KindOf(c))
  {
  }

  /**
   * Read back as a tag, the event type names the variant that reported it for
   * every variant but `LibFuzzerDotnetFuzz`, which it reports as `LibFuzzerFuzz`.
   */
  lemma EventTypeDecodes(c: Config)
    ensures Tags.DecodeTag(EventType(c)) == Some(if c.LibFuzzerDotnetFuzz? then Tags.LibFuzzerFuzz else KindOf(c))
    ensures Tags.DecodeTag(EventType(c)) == Some(KindOf(c)) <==> !c.LibFuzzerDotnetFuzz?
  {
    EventTypeIsAlias(c);
    Tags.SpellingsDecode(if c.LibFuzzerDotnetFuzz? then Tags.LibFuzzerFuzz else KindOf(c));
  }

  /**
   * `report_event`: one `task_start` event whose first datum is the variant's
   * event type; the generator and analysis variants add the name of their
   * tool, and no other variant adds anything.
   */
  function ReportEvent(c: Config): (e: Event)
    ensures e.name == TaskStart
    ensures |e.data| > 0 && e.data[0] == Type(EventType(c))
    ensures c.GenericGenerator? ==> e.data[1..] == [ToolName(c.generator.generatorExe)]
    ensures c.GenericAnalysis? ==> e.data[1..] == [ToolName(c.analysis.analyzerExe)]
    ensures !c.GenericGenerator? && !c.GenericAnalysis? ==> |e.data| == 1
  {
    var eventType := EventType(c);
    match c
    case GenericGenerator(p) => Event(TaskStart, [Type(eventType), ToolName(p.generatorExe)])
    case GenericAnalysis(p) => Event(TaskStart, [Type(eventType), ToolName(p.analyzerExe)])
    case _ => Event(TaskStart, [Type(eventType)])
  }
}
