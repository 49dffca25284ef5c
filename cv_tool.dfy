/**
 * The decisions the name finder's cross-validation command makes from its
 * options: which codec name it asks for, which evaluation listeners it
 * attaches and in what order, which report it prints, how failures become
 * exit results, and that the sample stream is closed once.
 */
module NameFinderCrossValidation {
  import opened Wrappers
  import JavaSplit

  const BioCodecClassName := "opennlp.tools.namefind.BioCodec"
  const BilouCodecClassName := "opennlp.tools.namefind.BilouCodec"
  const IoErrorPrefix := "IO error while reading training data or indexing data: "
  /** The status every failure of this tool terminates with. */
  const ErrorCode := -1

  /** `sequenceCodecImplName` after the alias table: "BIO" and "BILOU" name the built-in codecs. */
  function ResolveCodecName(name: Option<string>): (r: Option<string>)
    ensures name == Some("BIO") ==> r == Some(BioCodecClassName)
    ensures name == Some("BILOU") ==> r == Some(BilouCodecClassName)
    // every other name, `null` included, passes through
    ensures name != Some("BIO") && name != Some("BILOU") ==> r == name
    ensures r != Some("BIO") && r != Some("BILOU")
  {
    if name == Some("BIO") then Some(BioCodecClassName)
    else if name == Some("BILOU") then Some(BilouCodecClassName)
    else name
  }

  /** Resolving a resolved name changes nothing. */
  lemma ResolveCodecNameIdempotent(name: Option<string>)
    ensures ResolveCodecName(ResolveCodecName(name)) == ResolveCodecName(name)
  {
  }

  datatype Listener = NameEvaluationErrorListener | DetailedFMeasureListener

  function Count(listeners: seq<Listener>, l: Listener): nat
  {
    multiset(listeners)[l]
  }

  /** The listeners handed to the cross validator, in order. */
  function Listeners(misclassified: bool, detailedF: bool): (r: seq<Listener>)
    ensures |r| == (if misclassified then 1 else 0) + (if detailedF then 1 else 0)
    ensures Count(r, NameEvaluationErrorListener) == if misclassified then 1 else 0
    ensures Count(r, DetailedFMeasureListener) == if detailedF then 1 else 0
    // the error listener comes first
    ensures misclassified ==> r[0] == NameEvaluationErrorListener
  {
    (if misclassified then [NameEvaluationErrorListener] else []) +
    (if detailedF then [DetailedFMeasureListener] else [])
  }

  /** The samples the validator reads: the stream the command opened, maybe behind a name-type filter. */
  datatype SampleStream =
    | Opened(id: nat)
    | NameSampleTypeFilter(types: seq<string>, inner: SampleStream)

  /** Training parameters, as key/value pairs. */
  type TrainingParameters = map<string, string>

  /** The options of the command (the fields of `CVToolParams` that `run` reads). */
  datatype CVToolParams = CVToolParams(
    lang: string,
    entityType: Option<string>,
    folds: int,
    nameTypes: Option<string>,
    sequenceCodec: Option<string>,
    factory: Option<string>,
    misclassified: bool,
    detailedF: bool)

  /** How `evaluate` ended. */
  datatype Evaluation =
    | Evaluated
    | EvaluationIOError(message: Option<string>)   // IOException, with its message (maybe null)
    | EvaluationFailed(failure: string)            // any unchecked exception, such as a training failure

  /** What the code `run` calls but does not own did, in the order `run` calls it. */
  datatype Collaborators = Collaborators(
    loadedParameters: Option<TrainingParameters>,   // CmdLineUtil.loadTrainingParameters
    defaultParameters: TrainingParameters,          // ModelUtil.createDefaultTrainingParameters
    codecFailure: Option<string>,                   // instantiateSequenceCodec threw (unchecked)
    factoryFailure: Option<Option<string>>,         // TokenNameFinderFactory.create threw InvalidFormatException
    evaluation: Evaluation,
    closeFails: bool,                               // sampleStream.close() throws IOException
    fMeasureText: string,                           // validator.getFMeasure()
    detailedText: string)                           // detailedFListener.toString()

  /** What the validator was built with. */
  datatype Setup = Setup(
    lang: string,
    entityType: Option<string>,
    parameters: TrainingParameters,
    codec: Option<string>,
    factory: Option<string>,          // the factory class the name finder factory was created from
    listeners: seq<Listener>,
    samples: SampleStream,
    folds: int)

  datatype Report = PooledFMeasure(text: string) | DetailedFMeasure(text: string)

  datatype RunOutcome =
    | Completed(setup: Setup, report: Report)
    | Terminated(code: int, message: Option<string>)   // TerminateToolException
    | Propagated(exception: string)                      // an unchecked exception leaves run

  /** Java's string concatenation of a possibly `null` string. */
  function JavaText(s: Option<string>): string
  {
    if s.Some? then s.value else "null"
  }

  /** The name-type filter wraps the stream only when name types are given, split on commas. */
  function FilterByNameTypes(nameTypes: Option<string>, s: SampleStream): (r: SampleStream)
    ensures nameTypes.None? ==> r == s
    ensures nameTypes.Some? ==> r.NameSampleTypeFilter? && r.inner == s
    ensures nameTypes.Some? ==> r.types == JavaSplit.Split(nameTypes.value, ',')
    // the types are the comma-free pieces of the option, which they rebuild up to trailing commas
    ensures nameTypes.Some? ==> var joined := JavaSplit.Join(r.types, ',');
      |joined| <= |nameTypes.value| && nameTypes.value[..|joined|] == joined
    ensures nameTypes.Some? ==> forall i :: 0 <= i < |r.types| ==> ',' !in r.types[i]
  {
    if nameTypes.Some? then
      NameSampleTypeFilter(JavaSplit.Split(nameTypes.value, ','), s)
    else s
  }

  /** The report printed at the end: the detailed table when there is a detailed listener. */
  function ChooseReport(detailedListener: Option<Listener>, fMeasureText: string, detailedText: string): (r: Report)
    ensures r.DetailedFMeasure? <==> detailedListener.Some?
    ensures r.text == if detailedListener.Some? then detailedText else fMeasureText
  {
    if detailedListener.None? then PooledFMeasure(fMeasureText) else DetailedFMeasure(detailedText)
  }

  /** The state of the command once its base class has parsed the options and opened the samples. */
  class CrossValidatorTool {
    var params: CVToolParams
    var sampleStream: SampleStream
    var mlParams: Option<TrainingParameters>
    /** How many times `close` was called on the sample stream. */
    var closeCalls: nat

    constructor(params: CVToolParams, samples: SampleStream)
      ensures this.params == params && sampleStream == samples
      ensures mlParams == None && closeCalls == 0
    {
      this.params := params;
      sampleStream := samples;
      mlParams := None;
      closeCalls := 0;
    }

    method Run(env: Collaborators) returns (outcome: RunOutcome)
      modifies this
      ensures params == old(params)
      // parameters that cannot be loaded are replaced by the defaults
      ensures mlParams == Some(if env.loadedParameters.Some? then env.loadedParameters.value else env.defaultParameters)
      ensures sampleStream == FilterByNameTypes(params.nameTypes, old(sampleStream))
      // the stream is closed once exactly when the evaluation was started
      ensures closeCalls == old(closeCalls) + (if env.codecFailure.None? && env.factoryFailure.None? then 1 else 0)
      ensures env.codecFailure.Some? ==> outcome == Propagated(env.codecFailure.value)
      ensures env.codecFailure.None? && env.factoryFailure.Some? ==>
        outcome == Terminated(ErrorCode, env.factoryFailure.value)
      ensures env.codecFailure.None? && env.factoryFailure.None? ==>
        match env.evaluation
        case EvaluationIOError(m) => outcome == Terminated(ErrorCode, Some(IoErrorPrefix + JavaText(m)))
        case EvaluationFailed(m) => outcome == Propagated(m)
        case Evaluated =>
          outcome.Completed? &&
          outcome.setup == Setup(params.lang, params.entityType, mlParams.value,
                                 ResolveCodecName(params.sequenceCodec), params.factory,
                                 Listeners(params.misclassified, params.detailedF),
                                 sampleStream, params.folds) &&
          (outcome.report.DetailedFMeasure? <==> params.detailedF) &&
          outcome.report.text == (if params.detailedF then env.detailedText else env.fMeasureText)
    {
      if env.loadedParameters.Some? {
        mlParams := env.loadedParameters;
      } else {
        mlParams := Some(env.defaultParameters);
      }

      if params.nameTypes.Some? {
        sampleStream := FilterByNameTypes(params.nameTypes, sampleStream);
      }

      var listeners: seq<Listener> := [];
      if params.misclassified {
        listeners := listeners + [NameEvaluationErrorListener];
      }
      var detailedFListener: Option<Listener> := None;
      if params.detailedF {
        detailedFListener := Some(DetailedFMeasureListener);
        listeners := listeners + [detailedFListener.value];
      }

      var codecName := ResolveCodecName(params.sequenceCodec);
      if env.codecFailure.Some? {
        return Propagated(env.codecFailure.value);
      }

      if env.factoryFailure.Some? {
        return Terminated(ErrorCode, env.factoryFailure.value);
      }

      var setup := Setup(params.lang, params.entityType, mlParams.value, codecName, params.factory, listeners,
                         sampleStream, params.folds);
      var thrown: Option<RunOutcome> := None;
      match env.evaluation {
        case Evaluated =>
        case EvaluationIOError(m) =>
          thrown := Some(Terminated(ErrorCode, Some(IoErrorPrefix + JavaText(m))));
        case EvaluationFailed(m) =>
          thrown := Some(Propagated(m));
      }
      // finally: close the stream; an IOException from close (env.closeFails) is
      // swallowed and leaves the outcome as it was
      closeCalls := closeCalls + 1;
      if thrown.Some? {
        return thrown.value;
      }

      outcome := Completed(setup, ChooseReport(detailedFListener, env.fMeasureText, env.detailedText));
    }
  }
}
