/**
 * The chunker's model container: an artifact map whose entry "chunker.model"
 * holds the trained model, and a manifest of string properties. The container
 * checks what it holds and turns the stored model into a sequence decoder.
 */
module Chunker {
  import opened Wrappers
  import Decimal

  const ModelEntryName := "chunker.model"
  const IncompleteMessage := "Chunker model is incomplete!"
  /** The factory class used when a model names none. */
  const DefaultFactoryClassName := "opennlp.tools.chunker.ChunkerFactory"
  /** The manifest key of the beam width (`BeamSearch.BEAM_SIZE_PARAMETER`). */
  const BeamSizeParameter := "BeamSize"
  /** `ChunkerME.DEFAULT_BEAM_SIZE`: what the constructors without a width write. */
  const ChunkerDefaultBeamSize := 10
  /** `NameFinderME.DEFAULT_BEAM_SIZE`: what the resolver uses when the manifest has no width. */
  const NameFinderDefaultBeamSize := 3

  /**
   * An object stored in the artifact map, seen through the model types it is an
   * instance of: `AbstractModel`, `MaxentModel`, `SequenceClassificationModel`.
   * `id` stands for its identity; everything else about it is opaque here.
   */
  datatype ArtifactObject = ArtifactObject(id: nat, isAbstract: bool, isMaxent: bool, isSeqClass: bool)

  /** Every `AbstractModel` is a `MaxentModel`. */
  type Artifact = a: ArtifactObject | a.isAbstract ==> a.isMaxent
    witness ArtifactObject(0, false, false, false)

  /** A decoder obtained from the model: a beam search over a maxent model, or a sequence model as stored. */
  datatype SequenceModel =
    | BeamSearch(size: int, model: Artifact)
    | Classifier(model: Artifact)

  datatype ModelError =
    | InvalidFormat(message: string)   // InvalidFormatException
    | NumberFormat(input: string)      // NumberFormatException from Integer.parseInt

  /** What the base model's constructor leaves behind: its artifacts and its manifest. */
  datatype BaseContent = BaseContent(artifacts: map<string, Artifact>, manifest: map<string, string>)

  /** The base model's own validation of an artifact map and manifest. */
  type BaseCheck = (map<string, Artifact>, map<string, string>) -> Outcome<ModelError>

  /** The factory class a chunker model falls back to. */
  function DefaultFactory(): (r: string)
    ensures r == DefaultFactoryClassName
  {
    DefaultFactoryClassName
  }

  class ChunkerModel {
    var artifacts: map<string, Artifact>
    var manifest: map<string, string>

    /** Stores a maxent model and writes its beam width into the manifest. */
    constructor WithBeamSize(base: BaseContent, model: Artifact, beamSize: int)
      requires model.isMaxent
      requires Decimal.IsInt(beamSize)
      ensures artifacts == base.artifacts[ModelEntryName := model]
      ensures manifest == base.manifest[BeamSizeParameter := Decimal.ToString(beamSize)]
      ensures GetChunkerSequenceModel() == Success(Some(BeamSearch(beamSize, model)))
    {
      artifacts := base.artifacts[ModelEntryName := model];
      manifest := base.manifest[BeamSizeParameter := Decimal.ToString(beamSize)];
      new;
      BeamSizeRoundTrip(this, beamSize);
    }

    /** The maxent constructors without a width: they write the chunker's default width. */
    constructor WithDefaultBeamSize(base: BaseContent, model: Artifact)
      requires model.isMaxent
      ensures artifacts == base.artifacts[ModelEntryName := model]
      ensures manifest == base.manifest[BeamSizeParameter := Decimal.ToString(ChunkerDefaultBeamSize)]
      ensures GetChunkerSequenceModel() == Success(Some(BeamSearch(ChunkerDefaultBeamSize, model)))
    {
      artifacts := base.artifacts[ModelEntryName := model];
      manifest := base.manifest[BeamSizeParameter := Decimal.ToString(ChunkerDefaultBeamSize)];
      new;
      BeamSizeRoundTrip(this, ChunkerDefaultBeamSize);
    }

    /** Stores a sequence classification model; the manifest is left as the base made it. */
    constructor FromSequenceModel(base: BaseContent, model: Artifact)
      requires model.isSeqClass
      ensures artifacts == base.artifacts[ModelEntryName := model]
      ensures manifest == base.manifest
    {
      artifacts := base.artifacts[ModelEntryName := model];
      manifest := base.manifest;
    }

    /** The base checks first; then the model entry must be an `AbstractModel`. */
    function ValidateArtifactMap(baseCheck: BaseCheck): (r: Outcome<ModelError>)
      reads this
      ensures baseCheck(artifacts, manifest).Fail? ==> r == baseCheck(artifacts, manifest)
      ensures baseCheck(artifacts, manifest).Pass? ==>
        (r.Pass? <==> ModelEntryName in artifacts && artifacts[ModelEntryName].isAbstract)
      ensures baseCheck(artifacts, manifest).Pass? && r.Fail? ==> r.error == InvalidFormat(IncompleteMessage)
    {
      var base := baseCheck(artifacts, manifest);
      if base.Fail? then base
      else if ModelEntryName in artifacts && artifacts[ModelEntryName].isAbstract then Pass
      else Fail(InvalidFormat(IncompleteMessage))
    }

    /** The stored model when it is a `MaxentModel`, otherwise `null`. */
    function GetChunkerModel(): (r: Option<Artifact>)
      reads this
      ensures r.Some? <==> ModelEntryName in artifacts && artifacts[ModelEntryName].isMaxent
      ensures r.Some? ==> r.value == artifacts[ModelEntryName]
    {
      if ModelEntryName in artifacts && artifacts[ModelEntryName].isMaxent then Some(artifacts[ModelEntryName])
      else None
    }

    /**
     * The decoder for the stored model. A `MaxentModel` is wrapped in a beam
     * search whose width comes from the manifest, or is the name finder's
     * default when the manifest has none; otherwise a sequence classification
     * model is returned as it is; anything else gives `null`.
     */
    function GetChunkerSequenceModel(): (r: Result<Option<SequenceModel>, ModelError>)
      reads this
      // only a malformed width can make it throw, and then it throws for that text
      ensures r.Failure? <==>
        ModelEntryName in artifacts && artifacts[ModelEntryName].isMaxent &&
        BeamSizeParameter in manifest && Decimal.ParseInt(manifest[BeamSizeParameter]).None?
      ensures r.Failure? ==> r.error == NumberFormat(manifest[BeamSizeParameter])
      // null exactly when the entry is missing or of neither kind
      ensures r == Success(None) <==>
        ModelEntryName !in artifacts ||
        (!artifacts[ModelEntryName].isMaxent && !artifacts[ModelEntryName].isSeqClass)
      // every decoder is built on the stored model itself
      ensures r.Success? && r.value.Some? ==> r.value.value.model == artifacts[ModelEntryName]
      // the maxent test comes first: a beam search exactly for a maxent entry
      ensures r.Success? && r.value.Some? ==>
        (r.value.value.BeamSearch? <==> artifacts[ModelEntryName].isMaxent)
      // the width is the manifest's, read back by parseInt, or the default when there is none
      ensures r.Success? && r.value.Some? && r.value.value.BeamSearch? ==>
        if BeamSizeParameter in manifest
        then Decimal.ParseInt(manifest[BeamSizeParameter]) == Some(r.value.value.size)
        else r.value.value.size == NameFinderDefaultBeamSize
    {
      if ModelEntryName in artifacts && artifacts[ModelEntryName].isMaxent then
        var beamSize :=
          if BeamSizeParameter in manifest then Decimal.ParseInt(manifest[BeamSizeParameter])
          else Some(NameFinderDefaultBeamSize);
        if beamSize.None? then Failure(NumberFormat(manifest[BeamSizeParameter]))
        else Success(Some(BeamSearch(beamSize.value, artifacts[ModelEntryName])))
      else if ModelEntryName in artifacts && artifacts[ModelEntryName].isSeqClass then
        Success(Some(Classifier(artifacts[ModelEntryName])))
      else
        Success(None)
    }
  }

  /** A maxent entry with the width `b` printed into the manifest resolves to a beam search of width exactly `b`. */
  lemma BeamSizeRoundTrip(m: ChunkerModel, b: int)
    requires Decimal.IsInt(b)
    requires ModelEntryName in m.artifacts && m.artifacts[ModelEntryName].isMaxent
    requires BeamSizeParameter in m.manifest && m.manifest[BeamSizeParameter] == Decimal.ToString(b)
    ensures m.GetChunkerSequenceModel() == Success(Some(BeamSearch(b, m.artifacts[ModelEntryName])))
  {
    Decimal.ParseOfToString(b);
  }

  /** The two defaults differ: a model built without a width decodes with 10, one whose manifest lacks the key with 3. */
  lemma DefaultWidthsDiffer(m: ChunkerModel, n: ChunkerModel)
    requires ModelEntryName in m.artifacts && m.artifacts[ModelEntryName].isMaxent
    requires BeamSizeParameter in m.manifest && m.manifest[BeamSizeParameter] == Decimal.ToString(ChunkerDefaultBeamSize)
    requires n.artifacts == m.artifacts && BeamSizeParameter !in n.manifest
    ensures m.GetChunkerSequenceModel().Success? && n.GetChunkerSequenceModel().Success?
    ensures m.GetChunkerSequenceModel() != n.GetChunkerSequenceModel()
  {
    BeamSizeRoundTrip(m, ChunkerDefaultBeamSize);
  }

  /** For an entry that is a sequence model but no maxent model, the manifest plays no part. */
  lemma ClassifierIgnoresManifest(m: ChunkerModel, n: ChunkerModel)
    requires m.artifacts == n.artifacts
    requires ModelEntryName in m.artifacts && !m.artifacts[ModelEntryName].isMaxent
    ensures m.GetChunkerSequenceModel() == n.GetChunkerSequenceModel()
  {
  }

  /**
   * For a freshly built model (any constructor), validation passes exactly when
   * the base checks pass and the stored model is an `AbstractModel`; so a
   * sequence classification model that is not one is rejected.
   */
  lemma FreshModelValidation(m: ChunkerModel, base: BaseContent, model: Artifact, check: BaseCheck)
    requires m.artifacts == base.artifacts[ModelEntryName := model]
    ensures m.ValidateArtifactMap(check).Pass? <==> check(m.artifacts, m.manifest).Pass? && model.isAbstract
  {
  }

  /**
   * After validation the stored model is a `MaxentModel`: `getChunkerModel`
   * never gives `null`, and `getChunkerSequenceModel` always builds a beam
   * search (or throws on a malformed width); its classifier branch is not
   * reached on a validated model.
   */
  lemma ValidatedModelResolves(m: ChunkerModel, check: BaseCheck)
    requires m.ValidateArtifactMap(check).Pass?
    ensures m.GetChunkerModel() == Some(m.artifacts[ModelEntryName])
    ensures m.GetChunkerSequenceModel().Success? ==>
      m.GetChunkerSequenceModel().value.Some? && m.GetChunkerSequenceModel().value.value.BeamSearch?
  {
  }
}
