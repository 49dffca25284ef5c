# Chunker model container and name-finder cross-validation decisions

This project models two pieces of Apache OpenNLP in Dafny and proves what they promise.

**The chunker model container** (`ChunkerModel`). A model package holds an artifact map and a manifest of string properties. The entry `"chunker.model"` holds the trained model. The constructors store that model. The maxent constructors also write the beam width into the manifest as a decimal string. The validator accepts the package only if the entry is an `AbstractModel`. `getChunkerModel` returns the entry when it is a `MaxentModel`. `getChunkerSequenceModel` turns the entry into a decoder:
- a `MaxentModel` is wrapped in a beam search, with the width read back from the manifest or the name finder's default;
- a `SequenceClassificationModel` is returned as it is;
- anything else gives `null`.

`getDefaultFactory` names the chunker factory class (`Chunker.DefaultFactory`).

Stored objects are opaque values (`Chunker.ArtifactObject`). Each carries an identity and the three model types it is an instance of. The subtype `Chunker.Artifact` keeps "every `AbstractModel` is a `MaxentModel`". `Integer.toString` and `Integer.parseInt` are modelled for Java's 32-bit `int` and ASCII digits (module `Decimal`). The model proves that parsing inverts printing, and that printing a parsed value gives the input in canonical form.

As written, validation demands an `AbstractModel`, and every `AbstractModel` is a `MaxentModel`. So on a validated package the classifier branch of `getChunkerSequenceModel` is never taken (`Chunker.ValidatedModelResolves`). A package built from a sequence classification model that is not an `AbstractModel` fails validation (`Chunker.FreshModelValidation`).

**The name finder's cross-validation command** (`TokenNameFinderCrossValidatorTool.run`). The command's state is a class. Its fields are the options, the sample stream, the training parameters and a count of `close` calls. `Run` takes as a value what the code it calls but does not own did: parameter loading, codec instantiation, factory creation, `evaluate` and `close`. It states:
- the resulting parameters, sample stream and listener list;
- the codec name;
- the report, or the exit result of each failure;
- how often the stream was closed.

The helpers it uses are pure functions: the codec alias table, the listener list, the name-type filter and the report choice. The name-type filter uses Java's `String.split(",")`, modelled in module `JavaSplit`.

Behaviour of the code worth knowing:
- A beam width that is present but not a number makes `getChunkerSequenceModel` throw `NumberFormatException`. It does not fall back to the default. Zero and negative widths are accepted as parsed.
- An entry of neither kind gives `null`, not a format error.
- The default width used when the manifest has none is `NameFinderME.DEFAULT_BEAM_SIZE` (3). The constructors without a width write `ChunkerME.DEFAULT_BEAM_SIZE` (10).
- A failure to close the sample stream is swallowed silently, not logged.
- When factory creation fails, the stream is not closed by `run`.

## Model

| member | source | states |
|---|---|---|
| Decimal.ToString | opennlp-tools/src/main/java/opennlp/tools/chunker/ChunkerModel.java:80 | `Integer.toString`: starts with '-' exactly for negative values; otherwise all digits |
| Decimal.ParseInt | opennlp-tools/src/main/java/opennlp/tools/chunker/ChunkerModel.java:141 | `Integer.parseInt`: digits with an optional '+' or '-' and a value in the `int` range are accepted with that signed value; a negative result comes from a leading '-'; the empty string, a lone sign and any non-digit after the first character throw, and a value outside the `int` range throws |
| Decimal.ToStringOfParseInt | opennlp-tools/src/main/java/opennlp/tools/chunker/ChunkerModel.java:141 | printing what was parsed gives the input without a '+', without leading zeros and with '-' only for a negative value |
| Decimal.ParseOfToString | opennlp-tools/src/main/java/opennlp/tools/chunker/ChunkerModel.java:137-142 | parsing the printed width gives back exactly that width, for every Java `int` |
| JavaSplit.Fields | opennlp-tools/src/main/java/opennlp/tools/cmdline/namefind/TokenNameFinderCrossValidatorTool.java:73 | the pieces between commas: at least one, none containing the separator, the whole string when it has no separator |
| JavaSplit.JoinFields | opennlp-tools/src/main/java/opennlp/tools/cmdline/namefind/TokenNameFinderCrossValidatorTool.java:73 | joining the pieces with the separator gives the input back |
| JavaSplit.DropTrailingEmpty | opennlp-tools/src/main/java/opennlp/tools/cmdline/namefind/TokenNameFinderCrossValidatorTool.java:73 | the result is a prefix that does not end in an empty string, and only empty strings were removed |
| JavaSplit.Split | opennlp-tools/src/main/java/opennlp/tools/cmdline/namefind/TokenNameFinderCrossValidatorTool.java:73 | `String.split`: the whole string when the separator is absent; no piece holds the separator; when it occurs, the result is empty or ends in a non-empty piece; joining the pieces gives a prefix of the input followed only by separators |
| Chunker.DefaultFactory | opennlp-tools/src/main/java/opennlp/tools/chunker/ChunkerModel.java:154-157 | the default factory is the chunker's own factory class, `opennlp.tools.chunker.ChunkerFactory` |
| Chunker.ChunkerModel.WithBeamSize | opennlp-tools/src/main/java/opennlp/tools/chunker/ChunkerModel.java:74-83 | stores the model under "chunker.model", sets the beam-size key to `Integer.toString(beamSize)`, changes nothing else, and the package then decodes with a beam search of width exactly `beamSize` |
| Chunker.ChunkerModel.WithDefaultBeamSize | opennlp-tools/src/main/java/opennlp/tools/chunker/ChunkerModel.java:69-72 | the maxent constructors without a width (also lines 58-60 and 90-96) write `ChunkerME.DEFAULT_BEAM_SIZE`, so the beam-size key is present and decoding uses width 10 |
| Chunker.ChunkerModel.FromSequenceModel | opennlp-tools/src/main/java/opennlp/tools/chunker/ChunkerModel.java:62-67 | stores the model under "chunker.model" and never writes the beam-size key: the manifest stays as the base made it |
| Chunker.ChunkerModel.ValidateArtifactMap | opennlp-tools/src/main/java/opennlp/tools/chunker/ChunkerModel.java:110-117 | a failing base check is reported first; otherwise it passes exactly when the entry is present and an `AbstractModel`, and fails with "Chunker model is incomplete!" |
| Chunker.ChunkerModel.GetChunkerModel | opennlp-tools/src/main/java/opennlp/tools/chunker/ChunkerModel.java:123-130 | returns the entry exactly when it is a `MaxentModel`, otherwise `null` |
| Chunker.ChunkerModel.GetChunkerSequenceModel | opennlp-tools/src/main/java/opennlp/tools/chunker/ChunkerModel.java:132-152 | throws only for a maxent entry whose width text does not parse, and names that text; `null` exactly when the entry is absent or of neither kind; a beam search exactly for a maxent entry, with the parsed width or the name finder's default; every decoder wraps the stored model itself |
| Chunker.BeamSizeRoundTrip | opennlp-tools/src/main/java/opennlp/tools/chunker/ChunkerModel.java:137-144 | a maxent entry with `Integer.toString(b)` in the manifest decodes with a beam search of width exactly `b` |
| Chunker.DefaultWidthsDiffer | opennlp-tools/src/main/java/opennlp/tools/chunker/ChunkerModel.java:139 | a package built without a width and the same entry with no beam-size key decode differently (10 against 3) |
| Chunker.ClassifierIgnoresManifest | opennlp-tools/src/main/java/opennlp/tools/chunker/ChunkerModel.java:146-147 | for an entry that is not a `MaxentModel` the manifest, beam-size key included, does not affect the result |
| Chunker.FreshModelValidation | opennlp-tools/src/main/java/opennlp/tools/chunker/ChunkerModel.java:114-116 | for a package fresh from any constructor, validation passes exactly when the base checks pass and the stored model is an `AbstractModel` |
| Chunker.ValidatedModelResolves | opennlp-tools/src/main/java/opennlp/tools/chunker/ChunkerModel.java:123-147 | after validation `getChunkerModel` is never `null`, and `getChunkerSequenceModel` builds a beam search whenever it returns |
| NameFinderCrossValidation.ResolveCodecName | opennlp-tools/src/main/java/opennlp/tools/cmdline/namefind/TokenNameFinderCrossValidatorTool.java:87-94 | "BIO" gives the `BioCodec` class name and "BILOU" the `BilouCodec` class name, by exact match; every other name, `null` included, passes through; the result is never an alias |
| NameFinderCrossValidation.ResolveCodecNameIdempotent | opennlp-tools/src/main/java/opennlp/tools/cmdline/namefind/TokenNameFinderCrossValidatorTool.java:87-96 | resolving twice gives the same as resolving once |
| NameFinderCrossValidation.Listeners | opennlp-tools/src/main/java/opennlp/tools/cmdline/namefind/TokenNameFinderCrossValidatorTool.java:77-85 | one error listener exactly when the misclassified flag is set, one detailed-F listener exactly when the detailed-F flag is set, the error listener first, length the number of flags set |
| NameFinderCrossValidation.FilterByNameTypes | opennlp-tools/src/main/java/opennlp/tools/cmdline/namefind/TokenNameFinderCrossValidatorTool.java:72-75 | the stream is wrapped only when name types are given, by a filter over the comma-split list, whose pieces hold no comma and rebuild a prefix of the option |
| NameFinderCrossValidation.ChooseReport | opennlp-tools/src/main/java/opennlp/tools/cmdline/namefind/TokenNameFinderCrossValidatorTool.java:127-131 | the detailed listener's text exactly when there is a detailed listener, otherwise the validator's F-measure |
| NameFinderCrossValidation.CrossValidatorTool.Run | opennlp-tools/src/main/java/opennlp/tools/cmdline/namefind/TokenNameFinderCrossValidatorTool.java:58-132 | defaults replace parameters that cannot be loaded; the validator gets the resolved codec, the factory name, the listeners and the filtered stream; a factory `InvalidFormatException` ends with code -1 and its message; an `IOException` from `evaluate` ends with code -1 and the "IO error while reading training data or indexing data: " prefix; other exceptions propagate; the stream is closed exactly once whenever evaluation was started and never otherwise; a failing close never changes the outcome; the report is the detailed one exactly when the detailed-F flag is set |

## Left out

- The stream, `File` and `URL` constructors of `ChunkerModel`, and serialization: archive reading and writing, done by `BaseModel`, which is not part of this model.
- `ChunkerModel.main`: it reads and writes files and exits the process. Its only decision is the argument-count check.
- `getFactory`: a cast of the base model's tool factory, which is not part of this model.
- `BaseModel`'s constructor and its own checks are not part of this model. What the constructor leaves behind enters as a `BaseContent` value. Its validation enters as a `BaseCheck` function.
- The constructors stop before `checkArtifactMap`, whose throwing path is in `BaseModel`. `Chunker.FreshModelValidation` states what validation decides for a freshly built package.
- A `null` model argument to a constructor is not modelled. Java would store it and validation would reject it like a missing entry.
- The internals of `BeamSearch`, `MaxentModel`, `AbstractModel` and `SequenceClassificationModel`: floating-point scoring in library code. They are opaque values with an identity.
- Decimal.ParseInt: accepts only the ASCII digits '0' to '9', whereas `Integer.parseInt` also accepts other Unicode decimal digits.
- The parts of `run` that belong to other classes are not modelled: option parsing and opening the samples (`super.run`), loading feature-generator bytes and resources, and training-parameter loading. The results of loading and codec instantiation enter `Run` as values.
- Failures of feature-generator or resource loading are not modelled.
- k-fold partitioning, training, evaluation and F-measure pooling, done by `TokenNameFinderCrossValidator`, which is not part of this model. Only how `evaluate` ends matters to `run`.
- Printing to standard output: only the choice of report is modelled, not the "done" line.
