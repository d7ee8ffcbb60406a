# Speech emotion recognition: a Dafny model of its pipeline logic

This project models the logic of a speech emotion recognition repository. The repository
does the following:

- It reorganises the Toronto Emotional Speech Set (TESS) into RAVDESS-named recordings.
- It labels recordings by the emotion code in their name and extracts one feature vector
  per recording.
- It loads a Keras model, rebuilding the network from its weights when the saved model
  will not load, and adapts a feature vector to the model's declared input.
- It reads the top emotion off the network's scores.
- It runs this from a command line, for one file or a whole directory with an emotion
  histogram.
- It keeps a fixed directory layout with a status report of the critical paths.

The model is in Dafny terms:

- The file system is a value (`Paths.FileSystem`): the paths that exist, the
  directories, and what `glob("*.wav")` / `rglob("*.wav")` list for each directory.
- The library calls are fields of a `Keras.Backend` value, each returning a result or
  the text of the exception it raises:
  - decoding a file into its feature vector (librosa and the MFCC mean);
  - `keras.models.load_model`;
  - `load_weights`;
  - `model.predict`, which sees the whole model handle: its declared input, whether it
    was deserialised or rebuilt (and with which skip flag), and the file its weights
    came from.
- `shutil.copy2` is a parameter.
- The repository root is the fixed path `/repo`.
- Every Python exception the code raises or lets through is a `Wrappers.Error` value.

Most of the code is pure and becomes functions over these values. The loops become
methods proved against specification functions:

- the feature accumulation, the TESS copy loop and the TESS check loop;
- the batch prediction loop, the emotion histogram and the sorted summary;
- the status dictionary;
- `main` of the command line.

Properties proved include:

- **Renaming round trip:** a TESS file copied under its RAVDESS name is labelled, by the
  feature module's name parser, with the emotion its TESS name carries.
- **Exactly-once counting:** every file of the TESS copy loop and of the batch prediction
  loop is counted exactly once.
- **Parallel lists:** the feature and label lists stay parallel, entry by entry.
- **Loader ordering:** the existence check comes before any load attempt, and the rebuild
  is tried only after the direct load fails.
- **Exact histogram:** the histogram counts every result exactly once, in sorted label
  order.
- **Implementations agree:**
  - The three copies of the input adapter agree on every input, despite their different
    step order.
  - On an audio file that exists, the root-level predictor and the package predictor
    agree except for the rounding of the confidence and the label of an out-of-range
    index. They differ in two more ways:
    - The root predictor does not check that the audio file exists.
    - Its failures are the decoder's or the network's exceptions, unchanged. The package
      predictor raises FileNotFoundError, or a ValueError that starts
      `Prediction failed for <file>`.

## Model

| member | source | states |
|---|---|---|
| Config.EmotionsDistinct | src/ser/config.py:42-44 | the eight emotion labels are pairwise distinct |
| Config.EnsureDirsExist | src/ser/config.py:46-70 | every required directory (the fourteen listed and the two actor folders) is a directory afterwards, nothing that existed disappears, and only those directories and their created parent are new |
| Config.GetModelPath | src/ser/config.py:72-82 | the primary model path whenever it exists; the legacy path only when the primary is absent and the legacy exists; FileNotFoundError exactly when neither exists |
| Config.Lookup | src/ser/config.py:86-97 | a key of the status dictionary is found exactly when an entry carries it |
| Config.StatusLookups | src/ser/config.py:86-97 | the status entries have distinct keys, each looks up its own value, and the five-entry status has no `X_features`/`y_features` |
| Config.ValidatePaths | src/ser/config.py:84-99 | raises exactly when the model path cannot be resolved (so `model` is never reported false); gives each key its existence check; adds `X_features`/`y_features` only when the dataset-features directory exists |
| Config.Missing | src/ser/config.py:109 | a key is missing exactly when its status value is false |
| Config.MissingIff | src/ser/config.py:109 | a key is missing exactly when the status holds it with value false |
| Config.SetupEnvironment | src/ser/config.py:101-118 | after the directories are created only `examples`, `X_features` and `y_features` can be missing, each exactly when its file check fails; the error is the model-path error |
| Tess.TessKeysAreMapKeys | src/ser/datasets/tess.py:18-26 | the key list searched by the structure check is exactly the key set of the TESS emotion map |
| Tess.GetEmotionCode | src/ser/datasets/tess.py:114-135 | a code in 1..8; for a configured label the position of that label plus one; 1 for any other string |
| Tess.EmotionCodesFollowConfig | src/ser/datasets/tess.py:124-133 | the i-th configured label has code i + 1 |
| Tess.TessEmotionsAreLabels | src/ser/datasets/tess.py:18-26 | every TESS emotion, `ps` giving `surprised`, is a configured label |
| Tess.RavdessStem | src/ser/datasets/tess.py:91 | the generated stem starts with the `02-01-` modality and channel fields and holds no `/` and no `.` |
| Tess.RavdessName | src/ser/datasets/tess.py:91 | the generated name is a single path component whose stem is the generated stem |
| Tess.PlaceFile | src/ser/datasets/tess.py:68-95 | fewer than three `_`-fields is an unexpected format; an unknown lowercased last field is skipped with that field; otherwise the mapped emotion, speaker 25 exactly when the stem contains `YAF` (26 otherwise), and the target `Actor_<speaker>/02-01-<code>-01-01-01-<speaker>.wav` |
| Tess.CopyStep | src/ser/datasets/tess.py:64-106 | a file is copied exactly when its name places it and the copy succeeds, and then to its placement's target |
| Tess.ProcessTessDataset | src/ser/datasets/tess.py:28-112 | FileNotFoundError for a missing source (a FileExistsError from mkdir is not modelled, see `Paths.MakeDirs` under "## Left out"); no audio files returns early; otherwise processed + skipped = number of files, the copies are the successful steps in order, and the file system gains exactly the copies |
| Tess.CopyAll | src/ser/datasets/tess.py:61-106 | the counters and copied paths are the successes and failures of the per-file step; exactly the copies are added to the file system |
| Tess.AnyOccurs | src/ser/datasets/tess.py:169 | true exactly when one of the keys occurs as a substring |
| Seqs.CountIfPositive | src/ser/datasets/tess.py:166-172 | the count of matching files is positive exactly when some file matches |
| Tess.ValidateTessStructure | src/ser/datasets/tess.py:137-174 | a missing directory has neither audio nor structure; audio files exactly when `rglob` finds some; expected structure exactly when some stem contains `_` and a TESS key occurs in its lowercase form |
| Tess.CountValid | src/ser/datasets/tess.py:166-170 | the loop counts exactly the TESS-looking stems |
| Tess.RavdessFields | src/ser/datasets/tess.py:91 | the generated name is the seven `-`-joined fields `02 01 <code> 01 01 01 <speaker>` followed by `.wav` |
| Tess.LabelOfRavdessStem | src/ser/datasets/tess.py:91 | the feature module reads code c in 1..8 back from a generated name as the c-th configured label |
| Tess.StemOfTarget | src/ser/datasets/tess.py:91-95 | the stem of a copied file is its generated name without `.wav` |
| Tess.RenamedFileKeepsEmotion | src/ser/datasets/tess.py:87-95 | the label the feature module reads from the copied file's stem is the emotion parsed from the TESS name |
| Tess.SameEmotionSameTarget | src/ser/datasets/tess.py:87-98 | two recordings of one emotion by one speaker are copied to the same path |
| Tess.SameTargetSameEmotion | src/ser/datasets/tess.py:91-95 | files copied to the same path carry the same emotion |
| Tess.NumberedStem | src/ser/datasets/tess.py:91 | the corrected stem, with a running number in the repetition field, starts `02-01-` and holds no `/` and no `.` |
| Tess.NumberedName | src/ser/datasets/tess.py:91 | the corrected name is a single path component whose stem is the corrected stem |
| Tess.NumberedFields | src/ser/datasets/tess.py:91 | the corrected stem splits into `02 01 <code> 01 01 <number> <speaker>` |
| Tess.PlaceFileNumbered | src/ser/datasets/tess.py:68-95 | the same skips, emotion and speaker as the placement as written, with the file's listing position plus one as the repetition field of the target |
| Tess.NumberedTargetsDistinct | src/ser/datasets/tess.py:91-98 | files at different listing positions get different targets, so no copy replaces another |
| Tess.LabelOfNumberedStem | src/ser/datasets/tess.py:91 | the feature module reads code c in 1..8 back from a corrected stem as the c-th configured label |
| Tess.NumberedKeepsEmotion | src/ser/datasets/tess.py:87-95 | the round trip holds for the corrected names: the feature label of the copy is the TESS emotion |
| Features.EmotionMapMatchesConfig | src/ser/features.py:85-88 | code i + 1 maps to the i-th configured label, and the codes are exactly 1..8 |
| Features.EmotionOfCode | src/ser/features.py:85-89 | codes 1..8 give their configured label; any other integer gives `unknown` |
| Features.LabelFromStem | src/ser/features.py:79-91 | fewer than three `-`-fields gives `unknown`; a third field that `int()` rejects raises ValueError; otherwise the label of that code |
| Features.LabelFromStemRange | src/ser/features.py:82-91 | every label produced is a configured emotion or `unknown` |
| Features.ExtractFeatures | src/ser/features.py:19-48 | FileNotFoundError for a missing file before decoding; a decoder failure becomes a ValueError naming the file and the cause; otherwise the decoded rank-1 vector |
| Features.ProcessFile | src/ser/features.py:76-103 | a file contributes exactly when both its label and its features are available, and then exactly those |
| Features.ProcessAudioDirectory | src/ser/features.py:50-121 | a missing directory changes nothing; no `.wav` files returns after creating the directories; otherwise the features and labels are the parallel successes in listing order, and both files are saved exactly when one file succeeded |
| Features.CollectFeatures | src/ser/features.py:72-103 | the two lists have equal length and entry k of each comes from the k-th successful file |
| Features.SavedPairsFromFiles | src/ser/features.py:94-97 | each saved pair is the label and the features of one recording of the directory |
| Features.EverySuccessSaved | src/ser/features.py:101-103 | a failing file does not stop the rest: every recording with a label and features is saved |
| Features.NothingSavedIffAllFail | src/ser/features.py:105-121 | nothing is saved exactly when every file fails |
| Keras.Vector | src/ser/features.py:42-44 | a rank-1 array of the given values whose shape accounts for them |
| Keras.ProductLeadingOne | src/ser/model.py:42-43 | adding a batch axis keeps the element count |
| Keras.ProductTrailingOne | src/ser/model.py:46-47 | adding a channel axis keeps the element count |
| Keras.ArgMax | src/ser/model.py:170 | the first position of a maximum |
| Keras.ArgMaxUnique | src/ser/model.py:170 | the first maximum is the only index with both its defining properties |
| Keras.Round4 | src/ser/model.py:183 | within half a unit of the fourth decimal, and a whole number of ten-thousandths |
| Keras.Round4Idempotent | src/ser/model.py:183 | rounding a rounded confidence changes nothing |
| Model.DeclaredShape | src/ser/model.py:33-37 | the only declared shape, or the first of a list; IndexError exactly for an empty list |
| Model.AdaptInputShape | src/ser/model.py:22-50 | IndexError exactly for an empty shape list; the data unchanged; a rank-1 vector of length n becomes [1, n, 1] for a declared rank of 3 and [1, n] otherwise; a rank-2 array gains a trailing axis for rank 3; other ranks unchanged |
| Model.AdaptKeepsWellFormed | src/ser/model.py:39-47 | the reshaped array holds exactly as many elements as its shape says |
| Model.AdaptIdempotent | src/ser/model.py:42-47 | adapting an adapted array changes nothing |
| Model.AdaptFirstShapeDecides | src/ser/model.py:36-37 | with a list of shapes, the result is the one for the first shape alone |
| Model.AdaptForFallback | src/ser/model.py:62 | the rebuilt model receives a `(1, n, 1)` array for a feature vector of length n |
| Model.EmotionLabel | src/ser/model.py:174-177 | `EMOTIONS[index]` for positions 0..7; `unknown_` followed by the decimal index beyond, which is never a configured label |
| Model.EmotionLabelInjective | src/ser/model.py:174-177 | different positions never share a label |
| Model.Classify | src/ser/model.py:169-185 | the first maximum, its label, its score rounded to four decimals, and the scores and file unchanged |
| Model.NetworkScores | src/ser/model.py:158-167 | an extraction failure gives its message; on success the network was run on the adapted features, whose data is the decoded vector, and the scores are its first row |
| Model.PredictEmotion | src/ser/model.py:140-189 | FileNotFoundError for a missing audio file; a ValueError starting `Prediction failed for <file>` for any later failure; success exactly when the network returns a non-empty first row, and then its top-1 reading |
| Model.LoadModelWithFallback | src/ser/model.py:93-138 | path resolution first; a missing file fails before any attempt; the rebuild is tried exactly when the direct load fails; a direct load gives the loaded model, and a failed direct load followed by a successful weight load gives the rebuilt model with the fallback input shape, weights by name without skipping; it fails only for a missing file or when both attempts fail, and then a ValueError names the path and both causes |
| Model.CombinedLoadError | src/ser/model.py:135-138 | the message contains the path, the original error and the rebuild error |
| Model.PredictPath | src/ser/model.py:191-203 | a loader failure is returned unchanged; otherwise the prediction with the loaded model |
| Model.ModelCheckedBeforeAudio | src/ser/model.py:107-111 | with a missing model file the model's FileNotFoundError wins and no load is attempted |
| Inference.Labels | src/ser/inference.py:82-83 | the predicted labels of the results, in order |
| Inference.DistributionFacts | src/ser/inference.py:80-89 | the summary lists each predicted label once, in ascending order, with its positive number of occurrences, and the counts add up to the number of results |
| Inference.DirectoryResultFacts | src/ser/inference.py:45-89 | each file is a result or a failure; every result comes from a file of the directory and every successful file is a result; the summary counts every result once and exists only for a non-empty batch |
| Inference.PredictDirectory | src/ser/inference.py:45-89 | a missing directory or one without `.wav` files ends before any prediction; otherwise the successes in order, the failures, and the summary only when some file succeeded |
| Inference.PredictAll | src/ser/inference.py:64-74 | `results` is exactly the successful predictions in listing order and the failures are counted |
| Inference.LabelsStep | src/ser/inference.py:82-83 | one more result appends its label |
| Seqs.HistogramSnoc | src/ser/inference.py:84 | one more occurrence adds one to its own count and leaves every other count alone |
| Inference.CountEmotions | src/ser/inference.py:80-84 | the histogram's keys are exactly the predicted labels, each mapped to its number of occurrences |
| Inference.Summarize | src/ser/inference.py:86-89 | the sorted histogram items are the distribution of the predicted labels |
| Inference.ListingAsWrittenIsEmpty | src/ser/inference.py:37 | the per-emotion listing as written shows nothing for a prediction with scores, while the corrected one shows rows |
| Inference.ListingAsWritten | src/ser/inference.py:37 | the listing as written has no rows |
| Inference.Listing | src/ser/inference.py:36-38 | one row per score up to eight, row i pairing the i-th configured emotion with the i-th score |
| Inference.ListingShowsPrediction | src/ser/inference.py:31-38 | the row of the predicted position shows the predicted label and the score its confidence is rounded from |
| Inference.PredictFile | src/ser/inference.py:19-43 | the run fails exactly when the prediction raises, with that error; otherwise it shows that prediction, and its per-emotion listing is empty, as the code is written |
| Inference.RunCli | src/ser/inference.py:134-179 | the order of checks: a missing explicit model file first, then examples mode, then no input (absent or empty), then a missing input, then a directory by flag or by kind, otherwise a single file; every early exit has status 1; a directory run exits 0 exactly when the directory exists and lists `.wav` files, however many of them fail; a single-file run exits 1 exactly when the prediction raises |
| Inference.ExitStatus | src/ser/inference.py:140-179 | the status is 0 or 1, and 0 only for a directory or single-file run |
| SerModel.EmotionsAgree | ser_model.py:12-21 | the root module's labels equal the package's, in order |
| SerModel.AdaptInputShape | ser_model.py:59-68 | batching first and unwrapping second gives the package adapter's result on every input |
| SerModel.LoadModelWithFallback | ser_model.py:50-56 | the direct load first, and its model when it succeeds; otherwise the rebuilt model with weights loaded by name skipping mismatches; the rebuild's exception comes out unchanged |
| SerModel.LoadersAgree | ser_model.py:50-56 | on an existing file the root and package loaders make the same attempts and return the same deserialised model; on a missing file only the root loader attempts a load |
| SerModel.EmotionLabel | ser_model.py:79 | equals the package label for positions 0..7; beyond them the package's label is this one with `unknown_` in front |
| SerModel.PredictPath | ser_model.py:71-82 | the first maximum, its unrounded score and its label; a decoder failure comes out unchanged |
| SerModel.PredictorsAgree | ser_model.py:71-82 | on an existing file it succeeds exactly when the package predictor does, with the same file, index and scores, the package's confidence being this one rounded |
| RunInference.EmotionsAgree | run_inference.py:14-23 | the script's labels equal the root module's, in order |
| RunInference.AdaptInputShape | run_inference.py:33-44 | the same result as the root module's adapter on every input |
| RunInference.LoadModelWithFallback | run_inference.py:67-78 | the same attempts and result as the root module's loader it replaces |
| RunInference.Predict | run_inference.py:81-85 | a loader failure unchanged; otherwise the root predictor's result with its confidence rounded to four decimals |
| RunInference.Resolve | run_inference.py:94-95 | an absolute path is kept; a relative one is taken from the working directory |
| RunInference.RunMain | run_inference.py:88-102 | a missing model file first, then a missing audio file, each a FileNotFoundError naming the path; otherwise the prediction |
| RunInference.ChecksBeforeAnyCall | run_inference.py:97-102 | when either file is missing the outcome does not depend on the backend at all: nothing is loaded or predicted |
| Text.ParseInt | src/ser/features.py:83 | a number is read only from text that contains a digit |
| Text.ParseIntOfNatToString | src/ser/features.py:83 | the decimal rendering of a code parses back to that code |
| Text.Lower | src/ser/datasets/tess.py:77 | the same length, each letter lowercased |
| Text.Split | src/ser/datasets/tess.py:69 | `str.split` never gives an empty list, and no field contains the separator |
| Text.JoinSplit | src/ser/features.py:80 | joining the fields of a split with the separator gives back the string |
| Text.Pad2 | src/ser/datasets/tess.py:91 | `:02d` gives at least two digits, exactly two below 100, with no leading zero from 10 on, whose value is the number |
| Text.Pad2Injective | src/ser/datasets/tess.py:91 | different numbers get different two-digit renderings |
| Text.SplitJoin | src/ser/features.py:80 | splitting a join of separator-free fields gives the fields back |
| Paths.Stem | src/ser/features.py:79 | a stem has no `/` |
| Paths.StemOfWav | src/ser/features.py:79 | the stem of `dir/<s>.wav` is `s` |
| Paths.StemOfWavName | src/ser/features.py:79 | the stem of the component `<s>.wav` is `s` |
| Paths.Name | src/ser/features.py:79 | the final component holds no `/` |
| Paths.NameIsSuffix | src/ser/features.py:79 | the final component is the suffix of the path after its last `/` |
| Paths.MakeDirs | src/ser/config.py:65-70 | the listed directories exist afterwards, and nothing else is added; missing ancestors and a plain file in the way are not modelled (see "## Left out") |
| Paths.CreateFiles | src/ser/datasets/tess.py:98 | exactly the written files are added |
| Seqs.SuccessesPlusFailures | src/ser/datasets/tess.py:61-106 | every item is counted once, as a success or as a failure |
| Seqs.SortedUnique | src/ser/inference.py:87 | two strictly sorted listings of the same labels are equal |
| Seqs.SortedDistinct | src/ser/inference.py:87 | the listing is strictly ascending in Python's string order and holds exactly the strings of the input |
| Seqs.TotalOfCounts | src/ser/inference.py:81-88 | counting each distinct label once covers every result exactly once |

## Left out

- src/ser/app.py: the Streamlit page, its charts and upload handling are user interface.
- The scripts, the root-level config.py, app.py and src/ser/__init__.py are not part of
  this model. They hold file moves, an image conversion, path constants and re-exports.
- `build_fallback_model`: the network topology is not modelled. A rebuilt model is known
  only by its input shape `(None, 40, 1)`.
- `keras.models.load_model`, `load_weights`, `model.predict`, librosa and the MFCC mean
  are backend calls. The model does not describe their results beyond what the code does
  with them.
- The float32 conversion of the features is not modelled. Scores are exact reals.
- Probabilities summing to one is not modelled, because the network gives no such
  guarantee to this code.
- Printing and logging are left out. That covers the percentages of `predict_file` and the
  directory summary, the TESS completion report with its actor-folder counts, and the
  `--verbose` log level.
- The `KeyboardInterrupt` handler of `main` (src/ser/inference.py:173-175) is left out.
  Interrupts are not modelled.
- The generic `except Exception` of `main` (src/ser/inference.py:176-179) has no way to
  fire in this model, because every modelled step inside it catches its own exceptions.
- `load_model_with_fallback_legacy` (src/ser/model.py:206-208) is the same loader called
  with an explicit path, which is `Model.LoadModelWithFallback` with `Some(path)`.
- `create_all_features`, `load_features` and `cleanup_tess_processing` are outside the
  modelled core.
- The automatic `ensure_dirs_exist()` at import time (src/ser/config.py:120-122) is left
  out. Where an operation calls it, the model applies `Config.EnsureDirsExist` explicitly.
- The repository root is a constant. The source computes it from its own file location.
- The order of `glob`/`rglob` listings is whatever the file-system value holds.
- Inference.PredictFile and Tess.ProcessTessDataset follow the code as written. The
  corrected definitions under "## Findings" (`Inference.Listing`, `Tess.PlaceFileNumbered`)
  stand beside them with their own properties; no operation of the model calls them.
- File contents are not modelled: the copy of `shutil.copy2`, the arrays `joblib.dump`
  writes. Only which paths exist is tracked.
- Keras.Round4: rounds the exact real value. Python rounds the binary double, so at an
  exact tie the two can differ.
- Text.Lower: lowercases ASCII letters only. Python's `str.lower` also maps other
  alphabets.
- Text.ParseInt: accepts ASCII digits only. Python's `int()` also accepts other Unicode
  decimal digits.
- RunInference.Resolve: does not normalise `..` or follow symbolic links, as
  `Path.resolve()` does.
- Path normalisation by `pathlib` is not modelled: repeated or trailing slashes.
- Paths.MakeDirs: creates only the listed directories, not their missing ancestors as
  `parents=True` does, so `Features.ProcessAudioDirectory` and `Tess.ProcessTessDataset`
  describe an output directory whose parent already exists. It also turns a plain file at
  a listed path into a directory, where `mkdir(exist_ok=True)` raises FileExistsError;
  that error, uncaught in src/ser/features.py:62-63 and src/ser/datasets/tess.py:42-49
  and re-raised at src/ser/config.py:117-118, is not modelled.
- Paths.CreateFiles: the new files exist afterwards but are not added to the `.wav`
  listings, so a `glob` of an actor folder after `Tess.ProcessTessDataset` does not list
  the copies; no operation of the model reads a directory it has just written.

## Findings

| source | as written | input that shows it | evidently intended | confidence | as-written member | corrected member |
|---|---|---|---|---|---|---|
| src/ser/inference.py:37 | the per-emotion listing pairs the result's `emotions` entry, defaulting to an empty list, with the scores; the prediction dictionary built at src/ser/model.py:179-185 has no such entry | any successful single-file prediction, e.g. one with eight scores: the heading is printed with no line under it | one line per configured emotion with its score | not executed | Inference.ListingAsWrittenIsEmpty | Inference.Listing |
| src/ser/datasets/tess.py:91 | the new name holds only the emotion code and the speaker, so every recording of one emotion by one speaker is copied to the same path, each copy replacing the one before, while each still counts as processed | two files `OAF_back_angry.wav` and `OAF_bar_angry.wav`: both go to `Actor_26/02-01-5-01-01-01-26.wav` (the emotion code is written unpadded), and processed is 2 with one file left | each processed recording is kept under a name of its own | not executed | Tess.SameEmotionSameTarget | Tess.PlaceFileNumbered |
