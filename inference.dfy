/** The command-line front end (src/ser/inference.py): one file, every `.wav` file of a
    directory with an emotion histogram, and the order in which `main` checks its
    arguments. What is printed is left out; each run is described by the values it prints
    and the exit status it ends with. */
module Inference {
  import opened Wrappers
  import opened Paths
  import opened Seqs
  import opened Keras
  import Config
  import Model

  /** One file of a batch: `predict_path(audio_file, model_path)`. */
  function PredictStep(fs: FileSystem, backend: Backend, modelPath: Option<Path>)
    : Path -> Result<Model.Prediction, Error>
  {
    file => Model.PredictPath(fs, backend, file, modelPath)
  }

  /** The predicted labels of a list of results, in order. */
  function Labels(results: seq<Model.Prediction>): (labels: seq<string>)
    ensures |labels| == |results|
    ensures forall k :: 0 <= k < |results| ==> labels[k] == results[k].predLabel
  {
    if results == [] then []
    else Labels(results[..|results| - 1]) + [results[|results| - 1].predLabel]
  }

  /** The emotion distribution the summary lists: each predicted label once, in sorted
      order, with its number of occurrences. */
  function Distribution(labels: seq<string>): seq<(string, nat)> {
    CountsOf(SortedDistinct(labels), labels)
  }

  /** The distribution names exactly the predicted labels, in ascending order, each with
      its number of occurrences, and its counts add up to the number of results. */
  lemma DistributionFacts(labels: seq<string>)
    ensures forall i, j :: 0 <= i < j < |Distribution(labels)| ==>
      Text.LexLess(Distribution(labels)[i].0, Distribution(labels)[j].0)
    ensures forall e :: e in labels <==> exists i :: 0 <= i < |Distribution(labels)| && Distribution(labels)[i].0 == e
    ensures forall i :: 0 <= i < |Distribution(labels)| ==>
      Distribution(labels)[i].1 == Count(labels, Distribution(labels)[i].0) > 0
    ensures Total(Distribution(labels)) == |labels|
  {
    var keys := SortedDistinct(labels);
    TotalOfCounts(keys, labels);
    forall e | e in labels
      ensures exists i :: 0 <= i < |Distribution(labels)| && Distribution(labels)[i].0 == e
    {
      var i :| 0 <= i < |keys| && keys[i] == e;
      assert Distribution(labels)[i].0 == e;
    }
  }

  /** How `predict_directory` ends: exit status 1 without any prediction for a missing
      directory or one without `.wav` files; otherwise the successful predictions in
      listing order, the number of files that failed, and the summary, printed only when
      at least one file succeeded. */
  datatype DirectoryRun =
    | DirectoryNotFound
    | NoWavFiles
    | Processed(results: seq<Model.Prediction>, failures: nat, summary: Option<seq<(string, nat)>>)

  /** What `predict_directory(directory, model_path)` computes. */
  function DirectoryResult(fs: FileSystem, backend: Backend, directory: Path, modelPath: Option<Path>)
    : DirectoryRun
  {
    if !Exists(fs, directory) then DirectoryNotFound
    else if Glob(fs, directory) == [] then NoWavFiles
    else
      var files := Glob(fs, directory);
      var results := Successes(files, PredictStep(fs, backend, modelPath));
      Processed(results, FailureCount(files, PredictStep(fs, backend, modelPath)),
                if results == [] then None else Some(Distribution(Labels(results))))
  }

  /** A failing file does not stop the batch: every file is either a result or a failure;
      the results are the successful predictions in listing order; the summary, when
      there is one, counts every result exactly once. */
  lemma DirectoryResultFacts(fs: FileSystem, backend: Backend, directory: Path, modelPath: Option<Path>)
    requires DirectoryResult(fs, backend, directory, modelPath).Processed?
    ensures var run := DirectoryResult(fs, backend, directory, modelPath);
      var files := Glob(fs, directory);
      && |run.results| + run.failures == |files|
      && (forall k :: 0 <= k < |run.results| ==>
            exists j :: 0 <= j < |files| && Model.PredictPath(fs, backend, files[j], modelPath) == Ok(run.results[k]))
      && (forall j :: 0 <= j < |files| && Model.PredictPath(fs, backend, files[j], modelPath).Ok? ==>
            Model.PredictPath(fs, backend, files[j], modelPath).value in run.results)
      && (run.summary.Some? ==> Total(run.summary.value) == |run.results| && run.results != [])
  {
    var files := Glob(fs, directory);
    var step := PredictStep(fs, backend, modelPath);
    var run := DirectoryResult(fs, backend, directory, modelPath);
    SuccessesPlusFailures(files, step);
    forall k | 0 <= k < |run.results|
      ensures exists j :: 0 <= j < |files| && Model.PredictPath(fs, backend, files[j], modelPath) == Ok(run.results[k])
    {
      SuccessesSound(files, step, k);
    }
    forall j | 0 <= j < |files| && Model.PredictPath(fs, backend, files[j], modelPath).Ok?
      ensures Model.PredictPath(fs, backend, files[j], modelPath).value in run.results
    {
      SuccessesComplete(files, step, j);
    }
    DistributionFacts(Labels(run.results));
  }

  /** `predict_directory(directory, model_path)`. */
  method PredictDirectory(fs: FileSystem, backend: Backend, directory: Path, modelPath: Option<Path>)
    returns (run: DirectoryRun)
    ensures run == DirectoryResult(fs, backend, directory, modelPath)
  {
    if !Exists(fs, directory) {
      return DirectoryNotFound;
    }
    var audioFiles := Glob(fs, directory);
    if |audioFiles| == 0 {
      return NoWavFiles;
    }
    var results, failures := PredictAll(audioFiles, PredictStep(fs, backend, modelPath));
    var summary: Option<seq<(string, nat)>> := None;
    if |results| > 0 {
      var items := Summarize(results);
      summary := Some(items);
    }
    run := Processed(results, failures, summary);
  }

  /** The loop of `predict_directory`: a file whose prediction raises is reported and
      skipped; the others are appended to `results`. */
  method PredictAll(files: seq<Path>, step: Path -> Result<Model.Prediction, Error>)
    returns (results: seq<Model.Prediction>, failures: nat)
    ensures results == Successes(files, step)
    ensures failures == FailureCount(files, step)
  {
    results, failures := [], 0;
    var i := 0;
    while i < |files|
      invariant 0 <= i <= |files|
      invariant results == Successes(files[..i], step)
      invariant failures == FailureCount(files[..i], step)
    {
      var r := step(files[i]);
      SuccessesAppend(files[..i], [files[i]], step);
      FailureCountAppend(files[..i], [files[i]], step);
      assert files[..i + 1] == files[..i] + [files[i]];
      if r.Ok? {
        results := results + [r.value];
      } else {
        failures := failures + 1;
      }
      i := i + 1;
    }
    assert files[..i] == files;
  }

  /** The labels after one more result. */
  lemma LabelsStep(results: seq<Model.Prediction>, i: nat)
    requires i < |results|
    ensures Labels(results[..i + 1]) == Labels(results[..i]) + [results[i].predLabel]
  {
    assert results[..i + 1][..i] == results[..i];
  }

  /** The histogram loop: `emotion_counts[emotion] = emotion_counts.get(emotion, 0) + 1`
      for every result, with the keys in the order the dictionary first saw them. */
  method CountEmotions(results: seq<Model.Prediction>)
    returns (counts: map<string, nat>, order: seq<string>)
    ensures IsHistogram(counts, Labels(results))
    ensures forall e :: e in order <==> e in counts
  {
    counts, order := map[], [];
    var i := 0;
    while i < |results|
      invariant 0 <= i <= |results|
      invariant IsHistogram(counts, Labels(results[..i]))
      invariant forall e :: e in order <==> e in counts
    {
      var emotion := results[i].predLabel;
      LabelsStep(results, i);
      HistogramSnoc(counts, Labels(results[..i]), emotion);
      if emotion !in counts {
        order := order + [emotion];
      }
      counts := counts[emotion := (if emotion in counts then counts[emotion] else 0) + 1];
      i := i + 1;
    }
    assert results[..i] == results;
  }

  /** The summary of a batch: the histogram, listed by `sorted(emotion_counts.items())`,
      which orders it by label since every label appears once. */
  method Summarize(results: seq<Model.Prediction>) returns (items: seq<(string, nat)>)
    ensures items == Distribution(Labels(results))
  {
    var counts, order := CountEmotions(results);
    var keys := SortedDistinct(order);
    SortedUnique(keys, SortedDistinct(Labels(results)));
    items := [];
    var j := 0;
    while j < |keys|
      invariant 0 <= j <= |keys|
      invariant |items| == j
      invariant forall k :: 0 <= k < j ==> items[k] == (keys[k], Count(Labels(results), keys[k]))
    {
      items := items + [(keys[j], counts[keys[j]])];
      j := j + 1;
    }
  }

  /** What `predict_file` shows: the prediction with one line per emotion, or the error
      it exits with. */
  datatype FileReport =
    | Shown(prediction: Model.Prediction, listing: seq<(string, real)>)
    | Failed(error: Error)

  /** The per-emotion listing as written: pairs of `result.get('emotions', [])` with the
      scores, where a prediction never has an `emotions` entry. */
  function ListingAsWritten(prediction: Model.Prediction): (rows: seq<(string, real)>)
    ensures rows == []
  {
    Zip([], prediction.probs)
  }

  /** The listing as written shows nothing, whatever the prediction. */
  lemma ListingAsWrittenIsEmpty(prediction: Model.Prediction)
    requires |prediction.probs| > 0
    ensures ListingAsWritten(prediction) == []
    ensures |Listing(prediction)| > 0
  {
  }

  /** The per-emotion listing the heading announces: each configured emotion with its
      score, in output order. */
  function Listing(prediction: Model.Prediction): (rows: seq<(string, real)>)
    ensures |prediction.probs| <= |Config.EMOTIONS| ==> |rows| == |prediction.probs|
    ensures |rows| <= |prediction.probs| && |rows| <= |Config.EMOTIONS|
    ensures forall i :: 0 <= i < |rows| ==> rows[i] == (Config.EMOTIONS[i], prediction.probs[i])
  {
    Zip(Config.EMOTIONS, prediction.probs)
  }

  /** The listing row of the predicted position shows the predicted label and the score
      the confidence was rounded from. */
  lemma ListingShowsPrediction(prediction: Model.Prediction)
    requires prediction.predIndex < |Listing(prediction)|
    requires prediction.predLabel == Model.EmotionLabel(prediction.predIndex)
    requires prediction.confidence == Round4(prediction.probs[prediction.predIndex])
    ensures Listing(prediction)[prediction.predIndex].0 == prediction.predLabel
    ensures Round4(Listing(prediction)[prediction.predIndex].1) == prediction.confidence
  {
  }

  /** `predict_file(audio_path, model_path)`: any exception ends the run. */
  function PredictFile(fs: FileSystem, backend: Backend, file: Path, modelPath: Option<Path>)
    : (r: FileReport)
    ensures r.Failed? <==> Model.PredictPath(fs, backend, file, modelPath).Err?
    ensures r.Shown? ==> Model.PredictPath(fs, backend, file, modelPath) == Ok(r.prediction)
    ensures r.Failed? ==> r.error == Model.PredictPath(fs, backend, file, modelPath).error
    ensures r.Shown? ==> r.listing == []
  {
    match Model.PredictPath(fs, backend, file, modelPath)
    case Err(e) => Failed(e)
    case Ok(p) => Shown(p, ListingAsWritten(p))
  }

  /** The command line: the positional input (absent or empty counts as not given),
      `--directory`, `--model` and `--examples`. */
  datatype CliArgs = CliArgs(input: Option<string>, directory: bool, model: Option<Path>, examples: bool)

  /** How `main` ends. */
  datatype CliRun =
    | ModelFileNotFound(path: Path)
    | ExamplesNotFound
    | NoInput
    | InputNotFound(path: Path)
    | DirectoryMode(dir: Path, run: DirectoryRun)
    | FileMode(file: Path, report: FileReport)

  /** The status the process exits with: 1 after every error message, 0 otherwise. */
  function ExitStatus(run: CliRun): (status: nat)
    ensures status == 0 || status == 1
    ensures status == 0 ==> run.DirectoryMode? || run.FileMode?
  {
    match run
    case DirectoryMode(_, r) => if r.Processed? then 0 else 1
    case FileMode(_, r) => if r.Failed? then 1 else 0
    case _ => 1
  }

  /** `main()`: an explicit model file must exist; then examples mode; then an input must
      be given and exist; then a directory (by flag or by kind) or a single file. */
  method RunCli(fs: FileSystem, backend: Backend, args: CliArgs) returns (run: CliRun)
    ensures args.model.Some? && !Exists(fs, args.model.value) ==> run == ModelFileNotFound(args.model.value)
    ensures (args.model.None? || Exists(fs, args.model.value)) && args.examples ==>
      if Exists(fs, Config.EXAMPLES_DIR)
      then run == DirectoryMode(Config.EXAMPLES_DIR, DirectoryResult(fs, backend, Config.EXAMPLES_DIR, args.model))
      else run == ExamplesNotFound
    ensures (args.model.None? || Exists(fs, args.model.value)) && !args.examples ==>
      if args.input.None? || args.input.value == "" then run == NoInput
      else if !Exists(fs, args.input.value) then run == InputNotFound(args.input.value)
      else if args.directory || IsDir(fs, args.input.value)
      then run == DirectoryMode(args.input.value, DirectoryResult(fs, backend, args.input.value, args.model))
      else run == FileMode(args.input.value, PredictFile(fs, backend, args.input.value, args.model))
    ensures run.FileMode? ==>
      (ExitStatus(run) == 1 <==> Model.PredictPath(fs, backend, run.file, args.model).Err?)
    ensures run.DirectoryMode? ==>
      (ExitStatus(run) == 0 <==> Exists(fs, run.dir) && Glob(fs, run.dir) != [])
    ensures !run.DirectoryMode? && !run.FileMode? ==> ExitStatus(run) == 1
  {
    var modelPath := args.model;
    if modelPath.Some? && !Exists(fs, modelPath.value) {
      return ModelFileNotFound(modelPath.value);
    }
    if args.examples {
      if Exists(fs, Config.EXAMPLES_DIR) {
        var r := PredictDirectory(fs, backend, Config.EXAMPLES_DIR, modelPath);
        return DirectoryMode(Config.EXAMPLES_DIR, r);
      }
      return ExamplesNotFound;
    }
    if args.input.None? || args.input.value == "" {
      return NoInput;
    }
    var inputPath := args.input.value;
    if !Exists(fs, inputPath) {
      return InputNotFound(inputPath);
    }
    if args.directory || IsDir(fs, inputPath) {
      var r := PredictDirectory(fs, backend, inputPath, modelPath);
      return DirectoryMode(inputPath, r);
    }
    return FileMode(inputPath, PredictFile(fs, backend, inputPath, modelPath));
  }
}
