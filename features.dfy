/** Feature extraction and the labelled feature set of a directory of RAVDESS-named
    recordings (src/ser/features.py). The MFCC computation itself is the decoder of the
    Keras backend. */
module Features {
  import opened Wrappers
  import opened Text
  import opened Paths
  import opened Seqs
  import Config
  import opened Keras

  /** The RAVDESS emotion codes. */
  const EMOTION_MAP: map<int, string> := map[
    1 := "neutral", 2 := "calm", 3 := "happy", 4 := "sad",
    5 := "angry", 6 := "fear", 7 := "disgust", 8 := "surprised"]

  /** Code i + 1 stands for the i-th configured emotion label. */
  lemma EmotionMapMatchesConfig()
    ensures forall i :: 0 <= i < |Config.EMOTIONS| ==>
      i + 1 in EMOTION_MAP && EMOTION_MAP[i + 1] == Config.EMOTIONS[i]
    ensures forall c :: c in EMOTION_MAP <==> 1 <= c <= 8
  {
  }

  /** `emotion_map.get(code, "unknown")`. */
  function EmotionOfCode(code: int): (name: string)
    ensures 1 <= code <= 8 ==> name == Config.EMOTIONS[code - 1]
    ensures !(1 <= code <= 8) ==> name == "unknown"
  {
    EmotionMapMatchesConfig();
    if code in EMOTION_MAP then EMOTION_MAP[code] else "unknown"
  }

  /** The text of the ValueError `int(s)` raises. */
  function IntErrorMessage(s: string): string {
    "invalid literal for int() with base 10: '" + s + "'"
  }

  /** The label of a recording from its stem `modality-channel-emotion-...`: the third
      `-`-separated field read as an emotion code. A third field that is not an integer
      raises, so the file is skipped rather than labelled. */
  function LabelFromStem(stem: string): (r: Result<string, Error>)
    ensures |Split(stem, '-')| < 3 ==> r == Ok("unknown")
    ensures |Split(stem, '-')| >= 3 ==>
      match ParseInt(Split(stem, '-')[2])
      case None => r.Err? && r.error.ValueError?
      case Some(code) => r == Ok(if 1 <= code <= 8 then Config.EMOTIONS[code - 1] else "unknown")
  {
    var parts := Split(stem, '-');
    if |parts| >= 3 then
      match ParseInt(parts[2])
      case None => Err(ValueError(IntErrorMessage(parts[2])))
      case Some(code) => Ok(EmotionOfCode(code))
    else Ok("unknown")
  }

  /** Every label this parse yields is an emotion label or "unknown". */
  lemma LabelFromStemRange(stem: string)
    ensures LabelFromStem(stem).Ok? ==>
      LabelFromStem(stem).value in Config.EMOTIONS || LabelFromStem(stem).value == "unknown"
  {
  }

  /** `extract_features(path)`: FileNotFoundError for a missing file before anything is
      decoded; a decoder failure becomes a ValueError naming the file; otherwise the
      rank-1 feature vector. */
  function ExtractFeatures(fs: FileSystem, decode: Path -> Result<seq<real>, string>, path: Path)
    : (r: Result<Tensor, Error>)
    ensures !Exists(fs, path) ==> r.Err? && r.error.FileNotFound?
    ensures Exists(fs, path) ==> (r.Err? <==> decode(path).Err?)
    ensures Exists(fs, path) && r.Err? ==>
      r.error.ValueError? && Contains(r.error.message, path) && Contains(r.error.message, decode(path).error)
    ensures r.Ok? ==> |r.value.shape| == 1 && r.value.data == decode(path).value && WellFormed(r.value)
  {
    if !Exists(fs, path) then
      Err(FileNotFound("Audio file not found: " + path))
    else
      match decode(path)
      case Err(e) =>
        var msg := "Failed to extract features from " + path + ": " + e;
        ContainsMiddle("Failed to extract features from ", path, ": " + e);
        ContainsMiddle("Failed to extract features from " + path + ": ", e, "");
        assert msg == "Failed to extract features from " + path + ": " + e + "";
        assert msg == "Failed to extract features from " + path + (": " + e);
        Err(ValueError(msg))
      case Ok(values) => Ok(Vector(values))
  }

  /** One iteration of the loop over the recordings: the label is read first, so a
      malformed name is skipped without decoding; then the features are extracted. */
  function ProcessFile(fs: FileSystem, decode: Path -> Result<seq<real>, string>, file: Path)
    : (r: Result<(Tensor, string), Error>)
    ensures r.Ok? ==> LabelFromStem(Stem(file)) == Ok(r.value.1)
    ensures r.Ok? ==> ExtractFeatures(fs, decode, file) == Ok(r.value.0)
    ensures r.Err? <==> LabelFromStem(Stem(file)).Err? || ExtractFeatures(fs, decode, file).Err?
  {
    match LabelFromStem(Stem(file))
    case Err(e) => Err(e)
    case Ok(emotion) =>
      match ExtractFeatures(fs, decode, file)
      case Err(e) => Err(e)
      case Ok(features) => Ok((features, emotion))
  }

  function FileStep(fs: FileSystem, decode: Path -> Result<seq<real>, string>)
    : Path -> Result<(Tensor, string), Error>
  {
    file => ProcessFile(fs, decode, file)
  }

  /** How `process_audio_directory` ends. */
  datatype DirectoryRun =
    | AudioDirMissing
    | NoWavFiles
    | NothingExtracted
    | Saved(features: seq<Tensor>, labels: seq<string>)

  /** The file system once the feature and output directories are in place. */
  function Prepared(fs: FileSystem, outputDir: Path): FileSystem {
    MakeDirs(Config.EnsureDirsExist(fs), {outputDir})
  }

  /** `joblib.dump` of the feature matrix and label vector into `outputDir`. */
  function WithSavedFeatures(fs: FileSystem, outputDir: Path): FileSystem {
    CreateFiles(fs, {Paths.Join(outputDir, "X.joblib"), Paths.Join(outputDir, "y.joblib")})
  }

  /** `process_audio_directory(audio_dir, output_dir)`: label and extract every `.wav`
      file of the directory, skipping the ones that fail, and save the two parallel lists
      when at least one file succeeded. Entry k of the features and entry k of the labels
      come from the same file, and the files contribute in listing order. */
  method ProcessAudioDirectory(
    fs: FileSystem, decode: Path -> Result<seq<real>, string>, audioDir: Path, outputDir: Path)
    returns (run: DirectoryRun, fs': FileSystem)
    ensures !Exists(fs, audioDir) ==> run == AudioDirMissing && fs' == fs
    ensures Exists(fs, audioDir) && Glob(Prepared(fs, outputDir), audioDir) == [] ==>
      run == NoWavFiles && fs' == Prepared(fs, outputDir)
    ensures Exists(fs, audioDir) && Glob(Prepared(fs, outputDir), audioDir) != [] ==>
      var ready := Prepared(fs, outputDir);
      var done := Successes(Glob(ready, audioDir), FileStep(ready, decode));
      && (run.Saved? <==> done != [])
      && (run.Saved? ==> fs' == WithSavedFeatures(ready, outputDir))
      && (!run.Saved? ==> run == NothingExtracted && fs' == ready)
      && (run.Saved? ==>
            |run.features| == |run.labels| == |done| &&
            forall k :: 0 <= k < |done| ==> done[k] == (run.features[k], run.labels[k]))
  {
    if !Exists(fs, audioDir) {
      return AudioDirMissing, fs;
    }
    var ready := Prepared(fs, outputDir);
    var files := Glob(ready, audioDir);
    if |files| == 0 {
      return NoWavFiles, ready;
    }
    var featuresList, labelsList := CollectFeatures(files, FileStep(ready, decode));
    if |featuresList| > 0 {
      return Saved(featuresList, labelsList), WithSavedFeatures(ready, outputDir);
    }
    return NothingExtracted, ready;
  }

  /** The loop of `process_audio_directory`, with `step` the work on one file: the
      features and labels of the files that succeed, appended in step, in listing order. */
  method CollectFeatures(files: seq<Path>, step: Path -> Result<(Tensor, string), Error>)
    returns (featuresList: seq<Tensor>, labelsList: seq<string>)
    ensures |featuresList| == |labelsList| == |Successes(files, step)|
    ensures forall k :: 0 <= k < |featuresList| ==>
      Successes(files, step)[k] == (featuresList[k], labelsList[k])
  {
    featuresList, labelsList := [], [];
    var i := 0;
    while i < |files|
      invariant 0 <= i <= |files|
      invariant |featuresList| == |labelsList| == |Successes(files[..i], step)|
      invariant forall k :: 0 <= k < |featuresList| ==>
        Successes(files[..i], step)[k] == (featuresList[k], labelsList[k])
    {
      var r := step(files[i]);
      SuccessesAppend(files[..i], [files[i]], step);
      assert files[..i + 1] == files[..i] + [files[i]];
      if r.Ok? {
        featuresList := featuresList + [r.value.0];
        labelsList := labelsList + [r.value.1];
      }
      i := i + 1;
    }
    assert files[..i] == files;
  }

  /** Each saved pair comes from one recording of the directory: its label is the one its
      name gives and its features are the ones extracted from it. */
  lemma SavedPairsFromFiles(
    fs: FileSystem, decode: Path -> Result<seq<real>, string>, files: seq<Path>, k: nat)
    requires k < |Successes(files, FileStep(fs, decode))|
    ensures exists j ::
      && 0 <= j < |files|
      && LabelFromStem(Stem(files[j])) == Ok(Successes(files, FileStep(fs, decode))[k].1)
      && ExtractFeatures(fs, decode, files[j]) == Ok(Successes(files, FileStep(fs, decode))[k].0)
  {
    SuccessesSound(files, FileStep(fs, decode), k);
  }

  /** A failing recording does not stop the rest: every recording whose label and
      features are both available is among the saved pairs. */
  lemma EverySuccessSaved(
    fs: FileSystem, decode: Path -> Result<seq<real>, string>, files: seq<Path>, j: nat)
    requires j < |files|
    requires LabelFromStem(Stem(files[j])).Ok? && ExtractFeatures(fs, decode, files[j]).Ok?
    ensures (ExtractFeatures(fs, decode, files[j]).value, LabelFromStem(Stem(files[j])).value)
      in Successes(files, FileStep(fs, decode))
  {
    SuccessesComplete(files, FileStep(fs, decode), j);
  }

  /** Nothing is saved exactly when every recording fails. */
  lemma NothingSavedIffAllFail(
    fs: FileSystem, decode: Path -> Result<seq<real>, string>, files: seq<Path>)
    ensures Successes(files, FileStep(fs, decode)) == [] <==>
      forall j :: 0 <= j < |files| ==> ProcessFile(fs, decode, files[j]).Err?
  {
    SuccessesEmpty(files, FileStep(fs, decode));
  }
}
