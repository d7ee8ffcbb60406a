/** Path configuration: the fixed directory layout under the repository root, the model
    file with its legacy fallback location, the emotion labels, and the status report of
    which critical paths exist (src/ser/config.py). */
module Config {
  import opened Wrappers
  import opened Paths

  /** The repository root. The source derives it from its own file location at run time;
      every other path is fixed relative to it. */
  const BASE_DIR: Path := "/repo"

  const SRC_DIR: Path := Join(BASE_DIR, "src")
  const DATA_DIR: Path := Join(BASE_DIR, "data")
  const MODELS_DIR: Path := Join(BASE_DIR, "models")
  const SCRIPTS_DIR: Path := Join(BASE_DIR, "scripts")
  const NOTEBOOKS_DIR: Path := Join(BASE_DIR, "notebooks")
  const DOCS_DIR: Path := Join(BASE_DIR, "docs")
  const ASSETS_DIR: Path := Join(BASE_DIR, "assets")
  const RAW_DATA_DIR: Path := Join(DATA_DIR, "raw")
  const PROCESSED_DATA_DIR: Path := Join(DATA_DIR, "processed")
  const EXAMPLES_DIR: Path := Join(DATA_DIR, "examples")
  const RAVDESS_DIR: Path := Join(RAW_DATA_DIR, "ravdess")
  const TESS_DIR: Path := Join(RAW_DATA_DIR, "tess")
  const TESS_ORIGINAL_DIR: Path := Join(BASE_DIR, "TESS_Toronto_emotional_speech_set_data")
  const FEATURES_DIR: Path := Join(PROCESSED_DATA_DIR, "features")
  const DATASET_FEATURES_DIR: Path := Join(PROCESSED_DATA_DIR, "dataset_features")
  const MODEL_PATH: Path := Join(MODELS_DIR, "SER_model.h5")
  const MODEL_PATH_LEGACY: Path := Join(Join(BASE_DIR, "Deep Learning"), "SER_model.h5")

  /** The eight emotion labels; index i of a model output is label i. */
  const EMOTIONS: seq<string> :=
    ["neutral", "calm", "happy", "sad", "angry", "fear", "disgust", "surprised"]

  lemma EmotionsDistinct()
    ensures |EMOTIONS| == 8
    ensures forall i, j :: 0 <= i < j < |EMOTIONS| ==> EMOTIONS[i] != EMOTIONS[j]
  {
  }

  /** The directories `ensure_dirs_exist` creates. */
  const REQUIRED_DIRS: set<Path> := {
    SRC_DIR, DATA_DIR, MODELS_DIR, SCRIPTS_DIR, NOTEBOOKS_DIR, DOCS_DIR, ASSETS_DIR,
    RAW_DATA_DIR, PROCESSED_DATA_DIR, EXAMPLES_DIR, RAVDESS_DIR, TESS_DIR, FEATURES_DIR,
    DATASET_FEATURES_DIR, Join(FEATURES_DIR, "Actor_25"), Join(FEATURES_DIR, "Actor_26")
  }

  /** `ensure_dirs_exist()`: afterwards every required directory exists as a directory,
      and so does the repository root, which `mkdir(parents=True)` creates as their common
      ancestor; nothing that existed before has gone and nothing else appears. */
  function EnsureDirsExist(fs: FileSystem): (r: FileSystem)
    ensures forall d :: d in REQUIRED_DIRS ==> IsDir(r, d)
    ensures IsDir(r, BASE_DIR)
    ensures forall p :: Exists(fs, p) ==> Exists(r, p)
    ensures forall p :: Exists(r, p) && !Exists(fs, p) ==> p in REQUIRED_DIRS || p == BASE_DIR
  {
    MakeDirs(fs, REQUIRED_DIRS + {BASE_DIR})
  }

  /** `get_model_path()`: the primary location when it exists, else the legacy location
      when it exists, else FileNotFoundError. */
  function GetModelPath(fs: FileSystem): (r: Result<Path, Error>)
    ensures r.Ok? ==> Exists(fs, r.value)
    ensures r.Ok? ==> r.value == MODEL_PATH || r.value == MODEL_PATH_LEGACY
    ensures Exists(fs, MODEL_PATH) ==> r == Ok(MODEL_PATH)
    ensures r == Ok(MODEL_PATH_LEGACY) ==> !Exists(fs, MODEL_PATH)
    ensures r.Err? <==> !Exists(fs, MODEL_PATH) && !Exists(fs, MODEL_PATH_LEGACY)
    ensures r.Err? ==> r.error.FileNotFound?
  {
    assert MODEL_PATH[6] != MODEL_PATH_LEGACY[6];
    if Exists(fs, MODEL_PATH) then Ok(MODEL_PATH)
    else if Exists(fs, MODEL_PATH_LEGACY) then Ok(MODEL_PATH_LEGACY)
    else Err(FileNotFound(
      "Model not found at " + MODEL_PATH + " or " + MODEL_PATH_LEGACY + ". "
      + "Please ensure the model file exists."))
  }

  /** The keys of the status dictionary `validate_paths` returns. */
  datatype StatusKey = BaseDir | ModelFile | Examples | Features | DatasetFeatures | XFeatures | YFeatures
  {
    /** The dictionary key as the source spells it. */
    function Name(): string {
      match this
      case BaseDir => "base_dir"
      case ModelFile => "model"
      case Examples => "examples"
      case Features => "features"
      case DatasetFeatures => "dataset_features"
      case XFeatures => "X_features"
      case YFeatures => "y_features"
    }
  }

  /** The status dictionary, as its items in insertion order. */
  type Status = seq<(StatusKey, bool)>

  /** No key occurs twice, as in a dictionary. */
  predicate DistinctKeys(status: Status) {
    forall i, j :: 0 <= i < j < |status| ==> status[i].0 != status[j].0
  }

  /** `status.get(key)`: the value of the first item with that key. */
  function Lookup(status: Status, key: StatusKey): (r: Option<bool>)
    ensures r.Some? <==> exists i :: 0 <= i < |status| && status[i].0 == key
  {
    if status == [] then None
    else if status[0].0 == key then Some(status[0].1)
    else
      var r := Lookup(status[1..], key);
      assert forall i :: 1 <= i < |status| ==> status[i] == status[1..][i - 1];
      r
  }

  /** In a dictionary, looking up the key of an item finds that item's value. */
  lemma {:induction false} LookupAt(status: Status, i: nat)
    requires DistinctKeys(status) && i < |status|
    ensures Lookup(status, status[i].0) == Some(status[i].1)
  {
    if i > 0 {
      assert status[0].0 != status[i].0;
      assert status[1..][i - 1] == status[i];
      LookupAt(status[1..], i - 1);
    }
  }

  /** The five base entries, optionally followed by the two feature-file entries, form a
      dictionary in which every key finds its own entry. */
  lemma StatusLookups(status: Status)
    requires |status| == 5 || |status| == 7
    requires status[0].0 == BaseDir && status[1].0 == ModelFile && status[2].0 == Examples
    requires status[3].0 == Features && status[4].0 == DatasetFeatures
    requires |status| == 7 ==> status[5].0 == XFeatures && status[6].0 == YFeatures
    ensures DistinctKeys(status)
    ensures forall i :: 0 <= i < |status| ==> Lookup(status, status[i].0) == Some(status[i].1)
    ensures |status| == 5 ==> Lookup(status, XFeatures).None? && Lookup(status, YFeatures).None?
  {
    forall i | 0 <= i < |status| ensures Lookup(status, status[i].0) == Some(status[i].1) {
      LookupAt(status, i);
    }
  }

  const X_FEATURES_PATH: Path := Join(DATASET_FEATURES_DIR, "X.joblib")
  const Y_FEATURES_PATH: Path := Join(DATASET_FEATURES_DIR, "y.joblib")

  /** `validate_paths()`: raises exactly when `get_model_path()` does, so a returned status
      never says the model is missing; the two feature-file keys are added only when the
      dataset_features directory exists. */
  method ValidatePaths(fs: FileSystem) returns (r: Result<Status, Error>)
    ensures r.Err? <==> GetModelPath(fs).Err?
    ensures r.Err? ==> r.error == GetModelPath(fs).error
    ensures r.Ok? ==> DistinctKeys(r.value)
    ensures r.Ok? ==> |r.value| == if Exists(fs, DATASET_FEATURES_DIR) then 7 else 5
    ensures r.Ok? ==> Lookup(r.value, ModelFile) == Some(true)
    ensures r.Ok? ==> Lookup(r.value, BaseDir) == Some(Exists(fs, BASE_DIR))
    ensures r.Ok? ==>
      Lookup(r.value, Examples) == Some(Exists(fs, EXAMPLES_DIR) && |Glob(fs, EXAMPLES_DIR)| > 0)
    ensures r.Ok? ==> Lookup(r.value, Features) == Some(Exists(fs, FEATURES_DIR))
    ensures r.Ok? ==> Lookup(r.value, DatasetFeatures) == Some(Exists(fs, DATASET_FEATURES_DIR))
    ensures r.Ok? && Exists(fs, DATASET_FEATURES_DIR) ==>
      Lookup(r.value, XFeatures) == Some(Exists(fs, X_FEATURES_PATH)) &&
      Lookup(r.value, YFeatures) == Some(Exists(fs, Y_FEATURES_PATH))
    ensures r.Ok? && !Exists(fs, DATASET_FEATURES_DIR) ==>
      Lookup(r.value, XFeatures).None? && Lookup(r.value, YFeatures).None?
  {
    var modelPath := GetModelPath(fs);
    if modelPath.Err? {
      return Err(modelPath.error);
    }
    var status: Status := [
      (BaseDir, Exists(fs, BASE_DIR)),
      (ModelFile, Exists(fs, modelPath.value)),
      (Examples, Exists(fs, EXAMPLES_DIR) && |Glob(fs, EXAMPLES_DIR)| > 0),
      (Features, Exists(fs, FEATURES_DIR)),
      (DatasetFeatures, Exists(fs, DATASET_FEATURES_DIR))
    ];
    if Exists(fs, DATASET_FEATURES_DIR) {
      status := status + [(XFeatures, Exists(fs, X_FEATURES_PATH))];
      status := status + [(YFeatures, Exists(fs, Y_FEATURES_PATH))];
    }
    StatusLookups(status);
    return Ok(status);
  }

  /** `[k for k, v in status.items() if not v]`: the keys whose value is false, in order. */
  function Missing(status: Status): (m: seq<StatusKey>)
    ensures |m| <= |status|
    ensures forall k :: k in m <==> exists i :: 0 <= i < |status| && status[i] == (k, false)
  {
    if status == [] then []
    else
      var rest := Missing(status[1..]);
      assert forall i :: 1 <= i < |status| ==> status[i] == status[1..][i - 1];
      (if !status[0].1 then [status[0].0] else []) + rest
  }

  /** In a dictionary, a key is reported missing exactly when it maps to false. */
  lemma MissingIff(status: Status, key: StatusKey)
    requires DistinctKeys(status)
    ensures key in Missing(status) <==> Lookup(status, key) == Some(false)
  {
    if Lookup(status, key).Some? {
      var i :| 0 <= i < |status| && status[i].0 == key;
      LookupAt(status, i);
    }
  }

  /** `setup_environment()`: creates the required directories, then reports the status
      keys that are false. After the directories are made, only the examples and the two
      feature files can be missing; an error from `validate_paths` is re-raised. */
  method SetupEnvironment(fs: FileSystem) returns (r: Result<seq<StatusKey>, Error>)
    ensures r.Err? <==> GetModelPath(EnsureDirsExist(fs)).Err?
    ensures r.Err? ==> r.error == GetModelPath(EnsureDirsExist(fs)).error
    ensures r.Ok? ==> forall k :: k in r.value ==> k in {Examples, XFeatures, YFeatures}
    ensures r.Ok? ==>
      (Examples in r.value <==> |Glob(EnsureDirsExist(fs), EXAMPLES_DIR)| == 0)
    ensures r.Ok? ==> (XFeatures in r.value <==> !Exists(EnsureDirsExist(fs), X_FEATURES_PATH))
    ensures r.Ok? ==> (YFeatures in r.value <==> !Exists(EnsureDirsExist(fs), Y_FEATURES_PATH))
  {
    var ready := EnsureDirsExist(fs);
    assert IsDir(ready, EXAMPLES_DIR) && IsDir(ready, FEATURES_DIR) && IsDir(ready, DATASET_FEATURES_DIR);
    var status := ValidatePaths(ready);
    if status.Err? {
      return Err(status.error);
    }
    var s := status.value;
    var missing := Missing(s);
    MissingIff(s, BaseDir);
    MissingIff(s, ModelFile);
    MissingIff(s, Examples);
    MissingIff(s, Features);
    MissingIff(s, DatasetFeatures);
    MissingIff(s, XFeatures);
    MissingIff(s, YFeatures);
    return Ok(missing);
  }
}
