/** The stand-alone script of the repository root (run_inference.py): its own labels,
    adapter and loader, the prediction through the root predictor, and the two existence
    checks of `main`. */
module RunInference {
  import opened Wrappers
  import opened Text
  import opened Paths
  import opened Keras
  import Model
  import SerModel

  /** The script's own copy of the output labels. */
  const EMOTIONS: seq<string> :=
    ["neutral", "calm", "happy", "sad", "angry", "fear", "disgust", "surprised"]

  /** The script's labels are the root predictor's, in the same order. */
  lemma EmotionsAgree()
    ensures EMOTIONS == SerModel.EMOTIONS
  {
  }

  /** `adapt_input_shape(model, features)`: the declared shape is read first, the batch
      axis added, then the list unwrapped and the channel axis added for rank three. */
  function AdaptInputShape(inputShape: InputShape, features: Tensor): (r: Result<Tensor, Error>)
    ensures r == SerModel.AdaptInputShape(inputShape, features)
  {
    var declared := inputShape;
    var x := if |features.shape| == 1 then Tensor([1] + features.shape, features.data) else features;
    match declared
    case Multiple(shapes) =>
      if |shapes| == 0 then Err(IndexError("list index out of range"))
      else Ok(if |shapes[0]| == 3 && |x.shape| == 2 then Tensor(x.shape + [1], x.data) else x)
    case Single(dims) =>
      Ok(if |dims| == 3 && |x.shape| == 2 then Tensor(x.shape + [1], x.data) else x)
  }

  /** The script's own `load_model_with_fallback`, which replaces the imported one: the
      direct load first, the rebuild with weights by name only after it raises. */
  function LoadModelWithFallback(backend: Backend, p: Path): (run: Model.LoadRun)
    ensures run == SerModel.LoadModelWithFallback(backend, p)
  {
    match backend.loadModel(p)
    case Ok(shape) => Model.LoadRun([Model.DirectLoad], Ok(Keras.Model(shape, Deserialized, p)))
    case Err(_) =>
      match backend.loadWeights(p, true)
      case Pass => Model.LoadRun([Model.DirectLoad, Model.RebuildLoad], Ok(Keras.Model(FALLBACK_INPUT_SHAPE, Rebuilt(true), p)))
      case Fail(e) => Model.LoadRun([Model.DirectLoad, Model.RebuildLoad], Err(Raised(e)))
  }

  /** `predict(model_path, wav_path)`: the script's loader, then the root predictor, with
      the confidence rounded to four decimals afterwards. */
  function Predict(backend: Backend, modelPath: Path, file: Path): (r: Result<Model.Prediction, Error>)
    ensures LoadModelWithFallback(backend, modelPath).result.Err? ==>
      r == Err(LoadModelWithFallback(backend, modelPath).result.error)
    ensures LoadModelWithFallback(backend, modelPath).result.Ok? ==>
      var model := LoadModelWithFallback(backend, modelPath).result.value;
      && (r.Ok? <==> SerModel.PredictPath(backend, model, file).Ok?)
      && (r.Err? ==> r == SerModel.PredictPath(backend, model, file))
      && (r.Ok? ==> var p := SerModel.PredictPath(backend, model, file).value;
                    r.value == p.(confidence := Round4(p.confidence)))
  {
    match LoadModelWithFallback(backend, modelPath).result
    case Err(e) => Err(e)
    case Ok(model) =>
      match SerModel.PredictPath(backend, model, file)
      case Err(e) => Err(e)
      case Ok(result) => Ok(result.(confidence := Round4(result.confidence)))
  }

  /** The defaults of `--model` and `--file`. */
  const DEFAULT_MODEL: string := "Deep Learning/SER_model.h5"
  const DEFAULT_FILE: string := "examples/10-16-07-29-82-30-63.wav"

  /** `Path(p).resolve()` from the working directory `cwd`, for a path free of `..` and
      links. */
  function Resolve(cwd: Path, p: string): (r: Path)
    ensures StartsWith(p, "/") ==> r == p
    ensures !StartsWith(p, "/") ==> r == Paths.Join(cwd, p)
  {
    if StartsWith(p, "/") then p else Paths.Join(cwd, p)
  }

  /** `main()`: the model file must exist, then the audio file, and only then is anything
      loaded. */
  function RunMain(fs: FileSystem, backend: Backend, cwd: Path, modelArg: Option<string>, fileArg: Option<string>)
    : (r: Result<Model.Prediction, Error>)
    ensures var m := Resolve(cwd, modelArg.GetOr(DEFAULT_MODEL));
      var w := Resolve(cwd, fileArg.GetOr(DEFAULT_FILE));
      && (!Exists(fs, m) ==> r == Err(FileNotFound("Model not found at " + m)))
      && (Exists(fs, m) && !Exists(fs, w) ==> r == Err(FileNotFound("Audio file not found at " + w)))
      && (Exists(fs, m) && Exists(fs, w) ==> r == Predict(backend, m, w))
  {
    var modelPath := Resolve(cwd, modelArg.GetOr(DEFAULT_MODEL));
    var wavPath := Resolve(cwd, fileArg.GetOr(DEFAULT_FILE));
    if !Exists(fs, modelPath) then Err(FileNotFound("Model not found at " + modelPath))
    else if !Exists(fs, wavPath) then Err(FileNotFound("Audio file not found at " + wavPath))
    else Predict(backend, modelPath, wavPath)
  }

  /** When either file is missing, no library call is made: the outcome is the same
      whatever the backend does. */
  lemma ChecksBeforeAnyCall(
    fs: FileSystem, b1: Backend, b2: Backend, cwd: Path, modelArg: Option<string>, fileArg: Option<string>)
    requires !Exists(fs, Resolve(cwd, modelArg.GetOr(DEFAULT_MODEL))) ||
             !Exists(fs, Resolve(cwd, fileArg.GetOr(DEFAULT_FILE)))
    ensures RunMain(fs, b1, cwd, modelArg, fileArg) == RunMain(fs, b2, cwd, modelArg, fileArg)
    ensures RunMain(fs, b1, cwd, modelArg, fileArg).Err?
    ensures RunMain(fs, b1, cwd, modelArg, fileArg).error.FileNotFound?
  {
  }
}
