/** The stand-alone predictor of the repository root (ser_model.py): the same input
    adapter and top-1 reading as the package's model module, a loader with no existence
    check that lets the rebuild error through unchanged, and a numeric label for an
    output position beyond the eight emotions. */
module SerModel {
  import opened Wrappers
  import opened Text
  import opened Paths
  import opened Keras
  import Config
  import Model

  /** The output labels of the network, in output order. */
  const EMOTIONS: seq<string> :=
    ["neutral", "calm", "happy", "sad", "angry", "fear", "disgust", "surprised"]

  /** The root predictor uses the package's labels, in the package's order. */
  lemma EmotionsAgree()
    ensures EMOTIONS == Config.EMOTIONS
  {
  }

  /** `adapt_input_shape(model, features)`: the batch axis first, then the list of
      declared shapes unwrapped, then the channel axis for a declared rank of three. */
  function AdaptInputShape(inputShape: InputShape, features: Tensor): (r: Result<Tensor, Error>)
    ensures r == Model.AdaptInputShape(inputShape, features)
  {
    var x := if |features.shape| == 1 then Tensor([1] + features.shape, features.data) else features;
    match Model.DeclaredShape(inputShape)
    case Err(e) => Err(e)
    case Ok(dims) => Ok(if |dims| == 3 && |x.shape| == 2 then Tensor(x.shape + [1], x.data) else x)
  }

  /** `load_model_with_fallback(model_path)`: the saved model, or else the rebuilt
      architecture given the weights by layer name, skipping layers whose shapes differ;
      an exception from the rebuild comes out unchanged. */
  function LoadModelWithFallback(backend: Backend, p: Path): (run: Model.LoadRun)
    ensures run.attempts == if backend.loadModel(p).Ok? then [Model.DirectLoad]
                            else [Model.DirectLoad, Model.RebuildLoad]
    ensures backend.loadModel(p).Ok? ==>
      run.result == Ok(Keras.Model(backend.loadModel(p).value, Deserialized, p))
    ensures backend.loadModel(p).Err? && backend.loadWeights(p, true).Pass? ==>
      run.result == Ok(Keras.Model(FALLBACK_INPUT_SHAPE, Rebuilt(true), p))
    ensures run.result.Err? ==>
      && backend.loadModel(p).Err?
      && backend.loadWeights(p, true).Fail?
      && run.result.error == Raised(backend.loadWeights(p, true).error)
  {
    match backend.loadModel(p)
    case Ok(shape) => Model.LoadRun([Model.DirectLoad], Ok(Keras.Model(shape, Deserialized, p)))
    case Err(_) =>
      match backend.loadWeights(p, true)
      case Pass => Model.LoadRun([Model.DirectLoad, Model.RebuildLoad], Ok(Keras.Model(FALLBACK_INPUT_SHAPE, Rebuilt(true), p)))
      case Fail(e) => Model.LoadRun([Model.DirectLoad, Model.RebuildLoad], Err(Raised(e)))
  }

  /** On a model file that exists, the root loader and the package loader make the same
      attempts and return the same deserialised model; the root loader also tries a file
      that is not there. */
  lemma LoadersAgree(fs: FileSystem, backend: Backend, p: Path)
    ensures Exists(fs, p) ==>
      LoadModelWithFallback(backend, p).attempts == Model.LoadModelWithFallback(fs, backend, Some(p)).attempts
    ensures Exists(fs, p) && backend.loadModel(p).Ok? ==>
      LoadModelWithFallback(backend, p).result == Model.LoadModelWithFallback(fs, backend, Some(p)).result
    ensures !Exists(fs, p) ==>
      Model.LoadModelWithFallback(fs, backend, Some(p)).attempts == [] &&
      |LoadModelWithFallback(backend, p).attempts| >= 1
  {
  }

  /** The label of an output position: the emotion, or the bare index beyond them. */
  function EmotionLabel(index: nat): (name: string)
    ensures index < |EMOTIONS| ==> name == Model.EmotionLabel(index)
    ensures index >= |EMOTIONS| ==> Model.EmotionLabel(index) == "unknown_" + name
  {
    if index < |EMOTIONS| then EMOTIONS[index] else NatToString(index)
  }

  /** `predict_path(model, wav_path)`: features, adapter, network, then the first maximum
      of the first row with its unrounded score. Every exception comes out unchanged. */
  function PredictPath(backend: Backend, model: Keras.Model, file: Path): (r: Result<Model.Prediction, Error>)
    ensures r.Ok? ==> && r.value.file == file
                      && r.value.predIndex < |r.value.probs|
                      && r.value.confidence == r.value.probs[r.value.predIndex]
                      && (forall j :: 0 <= j < |r.value.probs| ==> r.value.probs[j] <= r.value.confidence)
                      && (forall j :: 0 <= j < r.value.predIndex ==> r.value.probs[j] < r.value.confidence)
                      && r.value.predLabel == EmotionLabel(r.value.predIndex)
    ensures backend.decode(file).Err? ==> r == Err(Raised(backend.decode(file).error))
  {
    match backend.decode(file)
    case Err(e) => Err(Raised(e))
    case Ok(values) =>
      match AdaptInputShape(model.inputShape, Vector(values))
      case Err(e) => Err(e)
      case Ok(x) =>
        match backend.predict(model, x)
        case Err(e) => Err(Raised(e))
        case Ok(rows) =>
          if |rows| == 0 then Err(IndexError(EMPTY_BATCH_MESSAGE))
          else if |rows[0]| == 0 then Err(ValueError(EMPTY_ARGMAX_MESSAGE))
          else
            var probs := rows[0];
            var index := ArgMax(probs);
            Ok(Model.Prediction(file, index, EmotionLabel(index), probs[index], probs))
  }

  /** On an audio file that exists, the root predictor succeeds exactly when the package
      predictor does, with the same index and scores; the package rounds the confidence
      that the root leaves as it is; the labels agree on the eight emotions, and beyond
      them the package's is the root's with `unknown_` in front. */
  lemma PredictorsAgree(fs: FileSystem, backend: Backend, model: Keras.Model, file: Path)
    requires Exists(fs, file)
    ensures PredictPath(backend, model, file).Ok? <==> Model.PredictEmotion(fs, backend, model, file).Ok?
    ensures PredictPath(backend, model, file).Ok? ==>
      var mine := PredictPath(backend, model, file).value;
      var theirs := Model.PredictEmotion(fs, backend, model, file).value;
      && mine.(predLabel := theirs.predLabel, confidence := Round4(mine.confidence)) == theirs
      && (mine.predIndex < |EMOTIONS| ==> mine.predLabel == theirs.predLabel)
      && (mine.predIndex >= |EMOTIONS| ==> theirs.predLabel == "unknown_" + mine.predLabel)
  {
    if PredictPath(backend, model, file).Ok? {
      var probs := PredictPath(backend, model, file).value.probs;
      assert Model.NetworkScores(fs, backend, model, file) == Ok(probs);
    }
  }
}
