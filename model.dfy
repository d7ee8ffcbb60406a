/** Loading the emotion model with its rebuild fallback, adapting a feature vector to the
    model's declared input, and reading the top emotion off the network's scores
    (src/ser/model.py). */
module Model {
  import opened Wrappers
  import opened Text
  import opened Paths
  import opened Keras
  import Config
  import Features

  /** The declared shape that decides the reshaping: the only one, or the first of a
      list; an empty list has none and indexing it raises IndexError. */
  function DeclaredShape(inputShape: InputShape): (r: Result<seq<Option<nat>>, Error>)
    ensures r.Err? <==> inputShape == Multiple([])
    ensures r.Err? ==> r.error.IndexError?
    ensures inputShape.Single? ==> r == Ok(inputShape.dims)
    ensures inputShape.Multiple? && inputShape.shapes != [] ==> r == Ok(inputShape.shapes[0])
  {
    match inputShape
    case Single(dims) => Ok(dims)
    case Multiple(shapes) =>
      if |shapes| == 0 then Err(IndexError("list index out of range")) else Ok(shapes[0])
  }

  /** `adapt_input_shape(model, features)`: a copy of the features with a batch axis
      added to a rank-1 vector and, when the model declares three axes, a trailing channel
      axis added to a rank-2 array. */
  function AdaptInputShape(inputShape: InputShape, features: Tensor): (r: Result<Tensor, Error>)
    ensures r.Err? <==> inputShape == Multiple([])
    ensures r.Err? ==> r.error.IndexError?
    ensures r.Ok? ==> r.value.data == features.data
    ensures r.Ok? && |features.shape| == 1 && |DeclaredShape(inputShape).value| == 3 ==>
      r.value.shape == [1, features.shape[0], 1]
    ensures r.Ok? && |features.shape| == 1 && |DeclaredShape(inputShape).value| != 3 ==>
      r.value.shape == [1, features.shape[0]]
    ensures r.Ok? && |features.shape| == 2 && |DeclaredShape(inputShape).value| == 3 ==>
      r.value.shape == features.shape + [1]
    ensures r.Ok? && (|features.shape| > 2 || |features.shape| == 0 ||
                      (|features.shape| == 2 && |DeclaredShape(inputShape).value| != 3)) ==>
      r.value.shape == features.shape
  {
    match DeclaredShape(inputShape)
    case Err(e) => Err(e)
    case Ok(dims) =>
      var x := features;
      var x := if |x.shape| == 1 then Tensor([1] + x.shape, x.data) else x;
      var x := if |dims| == 3 && |x.shape| == 2 then Tensor(x.shape + [1], x.data) else x;
      Ok(x)
  }

  /** Reshaping never changes how many elements the array holds. */
  lemma AdaptKeepsWellFormed(inputShape: InputShape, features: Tensor)
    requires WellFormed(features) && AdaptInputShape(inputShape, features).Ok?
    ensures WellFormed(AdaptInputShape(inputShape, features).value)
  {
    ProductLeadingOne(features.shape);
    ProductTrailingOne(features.shape);
    ProductTrailingOne([1] + features.shape);
  }

  /** Adapting an adapted array changes nothing more. */
  lemma AdaptIdempotent(inputShape: InputShape, features: Tensor)
    requires AdaptInputShape(inputShape, features).Ok?
    ensures AdaptInputShape(inputShape, AdaptInputShape(inputShape, features).value) ==
      AdaptInputShape(inputShape, features)
  {
  }

  /** With a list of declared shapes, only the first one decides the reshaping. */
  lemma AdaptFirstShapeDecides(shapes: seq<seq<Option<nat>>>, features: Tensor)
    requires shapes != []
    ensures AdaptInputShape(Multiple(shapes), features) == AdaptInputShape(Single(shapes[0]), features)
  {
  }

  /** The rebuilt model takes a feature vector of length n as a `(1, n, 1)` array. */
  lemma AdaptForFallback(values: seq<real>)
    ensures AdaptInputShape(FALLBACK_INPUT_SHAPE, Vector(values)) ==
      Ok(Tensor([1, |values|, 1], values))
  {
  }

  /** The label of an output position: the configured emotion, or `unknown_<index>`
      beyond the eight labels. */
  function EmotionLabel(index: nat): (name: string)
    ensures index < |Config.EMOTIONS| ==> name == Config.EMOTIONS[index]
    ensures index >= |Config.EMOTIONS| ==> name == "unknown_" + NatToString(index)
    ensures index >= |Config.EMOTIONS| ==> name !in Config.EMOTIONS
  {
    if index < |Config.EMOTIONS| then Config.EMOTIONS[index]
    else
      var name := "unknown_" + NatToString(index);
      assert name[0] == 'u';
      assert forall i :: 0 <= i < |Config.EMOTIONS| ==> Config.EMOTIONS[i][0] != 'u';
      name
  }

  /** Different output positions never share a label. */
  lemma EmotionLabelInjective(i: nat, j: nat)
    requires EmotionLabel(i) == EmotionLabel(j)
    ensures i == j
  {
    Config.EmotionsDistinct();
    var prefix := "unknown_";
    if i >= |Config.EMOTIONS| && j >= |Config.EMOTIONS| {
      assert EmotionLabel(i)[|prefix|..] == NatToString(i);
      assert EmotionLabel(j)[|prefix|..] == NatToString(j);
      NatToStringInjective(i, j);
    }
  }

  /** The dictionary a prediction returns. */
  datatype Prediction = Prediction(
    file: Path, predIndex: nat, predLabel: string, confidence: real, probs: seq<real>)

  /** The top-1 reading of one row of scores: the first maximum, its label and its score
      rounded to four decimals. */
  function Classify(file: Path, probs: seq<real>): (p: Prediction)
    requires |probs| > 0
    ensures p.file == file && p.probs == probs
    ensures p.predIndex < |probs| && p.confidence == Round4(probs[p.predIndex])
    ensures forall j :: 0 <= j < |probs| ==> probs[j] <= probs[p.predIndex]
    ensures forall j :: 0 <= j < p.predIndex ==> probs[j] < probs[p.predIndex]
    ensures p.predLabel == EmotionLabel(p.predIndex)
  {
    var index := ArgMax(probs);
    Prediction(file, index, EmotionLabel(index), Round4(probs[index]), probs)
  }

  /** The first row of scores the network gives for the adapted features of a file, or
      the text of the exception raised on the way. */
  function NetworkScores(fs: FileSystem, backend: Backend, model: Keras.Model, file: Path)
    : (r: Result<seq<real>, string>)
    ensures Features.ExtractFeatures(fs, backend.decode, file).Err? ==>
      r == Err(Features.ExtractFeatures(fs, backend.decode, file).error.message)
    ensures r.Ok? ==>
      && Features.ExtractFeatures(fs, backend.decode, file).Ok?
      && var x := AdaptInputShape(model.inputShape, Features.ExtractFeatures(fs, backend.decode, file).value);
      && x.Ok?
      && x.value.data == backend.decode(file).value
      && backend.predict(model, x.value).Ok?
      && |backend.predict(model, x.value).value| > 0
      && r.value == backend.predict(model, x.value).value[0]
  {
    match Features.ExtractFeatures(fs, backend.decode, file)
    case Err(e) => Err(e.message)
    case Ok(features) =>
      match AdaptInputShape(model.inputShape, features)
      case Err(e) => Err(e.message)
      case Ok(x) =>
        match backend.predict(model, x)
        case Err(e) => Err(e)
        case Ok(rows) => if |rows| == 0 then Err(EMPTY_BATCH_MESSAGE) else Ok(rows[0])
  }

  /** `predict_emotion(model, audio_path)`: FileNotFoundError for a missing file before
      anything else; a failure in extraction, reshaping, the network or the arg-max
      becomes a ValueError naming the file; otherwise the top-1 reading of the scores. */
  function PredictEmotion(fs: FileSystem, backend: Backend, model: Keras.Model, file: Path)
    : (r: Result<Prediction, Error>)
    ensures !Exists(fs, file) ==> r.Err? && r.error.FileNotFound?
    ensures Exists(fs, file) ==>
      (r.Ok? <==> NetworkScores(fs, backend, model, file).Ok? &&
                  |NetworkScores(fs, backend, model, file).value| > 0)
    ensures Exists(fs, file) && r.Err? ==>
      r.error.ValueError? && StartsWith(r.error.message, "Prediction failed for " + file)
    ensures r.Ok? ==> r.value == Classify(file, NetworkScores(fs, backend, model, file).value)
  {
    if !Exists(fs, file) then
      Err(FileNotFound("Audio file not found: " + file))
    else
      var failed := "Prediction failed for " + file;
      match NetworkScores(fs, backend, model, file)
      case Err(e) =>
        assert (failed + ": " + e)[..|failed|] == failed;
        Err(ValueError(failed + ": " + e))
      case Ok(probs) =>
        if |probs| == 0 then
          assert (failed + ": " + EMPTY_ARGMAX_MESSAGE)[..|failed|] == failed;
          Err(ValueError(failed + ": " + EMPTY_ARGMAX_MESSAGE))
        else Ok(Classify(file, probs))
  }

  /** A load attempt, in the order they are made. */
  datatype LoadAttempt = DirectLoad | RebuildLoad

  /** The attempts a call to the loader made and what it returned. */
  datatype LoadRun = LoadRun(attempts: seq<LoadAttempt>, result: Result<Keras.Model, Error>)

  /** The model file to load: the given one, or the configured one. */
  function ResolveModelPath(fs: FileSystem, modelPath: Option<Path>): Result<Path, Error> {
    match modelPath
    case Some(p) => Ok(p)
    case None => Config.GetModelPath(fs)
  }

  /** `load_model_with_fallback(model_path)`: the file must exist before anything is
      loaded; the saved model is loaded whole, and only when that raises is the
      architecture rebuilt and given the saved weights by layer name; when that raises
      too, a ValueError carries both causes. */
  function LoadModelWithFallback(fs: FileSystem, backend: Backend, modelPath: Option<Path>)
    : (run: LoadRun)
    ensures run.attempts in {[], [DirectLoad], [DirectLoad, RebuildLoad]}
    ensures ResolveModelPath(fs, modelPath).Err? ==>
      run == LoadRun([], Err(ResolveModelPath(fs, modelPath).error))
    ensures ResolveModelPath(fs, modelPath).Ok? ==>
      var p := ResolveModelPath(fs, modelPath).value;
      && (!Exists(fs, p) <==> run.attempts == [])
      && (!Exists(fs, p) ==> run.result.Err? && run.result.error.FileNotFound?)
      && (RebuildLoad in run.attempts <==> Exists(fs, p) && backend.loadModel(p).Err?)
      && (run.result.Ok? ==> run.result.value.file == p)
      && (Exists(fs, p) && backend.loadModel(p).Ok? ==>
            run.result == Ok(Keras.Model(backend.loadModel(p).value, Deserialized, p)))
      && (Exists(fs, p) && backend.loadModel(p).Err? && backend.loadWeights(p, false).Pass? ==>
            run.result == Ok(Keras.Model(FALLBACK_INPUT_SHAPE, Rebuilt(false), p)))
      && (run.result.Err? ==>
            !Exists(fs, p) || (backend.loadModel(p).Err? && backend.loadWeights(p, false).Fail?))
      && (Exists(fs, p) && backend.loadModel(p).Err? && backend.loadWeights(p, false).Fail? ==>
            && run.result.Err?
            && run.result.error.ValueError?
            && Contains(run.result.error.message, p)
            && Contains(run.result.error.message, backend.loadModel(p).error)
            && Contains(run.result.error.message, backend.loadWeights(p, false).error))
  {
    match ResolveModelPath(fs, modelPath)
    case Err(e) => LoadRun([], Err(e))
    case Ok(p) =>
      if !Exists(fs, p) then
        LoadRun([], Err(FileNotFound("Model file not found: " + p)))
      else
        match backend.loadModel(p)
        case Ok(shape) => LoadRun([DirectLoad], Ok(Keras.Model(shape, Deserialized, p)))
        case Err(e) =>
          match backend.loadWeights(p, false)
          case Pass => LoadRun([DirectLoad, RebuildLoad], Ok(Keras.Model(FALLBACK_INPUT_SHAPE, Rebuilt(false), p)))
          case Fail(e2) =>
            LoadRun([DirectLoad, RebuildLoad], Err(ValueError(CombinedLoadError(p, e, e2))))
  }

  /** The message of the ValueError raised when both ways of loading fail. */
  function CombinedLoadError(p: Path, e: string, e2: string): (msg: string)
    ensures Contains(msg, p) && Contains(msg, e) && Contains(msg, e2)
  {
    var head := "Could not load or rebuild model from ";
    var mid := ". Original error: ";
    var tail := ". Rebuild error: ";
    var msg := head + p + mid + e + tail + e2;
    var i1 := |head|;
    var i2 := i1 + |p| + |mid|;
    var i3 := i2 + |e| + |tail|;
    assert msg[i1..i1 + |p|] == p;
    assert msg[i2..i2 + |e|] == e;
    assert msg[i3..i3 + |e2|] == e2;
    ContainsAt(msg, p, i1);
    ContainsAt(msg, e, i2);
    ContainsAt(msg, e2, i3);
    msg
  }

  /** `predict_path(audio_path, model_path)`: load, then predict; a loader failure is
      raised as it is, before the audio file is looked at. */
  function PredictPath(fs: FileSystem, backend: Backend, file: Path, modelPath: Option<Path>)
    : (r: Result<Prediction, Error>)
    ensures LoadModelWithFallback(fs, backend, modelPath).result.Err? ==>
      r == Err(LoadModelWithFallback(fs, backend, modelPath).result.error)
    ensures LoadModelWithFallback(fs, backend, modelPath).result.Ok? ==>
      r == PredictEmotion(fs, backend, LoadModelWithFallback(fs, backend, modelPath).result.value, file)
  {
    match LoadModelWithFallback(fs, backend, modelPath).result
    case Err(e) => Err(e)
    case Ok(model) => PredictEmotion(fs, backend, model, file)
  }

  /** A missing audio file is only reported once a model has been loaded: with a missing
      model file the loader's error wins. */
  lemma ModelCheckedBeforeAudio(fs: FileSystem, backend: Backend, file: Path, p: Path)
    requires !Exists(fs, p)
    ensures PredictPath(fs, backend, file, Some(p)).Err?
    ensures PredictPath(fs, backend, file, Some(p)).error.FileNotFound?
    ensures LoadModelWithFallback(fs, backend, Some(p)).attempts == []
  {
  }
}
