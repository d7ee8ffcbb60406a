/** What the modelled code sees of numpy and Keras: arrays as shape plus row-major data,
    a model's declared input shape, `np.argmax`, and the library calls themselves
    (decoding audio into features, loading a saved model, loading weights into the
    rebuilt architecture, running the network), which are parameters of the model. */
module Keras {
  import opened Wrappers
  import opened Paths

  /** A numpy array: its shape and its elements in row-major order. */
  datatype Tensor = Tensor(shape: seq<nat>, data: seq<real>)

  function Product(dims: seq<nat>): nat {
    if dims == [] then 1 else dims[0] * Product(dims[1..])
  }

  /** The shape accounts for exactly the elements held. */
  predicate WellFormed(t: Tensor) {
    |t.data| == Product(t.shape)
  }

  /** A rank-1 array of the given values, as feature extraction returns. */
  function Vector(values: seq<real>): (t: Tensor)
    ensures |t.shape| == 1 && t.shape[0] == |values| && t.data == values
    ensures WellFormed(t)
  {
    assert Product([|values|]) == |values| * Product([]);
    Tensor([|values|], values)
  }

  /** Adding a leading unit axis (`x[None, :]`) keeps the element count. */
  lemma ProductLeadingOne(dims: seq<nat>)
    ensures Product([1] + dims) == Product(dims)
  {
    assert ([1] + dims)[1..] == dims;
  }

  /** Adding a trailing unit axis (`x[:, :, None]`) keeps the element count. */
  lemma {:induction false} ProductTrailingOne(dims: seq<nat>)
    ensures Product(dims + [1]) == Product(dims)
  {
    if dims == [] {
      assert Product([1]) == 1 * Product([]);
    } else {
      assert (dims + [1])[1..] == dims[1..] + [1];
      ProductTrailingOne(dims[1..]);
    }
  }

  /** `model.input_shape`: one shape tuple, or a list of them for a model with several
      inputs. `None` is a dimension left free, such as the batch axis. */
  datatype InputShape =
    | Single(dims: seq<Option<nat>>)
    | Multiple(shapes: seq<seq<Option<nat>>>)

  /** The input shape of the rebuilt architecture: `input_shape=(40, 1)` behind a free
      batch axis. */
  const FALLBACK_INPUT_SHAPE: InputShape := Single([None, Some(40), Some(1)])

  /** How a model object came to be: deserialised whole, or rebuilt and given weights
      by layer name, with or without skipping layers whose shapes differ. */
  datatype Origin = Deserialized | Rebuilt(skipMismatch: bool)

  /** A loaded model as far as the modelled code inspects it: its declared input, how it
      was obtained and the file its weights came from, so that the network's scores may
      depend on all three. */
  datatype Model = Model(inputShape: InputShape, origin: Origin, file: Path)

  /** The library calls, each with the text of the exception it may raise.
      - `decode(p)`: `librosa.load` plus the MFCC mean, the feature vector of a file;
      - `loadModel(p)`: `keras.models.load_model(p)`, the input shape of the model read;
      - `loadWeights(p, skipMismatch)`: `load_weights(p, by_name=True, ...)` into the
        rebuilt architecture;
      - `predict(m, x)`: `m.predict(x)`, one row of class scores per batch entry. */
  datatype Backend = Backend(
    decode: Path -> Result<seq<real>, string>,
    loadModel: Path -> Result<InputShape, string>,
    loadWeights: (Path, bool) -> Outcome<string>,
    predict: (Model, Tensor) -> Result<seq<seq<real>>, string>)

  /** `np.argmax(probs)`: the first position of a maximum. */
  function ArgMax(probs: seq<real>): (i: nat)
    requires |probs| > 0
    ensures i < |probs|
    ensures forall j :: 0 <= j < |probs| ==> probs[j] <= probs[i]
    ensures forall j :: 0 <= j < i ==> probs[j] < probs[i]
  {
    if |probs| == 1 then 0
    else
      var prefix := probs[..|probs| - 1];
      var k := ArgMax(prefix);
      assert forall j :: 0 <= j < |prefix| ==> prefix[j] == probs[j];
      if probs[|probs| - 1] > probs[k] then |probs| - 1 else k
  }

  /** The first maximum is the only index with both defining properties. */
  lemma ArgMaxUnique(probs: seq<real>, i: nat)
    requires i < |probs|
    requires forall j :: 0 <= j < |probs| ==> probs[j] <= probs[i]
    requires forall j :: 0 <= j < i ==> probs[j] < probs[i]
    ensures ArgMax(probs) == i
  {
    var k := ArgMax(probs);
    assert probs[k] <= probs[i] && probs[i] <= probs[k];
  }

  /** Python's `round(x, 4)` on the exact value: the nearest multiple of 1/10000, a tie
      going to the even multiple. */
  function Round4(x: real): (r: real)
    ensures -1.0 / 20000.0 <= r - x <= 1.0 / 20000.0
    ensures r == (r * 10000.0).Floor as real / 10000.0
  {
    var scaled := x * 10000.0;
    var n := scaled.Floor;
    var frac := scaled - n as real;
    var m := if frac > 0.5 then n + 1
             else if frac < 0.5 then n
             else if n % 2 == 0 then n else n + 1;
    assert (m as real / 10000.0) * 10000.0 == m as real;
    m as real / 10000.0
  }

  /** Rounding a rounded value changes nothing. */
  lemma Round4Idempotent(x: real)
    ensures Round4(Round4(x)) == Round4(x)
  {
    var r := Round4(x);
    var m := (r * 10000.0).Floor;
    assert r * 10000.0 == m as real;
  }

  /** The message numpy gives for `np.argmax` of an empty array. */
  const EMPTY_ARGMAX_MESSAGE: string := "attempt to get argmax of an empty sequence"

  /** The message for `predictions[0]` when the network returns no rows. */
  const EMPTY_BATCH_MESSAGE: string := "index 0 is out of bounds for axis 0 with size 0"
}
