/**
 * `Model.make_prediction`: one call of the loaded serving signature, then the reading of its
 * rank-2 output as one labelled probability list per input image.
 */
module InferenceModel {
  import opened Results
  import opened PyErrors

  /** The preprocessed image batch; its numbers are opaque here and only passed on. */
  datatype Tensor = Tensor(shape: seq<nat>, values: seq<real>)

  /** What `make_prediction` is given: a TensorFlow tensor, or some other Python object. */
  datatype ModelInput = TensorInput(tensor: Tensor) | NonTensor

  /** A NumPy array read back from the backend: its rank and, for rank 2, its rows and column count. */
  datatype NdArray = NdArray(rank: nat, rows: seq<seq<real>>, width: nat)

  predicate Rectangular(a: NdArray) {
    forall j | 0 <= j < |a.rows| :: |a.rows[j]| == a.width
  }

  /** Every row has `width` columns, so an array with no rows still has a width. */
  type Array = a: NdArray | Rectangular(a) witness NdArray(2, [], 0)

  /** The serving signature: its named outputs, or the exception it raised. */
  type Backend = Tensor -> Result<map<string, Array>, PyException>

  /** One image's result: labels with probabilities, in the insertion order of the Python dict. */
  type LabelledRow = seq<(string, real)>

  type Prediction = seq<LabelledRow>

  const OutputKey := "output_0"
  const Malignant := "Malignant"
  const Benign := "Benign"
  const BinaryClasses: seq<string> := [Malignant, Benign]
  const SkinClasses: seq<string> := [
    "Actinic keratoses", "Basal cell carcinoma", "Benign keratosis-like lesions",
    "Dermatofibroma", "Melanocytic nevi", "Melanoma", "Vascular lesions"
  ]

  const NotATensorMessage := "Input data must be a TensorFlow tensor."
  /** The same text as the literal KeyError message, written around the key it names. */
  const MissingOutputMessage := "Expected key '" + OutputKey + "' not found in model output."
  const ShapeMessage := "Unexpected output shape from model."
  const MismatchMessage := "Mismatch between model output size and expected class labels."

  function Labels(row: LabelledRow): (labels: seq<string>)
    ensures |labels| == |row|
  {
    seq(|row|, i requires 0 <= i < |row| => row[i].0)
  }

  function Probabilities(row: LabelledRow): (values: seq<real>)
    ensures |values| == |row|
  {
    seq(|row|, i requires 0 <= i < |row| => row[i].1)
  }

  /** `{"Malignant": 1 - p, "Benign": p}` for a one-column output value `p`. */
  function BinaryRow(p: real): (row: LabelledRow)
    ensures Labels(row) == BinaryClasses
    ensures row[1].1 == p && row[0].1 + row[1].1 == 1.0
  {
    [(Malignant, 1.0 - p), (Benign, p)]
  }

  /** `{classes[i]: prob for i, prob in enumerate(pred)}` for a seven-column output row. */
  function MultiClassRow(pred: seq<real>): (row: LabelledRow)
    requires |pred| == |SkinClasses|
    ensures Labels(row) == SkinClasses && Probabilities(row) == pred
  {
    seq(|pred|, i requires 0 <= i < |pred| => (SkinClasses[i], pred[i]))
  }

  /** The branch on the column count of a rank-2 output. */
  function Interpret(a: Array): (r: Result<Prediction, PyException>)
    ensures r.Success? <==> a.width == 1 || a.width == |SkinClasses|
    ensures r.Failure? ==> r.error == ValueError(MismatchMessage)
    ensures r.Success? ==> |r.value| == |a.rows|
    ensures r.Success? && a.width == 1 ==>
      forall j | 0 <= j < |a.rows| :: Labels(r.value[j]) == BinaryClasses && r.value[j][1].1 == a.rows[j][0]
    ensures r.Success? && a.width == |SkinClasses| ==>
      forall j | 0 <= j < |a.rows| :: Labels(r.value[j]) == SkinClasses && Probabilities(r.value[j]) == a.rows[j]
  {
    if a.width == 1 then
      Success(seq(|a.rows|, j requires 0 <= j < |a.rows| => BinaryRow(a.rows[j][0])))
    else if a.width != |SkinClasses| then
      Failure(ValueError(MismatchMessage))
    else
      Success(seq(|a.rows|, j requires 0 <= j < |a.rows| => MultiClassRow(a.rows[j])))
  }

  /** `Model.make_prediction(data)` with the loaded serving signature passed in as `backend`. */
  function MakePrediction(data: ModelInput, backend: Backend): (r: Result<Prediction, PyException>)
    ensures r.Success? ==> data.TensorInput? && backend(data.tensor).Success?
    ensures r.Success? ==> var outputs := backend(data.tensor).value;
      OutputKey in outputs && outputs[OutputKey].rank == 2 && Interpret(outputs[OutputKey]) == r
  {
    if data.NonTensor? then Failure(ValueError(NotATensorMessage))
    else match backend(data.tensor)
      case Failure(e) => Failure(e)
      case Success(outputs) =>
        if OutputKey !in outputs then Failure(KeyError(MissingOutputMessage))
        else if outputs[OutputKey].rank != 2 then Failure(ValueError(ShapeMessage))
        else Interpret(outputs[OutputKey])
  }

  /**
   * A prediction is made exactly when the input is a tensor, the backend answers, its answer has
   * `output_0`, and that output has rank 2 with one or seven columns.
   */
  lemma MakePredictionSucceedsIff(data: ModelInput, backend: Backend)
    ensures MakePrediction(data, backend).Success? <==>
      && data.TensorInput? && backend(data.tensor).Success?
      && OutputKey in backend(data.tensor).value
      && var a := backend(data.tensor).value[OutputKey];
      && a.rank == 2 && (a.width == 1 || a.width == 7)
  {
  }

  /** The raw output a prediction was read from: the Benign column, or all seven columns. */
  function RawRows(p: Prediction): (rows: seq<seq<real>>)
    ensures |rows| == |p|
  {
    seq(|p|, j requires 0 <= j < |p| => if |p[j]| == 2 then [p[j][1].1] else Probabilities(p[j]))
  }

  /** A prediction loses nothing: the raw output rows can be read back from it. */
  lemma InterpretIsLossless(a: Array)
    requires Interpret(a).Success?
    ensures RawRows(Interpret(a).value) == a.rows
  {
    var p := Interpret(a).value;
    forall j | 0 <= j < |a.rows|
      ensures RawRows(p)[j] == a.rows[j]
    {
      if a.width == 1 {
        assert |p[j]| == |Labels(p[j])| == 2;
        assert |a.rows[j]| == 1;
      } else {
        assert |p[j]| == |Labels(p[j])| == 7;
      }
    }
  }

  /** The seven labels are distinct, so each row is a dict with exactly seven entries. */
  lemma SkinClassesDistinct()
    ensures forall i, k | 0 <= i < k < |SkinClasses| :: SkinClasses[i] != SkinClasses[k]
  {
  }

  /** A non-tensor is refused before the backend is called: the backend makes no difference. */
  lemma NonTensorRejectedBeforeBackend(backend1: Backend, backend2: Backend)
    ensures MakePrediction(NonTensor, backend1) == MakePrediction(NonTensor, backend2)
         == Failure(ValueError(NotATensorMessage))
  {
  }

  lemma MissingOutputKeyRejected(t: Tensor, backend: Backend)
    requires backend(t).Success? && OutputKey !in backend(t).value
    ensures MakePrediction(TensorInput(t), backend) == Failure(KeyError(MissingOutputMessage))
  {
  }

  /**
   * The message holds single quotes and no double quote, so the KeyError prints it between
   * double quotes, unchanged.
   */
  lemma MissingOutputKeyText()
    ensures Str(KeyError(MissingOutputMessage)) == "\"" + MissingOutputMessage + "\""
  {
    MissingOutputMessageIsPlain();
    KeyErrorOfPlainKey(MissingOutputMessage);
  }

  /** The message holds a single quote, no double quote, and nothing `repr` escapes. */
  lemma MissingOutputMessageIsPlain()
    ensures '\'' in MissingOutputMessage && '"' !in MissingOutputMessage
    ensures forall i | 0 <= i < |MissingOutputMessage| :: PlainInRepr(MissingOutputMessage[i], '"')
  {
    MissingOutputPiecesArePlain();
    PlainJoin("Expected key '", OutputKey);
    PlainJoin("Expected key '" + OutputKey, "' not found in model output.");
    assert MissingOutputMessage[13] == '\'';
  }

  lemma MissingOutputPiecesArePlain()
    ensures forall i | 0 <= i < |"Expected key '"| :: PlainInRepr("Expected key '"[i], '"')
    ensures forall i | 0 <= i < |OutputKey| :: PlainInRepr(OutputKey[i], '"')
    ensures forall i | 0 <= i < |"' not found in model output."| ::
      PlainInRepr("' not found in model output."[i], '"')
  {
  }

  /** A key holding a single quote and otherwise nothing to escape is printed verbatim in double quotes. */
  lemma KeyErrorOfPlainKey(key: string)
    requires '\'' in key && '"' !in key
    requires forall i | 0 <= i < |key| :: PlainInRepr(key[i], '"')
    ensures Str(KeyError(key)) == "\"" + key + "\""
  {
    var r := Str(KeyError(key));
    assert r == [r[0]] + r[1..|r| - 1] + [r[|r| - 1]];
  }

  lemma PlainJoin(a: string, b: string)
    requires forall i | 0 <= i < |a| :: PlainInRepr(a[i], '"')
    requires forall i | 0 <= i < |b| :: PlainInRepr(b[i], '"')
    ensures forall i | 0 <= i < |a + b| :: PlainInRepr((a + b)[i], '"')
    ensures '"' !in a + b
  {
    assert forall i | 0 <= i < |a + b| :: (a + b)[i] == if i < |a| then a[i] else b[i - |a|];
  }


  lemma RankOtherThanTwoRejected(t: Tensor, backend: Backend)
    requires backend(t).Success? && OutputKey in backend(t).value
    requires backend(t).value[OutputKey].rank != 2
    ensures MakePrediction(TensorInput(t), backend) == Failure(ValueError(ShapeMessage))
  {
  }

  /** Any column count other than one and seven, zero included, is a label mismatch, even for an empty batch. */
  lemma UnsupportedWidthRejected(t: Tensor, backend: Backend)
    requires backend(t).Success? && OutputKey in backend(t).value
    requires var a := backend(t).value[OutputKey]; a.rank == 2 && a.width != 1 && a.width != 7
    ensures MakePrediction(TensorInput(t), backend) == Failure(ValueError(MismatchMessage))
  {
  }

  /** One column: one Malignant/Benign pair per row, in row order, Benign the value and the pair summing to one. */
  lemma BinaryOutputRead(t: Tensor, backend: Backend)
    requires backend(t).Success? && OutputKey in backend(t).value
    requires var a := backend(t).value[OutputKey]; a.rank == 2 && a.width == 1
    ensures var a := backend(t).value[OutputKey];
      var r := MakePrediction(TensorInput(t), backend);
      && r.Success? && |r.value| == |a.rows|
      && forall j | 0 <= j < |a.rows| ::
           && r.value[j] == [(Malignant, r.value[j][0].1), (Benign, a.rows[j][0])]
           && r.value[j][0].1 + r.value[j][1].1 == 1.0
  {
    var a := backend(t).value[OutputKey];
    var r := MakePrediction(TensorInput(t), backend);
    forall j | 0 <= j < |a.rows|
      ensures r.value[j] == [(Malignant, r.value[j][0].1), (Benign, a.rows[j][0])]
    {
      assert Labels(r.value[j]) == BinaryClasses;
      assert |r.value[j]| == 2;
      assert r.value[j][0].0 == Labels(r.value[j])[0];
      assert r.value[j][1].0 == Labels(r.value[j])[1];
    }
  }

  /** Seven columns: in row `j`, the `i`-th label gets exactly column `i` of row `j`. */
  lemma SevenClassOutputRead(t: Tensor, backend: Backend)
    requires backend(t).Success? && OutputKey in backend(t).value
    requires var a := backend(t).value[OutputKey]; a.rank == 2 && a.width == 7
    ensures var a := backend(t).value[OutputKey];
      var r := MakePrediction(TensorInput(t), backend);
      && r.Success? && |r.value| == |a.rows|
      && forall j, i | 0 <= j < |a.rows| && 0 <= i < 7 :: r.value[j][i] == (SkinClasses[i], a.rows[j][i])
  {
    var a := backend(t).value[OutputKey];
    var r := MakePrediction(TensorInput(t), backend);
    forall j, i | 0 <= j < |a.rows| && 0 <= i < 7
      ensures r.value[j][i] == (SkinClasses[i], a.rows[j][i])
    {
      assert Labels(r.value[j])[i] == SkinClasses[i];
      assert Probabilities(r.value[j])[i] == a.rows[j][i];
    }
  }
}
