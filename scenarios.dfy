/**
 * Three clients of the model contract, proved from the class's contracts alone:
 * a variant whose training is a no-op and whose predictions echo its input,
 * a variant whose training always raises, and a variant that enforces the
 * trained-before-use rule inside its own `predict`.
 */
module Scenarios {
  import opened Models

  /** The errors the variants below raise. */
  datatype VariantError = ValueError | NotTrainedYet

  /** Training does nothing; the prediction for each sample is its integer feature. */
  function EchoVariant(): Variant<(), seq<int>, int, (), VariantError>
  {
    Variant((st: ModelState<()>, data: seq<int>, cv: int) => Returned((), ()),
            (st: ModelState<()>, data: seq<int>) => Success(data))
  }

  /** Training always raises `ValueError`; predicting gives no labels. */
  function RaisingVariant(): Variant<(), seq<int>, int, (), VariantError>
  {
    Variant((st: ModelState<()>, data: seq<int>, cv: int) => Raised((), ValueError),
            (st: ModelState<()>, data: seq<int>) => Success([]))
  }

  /** Train the echo model, then evaluate it on three samples. */
  method EchoScenario() returns (trained: bool, evaluation: Result<Evaluation<seq<int>, int>, VariantError>)
    ensures trained
    ensures evaluation == Success(Evaluation(map["name" := "echo"], [1, 2, 3], [1, 2, 3]))
  {
    var m := new Model("echo", EchoVariant(), ());
    var _ := m.Train([1, 2, 3]);
    trained := m.trained;
    evaluation := m.Evaluate([1, 2, 3]);
  }

  /** Train the raising model: the error reaches the caller and the model stays untrained. */
  method RaisingScenario() returns (trained: bool, result: Result<(), VariantError>)
    ensures !trained
    ensures result == Failure(ValueError)
  {
    var m := new Model("raising", RaisingVariant(), ());
    result := m.Train([1, 2, 3], 5);
    trained := m.trained;
  }

  /** Training is a no-op; predicting fails fast while the model is untrained. */
  function StrictVariant(): Variant<(), seq<int>, int, (), VariantError>
  {
    Variant((st: ModelState<()>, data: seq<int>, cv: int) => Returned((), ()),
            (st: ModelState<()>, data: seq<int>) => if st.trained then Success(data) else Failure(NotTrainedYet))
  }

  /** The base path does not block an untrained model, so a fail-fast variant's
      own error reaches the caller; after training, evaluation succeeds. */
  method StrictScenario() returns (before: Result<Evaluation<seq<int>, int>, VariantError>,
                                   after: Result<Evaluation<seq<int>, int>, VariantError>)
    ensures before == Failure(NotTrainedYet)
    ensures after == Success(Evaluation(map["name" := "strict"], [4, 5], [4, 5]))
  {
    var m := new Model("strict", StrictVariant(), ());
    before := m.Evaluate([4, 5]);
    var _ := m.Train([4, 5]);
    after := m.Evaluate([4, 5]);
  }

  /** The fail-fast variant is one whose results do depend on the flag, so the
      condition under which prediction ignores it cannot be dropped. */
  lemma StrictVariantDependsOnTrained()
    ensures !IgnoresTrained(StrictVariant())
  {
    var st := ModelState("strict", map["name" := "strict"], false, ());
    assert StrictVariant().predict(st.(trained := true), [4]) != StrictVariant().predict(st, [4]);
  }
}
