/**
 * The model lifecycle contract: an abstract model that owns a name, a summary
 * record and a `trained` flag; a template `Train` that runs the variant's
 * training body and marks the model trained only when that body returns; a
 * pass-through prediction path; `Evaluate`, which hands the predictions to an
 * Evaluation record; and a `Save` that the base model does not support.
 *
 * A concrete variant is represented by a `Variant` value: its training body
 * `fit` and its `predict` operation. Both read the whole instance (the base
 * fields and the variant's own state `S`); `fit` yields the variant's new state.
 * Data (a dataset or a slice of one) is the opaque type parameter `D`,
 * prediction labels are `P`, the value the training body returns is `R` and
 * the errors a variant raises are `E`.
 */
module Models {

  /** The outcome of a call that may raise: the value it returned or the error it raised. */
  datatype Result<R, E> = Success(value: R) | Failure(error: E)

  /** What a variant's training body did: it returned `value` or raised `error`,
      and in both cases left the variant's own state as `state`. */
  datatype FitOutcome<S, R, E> = Returned(state: S, value: R) | Raised(state: S, error: E)

  /** A concrete model variant: the two operations the abstract model leaves open. */
  datatype Variant<!S, !D, P, R, E> = Variant(
    fit: (ModelState<S>, D, int) -> FitOutcome<S, R, E>,
    predict: (ModelState<S>, D) -> Result<seq<P>, E>)

  /** The error raised by the base model's `save`. */
  datatype SaveError = NotImplemented

  /** The evaluation record built from a summary, the data and the predictions on it. */
  datatype Evaluation<D, P> = Evaluation(summary: map<string, string>, data: D, predictions: seq<P>)

  /** A value view of a model instance: the base fields and the variant's own state. */
  datatype ModelState<S> = ModelState(
    name: string,
    summary: map<string, string>,
    trained: bool,
    variantState: S)

  /** The training wrapper: run the training body, then mark the model trained.
      If the body raises, the flag is never touched and the error propagates. */
  function TrainStep<S, D, P, R, E>(v: Variant<S, D, P, R, E>, st: ModelState<S>, data: D, crossValidation: int)
    : (r: (ModelState<S>, Result<R, E>))
    ensures r.0.name == st.name && r.0.summary == st.summary
    ensures r.0.variantState == v.fit(st, data, crossValidation).state
    ensures r.1.Success? <==> v.fit(st, data, crossValidation).Returned?
    ensures r.1.Success? ==> r.0.trained && r.1.value == v.fit(st, data, crossValidation).value
    ensures r.1.Failure? ==> r.0.trained == st.trained && r.1.error == v.fit(st, data, crossValidation).error
  {
    match v.fit(st, data, crossValidation)
    case Returned(s, value) => (st.(variantState := s, trained := true), Success(value))
    case Raised(s, error) => (st.(variantState := s), Failure(error))
  }

  /** Evaluation: predict through the internal path (which, its trained check
      being disabled, is the variant's `predict`), then build an Evaluation
      from the current summary, the same data and those predictions. */
  function EvaluateStep<S, D, P, R, E>(v: Variant<S, D, P, R, E>, st: ModelState<S>, data: D)
    : (r: Result<Evaluation<D, P>, E>)
    ensures r.Success? <==> v.predict(st, data).Success?
    ensures r.Success? ==> r.value.summary == st.summary && r.value.data == data
                           && r.value.predictions == v.predict(st, data).value
    ensures r.Failure? ==> r.error == v.predict(st, data).error
  {
    match v.predict(st, data)
    case Success(predictions) => Success(Evaluation(st.summary, data, predictions))
    case Failure(error) => Failure(error)
  }

  /** The base model's `save`: unsupported whatever the path. */
  function SaveStep(path: string): (r: Result<(), SaveError>)
    ensures r.Failure? && r.error == NotImplemented
  {
    Failure(NotImplemented)
  }

  /** The variant's own `predict` gives the same result in either state (it
      does not fail fast on an untrained model). */
  ghost predicate IgnoresTrained<S(!new), D(!new), P, R, E>(v: Variant<S, D, P, R, E>)
  {
    forall st: ModelState<S>, data: D, b: bool :: v.predict(st.(trained := b), data) == v.predict(st, data)
  }

  /** The base prediction path adds no trained check: for a variant whose own
      `predict` ignores the flag, prediction and evaluation do not depend on it. */
  lemma PredictIgnoresTrained<S(!new), D(!new), P, R, E>(v: Variant<S, D, P, R, E>, st: ModelState<S>, data: D, b: bool)
    requires IgnoresTrained(v)
    ensures v.predict(st.(trained := b), data) == v.predict(st, data)
    ensures EvaluateStep(v, st.(trained := b), data) == EvaluateStep(v, st, data)
  {
  }

  /** A model instance. `variantState` stands for the fields a concrete variant adds. */
  class Model<S, D, P, R, E> {
    var name: string
    var summary: map<string, string>
    var trained: bool
    var variantState: S
    const variant: Variant<S, D, P, R, E>

    function State(): ModelState<S>
      reads this
    {
      ModelState(name, summary, trained, variantState)
    }

    /** The base initializer, followed by the variant's own initial state. */
    constructor (name: string, variant: Variant<S, D, P, R, E>, initial: S)
      ensures this.name == name
      ensures summary == map["name" := name]
      ensures !trained
      ensures this.variant == variant && variantState == initial
    {
      this.name := name;
      summary := map["name" := name];
      trained := false;
      this.variant := variant;
      variantState := initial;
    }

    /** The training entry point as wrapped by the lifecycle decoration. */
    method Train(data: D, crossValidation: int := 0) returns (r: Result<R, E>)
      modifies this
      ensures State() == TrainStep(variant, old(State()), data, crossValidation).0
      ensures r == TrainStep(variant, old(State()), data, crossValidation).1
      ensures r.Success? ==> trained
      ensures r.Failure? ==> trained == old(trained)
      ensures old(trained) ==> trained
      ensures name == old(name) && summary == old(summary)
    {
      match variant.fit(State(), data, crossValidation)
      case Returned(s, value) =>
        variantState := s;
        trained := true;
        r := Success(value);
      case Raised(s, error) =>
        variantState := s;
        r := Failure(error);
    }

    /** The internal prediction path: no trained check, and it changes nothing. */
    method InternalPredict(data: D) returns (r: Result<seq<P>, E>)
      ensures r == variant.predict(State(), data)
    {
      r := variant.predict(State(), data);
    }

    /** Evaluate the model on `data`; it changes nothing. */
    method Evaluate(data: D) returns (r: Result<Evaluation<D, P>, E>)
      ensures r == EvaluateStep(variant, State(), data)
      ensures r.Success? ==> r.value == Evaluation(summary, data, variant.predict(State(), data).value)
      ensures r.Failure? ==> variant.predict(State(), data) == Failure(r.error)
    {
      var predictions := InternalPredict(data);
      match predictions
      case Success(ps) => r := Success(Evaluation(summary, data, ps));
      case Failure(error) => r := Failure(error);
    }

    /** The base model cannot be saved. */
    method Save(path: string) returns (r: Result<(), SaveError>)
      ensures r == Failure(NotImplemented)
    {
      r := Failure(NotImplemented);
    }
  }
}
