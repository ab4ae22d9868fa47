# Model lifecycle contract

This project models the abstract `Model` class of the yuca trajectory
classification library (`yuca/models/model.py`), the contract that concrete
model variants implement. A model instance owns:

- a `name`;
- a `summary` map, seeded with the single entry `"name" ↦ name`;
- a `trained` flag, false at construction.

Variants provide `train` and `predict`. The base class provides the rest:

- a wrapper around training that sets `trained` once the training body returns;
- an internal prediction path, `_predict`, whose trained-before-use check is
  commented out, so it only passes through to `predict`;
- `evaluate`, which builds an `Evaluation` from the summary, the data and the
  predictions;
- a `save` that always raises `NotImplementedError`.

Files:

- `models.dfy` (module `Models`): the data model, the class `Model` with its
  fields and methods, and the pure step functions that give their meaning.
  A variant is a `Variant` value holding two functions. Both receive the whole
  instance (name, summary, flag and the variant's own state), as Python's
  `self` does:
  - `fit`: the training body. It also takes the data and the cross-validation
    fold count. It either returns a value or raises an error, and in both
    cases yields the variant's new state.
  - `predict`: returns the predictions or raises. A variant may fail fast
    here on an untrained model.

  The class field `variantState` stands for the fields a concrete variant adds.
  A raised Python exception is modelled as a `Failure` result.
- `lifecycle.dfy` (module `Lifecycle`): any sequence of calls on one instance
  (`Step`, `Run`), and lemmas showing four things about such runs. Trained is
  absorbing. The flag is true exactly when some training call returned. Name
  and summary never change. Non-training calls change nothing.
- `scenarios.dfy` (module `Scenarios`): three clients proved from the class
  contracts. In the first, an echo variant is trained and then evaluated on
  `[1, 2, 3]`. In the second, the variant's training raises. In the third,
  the variant's own `predict` fails fast before training.

Data (a `Dataset` or a `DatasetSlice`) is the opaque type parameter `D`.
Prediction labels are `P`, the training body's return value is `R`, and a
variant's errors are `E`.

## Model

| member | source | states |
|---|---|---|
| `Models.Model.constructor` | yuca/models/model.py:27-30 | after construction `name` is the argument, `summary` is exactly the one-entry map `"name" ↦ name`, and `trained` is false |
| `Models.Model.Train` | yuca/models/model.py:11-16 | the new state is the one the training wrapper gives. If the training body returns, `trained` is true whatever it was before, and the body's value is returned unchanged. If the body raises, `trained` keeps its old value and the same error reaches the caller. Name and summary are unchanged either way, and a trained model stays trained |
| `Models.TrainStep` | yuca/models/model.py:11-16 | the training wrapper as a function of the old state. Success exactly when the body returned, with the body's value and `trained` true. On a raise, the body's error, with `trained` as before. Name and summary are as before; the variant state is what the body left |
| `Models.Model.InternalPredict` | yuca/models/model.py:45-50 | returns exactly what the variant's `predict` returns on the current instance, with no check of `trained` of its own, and changes no field |
| `Models.PredictIgnoresTrained` | yuca/models/model.py:45-57 | the base path adds no trained check: for a variant whose own `predict` ignores the flag, prediction and evaluation give the same result whether the model is trained or not |
| `Models.EvaluateStep` | yuca/models/model.py:52-57 | evaluation succeeds exactly when prediction does. On success it yields an Evaluation of the current summary, the same data and the predictions; on failure, the prediction's error |
| `Models.Model.Evaluate` | yuca/models/model.py:52-57 | returns `Evaluation(summary, data, predict(data))` when prediction succeeds, and otherwise propagates prediction's error. It changes no field |
| `Models.SaveStep` | yuca/models/model.py:41-43 | saving fails with the not-implemented error whatever the path |
| `Models.Model.Save` | yuca/models/model.py:41-43 | the base model's `save` fails with the not-implemented error for every path and changes no field |
| `Lifecycle.Step` | yuca/models/model.py:27-57 | no call on the public surface changes name or summary. After a call the model is trained exactly when it was before or the call was a training call that returned. Only training calls change the state |
| `Lifecycle.Run` | yuca/models/model.py:27-57 | a run of calls yields one reply per call |
| `Lifecycle.RunKeepsNameAndSummary` | yuca/models/model.py:27-57 | after any sequence of calls, name and summary are as they were |
| `Lifecycle.TrainedIsAbsorbing` | yuca/models/model.py:11-57 | no sequence of calls turns a trained model back to untrained |
| `Lifecycle.TrainedIffSomeTrainReturned` | yuca/models/model.py:14-15 | after any sequence of calls the model is trained if and only if it was trained before or some training call among them returned normally |
| `Lifecycle.TrainedStaysTrained` | yuca/models/model.py:11-57 | once a prefix of the calls has left the model trained, every extension of that prefix leaves it trained |
| `Lifecycle.NonTrainingCallsChangeNothing` | yuca/models/model.py:41-57 | prediction, evaluation and save calls leave name, summary, flag and variant state as they were |
| `Scenarios.EchoScenario` | yuca/models/model.py:27-57 | an echo model, once trained, is trained, and evaluating it on `[1, 2, 3]` gives an Evaluation of summary `"name" ↦ "echo"`, data `[1, 2, 3]` and predictions `[1, 2, 3]` |
| `Scenarios.RaisingScenario` | yuca/models/model.py:11-16 | when the training body raises, the caller gets that error and the model stays untrained |
| `Scenarios.StrictScenario` | yuca/models/model.py:45-57 | evaluation is not blocked on an untrained model: a fail-fast variant's own not-trained error reaches the caller, and after training the same evaluation succeeds |
| `Scenarios.StrictVariantDependsOnTrained` | yuca/models/model.py:45-50 | a variant's `predict` may depend on the flag, so the condition on `Models.PredictIgnoresTrained` is needed |

## Left out

- Logging (yuca/models/model.py:13, 55): it has no effect on state and is not modelled.
- Decorator mechanics (yuca/models/model.py:18-19): the copying of `__name__` and `__doc__` is not modelled.
- Decorator on an abstract method: in the source, `_mark_trained` decorates the abstract `train`, so a variant's override runs the wrapper only in one of two ways. It can decorate its own `train`, which gives the behaviour modelled here. Or it can call `super().train(...)`: that runs the wrapper around the empty base body, so `trained` becomes true as soon as that call returns, even if the variant's own training work raises afterwards. An override that does neither never runs the wrapper; the flag is then set only if the override assigns it itself. The model has one template `Train` that always wraps the variant's `fit`. It captures the intended wrapper effect, not the ways a variant can bypass it or set the flag before its work is done.
- The trained-before-use check (yuca/models/model.py:47-48) is commented out in the source and is not modelled as live behaviour. The base model raises no not-trained error; only a variant's own `predict` may, as the fail-fast variant in `scenarios.dfy` does.
- Variant bodies can read the base fields but cannot write them. `fit` produces only a new variant state, so a variant's training cannot change `name`, `summary` or `trained` itself. In Python it could, for example by adding summary entries.
- Variant state after a raise: a raising Python training body may leave the variant's own fields partly updated. The model lets `fit` name that state, but says nothing about it.
- Summary values: the Python summary maps strings to arbitrary values. The base class writes only the name string, so the model uses `map<string, string>`.
- Summary sharing: `Evaluation(self.summary, ...)` (yuca/models/model.py:57) hands over the model's summary dict by reference, so a later change to the model's summary shows through the Evaluation. The model's `Evaluation` holds a copy of the summary value and does not capture this aliasing.
- The internals of `Evaluation`, `Dataset` and `DatasetSlice` are not shown. Evaluation is a plain constructor; data is an opaque type parameter.
- Prediction length: the assumption that `predict` returns one label per sample is not modelled, because data is opaque and the base class does not enforce it.
- Cross-validation: the fold count is passed to `fit` unchanged. Its meaning, and whether it is non-negative, is up to the variant.
- Concurrency, the statistical learning inside concrete variants (floating point, library code) and the driver script `example.py` are not part of this model.
