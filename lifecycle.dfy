/**
 * The lifecycle of one model instance over any sequence of calls on its public
 * surface. The model is a two-state machine, untrained and trained; these
 * lemmas show that only a training call that returns moves it to trained, and
 * that nothing moves it back.
 */
module Lifecycle {
  import opened Models

  /** A call on a model's public surface. */
  datatype Call<D> =
    | TrainCall(data: D, crossValidation: int)
    | PredictCall(data: D)
    | EvaluateCall(data: D)
    | SaveCall(path: string)

  /** What a call gave back to its caller. */
  datatype Reply<D, P, R, E> =
    | TrainReply(result: Result<R, E>)
    | PredictReply(predictions: Result<seq<P>, E>)
    | EvaluateReply(evaluation: Result<Evaluation<D, P>, E>)
    | SaveReply(outcome: Result<(), SaveError>)

  /** A training call that returned normally. */
  predicate TrainReturned<D, P, R, E>(reply: Reply<D, P, R, E>)
  {
    reply.TrainReply? && reply.result.Success?
  }

  /** The effect of one call, on the same state the class methods act on. */
  function Step<S, D, P, R, E>(v: Variant<S, D, P, R, E>, st: ModelState<S>, c: Call<D>)
    : (r: (ModelState<S>, Reply<D, P, R, E>))
    ensures r.0.name == st.name && r.0.summary == st.summary
    ensures r.0.trained <==> st.trained || TrainReturned(r.1)
    ensures r.1.TrainReply? <==> c.TrainCall?
    ensures !c.TrainCall? ==> r.0 == st
  {
    match c
    case TrainCall(data, cv) =>
      var (st', result) := TrainStep(v, st, data, cv);
      (st', TrainReply(result))
    case PredictCall(data) => (st, PredictReply(v.predict(st, data)))
    case EvaluateCall(data) => (st, EvaluateReply(EvaluateStep(v, st, data)))
    case SaveCall(path) => (st, SaveReply(SaveStep(path)))
  }

  /** The final state after `calls`, and one reply per call. */
  function Run<S, D, P, R, E>(v: Variant<S, D, P, R, E>, st: ModelState<S>, calls: seq<Call<D>>)
    : (r: (ModelState<S>, seq<Reply<D, P, R, E>>))
    ensures |r.1| == |calls|
    decreases |calls|
  {
    if calls == [] then (st, [])
    else
      var (st1, reply) := Step(v, st, calls[0]);
      var (st2, replies) := Run(v, st1, calls[1..]);
      (st2, [reply] + replies)
  }

  /** Running `a` then `b` is running `a + b`. */
  lemma {:induction false} RunAppend<S, D, P, R, E>(v: Variant<S, D, P, R, E>, st: ModelState<S>, a: seq<Call<D>>, b: seq<Call<D>>)
    ensures Run(v, st, a + b).0 == Run(v, Run(v, st, a).0, b).0
    ensures Run(v, st, a + b).1 == Run(v, st, a).1 + Run(v, Run(v, st, a).0, b).1
    decreases |a|
  {
    if a != [] {
      assert (a + b)[0] == a[0];
      assert (a + b)[1..] == a[1..] + b;
      var (st1, reply) := Step(v, st, a[0]);
      RunAppend(v, st1, a[1..], b);
      assert Run(v, st, a).0 == Run(v, st1, a[1..]).0;
      assert Run(v, st, a).1 == [reply] + Run(v, st1, a[1..]).1;
      assert Run(v, st, a + b).0 == Run(v, st1, a[1..] + b).0;
      assert Run(v, st, a + b).1 == [reply] + Run(v, st1, a[1..] + b).1;
    } else {
      assert a + b == b;
    }
  }

  /** No call changes the name or the summary. */
  lemma {:induction false} RunKeepsNameAndSummary<S, D, P, R, E>(v: Variant<S, D, P, R, E>, st: ModelState<S>, calls: seq<Call<D>>)
    ensures Run(v, st, calls).0.name == st.name
    ensures Run(v, st, calls).0.summary == st.summary
    decreases |calls|
  {
    if calls != [] {
      var (st1, _) := Step(v, st, calls[0]);
      RunKeepsNameAndSummary(v, st1, calls[1..]);
    }
  }

  /** Trained is absorbing: no sequence of calls makes a trained model untrained. */
  lemma {:induction false} TrainedIsAbsorbing<S, D, P, R, E>(v: Variant<S, D, P, R, E>, st: ModelState<S>, calls: seq<Call<D>>)
    requires st.trained
    ensures Run(v, st, calls).0.trained
    decreases |calls|
  {
    if calls != [] {
      var (st1, _) := Step(v, st, calls[0]);
      TrainedIsAbsorbing(v, st1, calls[1..]);
    }
  }

  /** After any calls the model is trained exactly when it was trained before or
      some training call among them returned normally. */
  lemma {:induction false} TrainedIffSomeTrainReturned<S, D, P, R, E>(v: Variant<S, D, P, R, E>, st: ModelState<S>, calls: seq<Call<D>>)
    ensures Run(v, st, calls).0.trained <==>
            st.trained || exists i :: 0 <= i < |calls| && TrainReturned(Run(v, st, calls).1[i])
    decreases |calls|
  {
    if calls != [] {
      var (st1, reply) := Step(v, st, calls[0]);
      var (st2, replies) := Run(v, st1, calls[1..]);
      TrainedIffSomeTrainReturned(v, st1, calls[1..]);
      var all := Run(v, st, calls).1;
      assert all == [reply] + replies;
      assert Run(v, st, calls).0 == st2;
      assert all[0] == reply;
      if exists j :: 0 <= j < |replies| && TrainReturned(replies[j]) {
        var j :| 0 <= j < |replies| && TrainReturned(replies[j]);
        assert all[j + 1] == replies[j];
      }
      if exists i :: 0 <= i < |calls| && TrainReturned(all[i]) {
        var i :| 0 <= i < |calls| && TrainReturned(all[i]);
        if i > 0 {
          assert replies[i - 1] == all[i];
        }
      }
    }
  }

  /** The flag changes at most once: once some prefix of the calls has left the
      model trained, every longer prefix leaves it trained. */
  lemma TrainedStaysTrained<S, D, P, R, E>(v: Variant<S, D, P, R, E>, st: ModelState<S>, a: seq<Call<D>>, b: seq<Call<D>>)
    requires Run(v, st, a).0.trained
    ensures Run(v, st, a + b).0.trained
  {
    RunAppend(v, st, a, b);
    TrainedIsAbsorbing(v, Run(v, st, a).0, b);
  }

  /** Calls that are not training calls leave the whole state as it was. */
  lemma {:induction false} NonTrainingCallsChangeNothing<S, D, P, R, E>(v: Variant<S, D, P, R, E>, st: ModelState<S>, calls: seq<Call<D>>)
    requires forall i :: 0 <= i < |calls| ==> !calls[i].TrainCall?
    ensures Run(v, st, calls).0 == st
    decreases |calls|
  {
    if calls != [] {
      NonTrainingCallsChangeNothing(v, st, calls[1..]);
    }
  }
}
