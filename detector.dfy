/** `PlagueDetectionModel`: the wrapper that owns the classifier's model
    handle and label table, and gates inference on a loaded flag. Network and
    file access and the inference runtime itself are not modelled; their
    outcomes are parameters. */
module Detector {
  import opened Outcomes
  import opened Labels
  import opened Seqs
  import opened Ranking

  /** The handle `tf.loadLayersModel` resolves to; only whether it has been
      released is observable here. */
  class LayersModel {
    var disposed: bool

    constructor ()
      ensures !disposed
    {
      disposed := false;
    }

    /** `model.dispose()`: releases the weights. A handle that is already
        released refuses, with the runtime's "already disposed" error. */
    method Dispose() returns (r: Result<(), DisposeError>)
      modifies this
      ensures disposed
      ensures r == if old(disposed) then Failure(AlreadyDisposed) else Success(())
    {
      if disposed {
        return Failure(AlreadyDisposed);
      }
      disposed := true;
      return Success(());
    }
  }

  /** The error `LayersModel.dispose` throws on a released handle. */
  datatype DisposeError = AlreadyDisposed

  /** How the two awaited steps of `loadModel` end. */
  datatype LoadOutcome =
    | ModelUnavailable              // `tf.loadLayersModel` rejects
    | LabelsUnavailable             // the model loads, then fetching `labels.txt` fails
    | LabelsFetched(text: string)   // both succeed; the label file's text

  /** What the forward pass produces: the flat probability vector, one entry
      per output index, or a runtime error. */
  datatype Inference =
    | Probabilities(values: seq<real>)
    | InferenceFailed(message: string)

  datatype PredictError =
    | NotLoaded         // "Modelo no cargado. Llama a loadModel() primero."
    | InferenceFailure(message: string)  // an error thrown by the runtime, propagated as is

  class PlagueDetectionModel {
    var model: LayersModel?
    var labels: seq<string>
    var isModelLoaded: bool

    /** The flag is only ever set together with a model handle, and the label
        table never holds an empty label. */
    ghost predicate Valid()
      reads this
    {
      (isModelLoaded ==> model != null)
      && forall k :: 0 <= k < |labels| ==> labels[k] != []
    }

    constructor ()
      ensures Valid()
      ensures model == null && labels == [] && !isModelLoaded
    {
      model := null;
      labels := [];
      isModelLoaded := false;
    }

    /** `loadModel`: replaces the model handle as soon as the model loads,
        replaces the label table only when the label file is read too, and
        sets the flag to exactly what it returns. A failure is reported, never
        thrown, and leaves the flag false even if it was true before. */
    method LoadModel(outcome: LoadOutcome) returns (loaded: bool)
      requires Valid()
      modifies this
      ensures Valid()
      ensures loaded == isModelLoaded
      ensures loaded <==> outcome.LabelsFetched?
      ensures outcome.ModelUnavailable? ==> model == old(model)
      ensures !outcome.ModelUnavailable? ==> model != null && fresh(model) && !model.disposed
      ensures labels == if outcome.LabelsFetched? then ParseLabels(outcome.text) else old(labels)
    {
      match outcome
      case ModelUnavailable =>
        isModelLoaded := false;
        loaded := false;
      case LabelsUnavailable =>
        model := new LayersModel();
        isModelLoaded := false;
        loaded := false;
      case LabelsFetched(text) =>
        model := new LayersModel();
        labels := ParseLabels(text);
        isModelLoaded := true;
        loaded := true;
    }

    /** `predict`: refuses to run before a successful load; otherwise keeps
        the indices above the threshold, names them, ranks them by confidence
        and returns the first three. Nothing of the wrapper changes. */
    method Predict(inference: Inference) returns (r: Result<seq<Prediction>, PredictError>)
      ensures !isModelLoaded ==> r == Failure(NotLoaded)
      ensures isModelLoaded && inference.InferenceFailed? ==> r == Failure(InferenceFailure(inference.message))
      ensures isModelLoaded && inference.Probabilities? ==>
                r == Success(PostProcess(inference.values, labels))
    {
      if !isModelLoaded {
        return Failure(NotLoaded);
      }
      if inference.InferenceFailed? {
        return Failure(InferenceFailure(inference.message));
      }
      var probs := inference.values;
      var results: seq<Prediction> := [];
      var i := 0;
      while i < |probs|
        invariant 0 <= i <= |probs|
        invariant results == Candidates(probs[..i], labels)
      {
        assert probs[..i + 1][..i] == probs[..i];
        if probs[i] > Threshold {
          results := results + [Prediction(LabelFor(labels, i), Percent(probs[i]))];
        }
        i := i + 1;
      }
      assert probs[..i] == probs;
      var ranked := new Prediction[|results|](k requires 0 <= k < |results| => results[k]);
      assert ranked[..] == results;
      SortByConfidence(ranked);
      var sorted := ranked[..];
      r := Success(sorted[..Min(TopCount, |sorted|)]);
    }

    /** `dispose`: releases the model handle when there is one. The handle,
        the label table and the flag stay as they were, so the flag can still
        read true after the model is gone, and a second call reaches the
        released handle again and fails with its error. */
    method Dispose() returns (r: Result<(), DisposeError>)
      modifies model
      ensures model == old(model) && labels == old(labels) && isModelLoaded == old(isModelLoaded)
      ensures model != null ==> model.disposed
      ensures r == if model != null && old(model.disposed) then Failure(AlreadyDisposed) else Success(())
    {
      r := Success(());
      if model != null {
        r := model.Dispose();
      }
    }
  }
}
