/** `predict_affinity`: the ordered feature row handed to the pre-trained
    scaler and regression model. Both artifacts are opaque; they enter as
    function parameters, so every statement here holds for any scaler and
    any model. */
module Predictor {
  import opened Wrappers
  import opened Properties

  /** A batch of feature rows, as `numpy` hands it to the scaler and model. */
  type Matrix = seq<seq<real>>

  /** `model.predict(...)` returned no value, so `[0]` raises IndexError. */
  datatype PredictionError = EmptyPrediction

  /** The feature row `[MW, LogP, HBD, HBA]`; the counts become floats in the
      numpy array. */
  function FeatureVector(p: LigandProperties): (v: seq<real>)
    ensures |v| == 4
    ensures v[2] == v[2].Floor as real && v[3] == v[3].Floor as real
    ensures FromFeatures(v) == p
  {
    [p.mw, p.logP, p.hbd as real, p.hba as real]
  }

  /** Reads a feature row back into properties (the counts are integral). */
  function FromFeatures(v: seq<real>): LigandProperties
    requires |v| == 4
  {
    LigandProperties(v[0], v[1], v[2].Floor, v[3].Floor)
  }

  /** Two ligands give the same row exactly when they are the same ligand:
      no descriptor is lost or merged on the way to the model. */
  lemma FeatureVectorInjective(p: LigandProperties, q: LigandProperties)
    ensures FeatureVector(p) == FeatureVector(q) <==> p == q
  {
  }

  /** `predict_affinity(properties, model, scaler)`: a one-row batch is scaled,
      predicted, and the first prediction is the binding free energy. */
  function PredictAffinity(p: LigandProperties, scaler: Matrix -> Matrix, model: Matrix -> seq<real>)
    : (r: Result<real, PredictionError>)
    ensures r.Failure? <==> model(scaler([FeatureVector(p)])) == []
    ensures r.Success? ==> r.value == model(scaler([FeatureVector(p)]))[0]
  {
    var predictions := model(scaler([FeatureVector(p)]));
    if |predictions| == 0 then Failure(EmptyPrediction) else Success(predictions[0])
  }

  /** The model sees column k of the row as descriptor k: with an identity
      scaler and a model that echoes column k, the prediction is MW, LogP,
      HBD or HBA for k = 0, 1, 2, 3. */
  lemma FeatureOrder(p: LigandProperties, k: nat)
    requires k < 4
    ensures var echo := (m: Matrix) => if |m| > 0 && |m[0]| > k then [m[0][k]] else [];
            PredictAffinity(p, (m: Matrix) => m, echo)
              == Success([p.mw, p.logP, p.hbd as real, p.hba as real][k])
  {
  }
}
