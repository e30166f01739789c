/** The classifier's prediction service
    (backend/api/gateway/classifierAPI/app/modules/prediction/service.py):
    look the model up by id, run it on one feature row, and turn the first
    number it returns into a risk label. The loaded models are a map and
    running a model is a parameter. */
module Prediction {

  /** What a model's `predict` produces: its numbers, or an exception with its text. */
  datatype Outcome = Numbers(values: seq<real>) | Raised(error: string)

  /** The service's answer: the result dictionary, an HTTP error, or an
      exception the service does not catch (an empty prediction). */
  datatype Response =
    | Ok(result: map<string, string>)
    | HttpError(status: int, detail: string)
    | Uncaught

  /** The three-way threshold on the predicted number. */
  function RiskLabel(x: real): (risk: string)
    ensures risk == "Low" <==> x <= 0.333
    ensures risk == "High" <==> x > 0.666
    ensures risk == "Medium" <==> 0.333 < x <= 0.666
  {
    if x <= 0.333 then "Low"
    else if x > 0.666 then "High"
    else "Medium"
  }

  function Rank(risk: string): nat
  {
    if risk == "Low" then 0 else if risk == "Medium" then 1 else 2
  }

  /** A larger prediction never gets a lower label. */
  lemma RiskLabelMonotone(x: real, y: real)
    requires x <= y
    ensures Rank(RiskLabel(x)) <= Rank(RiskLabel(y))
  {
  }

  /** `get_prediction_result`. */
  function GetPredictionResult<M>(models: map<string, M>, modelId: string, features: seq<real>,
                                  predict: (M, seq<seq<real>>) -> Outcome): (r: Response)
    ensures modelId !in models ==> r == HttpError(404, "Model not found!")
    ensures modelId in models && predict(models[modelId], [features]).Raised? ==>
      r == HttpError(500, "Prediction failed : " + predict(models[modelId], [features]).error)
    ensures r.Ok? <==> (modelId in models && predict(models[modelId], [features]).Numbers? &&
                        |predict(models[modelId], [features]).values| > 0)
    ensures (modelId in models && predict(models[modelId], [features]).Numbers? &&
             |predict(models[modelId], [features]).values| == 0) ==> r == Uncaught
    ensures r.Ok? ==> r.result == map["Status" := RiskLabel(predict(models[modelId], [features]).values[0])]
  {
    if modelId !in models then HttpError(404, "Model not found!")
    else
      match predict(models[modelId], [features])
      case Raised(e) => HttpError(500, "Prediction failed : " + e)
      case Numbers(vs) =>
        if |vs| == 0 then Uncaught
        else Ok(map["Status" := RiskLabel(vs[0])])
  }

  /** An unknown model id is answered before any model runs: the answer is
      the same whatever `predict` would do. */
  lemma UnknownModelBeforePredict<M>(models: map<string, M>, modelId: string, features: seq<real>,
                                     p: (M, seq<seq<real>>) -> Outcome, q: (M, seq<seq<real>>) -> Outcome)
    requires modelId !in models
    ensures GetPredictionResult(models, modelId, features, p) == GetPredictionResult(models, modelId, features, q)
  {
  }

  /** A successful result holds exactly one key, and its label is one of the three. */
  lemma ResultShape<M>(models: map<string, M>, modelId: string, features: seq<real>,
                       predict: (M, seq<seq<real>>) -> Outcome)
    requires GetPredictionResult(models, modelId, features, predict).Ok?
    ensures var m := GetPredictionResult(models, modelId, features, predict).result;
      m.Keys == {"Status"} && m["Status"] in ["Low", "Medium", "High"]
  {
  }
}
