/**
 * The top-level client component: the current prediction, the bounded history and the
 * backend-connected flag, updated in place by its two handlers.
 */
module AppState {
  import opened Wrappers
  import opened Envelope
  import opened History

  /** How the health probe ended: the server answered with a status code, or the request threw. */
  datatype HealthOutcome = Responded(status: int) | NetworkError

  /** `response.ok`: the request resolved with a status in the 2xx range. */
  predicate IsOk(outcome: HealthOutcome): (ok: bool)
    ensures ok <==> outcome.Responded? && outcome.status / 100 == 2
  {
    outcome.Responded? && 200 <= outcome.status <= 299
  }

  class App {
    var currentPrediction: Option<PredictionBody>
    var predictionHistory: seq<PredictionBody>
    var isConnected: bool

    ghost predicate Valid()
      reads this
    {
      HistoryInvariant(predictionHistory)
    }

    /** The state before the first render's effect has run. */
    constructor ()
      ensures Valid()
      ensures currentPrediction == None && predictionHistory == [] && !isConnected
    {
      currentPrediction := None;
      predictionHistory := [];
      isConnected := false;
    }

    /**
     * `checkBackendConnection`: the flag becomes true exactly when the probe resolved with
     * an ok status; a bad status and a thrown request both clear it. Run once on mount and
     * again whenever the user asks to reconnect.
     */
    method CheckBackendConnection(outcome: HealthOutcome)
      modifies this`isConnected
      ensures isConnected <==> IsOk(outcome)
    {
      match outcome {
        case NetworkError =>
          isConnected := false;
        case Responded(_) =>
          if IsOk(outcome) {
            isConnected := true;
          } else {
            isConnected := false;
          }
      }
    }

    /**
     * `handlePrediction`: every prediction, null and the sentinel included, becomes current;
     * only a recordable one is put at the front of the history, which is cut to ten.
     */
    method HandlePrediction(p: Option<PredictionBody>)
      requires Valid()
      modifies this`currentPrediction, this`predictionHistory
      ensures Valid()
      ensures currentPrediction == p
      ensures predictionHistory == Record(old(predictionHistory), p)
      ensures !Recordable(p) ==> predictionHistory == old(predictionHistory)
      ensures Recordable(p) ==>
        predictionHistory[0] == p.value &&
        predictionHistory[1..] == Take(old(predictionHistory), HistoryLimit - 1)
    {
      currentPrediction := p;
      if p.Some? && p.value.predictedGloss != NoSignDetected {
        predictionHistory := Push(predictionHistory, p.value);
      }
      RecordPreservesInvariant(old(predictionHistory), p);
    }
  }

  /** A recognised sign followed by a "no sign" frame, then a stop, replayed through the class's own contracts. */
  method StoreScenario(merhaba: PredictionBody, noSign: PredictionBody)
    requires merhaba.predictedGloss == "merhaba" && noSign.predictedGloss == NoSignDetected
  {
    var app := new App();
    app.HandlePrediction(Some(merhaba));
    app.HandlePrediction(Some(noSign));
    assert app.currentPrediction == Some(noSign);
    assert app.predictionHistory == [merhaba];
    app.HandlePrediction(None);
    assert app.currentPrediction == None && app.predictionHistory == [merhaba];
  }
}
