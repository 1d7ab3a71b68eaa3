/**
 * The JSON body the prediction endpoints answer with. The server builds it and the
 * client stores it as a prediction, so both sides share this one definition.
 */
module Envelope {

  /** The reserved gloss meaning that no sign was recognised in the frame. */
  const NoSignDetected: string := "no_sign_detected"

  /**
   * `{ success, predicted_gloss, confidence, timestamp }`. The confidence is kept as an
   * exact real; the server's float rounding is not modelled.
   */
  datatype PredictionBody = PredictionBody(
    success: bool,
    predictedGloss: string,
    confidence: real,
    timestamp: string)
}
