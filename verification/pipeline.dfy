/**
 * How the client and the server fit together: what the client sees of a server answer,
 * the data URL it sends, and what can therefore end up in its history.
 */
module Pipeline {
  import opened Wrappers
  import opened Envelope
  import opened History
  import opened PyText
  import opened Backend
  import opened Webcam

  /** The prefix of every JPEG frame the canvas encodes. */
  const JpegDataUrlPrefix: string := "data:image/jpeg;base64,"

  /** What the HTTP client makes of a server answer: a 2xx body resolves, any error status throws. */
  function ClientView(r: Result<PredictionBody, HttpError>): (o: PostOutcome)
    ensures o.Answered? <==> r.Ok?
    ensures r.Ok? ==> o.data == r.value
  {
    match r
    case Ok(body) => Answered(body)
    case Err(_) => Failed
  }

  /** The history holds only glosses the server lists. */
  predicate ListedHistory(h: seq<PredictionBody>)
  {
    forall i :: 0 <= i < |h| ==> h[i].predictedGloss in TidGlosses
  }

  /**
   * The corrected error mapping cannot be observed by the client: every error status,
   * 400 or 500, makes the request throw.
   */
  lemma CorrectionIsInvisibleToClient(
    request: map<string, Json>,
    decode: string -> Result<seq<byte>, string>,
    isValidImage: seq<byte> -> bool,
    d: Draws)
    ensures ClientView(PredictBase64(request, decode, isValidImage, d))
         == ClientView(PredictBase64Intended(request, decode, isValidImage, d))
  {
  }

  /** The payload of a JPEG frame is the base64 text after the prefix. */
  lemma FramePayload(b64: string)
    requires Lacks(b64, ',')
    ensures StripDataUrl(JpegDataUrlPrefix + b64) == Ok(b64)
  {
    var s := JpegDataUrlPrefix + b64;
    assert s[..|DataImage|] == DataImage;
    assert DataImage + s[|DataImage|..] == s;
    PrefixIsContained(DataImage, s[|DataImage|..]);
    assert Contains(s, DataImage);
    forall k | 0 <= k < 22
      ensures s[k] != ','
    {
      assert s[k] == JpegDataUrlPrefix[k];
    }
    assert s[22] == ',';
    assert ',' in s;
    assert IndexOf(s, ',') == 22;
    var rest := s[23..];
    assert rest == b64;
    assert IndexOf(rest, ',') == |rest|;
    assert rest[..IndexOf(rest, ',')] == b64;
    assert StripDataUrl(s) == Ok(rest[..IndexOf(rest, ',')]);
  }

  /**
   * Every answer the client accepts from the server keeps its history listed: a
   * recognised gloss comes from the server's list and the sentinel is never recorded.
   */
  lemma {:induction false} ServedPredictionsKeepHistoryListed(
    h: seq<PredictionBody>,
    request: map<string, Json>,
    decode: string -> Result<seq<byte>, string>,
    isValidImage: seq<byte> -> bool,
    d: Draws)
    requires ListedHistory(h)
    ensures var o := ClientView(PredictBase64(request, decode, isValidImage, d));
      ListedHistory(Record(h, if o.Answered? && o.data.success then Some(o.data) else None))
  {
    var o := ClientView(PredictBase64(request, decode, isValidImage, d));
    if o.Answered? && o.data.success {
      var b := o.data;
      assert WellFormed(b);
      if Recordable(Some(b)) {
        var r := Record(h, Some(b));
        forall i | 0 <= i < |r|
          ensures r[i].predictedGloss in TidGlosses
        {
          if i > 0 {
            assert r[i] == h[i - 1];
          }
        }
      }
    }
  }
}
