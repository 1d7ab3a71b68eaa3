/**
 * The mock recognition server: the two prediction endpoints, the mock classifier whose
 * result they wrap, and the two constant endpoints. Base64 decoding and image validation
 * are foreign libraries and enter as function parameters; the random draws enter as a
 * `Draws` value whose fields range over exactly what the random calls can return.
 */
module Backend {
  import opened Wrappers
  import opened Envelope
  import opened PyText

  /** The glosses of the mock classifier, in the order the server lists them. */
  const TidGlosses: seq<string> := [
    "merhaba", "teşekkür", "ederim", "günaydın", "iyi", "akşamlar", "görüşürüz",
    "evet", "hayır", "lütfen", "özür", "dilerim", "nasılsın", "iyiyim",
    "su", "yemek", "ev", "okul", "iş", "araba", "kitap", "telefon",
    "anne", "baba", "kardeş", "arkadaş", "öğretmen", "doktor", "polis"
  ]

  /** The substring whose presence marks a data URL. */
  const DataImage: string := "data:image"

  /** The prefix of every error detail the prediction endpoints send. */
  const ErrorPrefix: string := "Prediction error: "

  newtype byte = b: int | 0 <= b < 256

  /** A request body value as Python's JSON parser produces it. */
  datatype Json =
    | JNull
    | JBool(b: bool)
    | JInt(i: int)
    | JFloat(f: real)
    | JString(s: string)
    | JArray(items: seq<Json>)
    | JObject(fields: map<string, Json>)

  /** Python's truth value of a parsed JSON value: everything but the empty and zero values is true. */
  predicate Truthy(v: Json): (t: bool)
    ensures !t <==> v in {JNull, JBool(false), JInt(0), JFloat(0.0), JString(""), JArray([]), JObject(map[])}
  {
    match v
    case JNull => false
    case JBool(b) => b
    case JInt(i) => i != 0
    case JFloat(f) => f != 0.0
    case JString(s) => s != ""
    case JArray(items) => items != []
    case JObject(fields) => fields != map[]
  }

  /** The Python type name of a parsed JSON value, as it appears in error messages. */
  function TypeName(v: Json): string
  {
    match v
    case JNull => "NoneType"
    case JBool(_) => "bool"
    case JInt(_) => "int"
    case JFloat(_) => "float"
    case JString(_) => "str"
    case JArray(_) => "list"
    case JObject(_) => "dict"
  }

  /** The exceptions the body of a prediction handler can raise. */
  datatype Raised =
    | HttpException(status: nat, detail: string)
    | IndexError
    | TypeError(message: string)
    | AttributeError(message: string)
    | DecodeError(message: string)

  /**
   * `str(e)`. An HTTPException prints as its status in decimal, a colon and a space, then
   * its detail; an index error as Python's "list index out of range"; any other exception
   * as its message.
   */
  function Describe(e: Raised): (t: string)
    ensures e.HttpException? ==>
      var code := Decimal(e.status);
      && |code| <= |t| && t[..|code|] == code && AllDigits(code) && ParseDecimal(code) == e.status
      && t[|code|..] == ": " + e.detail
    ensures e.IndexError? ==> t == "list index out of range"
    ensures e.TypeError? || e.AttributeError? || e.DecodeError? ==> t == e.message
  {
    match e
    case HttpException(status, detail) =>
      DecimalRoundTrip(status);
      Decimal(status) + ": " + detail
    case IndexError => "list index out of range"
    case TypeError(message) => message
    case AttributeError(message) => message
    case DecodeError(message) => message
  }

  /** An HTTP error response: its status code and its `detail` text. */
  datatype HttpError = HttpError(status: nat, detail: string)

  type GlossIndex = i: int | 0 <= i < |TidGlosses| witness 0
  type Sample = r: real | 0.4 <= r <= 0.95 witness 0.4
  type UnitRoll = r: real | 0.0 <= r < 1.0 witness 0.0
  type TimestampDraw = n: int | 1000000000 <= n <= 9999999999 witness 1000000000

  /**
   * The values of `random.randint(0, len(TID_GLOSSES) - 1)`, `random.uniform(0.4, 0.95)`,
   * `random.random()` and `random.randint(1000000000, 9999999999)` for one request.
   */
  datatype Draws = Draws(
    predictedClass: GlossIndex,
    confidence: Sample,
    roll: UnitRoll,
    timestamp: TimestampDraw)

  /** The result of the mock classifier: a gloss and its confidence. */
  datatype Guess = Guess(gloss: string, confidence: real)

  /** The sentinel is not one of the classifier's glosses, so the two can be told apart. */
  lemma SentinelIsNotAGloss()
    ensures NoSignDetected !in TidGlosses
    ensures |TidGlosses| == 29
  {
  }

  /**
   * `mock_predict`: with a roll below 0.3 the sentinel with confidence 0.1, otherwise the
   * drawn gloss with the drawn confidence. The image bytes do not influence the result.
   */
  function MockPredict(d: Draws): (g: Guess)
    ensures g.gloss == NoSignDetected <==> d.roll < 0.3
    ensures g.gloss == NoSignDetected ==> g.confidence == 0.1
    ensures g.gloss != NoSignDetected ==> g.gloss in TidGlosses && 0.4 <= g.confidence <= 0.95
  {
    SentinelIsNotAGloss();
    if d.roll < 0.3 then Guess(NoSignDetected, 0.1)
    else Guess(TidGlosses[d.predictedClass], d.confidence)
  }

  /** What every successful prediction response satisfies. */
  predicate WellFormed(b: PredictionBody)
  {
    && b.success
    && (|| (b.predictedGloss == NoSignDetected && b.confidence == 0.1)
        || (b.predictedGloss in TidGlosses && 0.4 <= b.confidence <= 0.95))
    && |b.timestamp| == 10
    && AllDigits(b.timestamp)
    && 1000000000 <= ParseDecimal(b.timestamp) <= 9999999999
  }

  /** `str(random.randint(1000000000, 9999999999))` is ten digits that read back as the draw. */
  lemma TimestampText(t: TimestampDraw)
    ensures |Decimal(t)| == 10 && ParseDecimal(Decimal(t)) == t
  {
    assert Pow10(9) == 1000000000 && Pow10(10) == 10000000000;
    DecimalLength(t, 10);
    DecimalRoundTrip(t);
  }

  /**
   * The part shared by both prediction endpoints once the bytes are known: reject what
   * the image check refuses, otherwise classify and wrap the result.
   */
  function Recognize(image: seq<byte>, isValidImage: seq<byte> -> bool, d: Draws): (r: Result<PredictionBody, Raised>)
    ensures r.Ok? <==> isValidImage(image)
    ensures r.Err? ==> r.error == HttpException(400, "Invalid image data")
    ensures r.Ok? ==> WellFormed(r.value)
  {
    if !isValidImage(image) then Err(HttpException(400, "Invalid image data"))
    else
      var g := MockPredict(d);
      TimestampText(d.timestamp);
      Ok(PredictionBody(true, g.gloss, g.confidence, Decimal(d.timestamp)))
  }

  /**
   * The payload handed to the base64 decoder: the string itself, or, when it mentions
   * "data:image" anywhere, the text between its first and second comma.
   */
  function StripDataUrl(s: string): (r: Result<string, Raised>)
    ensures !Contains(s, DataImage) ==> r == Ok(s)
    ensures Contains(s, DataImage) && ',' !in s ==> r == Err(IndexError)
    ensures Contains(s, DataImage) && ',' in s ==>
      var rest := s[IndexOf(s, ',') + 1..];
      r == Ok(rest[..IndexOf(rest, ',')])
  {
    if Contains(s, DataImage) then
      var pieces := Split(s, ',');
      if |pieces| < 2 then Err(IndexError) else Ok(pieces[1])
    else Ok(s)
  }

  /** `data.get("image", "")`: the field when present, otherwise the empty string. */
  function ImageField(request: map<string, Json>): (v: Json)
    ensures "image" in request ==> v == request["image"]
    ensures "image" !in request ==> v == JString("") && !Truthy(v)
  {
    if "image" in request then request["image"] else JString("")
  }

  /**
   * What a truthy non-string `image` raises: the substring test fails on scalars, a list or
   * dict that holds "data:image" has no `split`, and any other list or dict is refused by
   * the base64 decoder.
   */
  function NonTextFailure(v: Json): (e: Raised)
    ensures e.TypeError? || e.AttributeError?
    ensures e.AttributeError? <==>
      (v.JArray? && JString(DataImage) in v.items) || (v.JObject? && DataImage in v.fields)
    ensures !v.JArray? && !v.JObject? ==>
      e == TypeError("argument of type '" + TypeName(v) + "' is not iterable")
    ensures v.JArray? ==> Describe(e) == if e.AttributeError? then "'list' object has no attribute 'split'"
      else "argument should be a bytes-like object or ASCII string, not 'list'"
  {
    match v
    case JArray(items) =>
      if JString(DataImage) in items then AttributeError("'list' object has no attribute 'split'")
      else TypeError("argument should be a bytes-like object or ASCII string, not 'list'")
    case JObject(fields) =>
      if DataImage in fields then AttributeError("'dict' object has no attribute 'split'")
      else TypeError("argument should be a bytes-like object or ASCII string, not 'dict'")
    case _ => TypeError("argument of type '" + TypeName(v) + "' is not iterable")
  }

  /** The body of the `try` in the base64 endpoint: the value returned or the exception raised. */
  function HandleBase64(
    request: map<string, Json>,
    decode: string -> Result<seq<byte>, string>,
    isValidImage: seq<byte> -> bool,
    d: Draws): (r: Result<PredictionBody, Raised>)
    ensures !Truthy(ImageField(request)) ==> r == Err(HttpException(400, "No image data provided"))
    ensures r.Ok? ==> WellFormed(r.value)
  {
    var image := ImageField(request);
    if !Truthy(image) then Err(HttpException(400, "No image data provided"))
    else if !image.JString? then Err(NonTextFailure(image))
    else
      match StripDataUrl(image.s)
      case Err(e) => Err(e)
      case Ok(payload) =>
        match decode(payload)
        case Err(message) => Err(DecodeError(message))
        case Ok(bytes) => Recognize(bytes, isValidImage, d)
  }

  /** The handler's `except Exception` clause as written: everything raised becomes a 500. */
  function ToResponse(outcome: Result<PredictionBody, Raised>): (r: Result<PredictionBody, HttpError>)
    ensures outcome.Ok? ==> r == Ok(outcome.value)
    ensures outcome.Err? ==> r.Err? && r.error.status == 500
    ensures outcome.Err? ==> r.error.detail == ErrorPrefix + Describe(outcome.error)
  {
    match outcome
    case Ok(body) => Ok(body)
    case Err(e) => Err(HttpError(500, ErrorPrefix + Describe(e)))
  }

  /** The intended mapping: an HTTPException keeps its status and detail; anything else is a 500. */
  function ToResponseIntended(outcome: Result<PredictionBody, Raised>): (r: Result<PredictionBody, HttpError>)
    ensures outcome.Ok? ==> r == Ok(outcome.value)
    ensures outcome.Err? && outcome.error.HttpException? ==>
      r == Err(HttpError(outcome.error.status, outcome.error.detail))
    ensures outcome.Err? && !outcome.error.HttpException? ==>
      r == Err(HttpError(500, ErrorPrefix + Describe(outcome.error)))
  {
    match outcome
    case Ok(body) => Ok(body)
    case Err(HttpException(status, detail)) => Err(HttpError(status, detail))
    case Err(e) => Err(HttpError(500, ErrorPrefix + Describe(e)))
  }

  /** `POST /predict-base64`, as written. */
  function PredictBase64(
    request: map<string, Json>,
    decode: string -> Result<seq<byte>, string>,
    isValidImage: seq<byte> -> bool,
    d: Draws): (r: Result<PredictionBody, HttpError>)
    ensures r.Err? ==> r.error.status == 500 && ErrorPrefix <= r.error.detail
    ensures r.Ok? ==> WellFormed(r.value)
    ensures !Truthy(ImageField(request)) ==>
      r == Err(HttpError(500, ErrorPrefix + Describe(HttpException(400, "No image data provided"))))
    ensures r.Ok? <==>
      && ImageField(request).JString?
      && ImageField(request).s != ""
      && StripDataUrl(ImageField(request).s).Ok?
      && decode(StripDataUrl(ImageField(request).s).value).Ok?
      && isValidImage(decode(StripDataUrl(ImageField(request).s).value).value)
  {
    ToResponse(HandleBase64(request, decode, isValidImage, d))
  }

  /** `POST /predict-base64` with the intended error mapping. */
  function PredictBase64Intended(
    request: map<string, Json>,
    decode: string -> Result<seq<byte>, string>,
    isValidImage: seq<byte> -> bool,
    d: Draws): (r: Result<PredictionBody, HttpError>)
    ensures !Truthy(ImageField(request)) ==> r == Err(HttpError(400, "No image data provided"))
    ensures r.Ok? ==> WellFormed(r.value)
    ensures r.Ok? <==> PredictBase64(request, decode, isValidImage, d).Ok?
    ensures r.Ok? ==> r == PredictBase64(request, decode, isValidImage, d)
  {
    ToResponseIntended(HandleBase64(request, decode, isValidImage, d))
  }

  /** `POST /predict` with an uploaded file, as written. */
  function PredictUpload(imageData: seq<byte>, isValidImage: seq<byte> -> bool, d: Draws): (r: Result<PredictionBody, HttpError>)
    ensures r.Ok? <==> isValidImage(imageData)
    ensures r.Ok? ==> WellFormed(r.value)
    ensures r.Err? ==>
      r == Err(HttpError(500, ErrorPrefix + Describe(HttpException(400, "Invalid image data"))))
  {
    ToResponse(Recognize(imageData, isValidImage, d))
  }

  /** `str(HTTPException(400, detail))` is `"400: " + detail`. */
  lemma BadRequestText(detail: string)
    ensures Describe(HttpException(400, detail)) == "400: " + detail
  {
    assert DigitChar(0) == '0' && DigitChar(4) == '4';
    assert Decimal(40) == Decimal(4) + [DigitChar(0)] == "40";
    assert Decimal(400) == Decimal(40) + [DigitChar(0)] == "400";
  }

  lemma MissingImageDetail()
    ensures ErrorPrefix + ("400: " + "No image data provided")
         == "Prediction error: 400: No image data provided"
  {
  }

  /** The written status of a rejected request is 500 although the handler raised a 400. */
  lemma MissingImageIs500(
    decode: string -> Result<seq<byte>, string>,
    isValidImage: seq<byte> -> bool,
    d: Draws)
    ensures PredictBase64(map[], decode, isValidImage, d)
         == Err(HttpError(500, "Prediction error: 400: No image data provided"))
    ensures PredictBase64(map["image" := JNull], decode, isValidImage, d)
         == Err(HttpError(500, "Prediction error: 400: No image data provided"))
  {
    BadRequestText("No image data provided");
    MissingImageDetail();
    assert !Truthy(ImageField(map[])) && !Truthy(ImageField(map["image" := JNull]));
  }

  /**
   * A truthy image that is not a string reaches the client as Python's own error text: a
   * list holding "data:image" has no `split`, and a number is not iterable.
   */
  lemma NonTextMessages(
    decode: string -> Result<seq<byte>, string>,
    isValidImage: seq<byte> -> bool,
    d: Draws)
    ensures PredictBase64(map["image" := JArray([JString(DataImage)])], decode, isValidImage, d)
         == Err(HttpError(500, ErrorPrefix + "'list' object has no attribute 'split'"))
    ensures PredictBase64(map["image" := JInt(5)], decode, isValidImage, d)
         == Err(HttpError(500, ErrorPrefix + "argument of type 'int' is not iterable"))
  {
    var list, number := JArray([JString(DataImage)]), JInt(5);
    assert JString(DataImage) in list.items;
    assert HandleBase64(map["image" := list], decode, isValidImage, d)
        == Err(AttributeError("'list' object has no attribute 'split'"));
    assert "argument of type '" + TypeName(number) + "' is not iterable"
        == "argument of type 'int' is not iterable";
    assert HandleBase64(map["image" := number], decode, isValidImage, d)
        == Err(TypeError("argument of type 'int' is not iterable"));
  }

  /** With the intended mapping the same requests are answered 400. */
  lemma MissingImageIs400Intended(
    decode: string -> Result<seq<byte>, string>,
    isValidImage: seq<byte> -> bool,
    d: Draws)
    ensures PredictBase64Intended(map[], decode, isValidImage, d)
         == Err(HttpError(400, "No image data provided"))
    ensures PredictBase64Intended(map["image" := JNull], decode, isValidImage, d)
         == Err(HttpError(400, "No image data provided"))
  {
  }

  /** The body of `GET /health`. */
  datatype HealthBody = HealthBody(status: string, modelLoaded: bool)

  /** `GET /health`: always healthy, with the model reported as loaded. */
  function HealthCheck(): (b: HealthBody)
    ensures b.status == "healthy" && b.modelLoaded
  {
    HealthBody("healthy", true)
  }

  /** The body of `GET /glosses`. */
  datatype GlossesBody = GlossesBody(glosses: seq<string>)

  /** `GET /glosses`: the classifier's gloss list. */
  function AvailableGlosses(): (b: GlossesBody)
    ensures b.glosses == TidGlosses
    ensures |b.glosses| == 29 && NoSignDetected !in b.glosses
    ensures forall d: Draws :: MockPredict(d).gloss == NoSignDetected || MockPredict(d).gloss in b.glosses
  {
    SentinelIsNotAGloss();
    GlossesBody(TidGlosses)
  }
}
