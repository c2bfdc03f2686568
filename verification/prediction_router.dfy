/**
 * The two endpoints of the prediction router: `GET /health` and `POST /predict`, each behind
 * the API-key dependency, with the handler's single try/except turning every fault into a 500.
 */
module PredictionRouter {
  import opened Results
  import opened PyErrors
  import opened Timestamps
  import opened ApiKeyGate
  import opened InferenceModel
  import Text

  type Bytes = seq<bv8>

  /** What a call of `preprocess_image_batch` did: returned a tensor, returned None, or raised. */
  datatype Outcome<T> = Returned(value: T) | ReturnedNone | Raised(exception: PyException)

  /** The image preprocessor, called with a list of byte strings and a target size. */
  type Preprocessor = (seq<Bytes>, (int, int)) -> Outcome<Tensor>

  /**
   * The clock readings the handler takes: `time.time()` at start and end, `datetime.now()` for
   * the date. The readings are exact reals, so `time_taken` carries no float64 rounding.
   */
  datatype Clock = Clock(start: real, end: real, date: DateTime)

  /** The JSON bodies the endpoints return. */
  datatype Body =
    | StatusBody(status: string)                                      // {"status": ...}
    | DiagnosisBody(diagnosis: Prediction, timeTaken: real, date: string)  // {"diagnosis", "time_taken", "date"}

  datatype Response = Ok(body: Body) | Error(status: nat, detail: string)

  const TargetSize := (300, 300)
  const ServerErrorPrefix := "Internal Server Error: "
  const EmptyFileMessage := "Uploaded file is empty."
  const PreprocessingMessage := "Error in image preprocessing."
  const InvalidKeyMessage := "Invalid API Key."

  /**
   * How the framework answers an exception from the dependency: an HTTPException keeps its status
   * and detail; anything else is an uncaught fault, answered 500 "Internal Server Error".
   */
  function DependencyFailure(e: AuthError): (r: Response)
    ensures r.Error? && (r.status == 400 || r.status == 500)
    ensures r.status == 400 <==> e in {ApiKeyRequired, ApiKeyNotFound, ApiKeyExpired, ApiKeyLimitExceeded}
  {
    match ExceptionOf(e)
    case HttpException(status, detail) => Error(status, detail)
    case _ => Error(500, "Internal Server Error")
  }

  /** `health_check`, reached only once the key check has passed. */
  function HealthCheck(header: Option<string>, store: Store, now: Instant): (r: Response)
    ensures r.Ok? <==> Authorized(header, store, now)
    ensures r.Ok? ==> r.body == StatusBody("ok")
    ensures r.Error? ==> r == DependencyFailure(CheckApiKey(header, store, now).error)
  {
    CheckApiKeySucceedsIff(header, store, now);
    match CheckApiKey(header, store, now)
    case Failure(e) => DependencyFailure(e)
    case Success(_) => Ok(StatusBody("ok"))
  }

  /** The response dict built at the end of the try block. */
  function Assemble(result: Prediction, clock: Clock): (body: Body)
    ensures body.DiagnosisBody? && body.diagnosis == result
    ensures body.timeTaken == clock.end - clock.start
    ensures ParseTimestamp(body.date) == Success(clock.date)
  {
    ParseFormatRoundTrip(clock.date);
    DiagnosisBody(result, clock.end - clock.start, Format(clock.date))
  }

  /** The body of the `try` block: every raise inside it, deliberate or not, is an exception here. */
  function PredictStages(file: Bytes, preprocess: Preprocessor, backend: Backend, clock: Clock): (r: Result<Body, PyException>)
    ensures file == [] ==> r == Failure(HttpException(400, EmptyFileMessage))
    ensures file != [] && preprocess([file], TargetSize).Raised? ==>
      r == Failure(preprocess([file], TargetSize).exception)
    ensures file != [] && preprocess([file], TargetSize).ReturnedNone? ==>
      r == Failure(HttpException(400, PreprocessingMessage))
    ensures r.Success? ==> file != [] && preprocess([file], TargetSize).Returned?
    ensures r.Success? ==>
      var prediction := MakePrediction(TensorInput(preprocess([file], TargetSize).value), backend);
      prediction.Success? && r.value == Assemble(prediction.value, clock)
  {
    if file == [] then Failure(HttpException(400, EmptyFileMessage))
    else match preprocess([file], TargetSize)
      case Raised(e) => Failure(e)
      case ReturnedNone => Failure(HttpException(400, PreprocessingMessage))
      case Returned(data) =>
        match MakePrediction(TensorInput(data), backend)
        case Failure(e) => Failure(e)
        case Success(result) => Success(Assemble(result, clock))
  }

  /** The blanket `except Exception as e`: a 500 whose detail is the prefix and `str(e)`. */
  function ServerError(text: string): (r: Response)
    ensures r.Error? && r.status == 500 && ServerErrorPrefix <= r.detail
    ensures r.detail[|ServerErrorPrefix|..] == text
  {
    var detail := ServerErrorPrefix + text;
    assert detail[..|ServerErrorPrefix|] == ServerErrorPrefix;
    Error(500, detail)
  }

  /** `make_prediction(file, api_key_info)`: the handler body, run after the dependency. */
  function PredictHandler(apiKeyInfo: Option<Document>, file: Bytes, preprocess: Preprocessor,
                          backend: Backend, clock: Clock): (r: Response)
    ensures apiKeyInfo.None? ==> r == Error(400, InvalidKeyMessage)
    ensures apiKeyInfo.Some? && PredictStages(file, preprocess, backend, clock).Failure? ==>
      r == ServerError(Str(PredictStages(file, preprocess, backend, clock).error))
    ensures r.Ok? <==> apiKeyInfo.Some? && PredictStages(file, preprocess, backend, clock).Success?
  {
    if apiKeyInfo.None? then Error(400, InvalidKeyMessage)
    else match PredictStages(file, preprocess, backend, clock)
      case Success(body) => Ok(body)
      case Failure(e) => ServerError(Str(e))
  }

  /** `POST /predict`: the key check as a dependency, then the handler with the record it returned. */
  function Predict(header: Option<string>, store: Store, now: Instant, file: Bytes,
                   preprocess: Preprocessor, backend: Backend, clock: Clock): (r: Response)
    ensures r.Ok? ==> Authorized(header, store, now)
    ensures r.Error? ==> r.status == 400 || r.status == 500
  {
    match CheckApiKey(header, store, now)
    case Failure(e) => DependencyFailure(e)
    case Success(info) => PredictHandler(Some(info), file, preprocess, backend, clock)
  }

  // ---------------------------------------------------------------------------------------
  // Ordering of the stages
  // ---------------------------------------------------------------------------------------

  /**
   * Both endpoints run the key check first. When it fails, the answer is the check's own and
   * nothing the handler would touch (file, preprocessor, backend, clock) makes a difference.
   */
  lemma FailedKeyCheckStopsRequest(header: Option<string>, store: Store, now: Instant,
                                   file1: Bytes, preprocess1: Preprocessor, backend1: Backend, clock1: Clock,
                                   file2: Bytes, preprocess2: Preprocessor, backend2: Backend, clock2: Clock)
    requires !Authorized(header, store, now)
    ensures var e := CheckApiKey(header, store, now).error;
      && Predict(header, store, now, file1, preprocess1, backend1, clock1) == DependencyFailure(e)
      && Predict(header, store, now, file2, preprocess2, backend2, clock2) == DependencyFailure(e)
      && HealthCheck(header, store, now) == DependencyFailure(e)
  {
    CheckApiKeySucceedsIff(header, store, now);
  }

  /** With a valid key the health endpoint answers exactly `{"status": "ok"}`. */
  lemma HealthOkWhenAuthorized(header: Option<string>, store: Store, now: Instant)
    requires Authorized(header, store, now)
    ensures HealthCheck(header, store, now) == Ok(StatusBody("ok"))
  {
  }

  /** A missing record is refused with 400 "Invalid API Key." before the clock, file or any stage is used. */
  lemma MissingRecordRefusedFirst(file1: Bytes, preprocess1: Preprocessor, backend1: Backend, clock1: Clock,
                                  file2: Bytes, preprocess2: Preprocessor, backend2: Backend, clock2: Clock)
    ensures PredictHandler(None, file1, preprocess1, backend1, clock1)
         == PredictHandler(None, file2, preprocess2, backend2, clock2)
         == Error(400, InvalidKeyMessage)
  {
  }

  /**
   * An empty upload never reaches the preprocessor, and the 400 raised for it is caught by the
   * blanket handler and answered as a 500.
   */
  lemma EmptyUploadBecomesServerError(header: Option<string>, store: Store, now: Instant,
                                      preprocess1: Preprocessor, backend1: Backend, clock1: Clock,
                                      preprocess2: Preprocessor, backend2: Backend, clock2: Clock)
    requires Authorized(header, store, now)
    ensures Predict(header, store, now, [], preprocess1, backend1, clock1)
         == Predict(header, store, now, [], preprocess2, backend2, clock2)
         == Error(500, "Internal Server Error: " + ("400: " + "Uploaded file is empty."))
  {
    CheckApiKeySucceedsIff(header, store, now);
    EmptyFileDetail();
  }

  /** The caught 400 is printed into the 500's detail as "400: " and its own detail. */
  lemma EmptyFileDetail()
    ensures ServerError(Str(HttpException(400, EmptyFileMessage)))
         == Error(500, "Internal Server Error: " + ("400: " + "Uploaded file is empty."))
  {
    BadRequestText(EmptyFileMessage);
  }

  /**
   * A preprocessor that returns None makes the handler raise its 400, which the blanket handler
   * catches and answers as a 500; the backend is never consulted.
   */
  lemma PreprocessingNoneBecomesServerError(header: Option<string>, store: Store, now: Instant, file: Bytes,
                                            preprocess: Preprocessor, backend: Backend, clock: Clock)
    requires Authorized(header, store, now)
    requires file != [] && preprocess([file], TargetSize).ReturnedNone?
    ensures Predict(header, store, now, file, preprocess, backend, clock)
         == Error(500, "Internal Server Error: " + ("400: " + "Error in image preprocessing."))
  {
    CheckApiKeySucceedsIff(header, store, now);
    PreprocessingFailureDetail();
  }

  /** The caught 400 for a failed preprocessing, printed into the 500's detail. */
  lemma PreprocessingFailureDetail()
    ensures ServerError(Str(HttpException(400, PreprocessingMessage)))
         == Error(500, "Internal Server Error: " + ("400: " + "Error in image preprocessing."))
  {
    BadRequestText(PreprocessingMessage);
  }

  /** An exception raised by the preprocessor reaches the client as a 500 carrying its own text. */
  lemma PreprocessingErrorDetail(header: Option<string>, store: Store, now: Instant, file: Bytes,
                                 preprocess: Preprocessor, backend: Backend, clock: Clock)
    requires Authorized(header, store, now)
    requires file != [] && preprocess([file], TargetSize).Raised?
    ensures Predict(header, store, now, file, preprocess, backend, clock)
         == ServerError(Str(preprocess([file], TargetSize).exception))
  {
    CheckApiKeySucceedsIff(header, store, now);
  }

  /** A 400 renders as "400: " followed by its detail. */
  lemma BadRequestText(detail: string)
    ensures Str(HttpException(400, detail)) == "400: " + detail
  {
    StatusNumerals();
    assert Text.NatToString(400) + ": " == "400: ";
  }

  /**
   * The preprocessor is called once, on a batch of exactly one image at size (300, 300): two
   * preprocessors that agree on that call give the same response.
   */
  lemma PreprocessorSeesOneImageAt300(header: Option<string>, store: Store, now: Instant, file: Bytes,
                                      preprocess1: Preprocessor, preprocess2: Preprocessor,
                                      backend: Backend, clock: Clock)
    requires preprocess1([file], (300, 300)) == preprocess2([file], (300, 300))
    ensures Predict(header, store, now, file, preprocess1, backend, clock)
         == Predict(header, store, now, file, preprocess2, backend, clock)
  {
  }

  /** When preprocessing fails, by raising or by returning None, the backend is never consulted. */
  lemma FailedPreprocessingSkipsBackend(file: Bytes, preprocess: Preprocessor, backend1: Backend,
                                        backend2: Backend, clock: Clock, info: Document)
    requires !preprocess([file], TargetSize).Returned?
    ensures PredictHandler(Some(info), file, preprocess, backend1, clock)
         == PredictHandler(Some(info), file, preprocess, backend2, clock)
  {
  }

  // ---------------------------------------------------------------------------------------
  // Status codes and the response
  // ---------------------------------------------------------------------------------------

  /**
   * Every 400 comes from the key check. Past it, any failure (empty file, preprocessing,
   * prediction) is a 500 whose detail begins "Internal Server Error: ".
   */
  lemma StatusCodesOfPredict(header: Option<string>, store: Store, now: Instant, file: Bytes,
                             preprocess: Preprocessor, backend: Backend, clock: Clock)
    ensures var r := Predict(header, store, now, file, preprocess, backend, clock);
      && (r.Error? && r.status == 400 ==> !Authorized(header, store, now))
      && (Authorized(header, store, now) && r.Error? ==> r.status == 500 && ServerErrorPrefix <= r.detail)
  {
    CheckApiKeySucceedsIff(header, store, now);
  }

  /** A prediction error keeps its own text after the prefix, e.g. the label mismatch. */
  lemma PredictionErrorDetail(header: Option<string>, store: Store, now: Instant, file: Bytes,
                              preprocess: Preprocessor, backend: Backend, clock: Clock)
    requires Authorized(header, store, now) && file != []
    requires preprocess([file], TargetSize).Returned?
    requires MakePrediction(TensorInput(preprocess([file], TargetSize).value), backend).Failure?
    ensures Predict(header, store, now, file, preprocess, backend, clock)
         == Error(500, ServerErrorPrefix
                  + Str(MakePrediction(TensorInput(preprocess([file], TargetSize).value), backend).error))
  {
    CheckApiKeySucceedsIff(header, store, now);
  }

  /**
   * On success the response holds the model's result unchanged, the time between the two clock
   * readings, and the capture date in the fixed format (which reads back to the same date-time).
   */
  lemma SuccessfulResponse(header: Option<string>, store: Store, now: Instant, file: Bytes,
                           preprocess: Preprocessor, backend: Backend, clock: Clock)
    requires Predict(header, store, now, file, preprocess, backend, clock).Ok?
    ensures var body := Predict(header, store, now, file, preprocess, backend, clock).body;
      && file != [] && preprocess([file], TargetSize).Returned?
      && var prediction := MakePrediction(TensorInput(preprocess([file], TargetSize).value), backend);
      && prediction.Success?
      && body == DiagnosisBody(prediction.value, clock.end - clock.start, Format(clock.date))
      && ParseTimestamp(body.date) == Success(clock.date)
  {
    CheckApiKeySucceedsIff(header, store, now);
  }
}
