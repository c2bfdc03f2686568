# Skin-diagnosis inference API: request path model

A Dafny model of the request path of a small FastAPI service that classifies skin-lesion
images. Every request goes through three pieces, and the model covers all three:

- **API-key gate** (`check_api_key`). It is a FastAPI dependency that runs a fixed chain of checks
  on the `access_token` header and on the stored credential record:
  1. a token is present;
  2. a record exists for it;
  3. the current time is strictly before `expired_date`;
  4. `usage > 0`.

  Each failed check raises its own HTTP 400.
- **Output interpretation** (`Model.make_prediction`). It calls the loaded model once. It reads the
  rank-2 output `output_0` as one labelled probability list per image:
  - one column gives a Malignant/Benign pair;
  - seven columns give seven fixed lesion classes;
  - anything else is an error.
- **The router** (`health_check` and `make_prediction`). Both endpoints run the gate first. The
  prediction handler then runs these stages in order, stopping at the first failure:
  1. read the uploaded file;
  2. refuse an empty file;
  3. preprocess one image at 300×300;
  4. predict;
  5. assemble `{diagnosis, time_taken, date}`.

  One blanket `except Exception` turns every failure in that block into a 500.

All three are pure once the outside world is abstracted. The model uses functions and lemmas:

| Source piece | Modelled as |
|---|---|
| The credential store (MongoDB) | `map<string, Document>` keyed by token. A `Document` is a map from field names to values. |
| The model backend | Parameter `Backend`, a function from a tensor to its named outputs or to a raised exception. |
| The image preprocessor | Parameter `Preprocessor`. It returns a tensor, returns None, or raises. |
| The clock | Parameters: a `datetime.now()` reading with microseconds for the gate, and `Clock` for the handler (`time.time()` at start and end, and the date it prints). |

Python exceptions are values of `PyErrors.PyException`. `Str` gives the text `str(e)` produces
for every exception whose message the model carries. A `KeyError` prints the `repr` of its key,
and `QuotedRepr` follows Python's `repr` for ASCII text: it picks the quote, escapes that quote
and the backslash, and writes control characters as escapes. Two gate faults keep only their type:
a field of the wrong type (a `TypeError`) and an expiry that does not parse (a `ValueError`).
Their wording never reaches a client, because the framework answers every such fault with the
same 500.

Modules, one file each:

| File | Module | Contents |
|---|---|---|
| `results.dfy` | `Results` | `Option` and `Result` |
| `text.dfy` | `Text` | ASCII digits, ASCII whitespace, decimal numerals |
| `py_errors.dfy` | `PyErrors` | exceptions and `str(e)` |
| `timestamps.dfy` | `Timestamps` | date-times, their order, `strptime` and `strftime` for `"%Y-%m-%d %H:%M:%S"` |
| `api_key_gate.dfy` | `ApiKeyGate` | the gate |
| `inference_model.dfy` | `InferenceModel` | `make_prediction` |
| `prediction_router.dfy` | `PredictionRouter` | the two endpoints |

Python behaviours the model follows, on ASCII text:

- **Reading `expired_date`.** The parser follows the regular expression that CPython's `_strptime`
  builds for this format:
  - `%Y` is exactly four digits;
  - `%m` is `1[0-2]|0[1-9]|[1-9]`;
  - `%d` is `3[01]|[12]\d|0[1-9]|[1-9]| [1-9]`;
  - `%H` is `2[0-3]|[0-1]\d|\d`;
  - `%M` is `[0-5]\d|\d`;
  - `%S` is `6[0-1]|[0-5]\d|\d`;
  - the space in the format matches `\s+`. For ASCII text that is space, tab, line feed,
    vertical tab, form feed, carriage return and the separators U+001C to U+001F
    (`ParseAcceptsAnySeparator`).

  Text left over after the match is an error ("unconverted data remains"). So is a value that
  `datetime` then refuses: year 0, a day past the end of its month, second 60 or 61. Each field
  takes the first alternative that matches. This gives the same answer as the regular expression.
  Every field but the last is followed by a separator that is not a digit. Once a longer
  alternative has matched, a shorter one would leave a digit where that separator must be. The
  last field, `%S`, ends the pattern, so the regular expression also takes its first matching
  alternative there, and any digit after it is unconverted data. Zero-padded and unpadded fields
  are both accepted (`ParseAcceptsUnpadded`).
- **Expiry comparison.** `datetime.now()` carries microseconds, and the parsed expiry has none. The
  comparison is made on all seven fields. `AtOrAfterBySeconds` shows that whole seconds decide it.
- **Error text.** Starlette's `HTTPException` prints as `"<status>: <detail>"`. So the 400 raised
  for an empty upload reaches the client as 500 `"Internal Server Error: 400: Uploaded file is
  empty."`. A `KeyError` prints the `repr` of its message. The message for a missing `output_0`
  holds single quotes and no double quote, so that `repr` prints it unchanged between double
  quotes (`MissingOutputKeyText`).
- **Uncaught exceptions in the gate.** A record without `expired_date` or `usage`, or with a value
  of the wrong type, or with an expiry that does not parse, raises an exception that is not an
  `HTTPException`. The framework answers it with 500 `"Internal Server Error"`.

Two consequences of the code that its error messages and names do not suggest:

- **Empty upload and failed preprocessing give 500.** The handler raises its 400s for an empty
  file and for failed preprocessing inside the `try` (App/Routers/MakePrediction.py:64 and :71).
  The blanket `except` at App/Routers/MakePrediction.py:86-87 catches them and answers 500
  (`EmptyUploadBecomesServerError`, `PreprocessingNoneBecomesServerError`, `StatusCodesOfPredict`).
- **Usage is never decremented.** Nothing on the request path writes `usage`. The store client
  has an `update_data` method (App/DB/MongoDB.py:33), but no caller uses it, so the gate only reads
  the store (`AcceptedEarlierToo`).

## Model

| member | source | states |
|---|---|---|
| `Timestamps.BeforeIsStrictTotalOrder` | App/Security/CheckAPIKey.py:35 | the order used to compare `now` with the expiry is irreflexive, transitive and total |
| `Timestamps.AtOrAfterBySeconds` | App/Security/CheckAPIKey.py:35 | `now >= expired_date` with `now`'s microseconds holds iff `now`'s whole seconds are not before the expiry |
| `Timestamps.MatchFormat` | App/Security/CheckAPIKey.py:34 | a successful match of the `strptime` pattern yields fields in the ranges the field patterns allow (month 1–12, day 1–31, hour 0–23, minute 0–59, second 0–61) |
| `Timestamps.ParseTimestamp` | App/Security/CheckAPIKey.py:34 | a parse succeeds only on a full match with nothing left over, and yields a valid date-time; it fails with a format mismatch iff the pattern does not match; an out-of-range failure is year 0, a day past the month's end or a leap second |
| `Timestamps.ParseFormatRoundTrip` | App/Routers/MakePrediction.py:83 | the date written with `"%Y-%m-%d %H:%M:%S"` reads back with `strptime` as the same date-time |
| `Timestamps.ParseAcceptsUnpadded` | App/Security/CheckAPIKey.py:34 | an expiry written without leading zeros in month, day, hour, minute and second parses to the same date-time |
| `Timestamps.ParseAcceptsAnySeparator` | App/Security/CheckAPIKey.py:34 | the date and the time may be separated by any non-empty run of whitespace, tabs, line breaks and U+001C to U+001F included, and the expiry still parses to the same date-time |
| `Timestamps.SkipWhitespaceRun` | App/Security/CheckAPIKey.py:34 | `\s+` consumes a whole run of whitespace and stops exactly at the first character that is not whitespace |
| `Timestamps.ParseRejectsTrailingText` | App/Security/CheckAPIKey.py:34 | a date-time in the fixed zero-padded form, followed by any further text, is refused with that text as the unconverted data |
| `Timestamps.Format` | App/Routers/MakePrediction.py:83 | `strftime("%Y-%m-%d %H:%M:%S")` writes 19 characters: `-` at positions 4 and 7, a space at 10, `:` at 13 and 16, and digits everywhere else |
| `ApiKeyGate.FindCredential` | App/Security/CheckAPIKey.py:25 | the lookup finds a record iff the token is stored, and returns the stored fields except `_id`, unchanged |
| `ApiKeyGate.CheckApiKey` | App/Security/CheckAPIKey.py:19-43 | on success the token was present, the result is the projected stored record, and its usage is a number above zero |
| `ApiKeyGate.ExceptionOf` | App/Security/CheckAPIKey.py:21-40 | exactly the four check failures raise an HTTPException, all with status 400; a missing field is exactly the KeyError naming it, a wrong-typed field a TypeError and an unparsable expiry a ValueError |
| `ApiKeyGate.CheckApiKeySucceedsIff` | App/Security/CheckAPIKey.py:19-43 | validation succeeds iff the token is non-empty, its projected record is non-empty, the expiry parses and `now` is strictly before it, and usage is positive; it then returns the projected record |
| `ApiKeyGate.MissingTokenCheckedFirst` | App/Security/CheckAPIKey.py:21-22 | an absent or empty token gives "API Key is required" whatever the store holds and whatever the time |
| `ApiKeyGate.UnknownTokenNotFound` | App/Security/CheckAPIKey.py:25-28 | a token with no record, or whose record is empty without `_id`, gives "API Key Not Found" |
| `ApiKeyGate.MalformedExpiryRejected` | App/Security/CheckAPIKey.py:34 | an expiry string that does not parse stops validation with the parse error; the key is not let through |
| `ApiKeyGate.ExpiredWhateverUsage` | App/Security/CheckAPIKey.py:34-40 | once `now >= expired_date` the answer is "API Key Expired" whatever the usage field holds, even when it is missing |
| `ApiKeyGate.ExpiredAtBoundary` | App/Security/CheckAPIKey.py:34-36 | at the very second of expiry, at any microsecond, the key is already expired, whatever accepted form the expiry is written in |
| `ApiKeyGate.ExhaustedUsageRejected` | App/Security/CheckAPIKey.py:34-40 | a record whose expiry parses, in any accepted form, and has not passed, but whose usage is at most zero, zero included, gives "API Key Limit Exceeded" |
| `ApiKeyGate.AcceptedEarlierToo` | App/Security/CheckAPIKey.py:19-43 | the check never consumes usage: a key accepted at one moment is accepted, with the same record, at every earlier moment |
| `ApiKeyGate.ExpiredStaysExpired` | App/Security/CheckAPIKey.py:35-36 | a key reported expired stays expired at every later moment |
| `InferenceModel.BinaryRow` | App/Utils/Model.py:47-51 | a one-column value `p` becomes the labels Malignant, Benign in that order, Benign is `p`, and the two sum to 1 |
| `InferenceModel.MultiClassRow` | App/Utils/Model.py:62-65 | a seven-column row becomes the seven class labels in their fixed order, carrying exactly the row's values |
| `InferenceModel.Interpret` | App/Utils/Model.py:47-65 | a rank-2 output is read iff it has one or seven columns, otherwise the mismatch error; one entry per row; each row gets the binary labels with Benign the row's value, or the seven labels with the row's values |
| `InferenceModel.MakePrediction` | App/Utils/Model.py:33-67 | a prediction means the input was a tensor, the backend answered, `output_0` was present with rank 2, and the result is that output's interpretation |
| `InferenceModel.MakePredictionSucceedsIff` | App/Utils/Model.py:33-67 | a prediction is made iff the input is a tensor, the backend answers with `output_0` of rank 2, and its width is 1 or 7 |
| `InferenceModel.InterpretIsLossless` | App/Utils/Model.py:47-65 | the raw output rows can be read back from the labelled result |
| `InferenceModel.SkinClassesDistinct` | App/Utils/Model.py:55-58 | the seven labels are pairwise distinct, so each seven-class row is a dict of exactly seven entries |
| `InferenceModel.NonTensorRejectedBeforeBackend` | App/Utils/Model.py:33-34 | a non-tensor input raises ValueError "Input data must be a TensorFlow tensor." and the backend makes no difference to the result |
| `InferenceModel.MissingOutputKeyRejected` | App/Utils/Model.py:39-40 | backend output lacking `output_0` raises the KeyError |
| `InferenceModel.MissingOutputKeyText` | App/Utils/Model.py:39-40 | that KeyError prints as its message, unchanged, between double quotes |
| `InferenceModel.MissingOutputMessageIsPlain` | App/Utils/Model.py:40 | the message holds a single quote, no double quote, and no character `repr` escapes |
| `InferenceModel.KeyErrorOfPlainKey` | App/Utils/Model.py:40 | any KeyError key holding a single quote, no double quote and nothing else to escape prints unchanged between double quotes |
| `InferenceModel.RankOtherThanTwoRejected` | App/Utils/Model.py:44-45 | output whose rank is not 2 raises "Unexpected output shape from model." |
| `InferenceModel.UnsupportedWidthRejected` | App/Utils/Model.py:53-60 | a width other than 1 and 7 (0 and 5 included, and for an empty batch too) raises the mismatch error |
| `InferenceModel.BinaryOutputRead` | App/Utils/Model.py:47-51 | with one column, the result has one entry per row in row order, each exactly `{Malignant: 1 - p, Benign: p}` with the two summing to 1 |
| `InferenceModel.SevenClassOutputRead` | App/Utils/Model.py:53-65 | with seven columns, in row `j` the `i`-th label gets exactly column `i` of row `j`, one entry per row |
| `PredictionRouter.DependencyFailure` | App/Routers/MakePrediction.py:41 | a failed key check is answered with an error, status 400 exactly for the four check failures and 500 for a malformed record |
| `PredictionRouter.HealthCheck` | App/Routers/MakePrediction.py:30-37 | the health endpoint answers `{"status": "ok"}` iff the key is usable, and otherwise the gate's error |
| `PredictionRouter.Assemble` | App/Routers/MakePrediction.py:79-84 | the response holds the model result unchanged, `time_taken` = end − start, and a date string that reads back as the captured date-time |
| `PredictionRouter.PredictStages` | App/Routers/MakePrediction.py:59-84 | an empty file raises the 400 "Uploaded file is empty."; an exception raised by the preprocessor is passed on unchanged; a None from it raises the 400 "Error in image preprocessing."; success means the file was non-empty, preprocessing returned a tensor, the prediction succeeded and the body was assembled from it |
| `PredictionRouter.ServerError` | App/Routers/MakePrediction.py:86-87 | the blanket handler answers 500 with a detail made of "Internal Server Error: " followed by the exception's text |
| `PredictionRouter.PredictHandler` | App/Routers/MakePrediction.py:40-87 | no record gives 400 "Invalid API Key."; otherwise any failure of the stages is a 500 with the stage's exception text; the handler succeeds iff a record is present and the stages succeed |
| `PredictionRouter.Predict` | App/Routers/MakePrediction.py:40-87 | a successful prediction implies the key was usable; every error is a 400 or a 500 |
| `PredictionRouter.FailedKeyCheckStopsRequest` | App/Routers/MakePrediction.py:30-41 | when the key check fails, both endpoints answer with the gate's error, and the file, preprocessor, backend and clock make no difference |
| `PredictionRouter.HealthOkWhenAuthorized` | App/Routers/MakePrediction.py:30-37 | with a valid key the health endpoint answers exactly `{"status": "ok"}` |
| `PredictionRouter.MissingRecordRefusedFirst` | App/Routers/MakePrediction.py:54-57 | a missing record is answered 400 "Invalid API Key." before the clock, the file or any stage is used |
| `PredictionRouter.EmptyUploadBecomesServerError` | App/Routers/MakePrediction.py:63-64 | with a valid key, an empty upload never reaches the preprocessor or the backend, and is answered 500 "Internal Server Error: 400: Uploaded file is empty." |
| `PredictionRouter.EmptyFileDetail` | App/Routers/MakePrediction.py:86-87 | the caught 400 prints as "400: Uploaded file is empty." inside the 500 detail |
| `PredictionRouter.PreprocessingNoneBecomesServerError` | App/Routers/MakePrediction.py:70-71 | with a valid key, a preprocessor that returns None is answered 500 "Internal Server Error: 400: Error in image preprocessing." |
| `PredictionRouter.PreprocessingFailureDetail` | App/Routers/MakePrediction.py:86-87 | the caught 400 for a failed preprocessing prints as "400: Error in image preprocessing." inside the 500 detail |
| `PredictionRouter.PreprocessingErrorDetail` | App/Routers/MakePrediction.py:67 | with a valid key, an exception the preprocessor raises reaches the client as a 500 carrying its own `str(e)` after the prefix |
| `PyErrors.Str` | App/Routers/MakePrediction.py:87 | an HTTPException prints as a decimal numeral without leading zeros whose value is its status, then ": ", then its detail; a KeyError prints its key between matching quotes, unchanged when no character needs escaping; a ValueError prints its message |
| `PyErrors.QuotedRepr` | App/Utils/Model.py:39-40 | `repr` of a string: double quotes exactly when it holds a single quote and no double quote, otherwise single quotes; the text between them is the string itself when no character needs escaping |
| `PyErrors.ReprBody` | App/Utils/Model.py:39-40 | the escaped text is never shorter than the string, and equals it when every character is plain for the chosen quote |
| `PyErrors.ReprBodyAppend` | App/Utils/Model.py:39-40 | escaping works character by character: the escaped text of a join is the join of the escaped texts |
| `PyErrors.ReprEscapesQuote` | App/Utils/Model.py:39-40 | any string with a double quote before a single quote is written in single quotes, that single quote escaped as `\'` and the text on either side escaped for the single quote |
| `Text.NatToString` | App/Routers/MakePrediction.py:87 | `str` of a status code: a non-empty run of decimal digits, with no leading zero, whose value is the number |
| `PredictionRouter.BadRequestText` | App/Routers/MakePrediction.py:86-87 | any caught 400 prints as "400: " followed by its detail |
| `PredictionRouter.PreprocessorSeesOneImageAt300` | App/Routers/MakePrediction.py:67 | the preprocessor is consulted only on a batch of exactly the one uploaded image at size (300, 300) |
| `PredictionRouter.FailedPreprocessingSkipsBackend` | App/Routers/MakePrediction.py:67-74 | when preprocessing raises or returns None, the backend makes no difference to the response |
| `PredictionRouter.StatusCodesOfPredict` | App/Routers/MakePrediction.py:59-87 | every 400 from the predict endpoint comes from the key check; past it, every failure is a 500 whose detail begins "Internal Server Error: " |
| `PredictionRouter.PredictionErrorDetail` | App/Routers/MakePrediction.py:73-87 | a prediction error reaches the client as a 500 with the error's own text after the prefix |
| `PredictionRouter.SuccessfulResponse` | App/Routers/MakePrediction.py:79-84 | a successful response has exactly `diagnosis` (the prediction unchanged), `time_taken` = end − start and `date` in the fixed format, which reads back as the captured date-time |

## Left out

- **The MongoDB client** (App/DB/MongoDB.py): connection, `find_one`, `update_one` and `insert_one`.
  The store is a map from token to the document `find_one` returns. A store holding several
  documents with the same `api_key`, where `find_one` picks one, is not modelled.
- **The BSON-to-JSON round trip** of the record (`json.loads(dumps(...))`). It is the identity for
  the fields read. Field values are text, integers or "other". Float and bool `usage` values are
  not told apart from integers.
- **Image preprocessing** (App/Utils/Preprocessing.py): JPEG decoding, nearest-neighbour resize,
  EfficientNetV2 `preprocess_input` and the `/255.0` fallback. These are TensorFlow calls and
  floating-point work. The preprocessor is a parameter. Properties of its output, such as batch
  size and spatial size, are not modelled.
- **Model loading and the backend call**: `tf.saved_model.load`, `tf.cast` to float32, the call
  itself and `.numpy()`. The backend is a parameter. Its output is given as rank, rows and width.
- **Floating point.** Probabilities are `real`, so `Malignant = 1 - p` is exact. The float32
  rounding of `1 - prob` and of `float(prob)` is not modelled. Likewise `time_taken` is the exact
  difference of two `real` clock readings; the float64 subtraction of the two `time.time()`
  values (App/Routers/MakePrediction.py:82) and its rounding are not modelled.
- **`Model.__call__`**: it only delegates to `make_prediction`. The router calls `make_prediction`
  directly, so `__call__` has no member of its own.
- **The `result is None` check** after prediction (App/Routers/MakePrediction.py:76-77).
  `make_prediction` returns a list or raises, and its model returns a `Result`. So the "Prediction
  model failed." branch cannot be taken and is not modelled.
- **Framework plumbing**: FastAPI routing and dependency-injection mechanics, the `access_token`
  header extraction (a missing header becomes `None`), async file reading, environment and config
  loading, and the module-level singletons.
- **A missing `file` form field**: the framework's 422 validation error for it, which comes after
  the key check, is not modelled.
- **Clock reads** (`time.time()`, `datetime.now()`). The readings are parameters, and no claim
  `time_taken >= 0` is made, since `time.time()` is not monotonic.
- **`Timestamps.Format`**: pads the year to four digits. The platform `strftime` writes years
  below 1000 unpadded; such dates are not modelled.
- `PyErrors.QuotedRepr`: writes every non-ASCII character as itself. Python's `repr` escapes
  the non-printable ones (U+0085, U+00A0, U+2028 and others) as `\x`, `\u` or `\U` escapes;
  Unicode's printable classes are not modelled.
- **Unicode in `strptime`**: Python's `\d` and `\s` also match non-ASCII digits and whitespace
  (Arabic-Indic digits, U+0085, U+00A0, U+2028 and others). The parser accepts ASCII digits and
  ASCII whitespace only.
- `ApiKeyGate.ExceptionOf`: does not reproduce the messages of the TypeError raised for a
  wrong-typed `expired_date` or `usage`, or of the ValueError raised for an expiry that does not
  parse, because their wording depends on the Python version and on the offending value's type
  and `repr`. It keeps the exception type only, and the framework answers every such fault with
  the same 500 "Internal Server Error" whatever the wording.
- **Concurrency, cancellation and backpressure**: none exists in the code, so none is modelled.
