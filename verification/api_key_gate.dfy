/**
 * The API-key dependency `check_api_key`: a fixed chain of checks on the `access_token` header
 * and the stored credential record, each of which can stop the request.
 */
module ApiKeyGate {
  import opened Results
  import opened Timestamps
  import opened PyErrors

  /** A field of a credential document, after its BSON-to-JSON round trip. */
  datatype Value = Text(text: string) | Number(number: int) | OtherValue

  type Document = map<string, Value>

  /**
   * The credential collection as `find_one({"api_key": token})` sees it: for each token, the
   * stored document that query returns, `_id` included.
   */
  type Store = map<string, Document>

  const IdField := "_id"
  const ExpiryField := "expired_date"
  const UsageField := "usage"

  /** One failure per check, then the faults a malformed record causes. */
  datatype AuthError =
    | ApiKeyRequired                  // no header, or an empty one
    | ApiKeyNotFound                  // no record, or an empty one
    | ApiKeyExpired                   // now >= expired_date
    | ApiKeyLimitExceeded             // usage <= 0
    | MissingField(field: string)     // KeyError on the record
    | WrongFieldType(field: string)   // TypeError from strptime or from `<=`
    | BadExpiry(cause: ParseError)    // ValueError from strptime

  /** The lookup with projection `{"_id": 0}`: the stored document without its identifier. */
  function FindCredential(store: Store, token: string): (r: Option<Document>)
    ensures r.Some? <==> token in store
    ensures r.Some? ==> IdField !in r.value
    ensures r.Some? ==> forall k | k in store[token] && k != IdField :: k in r.value && r.value[k] == store[token][k]
    ensures r.Some? ==> forall k | k in r.value :: k in store[token]
  {
    if token in store then Some(store[token] - {IdField}) else None
  }

  /** `check_api_key(api_key)` with the store and the reading of `datetime.now()` passed in. */
  function CheckApiKey(header: Option<string>, store: Store, now: Instant): (r: Result<Document, AuthError>)
    ensures r.Success? ==> header.Some? && FindCredential(store, header.value) == Some(r.value)
    ensures r.Success? ==> UsageField in r.value && r.value[UsageField].Number? && r.value[UsageField].number > 0
  {
    if header.None? || header.value == "" then Failure(ApiKeyRequired)
    else
      var info := FindCredential(store, header.value);
      if info.None? || info.value == map[] then Failure(ApiKeyNotFound)
      else
        var record := info.value;
        if ExpiryField !in record then Failure(MissingField(ExpiryField))
        else if !record[ExpiryField].Text? then Failure(WrongFieldType(ExpiryField))
        else match ParseTimestamp(record[ExpiryField].text)
          case Failure(e) => Failure(BadExpiry(e))
          case Success(expiry) =>
            if AtOrAfter(now, expiry) then Failure(ApiKeyExpired)
            else if UsageField !in record then Failure(MissingField(UsageField))
            else if !record[UsageField].Number? then Failure(WrongFieldType(UsageField))
            else if record[UsageField].number <= 0 then Failure(ApiKeyLimitExceeded)
            else Success(record)
  }

  /**
   * The exception `check_api_key` raises for each failure. A missing field is the KeyError that
   * names it. A value of the wrong type is a TypeError, and an expiry that does not parse is a
   * ValueError; the model keeps their type but not the wording Python gives them.
   */
  function ExceptionOf(e: AuthError): (x: PyException)
    ensures x.HttpException? <==> e in {ApiKeyRequired, ApiKeyNotFound, ApiKeyExpired, ApiKeyLimitExceeded}
    ensures x.HttpException? ==> x.status == 400
    ensures x.KeyError? <==> e.MissingField?
    ensures e.MissingField? ==> x == KeyError(e.field)
    ensures e.WrongFieldType? <==> x == Unworded("TypeError")
    ensures e.BadExpiry? <==> x == Unworded("ValueError")
  {
    match e
    case ApiKeyRequired => HttpException(400, "API Key is required")
    case ApiKeyNotFound => HttpException(400, "API Key Not Found")
    case ApiKeyExpired => HttpException(400, "API Key Expired")
    case ApiKeyLimitExceeded => HttpException(400, "API Key Limit Exceeded")
    case MissingField(field) => KeyError(field)
    case WrongFieldType(_) => Unworded("TypeError")
    case BadExpiry(_) => Unworded("ValueError")
  }

  /**
   * What a usable key is, stated on its own: a non-empty token naming a non-empty record whose
   * expiry is a well-formed date strictly after `now` and whose usage is a positive number.
   */
  ghost predicate Authorized(header: Option<string>, store: Store, now: Instant) {
    && header.Some? && header.value != "" && header.value in store
    && var record := store[header.value] - {IdField};
    && record != map[]
    && ExpiryField in record && record[ExpiryField].Text?
    && var expiry := ParseTimestamp(record[ExpiryField].text);
    && expiry.Success? && InstantBefore(now, Instant(expiry.value, 0))
    && UsageField in record && record[UsageField].Number? && record[UsageField].number > 0
  }

  /** The gate lets a request through exactly when the key is usable, and hands on the projected record. */
  lemma CheckApiKeySucceedsIff(header: Option<string>, store: Store, now: Instant)
    ensures CheckApiKey(header, store, now).Success? <==> Authorized(header, store, now)
    ensures Authorized(header, store, now) ==>
      CheckApiKey(header, store, now) == Success(store[header.value] - {IdField})
  {
  }

  /** A missing or empty header is refused before the store is consulted. */
  lemma MissingTokenCheckedFirst(header: Option<string>, store1: Store, store2: Store, now1: Instant, now2: Instant)
    requires header.None? || header.value == ""
    ensures CheckApiKey(header, store1, now1) == CheckApiKey(header, store2, now2) == Failure(ApiKeyRequired)
  {
  }

  /** An unknown token, or one whose record is empty once `_id` is dropped, is not found. */
  lemma UnknownTokenNotFound(token: string, store: Store, now: Instant)
    requires token != ""
    requires token !in store || store[token] - {IdField} == map[]
    ensures CheckApiKey(Some(token), store, now) == Failure(ApiKeyNotFound)
  {
  }

  /** An expiry that does not parse stops the check with an error; the key is never let through. */
  lemma MalformedExpiryRejected(token: string, store: Store, now: Instant)
    requires token != "" && token in store
    requires ExpiryField in store[token] && store[token][ExpiryField].Text?
    requires ParseTimestamp(store[token][ExpiryField].text).Failure?
    ensures CheckApiKey(Some(token), store, now)
         == Failure(BadExpiry(ParseTimestamp(store[token][ExpiryField].text).error))
  {
    assert ExpiryField in store[token] - {IdField};
  }

  /**
   * Expiry is checked before usage: a record whose expiry has passed is reported expired,
   * whatever its usage field holds or whether it has one at all.
   */
  lemma ExpiredWhateverUsage(token: string, store: Store, now: Instant)
    requires token != "" && token in store
    requires ExpiryField in store[token] && store[token][ExpiryField].Text?
    requires var expiry := ParseTimestamp(store[token][ExpiryField].text);
      expiry.Success? && AtOrAfter(now, expiry.value)
    ensures CheckApiKey(Some(token), store, now) == Failure(ApiKeyExpired)
  {
    assert ExpiryField in store[token] - {IdField};
  }

  /** At the very second of expiry the key is already expired: validity needs `now` strictly before. */
  lemma ExpiredAtBoundary(token: string, store: Store, expiry: DateTime, microsecond: Microsecond)
    requires token != "" && token in store
    requires ExpiryField in store[token] && store[token][ExpiryField].Text?
    requires ParseTimestamp(store[token][ExpiryField].text) == Success(expiry)
    ensures CheckApiKey(Some(token), store, Instant(expiry, microsecond)) == Failure(ApiKeyExpired)
  {
    assert ExpiryField in store[token] - {IdField};
  }

  /** A record that has not expired but has no usage left, including exactly zero, is over its limit. */
  lemma ExhaustedUsageRejected(token: string, store: Store, now: Instant, expiry: DateTime, usage: int)
    requires token != "" && token in store
    requires ExpiryField in store[token] && store[token][ExpiryField].Text?
    requires ParseTimestamp(store[token][ExpiryField].text) == Success(expiry)
    requires UsageField in store[token] && store[token][UsageField] == Number(usage)
    requires InstantBefore(now, Instant(expiry, 0)) && usage <= 0
    ensures CheckApiKey(Some(token), store, now) == Failure(ApiKeyLimitExceeded)
  {
    assert ExpiryField in store[token] - {IdField};
    assert UsageField in store[token] - {IdField};
  }

  /**
   * The check reads the store and never writes it: usage is not consumed, so a key accepted at
   * some moment is accepted, with the same record, at every earlier moment too.
   */
  lemma AcceptedEarlierToo(header: Option<string>, store: Store, earlier: Instant, later: Instant)
    requires CheckApiKey(header, store, later).Success?
    requires InstantBefore(earlier, later) || earlier == later
    ensures CheckApiKey(header, store, earlier) == CheckApiKey(header, store, later)
  {
    CheckApiKeySucceedsIff(header, store, later);
    var record := store[header.value] - {IdField};
    var expiry := ParseTimestamp(record[ExpiryField].text).value;
    if earlier != later {
      InstantBeforeTransitive(earlier, later, Instant(expiry, 0));
    }
    CheckApiKeySucceedsIff(header, store, earlier);
  }

  /** Once a key has expired it stays expired. */
  lemma ExpiredStaysExpired(header: Option<string>, store: Store, earlier: Instant, later: Instant)
    requires CheckApiKey(header, store, earlier) == Failure(ApiKeyExpired)
    requires InstantBefore(earlier, later)
    ensures CheckApiKey(header, store, later) == Failure(ApiKeyExpired)
  {
    var record := store[header.value] - {IdField};
    var expiry := ParseTimestamp(record[ExpiryField].text).value;
    if InstantBefore(later, Instant(expiry, 0)) {
      InstantBeforeTransitive(earlier, later, Instant(expiry, 0));
    }
  }
}
