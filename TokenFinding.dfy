/**
  `getToken()` exactly as written. `Cache::remember` stores whatever non-null value its
  closure returns, and the closure returns `access_token` whatever its JSON type; only then
  does the declared `: string` return type (under strict types) raise a `TypeError`. A token
  response whose `access_token` is, say, a number is therefore cached, and every later call
  fails from the cache without asking the endpoint again until the entry expires.
  `FreePBX.TokenStep` is the corrected behaviour the rest of the model uses.
 */
module TokenFinding {
  import opened Wrappers
  import opened Json
  import opened FreePBX
  import E = FreePBXException

  /**
    The as-written outcome: the cache may hold any JSON value. `Cache::remember` treats a
    stored null like an absent entry; a failed exchange leaves the entry as it was.
   */
  datatype CachedStep = CachedStep(result: Result<string, Error>, cached: Option<Json>, exchanged: bool)

  /** Whether `Cache::remember` returns the entry without calling its closure. */
  predicate Hit(cached: Option<Json>) {
    cached.Some? && cached.value != JNull
  }

  function TokenStepAsWritten(cached: Option<Json>, t: Transport): (s: CachedStep)
    ensures Hit(cached) ==> s.cached == cached && !s.exchanged
    ensures !Hit(cached) ==> s.exchanged
    ensures !Hit(cached) && s.result.Failure? && s.cached != cached ==> Hit(s.cached)
    ensures s.result.Success? ==> s.cached == Some(JStr(s.result.value))
  {
    if Hit(cached) then
      var v := cached.value;
      CachedStep(if v.JStr? then Success(v.s) else Failure(TypeMismatch), cached, false)
    else
      match t.token
      case Unreachable => CachedStep(Failure(ConnectionFailed), cached, true)
      case Failed(body) => CachedStep(Failure(Thrown(E.TokenFailed(body))), cached, true)
      case Succeeded(body, json) =>
        match Get(json, AccessTokenField)
        case None => CachedStep(Failure(Thrown(E.TokenFailed(body))), cached, true)
        case Some(v) =>
          CachedStep(if v.JStr? then Success(v.s) else Failure(TypeMismatch), Some(v), true)
  }

  /** A stored null is a miss: the endpoint is asked exactly as for an absent entry. */
  lemma StoredNullIsAMiss(t: Transport)
    ensures TokenStepAsWritten(Some(JNull), t).exchanged
    ensures TokenStepAsWritten(Some(JNull), t).result == TokenStepAsWritten(None, t).result
  {
  }

  /** The slot of the corrected model seen as the cache entry of the code as written. */
  function AsCached(slot: Option<string>): Option<Json> {
    match slot
    case None => None
    case Some(token) => Some(JStr(token))
  }

  /** A token response whose `access_token` is present but not a string. */
  predicate NonStringToken(response: HttpResponse) {
    response.Succeeded? && Get(response.json, AccessTokenField).Some?
    && !Get(response.json, AccessTokenField).value.JStr?
  }

  /** Except on a non-string `access_token`, the code as written and the corrected step agree. */
  lemma AgreesExceptOnNonStringToken(slot: Option<string>, t: Transport)
    requires !NonStringToken(t.token)
    ensures TokenStepAsWritten(AsCached(slot), t).result == TokenStep(slot, t).result
    ensures TokenStepAsWritten(AsCached(slot), t).cached == AsCached(TokenStep(slot, t).slot)
    ensures TokenStepAsWritten(AsCached(slot), t).exchanged == (Requests(TokenStep(slot, t).effects) != [])
  {
  }

  /** The token response that shows the discrepancy: `{"access_token":7}`. */
  const NumericTokenResponse: HttpResponse :=
    Succeeded("{\"access_token\":7}", JObj(map[AccessTokenField := JNum(7)]))

  /**
    As written: the numeric token is cached and the call fails; the next call, whatever the
    endpoint would now answer, fails the same way from the cache without asking it.
   */
  lemma NumericTokenSticks(t: Transport, later: Transport)
    requires t.token == NumericTokenResponse
    ensures var first := TokenStepAsWritten(None, t);
            first.result == Failure(TypeMismatch) && first.cached == Some(JNum(7))
    ensures var second := TokenStepAsWritten(TokenStepAsWritten(None, t).cached, later);
            second.result == Failure(TypeMismatch) && !second.exchanged
            && second.cached == Some(JNum(7))
  {
  }

  /**
    Corrected: the same response is a token failure carrying the body, nothing is cached, and
    the next call asks the endpoint again and succeeds as soon as it issues a string token.
   */
  lemma NumericTokenRetriedWhenCorrected(t: Transport, later: Transport)
    requires t.token == NumericTokenResponse
    requires IssuedToken(later.token).Some?
    ensures TokenStep(None, t).result == Failure(Thrown(E.TokenFailed("{\"access_token\":7}")))
    ensures TokenStep(None, t).slot == None
    ensures TokenStep(TokenStep(None, t).slot, later).result == Success(IssuedToken(later.token).value)
  {
  }
}
