/**
  The FreePBX API client: one process-wide cache slot holding the OAuth bearer token, the
  client-credentials exchange that fills it (section 4.4 of RFC 6749), the GraphQL and REST
  channels that evict it when their request fails, and the accessors that dig their
  collections out of the responses.

  The HTTP transport is an input: a `Transport` says what each endpoint answers. Each
  operation is specified by a pure step function (result, new slot, effects on the outside
  world), and `Client` implements it with methods that update the slot in place.
 */
module FreePBX {
  import opened Wrappers
  import opened Json
  import E = FreePBXException

  const CacheKey: string := "freepbx_token"
  /** Seconds the token stays cached: a little under the token's one-hour lifetime. */
  const TokenTtl: nat := 3500
  const AccessTokenField: string := "access_token"
  const ErrorsField: string := "errors"
  const DataField: string := "data"
  const StateField: string := "state"
  const RestBase: string := "/admin/api/api/rest"
  const DefaultCdrLimit: int := 100

  /** The fixed GraphQL documents the accessors send; only the CDR query has a parameter. */
  datatype Query = FetchAllExtensions | FetchAllRingGroups | FetchAllCdrs(first: int)

  /** A request sent to the PBX. Retries inside the HTTP library count as one request. */
  datatype Request =
    | TokenExchange
    | GqlPost(query: Query)
    | RestRequest(verb: string, path: string)

  /** What an operation does to the outside world: a request, or a write to the cache. */
  datatype Effect =
    | Send(request: Request)
    | Put(key: string, token: string, ttl: nat)
    | Forget(key: string)

  /**
    How the HTTP library ends a request: a `ConnectionException` (no response at all), a
    `RequestException` for a failed status (carrying the response body), or a successful
    response with its body and its decoded JSON (null when the body is not JSON).
   */
  datatype HttpResponse =
    | Unreachable
    | Failed(body: string)
    | Succeeded(body: string, json: Json)

  /** What the PBX answers to the token endpoint, to each query and to each REST call. */
  datatype Transport = Transport(
    token: HttpResponse,
    gql: Query -> HttpResponse,
    rest: (string, string) -> HttpResponse)

  /**
    What an operation can throw: a `FreePBXException`, the HTTP library's
    `ConnectionException` (which no `catch (RequestException)` intercepts), or the `TypeError`
    PHP raises under strict types when a decoded value has the wrong type for a parameter or a
    declared return type.
   */
  datatype Error =
    | Thrown(exception: E.Exception)
    | ConnectionFailed
    | TypeMismatch

  /** One operation's outcome: its result, the cache slot afterwards and its effects, in order. */
  datatype Step<T> = Step(result: Result<T, Error>, slot: Option<string>, effects: seq<Effect>)

  /** The cache slot after one effect: only writes to `CacheKey` touch it. */
  function Apply(slot: Option<string>, e: Effect): Option<string> {
    match e
    case Send(_) => slot
    case Put(key, token, _) => if key == CacheKey then Some(token) else slot
    case Forget(key) => if key == CacheKey then None else slot
  }

  /** The cache slot after a sequence of effects. */
  function Replay(slot: Option<string>, effects: seq<Effect>): Option<string>
    decreases |effects|
  {
    if effects == [] then slot else Replay(Apply(slot, effects[0]), effects[1..])
  }

  lemma {:induction false} ReplayAppend(slot: Option<string>, a: seq<Effect>, b: seq<Effect>)
    ensures Replay(slot, a + b) == Replay(Replay(slot, a), b)
    decreases |a|
  {
    if a == [] {
      assert a + b == b;
    } else {
      assert (a + b)[0] == a[0] && (a + b)[1..] == a[1..] + b;
      ReplayAppend(Apply(slot, a[0]), a[1..], b);
    }
  }

  /** The requests among some effects, in order. */
  function Requests(effects: seq<Effect>): seq<Request>
    decreases |effects|
  {
    if effects == [] then []
    else (if effects[0].Send? then [effects[0].request] else []) + Requests(effects[1..])
  }

  lemma {:induction false} RequestsAppend(a: seq<Effect>, b: seq<Effect>)
    ensures Requests(a + b) == Requests(a) + Requests(b)
    decreases |a|
  {
    if a == [] {
      assert a + b == b;
    } else {
      assert (a + b)[0] == a[0] && (a + b)[1..] == a[1..] + b;
      RequestsAppend(a[1..], b);
    }
  }

  /** The access token a token response carries, if it carries a string one. */
  function IssuedToken(response: HttpResponse): Option<string> {
    if response.Succeeded? && Get(response.json, AccessTokenField).Some?
       && Get(response.json, AccessTokenField).value.JStr?
    then Some(Get(response.json, AccessTokenField).value.s)
    else None
  }

  /**
    `getToken()`: read the slot through; on a miss, exchange the client credentials once and
    cache the token for `TokenTtl` seconds. A response without a usable `access_token` throws
    `tokenFailed` with the raw body and caches nothing (see the Findings in README for the
    non-string token this departs from).
   */
  function TokenStep(slot: Option<string>, t: Transport): (s: Step<string>)
    ensures s.slot == Replay(slot, s.effects)
    // a hit returns the cached token, sends nothing and leaves the slot alone
    ensures slot.Some? ==> s.result == Success(slot.value) && s.slot == slot && s.effects == []
    // a miss makes exactly one token request, first
    ensures slot.None? ==> Requests(s.effects) == [TokenExchange] && s.effects[0] == Send(TokenExchange)
    // the token returned is the one in the slot afterwards; a failure leaves the slot empty
    ensures s.result.Success? ==> s.slot == Some(s.result.value)
    ensures s.result.Failure? ==> s.slot == None
    // a miss succeeds exactly when the endpoint issues a token; that token is cached for TokenTtl
    ensures slot.None? ==> (s.result.Success? <==> IssuedToken(t.token).Some?)
    ensures slot.None? && s.result.Success? ==>
              s.result.value == IssuedToken(t.token).value
              && s.effects == [Send(TokenExchange), Put(CacheKey, s.result.value, TokenTtl)]
    // a failed status or a body without a token throws tokenFailed carrying the body
    ensures slot.None? && !t.token.Unreachable? && IssuedToken(t.token).None? ==>
              s.result == Failure(Thrown(E.TokenFailed(t.token.body)))
    ensures slot.None? && t.token.Unreachable? ==> s.result == Failure(ConnectionFailed)
  {
    if slot.Some? then Step(Success(slot.value), slot, [])
    else
      match t.token
      case Unreachable => Step(Failure(ConnectionFailed), None, [Send(TokenExchange)])
      case Failed(body) => Step(Failure(Thrown(E.TokenFailed(body))), None, [Send(TokenExchange)])
      case Succeeded(body, json) =>
        match Get(json, AccessTokenField)
        case Some(JStr(token)) =>
          var effects := [Send(TokenExchange), Put(CacheKey, token, TokenTtl)];
          assert effects[1..] == [Put(CacheKey, token, TokenTtl)] && effects[1..][1..] == [];
          assert Replay(None, effects[1..]) == Replay(Some(token), []);
          Step(Success(token), Some(token), effects)
        case _ => Step(Failure(Thrown(E.TokenFailed(body))), None, [Send(TokenExchange)])
  }

  /** Whether the token step of an operation succeeds from this slot. */
  predicate Authorised(slot: Option<string>, t: Transport) {
    TokenStep(slot, t).result.Success?
  }

  /**
    `graphql($query)`: obtain a token, POST the query, and then: on a failed request evict the
    token and throw `graphqlError` with the body; on a response with an `errors` value throw
    `graphqlValidationErrors` and keep the token; otherwise return `data`, or nothing when it is
    absent.
   */
  function GraphqlStep(slot: Option<string>, query: Query, t: Transport, jsonEncode: Json -> string)
    : (s: Step<Option<Json>>)
    ensures s.slot == Replay(slot, s.effects)
    // without a token nothing is posted and the token failure propagates unchanged
    ensures !Authorised(slot, t) ==>
              s.result == Failure(TokenStep(slot, t).result.error) && s.slot == None
              && s.effects == TokenStep(slot, t).effects
    ensures Authorised(slot, t) ==>
              Requests(s.effects) == Requests(TokenStep(slot, t).effects) + [GqlPost(query)]
    // the token is evicted exactly when the GraphQL request fails
    ensures Forget(CacheKey) in s.effects <==> Authorised(slot, t) && t.gql(query).Failed?
    ensures t.gql(query).Failed? ==> s.slot == None
    ensures Authorised(slot, t) && t.gql(query).Failed? ==>
              s.result == Failure(Thrown(E.GraphqlError(t.gql(query).body)))
    // no response at all: the ConnectionException propagates and nothing is evicted
    ensures Authorised(slot, t) && t.gql(query).Unreachable? ==> s.result == Failure(ConnectionFailed)
    // otherwise the token obtained stays cached
    ensures !t.gql(query).Failed? ==> s.slot == TokenStep(slot, t).slot
    // an `errors` array is a validation failure carrying that array
    ensures Authorised(slot, t) && t.gql(query).Succeeded?
            && Get(t.gql(query).json, ErrorsField).Some? ==>
              var errors := Get(t.gql(query).json, ErrorsField).value;
              s.result == if IsArray(errors)
                          then Failure(Thrown(E.GraphqlValidationErrors(errors, jsonEncode)))
                          else Failure(TypeMismatch)
    // without `errors`, the result is `data` (nothing when absent or null)
    ensures Authorised(slot, t) && t.gql(query).Succeeded?
            && Get(t.gql(query).json, ErrorsField).None? ==>
              var data := Get(t.gql(query).json, DataField);
              s.result == if data.None? || IsArray(data.value) then Success(data) else Failure(TypeMismatch)
  {
    var tk := TokenStep(slot, t);
    if tk.result.Failure? then Step(Failure(tk.result.error), tk.slot, tk.effects)
    else
      var sent := tk.effects + [Send(GqlPost(query))];
      RequestsAppend(tk.effects, [Send(GqlPost(query))]);
      ReplayAppend(slot, tk.effects, [Send(GqlPost(query))]);
      match t.gql(query)
      case Unreachable => Step(Failure(ConnectionFailed), tk.slot, sent)
      case Failed(body) =>
        RequestsAppend(sent, [Forget(CacheKey)]);
        ReplayAppend(slot, sent, [Forget(CacheKey)]);
        Step(Failure(Thrown(E.GraphqlError(body))), None, sent + [Forget(CacheKey)])
      case Succeeded(_, json) =>
        match Get(json, ErrorsField)
        case Some(errors) =>
          if IsArray(errors) then Step(Failure(Thrown(E.GraphqlValidationErrors(errors, jsonEncode))), tk.slot, sent)
          else Step(Failure(TypeMismatch), tk.slot, sent)
        case None =>
          match Get(json, DataField)
          case None => Step(Success(None), tk.slot, sent)
          case Some(data) =>
            if IsArray(data) then Step(Success(Some(data)), tk.slot, sent)
            else Step(Failure(TypeMismatch), tk.slot, sent)
  }

  /**
    `rest($method, $endpoint)`: obtain a token and send the request to `RestBase + endpoint`;
    on a failed request evict the token and throw `restError` with the body, otherwise return
    the decoded body as it is.
   */
  function RestStep(slot: Option<string>, verb: string, endpoint: string, t: Transport): (s: Step<Json>)
    ensures s.slot == Replay(slot, s.effects)
    ensures !Authorised(slot, t) ==>
              s.result == Failure(TokenStep(slot, t).result.error) && s.slot == None
              && s.effects == TokenStep(slot, t).effects
    ensures Authorised(slot, t) ==>
              Requests(s.effects) == Requests(TokenStep(slot, t).effects) + [RestRequest(verb, RestBase + endpoint)]
    ensures Forget(CacheKey) in s.effects <==> Authorised(slot, t) && t.rest(verb, RestBase + endpoint).Failed?
    ensures t.rest(verb, RestBase + endpoint).Failed? ==> s.slot == None
    ensures Authorised(slot, t) && t.rest(verb, RestBase + endpoint).Failed? ==>
              s.result == Failure(Thrown(E.RestError(t.rest(verb, RestBase + endpoint).body)))
    ensures Authorised(slot, t) && t.rest(verb, RestBase + endpoint).Unreachable? ==>
              s.result == Failure(ConnectionFailed)
    ensures !t.rest(verb, RestBase + endpoint).Failed? ==> s.slot == TokenStep(slot, t).slot
    // a successful response is returned verbatim
    ensures Authorised(slot, t) && t.rest(verb, RestBase + endpoint).Succeeded? ==>
              s.result == Success(t.rest(verb, RestBase + endpoint).json)
  {
    var tk := TokenStep(slot, t);
    if tk.result.Failure? then Step(Failure(tk.result.error), tk.slot, tk.effects)
    else
      var path := RestBase + endpoint;
      var sent := tk.effects + [Send(RestRequest(verb, path))];
      RequestsAppend(tk.effects, [Send(RestRequest(verb, path))]);
      ReplayAppend(slot, tk.effects, [Send(RestRequest(verb, path))]);
      match t.rest(verb, path)
      case Unreachable => Step(Failure(ConnectionFailed), tk.slot, sent)
      case Failed(body) =>
        RequestsAppend(sent, [Forget(CacheKey)]);
        ReplayAppend(slot, sent, [Forget(CacheKey)]);
        Step(Failure(Thrown(E.RestError(body))), None, sent + [Forget(CacheKey)])
      case Succeeded(_, json) => Step(Success(json), tk.slot, sent)
  }

  const ExtensionsPath: seq<string> := ["fetchAllExtensions", "extension"]
  const RingGroupsPath: seq<string> := ["fetchAllRingGroups", "ringgroups"]
  const CdrsPath: seq<string> := ["fetchAllCdrs", "cdrs"]
  const CallFlowsEndpoint: string := "/daynight/"

  /**
    `$result['state'] ?? null` returned as `?string`: the state when the response holds a
    string there, nothing when it holds nothing or null, and a `TypeError` for any other value.
   */
  function CallFlowStateOf(result: Json): (r: Result<Option<string>, Error>)
    ensures r.Success? <==> Get(result, StateField).None? || Get(result, StateField).value.JStr?
    ensures r == Success(None) <==> Get(result, StateField).None?
    ensures r.Success? && r.value.Some? ==> Get(result, StateField) == Some(JStr(r.value.value))
    ensures r.Failure? ==> r.error == TypeMismatch
  {
    match Get(result, StateField)
    case None => Success(None)
    case Some(JStr(state)) => Success(Some(state))
    case Some(_) => Failure(TypeMismatch)
  }

  /** An accessor's outcome: a failure of the channel passes through, a result is shaped. */
  function Shaped<T, U>(r: Result<T, Error>, shape: T -> U): Result<U, Error> {
    match r
    case Success(v) => Success(shape(v))
    case Failure(e) => Failure(e)
  }

  class Client {
    const url: string
    const clientId: string
    const clientSecret: string
    /** PHP's `json_encode`, used only to build validation-error messages. */
    const jsonEncode: Json -> string
    /** What the cache held under `CacheKey` when the client was made. */
    ghost const initial: Option<string>

    /** The cache entry under `CacheKey`: a bearer token, or nothing. */
    var slot: Option<string>
    /** Every request sent and every cache write made by this client, in order. */
    ghost var effects: seq<Effect>

    /** The slot is always what the client's own cache writes made of its initial content. */
    ghost predicate Valid()
      reads this
    {
      slot == Replay(initial, effects)
    }

    constructor (url: string, clientId: string, clientSecret: string, jsonEncode: Json -> string,
                 cached: Option<string>)
      ensures Valid()
      ensures this.url == url && this.clientId == clientId && this.clientSecret == clientSecret
      ensures this.jsonEncode == jsonEncode
      ensures slot == cached && effects == []
    {
      this.url := url;
      this.clientId := clientId;
      this.clientSecret := clientSecret;
      this.jsonEncode := jsonEncode;
      initial := cached;
      slot := cached;
      effects := [];
    }

    method GetToken(t: Transport) returns (r: Result<string, Error>)
      requires Valid()
      modifies this
      ensures Valid()
      ensures var s := TokenStep(old(slot), t);
              r == s.result && slot == s.slot && effects == old(effects) + s.effects
    {
      if slot.Some? {
        return Success(slot.value);
      }
      effects := effects + [Send(TokenExchange)];
      match t.token {
        case Unreachable =>
          r := Failure(ConnectionFailed);
        case Failed(body) =>
          r := Failure(Thrown(E.TokenFailed(body)));
        case Succeeded(body, json) =>
          var token := Get(json, AccessTokenField);
          if token.None? || !token.value.JStr? {
            r := Failure(Thrown(E.TokenFailed(body)));
          } else {
            slot := Some(token.value.s);
            effects := effects + [Put(CacheKey, token.value.s, TokenTtl)];
            r := Success(token.value.s);
          }
      }
      ghost var s := TokenStep(old(slot), t);
      assert effects == old(effects) + s.effects;
      ReplayAppend(initial, old(effects), s.effects);
    }

    method Graphql(query: Query, t: Transport) returns (r: Result<Option<Json>, Error>)
      requires Valid()
      modifies this
      ensures Valid()
      ensures var s := GraphqlStep(old(slot), query, t, jsonEncode);
              r == s.result && slot == s.slot && effects == old(effects) + s.effects
    {
      var token := GetToken(t);
      if token.Failure? {
        return Failure(token.error);
      }
      effects := effects + [Send(GqlPost(query))];
      match t.gql(query) {
        case Unreachable =>
          r := Failure(ConnectionFailed);
        case Failed(body) =>
          slot := None;
          effects := effects + [Forget(CacheKey)];
          r := Failure(Thrown(E.GraphqlError(body)));
        case Succeeded(_, json) =>
          var errors := Get(json, ErrorsField);
          if errors.Some? {
            r := if IsArray(errors.value)
                 then Failure(Thrown(E.GraphqlValidationErrors(errors.value, jsonEncode)))
                 else Failure(TypeMismatch);
          } else {
            var data := Get(json, DataField);
            r := if data.None? || IsArray(data.value) then Success(data) else Failure(TypeMismatch);
          }
      }
      ghost var s := GraphqlStep(old(slot), query, t, jsonEncode);
      assert effects == old(effects) + s.effects;
      ReplayAppend(initial, old(effects), s.effects);
    }

    method Rest(verb: string, endpoint: string, t: Transport) returns (r: Result<Json, Error>)
      requires Valid()
      modifies this
      ensures Valid()
      ensures var s := RestStep(old(slot), verb, endpoint, t);
              r == s.result && slot == s.slot && effects == old(effects) + s.effects
    {
      var token := GetToken(t);
      if token.Failure? {
        return Failure(token.error);
      }
      var path := RestBase + endpoint;
      effects := effects + [Send(RestRequest(verb, path))];
      match t.rest(verb, path) {
        case Unreachable =>
          r := Failure(ConnectionFailed);
        case Failed(body) =>
          slot := None;
          effects := effects + [Forget(CacheKey)];
          r := Failure(Thrown(E.RestError(body)));
        case Succeeded(_, json) =>
          r := Success(json);
      }
      ghost var s := RestStep(old(slot), verb, endpoint, t);
      assert effects == old(effects) + s.effects;
      ReplayAppend(initial, old(effects), s.effects);
    }

    method GetExtensions(t: Transport) returns (r: Result<Json, Error>)
      requires Valid()
      modifies this
      ensures Valid()
      ensures var s := GraphqlStep(old(slot), FetchAllExtensions, t, jsonEncode);
              slot == s.slot && effects == old(effects) + s.effects
              && r == Shaped(s.result, data => Listing(data, ExtensionsPath))
    {
      var result := Graphql(FetchAllExtensions, t);
      r := Shaped(result, data => Listing(data, ExtensionsPath));
    }

    method GetRingGroups(t: Transport) returns (r: Result<Json, Error>)
      requires Valid()
      modifies this
      ensures Valid()
      ensures var s := GraphqlStep(old(slot), FetchAllRingGroups, t, jsonEncode);
              slot == s.slot && effects == old(effects) + s.effects
              && r == Shaped(s.result, data => Listing(data, RingGroupsPath))
    {
      var result := Graphql(FetchAllRingGroups, t);
      r := Shaped(result, data => Listing(data, RingGroupsPath));
    }

    /** `getCdrs($first = 100)`: the number of records asked for defaults to `DefaultCdrLimit`. */
    method GetCdrs(t: Transport, first: int := DefaultCdrLimit) returns (r: Result<Json, Error>)
      requires Valid()
      modifies this
      ensures Valid()
      ensures var s := GraphqlStep(old(slot), FetchAllCdrs(first), t, jsonEncode);
              slot == s.slot && effects == old(effects) + s.effects
              && r == Shaped(s.result, data => Listing(data, CdrsPath))
    {
      var result := Graphql(FetchAllCdrs(first), t);
      r := Shaped(result, data => Listing(data, CdrsPath));
    }

    method GetCallFlows(t: Transport) returns (r: Result<Json, Error>)
      requires Valid()
      modifies this
      ensures Valid()
      ensures var s := RestStep(old(slot), "get", CallFlowsEndpoint, t);
              slot == s.slot && effects == old(effects) + s.effects
              && r == Shaped(s.result, body => Listing(Present(body), []))
    {
      var result := Rest("get", CallFlowsEndpoint, t);
      r := Shaped(result, body => Listing(Present(body), []));
    }

    method GetCallFlowState(id: string, t: Transport) returns (r: Result<Option<string>, Error>)
      requires Valid()
      modifies this
      ensures Valid()
      ensures var s := RestStep(old(slot), "get", CallFlowsEndpoint + id, t);
              slot == s.slot && effects == old(effects) + s.effects
              && r == (if s.result.Success? then CallFlowStateOf(s.result.value) else Failure(s.result.error))
    {
      var result := Rest("get", CallFlowsEndpoint + id, t);
      if result.Failure? {
        return Failure(result.error);
      }
      r := CallFlowStateOf(result.value);
    }
  }
}
