/**
  The feature tests of the client, restated against the model: fixed responses for each
  endpoint, and what the accessors return and leave in the cache.
 */
module Scenarios {
  import opened Wrappers
  import opened Json
  import opened FreePBX
  import opened Session
  import E = FreePBXException

  const FakeToken: HttpResponse := Succeeded("{\"access_token\":\"fake-token\"}",
                                             JObj(map["access_token" := JStr("fake-token")]))

  /** A response body of 500 "Internal Server Error", as the HTTP library reports it. */
  const ServerError: HttpResponse := Failed("Internal Server Error")

  /** Two extension lookups in a row: one token request and two GraphQL posts, three in all. */
  lemma TokenCachedAcrossCalls(t: Transport, jsonEncode: Json -> string)
    requires t.token == FakeToken
    requires t.gql(FetchAllExtensions).Succeeded?
    ensures Requests(Run(None, [GraphqlCall(FetchAllExtensions), GraphqlCall(FetchAllExtensions)], [t, t], jsonEncode).effects)
              == [TokenExchange, GqlPost(FetchAllExtensions), GqlPost(FetchAllExtensions)]
  {
    var calls := [GraphqlCall(FetchAllExtensions), GraphqlCall(FetchAllExtensions)];
    var first := CallStep(None, calls[0], t, jsonEncode);
    assert Get(t.token.json, AccessTokenField) == Some(JStr("fake-token"));
    assert first.slot == Some("fake-token");
    RunRequests(None, calls, [t, t], jsonEncode);
    RunRequests(first.slot, calls[1..], [t, t][1..], jsonEncode);
    assert calls[1..][1..] == [];
  }

  /** `extension: null` under `fetchAllExtensions` gives the empty collection, not a failure. */
  lemma NullExtensionsGiveEmptyList(t: Transport, jsonEncode: Json -> string)
    requires t.token == FakeToken
    requires t.gql(FetchAllExtensions) == Succeeded("(body)", JObj(map["data" := JObj(map[
               "fetchAllExtensions" := JObj(map["status" := JBool(true), "extension" := JNull])])]))
    ensures var s := GraphqlStep(None, FetchAllExtensions, t, jsonEncode);
            s.result.Success? && Listing(s.result.value, ExtensionsPath) == JArr([])
  {
  }

  /** With a token already cached, a 500 from the GraphQL endpoint empties the cache. */
  lemma GraphqlFailureClearsWarmCache(t: Transport, jsonEncode: Json -> string)
    requires t.gql(FetchAllExtensions) == ServerError
    ensures var s := GraphqlStep(Some("cached-token"), FetchAllExtensions, t, jsonEncode);
            s.slot == None && s.result == Failure(Thrown(E.GraphqlError("Internal Server Error")))
            && E.FamilyOf(s.result.error.exception.message) == E.GraphqlMessage
  {
    E.ConstructorsReadBack("Internal Server Error", JArr([]), jsonEncode);
  }

  /** With a token already cached, a 500 from a REST endpoint empties the cache. */
  lemma RestFailureClearsWarmCache(t: Transport)
    requires t.rest("get", RestBase + CallFlowsEndpoint) == ServerError
    ensures var s := RestStep(Some("cached-token"), "get", CallFlowsEndpoint, t);
            s.slot == None && s.result == Failure(Thrown(E.RestError("Internal Server Error")))
  {
  }

  /** A 401 from the token endpoint: a token failure carrying that body, and no GraphQL post. */
  lemma RejectedCredentialsStopAtToken(t: Transport, jsonEncode: Json -> string)
    requires t.token == Failed("{\"error\":\"invalid_client\"}")
    ensures var s := GraphqlStep(None, FetchAllExtensions, t, jsonEncode);
            s.result == Failure(Thrown(E.TokenFailed("{\"error\":\"invalid_client\"}")))
            && Requests(s.effects) == [TokenExchange] && s.slot == None
  {
  }
}
