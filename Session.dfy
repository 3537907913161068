/**
  Sequences of client calls against one transport: what the shared cache slot buys (one token
  exchange for many calls), what a failed request costs (the next call exchanges again) and
  what a failed token exchange does (every call stops at the token endpoint).
 */
module Session {
  import opened Wrappers
  import opened Json
  import opened FreePBX

  /** One call on a channel, as an accessor makes it. */
  datatype Call =
    | GraphqlCall(query: Query)
    | RestCall(verb: string, endpoint: string)

  /** The cache slot after some calls and everything they did, in order. */
  datatype Trace = Trace(slot: Option<string>, effects: seq<Effect>)

  /** What the transport answers to a call's own request (the token request aside). */
  function ResponseTo(c: Call, t: Transport): HttpResponse {
    match c
    case GraphqlCall(q) => t.gql(q)
    case RestCall(verb, endpoint) => t.rest(verb, RestBase + endpoint)
  }

  function CallStep(slot: Option<string>, c: Call, t: Transport, jsonEncode: Json -> string): Trace {
    match c
    case GraphqlCall(q) =>
      var s := GraphqlStep(slot, q, t, jsonEncode);
      Trace(s.slot, s.effects)
    case RestCall(verb, endpoint) =>
      var s := RestStep(slot, verb, endpoint, t);
      Trace(s.slot, s.effects)
  }

  /**
    Calls made one after another, each starting from the slot the previous one left and each
    answered by its own transport (`ts[i]` says what the PBX answers during `calls[i]`).
   */
  function Run(slot: Option<string>, calls: seq<Call>, ts: seq<Transport>, jsonEncode: Json -> string): Trace
    requires |ts| == |calls|
    decreases |calls|
  {
    if calls == [] then Trace(slot, [])
    else
      var first := CallStep(slot, calls[0], ts[0], jsonEncode);
      var rest := Run(first.slot, calls[1..], ts[1..], jsonEncode);
      Trace(rest.slot, first.effects + rest.effects)
  }

  /** How many token exchanges some requests contain. */
  function Exchanges(requests: seq<Request>): nat
    decreases |requests|
  {
    if requests == [] then 0
    else (if requests[0] == TokenExchange then 1 else 0) + Exchanges(requests[1..])
  }

  lemma {:induction false} ExchangesAppend(a: seq<Request>, b: seq<Request>)
    ensures Exchanges(a + b) == Exchanges(a) + Exchanges(b)
    decreases |a|
  {
    if a == [] {
      assert a + b == b;
    } else {
      assert (a + b)[0] == a[0] && (a + b)[1..] == a[1..] + b;
      ExchangesAppend(a[1..], b);
    }
  }

  /** The requests of a run are those of its first call followed by those of the rest. */
  lemma RunRequests(slot: Option<string>, calls: seq<Call>, ts: seq<Transport>, jsonEncode: Json -> string)
    requires |ts| == |calls| && calls != []
    ensures var first := CallStep(slot, calls[0], ts[0], jsonEncode);
            Requests(Run(slot, calls, ts, jsonEncode).effects)
              == Requests(first.effects) + Requests(Run(first.slot, calls[1..], ts[1..], jsonEncode).effects)
  {
    var first := CallStep(slot, calls[0], ts[0], jsonEncode);
    RequestsAppend(first.effects, Run(first.slot, calls[1..], ts[1..], jsonEncode).effects);
  }

  /** After any run, the slot is what the run's cache writes made of the slot it started from. */
  lemma {:induction false} RunReplays(slot: Option<string>, calls: seq<Call>, ts: seq<Transport>,
                                      jsonEncode: Json -> string)
    requires |ts| == |calls|
    ensures Run(slot, calls, ts, jsonEncode).slot == Replay(slot, Run(slot, calls, ts, jsonEncode).effects)
    decreases |calls|
  {
    if calls != [] {
      var first := CallStep(slot, calls[0], ts[0], jsonEncode);
      RunReplays(first.slot, calls[1..], ts[1..], jsonEncode);
      ReplayAppend(slot, first.effects, Run(first.slot, calls[1..], ts[1..], jsonEncode).effects);
    }
  }

  /**
    On a slot that holds a token, a call empties the slot exactly when its request fails;
    a validation error, a connection failure or a success leaves the token cached.
   */
  lemma EvictedExactlyOnRequestFailure(slot: Option<string>, c: Call, t: Transport,
                                       jsonEncode: Json -> string)
    requires slot.Some?
    ensures CallStep(slot, c, t, jsonEncode).slot == (if ResponseTo(c, t).Failed? then None else slot)
  {
  }

  /** A call starting from an empty slot exchanges credentials exactly once. */
  lemma MissExchangesOnce(c: Call, t: Transport, jsonEncode: Json -> string)
    ensures Exchanges(Requests(CallStep(None, c, t, jsonEncode).effects)) == 1
  {
    var tk := TokenStep(None, t);
    assert Exchanges([TokenExchange]) == 1;
    var own := match c
               case GraphqlCall(q) => GqlPost(q)
               case RestCall(verb, endpoint) => RestRequest(verb, RestBase + endpoint);
    if Authorised(None, t) {
      ExchangesAppend([TokenExchange], [own]);
    }
  }

  /**
    A failed GraphQL or REST request leaves the slot empty, whatever it held, so the next call
    exchanges credentials again before sending its own request, whatever the PBX answers then.
   */
  lemma FailureForcesNewExchange(slot: Option<string>, c: Call, t: Transport, next: Call, t': Transport,
                                 jsonEncode: Json -> string)
    requires ResponseTo(c, t).Failed?
    ensures CallStep(slot, c, t, jsonEncode).slot == None
    ensures Exchanges(Requests(CallStep(CallStep(slot, c, t, jsonEncode).slot, next, t', jsonEncode).effects)) == 1
  {
    MissExchangesOnce(next, t', jsonEncode);
  }

  /**
    While no request fails, a run of calls exchanges credentials once if it starts from an
    empty slot (and the first exchange yields a token) and never if the slot holds a token,
    whatever the PBX answers to each call; the slot ends up holding the token it started with,
    or the one issued to the first call.
   */
  lemma {:induction false} TokenExchangedAtMostOnce(slot: Option<string>, calls: seq<Call>,
                                                    ts: seq<Transport>, jsonEncode: Json -> string)
    requires |ts| == |calls|
    requires slot.None? && calls != [] ==> IssuedToken(ts[0].token).Some?
    requires forall i :: 0 <= i < |calls| ==> !ResponseTo(calls[i], ts[i]).Failed?
    ensures Exchanges(Requests(Run(slot, calls, ts, jsonEncode).effects))
              == if slot.None? && calls != [] then 1 else 0
    ensures Run(slot, calls, ts, jsonEncode).slot
              == if slot.None? && calls != [] then IssuedToken(ts[0].token) else slot
    decreases |calls|
  {
    if calls != [] {
      var first := CallStep(slot, calls[0], ts[0], jsonEncode);
      assert first.slot == if slot.None? then IssuedToken(ts[0].token) else slot;
      if slot.None? {
        MissExchangesOnce(calls[0], ts[0], jsonEncode);
      } else {
        assert Requests(first.effects) == [] || Requests(first.effects) == [match calls[0]
          case GraphqlCall(q) => GqlPost(q)
          case RestCall(verb, endpoint) => RestRequest(verb, RestBase + endpoint)];
      }
      assert forall i :: 0 <= i < |calls[1..]| ==> calls[1..][i] == calls[i + 1] && ts[1..][i] == ts[i + 1];
      TokenExchangedAtMostOnce(first.slot, calls[1..], ts[1..], jsonEncode);
      RunRequests(slot, calls, ts, jsonEncode);
      ExchangesAppend(Requests(first.effects), Requests(Run(first.slot, calls[1..], ts[1..], jsonEncode).effects));
    }
  }

  /**
    While the endpoint issues no token, every call of a run from an empty slot sends the token
    request and nothing else: no GraphQL or REST request is ever made and nothing is cached.
   */
  lemma {:induction false} NoTokenNoRequests(calls: seq<Call>, ts: seq<Transport>, jsonEncode: Json -> string)
    requires |ts| == |calls|
    requires forall i :: 0 <= i < |ts| ==> IssuedToken(ts[i].token).None?
    ensures Run(None, calls, ts, jsonEncode).slot == None
    ensures Requests(Run(None, calls, ts, jsonEncode).effects) == seq(|calls|, _ => TokenExchange)
    decreases |calls|
  {
    if calls != [] {
      assert forall i :: 0 <= i < |ts[1..]| ==> ts[1..][i] == ts[i + 1];
      NoTokenNoRequests(calls[1..], ts[1..], jsonEncode);
      RunRequests(None, calls, ts, jsonEncode);
      assert [TokenExchange] + seq(|calls| - 1, _ => TokenExchange) == seq(|calls|, _ => TokenExchange);
    }
  }
}
