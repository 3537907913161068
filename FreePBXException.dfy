/**
  The client's single exception type and its four static constructors. Each one builds the
  message from a fixed prefix followed by the upstream detail, unchanged; the GraphQL
  validation constructor serialises the `errors` value first, with `json_encode`, which is
  taken here as a parameter because the serialiser is not part of this model.
 */
module FreePBXException {
  import opened Json

  const TokenPrefix: string := "Failed to get FreePBX token: "
  const GraphqlPrefix: string := "FreePBX GraphQL error: "
  const RestPrefix: string := "FreePBX REST API error: "

  /** Which static constructor built an exception. */
  datatype Kind = TokenFailure | GraphqlTransport | GraphqlValidation | RestTransport

  datatype Exception = Exception(kind: Kind, message: string)

  predicate StartsWith(s: string, prefix: string) {
    prefix <= s
  }

  /** `tokenFailed($body)`: the token endpoint refused or answered without a token. */
  function TokenFailed(body: string): (e: Exception)
    ensures e.kind == TokenFailure
    ensures StartsWith(e.message, TokenPrefix) && e.message[|TokenPrefix|..] == body
  {
    Exception(TokenFailure, TokenPrefix + body)
  }

  /** `graphqlError($body)`: the GraphQL request itself failed. */
  function GraphqlError(body: string): (e: Exception)
    ensures e.kind == GraphqlTransport
    ensures StartsWith(e.message, GraphqlPrefix) && e.message[|GraphqlPrefix|..] == body
  {
    Exception(GraphqlTransport, GraphqlPrefix + body)
  }

  /** `graphqlValidationErrors($errors)`: the GraphQL response carried an `errors` array. */
  function GraphqlValidationErrors(errors: Json, jsonEncode: Json -> string): (e: Exception)
    requires IsArray(errors)
    ensures e.kind == GraphqlValidation
    ensures StartsWith(e.message, GraphqlPrefix) && e.message[|GraphqlPrefix|..] == jsonEncode(errors)
  {
    Exception(GraphqlValidation, GraphqlPrefix + jsonEncode(errors))
  }

  /** `restError($body)`: the REST request failed. */
  function RestError(body: string): (e: Exception)
    ensures e.kind == RestTransport
    ensures StartsWith(e.message, RestPrefix) && e.message[|RestPrefix|..] == body
  {
    Exception(RestTransport, RestPrefix + body)
  }

  /** The three message families a caller can tell apart by reading a message. */
  datatype Family = TokenMessage | GraphqlMessage | RestMessage | Unrecognised

  /** The family of a message, judged from its prefix alone. */
  function FamilyOf(message: string): Family {
    if StartsWith(message, TokenPrefix) then TokenMessage
    else if StartsWith(message, GraphqlPrefix) then GraphqlMessage
    else if StartsWith(message, RestPrefix) then RestMessage
    else Unrecognised
  }

  /** The detail a message carries: what follows its family's prefix. */
  function Detail(message: string): (d: string)
    requires FamilyOf(message) != Unrecognised
  {
    match FamilyOf(message)
    case TokenMessage => message[|TokenPrefix|..]
    case GraphqlMessage => message[|GraphqlPrefix|..]
    case RestMessage => message[|RestPrefix|..]
  }

  /** The family a message is read back as: the one its constructor belongs to. */
  function FamilyOfKind(kind: Kind): Family {
    match kind
    case TokenFailure => TokenMessage
    case GraphqlTransport => GraphqlMessage
    case GraphqlValidation => GraphqlMessage
    case RestTransport => RestMessage
  }

  /**
    Every message can be read back: its prefix names the constructor's family (the two GraphQL
    constructors share one) and what follows the prefix is the detail it was given, unchanged.
   */
  lemma {:induction false} MessagesReadBack(e: Exception, detail: string)
    requires e.message == (match e.kind
                           case TokenFailure => TokenPrefix
                           case RestTransport => RestPrefix
                           case _ => GraphqlPrefix) + detail
    ensures FamilyOf(e.message) == FamilyOfKind(e.kind)
    ensures Detail(e.message) == detail
  {
    var m := e.message;
    match e.kind {
      case TokenFailure =>
        assert StartsWith(m, TokenPrefix);
      case RestTransport =>
        assert m[1] == 'r' && m[8] == 'R';
        assert !StartsWith(m, TokenPrefix) && !StartsWith(m, GraphqlPrefix);
      case _ =>
        assert m[1] == 'r';
        assert !StartsWith(m, TokenPrefix);
        assert StartsWith(m, GraphqlPrefix);
    }
  }

  /** Each constructor's message reads back as its own family with its own detail. */
  lemma ConstructorsReadBack(body: string, errors: Json, jsonEncode: Json -> string)
    requires IsArray(errors)
    ensures FamilyOf(TokenFailed(body).message) == TokenMessage && Detail(TokenFailed(body).message) == body
    ensures FamilyOf(GraphqlError(body).message) == GraphqlMessage && Detail(GraphqlError(body).message) == body
    ensures FamilyOf(RestError(body).message) == RestMessage && Detail(RestError(body).message) == body
    ensures var v := GraphqlValidationErrors(errors, jsonEncode);
            FamilyOf(v.message) == GraphqlMessage && Detail(v.message) == jsonEncode(errors)
  {
    MessagesReadBack(TokenFailed(body), body);
    MessagesReadBack(GraphqlError(body), body);
    MessagesReadBack(RestError(body), body);
    MessagesReadBack(GraphqlValidationErrors(errors, jsonEncode), jsonEncode(errors));
  }

  /**
    A validation error's message is exactly the message of a transport error whose body is the
    serialised `errors` value: the two GraphQL kinds cannot be told apart by message alone.
   */
  lemma ValidationSharesTransportMessage(errors: Json, jsonEncode: Json -> string)
    requires IsArray(errors)
    ensures GraphqlValidationErrors(errors, jsonEncode).message == GraphqlError(jsonEncode(errors)).message
  {
  }
}
