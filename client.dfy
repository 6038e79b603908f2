/**
 * The client of the Postman API bound to one environment: reading it, replacing its
 * initial values, replacing its current values by the empty-then-full pair of writes,
 * and the two "fetch, merge, then write" workflows.
 *
 * The HTTP collaborator and the server behind it are modelled by `Remote`: the environment
 * the server holds, the log of requests it received, and how it chooses to answer the n-th
 * request (accept it, or reject it with a non-OK status and a body).
 */
module Client {
  import opened Wrappers
  import opened Environment

  const ApiEndpoint := "https://api.getpostman.com"
  const EnvironmentsPath := "/environments/"
  const StatusOK := 200
  const ContentTypeHeader := "Content-Type"
  const ApiKeyHeader := "x-api-key"
  /** How Vapor renders its JSON media type. */
  const JsonMediaType := "application/json; charset=utf-8"

  /** The `{name, message}` error the API reports inside its `error` envelope. */
  datatype PostmanError = PostmanError(name: string, message: string)

  /** Why a client operation failed. */
  datatype ClientError =
    | Remote(error: PostmanError)       // non-OK status, error envelope decoded
    | Undecodable                       // the body is not the envelope the status calls for
    | DuplicateKeyTrap(key: string)     // building the dictionary met a repeated key

  datatype Header = Header(name: string, value: string)

  datatype Verb = Get | Put(body: WireEnvironment)

  datatype Request = Request(verb: Verb, url: string, headers: seq<Header>)

  datatype Body =
    | EnvironmentEnvelope(environment: WireEnvironment)
    | ErrorEnvelope(error: PostmanError)
    | OtherBody

  datatype Response = Response(status: nat, body: Body)

  type ErrorStatus = s: nat | s != StatusOK witness 400

  /** How the server answers one request. */
  datatype Reply = Accept | Reject(status: ErrorStatus, body: Body)

  /** The URL of the environment with the given uid. */
  function EnvironmentEndpoint(environmentUID: string): (url: string)
    ensures |url| == |ApiEndpoint| + |EnvironmentsPath| + |environmentUID|
    ensures url[..|ApiEndpoint|] == ApiEndpoint
    ensures url[|ApiEndpoint|..|ApiEndpoint| + |EnvironmentsPath|] == EnvironmentsPath
    ensures url[|ApiEndpoint| + |EnvironmentsPath|..] == environmentUID
  {
    ApiEndpoint + EnvironmentsPath + environmentUID
  }

  /** Distinct environments are addressed by distinct URLs. */
  lemma EndpointInjective(uid1: string, uid2: string)
    requires EnvironmentEndpoint(uid1) == EnvironmentEndpoint(uid2)
    ensures uid1 == uid2
  {
  }

  /** The value of the first header with the given name, if any. */
  function HeaderValue(headers: seq<Header>, name: string): Option<string>
  {
    if headers == [] then None
    else if headers[0].name == name then Some(headers[0].value)
    else HeaderValue(headers[1..], name)
  }

  /** The headers every request carries: a JSON content type, then the API key. */
  function Headers(apiKey: string): (headers: seq<Header>)
    ensures |headers| == 2
    ensures HeaderValue(headers, ContentTypeHeader) == Some(JsonMediaType)
    ensures HeaderValue(headers, ApiKeyHeader) == Some(apiKey)
  {
    [Header(ContentTypeHeader, JsonMediaType), Header(ApiKeyHeader, apiKey)]
  }

  /** The error a non-OK response reports: its error envelope, or a decoding failure. */
  function ErrorFrom(body: Body): (e: ClientError)
    ensures e.Remote? <==> body.ErrorEnvelope?
    ensures e.Remote? ==> e.error == body.error
    ensures !body.ErrorEnvelope? ==> e == Undecodable
  {
    match body
    case ErrorEnvelope(error) => Remote(error)
    case _ => Undecodable
  }

  /** How `getEnvironment` reads a response: only an OK status can yield an environment. */
  function GetResult(response: Response): (r: Result<PostmanEnvironment, ClientError>)
    ensures r.Success? <==>
      response.status == StatusOK && response.body.EnvironmentEnvelope? && Decode(response.body.environment).Success?
    ensures r.Success? ==> Decode(response.body.environment) == Success(r.value)
    ensures response.status == StatusOK && !response.body.EnvironmentEnvelope? ==> r == Failure(Undecodable)
    ensures response.status == StatusOK && response.body.EnvironmentEnvelope? && Decode(response.body.environment).Failure? ==>
      r == Failure(DuplicateKeyTrap(Decode(response.body.environment).error.key))
    ensures response.status != StatusOK ==> r == Failure(ErrorFrom(response.body))
  {
    if response.status == StatusOK then
      match response.body
      case EnvironmentEnvelope(wire) =>
        (match Decode(wire)
         case Success(env) => Success(env)
         case Failure(DuplicateKey(k)) => Failure(DuplicateKeyTrap(k)))
      case _ => Failure(Undecodable)
    else
      Failure(ErrorFrom(response.body))
  }

  /** How a write reads a response: OK is success whatever the body, anything else an error. */
  function PutResult(response: Response): (r: Outcome<ClientError>)
    ensures r.Pass? <==> response.status == StatusOK
    ensures r.Fail? ==> r.error == ErrorFrom(response.body)
  {
    if response.status == StatusOK then Pass else Fail(ErrorFrom(response.body))
  }

  /** `request` is a write of `env` to the environment at `url`, with the given headers. */
  ghost predicate IsPutOf(request: Request, env: PostmanEnvironment, url: string, headers: seq<Header>)
  {
    && request.url == url
    && request.headers == headers
    && request.verb.Put?
    && request.verb.body.name == env.name
    && IsEncodingOf(request.verb.body.values, env.values)
  }

  /** The HTTP collaborator together with the server it reaches. */
  class Remote {
    /** The environment the server holds. */
    var stored: PostmanEnvironment
    /** Every request received, oldest first. */
    var log: seq<Request>
    /** How the server answers the n-th request it receives. */
    const replies: nat -> Reply

    constructor (stored: PostmanEnvironment, replies: nat -> Reply)
      ensures this.stored == stored && this.log == [] && this.replies == replies
    {
      this.stored := stored;
      this.log := [];
      this.replies := replies;
    }

    /**
     * Delivers one request. An accepted GET is answered with an encoding of the stored
     * environment; an accepted PUT replaces it. A rejected request changes nothing.
     */
    method Send(request: Request) returns (response: Response)
      requires request.verb.Put? ==> DistinctKeys(request.verb.body.values)
      modifies this
      ensures log == old(log) + [request]
      ensures replies(|old(log)|).Reject? ==>
        response == Response(replies(|old(log)|).status, replies(|old(log)|).body) && stored == old(stored)
      ensures replies(|old(log)|).Accept? && request.verb.Get? ==>
        response.status == StatusOK && response.body.EnvironmentEnvelope? &&
        Decode(response.body.environment) == Success(old(stored)) && stored == old(stored)
      ensures replies(|old(log)|).Accept? && request.verb.Put? ==>
        response.status == StatusOK && Decode(request.verb.body) == Success(stored)
    {
      var reply := replies(|log|);
      log := log + [request];
      match reply {
        case Reject(status, body) =>
          response := Response(status, body);
        case Accept =>
          match request.verb {
            case Get =>
              var wire := Encode(stored);
              DecodeEncoded(wire.name, wire.values, stored.values);
              response := Response(StatusOK, EnvironmentEnvelope(wire));
            case Put(wire) =>
              var decoded := Decode(wire);
              stored := decoded.value;
              response := Response(StatusOK, OtherBody);
          }
      }
    }
  }

  /** A client bound to one environment of the Postman API. */
  class PostmanClient {
    const httpClient: Remote
    const apiKey: string
    const environmentUID: string

    constructor (client: Remote, apiKey: string, environmentUID: string)
      ensures httpClient == client && this.apiKey == apiKey && this.environmentUID == environmentUID
    {
      httpClient := client;
      this.apiKey := apiKey;
      this.environmentUID := environmentUID;
    }

    /** The single GET request this client issues. */
    function GetRequest(): (request: Request)
      ensures request.verb.Get?
      ensures request.url == EnvironmentEndpoint(environmentUID) && request.headers == Headers(apiKey)
    {
      Request(Get, EnvironmentEndpoint(environmentUID), Headers(apiKey))
    }

    /** Fetches the environment: succeeds with what the server holds, or fails and yields none. */
    method GetEnvironment() returns (r: Result<PostmanEnvironment, ClientError>)
      modifies httpClient
      ensures httpClient.log == old(httpClient.log) + [GetRequest()]
      ensures httpClient.stored == old(httpClient.stored)
      ensures httpClient.replies(|old(httpClient.log)|).Accept? ==> r == Success(old(httpClient.stored))
      ensures httpClient.replies(|old(httpClient.log)|).Reject? ==>
        r == Failure(ErrorFrom(httpClient.replies(|old(httpClient.log)|).body))
    {
      var response := httpClient.Send(GetRequest());
      r := GetResult(response);
    }

    /** Replaces the initial values with `newEnvironment`: one PUT, with no read before it. */
    method UpdateInitialEnvironmentByReplacing(newEnvironment: PostmanEnvironment) returns (r: Outcome<ClientError>)
      modifies httpClient
      ensures |httpClient.log| == |old(httpClient.log)| + 1
      ensures httpClient.log[..|old(httpClient.log)|] == old(httpClient.log)
      ensures IsPutOf(httpClient.log[|old(httpClient.log)|], newEnvironment, EnvironmentEndpoint(environmentUID), Headers(apiKey))
      ensures httpClient.replies(|old(httpClient.log)|).Accept? ==>
        r == Pass && httpClient.stored == newEnvironment
      ensures httpClient.replies(|old(httpClient.log)|).Reject? ==>
        r == Fail(ErrorFrom(httpClient.replies(|old(httpClient.log)|).body)) && httpClient.stored == old(httpClient.stored)
    {
      var wire := Encode(newEnvironment);
      var request := Request(Put(wire), EnvironmentEndpoint(environmentUID), Headers(apiKey));
      var response := httpClient.Send(request);
      DecodeEncoded(wire.name, wire.values, newEnvironment.values);
      r := PutResult(response);
    }

    /**
     * Replaces the current values: first a PUT of `newEnvironment` with no variables, then,
     * only if that succeeded, a PUT of `newEnvironment` itself. If the second write fails
     * the server is left holding the emptied environment.
     */
    method UpdateCurrentEnvironmentByReplacing(newEnvironment: PostmanEnvironment) returns (r: Outcome<ClientError>)
      modifies httpClient
      ensures var n, emptied := |old(httpClient.log)|, newEnvironment.(values := map[]);
        && n < |httpClient.log|
        && httpClient.log[..n] == old(httpClient.log)
        && IsPutOf(httpClient.log[n], emptied, EnvironmentEndpoint(environmentUID), Headers(apiKey))
        && (httpClient.replies(n).Reject? ==>
              && |httpClient.log| == n + 1
              && httpClient.stored == old(httpClient.stored)
              && r == Fail(ErrorFrom(httpClient.replies(n).body)))
        && (httpClient.replies(n).Accept? ==>
              && |httpClient.log| == n + 2
              && IsPutOf(httpClient.log[n + 1], newEnvironment, EnvironmentEndpoint(environmentUID), Headers(apiKey))
              && (httpClient.replies(n + 1).Accept? ==> r == Pass && httpClient.stored == newEnvironment)
              && (httpClient.replies(n + 1).Reject? ==>
                    r == Fail(ErrorFrom(httpClient.replies(n + 1).body)) && httpClient.stored == emptied))
    {
      var emptyEnvironment := newEnvironment;
      emptyEnvironment := emptyEnvironment.(values := map[]);
      r := UpdateInitialEnvironmentByReplacing(emptyEnvironment);
      if r.Pass? {
        r := UpdateInitialEnvironmentByReplacing(newEnvironment);
      }
    }

    /**
     * Fetches the environment, merges `otherEnvironment` into it (the server's values are
     * the current ones) and replaces the initial values with the result. No write follows
     * a failed fetch.
     */
    method UpdateInitialEnvironmentByMerging(otherEnvironment: PostmanEnvironment, strategy: MergeStrategy)
      returns (r: Outcome<ClientError>)
      modifies httpClient
      ensures var n := |old(httpClient.log)|;
        && n < |httpClient.log|
        && httpClient.log[..n + 1] == old(httpClient.log) + [GetRequest()]
        && (httpClient.replies(n).Reject? ==>
              && |httpClient.log| == n + 1
              && httpClient.stored == old(httpClient.stored)
              && r == Fail(ErrorFrom(httpClient.replies(n).body)))
        && (httpClient.replies(n).Accept? ==>
              var merged := MergedEnvironment(old(httpClient.stored), otherEnvironment, strategy);
              && |httpClient.log| == n + 2
              && IsPutOf(httpClient.log[n + 1], merged, EnvironmentEndpoint(environmentUID), Headers(apiKey))
              && (httpClient.replies(n + 1).Accept? ==> r == Pass && httpClient.stored == merged)
              && (httpClient.replies(n + 1).Reject? ==>
                    r == Fail(ErrorFrom(httpClient.replies(n + 1).body)) && httpClient.stored == old(httpClient.stored)))
    {
      var current := GetEnvironment();
      match current {
        case Failure(e) =>
          r := Fail(e);
        case Success(currentEnvironment) =>
          var mergedEnvironment := MergingValues(currentEnvironment, otherEnvironment, strategy);
          r := UpdateInitialEnvironmentByReplacing(mergedEnvironment);
      }
    }

    /**
     * Fetches the environment, merges `otherEnvironment` into it (the server's values are
     * the current ones) and replaces the current values with the result by the
     * empty-then-full pair of writes. No write follows a failed fetch.
     */
    method UpdateCurrentEnvironmentByMerging(otherEnvironment: PostmanEnvironment, strategy: MergeStrategy)
      returns (r: Outcome<ClientError>)
      modifies httpClient
      ensures var n := |old(httpClient.log)|;
        && n < |httpClient.log|
        && httpClient.log[..n + 1] == old(httpClient.log) + [GetRequest()]
        && (httpClient.replies(n).Reject? ==>
              && |httpClient.log| == n + 1
              && httpClient.stored == old(httpClient.stored)
              && r == Fail(ErrorFrom(httpClient.replies(n).body)))
        && (httpClient.replies(n).Accept? ==>
              var merged := MergedEnvironment(old(httpClient.stored), otherEnvironment, strategy);
              var emptied := merged.(values := map[]);
              && n + 1 < |httpClient.log|
              && IsPutOf(httpClient.log[n + 1], emptied, EnvironmentEndpoint(environmentUID), Headers(apiKey))
              && (httpClient.replies(n + 1).Reject? ==>
                    && |httpClient.log| == n + 2
                    && httpClient.stored == old(httpClient.stored)
                    && r == Fail(ErrorFrom(httpClient.replies(n + 1).body)))
              && (httpClient.replies(n + 1).Accept? ==>
                    && |httpClient.log| == n + 3
                    && IsPutOf(httpClient.log[n + 2], merged, EnvironmentEndpoint(environmentUID), Headers(apiKey))
                    && (httpClient.replies(n + 2).Accept? ==> r == Pass && httpClient.stored == merged)
                    && (httpClient.replies(n + 2).Reject? ==>
                          r == Fail(ErrorFrom(httpClient.replies(n + 2).body)) && httpClient.stored == emptied)))
    {
      var current := GetEnvironment();
      match current {
        case Failure(e) =>
          r := Fail(e);
        case Success(currentEnvironment) =>
          var mergedEnvironment := MergingValues(currentEnvironment, otherEnvironment, strategy);
          r := UpdateCurrentEnvironmentByReplacing(mergedEnvironment);
      }
    }
  }

  /**
   * Local `{A: 1, B: 2}` merged with use-new into the server's `{B: 9, C: 3}`: the server's
   * environment is the receiver, so the local B wins and the server's name is kept.
   */
  lemma MergeIntoRemoteScenario()
    ensures MergedEnvironment(
              PostmanEnvironment("dev", map["B" := "9", "C" := "3"]),
              PostmanEnvironment("local", map["A" := "1", "B" := "2"]),
              UseNewValueForDuplicateKeys)
         == PostmanEnvironment("dev", map["A" := "1", "B" := "2", "C" := "3"])
  {
  }
}
