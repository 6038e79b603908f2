# Postman environment client — a Dafny model

This project models the decision logic of the Vapor `postman-provider` library: how a
Postman environment's variables are merged, how they are converted to and from the
wire list of `{key, value}` entries, and how `PostmanClient` composes one GET and
PUTs into the "replace initial", "replace current" and "merge, then write" workflows.

- `wrappers.dfy` — `Option`, `Result` and `Outcome` (a `Future<Void>` that completed or failed).
- `environment.dfy` (module `Environment`, from `Sources/Postman/Models/PostmanEnvironment.swift`):
  `PostmanEnvironment` is a value (a Swift struct) with a `name` and a `values` dictionary,
  built by its datatype constructor as by `init(name:values:)`. `MergeStrategy` has the
  three cases of the source, and `Resolver` is its `closure` accessor. `MergedEnvironment`
  is the meaning of `Dictionary.merge(_:uniquingKeysWith:)` applied to the values.
  `MergeValues` is the `mutating` method. It inserts the other side's entries one at a
  time. Swift passes `self` in-out, so `MergeValues` returns the updated receiver, which
  the caller stores in place of the old one. `MergingValues` copies and then merges the
  copy, so it leaves the receiver unchanged; neither method changes its argument. Both
  are proved equal to `MergedEnvironment`. `Encode` and `Decode` model `encode(to:)` and `init(from:)` on the
  entry list. Only the conversion is modelled, not JSON syntax.
- `client.dfy` (module `Client`, from `Sources/Postman/Models/PostmanClient.swift`):
  `PostmanClient` is a class with the source's three configuration fields. Its `httpClient`
  is a `Remote`, which stands for the Vapor `Client` and the Postman server behind it.
  A `Remote` holds the environment the server stores, the log of requests it received,
  and `replies`, which says how the server answers the n-th request. It either accepts
  the request, or rejects it with a non-200 status and a body. An accepted GET is answered
  with an encoding of the stored environment. An accepted PUT replaces the stored
  environment with the decoded body. `GetResult` and `PutResult` are the status `switch`es
  of the source. Every request is addressed to `EnvironmentEndpoint(environmentUID)` and
  carries `Headers(apiKey)`.

The server's values act as the "current" side of a merge, and `otherEnvironment`'s values
as the "new" side. So the written environment keeps the server's `name`, and under
use-new the caller's values win on colliding keys. For local `{A: 1, B: 2}` merged with
use-new into the server's `{B: 9, C: 3}`, the server's environment is the receiver, so
the caller's `B: 2` replaces the server's `B: 9` and `{A: 1, B: 2, C: 3}` is written
(`Client.MergeIntoRemoteScenario`).

The content type sent is `MediaType.json.description` from Vapor 3. Vapor renders that as
`application/json; charset=utf-8`, and the model uses that string.

## Model

| member | source | states |
|---|---|---|
| `Environment.Resolver` | Sources/Postman/Models/PostmanEnvironment.swift:51-60 | keep-current resolves to the current value, use-new to the new value, and a closure strategy to its own function, for all arguments |
| `Environment.MergedEnvironment` | Sources/Postman/Models/PostmanEnvironment.swift:68-70 | the merge keeps the receiver's name; its keys are exactly the union of both sides' keys; a key on one side only keeps that side's value; a key on both sides gets the strategy's resolver applied to (current, new) |
| `Environment.MergeValues` | Sources/Postman/Models/PostmanEnvironment.swift:68-70 | inserting the other side's entries one at a time into the receiver's values yields exactly `MergedEnvironment` |
| `Environment.MergingValues` | Sources/Postman/Models/PostmanEnvironment.swift:78-82 | the copy-then-merge result equals `MergedEnvironment`, so it is the same environment that the in-place merge produces |
| `Environment.KeepCurrentKeepsReceiver` | Sources/Postman/Models/PostmanEnvironment.swift:51-70 | under keep-current, the merge restricted to the receiver's keys is the receiver's values |
| `Environment.UseNewTakesArgument` | Sources/Postman/Models/PostmanEnvironment.swift:51-70 | under use-new, the merge restricted to the argument's keys is the argument's values |
| `Environment.MergeWithEmptyIsIdentity` | Sources/Postman/Models/PostmanEnvironment.swift:68-70 | merging an environment without variables returns the receiver unchanged, for every strategy |
| `Environment.MergeIntoEmptyTakesArgument` | Sources/Postman/Models/PostmanEnvironment.swift:68-70 | merging into an environment without variables yields the argument's values under the receiver's name |
| `Environment.KeepCurrentIsUseNewSwapped` | Sources/Postman/Models/PostmanEnvironment.swift:51-70 | keep-current on (a, b) gives the same values as use-new on (b, a) |
| `Environment.UniqueKeysWithValues` | Sources/Postman/Models/PostmanEnvironment.swift:31 | building the dictionary succeeds exactly when no key repeats; it then holds exactly the listed keys, each with its listed value; a failure names a key that occurs twice |
| `Environment.Decode` | Sources/Postman/Models/PostmanEnvironment.swift:27-32 | decoding succeeds exactly when the entry keys are distinct, keeps the name, and the entry list is then an encoding of the decoded values |
| `Environment.Encode` | Sources/Postman/Models/PostmanEnvironment.swift:34-39 | encoding keeps the name and emits one entry per variable with that variable's value, no key twice, in some order |
| `Environment.EncodingLength` | Sources/Postman/Models/PostmanEnvironment.swift:37 | an encoding has exactly as many entries as the dictionary has variables |
| `Environment.DecodeEncoded` | Sources/Postman/Models/PostmanEnvironment.swift:27-39 | decoding any encoding of an environment reproduces its name and values |
| `Environment.EncodingsArePermutations` | Sources/Postman/Models/PostmanEnvironment.swift:34-39 | two encodings of the same values hold the same entries as multisets, so they differ only in order |
| `Environment.SingleVariableEncoding` | Sources/Postman/Models/PostmanEnvironment.swift:34-39 | the only encoding of `{A: 1}` is the single entry `{key: A, value: 1}` |
| `Client.EnvironmentEndpoint` | Sources/Postman/Models/PostmanClient.swift:16-18 | the URL is the API base `https://api.getpostman.com`, then `/environments/`, then the environment uid |
| `Client.EndpointInjective` | Sources/Postman/Models/PostmanClient.swift:16-18 | different uids give different URLs |
| `Client.Headers` | Sources/Postman/Models/PostmanClient.swift:20-25 | exactly two headers: `Content-Type` is the JSON media type and `x-api-key` is the configured key |
| `Client.ErrorFrom` | Sources/Postman/Models/PostmanClient.swift:73-75 | a non-OK response fails with the `PostmanError` of its error envelope, and with exactly `Undecodable` (a decoding failure, never a remote error) when the body is not one |
| `Client.GetResult` | Sources/Postman/Models/PostmanClient.swift:45-55 | an environment is returned exactly when the status is OK and the body decodes to one; an OK body that is not an environment envelope fails with `Undecodable`; an envelope with a repeated key fails with `DuplicateKeyTrap` naming that key; any other status fails with the error the body reports |
| `Client.PutResult` | Sources/Postman/Models/PostmanClient.swift:69-77 | a write succeeds exactly when the status is OK; otherwise it fails with the error the body reports |
| `Client.PostmanClient.constructor` | Sources/Postman/Models/PostmanClient.swift:10-14 | the client keeps the given HTTP client, API key and environment uid |
| `Client.PostmanClient.GetRequest` | Sources/Postman/Models/PostmanClient.swift:43 | the fetch is a GET to the environment's endpoint with the standard headers |
| `Client.PostmanClient.GetEnvironment` | Sources/Postman/Models/PostmanClient.swift:41-56 | one GET is logged and the server's environment is unchanged; an accepted request yields the stored environment; a rejected one yields the reported error and no environment |
| `Client.PostmanClient.UpdateInitialEnvironmentByReplacing` | Sources/Postman/Models/PostmanClient.swift:62-78 | exactly one PUT is logged, with no read before it; its body encodes the given environment; on acceptance the server holds that environment and the result is success; on rejection the server is unchanged and the reported error is returned |
| `Client.PostmanClient.UpdateCurrentEnvironmentByReplacing` | Sources/Postman/Models/PostmanClient.swift:100-106 | first a PUT of the environment with the same name and no variables; the second PUT, of the environment itself, is issued only if the first was accepted; if the second is rejected the server is left holding the emptied environment |
| `Client.PostmanClient.UpdateInitialEnvironmentByMerging` | Sources/Postman/Models/PostmanClient.swift:86-91 | a GET first; if it is rejected nothing is written; otherwise exactly one PUT of the server's environment merged with the argument (server's name, server's values as current) |
| `Client.PostmanClient.UpdateCurrentEnvironmentByMerging` | Sources/Postman/Models/PostmanClient.swift:117-122 | a GET first; if it is rejected nothing is written; otherwise the emptied-then-full pair of PUTs of the merged environment, with the second only after the first is accepted |
| `Client.MergeIntoRemoteScenario` | Sources/Postman/Models/PostmanClient.swift:117-122 | server `{B: 9, C: 3}` named dev, merged with use-new and local `{A: 1, B: 2}`, gives `{A: 1, B: 2, C: 3}` named dev |

## Left out

- Asynchrony: Vapor `Future`, `flatMap`, `transform` and event loops. Each remote call is one sequential step, and a chained step runs only after the previous one succeeds.
- JSON text and body bytes, including the `body.data ?? Data()` fallback. A body is either an environment envelope, an error envelope, or something else; a body that does not fit is `Undecodable`.
- Duplicate keys in a received entry list: `Dictionary(uniqueKeysWithValues:)` traps (a Swift precondition failure ends the process). The model reports the trap as the failure `DuplicateKey`, so that the case stays visible.
- Remote.Send: the model of the server requires the entries of a PUT body to have distinct keys, because how the real server treats duplicates is not known here. Every PUT this client sends meets that, because it comes from `Encode`.
- Server responses to GET that carry an OK status but no readable environment. `GetResult` handles them, but the modelled server never sends one.
- Transport failures and lost responses. In the model every failure is a `Reject` that carries a status and a body and leaves the stored environment unchanged. So it does not capture a request that gets no response at all, whose error is neither `Remote` nor `Undecodable`. Nor does it capture a PUT that the server applied but whose response was lost. The workflow structure is unaffected, because no further write follows a failed step.
- Unicode equivalence of variable names. The model compares names code point by code point, while Swift's `String ==` compares by canonical equivalence. So the model treats canonically equivalent names such as `"\u{E9}"` and `"e\u{301}"` as different keys. This affects both the merge's collision rule and the duplicate-key check on decoding. In the source they would collide in a merge and trap in `Dictionary(uniqueKeysWithValues:)`.
- The server's current values. `Remote.stored` is the environment's initial values, which a GET returns and a PUT replaces. The current values live on the server and are outside the model. So the model shows the empty-then-full pair of writes, but not why that pair resets the current values.
- Concurrent writers changing the environment between the GET and the PUTs of a merge workflow, and any mutual exclusion. The model has one client.
- Custom resolvers that fail, and "the resolver is called once per colliding key". The closure type cannot throw, and call counts cannot be observed in a pure model.
- The order of encoded entries. Swift's dictionary order is unspecified, so `Encode` picks keys in an arbitrary order and its contract holds for every order.
- `PostmanError.identifier` and `PostmanError.reason` (Sources/Postman/Models/PostmanError.swift). They only format strings; the error is a plain datatype.
- Sources/Postman/Provider.swift: it only registers the service. Its two-argument `PostmanClient(client:apiKey:)` call does not match the three-argument initializer, so it defines no behaviour.
- The commented-out `update` extension at the end of PostmanClient.swift. Environment uids, listing environments, and an identifier-addressed client do not exist in this code.
