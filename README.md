# Agent service of the lappiz-ia chat widget, in Dafny

This project models the session-and-message client of the embeddable chat
widget: the `AgentService` object and the data shapes it exchanges with a
conversational-agent backend. The service holds a session identity
(`config`, `userId`, `sessionId`, `isInitialized`) and an append-only message
history. It creates one backend session per visitor and sends each user
message to the backend's `/run` endpoint. From the answer it picks out the
agent's reply.

Modules, one per concern of `src/app/services/agent.service.ts` and
`src/app/models/interfaces.ts`:

- `Wrappers` (`wrappers.dfy`): `Option`, `Result`, `Outcome`.
- `Interfaces` (`interfaces.dfy`): the datatypes of `interfaces.ts`. The
  literal roles `'user'` and `'model'` become the subset types `UserRole`
  and `ModelRole`. `AgentResponse.content` and `MessagePart.text` are
  options, because the service treats them as possibly absent. Fields typed
  `any` are kept as an uninspected `Json` value.
- `UserIds` (`user_ids.dfy`): `generateUserId` and `uuidv4`. The random
  draws are a parameter. Both directions are proved: every generated id is
  `'user-'` plus a v4-shaped UUID, and every v4-shaped UUID can be generated.
- `Protocol` (`protocol.dfy`): the two endpoint URLs, the `/run` body, and
  reply extraction. Extraction takes the first record with content, then the
  first part with non-empty text, and falls back to `''`.
- `ServiceModel` (`service_model.dfy`): the service's fields as a value
  `ServiceState`. Each operation is a function from the old state to the new
  state, the call's settlement and the HTTP request it issues. The
  invariant and the lemmas about these functions live here.
- `AgentServices` (`agent_service.dfy`): the class `AgentService`. Its
  fields are updated in place. Each method's `ensures` equates the new
  fields, the result and the request with the matching `ServiceModel`
  function.

The backend is not modelled. What it answers is a parameter of each call:
- `SessionOutcome`: a rejection with status and status text, a transport
  failure, or a `Session`.
- `RunOutcome`: a rejection with status and status text, a transport
  failure, or a sequence of agent-turn records.

`Date.now()` is an integer parameter `now`. `Math.random()` is a sequence of
31 nibbles, one per placeholder of the UUID template, used left to right.

Behaviour of the code worth noting:
- `createSession` only checks that a config object is stored
  (src/app/services/agent.service.ts:70-72). No field of it, such as the
  agent key, is checked anywhere.
- If `fetch` rejects or the body is not JSON, the call rejects just as it
  does for a non-ok status. Here that is `TransportFailed`.
- The reply text is taken from the first part whose `text` is non-empty
  (`find(part => part.text)`, line 157). A part with empty text is skipped.
  The reply is `''` only when no part has non-empty text.
- A failed `initialize` keeps the stored config and the generated user id
  (lines 50-51 run before the session request). It only leaves
  `isInitialized` false.
- The server's session id and user id are stored as returned (lines 90-91),
  even when empty. The service then counts as initialized, yet the guard of
  `sendMessage` (line 106) rejects it with NotInitialized.

## Model

| member | source | states |
|---|---|---|
| `Interfaces.RoleName` | src/app/models/interfaces.ts:13-17 | in JSON, a role is spelled exactly `'user'` or `'model'`, and `'user'` exactly for the user role |
| `Interfaces.ParseRole` | src/app/models/interfaces.ts:14 | a wire role is read exactly when it is one of the two literals |
| `Interfaces.RoleNameRoundTrip` | src/app/models/interfaces.ts:14 | reading a role back gives role `r` exactly when the text is `r`'s spelling |
| `UserIds.Variant` | src/app/services/agent.service.ts:204 | the variant nibble, `r & 0x3` bitwise-or `0x8`, is always 8..11, namely `8 + r % 4` |
| `UserIds.TemplateDraws` | src/app/services/agent.service.ts:202-203 | the template has 31 placeholders, so one id draws 31 random nibbles |
| `UserIds.ConformsToTemplateIff` | src/app/services/agent.service.ts:202 | a string can come from the template exactly when it is 36 characters long, with hyphens at 8, 13, 18 and 23, `'4'` at 14, one of 8, 9, a, b at 19 and lower-case hex elsewhere |
| `UserIds.FillConforms` | src/app/services/agent.service.ts:202-206 | for any draws, replacing each `x` by a hex digit and each `y` by a variant digit gives a string that conforms to the template |
| `UserIds.FillUnfill` | src/app/services/agent.service.ts:202-206 | every conforming string is the fill of the draws read back from it |
| `UserIds.UuidIsV4Shaped` | src/app/services/agent.service.ts:201-207 | every `uuidv4()` result is v4 shaped |
| `UserIds.EveryV4ShapedIsGenerated` | src/app/services/agent.service.ts:201-207 | every v4-shaped string is the `uuidv4()` of some draws |
| `UserIds.GeneratedUserIdShape` | src/app/services/agent.service.ts:194-196 | a generated user id is 41 characters: `'user-'` then a v4-shaped UUID |
| `Protocol.SessionsUrlUser` | src/app/services/agent.service.ts:74 | a user id read from a URL rebuilds that URL with the same base URL and app name |
| `Protocol.SessionsUrlRoundTrip` | src/app/services/agent.service.ts:74 | the user id is recovered from its session-creation URL, so different user ids give different URLs |
| `Protocol.RunUrlIsNotSessionsUrl` | src/app/services/agent.service.ts:74-131 | the `/run` URL never equals a session-creation URL |
| `Protocol.BuildRunRequest` | src/app/services/agent.service.ts:117-128 | the new message has role `'user'` and the state delta carries the config's agent key |
| `Protocol.BuildRunRequestCarries` | src/app/services/agent.service.ts:117-128 | the body carries the untrimmed text as its one part, the given identity and app name, and a state delta holding only the agent key |
| `Protocol.Find` | src/app/services/agent.service.ts:149 | `find` gives nothing exactly when no element matches; otherwise it gives the first matching element |
| `Protocol.ReplyText` | src/app/services/agent.service.ts:157-158 | the reply text is `''` exactly when no part has non-empty text; otherwise it is the text of the first part that has some |
| `Protocol.ExtractReply` | src/app/services/agent.service.ts:149-165 | no reply exactly when no record has content; otherwise the reply is from the first record with content: role `'model'`, that record's reply text, its timestamp times 1000 |
| `Protocol.ReplySelectionExamples` | src/app/services/agent.service.ts:149-165 | first match, not best match: an empty-text first record with content wins over a later "hello"; textless parts give `''` |
| `ServiceModel.InitialStateValid` | src/app/services/agent.service.ts:20-24 | a new service satisfies the invariant and is not ready to send |
| `ServiceModel.InitializePreservesValid` | src/app/services/agent.service.ts:44-64 | `initialize` keeps the invariant: a session id is held exactly when initialized, and an initialized service holds a user id and a config |
| `ServiceModel.SendMessagePreservesValid` | src/app/services/agent.service.ts:103-175 | `sendMessage` keeps the invariant |
| `ServiceModel.ClearAndResetPreserveValid` | src/app/services/agent.service.ts:187-228 | `clearMessages` and `reset` keep the invariant |
| `ServiceModel.InitializeWhenInitializedIsNoOp` | src/app/services/agent.service.ts:44-48 | on an initialized service, `initialize` resolves at once, changes nothing and posts nothing |
| `ServiceModel.InitializeOutcomes` | src/app/services/agent.service.ts:50-98 | otherwise it stores the config and posts one session creation for the generated id. On success the server's `id` and `userId` become the identity and the service is initialized. On failure it rejects (with the status and text for an HTTP error, with TransportFailed when the backend cannot be reached), stays uninitialized with no session id, and keeps the generated user id. History is untouched |
| `ServiceModel.InitializeTwicePostsOnce` | src/app/services/agent.service.ts:44-55 | after a successful `initialize`, a second call posts nothing and changes nothing |
| `ServiceModel.SendWhenNotReadyRejects` | src/app/services/agent.service.ts:106-108 | unless initialized with a config and a non-empty session id and user id, `sendMessage` rejects with NotInitialized, posts nothing and keeps history |
| `ServiceModel.SendHistory` | src/app/services/agent.service.ts:110-170 | past the guard, the user message (role `'user'`, exact text, `now`) is appended first and kept. The POST goes to `/run`. Its body is `BuildRunRequest` of the held config and identity and that text, so it carries the config's agent key as its only state delta. History grows by one on failure and by two on success, the second being the returned reply. Identity is unchanged |
| `ServiceModel.SendResult` | src/app/services/agent.service.ts:141-170 | an HTTP error rejects with its status and text, a transport failure rejects, and no record with content rejects with NoReplyContent. Otherwise the extracted `'model'` reply is returned |
| `ServiceModel.AnsweredSendAppendsTwo` | src/app/services/agent.service.ts:110-167 | an answered send appends the user message then a model message, and nothing else changes |
| `ServiceModel.SerializedSendsAlternate` | src/app/services/agent.service.ts:103-170 | N serialized answered sends add 2N messages, alternating user and model from the user, each user message carrying its text; earlier history is kept and the service stays ready |
| `ServiceModel.ClearMessagesKeepsSession` | src/app/services/agent.service.ts:187-189 | `clearMessages` empties history and changes nothing else; readiness is unchanged |
| `ServiceModel.ResetOutcomes` | src/app/services/agent.service.ts:219-228 | `reset` always empties history and keeps the config. Without a config it leaves a cleared, uninitialized service and posts nothing. With one it posts a new session creation for a fresh generated id and is initialized again exactly when that succeeds, with the server's identity |
| `AgentServices.AgentService.constructor` | src/app/services/agent.service.ts:20-28 | a new service has no identity, no config, an empty history and is not initialized |
| `AgentServices.AgentService.Initialize` | src/app/services/agent.service.ts:44-64 | the fields, the settlement and the POST are those of `InitializeStep`; an initialized service is left unchanged |
| `AgentServices.AgentService.CreateSession` | src/app/services/agent.service.ts:69-98 | the fields, the settlement and the POST are those of `CreateSessionStep`; history, flag and config are untouched |
| `AgentServices.AgentService.SendMessage` | src/app/services/agent.service.ts:103-175 | the fields, the reply or error and the `/run` POST are those of `SendMessageStep`; identity, config and flag are unchanged; success appends the user message and then the reply |
| `AgentServices.AgentService.GetMessages` | src/app/services/agent.service.ts:180-182 | returns a newly allocated array whose contents equal the history |
| `AgentServices.GetMessagesIsDefensive` | src/app/services/agent.service.ts:180-182 | after writing into the array one call returned, a second call returns a different fresh array that still equals the history, and the history is unchanged |
| `AgentServices.AgentService.ClearMessages` | src/app/services/agent.service.ts:187-189 | history becomes empty; session id, user id, config and flag are unchanged |
| `AgentServices.AgentService.Initialized` | src/app/services/agent.service.ts:212-214 | the flag; under the invariant, a true flag means a config, a session id and a user id are held |
| `AgentServices.AgentService.Reset` | src/app/services/agent.service.ts:219-228 | the fields, the settlement and the POST are those of `ResetStep`; history ends empty and the config is kept |
| `AgentServices.EndToEndScenario` | src/app/services/agent.service.ts:44-170 | after initializing against session `s1` for user `u1`, sending `"hi"` posts to `https://api.x/run` with that identity, and a record saying `"hello!"` at second 1000 gives the reply `{model, "hello!", 1000000}` |

## Left out

- HTTP transport: `fetch`, headers, JSON (de)serialization and status checks are not modelled. Each call's answer is a parameter (`SessionOutcome`, `RunOutcome`). A body that is not JSON counts as a transport failure.
- Logging (`console.log`, `warn`, `error`): no effect on state.
- `Math.random()` is a parameter of 31 nibbles, and `Date.now()` an integer parameter.
- The static singleton `getInstance`: the model uses explicitly constructed objects.
- async interleavings: each call runs to completion before the next starts. Concurrent `sendMessage` calls that race are not modelled; the UI serializes sends.
- Floating point: timestamps are exact `real` numbers, so `timestamp * 1000` has no rounding.
- A chosen record with no `timestamp` makes the source compute `undefined * 1000`, which is NaN (src/app/services/agent.service.ts:164). `AgentResponse.timestamp` is always a number here, so that NaN timestamp is not modelled.
- A record with content but no `parts` array makes the source throw a TypeError. Parts are always a sequence here.
- A session JSON whose `id` or `userId` is missing is not modelled: `Session` always has both strings.
- The class methods `Initialize`, `SendMessage`, `ClearMessages` and `Reset` require the object invariant `Valid()`. The constructor establishes it and every method keeps it.
- The Angular components, `src/main.ts` and `prepare-release.js`: UI, custom-element registration and a build script.
