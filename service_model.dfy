/** The state of the agent service as a value, and each of its operations
    as a function from the state before to the state after, the value the
    call resolves or rejects with, and the HTTP request it issues
    (src/app/services/agent.service.ts:17-229). The network is not modelled:
    the answer the backend gives is a parameter of the step. */
module ServiceModel {
  import opened Wrappers
  import opened Interfaces
  import opened UserIds
  import opened Protocol

  /** The fields of one service object. */
  datatype ServiceState = ServiceState(
    sessionId: Option<string>,
    userId: Option<string>,
    config: Option<WidgetConfig>,
    messages: seq<Message>,
    isInitialized: bool)

  /** Why a call rejects. */
  datatype ServiceError =
    | ConfigMissing                                  // createSession with no config
    | SessionCreationFailed(status: int, statusText: string)
    | NotInitialized                                 // sendMessage guard
    | SendFailed(status: int, statusText: string)
    | NoReplyContent                                 // no record of the reply has content
    | TransportFailed                                // fetch rejected or the body was not JSON

  /** What the session-creation POST comes back with. */
  datatype SessionOutcome =
    | SessionRejected(status: int, statusText: string)
    | SessionUnreachable
    | SessionCreated(session: Session)

  /** What the `/run` POST comes back with. */
  datatype RunOutcome =
    | RunRejected(status: int, statusText: string)
    | RunUnreachable
    | RunReplied(responses: seq<AgentResponse>)

  /** A `/run` POST: where it goes and what it carries. */
  datatype RunCall = RunCall(url: string, body: RunAgentRequest)

  /** Result of `initialize`, `createSession` or `reset`: the new state, how
      the call settles, and the session-creation URL it posted to, if any. */
  datatype InitStep = InitStep(next: ServiceState, outcome: Outcome<ServiceError>, sessionPost: Option<string>)

  /** Result of `sendMessage`: the new state, the reply or the error, and the
      `/run` POST it issued, if any. */
  datatype SendStep = SendStep(next: ServiceState, result: Result<Message, ServiceError>, runPost: Option<RunCall>)

  /** A freshly constructed service. */
  const InitialState: ServiceState := ServiceState(None, None, None, [], false)

  /** The invariant every reachable state keeps: a session id is held exactly
      when the service is initialized, and an initialized service (or one
      holding a user id) holds a config. */
  predicate Valid(s: ServiceState) {
    && (s.sessionId.Some? <==> s.isInitialized)
    && (s.isInitialized ==> s.userId.Some?)
    && (s.userId.Some? ==> s.config.Some?)
  }

  /** The guard of `sendMessage`: initialized, with a config and a non-empty
      session id and user id. */
  predicate Ready(s: ServiceState) {
    && s.isInitialized
    && s.config.Some?
    && s.sessionId.Some? && s.sessionId.value != ""
    && s.userId.Some? && s.userId.value != ""
  }

  /** How a possibly-null string reads inside a template literal. */
  function Interpolated(o: Option<string>): string {
    match o
    case Some(v) => v
    case None => "null"
  }

  /** `createSession()`: POST to the session URL of the stored config and user
      id; on success adopt the session's id and the server's user id. */
  function CreateSessionStep(s: ServiceState, answer: SessionOutcome): InitStep {
    match s.config
    case None => InitStep(s, Fail(ConfigMissing), None)
    case Some(cfg) =>
      var url := SessionsUrl(cfg.apiUrl, cfg.appName, Interpolated(s.userId));
      match answer
      case SessionRejected(status, text) => InitStep(s, Fail(SessionCreationFailed(status, text)), Some(url))
      case SessionUnreachable => InitStep(s, Fail(TransportFailed), Some(url))
      case SessionCreated(session) =>
        InitStep(s.(sessionId := Some(session.id), userId := Some(session.userId)), Pass, Some(url))
  }

  /** `initialize(config)`: nothing when already initialized; otherwise store
      the config, generate a user id from the draws `rs`, create a session and
      become initialized only if that succeeded. */
  function InitializeStep(s: ServiceState, config: WidgetConfig, rs: seq<Nibble>, answer: SessionOutcome): InitStep
    requires |rs| == UuidDraws
  {
    if s.isInitialized then InitStep(s, Pass, None)
    else
      var created := CreateSessionStep(s.(config := Some(config), userId := Some(GenerateUserId(rs))), answer);
      if created.outcome.Pass? then created.(next := created.next.(isInitialized := true))
      else created
  }

  /** The user message `sendMessage(text)` appends, stamped with `Date.now()`. */
  function UserMessage(text: string, now: int): Message {
    Message(User, text, now as real)
  }

  /** `sendMessage(text)`: reject if not ready; otherwise append the user
      message, POST it to `/run`, and on a reply with content append and
      return the model's message. Nothing appended is ever removed. */
  function SendMessageStep(s: ServiceState, text: string, now: int, answer: RunOutcome): SendStep {
    if !Ready(s) then SendStep(s, Failure(NotInitialized), None)
    else
      var cfg := s.config.value;
      var sent := s.(messages := s.messages + [UserMessage(text, now)]);
      var call := RunCall(RunUrl(cfg.apiUrl), BuildRunRequest(cfg, s.userId.value, s.sessionId.value, text));
      match answer
      case RunRejected(status, statusText) => SendStep(sent, Failure(SendFailed(status, statusText)), Some(call))
      case RunUnreachable => SendStep(sent, Failure(TransportFailed), Some(call))
      case RunReplied(responses) =>
        match ExtractReply(responses)
        case None => SendStep(sent, Failure(NoReplyContent), Some(call))
        case Some(reply) => SendStep(sent.(messages := sent.messages + [reply]), Success(reply), Some(call))
  }

  /** `clearMessages()` */
  function ClearMessagesStep(s: ServiceState): ServiceState {
    s.(messages := [])
  }

  /** `reset()`: forget the session, the user id and the history, then
      initialize again with the stored config, if there is one. */
  function ResetStep(s: ServiceState, rs: seq<Nibble>, answer: SessionOutcome): InitStep
    requires |rs| == UuidDraws
  {
    var cleared := s.(sessionId := None, userId := None, messages := [], isInitialized := false);
    match s.config
    case Some(cfg) => InitializeStep(cleared, cfg, rs, answer)
    case None => InitStep(cleared, Pass, None)
  }

  // ------------------------------------------------------------ invariant

  lemma InitialStateValid()
    ensures Valid(InitialState) && !Ready(InitialState)
  {
  }

  lemma InitializePreservesValid(s: ServiceState, config: WidgetConfig, rs: seq<Nibble>, answer: SessionOutcome)
    requires |rs| == UuidDraws
    requires Valid(s)
    ensures Valid(InitializeStep(s, config, rs, answer).next)
  {
  }

  lemma SendMessagePreservesValid(s: ServiceState, text: string, now: int, answer: RunOutcome)
    requires Valid(s)
    ensures Valid(SendMessageStep(s, text, now, answer).next)
  {
  }

  lemma ClearAndResetPreserveValid(s: ServiceState, rs: seq<Nibble>, answer: SessionOutcome)
    requires |rs| == UuidDraws
    requires Valid(s)
    ensures Valid(ClearMessagesStep(s))
    ensures Valid(ResetStep(s, rs, answer).next)
  {
  }

  // ----------------------------------------------------------- initialize

  /** On an initialized service, `initialize` settles at once, changes
      nothing and posts nothing, whatever the config and the backend. */
  lemma InitializeWhenInitializedIsNoOp(s: ServiceState, config: WidgetConfig, rs: seq<Nibble>, answer: SessionOutcome)
    requires |rs| == UuidDraws
    requires s.isInitialized
    ensures InitializeStep(s, config, rs, answer) == InitStep(s, Pass, None)
  {
  }

  /** Otherwise it stores the config and posts exactly one session creation,
      for the generated user id; on success the session's id and the
      server's user id replace what the client had, and the service is
      initialized; on failure it rejects with the status, stays
      uninitialized and keeps the generated user id. The history is never
      touched. */
  lemma InitializeOutcomes(s: ServiceState, config: WidgetConfig, rs: seq<Nibble>, answer: SessionOutcome)
    requires |rs| == UuidDraws
    requires Valid(s) && !s.isInitialized
    ensures var r := InitializeStep(s, config, rs, answer);
      && r.sessionPost == Some(SessionsUrl(config.apiUrl, config.appName, GenerateUserId(rs)))
      && r.next.config == Some(config)
      && r.next.messages == s.messages
      && (r.outcome.Pass? <==> answer.SessionCreated?)
      && (r.next.isInitialized <==> answer.SessionCreated?)
      && (answer.SessionCreated? ==>
            r.next.sessionId == Some(answer.session.id) && r.next.userId == Some(answer.session.userId))
      && (answer.SessionRejected? ==>
            r.outcome == Fail(SessionCreationFailed(answer.status, answer.statusText)))
      && (answer.SessionUnreachable? ==> r.outcome == Fail(TransportFailed))
      && (!answer.SessionCreated? ==>
            r.next.sessionId == None && r.next.userId == Some(GenerateUserId(rs)))
  {
  }

  /** Calling `initialize` twice creates exactly one session: once the first
      call succeeded, the second posts nothing and changes nothing. */
  lemma InitializeTwicePostsOnce(s: ServiceState, c1: WidgetConfig, c2: WidgetConfig,
                                 rs1: seq<Nibble>, rs2: seq<Nibble>, session: Session, answer2: SessionOutcome)
    requires |rs1| == UuidDraws && |rs2| == UuidDraws
    requires Valid(s) && !s.isInitialized
    ensures var first := InitializeStep(s, c1, rs1, SessionCreated(session));
      && first.sessionPost.Some?
      && InitializeStep(first.next, c2, rs2, answer2) == InitStep(first.next, Pass, None)
  {
  }

  // --------------------------------------------------------- sendMessage

  /** The guard: a service that is not ready rejects with NotInitialized,
      posts nothing and keeps its history. */
  lemma SendWhenNotReadyRejects(s: ServiceState, text: string, now: int, answer: RunOutcome)
    requires !Ready(s)
    ensures SendMessageStep(s, text, now, answer) == SendStep(s, Failure(NotInitialized), None)
  {
  }

  /** Past the guard, the user's text is appended first, exactly as given,
      and stays; the request carries that text and the held identity. The
      history grows by one on a failure and by two on success, the second
      being the reply that is returned. The session identity never changes. */
  lemma SendHistory(s: ServiceState, text: string, now: int, answer: RunOutcome)
    requires Ready(s)
    ensures var r := SendMessageStep(s, text, now, answer);
      && r.next == s.(messages := r.next.messages)
      && r.runPost.Some?
      && r.runPost.value.url == RunUrl(s.config.value.apiUrl)
      && r.runPost.value.body == BuildRunRequest(s.config.value, s.userId.value, s.sessionId.value, text)
      && r.runPost.value.body.stateDelta == Some(StateDelta(None, None, None, Some(s.config.value.agentKey)))
      && RequestText(r.runPost.value.body) == Some(text)
      && r.runPost.value.body.sessionId == s.sessionId.value
      && r.runPost.value.body.userId == s.userId.value
      && r.runPost.value.body.appName == s.config.value.appName
      && r.next.messages[..|s.messages| + 1] == s.messages + [Message(User, text, now as real)]
      && (r.result.Failure? ==> |r.next.messages| == |s.messages| + 1)
      && (r.result.Success? ==>
            |r.next.messages| == |s.messages| + 2 && r.next.messages[|s.messages| + 1] == r.result.value)
  {
    var r := SendMessageStep(s, text, now, answer);
    BuildRunRequestCarries(s.config.value, s.userId.value, s.sessionId.value, text);
    assert r.next.messages[..|s.messages| + 1] == s.messages + [Message(User, text, now as real)];
  }

  /** Which failure a send that got past the guard ends in, and when it
      succeeds: exactly when the backend answered with some record that has
      content, the reply being the one `ExtractReply` builds. */
  lemma SendResult(s: ServiceState, text: string, now: int, answer: RunOutcome)
    requires Ready(s)
    ensures var r := SendMessageStep(s, text, now, answer);
      && (answer.RunRejected? ==> r.result == Failure(SendFailed(answer.status, answer.statusText)))
      && (answer.RunUnreachable? ==> r.result == Failure(TransportFailed))
      && (answer.RunReplied? ==>
            if exists i :: 0 <= i < |answer.responses| && HasContent(answer.responses[i])
            then r.result == Success(ExtractReply(answer.responses).value) && r.result.value.role == Model
            else r.result == Failure(NoReplyContent))
  {
  }

  /** A send whose backend answer yields a reply. */
  predicate Answered(answer: RunOutcome) {
    answer.RunReplied? && ExtractReply(answer.responses).Some?
  }

  /** One serialized send, as the UI issues them. */
  datatype SendInput = SendInput(text: string, now: int, answer: RunOutcome)

  /** The state after a series of sends, each awaited before the next. */
  function SendAll(s: ServiceState, sends: seq<SendInput>): ServiceState
    decreases |sends|
  {
    if sends == [] then s
    else SendAll(SendMessageStep(s, sends[0].text, sends[0].now, sends[0].answer).next, sends[1..])
  }

  /** One answered send on a ready service appends the user message and
      then a model message, and changes nothing else. */
  lemma AnsweredSendAppendsTwo(s: ServiceState, input: SendInput)
    requires Ready(s) && Answered(input.answer)
    ensures exists reply: Message :: && reply.role == Model
                                     && SendMessageStep(s, input.text, input.now, input.answer).next
                                        == s.(messages := s.messages + [UserMessage(input.text, input.now), reply])
  {
    var reply := ExtractReply(input.answer.responses).value;
    assert s.messages + [UserMessage(input.text, input.now)] + [reply]
        == s.messages + [UserMessage(input.text, input.now), reply];
  }

  /** `h` is `base` followed, for each send, by the user message it carried
      and then a model message. */
  ghost predicate Alternates(base: seq<Message>, h: seq<Message>, sends: seq<SendInput>) {
    && |h| == |base| + 2 * |sends|
    && h[..|base|] == base
    && (forall k :: 0 <= k < |sends| ==> h[|base| + 2 * k] == UserMessage(sends[k].text, sends[k].now))
    && (forall k :: 0 <= k < |sends| ==> h[|base| + 2 * k + 1].role == Model)
  }

  lemma AlternatesCons(base: seq<Message>, h: seq<Message>, sends: seq<SendInput>, reply: Message)
    requires sends != [] && reply.role == Model
    requires Alternates(base + [UserMessage(sends[0].text, sends[0].now), reply], h, sends[1..])
    ensures Alternates(base, h, sends)
  {
    var n := |base|;
    var b1 := base + [UserMessage(sends[0].text, sends[0].now), reply];
    var rest := sends[1..];
    assert h[..n] == base by {
      assert h[..n + 2] == b1;
      assert h[..n] == h[..n + 2][..n];
    }
    forall k | 0 <= k < |sends|
      ensures h[|base| + 2 * k] == UserMessage(sends[k].text, sends[k].now)
      ensures h[|base| + 2 * k + 1].role == Model
    {
      if k == 0 {
        assert h[n] == h[..n + 2][n] == b1[n];
        assert h[n + 1] == h[..n + 2][n + 1] == b1[n + 1];
      } else {
        var j := k - 1;
        assert sends[k] == rest[j];
        assert h[|b1| + 2 * j] == UserMessage(rest[j].text, rest[j].now);
        assert h[|b1| + 2 * j + 1].role == Model;
        assert n + 2 * k == |b1| + 2 * j;
      }
    }
  }

  /** N serialized sends that are all answered add 2N messages to the
      history, alternating user and model starting with the user, each user
      message carrying the text sent, keep the earlier history and leave the
      session identity, so the service stays ready. */
  lemma {:induction false} SerializedSendsAlternate(s: ServiceState, sends: seq<SendInput>)
    requires Ready(s)
    requires forall k :: 0 <= k < |sends| ==> Answered(sends[k].answer)
    ensures var t := SendAll(s, sends);
      && t == s.(messages := t.messages)
      && Alternates(s.messages, t.messages, sends)
    decreases |sends|
  {
    if sends == [] {
      assert s.messages[..|s.messages|] == s.messages;
    } else {
      AnsweredSendAppendsTwo(s, sends[0]);
      var reply: Message :| reply.role == Model
        && SendMessageStep(s, sends[0].text, sends[0].now, sends[0].answer).next
           == s.(messages := s.messages + [UserMessage(sends[0].text, sends[0].now), reply]);
      var s1 := s.(messages := s.messages + [UserMessage(sends[0].text, sends[0].now), reply]);
      var rest := sends[1..];
      assert forall k :: 0 <= k < |rest| ==> Answered(rest[k].answer) by {
        forall k | 0 <= k < |rest| ensures Answered(rest[k].answer) {
          assert rest[k] == sends[k + 1];
        }
      }
      SerializedSendsAlternate(s1, rest);
      var t := SendAll(s, sends);
      assert t == SendAll(s1, rest);
      AlternatesCons(s.messages, t.messages, sends, reply);
    }
  }

  // -------------------------------------------------- clearMessages, reset

  /** `clearMessages` empties the history and leaves the session alone. */
  lemma ClearMessagesKeepsSession(s: ServiceState)
    ensures ClearMessagesStep(s).messages == []
    ensures ClearMessagesStep(s) == s.(messages := [])
    ensures Ready(ClearMessagesStep(s)) == Ready(s)
  {
  }

  /** `reset` without a stored config leaves a cleared, uninitialized
      service and posts nothing; with one, it is `initialize` with that same
      config on the cleared service: a new session is requested for a fresh
      user id, and the history is empty whatever the backend says. */
  lemma ResetOutcomes(s: ServiceState, rs: seq<Nibble>, answer: SessionOutcome)
    requires |rs| == UuidDraws
    requires Valid(s)
    ensures var r := ResetStep(s, rs, answer);
      && r.next.messages == []
      && r.next.config == s.config
      && (s.config.None? ==>
            r == InitStep(ServiceState(None, None, None, [], false), Pass, None))
      && (s.config.Some? ==>
            && r.sessionPost == Some(SessionsUrl(s.config.value.apiUrl, s.config.value.appName, GenerateUserId(rs)))
            && (r.next.isInitialized <==> answer.SessionCreated?)
            && (answer.SessionCreated? ==>
                  r.next.sessionId == Some(answer.session.id) && r.next.userId == Some(answer.session.userId)))
  {
    var cleared := s.(sessionId := None, userId := None, messages := [], isInitialized := false);
    if s.config.Some? {
      InitializeOutcomes(cleared, s.config.value, rs, answer);
    }
  }
}
