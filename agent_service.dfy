/** The agent service object (src/app/services/agent.service.ts:17-229):
    its fields are updated in place by each call, and each method's new
    state, settlement and issued request are those of the matching step
    function of ServiceModel, whose properties are proved there. */
module AgentServices {
  import opened Wrappers
  import opened Interfaces
  import opened UserIds
  import opened Protocol
  import opened ServiceModel

  class AgentService {
    var sessionId: Option<string>
    var userId: Option<string>
    var config: Option<WidgetConfig>
    var messages: seq<Message>
    var isInitialized: bool

    /** The object's fields as one value. */
    function State(): ServiceState
      reads this
    {
      ServiceState(sessionId, userId, config, messages, isInitialized)
    }

    ghost predicate Valid()
      reads this
    {
      ServiceModel.Valid(State())
    }

    constructor ()
      ensures State() == InitialState && Valid()
    {
      sessionId := None;
      userId := None;
      config := None;
      messages := [];
      isInitialized := false;
    }

    /** `initialize(config)`, the session backend answering `answer` and
        `Math.random` drawing `rs`; `post` is the session-creation URL it
        posted to. */
    method Initialize(cfg: WidgetConfig, rs: seq<Nibble>, answer: SessionOutcome)
      returns (outcome: Outcome<ServiceError>, post: Option<string>)
      requires Valid() && |rs| == UuidDraws
      modifies this
      ensures Valid()
      ensures var step := InitializeStep(old(State()), cfg, rs, answer);
        State() == step.next && outcome == step.outcome && post == step.sessionPost
      ensures old(isInitialized) ==> unchanged(this) && outcome == Pass && post == None
    {
      if isInitialized {
        return Pass, None;
      }
      config := Some(cfg);
      userId := Some(GenerateUserId(rs));
      ghost var stored := State();
      assert stored == old(State()).(config := Some(cfg), userId := Some(GenerateUserId(rs)));
      outcome, post := CreateSession(answer);
      ghost var created := CreateSessionStep(stored, answer);
      assert State() == created.next && outcome == created.outcome;
      if outcome.Pass? {
        isInitialized := true;
      }
      InitializePreservesValid(old(State()), cfg, rs, answer);
    }

    /** `createSession()` */
    method CreateSession(answer: SessionOutcome) returns (outcome: Outcome<ServiceError>, post: Option<string>)
      modifies this
      ensures var step := CreateSessionStep(old(State()), answer);
        State() == step.next && outcome == step.outcome && post == step.sessionPost
      ensures messages == old(messages) && isInitialized == old(isInitialized) && config == old(config)
    {
      if config.None? {
        return Fail(ConfigMissing), None;
      }
      var cfg := config.value;
      var url := SessionsUrl(cfg.apiUrl, cfg.appName, Interpolated(userId));
      post := Some(url);
      match answer {
        case SessionRejected(status, statusText) =>
          outcome := Fail(SessionCreationFailed(status, statusText));
        case SessionUnreachable =>
          outcome := Fail(TransportFailed);
        case SessionCreated(session) =>
          sessionId := Some(session.id);
          userId := Some(session.userId);
          outcome := Pass;
      }
    }

    /** `sendMessage(text)` at time `now` (ms), `/run` answering `answer`;
        `call` is the `/run` POST it issued. */
    method SendMessage(text: string, now: int, answer: RunOutcome)
      returns (result: Result<Message, ServiceError>, call: Option<RunCall>)
      requires Valid()
      modifies this
      ensures Valid()
      ensures var step := SendMessageStep(old(State()), text, now, answer);
        State() == step.next && result == step.result && call == step.runPost
      ensures sessionId == old(sessionId) && userId == old(userId) && config == old(config)
      ensures isInitialized == old(isInitialized)
      ensures result.Success? ==> messages == old(messages) + [UserMessage(text, now), result.value]
    {
      if !isInitialized || config.None? || sessionId.None? || sessionId.value == ""
         || userId.None? || userId.value == "" {
        return Failure(NotInitialized), None;
      }
      messages := messages + [UserMessage(text, now)];
      var cfg := config.value;
      var body := BuildRunRequest(cfg, userId.value, sessionId.value, text);
      call := Some(RunCall(RunUrl(cfg.apiUrl), body));
      match answer {
        case RunRejected(status, statusText) =>
          result := Failure(SendFailed(status, statusText));
        case RunUnreachable =>
          result := Failure(TransportFailed);
        case RunReplied(responses) =>
          var reply := ExtractReply(responses);
          if reply.None? {
            result := Failure(NoReplyContent);
          } else {
            messages := messages + [reply.value];
            result := Success(reply.value);
          }
      }
      SendMessagePreservesValid(old(State()), text, now, answer);
    }

    /** `getMessages()`: a new array holding the history; writing to it
        cannot reach the service's own history. */
    method GetMessages() returns (copy: array<Message>)
      ensures fresh(copy)
      ensures copy[..] == messages
    {
      var history := messages;
      copy := new Message[|history|](i requires 0 <= i < |history| => history[i]);
    }

    /** `clearMessages()` */
    method ClearMessages()
      requires Valid()
      modifies this
      ensures Valid()
      ensures State() == ClearMessagesStep(old(State()))
      ensures messages == []
      ensures sessionId == old(sessionId) && userId == old(userId)
      ensures config == old(config) && isInitialized == old(isInitialized)
    {
      messages := [];
    }

    /** The `initialized` getter. */
    function Initialized(): (b: bool)
      reads this
      ensures b == isInitialized
      ensures Valid() && b ==> config.Some? && sessionId.Some? && userId.Some?
    {
      isInitialized
    }

    /** `reset()`, the re-initialization (when a config is stored) drawing
        `rs` and getting `answer` from the session backend. */
    method Reset(rs: seq<Nibble>, answer: SessionOutcome) returns (outcome: Outcome<ServiceError>, post: Option<string>)
      requires Valid() && |rs| == UuidDraws
      modifies this
      ensures Valid()
      ensures var step := ResetStep(old(State()), rs, answer);
        State() == step.next && outcome == step.outcome && post == step.sessionPost
      ensures messages == [] && config == old(config)
    {
      sessionId := None;
      userId := None;
      messages := [];
      isInitialized := false;
      outcome, post := Pass, None;
      if config.Some? {
        outcome, post := Initialize(config.value, rs, answer);
      }
      ClearAndResetPreserveValid(old(State()), rs, answer);
    }
  }

  /** Mutating the array `GetMessages` returns reaches neither the history
      nor a later copy: after writing `m` into the first copy, a second copy
      still equals the history. */
  method GetMessagesIsDefensive(service: AgentService, m: Message)
    returns (first: array<Message>, second: array<Message>)
    requires |service.messages| > 0
    ensures fresh(first) && fresh(second) && first != second
    ensures first.Length == |service.messages| && first[0] == m
    ensures second[..] == service.messages == old(service.messages)
  {
    first := service.GetMessages();
    first[0] := m;
    second := service.GetMessages();
  }

  /** A whole conversation start: initialize against a backend that creates
      session "s1" for user "u1", then send "hi" and get back one record
      saying "hello!" at second 1000. The `/run` POST carries the server's
      identity and the reply is stamped in milliseconds. */
  method EndToEndScenario(rs: seq<Nibble>) returns (reply: Result<Message, ServiceError>, call: Option<RunCall>)
    requires |rs| == UuidDraws
    ensures reply == Success(Message(Model, "hello!", 1000000.0))
    ensures call.Some? && call.value.url == "https://api.x/run"
    ensures call.value.body.sessionId == "s1" && call.value.body.userId == "u1"
  {
    var service := new AgentService();
    var cfg := WidgetConfig("https://api.x", "k1", "app");
    var session := Session("s1", "app", "u1", JObject([]), [], 0.0);
    var init, post := service.Initialize(cfg, rs, SessionCreated(session));
    var answer := [Record(Some(AgentResponseContent([MessagePart(Some("hello!"))], Model)), 1000.0)];
    assert Find(answer, HasContent) == Some(answer[0]);
    reply, call := service.SendMessage("hi", 0, RunReplied(answer));
  }
}
