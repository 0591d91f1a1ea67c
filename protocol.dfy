/** The pure parts of the client's protocol with the agent backend
    (src/app/services/agent.service.ts): the two endpoint URLs, the `/run`
    request body, and how the reply is picked out of a `/run` answer. */
module Protocol {
  import opened Wrappers
  import opened Interfaces

  // ---------------------------------------------------------------- URLs

  const AppsSegment: string := "/apps/"
  const UsersSegment: string := "/users/"
  const SessionsSegment: string := "/sessions"
  const RunSegment: string := "/run"

  /** `${apiUrl}/apps/${appName}/users/${userId}/sessions` */
  function SessionsUrl(apiUrl: string, appName: string, userId: string): string {
    apiUrl + AppsSegment + appName + UsersSegment + userId + SessionsSegment
  }

  /** `${apiUrl}/run` */
  function RunUrl(apiUrl: string): string {
    apiUrl + RunSegment
  }

  /** Reads the user id back out of a session-creation URL built on the given
      base URL and application name. */
  function SessionsUrlUser(url: string, apiUrl: string, appName: string): (u: Option<string>)
    ensures u.Some? ==> SessionsUrl(apiUrl, appName, u.value) == url
  {
    var prefix := apiUrl + AppsSegment + appName + UsersSegment;
    if |prefix| + |SessionsSegment| <= |url|
       && url[..|prefix|] == prefix
       && url[|url| - |SessionsSegment|..] == SessionsSegment
    then
      var u := url[|prefix|..|url| - |SessionsSegment|];
      assert url == url[..|prefix|] + u + url[|url| - |SessionsSegment|..];
      Some(u)
    else None
  }

  /** The user id is recovered from the URL built with it: two different user
      ids never share a session-creation URL. */
  lemma SessionsUrlRoundTrip(apiUrl: string, appName: string, userId: string)
    ensures SessionsUrlUser(SessionsUrl(apiUrl, appName, userId), apiUrl, appName) == Some(userId)
  {
  }

  /** The two endpoints never coincide. */
  lemma RunUrlIsNotSessionsUrl(apiUrl: string, base: string, appName: string, userId: string)
    ensures RunUrl(apiUrl) != SessionsUrl(base, appName, userId)
  {
    var r := RunUrl(apiUrl);
    var s := SessionsUrl(base, appName, userId);
    assert r[|r| - 1] == 'n';
    assert s[|s| - 1] == 's';
  }

  // --------------------------------------------------------- request body

  /** The body of the `/run` request for one message: the stored session
      identity, the text as a single part, and the agent key as the only
      state delta. */
  function BuildRunRequest(config: WidgetConfig, userId: string, sessionId: string, text: string): (req: RunAgentRequest)
    ensures req.newMessage.role == User
    ensures req.stateDelta.Some? && req.stateDelta.value.agentKey == Some(config.agentKey)
  {
    RunAgentRequest(
      config.appName,
      userId,
      sessionId,
      NewMessage(User, [MessagePart(Some(text))]),
      Some(StateDelta(None, None, None, Some(config.agentKey))))
  }

  /** The text a `/run` body carries: that of its single part. */
  function RequestText(req: RunAgentRequest): Option<string> {
    if |req.newMessage.parts| == 1 then req.newMessage.parts[0].text else None
  }

  /** The request carries the message text exactly as given, untrimmed, and
      the identity and agent key it was built from. */
  lemma BuildRunRequestCarries(config: WidgetConfig, userId: string, sessionId: string, text: string)
    ensures var req := BuildRunRequest(config, userId, sessionId, text);
      && RequestText(req) == Some(text)
      && req.appName == config.appName && req.userId == userId && req.sessionId == sessionId
      && req.stateDelta == Some(StateDelta(None, None, None, Some(config.agentKey)))
  {
  }

  // ------------------------------------------------------ reply extraction

  /** `i` is where `xs.find(p)` stops: the first element satisfying `p`. */
  ghost predicate IsFirstMatch<T>(xs: seq<T>, p: T -> bool, i: int) {
    0 <= i < |xs| && p(xs[i]) && forall j :: 0 <= j < i ==> !p(xs[j])
  }

  /** `xs.find(p)`: the first element satisfying `p`, if any. */
  function Find<T>(xs: seq<T>, p: T -> bool): (r: Option<T>)
    ensures r.None? <==> forall i :: 0 <= i < |xs| ==> !p(xs[i])
    ensures r.Some? ==> exists i :: IsFirstMatch(xs, p, i) && xs[i] == r.value
  {
    if xs == [] then None
    else if p(xs[0]) then
      assert IsFirstMatch(xs, p, 0);
      Some(xs[0])
    else
      var r := Find(xs[1..], p);
      assert forall i :: 1 <= i < |xs| ==> xs[i] == xs[1..][i - 1];
      assert forall k :: IsFirstMatch(xs[1..], p, k) ==> IsFirstMatch(xs, p, k + 1);
      r
  }

  /** A record is picked when its `content` is truthy, i.e. present. */
  predicate HasContent(r: AgentResponse) {
    r.content.Some?
  }

  /** A part is picked when its `text` is truthy, i.e. present and non-empty. */
  predicate HasText(p: MessagePart) {
    p.text.Some? && p.text.value != ""
  }

  /** `parts.find(part => part.text)?.text || ''`: the first non-empty text,
      or the empty string when no part has one. */
  function ReplyText(parts: seq<MessagePart>): (t: string)
    ensures t == "" <==> forall i :: 0 <= i < |parts| ==> !HasText(parts[i])
    ensures t != "" ==> exists i :: IsFirstMatch(parts, HasText, i) && parts[i].text == Some(t)
  {
    match Find(parts, HasText)
    case Some(p) => p.text.value
    case None => ""
  }

  /** The reply message built from the first record with content: role
      'model', the extracted text, and the record's timestamp (seconds)
      converted to milliseconds. None when no record has content. */
  function ExtractReply(responses: seq<AgentResponse>): (m: Option<Message>)
    ensures m.None? <==> forall i :: 0 <= i < |responses| ==> !HasContent(responses[i])
    ensures m.Some? ==> exists i :: && IsFirstMatch(responses, HasContent, i)
                                    && m.value == Message(Model, ReplyText(responses[i].content.value.parts), responses[i].timestamp * 1000.0)
  {
    match Find(responses, HasContent)
    case None => None
    case Some(r) => Some(Message(Model, ReplyText(r.content.value.parts), r.timestamp * 1000.0))
  }

  /** An agent-turn record with the given content and time; every other
      field is irrelevant to the client. */
  function Record(content: Option<AgentResponseContent>, timestamp: real): AgentResponse {
    AgentResponse(content, None, "", None, None, "", "", None, "", timestamp)
  }

  /** First match, not best match: the first record with content is chosen
      even though its only text is empty and a later record says "hello";
      and a chosen record whose parts carry no text gives the empty text. */
  lemma ReplySelectionExamples()
    ensures ExtractReply([Record(None, 1.0),
                          Record(Some(AgentResponseContent([MessagePart(Some(""))], Model)), 2.0),
                          Record(Some(AgentResponseContent([MessagePart(Some("hello"))], Model)), 3.0)])
            == Some(Message(Model, "", 2000.0))
    ensures ExtractReply([Record(Some(AgentResponseContent([MessagePart(None)], Model)), 5.0)])
            == Some(Message(Model, "", 5000.0))
    ensures ExtractReply([Record(None, 1.0)]) == None
  {
  }
}
