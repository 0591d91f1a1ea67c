/** The data shapes exchanged between the widget and the agent backend
    (src/app/models/interfaces.ts). Fields typed `any` in the source are
    kept as uninspected JSON values; fields the client treats as possibly
    absent are options. */
module Interfaces {
  import opened Wrappers

  /** The widget's configuration: exactly three strings. */
  datatype WidgetConfig = WidgetConfig(apiUrl: string, agentKey: string, appName: string)

  /** Who authored a message: the literal union 'user' | 'model'. */
  datatype Role = User | Model

  /** The role of an outbound message is always 'user'. */
  type UserRole = r: Role | r.User? witness User

  /** The role of an inbound reply content is always 'model'. */
  type ModelRole = r: Role | r.Model? witness Model

  /** A chat message as kept in the history; `timestamp` is in epoch milliseconds. */
  datatype Message = Message(role: Role, text: string, timestamp: real)

  /** One part of a message on the wire. Replies may omit `text`. */
  datatype MessagePart = MessagePart(text: Option<string>)

  datatype NewMessage = NewMessage(role: UserRole, parts: seq<MessagePart>)

  datatype AgentResponseContent = AgentResponseContent(parts: seq<MessagePart>, role: ModelRole)

  /** A JSON value the client stores or receives but never looks into. */
  datatype Json =
    | JNull
    | JBool(b: bool)
    | JNumber(n: real)
    | JString(s: string)
    | JArray(elements: seq<Json>)
    | JObject(members: seq<(string, Json)>)

  /** One agent-turn record of a `/run` reply; `timestamp` is in epoch seconds.
      `content` may be missing even though the declared type requires it. */
  datatype AgentResponse = AgentResponse(
    content: Option<AgentResponseContent>,
    groundingMetadata: Option<Json>,
    finishReason: string,
    usageMetadata: Option<Json>,
    avgLogprobs: Option<real>,
    invocationId: string,
    author: string,
    actions: Option<Json>,
    id: string,
    timestamp: real)

  /** A session as created by the backend. */
  datatype Session = Session(
    id: string,
    appName: string,
    userId: string,
    state: Json,
    events: seq<Json>,
    lastUpdateTime: real)

  /** The optional `state_delta` of a `/run` body; each field is independently
      optional (wire names `instructions`, `knowledge`, `rag_corpus`, `agent_key`). */
  datatype StateDelta = StateDelta(
    instructions: Option<string>,
    knowledge: Option<string>,
    ragCorpus: Option<string>,
    agentKey: Option<string>)

  /** The body of a `/run` request. */
  datatype RunAgentRequest = RunAgentRequest(
    appName: string,
    userId: string,
    sessionId: string,
    newMessage: NewMessage,
    stateDelta: Option<StateDelta>)

  /** The JSON spelling of a role: the string literals of the union
      `'user' | 'model'` as they appear in the bodies the client sends and
      the messages it keeps. The service code never spells or parses a role
      itself; JSON serialization does, and these two functions state what
      that spelling is. */
  function RoleName(r: Role): (s: string)
    ensures s == "user" || s == "model"
    ensures s == "user" <==> r == User
  {
    match r
    case User => "user"
    case Model => "model"
  }

  /** Reads a wire role; anything but the two literals is not a role. */
  function ParseRole(s: string): (r: Option<Role>)
    ensures r.Some? <==> s == "user" || s == "model"
  {
    if s == "user" then Some(User)
    else if s == "model" then Some(Model)
    else None
  }

  /** The two spellings are inverse to each other. */
  lemma RoleNameRoundTrip(r: Role, s: string)
    ensures ParseRole(s) == Some(r) <==> s == RoleName(r)
  {
  }
}
