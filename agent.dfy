/**
 * The persona agent object of agents/ag2ana/agent.py and agents/ag2robert/agent.py
 * (the two are the same code): its card table, the tool-state dictionary its tools
 * update, and the conversion of a remote agent's answer.
 */
module Agent {
  import opened Wrappers
  import opened A2A
  import Persona

  // ---------------------------------------------------------------
  // Tool state
  // ---------------------------------------------------------------

  /** A value stored in the session state: a string, or a boolean flag. */
  datatype Value = Str(s: string) | Flag(b: bool)

  type ToolState = map<string, Value>

  const AgentKey := "agent"
  const TaskIdKey := "task_id"
  const SessionIdKey := "session_id"
  const SessionActiveKey := "session_active"
  const PartnerKey := "conversation_partner"

  /** Python truthiness of a stored value. */
  predicate Truthy(v: Value) {
    if v.Str? then v.s != "" else v.b
  }

  /** `f'{value}'` */
  function Render(v: Value): string {
    if v.Str? then v.s else if v.b then "True" else "False"
  }

  /** The condition under which `check_state` reports an active agent. */
  predicate IsActive(state: ToolState) {
    SessionIdKey in state && SessionActiveKey in state && Truthy(state[SessionActiveKey]) && AgentKey in state
  }

  /** `check_state(context)['active_agent']` */
  function CheckState(state: ToolState): string {
    if IsActive(state) then Render(state[AgentKey]) else "None"
  }

  /** The session already counts as active: `session_active` is there and truthy. */
  predicate WasActive(state: ToolState) {
    SessionActiveKey in state && Truthy(state[SessionActiveKey])
  }

  /**
   * `before_model_callback`: an inactive session is switched on, and given the fresh
   * id `freshId` when it has no session id yet; an active session is left alone.
   */
  function BeforeModel(state: ToolState, freshId: string): (r: ToolState)
    ensures WasActive(r)
    ensures WasActive(state) ==> r == state
    ensures !WasActive(state) ==> r.Keys == state.Keys + {SessionIdKey, SessionActiveKey}
    ensures SessionIdKey in state ==> SessionIdKey in r && r[SessionIdKey] == state[SessionIdKey]
    ensures SessionIdKey !in state && !WasActive(state) ==> r[SessionIdKey] == Str(freshId)
    ensures forall k :: k in state && k != SessionIdKey && k != SessionActiveKey ==> k in r && r[k] == state[k]
  {
    if !WasActive(state) then
      var withId := if SessionIdKey !in state then state[SessionIdKey := Str(freshId)] else state;
      withId[SessionActiveKey := Flag(true)]
    else
      state
  }

  /**
   * After the callback `check_state` names the stored agent, unless there is none or an
   * already active session has no session id.
   */
  lemma CheckStateAfterCallback(state: ToolState, freshId: string)
    ensures AgentKey in state && (SessionIdKey in state || !WasActive(state)) ==>
      CheckState(BeforeModel(state, freshId)) == Render(state[AgentKey])
    ensures AgentKey !in state ==> CheckState(BeforeModel(state, freshId)) == "None"
  {
  }

  /** The callback is idempotent: a second call changes nothing. */
  lemma BeforeModelIdempotent(state: ToolState, id1: string, id2: string)
    ensures BeforeModel(BeforeModel(state, id1), id2) == BeforeModel(state, id1)
  {
  }

  /** The state `send_message` leaves: agent, fresh task and session ids, and the partner. */
  function StartState(state: ToolState, name: string, taskId: string, sessionId: string): (r: ToolState)
    ensures r.Keys == state.Keys + {AgentKey, TaskIdKey, SessionIdKey, PartnerKey}
    ensures r[AgentKey] == Str(name) && r[PartnerKey] == Str(name)
    ensures r[TaskIdKey] == Str(taskId) && r[SessionIdKey] == Str(sessionId)
    ensures forall k :: k in state && k != AgentKey && k != TaskIdKey && k != SessionIdKey && k != PartnerKey ==> r[k] == state[k]
  {
    state[AgentKey := Str(name)][TaskIdKey := Str(taskId)][SessionIdKey := Str(sessionId)][PartnerKey := Str(name)]
  }

  /** `reply_message` needs both ids of an existing conversation. */
  predicate HasConversation(state: ToolState) {
    TaskIdKey in state && SessionIdKey in state
  }

  /**
   * The state `reply_message` leaves, whether it then raises or not: the agent is set
   * first; the partner is filled in only if the ids are there and it is absent.
   */
  function ReplyState(state: ToolState, name: string): (r: ToolState)
    ensures r.Keys == state.Keys + {AgentKey} + (if HasConversation(state) then {PartnerKey} else {})
    ensures AgentKey in r && r[AgentKey] == Str(name)
    ensures HasConversation(r) <==> HasConversation(state)
    ensures TaskIdKey in state ==> TaskIdKey in r && r[TaskIdKey] == state[TaskIdKey]
    ensures SessionIdKey in state ==> SessionIdKey in r && r[SessionIdKey] == state[SessionIdKey]
    ensures PartnerKey in state ==> PartnerKey in r && r[PartnerKey] == state[PartnerKey]
    ensures PartnerKey !in state ==> (PartnerKey in r <==> HasConversation(state))
    ensures PartnerKey !in state && HasConversation(state) ==> r[PartnerKey] == Str(name)
    ensures forall k :: k in state && k != AgentKey && k != PartnerKey ==> k in r && r[k] == state[k]
  {
    var named := state[AgentKey := Str(name)];
    if HasConversation(named) && PartnerKey !in named then named[PartnerKey := Str(name)] else named
  }

  /** Replying twice to the same partner leaves the state as replying once. */
  lemma ReplyStateIdempotent(state: ToolState, name: string)
    ensures ReplyState(ReplyState(state, name), name) == ReplyState(state, name)
  {
  }

  /** A reply after a successful `send_message` to the same partner leaves the state as it was. */
  lemma ReplyAfterStart(state: ToolState, name: string, taskId: string, sessionId: string)
    ensures ReplyState(StartState(state, name, taskId, sessionId), name) == StartState(state, name, taskId, sessionId)
  {
  }

  /** `task.status.state not in [COMPLETED, CANCELED, FAILED, UNKNOWN]` */
  function SessionActive(s: TaskState): (r: bool)
    ensures r <==> s == Submitted || s == Working || s == InputRequired
  {
    !(s == Completed || s == Canceled || s == Failed || s == Unknown)
  }

  /** The tool context handed to a tool: its state and the two action flags. */
  class ToolContext {
    var state: ToolState
    var skipSummarization: bool
    var escalate: bool

    constructor(state: ToolState)
      ensures this.state == state && !skipSummarization && !escalate
    {
      this.state := state;
      skipSummarization := false;
      escalate := false;
    }
  }

  // ---------------------------------------------------------------
  // Converting a remote answer
  // ---------------------------------------------------------------

  /** What `convert_part` returns: the text, the data dict, or a DataPart naming a saved file. */
  datatype ToolValue = TextValue(text: string) | DictValue(data: map<string, string>) | FileRefValue(data: map<string, string>)

  function ConvertPart(p: Part): (r: ToolValue)
    ensures r.FileRefValue? <==> p.FilePart?
    ensures p.FilePart? ==> r.data == map["artifact-file-id" := p.name]
    ensures r.TextValue? <==> p.TextPart? || p.OtherPart?
    ensures r.DictValue? <==> p.DataPart?
    ensures p.TextPart? ==> r == TextValue(p.text)
    ensures p.DataPart? ==> r == DictValue(p.data)
    ensures p.OtherPart? ==> r.text == "Unknown type: " + p.kind
  {
    match p
    case TextPart(text) => TextValue(text)
    case DataPart(data) => DictValue(data)
    case FilePart(name, _, _) => FileRefValue(map["artifact-file-id" := name])
    case OtherPart(kind) => TextValue("Unknown type: " + kind)
  }

  /** `convert_parts`: one value per part, in order. */
  function ConvertAll(parts: seq<Part>): (r: seq<ToolValue>)
    ensures |r| == |parts|
    ensures forall i :: 0 <= i < |parts| ==> r[i] == ConvertPart(parts[i])
  {
    if parts == [] then [] else ConvertAll(parts[..|parts| - 1]) + [ConvertPart(parts[|parts| - 1])]
  }

  predicate HasFile(parts: seq<Part>) {
    exists i :: 0 <= i < |parts| && parts[i].FilePart?
  }

  /** `convert_parts` with the side effect of `convert_part`: a file part sets both action flags. */
  method ConvertParts(parts: seq<Part>, ctx: ToolContext) returns (r: seq<ToolValue>)
    modifies ctx
    ensures r == ConvertAll(parts)
    ensures ctx.state == old(ctx.state)
    ensures ctx.skipSummarization == (old(ctx.skipSummarization) || HasFile(parts))
    ensures ctx.escalate == (old(ctx.escalate) || HasFile(parts))
  {
    r := [];
    var i := 0;
    while i < |parts|
      invariant 0 <= i <= |parts|
      invariant r == ConvertAll(parts[..i])
      invariant ctx.state == old(ctx.state)
      invariant ctx.skipSummarization == (old(ctx.skipSummarization) || HasFile(parts[..i]))
      invariant ctx.escalate == (old(ctx.escalate) || HasFile(parts[..i]))
    {
      var p := parts[i];
      if p.FilePart? {
        ctx.skipSummarization := true;
        ctx.escalate := true;
      }
      r := r + [ConvertPart(p)];
      assert parts[..i + 1][..i] == parts[..i];
      assert parts[..i + 1][i] == p;
      i := i + 1;
    }
    assert parts[..i] == parts;
  }

  /** The parts `send_task` answers with: the status message's, then each artifact's. */
  function AnswerParts(task: Task): seq<Part> {
    MessageParts(task) + ArtifactParts(task.artifacts)
  }

  function ArtifactParts(artifacts: seq<Artifact>): seq<Part> {
    if artifacts == [] then [] else ArtifactParts(artifacts[..|artifacts| - 1]) + artifacts[|artifacts| - 1].parts
  }

  lemma ConvertAllAppend(a: seq<Part>, b: seq<Part>)
    ensures ConvertAll(a + b) == ConvertAll(a) + ConvertAll(b)
  {
    assert |ConvertAll(a + b)| == |ConvertAll(a) + ConvertAll(b)|;
    forall i | 0 <= i < |a + b|
      ensures ConvertAll(a + b)[i] == (ConvertAll(a) + ConvertAll(b))[i]
    {
      if i >= |a| {
        assert (a + b)[i] == b[i - |a|];
      }
    }
  }

  lemma HasFileAppend(a: seq<Part>, b: seq<Part>)
    ensures HasFile(a + b) == (HasFile(a) || HasFile(b))
  {
    if HasFile(b) {
      var i :| 0 <= i < |b| && b[i].FilePart?;
      assert (a + b)[|a| + i] == b[i];
    }
    if HasFile(a) {
      var i :| 0 <= i < |a| && a[i].FilePart?;
      assert (a + b)[i] == a[i];
    }
  }

  /** `_extract_response_text`: None when there is no task or no status message (the error is caught). */
  function ExtractResponseText(response: Option<Task>): (r: Option<string>)
    ensures response.None? || response.value.status.message.None? ==> r.None?
    ensures r.Some? ==> r.value != ""
    ensures response.Some? && response.value.status.message.Some? ==>
      var parts := response.value.status.message.value.parts;
      (r.None? <==> forall i :: 0 <= i < |parts| ==> !HasText(parts[i]))
    ensures r.Some? ==>
      var parts := response.value.status.message.value.parts;
      exists i :: 0 <= i < |parts| && parts[i] == TextPart(r.value) && forall j :: 0 <= j < i ==> !HasText(parts[j])
  {
    if response.None? || response.value.status.message.None? then None
    else FirstText(response.value.status.message.value.parts)
  }

  // ---------------------------------------------------------------
  // The agent object
  // ---------------------------------------------------------------

  datatype Card = Card(name: string, description: string, url: string, version: string)

  /** One entry of `list_remote_agents`: `{'name': ..., 'description': ...}`. */
  datatype AgentInfo = AgentInfo(name: string, description: string)

  /** What the transport does with a request: returns a task (or None), or raises. */
  datatype Delivery = Delivered(response: Option<Task>) | Raised(error: string)

  /** The request a tool hands to the transport. */
  datatype Request = Request(taskId: string, sessionId: string, parts: seq<Part>)

  function Infos(order: seq<string>, cards: map<string, Card>): (r: seq<AgentInfo>)
    requires forall i :: 0 <= i < |order| ==> order[i] in cards
    ensures |r| == |order|
    ensures forall i :: 0 <= i < |order| ==> r[i] == AgentInfo(cards[order[i]].name, cards[order[i]].description)
  {
    if order == [] then [] else Infos(order[..|order| - 1], cards) + [AgentInfo(cards[order[|order| - 1]].name, cards[order[|order| - 1]].description)]
  }

  predicate NoDuplicates(s: seq<string>) {
    forall i, j :: 0 <= i < j < |s| ==> s[i] != s[j]
  }

  function NotFound(name: string): string {
    "Agent " + name + " not found"
  }

  class PersonaAgent {
    /** The persona's reply tables. */
    const profile: Persona.Profile
    /** `self.cards`; `remote_agent_connections` always has the same keys. */
    var cards: map<string, Card>
    /** The insertion order of `cards`, the order a Python dict iterates in. */
    var order: seq<string>

    ghost predicate Valid()
      reads this
    {
      (forall n :: n in cards <==> n in order) &&
      NoDuplicates(order) &&
      (forall n :: n in cards ==> cards[n].name == n)
    }

    constructor(profile: Persona.Profile)
      ensures Valid() && this.profile == profile && cards == map[] && order == []
    {
      this.profile := profile;
      cards := map[];
      order := [];
    }

    /** `register_agent_card`: insert or overwrite exactly the entry for `card.name`. */
    method RegisterAgentCard(card: Card)
      requires Valid()
      modifies this
      ensures Valid()
      ensures cards == old(cards)[card.name := card]
      ensures order == if card.name in old(cards) then old(order) else old(order) + [card.name]
    {
      if card.name !in cards {
        order := order + [card.name];
      }
      cards := cards[card.name := card];
    }

    /** `list_remote_agents`: one name/description per card, in registration order. */
    method ListRemoteAgents() returns (r: seq<AgentInfo>)
      requires Valid()
      ensures r == Infos(order, cards)
      ensures cards == map[] ==> r == []
    {
      if cards == map[] {
        return [];
      }
      r := [];
      var i := 0;
      while i < |order|
        invariant 0 <= i <= |order|
        invariant r == Infos(order[..i], cards)
      {
        var card := cards[order[i]];
        r := r + [AgentInfo(card.name, card.description)];
        assert order[..i + 1][..i] == order[..i];
        i := i + 1;
      }
      assert order[..i] == order;
    }

    /**
     * `send_message`: start a new conversation. The task and session ids are the fresh
     * `taskId` and `sessionId`; the state keeps them even when the transport raises.
     */
    method SendMessage(name: string, message: string, ctx: ToolContext, taskId: string, sessionId: string, delivery: Delivery)
      returns (sent: Option<Request>, r: Result<Option<Task>>)
      modifies ctx
      ensures ctx.skipSummarization == old(ctx.skipSummarization) && ctx.escalate == old(ctx.escalate)
      ensures name !in cards ==> r == Failure(NotFound(name)) && sent == None && ctx.state == old(ctx.state)
      ensures name in cards ==> ctx.state == StartState(old(ctx.state), name, taskId, sessionId)
      ensures name in cards ==> sent == Some(Request(taskId, sessionId, [TextPart(message)]))
      ensures name in cards ==> r == if delivery.Raised? then Failure(delivery.error) else Success(delivery.response)
    {
      if name !in cards {
        return None, Failure(NotFound(name));
      }
      ctx.state := StartState(ctx.state, name, taskId, sessionId);
      sent := Some(Request(taskId, sessionId, [TextPart(message)]));
      if delivery.Raised? {
        r := Failure(delivery.error);
      } else {
        r := Success(delivery.response);
      }
    }

    /**
     * `reply_message`: continue the conversation the state holds, with its task and
     * session ids; raises when either id is missing.
     */
    method ReplyMessage(name: string, message: string, ctx: ToolContext, delivery: Delivery)
      returns (sent: Option<Request>, r: Result<Option<Task>>)
      modifies ctx
      ensures ctx.skipSummarization == old(ctx.skipSummarization) && ctx.escalate == old(ctx.escalate)
      ensures name !in cards ==> r == Failure(NotFound(name)) && sent == None && ctx.state == old(ctx.state)
      ensures name in cards ==> ctx.state == ReplyState(old(ctx.state), name)
      ensures name in cards && !HasConversation(old(ctx.state)) ==>
        sent == None && r == Failure("No existing conversation found with " + name + ". Use send_message to start a new conversation.")
      ensures name in cards && HasConversation(old(ctx.state)) ==>
        sent == Some(Request(Render(old(ctx.state)[TaskIdKey]), Render(old(ctx.state)[SessionIdKey]), [TextPart(message)]))
      ensures name in cards && HasConversation(old(ctx.state)) ==>
        r == if delivery.Raised? then Failure(delivery.error) else Success(delivery.response)
    {
      if name !in cards {
        return None, Failure(NotFound(name));
      }
      ctx.state := ctx.state[AgentKey := Str(name)];
      if TaskIdKey !in ctx.state || SessionIdKey !in ctx.state {
        return None, Failure("No existing conversation found with " + name + ". Use send_message to start a new conversation.");
      }
      var taskId := ctx.state[TaskIdKey];
      var sessionId := ctx.state[SessionIdKey];
      if PartnerKey !in ctx.state {
        ctx.state := ctx.state[PartnerKey := Str(name)];
      }
      sent := Some(Request(Render(taskId), Render(sessionId), [TextPart(message)]));
      if delivery.Raised? {
        r := Failure(delivery.error);
      } else {
        r := Success(delivery.response);
      }
    }

    /**
     * `send_task`: send a task to a known agent within the state's session, record whether
     * the session stays active, and answer with the converted parts; INPUT_REQUIRED and
     * file parts set both action flags, CANCELED and FAILED raise.
     */
    method SendTask(name: string, message: string, ctx: ToolContext, freshTaskId: string, delivery: Delivery)
      returns (sent: Option<Request>, r: Result<seq<ToolValue>>)
      modifies ctx
      ensures name !in cards ==> r == Failure(NotFound(name)) && sent == None && ctx.state == old(ctx.state)
      ensures name in cards && SessionIdKey !in old(ctx.state) ==>
        r == Failure("KeyError: 'session_id'") && sent == None && ctx.state == old(ctx.state)[AgentKey := Str(name)]
      ensures name in cards && SessionIdKey in old(ctx.state) ==>
        sent == Some(Request(
          if TaskIdKey in old(ctx.state) then Render(old(ctx.state)[TaskIdKey]) else freshTaskId,
          Render(old(ctx.state)[SessionIdKey]), [TextPart(message)]))
      ensures name in cards && SessionIdKey in old(ctx.state) && delivery.Raised? ==>
        r == Failure(delivery.error) && ctx.state == old(ctx.state)[AgentKey := Str(name)]
      ensures name in cards && SessionIdKey in old(ctx.state) && delivery == Delivered(None) ==>
        r.Failure? && ctx.state == old(ctx.state)[AgentKey := Str(name)]
      ensures name in cards && SessionIdKey in old(ctx.state) && delivery.Delivered? && delivery.response.Some? ==>
        var task := delivery.response.value;
        ctx.state == old(ctx.state)[AgentKey := Str(name)][SessionActiveKey := Flag(SessionActive(task.status.state))] &&
        (task.status.state == Canceled ==> r == Failure("Agent " + name + " task " + task.id + " is cancelled")) &&
        (task.status.state == Failed ==> r == Failure("Agent " + name + " task " + task.id + " failed")) &&
        (task.status.state != Canceled && task.status.state != Failed ==>
          r == Success(ConvertAll(AnswerParts(task))) &&
          ctx.skipSummarization == (old(ctx.skipSummarization) || task.status.state == InputRequired || HasFile(AnswerParts(task))) &&
          ctx.escalate == (old(ctx.escalate) || task.status.state == InputRequired || HasFile(AnswerParts(task))))
    {
      if name !in cards {
        return None, Failure(NotFound(name));
      }
      ctx.state := ctx.state[AgentKey := Str(name)];
      var taskId := if TaskIdKey in ctx.state then Render(ctx.state[TaskIdKey]) else freshTaskId;
      if SessionIdKey !in ctx.state {
        return None, Failure("KeyError: 'session_id'");
      }
      var sessionId := Render(ctx.state[SessionIdKey]);
      sent := Some(Request(taskId, sessionId, [TextPart(message)]));
      if delivery.Raised? {
        return sent, Failure(delivery.error);
      }
      if delivery.response.None? {
        return sent, Failure("AttributeError: 'NoneType' object has no attribute 'status'");
      }
      var task := delivery.response.value;
      ctx.state := ctx.state[SessionActiveKey := Flag(SessionActive(task.status.state))];
      if task.status.state == InputRequired {
        ctx.skipSummarization := true;
        ctx.escalate := true;
      } else if task.status.state == Canceled {
        return sent, Failure("Agent " + name + " task " + task.id + " is cancelled");
      } else if task.status.state == Failed {
        return sent, Failure("Agent " + name + " task " + task.id + " failed");
      }
      r := ConvertAnswer(task, ctx);
    }
  }

  function MessageParts(task: Task): seq<Part> {
    if task.status.message.Some? then task.status.message.value.parts else []
  }

  lemma ArtifactPartsStep(artifacts: seq<Artifact>, i: nat)
    requires i < |artifacts|
    ensures ArtifactParts(artifacts[..i + 1]) == ArtifactParts(artifacts[..i]) + artifacts[i].parts
  {
    assert artifacts[..i + 1][..i] == artifacts[..i];
  }

  /** The answer loop of `send_task`: the status message's parts, then each artifact's. */
  method ConvertAnswer(task: Task, ctx: ToolContext) returns (r: Result<seq<ToolValue>>)
    modifies ctx
    ensures r == Success(ConvertAll(AnswerParts(task)))
    ensures ctx.state == old(ctx.state)
    ensures ctx.skipSummarization == (old(ctx.skipSummarization) || HasFile(AnswerParts(task)))
    ensures ctx.escalate == (old(ctx.escalate) || HasFile(AnswerParts(task)))
  {
    var head: seq<ToolValue> := [];
    if task.status.message.Some? {
      head := ConvertParts(task.status.message.value.parts, ctx);
    }
    ghost var flagged, escalated := ctx.skipSummarization, ctx.escalate;
    var tail: seq<ToolValue> := [];
    var i := 0;
    while i < |task.artifacts|
      invariant 0 <= i <= |task.artifacts|
      invariant tail == ConvertAll(ArtifactParts(task.artifacts[..i]))
      invariant ctx.skipSummarization == (flagged || HasFile(ArtifactParts(task.artifacts[..i])))
      invariant ctx.escalate == (escalated || HasFile(ArtifactParts(task.artifacts[..i])))
      invariant ctx.state == old(ctx.state)
    {
      var parts := task.artifacts[i].parts;
      ghost var before := ArtifactParts(task.artifacts[..i]);
      var converted := ConvertParts(parts, ctx);
      ConvertAllAppend(before, parts);
      HasFileAppend(before, parts);
      ArtifactPartsStep(task.artifacts, i);
      tail := tail + converted;
      i := i + 1;
    }
    assert task.artifacts[..i] == task.artifacts;
    ConvertAllAppend(MessageParts(task), ArtifactParts(task.artifacts));
    HasFileAppend(MessageParts(task), ArtifactParts(task.artifacts));
    r := Success(head + tail);
  }

  // ---------------------------------------------------------------
  // register_agents_from_db (agents/ag2robert/__main__.py)
  // ---------------------------------------------------------------

  /**
   * One database document. A field is None when the key is missing; `skillsValid` and
   * `capabilitiesValid` say whether the nested records build without an error.
   */
  datatype AgentRecord = AgentRecord(
    name: Option<string>, description: Option<string>, url: Option<string>, version: Option<string>,
    skillsValid: bool, capabilitiesValid: bool)

  /** A record that builds a card: every field is present and the nested data is valid. */
  predicate Buildable(rec: AgentRecord) {
    rec.name.Some? && rec.description.Some? && rec.url.Some? && rec.version.Some? && rec.skillsValid && rec.capabilitiesValid
  }

  function CardOf(rec: AgentRecord): Card
    requires Buildable(rec)
  {
    Card(rec.name.value, rec.description.value, rec.url.value, rec.version.value)
  }

  /** Whether the loop registers a record: its name is present, not yet a card, and it builds. */
  predicate Admits(cards: map<string, Card>, rec: AgentRecord) {
    rec.name.Some? && rec.name.value !in cards && Buildable(rec)
  }

  /** The card table after processing `records` in order. */
  function AfterRecords(cards: map<string, Card>, records: seq<AgentRecord>): (r: map<string, Card>)
    ensures cards.Keys <= r.Keys
    ensures forall n :: n in cards ==> r[n] == cards[n]
  {
    if records == [] then cards
    else
      var before := AfterRecords(cards, records[..|records| - 1]);
      var rec := records[|records| - 1];
      if Admits(before, rec) then before[rec.name.value := CardOf(rec)] else before
  }

  /** The insertion order after processing `records`: each newly registered name, in record order. */
  function OrderAfterRecords(cards: map<string, Card>, order: seq<string>, records: seq<AgentRecord>): (r: seq<string>)
    ensures |order| <= |r| && r[..|order|] == order
  {
    if records == [] then order
    else
      var init := records[..|records| - 1];
      var before := OrderAfterRecords(cards, order, init);
      var rec := records[|records| - 1];
      if Admits(AfterRecords(cards, init), rec) then before + [rec.name.value] else before
  }

  /**
   * A bad record does not stop the rest: every buildable record's name ends up with a
   * card, and every new name comes from a buildable record.
   */
  lemma {:induction false} AfterRecordsCovers(cards: map<string, Card>, records: seq<AgentRecord>)
    ensures forall i :: 0 <= i < |records| && Buildable(records[i]) ==> records[i].name.value in AfterRecords(cards, records)
    ensures forall n :: n in AfterRecords(cards, records) && n !in cards ==>
      exists i :: 0 <= i < |records| && Buildable(records[i]) && records[i].name.value == n &&
        AfterRecords(cards, records)[n] == CardOf(records[i])
  {
    if records != [] {
      var init := records[..|records| - 1];
      AfterRecordsCovers(cards, init);
      var before := AfterRecords(cards, init);
      var rec := records[|records| - 1];
      var after := AfterRecords(cards, records);
      assert forall i :: 0 <= i < |init| ==> init[i] == records[i];
      forall n | n in after && n !in cards
        ensures exists i :: 0 <= i < |records| && Buildable(records[i]) && records[i].name.value == n && after[n] == CardOf(records[i])
      {
        if n in before {
          var i :| 0 <= i < |init| && Buildable(init[i]) && init[i].name.value == n && before[n] == CardOf(init[i]);
          assert records[i] == init[i];
        } else {
          assert records[|records| - 1] == rec;
        }
      }
    }
  }

  /** The registration loop of `register_agents_from_db`, per record: skip, fail, or register. */
  method RegisterAgentsFromDb(agent: PersonaAgent, records: seq<AgentRecord>)
    requires agent.Valid()
    modifies agent
    ensures agent.Valid()
    ensures agent.cards == AfterRecords(old(agent.cards), records)
    ensures agent.order == OrderAfterRecords(old(agent.cards), old(agent.order), records)
  {
    var i := 0;
    while i < |records|
      invariant 0 <= i <= |records|
      invariant agent.Valid()
      invariant agent.cards == AfterRecords(old(agent.cards), records[..i])
      invariant agent.order == OrderAfterRecords(old(agent.cards), old(agent.order), records[..i])
    {
      var rec := records[i];
      assert records[..i + 1][..i] == records[..i] && records[..i + 1][i] == rec;
      if Admits(agent.cards, rec) {
        agent.RegisterAgentCard(CardOf(rec));
      }
      i := i + 1;
    }
    assert records[..i] == records;
  }
}
