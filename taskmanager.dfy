/**
 * Ana's A2A task manager (agents/ag2ana/task_manager.py): request validation, the
 * user query, the one-shot answer, and the mapping from the agent's streamed chunks
 * to task states, artifacts and server-sent events.
 *
 * The task store and the event queue belong to the A2A server library the manager
 * extends; they are modelled here as a map of stored tasks and one ordered queue of
 * events, each event naming its task.
 */
module TaskManager {
  import opened Wrappers
  import opened A2A

  /** One dict the agent's stream yields: `response`, and `final`/`input_required`, false when absent. */
  datatype Chunk = Chunk(response: string, final: bool, inputRequired: bool)

  /** What is put on the task's event queue. */
  datatype Event =
    | StatusUpdate(taskId: string, status: TaskStatus, final: bool)
    | ArtifactUpdate(taskId: string, artifact: Artifact)
    | StreamError(taskId: string, message: string)

  /** The JSON-RPC errors the manager answers with. */
  datatype RpcError = IncompatibleTypes | InternalError(message: string)

  /**
   * `TaskSendParams`; `compatible` is the library's verdict on `acceptedOutputModes`
   * against the supported types "text" and "text/plain".
   */
  datatype SendParams = SendParams(id: string, sessionId: string, message: Message, compatible: bool)

  /** What `on_send_task` ends with: a task, an error response, or an exception it lets through. */
  datatype SendResponse = Answer(task: Task) | ErrorReply(error: RpcError) | Raised(message: string)

  /** A task as the store keeps it. */
  datatype StoredTask = StoredTask(sessionId: string, status: TaskStatus, artifacts: seq<Artifact>)

  /** The store after `update_store`: the new status, the given artifacts appended. */
  function Updated(t: StoredTask, status: TaskStatus, artifacts: seq<Artifact>): StoredTask {
    t.(status := status, artifacts := t.artifacts + artifacts)
  }

  /** `_validate_request`: an error exactly when the output modes are not compatible. */
  function Validate(params: SendParams): (r: Option<RpcError>)
    ensures r.None? <==> params.compatible
    ensures r.Some? ==> r.value == IncompatibleTypes
  {
    if params.compatible then None else Some(IncompatibleTypes)
  }

  /** `_extract_user_query`: the text of the first part, which must be a text part. */
  function ExtractUserQuery(message: Message): (r: Result<string>)
    ensures r.Success? <==> |message.parts| > 0 && message.parts[0].TextPart?
    ensures r.Success? ==> r.value == message.parts[0].text
    ensures |message.parts| > 0 && !message.parts[0].TextPart? ==> r == Failure("Only text parts are supported")
  {
    if |message.parts| == 0 then Failure("list index out of range")
    else if message.parts[0].TextPart? then Success(message.parts[0].text)
    else Failure("Only text parts are supported")
  }

  // ---------------------------------------------------------------
  // Streaming
  // ---------------------------------------------------------------

  /** The parts and the message built from one chunk. */
  function ChunkParts(c: Chunk): seq<Part> {
    [TextPart(c.response)]
  }

  function ChunkMessage(c: Chunk): Message {
    Message("agent", ChunkParts(c))
  }

  /** The state, the optional artifact and `end_stream` one chunk gives. */
  datatype Outcome = Outcome(state: TaskState, artifact: Option<Artifact>, endStream: bool)

  /**
   * A non-final chunk keeps the task working; a final one either asks for input or
   * completes the task, and only completion carries an artifact, made of the chunk's parts.
   */
  function ChunkOutcome(c: Chunk): (r: Outcome)
    ensures r.endStream == c.final
    ensures r.state == Working <==> !c.final
    ensures r.state == InputRequired <==> c.final && c.inputRequired
    ensures r.state == Completed <==> c.final && !c.inputRequired
    ensures r.artifact.Some? <==> r.state == Completed
    ensures r.artifact.Some? ==> r.artifact.value == Artifact(ChunkParts(c), 0, false)
  {
    if !c.final then Outcome(Working, None, false)
    else if c.inputRequired then Outcome(InputRequired, None, true)
    else Outcome(Completed, Some(Artifact(ChunkParts(c), 0, false)), true)
  }

  /** The status stored and sent for one chunk. */
  function ChunkStatus(c: Chunk): TaskStatus {
    TaskStatus(ChunkOutcome(c).state, Some(ChunkMessage(c)))
  }

  /** The artifacts stored for one chunk: none, or the completion artifact. */
  function ChunkArtifacts(c: Chunk): seq<Artifact> {
    var o := ChunkOutcome(c);
    if o.artifact.Some? then [o.artifact.value] else []
  }

  /** The events of one chunk: the artifact event, if any, then the status event. */
  function ChunkEvents(id: string, c: Chunk): (r: seq<Event>)
    ensures |r| == 1 + |ChunkArtifacts(c)|
    ensures r[|r| - 1] == StatusUpdate(id, ChunkStatus(c), c.final)
    ensures |r| == 2 ==> r[0] == ArtifactUpdate(id, Artifact(ChunkParts(c), 0, false)) && ChunkStatus(c).state == Completed
  {
    var o := ChunkOutcome(c);
    var status := StatusUpdate(id, ChunkStatus(c), o.endStream);
    if o.artifact.Some? then [ArtifactUpdate(id, o.artifact.value), status] else [status]
  }

  /** The first status update, sent before any chunk: working, no message, not final. */
  function InitialEvent(id: string): Event {
    StatusUpdate(id, TaskStatus(Working, None), false)
  }

  /** The events of a run of chunks, in order. */
  function StreamEvents(id: string, chunks: seq<Chunk>): seq<Event> {
    if chunks == [] then []
    else StreamEvents(id, chunks[..|chunks| - 1]) + ChunkEvents(id, chunks[|chunks| - 1])
  }

  /** The stored task after a run of chunks. */
  function StoreAfterFrom(t: StoredTask, chunks: seq<Chunk>): StoredTask {
    if chunks == [] then t
    else
      var c := chunks[|chunks| - 1];
      Updated(StoreAfterFrom(t, chunks[..|chunks| - 1]), ChunkStatus(c), ChunkArtifacts(c))
  }

  /** The stored task after the initial working update and a run of chunks. */
  function StoreAfter(t: StoredTask, chunks: seq<Chunk>): StoredTask {
    StoreAfterFrom(Updated(t, TaskStatus(Working, None), []), chunks)
  }

  /** "An error occurred while streaming the response: {e}" */
  function StreamErrorEvent(id: string, error: string): Event {
    StreamError(id, "An error occurred while streaming the response: " + error)
  }

  /** What the handler puts on the queue when the stream runs through `chunks` and then, maybe, raises. */
  function HandlerEvents(id: string, chunks: seq<Chunk>, failure: Option<string>): seq<Event> {
    [InitialEvent(id)] + StreamEvents(id, chunks) + if failure.Some? then [StreamErrorEvent(id, failure.value)] else []
  }

  /** Every chunk adds exactly one status event, and one artifact event when it completes the task. */
  lemma {:induction false} StreamEventsCount(id: string, chunks: seq<Chunk>)
    ensures |StreamEvents(id, chunks)| == |chunks| + |Completing(chunks)|
  {
    if chunks != [] {
      var init, c := chunks[..|chunks| - 1], chunks[|chunks| - 1];
      StreamEventsCount(id, init);
      assert chunks == init + [c];
      CompletingLast(init, c);
    }
  }

  /** The chunks that complete the task. */
  function Completing(chunks: seq<Chunk>): seq<Chunk> {
    if chunks == [] then []
    else
      var c := chunks[|chunks| - 1];
      Completing(chunks[..|chunks| - 1]) + if ChunkOutcome(c).state == Completed then [c] else []
  }

  lemma CompletingLast(init: seq<Chunk>, c: Chunk)
    ensures Completing(init + [c]) == Completing(init) + if ChunkOutcome(c).state == Completed then [c] else []
  {
    assert (init + [c])[..|init|] == init;
  }

  /**
   * Within the stream, every artifact event is followed at once by a final
   * COMPLETED status event whose message holds the artifact's parts.
   */
  lemma {:induction false} ArtifactThenStatus(id: string, chunks: seq<Chunk>, k: nat)
    requires k < |StreamEvents(id, chunks)| && StreamEvents(id, chunks)[k].ArtifactUpdate?
    ensures k + 1 < |StreamEvents(id, chunks)|
    ensures StreamEvents(id, chunks)[k + 1] ==
      StatusUpdate(id, TaskStatus(Completed, Some(Message("agent", StreamEvents(id, chunks)[k].artifact.parts))), true)
  {
    var init, c := chunks[..|chunks| - 1], chunks[|chunks| - 1];
    var before := StreamEvents(id, init);
    var tail := ChunkEvents(id, c);
    assert StreamEvents(id, chunks) == before + tail;
    if k < |before| {
      ArtifactThenStatus(id, init, k);
    } else {
      assert StreamEvents(id, chunks)[k] == tail[k - |before|];
      assert k - |before| == 0;
    }
  }

  /** The stored status is that of the last chunk (working, without a message, before any chunk). */
  lemma StoreAfterStatus(t: StoredTask, chunks: seq<Chunk>)
    ensures StoreAfter(t, chunks).status ==
      if chunks == [] then TaskStatus(Working, None) else ChunkStatus(chunks[|chunks| - 1])
  {
  }

  /** The store keeps what it had and gains one artifact per completing chunk. */
  lemma {:induction false} StoreAfterArtifacts(t: StoredTask, chunks: seq<Chunk>)
    ensures StoreAfterFrom(t, chunks).sessionId == t.sessionId
    ensures |StoreAfterFrom(t, chunks).artifacts| == |t.artifacts| + |Completing(chunks)|
    ensures StoreAfterFrom(t, chunks).artifacts[..|t.artifacts|] == t.artifacts
  {
    if chunks != [] {
      var init, c := chunks[..|chunks| - 1], chunks[|chunks| - 1];
      StoreAfterArtifacts(t, init);
      assert chunks == init + [c];
      CompletingLast(init, c);
      var a := StoreAfterFrom(t, init).artifacts;
      assert StoreAfterFrom(t, chunks).artifacts == a + ChunkArtifacts(c);
      assert (a + ChunkArtifacts(c))[..|t.artifacts|] == a[..|t.artifacts|];
    }
  }

  lemma ReplacedTwice<K, V>(m: map<K, V>, k: K, v: V, w: V)
    ensures m[k := v][k := w] == m[k := w]
  {
  }

  /** The run of chunks grows by one. */
  lemma StreamStep(t: StoredTask, id: string, chunks: seq<Chunk>, i: nat)
    requires i < |chunks|
    ensures StreamEvents(id, chunks[..i + 1]) == StreamEvents(id, chunks[..i]) + ChunkEvents(id, chunks[i])
    ensures StoreAfterFrom(t, chunks[..i + 1]) == Updated(StoreAfterFrom(t, chunks[..i]), ChunkStatus(chunks[i]), ChunkArtifacts(chunks[i]))
  {
    assert chunks[..i + 1][..i] == chunks[..i];
  }

  /** One more chunk handled: the loop's invariant carries over. */
  lemma HandledOneMore(t0: map<string, StoredTask>, e0: seq<Event>, id: string, chunks: seq<Chunk>, i: nat,
                       t1: map<string, StoredTask>, e1: seq<Event>, t2: map<string, StoredTask>, e2: seq<Event>)
    requires id in t0 && i < |chunks|
    requires t1 == t0[id := StoreAfterFrom(t0[id], chunks[..i])] && e1 == e0 + StreamEvents(id, chunks[..i])
    requires t2 == t1[id := Updated(t1[id], ChunkStatus(chunks[i]), ChunkArtifacts(chunks[i]))]
    requires e2 == e1 + ChunkEvents(id, chunks[i])
    ensures t2 == t0[id := StoreAfterFrom(t0[id], chunks[..i + 1])]
    ensures e2 == e0 + StreamEvents(id, chunks[..i + 1])
  {
    var x := StoreAfterFrom(t0[id], chunks[..i]);
    assert t1[id] == x;
    StreamStep(t0[id], id, chunks, i);
    var y := Updated(x, ChunkStatus(chunks[i]), ChunkArtifacts(chunks[i]));
    assert t2 == t0[id := y];
  }

  /** The two chunks a persona's `invoke_streaming` yields: its fixed reply, then an empty final chunk. */
  function PersonaStream(reply: string): seq<Chunk> {
    [Chunk(reply, false, false), Chunk("", true, false)]
  }

  /**
   * With the personas' stream the reply travels only in a working status update; the
   * task completes with an artifact holding one empty text part.
   */
  lemma PersonaStreamEvents(id: string, reply: string)
    ensures HandlerEvents(id, PersonaStream(reply), None) == [
      InitialEvent(id),
      StatusUpdate(id, TaskStatus(Working, Some(Message("agent", [TextPart(reply)]))), false),
      ArtifactUpdate(id, Artifact([TextPart("")], 0, false)),
      StatusUpdate(id, TaskStatus(Completed, Some(Message("agent", [TextPart("")]))), true)]
  {
    var s := PersonaStream(reply);
    assert s[..1][..0] == [];
    assert StreamEvents(id, s[..1]) == ChunkEvents(id, s[0]);
    assert s[..|s| - 1] == s[..1];
    assert StreamEvents(id, s) == ChunkEvents(id, s[0]) + ChunkEvents(id, s[1]);
  }

  /** `_handle_send_task`'s status and artifact: both hold exactly the response text. */
  function AnswerStatus(response: string): TaskStatus {
    TaskStatus(Completed, Some(Message("assistant", [TextPart(response)])))
  }

  function AnswerArtifact(response: string): Artifact {
    Artifact([TextPart(response)], 0, false)
  }

  /**
   * `utils.task_with_artifacts(task_id, sessionId, task_status, [artifact], [message])`:
   * the answered task carries the request's session and the request message as its history.
   */
  function AnswerTask(params: SendParams, response: string): Task {
    Task(params.id, params.sessionId, AnswerStatus(response), [AnswerArtifact(response)], [params.message])
  }

  /** "Error during on_send_task: {e}" */
  function SendTaskError(error: string): RpcError {
    InternalError("Error during on_send_task: " + error)
  }

  /**
   * The state `on_send_task` leaves and the response it gives, for a query outcome and
   * an agent outcome; `FinalTasks` and `SendOutcome` are its reference definition.
   */
  function FinalTasks(tasks: map<string, StoredTask>, params: SendParams, invoked: Result<string>): map<string, StoredTask> {
    if !params.compatible then tasks
    else
      var working := Updated(Upserted(tasks, params)[params.id], TaskStatus(Working, None), []);
      if ExtractUserQuery(params.message).Success? && invoked.Success? then
        tasks[params.id := Updated(working, AnswerStatus(invoked.value), [AnswerArtifact(invoked.value)])]
      else tasks[params.id := working]
  }

  function SendOutcome(params: SendParams, invoked: Result<string>): (r: SendResponse)
    ensures r.ErrorReply? && r.error == IncompatibleTypes <==> !params.compatible
    ensures r.Raised? <==> params.compatible && ExtractUserQuery(params.message).Failure?
    ensures r.Answer? <==> params.compatible && ExtractUserQuery(params.message).Success? && invoked.Success?
    ensures r.Answer? ==> r.task.status == AnswerStatus(invoked.value) && r.task.artifacts == [AnswerArtifact(invoked.value)]
    ensures r.Answer? ==> r.task.id == params.id && r.task.sessionId == params.sessionId && r.task.history == [params.message]
  {
    var query := ExtractUserQuery(params.message);
    if !params.compatible then ErrorReply(IncompatibleTypes)
    else if query.Failure? then Raised(query.error)
    else if invoked.Failure? then ErrorReply(SendTaskError(invoked.error))
    else Answer(AnswerTask(params, invoked.value))
  }

  /** `upsert_task`: a new task starts submitted with no artifacts; an existing one is kept. */
  function Upserted(tasks: map<string, StoredTask>, params: SendParams): (r: map<string, StoredTask>)
    ensures params.id in r && r.Keys == tasks.Keys + {params.id}
    ensures params.id in tasks ==> r == tasks
    ensures params.id !in tasks ==> r[params.id] == StoredTask(params.sessionId, TaskStatus(Submitted, None), [])
  {
    if params.id in tasks then tasks
    else tasks[params.id := StoredTask(params.sessionId, TaskStatus(Submitted, None), [])]
  }

  /** A rejected request leaves the store as it was, whatever the agent would have said. */
  lemma RejectedUntouched(tasks: map<string, StoredTask>, params: SendParams, invoked: Result<string>)
    requires !params.compatible
    ensures FinalTasks(tasks, params, invoked) == tasks
    ensures SendOutcome(params, invoked) == ErrorReply(IncompatibleTypes)
  {
  }

  /** An accepted request always leaves the task in the store, completed exactly when it was answered. */
  lemma AcceptedStored(tasks: map<string, StoredTask>, params: SendParams, invoked: Result<string>)
    requires params.compatible
    ensures params.id in FinalTasks(tasks, params, invoked)
    ensures FinalTasks(tasks, params, invoked)[params.id].status.state == Completed <==>
      SendOutcome(params, invoked).Answer?
    ensures FinalTasks(tasks, params, invoked).Keys == tasks.Keys + {params.id}
  {
  }

  /** What Python raises for the call: Ana's agent class defines `invoke_streaming` and no `invoke`. */
  const NoInvoke := "'AnaAgent' object has no attribute 'invoke'"

  /**
   * As written, `on_send_task` never answers: over Ana's agent the call to `invoke` raises
   * inside the `try`, so every accepted text query gets the internal error, and its task
   * stays WORKING with the artifacts it had.
   */
  lemma NeverAnswered(tasks: map<string, StoredTask>, params: SendParams)
    requires params.compatible && ExtractUserQuery(params.message).Success?
    ensures SendOutcome(params, Failure(NoInvoke)) == ErrorReply(InternalError("Error during on_send_task: " + NoInvoke))
    ensures params.id in FinalTasks(tasks, params, Failure(NoInvoke))
    ensures FinalTasks(tasks, params, Failure(NoInvoke))[params.id].status == TaskStatus(Working, None)
    ensures FinalTasks(tasks, params, Failure(NoInvoke))[params.id].artifacts == Upserted(tasks, params)[params.id].artifacts
  {
  }

  /**
   * With an agent that does define `invoke`, an accepted text query is answered with the
   * agent's response, and the stored task is completed with it.
   */
  lemma AnsweredWithInvoke(tasks: map<string, StoredTask>, params: SendParams, response: string)
    requires params.compatible && ExtractUserQuery(params.message).Success?
    ensures SendOutcome(params, Success(response)) == Answer(AnswerTask(params, response))
    ensures params.id in FinalTasks(tasks, params, Success(response))
    ensures FinalTasks(tasks, params, Success(response))[params.id].status == AnswerStatus(response)
    ensures FinalTasks(tasks, params, Success(response))[params.id].artifacts ==
      Upserted(tasks, params)[params.id].artifacts + [AnswerArtifact(response)]
  {
  }

  // ---------------------------------------------------------------
  // The manager
  // ---------------------------------------------------------------

  class AgentTaskManager {
    /** The library's task store. */
    var tasks: map<string, StoredTask>
    /** The server-sent events enqueued so far, in order. */
    var events: seq<Event>

    constructor()
      ensures tasks == map[] && events == []
    {
      tasks := map[];
      events := [];
    }

    method UpsertTask(params: SendParams)
      modifies this
      ensures tasks == Upserted(old(tasks), params) && events == old(events)
    {
      if params.id !in tasks {
        tasks := tasks[params.id := StoredTask(params.sessionId, TaskStatus(Submitted, None), [])];
      }
    }

    method UpdateStore(id: string, status: TaskStatus, artifacts: seq<Artifact>)
      requires id in tasks
      modifies this
      ensures tasks == old(tasks)[id := Updated(old(tasks)[id], status, artifacts)] && events == old(events)
    {
      tasks := tasks[id := Updated(tasks[id], status, artifacts)];
    }

    method Enqueue(e: Event)
      modifies this
      ensures events == old(events) + [e] && tasks == old(tasks)
    {
      events := events + [e];
    }

    /**
     * `_handle_send_task_streaming`, for a stream that yields `chunks` and then raises
     * `failure` if that is present. A request whose query cannot be extracted raises
     * before anything is stored or sent.
     */
    method HandleSendTaskStreaming(params: SendParams, chunks: seq<Chunk>, failure: Option<string>)
      requires params.id in tasks
      modifies this
      ensures ExtractUserQuery(params.message).Failure? ==> tasks == old(tasks) && events == old(events)
      ensures ExtractUserQuery(params.message).Success? ==>
        tasks == old(tasks)[params.id := StoreAfter(old(tasks)[params.id], chunks)] &&
        events == old(events) + HandlerEvents(params.id, chunks, failure)
    {
      var query := ExtractUserQuery(params.message);
      if query.Failure? {
        return;
      }
      var id := params.id;
      ghost var t0, e0 := tasks, events;
      UpdateStore(id, TaskStatus(Working, None), []);
      Enqueue(InitialEvent(id));
      ghost var working := tasks[id];
      HandleChunks(id, chunks);
      ReplacedTwice(t0, id, working, StoreAfter(t0[id], chunks));
      assert events == e0 + ([InitialEvent(id)] + StreamEvents(id, chunks));
      if failure.Some? {
        Enqueue(StreamErrorEvent(id, failure.value));
      }
    }

    /** The `async for` over the chunks, after the initial update. */
    method HandleChunks(id: string, chunks: seq<Chunk>)
      requires id in tasks
      modifies this
      ensures tasks == old(tasks)[id := StoreAfterFrom(old(tasks)[id], chunks)]
      ensures events == old(events) + StreamEvents(id, chunks)
    {
      ghost var t0, e0 := tasks, events;
      var i := 0;
      while i < |chunks|
        invariant 0 <= i <= |chunks|
        invariant tasks == t0[id := StoreAfterFrom(t0[id], chunks[..i])]
        invariant events == e0 + StreamEvents(id, chunks[..i])
      {
        ghost var t1, e1 := tasks, events;
        HandleChunk(id, chunks[i]);
        HandledOneMore(t0, e0, id, chunks, i, t1, e1, tasks, events);
        i := i + 1;
      }
      assert chunks[..i] == chunks;
    }

    /** The body of the `async for`: store the chunk's status and artifact, then send the artifact event and the status event. */
    method HandleChunk(id: string, chunk: Chunk)
      requires id in tasks
      modifies this
      ensures tasks == old(tasks)[id := Updated(old(tasks)[id], ChunkStatus(chunk), ChunkArtifacts(chunk))]
      ensures events == old(events) + ChunkEvents(id, chunk)
    {
      var outcome := ChunkOutcome(chunk);
      var status := TaskStatus(outcome.state, Some(ChunkMessage(chunk)));
      UpdateStore(id, status, if outcome.artifact.Some? then [outcome.artifact.value] else []);
      if outcome.artifact.Some? {
        Enqueue(ArtifactUpdate(id, outcome.artifact.value));
      }
      Enqueue(StatusUpdate(id, status, outcome.endStream));
    }

    /**
     * `on_send_task_subscribe`: validation, then the task is stored and the stream is
     * handled (the library runs the handler as a background task; it is run to its end here).
     */
    method OnSendTaskSubscribe(params: SendParams, chunks: seq<Chunk>, failure: Option<string>) returns (r: Option<RpcError>)
      modifies this
      ensures r == Validate(params)
      ensures r.Some? ==> tasks == old(tasks) && events == old(events)
      ensures r.None? && ExtractUserQuery(params.message).Success? ==>
        var t := Upserted(old(tasks), params);
        tasks == t[params.id := StoreAfter(t[params.id], chunks)] &&
        events == old(events) + HandlerEvents(params.id, chunks, failure)
    ensures r.None? && ExtractUserQuery(params.message).Failure? ==>
      tasks == Upserted(old(tasks), params) && events == old(events)
    {
      r := Validate(params);
      if r.Some? {
        return;
      }
      UpsertTask(params);
      HandleSendTaskStreaming(params, chunks, failure);
    }

    /** `_handle_send_task`: store COMPLETED with the response as message and as the one artifact. */
    method HandleSendTask(params: SendParams, response: string) returns (task: Task)
      requires params.id in tasks
      modifies this
      ensures tasks == old(tasks)[params.id := Updated(old(tasks)[params.id], AnswerStatus(response), [AnswerArtifact(response)])]
      ensures events == old(events)
      ensures task.id == params.id && task.sessionId == params.sessionId && task.history == [params.message]
      ensures task.status == AnswerStatus(response) && task.artifacts == [AnswerArtifact(response)]
    {
      var status := AnswerStatus(response);
      var artifact := AnswerArtifact(response);
      UpdateStore(params.id, status, [artifact]);
      task := Task(params.id, params.sessionId, status, [artifact], [params.message]);
    }

    /**
     * `on_send_task`, given what the agent's `invoke` returns or raises (over Ana's agent it
     * always raises; see NeverAnswered). Validation comes
     * first; an unextractable query raises after the task was stored as working.
     */
    method OnSendTask(params: SendParams, invoked: Result<string>) returns (r: SendResponse)
      modifies this
      ensures r == SendOutcome(params, invoked)
      ensures tasks == FinalTasks(old(tasks), params, invoked) && events == old(events)
    {
      var error := Validate(params);
      if error.Some? {
        return ErrorReply(error.value);
      }
      UpsertTask(params);
      UpdateStore(params.id, TaskStatus(Working, None), []);
      var query := ExtractUserQuery(params.message);
      if query.Failure? {
        return Raised(query.error);
      }
      if invoked.Failure? {
        return ErrorReply(SendTaskError(invoked.error));
      }
      var task := HandleSendTask(params, invoked.value);
      r := Answer(task);
    }
  }
}
