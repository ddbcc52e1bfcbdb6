/**
 * The conversation loop `periodic_conversation` of agents/ag2ana/__main__.py and
 * agents/ag2robert/__main__.py (the same code for both personas): per-partner message
 * counts, histories and saved tool states, and one round over the roster.
 */
module Driver {
  import opened Wrappers
  import opened Text
  import opened A2A
  import opened Persona
  import opened Agent

  /** The stage the message count selects; counts from 4 on cycle through the three follow-ups. */
  function Stage(count: nat): (r: string)
    ensures IsScriptedStage(r)
    ensures r == GreetingStage <==> count == 0
    ensures count >= 1 ==> r == [Followup1Stage, Followup2Stage, Followup3Stage][(count - 1) % 3]
  {
    if count == 1 then Followup1Stage
    else if count == 2 then Followup2Stage
    else if count == 3 then Followup3Stage
    else if count >= 4 then
      var cycle := (count - 4) % 3;
      if cycle == 0 then Followup1Stage else if cycle == 1 then Followup2Stage else Followup3Stage
    else GreetingStage
  }

  /** After the first message the stages repeat with period 3, and no ongoing stage ever comes up. */
  lemma StagePeriodic(count: nat)
    requires count >= 1
    ensures Stage(count + 3) == Stage(count)
    ensures Stage(count) != GreetingStage
  {
  }

  /**
   * The driver's own reading of the reply: no task gives no text, but a task whose
   * status has no message raises `AttributeError`, which fails the whole exchange.
   */
  function DriverReplyText(response: Option<Task>): (r: Result<Option<string>>)
    ensures r.Failure? <==> response.Some? && response.value.status.message.None?
    ensures r.Success? ==> r.value == ExtractResponseText(response)
  {
    if response.None? then Success(None)
    else if response.value.status.message.None? then Failure("AttributeError: 'NoneType' object has no attribute 'parts'")
    else Success(FirstText(response.value.status.message.value.parts))
  }

  /** The partner entry appended after the agent's own: one entry when the reply has text. */
  function ReplyEntries(name: string, text: Option<string>, stamp: string): (r: seq<Entry>)
    ensures |r| <= 1
    ensures |r| == 1 <==> text.Some?
  {
    if text.Some? then [Entry(name, text.value, stamp)] else []
  }

  /**
   * What the outside world decides in one exchange: the transport's outcome, the
   * `random.choice` index, the fresh uuids and the two timestamps.
   */
  datatype Attempt = Attempt(delivery: Delivery, pick: nat, taskId: string, sessionId: string, ownStamp: string, replyStamp: string)

  /** A saved conversation: both ids, and the agent and partner already set to `name`, as `send_message` leaves them. */
  predicate IsConversation(state: ToolState, name: string) {
    HasConversation(state) && AgentKey in state && state[AgentKey] == Str(name) && PartnerKey in state
  }

  /** `send_message` leaves a saved conversation, which `reply_message` then leaves as it is. */
  lemma ConversationKept(state: ToolState, name: string, taskId: string, sessionId: string)
    ensures IsConversation(StartState(state, name, taskId, sessionId), name)
    ensures IsConversation(state, name) ==> ReplyState(state, name) == state
  {
    if IsConversation(state, name) {
      UpdateSame(state, AgentKey);
    }
  }

  /** The transport delivered and the driver could read the reply. */
  predicate Answered(att: Attempt) {
    att.delivery.Delivered? && DriverReplyText(att.delivery.response).Success?
  }

  /**
   * Which call the driver makes: `send_message` for a new conversation or a saved one
   * whose count is still 0, `reply_message` otherwise; a reply raises unless the saved
   * state holds both ids.
   */
  predicate Reaches(saved: Option<ToolState>, count: nat) {
    saved.None? || count == 0 || HasConversation(saved.value)
  }

  /** The tool state after the call, which for a saved conversation is the saved dictionary itself. */
  function StateAfter(saved: Option<ToolState>, name: string, count: nat, att: Attempt): ToolState {
    if saved.None? then StartState(map[], name, att.taskId, att.sessionId)
    else if count == 0 then StartState(saved.value, name, att.taskId, att.sessionId)
    else ReplyState(saved.value, name)
  }

  /** A partner's history after a successful exchange: the agent's own message, then the reply if it has text. */
  function Extended(selfName: string, name: string, history: seq<Entry>, message: string, att: Attempt): (r: seq<Entry>)
    requires Answered(att)
    ensures |history| + 1 <= |r| <= |history| + 2
    ensures r[..|history|] == history
    ensures r[|history|] == Entry(selfName, message, att.ownStamp)
  {
    history + [Entry(selfName, message, att.ownStamp)] + ReplyEntries(name, DriverReplyText(att.delivery.response).value, att.replyStamp)
  }

  /** The driver's three dictionaries: `message_counts`, `conversation_histories` and `conversations`. */
  datatype Books = Books(counts: map<string, nat>, histories: map<string, seq<Entry>>, conversations: map<string, ToolState>)

  /** The count a partner has before an exchange (0 for a first contact). */
  function CountOf(b: Books, name: string): nat {
    if name in b.counts then b.counts[name] else 0
  }

  /** The history a partner has before an exchange (empty for a first contact). */
  function HistoryOf(b: Books, name: string): seq<Entry> {
    if name in b.histories then b.histories[name] else []
  }

  /** The saved conversation with a partner, if any. */
  function SavedOf(b: Books, name: string): Option<ToolState> {
    if name in b.conversations then Some(b.conversations[name]) else None
  }

  /** The message the driver generates: from the history and stage for a saved conversation, a greeting otherwise. */
  function Opening(b: Books, p: Profile, name: string, pick: nat): string {
    if name in b.conversations then Persona.Message(p, name, HistoryOf(b, name), Stage(CountOf(b, name)), pick)
    else Persona.Message(p, name, [], GreetingStage, pick)
  }

  /** Whether the exchange with `name` completes. */
  predicate Completes(b: Books, name: string, att: Attempt) {
    Reaches(SavedOf(b, name), CountOf(b, name)) && Answered(att)
  }

  /**
   * The dictionaries after one exchange with `name`. A first contact gets a zero count
   * and an empty history whatever happens. A saved conversation's dictionary keeps what
   * the call wrote into it even when the exchange then fails. A completed exchange counts
   * one more message, extends the history (a new conversation's from scratch) and saves
   * the tool state.
   */
  function Exchanged(b: Books, p: Profile, selfName: string, name: string, att: Attempt): Books {
    var c := CountOf(b, name);
    var h := HistoryOf(b, name);
    var state := StateAfter(SavedOf(b, name), name, c, att);
    if Completes(b, name, att) then
      var base := if name in b.conversations then h else [];
      Books(b.counts[name := c + 1], b.histories[name := Extended(selfName, name, base, Opening(b, p, name, att.pick), att)],
        b.conversations[name := state])
    else
      Books(b.counts[name := c], b.histories[name := h],
        if name in b.conversations then b.conversations[name := state] else b.conversations)
  }

  /**
   * The driver's bookkeeping invariant: counts and histories have the same partners,
   * a conversation is saved exactly for partners with a positive count and has the shape
   * `send_message` gives it, and each counted exchange added one or two entries.
   */
  ghost predicate Consistent(b: Books) {
    b.counts.Keys == b.histories.Keys &&
    b.conversations.Keys <= b.counts.Keys &&
    (forall n :: n in b.counts ==> (n in b.conversations <==> b.counts[n] >= 1)) &&
    (forall n :: n in b.conversations ==> IsConversation(b.conversations[n], n)) &&
    (forall n :: n in b.counts ==> b.counts[n] <= |b.histories[n]| <= 2 * b.counts[n])
  }

  /**
   * Under the invariant a saved conversation is always continued with `reply_message`,
   * which finds both ids and writes nothing new, and a new one starts from an empty
   * history at the greeting stage: the exchange completes exactly when the transport
   * answers, and a failure changes no saved state.
   */
  lemma ConsistentExchange(b: Books, p: Profile, selfName: string, name: string, att: Attempt)
    requires Consistent(b)
    ensures Completes(b, name, att) <==> Answered(att)
    ensures name in b.conversations ==> CountOf(b, name) >= 1 && StateAfter(SavedOf(b, name), name, CountOf(b, name), att) == b.conversations[name]
    ensures name !in b.conversations ==> CountOf(b, name) == 0 && HistoryOf(b, name) == []
    ensures Opening(b, p, name, att.pick) == Persona.Message(p, name, HistoryOf(b, name), Stage(CountOf(b, name)), att.pick)
  {
    if name in b.conversations {
      ConversationKept(b.conversations[name], name, att.taskId, att.sessionId);
    }
  }

  /** Writing back the value a map already holds leaves the map as it was. */
  lemma UpdateSame<K, V>(m: map<K, V>, k: K)
    requires k in m
    ensures m[k := m[k]] == m
  {
  }

  /** Counting one more exchange for a partner that already had a saved conversation keeps the invariant. */
  lemma CountedConsistent(b: Books, name: string, history: seq<Entry>)
    requires Consistent(b) && name in b.conversations
    requires |b.histories[name]| + 1 <= |history| <= |b.histories[name]| + 2
    ensures Consistent(Books(b.counts[name := b.counts[name] + 1], b.histories[name := history], b.conversations))
  {
  }

  /** Counting the first exchange of a new conversation and saving its state keeps the invariant. */
  lemma StartedConsistent(b: Books, name: string, history: seq<Entry>, state: ToolState)
    requires Consistent(b) && name !in b.conversations
    requires 1 <= |history| <= 2 && IsConversation(state, name)
    ensures Consistent(Books(b.counts[name := 1], b.histories[name := history], b.conversations[name := state]))
  {
  }

  /** Registering a partner with its current count and history keeps the invariant. */
  lemma RegisteredConsistent(b: Books, name: string)
    requires Consistent(b)
    ensures Consistent(Books(b.counts[name := CountOf(b, name)], b.histories[name := HistoryOf(b, name)], b.conversations))
  {
  }

  /** An exchange keeps the invariant. */
  lemma ExchangedConsistent(b: Books, p: Profile, selfName: string, name: string, att: Attempt)
    requires Consistent(b)
    ensures Consistent(Exchanged(b, p, selfName, name, att))
  {
    ConsistentExchange(b, p, selfName, name, att);
    var r := Exchanged(b, p, selfName, name, att);
    if name in b.conversations {
      UpdateSame(b.conversations, name);
      if Answered(att) {
        CountedConsistent(b, name, r.histories[name]);
      } else {
        RegisteredConsistent(b, name);
      }
    } else if Answered(att) {
      ConversationKept(map[], name, att.taskId, att.sessionId);
      StartedConsistent(b, name, r.histories[name], r.conversations[name]);
    } else {
      RegisteredConsistent(b, name);
    }
  }

  /**
   * What one exchange does under the invariant: the count goes up by one exactly when
   * the transport answers, and then the history gains the message generated from the
   * history and stage and at most one reply; otherwise a failure changes nothing beyond
   * registering a first contact. No other partner is touched.
   */
  lemma ExchangedEffect(b: Books, p: Profile, selfName: string, name: string, att: Attempt)
    requires Consistent(b)
    ensures var r := Exchanged(b, p, selfName, name, att);
      name in r.counts && name in r.histories &&
      r.counts[name] == CountOf(b, name) + (if Answered(att) then 1 else 0)
    ensures var r := Exchanged(b, p, selfName, name, att); var h := HistoryOf(b, name);
      Answered(att) ==>
        |h| + 1 <= |r.histories[name]| <= |h| + 2 && r.histories[name][..|h|] == h &&
        r.histories[name][|h|] == Entry(selfName, Persona.Message(p, name, h, Stage(CountOf(b, name)), att.pick), att.ownStamp)
    ensures var r := Exchanged(b, p, selfName, name, att);
      !Answered(att) ==> r.histories[name] == HistoryOf(b, name) && r.conversations == b.conversations
    ensures var r := Exchanged(b, p, selfName, name, att);
      forall n :: n != name ==> (n in r.counts <==> n in b.counts) && (n in b.counts ==> r.counts[n] == b.counts[n] && r.histories[n] == b.histories[n])
  {
    ConsistentExchange(b, p, selfName, name, att);
    if name in b.conversations {
      UpdateSame(b.conversations, name);
    }
  }

  /** One round over `names`: every name that does not contain the persona's own name gets one exchange, in order. */
  function Rounded(b: Books, p: Profile, selfName: string, names: seq<string>, attempts: seq<Attempt>): Books
    requires |attempts| == |names|
  {
    if names == [] then b
    else
      var n := |names| - 1;
      var before := Rounded(b, p, selfName, names[..n], attempts[..n]);
      if Contains(names[n], selfName) then before else Exchanged(before, p, selfName, names[n], attempts[n])
  }

  /** The last name of a round is handled after all the others. */
  lemma RoundedStep(b: Books, p: Profile, selfName: string, names: seq<string>, attempts: seq<Attempt>, i: nat)
    requires |attempts| == |names| && i < |names|
    ensures Rounded(b, p, selfName, names[..i + 1], attempts[..i + 1]) ==
      if Contains(names[i], selfName) then Rounded(b, p, selfName, names[..i], attempts[..i])
      else Exchanged(Rounded(b, p, selfName, names[..i], attempts[..i]), p, selfName, names[i], attempts[i])
  {
    assert names[..i + 1][..i] == names[..i] && attempts[..i + 1][..i] == attempts[..i];
  }

  /**
   * A round keeps the invariant, forgets no partner, and records only listed names that
   * do not contain the persona's own name.
   */
  lemma {:induction false} RoundedConsistent(b: Books, p: Profile, selfName: string, names: seq<string>, attempts: seq<Attempt>)
    requires |attempts| == |names| && Consistent(b)
    ensures Consistent(Rounded(b, p, selfName, names, attempts))
    ensures b.counts.Keys <= Rounded(b, p, selfName, names, attempts).counts.Keys
    ensures forall n :: n in Rounded(b, p, selfName, names, attempts).counts && n !in b.counts ==> n in names && !Contains(n, selfName)
  {
    if names != [] {
      var n := |names| - 1;
      RoundedConsistent(b, p, selfName, names[..n], attempts[..n]);
      var before := Rounded(b, p, selfName, names[..n], attempts[..n]);
      if !Contains(names[n], selfName) {
        ExchangedConsistent(before, p, selfName, names[n], attempts[n]);
        ExchangedEffect(before, p, selfName, names[n], attempts[n]);
      }
    }
  }

  /**
   * The transport half of an exchange: `send_message` from a fresh tool context when no
   * conversation is saved, otherwise `send_message` or `reply_message` (by the count)
   * on the saved dictionary itself; then the driver's reading of the reply.
   */
  method Contact(agent: PersonaAgent, name: string, message: string, att: Attempt, saved: Option<ToolState>, count: nat)
    returns (ok: bool, text: Option<string>, state: ToolState)
    requires name in agent.cards
    ensures ok == (Reaches(saved, count) && Answered(att))
    ensures ok ==> text == DriverReplyText(att.delivery.response).value
    ensures state == StateAfter(saved, name, count, att)
  {
    var ctx := new ToolContext(if saved.Some? then saved.value else map[]);
    var response: Result<Option<Task>>;
    if saved.Some? && count != 0 {
      var sent;
      sent, response := agent.ReplyMessage(name, message, ctx, att.delivery);
    } else {
      var sent;
      sent, response := agent.SendMessage(name, message, ctx, att.taskId, att.sessionId, att.delivery);
    }
    state := ctx.state;
    ok, text := false, None;
    if response.Success? {
      var reply := DriverReplyText(response.value);
      if reply.Success? {
        ok, text := true, reply.value;
      }
    }
  }

  class ConversationDriver {
    /** The persona's own name, skipped in the roster and used as the speaker of its entries. */
    const selfName: string
    /** `message_counts` */
    var counts: map<string, nat>
    /** `conversation_histories` */
    var histories: map<string, seq<Entry>>
    /** `conversations`: the tool state saved for each partner. */
    var conversations: map<string, ToolState>

    function State(): Books
      reads this
    {
      Books(counts, histories, conversations)
    }

    ghost predicate Valid()
      reads this
    {
      Consistent(State())
    }

    constructor(selfName: string)
      ensures Valid() && this.selfName == selfName
      ensures counts == map[] && histories == map[] && conversations == map[]
    {
      this.selfName := selfName;
      counts := map[];
      histories := map[];
      conversations := map[];
    }

    /**
     * One pass of the loop body for partner `name`: register a first contact, pick the
     * stage, generate a message, start or continue the conversation, record the entries,
     * count the exchange and save the state. An exception (from the call, or from reading
     * a reply without a status message) skips the recording.
     */
    method Exchange(agent: PersonaAgent, name: string, att: Attempt) returns (ok: bool)
      requires Valid() && name in agent.cards && agent.profile.selfName == selfName
      modifies this
      ensures Valid()
      ensures ok == Completes(old(State()), name, att)
      ensures State() == Exchanged(old(State()), agent.profile, selfName, name, att)
    {
      ghost var b := State();
      ok := ExchangeStep(agent, name, att);
      ExchangedConsistent(b, agent.profile, selfName, name, att);
    }

    /** The statements of one exchange; `Exchange` adds that they keep the invariant. */
    method ExchangeStep(agent: PersonaAgent, name: string, att: Attempt) returns (ok: bool)
      requires name in agent.cards && agent.profile.selfName == selfName
      modifies this
      ensures ok == Completes(old(State()), name, att)
      ensures State() == Exchanged(old(State()), agent.profile, selfName, name, att)
    {
      ghost var b := State();
      var c, h := CountOf(State(), name), HistoryOf(State(), name);
      var cs, hs, cv := counts, histories, conversations;
      counts, histories := cs[name := c], hs[name := h];
      var stage := Stage(c);
      var message: string;
      var saved: Option<ToolState>;
      if name in cv {
        message := GenerateMessage(agent.profile, name, h, stage, att.pick);
        saved := Some(cv[name]);
      } else {
        message := GenerateMessage(agent.profile, name, [], GreetingStage, att.pick);
        saved := None;
      }
      var text, state;
      assert message == Opening(b, agent.profile, name, att.pick);
      assert saved == SavedOf(b, name);
      ok, text, state := Contact(agent, name, message, att, saved, c);
      assert ok == Completes(b, name, att);
      assert state == StateAfter(SavedOf(b, name), name, c, att);
      if name in cv {
        conversations := cv[name := state];
      }
      if ok {
        var base := if name in cv then h else [];
        var history := base + [Entry(selfName, message, att.ownStamp)] + ReplyEntries(name, text, att.replyStamp);
        assert history == Extended(selfName, name, base, message, att);
        counts, histories, conversations := cs[name := c + 1], hs[name := history], cv[name := state];
      }
    }

    /** The loop body of a round: skip a name containing the persona's own, exchange with any other. */
    method Visit(agent: PersonaAgent, name: string, att: Attempt)
      requires Valid() && name in agent.cards && agent.profile.selfName == selfName
      modifies this
      ensures Valid()
      ensures State() == if Contains(name, selfName) then old(State()) else Exchanged(old(State()), agent.profile, selfName, name, att)
    {
      if !Contains(name, selfName) {
        var _ := Exchange(agent, name, att);
      }
    }

    /**
     * One round: list the roster, skip every name containing the persona's own, and run
     * one exchange per remaining partner in roster order, a failure moving on to the next.
     */
    method Round(agent: PersonaAgent, attempts: seq<Attempt>)
      requires Valid() && agent.Valid() && agent.profile.selfName == selfName
      requires |attempts| == |agent.order|
      modifies this
      ensures Valid()
      ensures State() == Rounded(old(State()), agent.profile, selfName, agent.order, attempts)
      ensures agent.cards == map[] ==> State() == old(State())
    {
      var roster := agent.ListRemoteAgents();
      if roster == [] {
        return;
      }
      ghost var order := agent.order;
      var i := 0;
      while i < |roster|
        invariant 0 <= i <= |roster|
        invariant State() == Rounded(old(State()), agent.profile, selfName, order[..i], attempts[..i])
        invariant Valid()
      {
        var name := roster[i].name;
        assert name == order[i] && name in agent.cards;
        RoundedStep(old(State()), agent.profile, selfName, order, attempts, i);
        Visit(agent, name, attempts[i]);
        i := i + 1;
      }
      assert order[..i] == order && attempts[..i] == attempts;
    }
  }
}
