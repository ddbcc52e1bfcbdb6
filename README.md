# xoxo-ai core in Dafny

xoxo-ai is a set of demo apps. Two persona chat agents talk to each other over the
A2A (agent-to-agent) protocol: Ana (agents/ag2ana) and Irvin (agents/ag2robert).
Every few minutes each persona runs a conversation round over the agents it has
registered. For each partner it keeps a message count, a history and a saved tool
state. It picks a scripted message from the stage the count selects and from the topics
the partner has mentioned, sends it, and records the reply. A small FastAPI service
(dalle-nft-api) queues "mint a DALL-E NFT" jobs. It hands each job to the ERC-721
action provider and reads the provider's answer back into a task record.

The model covers these parts, one Dafny module each:

- **Persona, Ana, Irvin**: `generate_message`. This is tag extraction from the
  partner's lowercased messages, then the per-stage decision tables, the recency-filtered
  topic injection, the ongoing fallbacks and the closing line. `Persona` is table-driven.
  `Ana` and `Irvin` hold each persona's own tables and what follows from them.
- **Agent**: the persona agent object, written as a class. Its card table, the
  tool-state dictionary (`before_model_callback`, `send_message`, `reply_message`,
  `send_task`), the part conversion, and `register_agents_from_db`.
- **Transcript**: `_log_conversation`. This covers which file an exchange goes to, the
  speaker rewrite and the entry format.
- **Driver**: `periodic_conversation`, written as a class with the three per-partner
  dictionaries. It has a bookkeeping invariant, and that invariant is preserved by every
  exchange and every round.
- **TaskManager**: Ana's A2A task manager. It covers validation, the user query, the
  one-shot `on_send_task`, and the streaming handler that turns the agent's chunks into
  task states, artifacts and queued events.
- **Mint**: the mint service's task table, its background job, and the line parser of
  the provider's answer. The parser takes a reading of the OpenSea line: the task table
  uses the program as written, which keeps only "https"; the intended reading is kept
  beside it for the finding below.
- **Erc721**: the pure parts of the ERC-721 provider. These are argument defaults,
  explorer and marketplace links, the network check, metadata and messages.
- **Text, A2A, Wrappers**: the Python string operations used (`in`, `lower`, `strip`,
  `split`, ordering), the A2A records, and `Option`/`Result`.

Anything the code reads from outside becomes a parameter:

| Outside input | Parameter |
|---|---|
| current time | `ownStamp` / `replyStamp` values |
| `uuid4` | `freshId` / `freshTaskId` arguments |
| `random.choice` | the `pick` argument |
| what a remote agent answers or raises | a `Delivery` value |
| the DALL-E/IPFS/web3 pipeline behind `dalle_nft` | its outcome, an `outcome: Result<string>` |
| the modality check of the A2A utilities | the `compatible` field of a request |

## Model

| member | source | states |
|---|---|---|
| Text.Lower | agents/ag2ana/agent.py:394 | the lowercased string has the same length and lowercases each ASCII letter in place |
| Text.FirstWord | agents/ag2ana/agent.py:328 | `split(' ')[0]` is a space-free prefix that ends at the first space |
| Text.Contains | agents/ag2ana/agent.py:395 | definition of `sub in s`; Text.ContainsIff equates it with an occurrence at some index |
| Text.IndexOf | dalle-nft-api/main.py:151 | the position found holds an occurrence and no earlier position does, and None means no occurrence |
| Text.Split | dalle-nft-api/main.py:141 | `split` gives at least one piece; Text.SplitJoin and Text.SplitLength state what the pieces are |
| Text.SplitJoin | dalle-nft-api/main.py:141 | joining the pieces of `split(sep)` with `sep` gives the string back, and no piece contains `sep` |
| Text.SplitLength | dalle-nft-api/main.py:151 | `split(sep)` has an element at index 1 exactly when `sep` occurs in the string |
| Text.Strip | dalle-nft-api/main.py:143 | the result is a slice of the input with only whitespace before and after it, and neither starts nor ends with whitespace: the text between the leading and trailing whitespace runs |
| A2A.FirstText | agents/ag2ana/agent.py:304-307 | the result is the text of the first part with non-empty text, and None exactly when no part has text |
| Persona.Tags | agents/ag2ana/agent.py:388-416 | definition of the tag lists the history scan builds; Persona.TagsIff states which tags it holds |
| Persona.EntryTags | agents/ag2ana/agent.py:395-416 | a message adds exactly the tags of the rules of that kind with a keyword in the message |
| Persona.EntryTagsIff | agents/ag2ana/agent.py:391-416 | one entry adds a tag exactly when it is the partner's and fires a rule for that tag |
| Persona.TagsSnoc | agents/ag2ana/agent.py:391-416 | a tag is in the list for a longer history exactly when it was in the list for the shorter one or the new entry triggers it |
| Persona.TagsIff | agents/ag2ana/agent.py:391-416 | a tag is collected exactly when some partner message in the history triggers it |
| Persona.SoleRule | agents/ag2ana/agent.py:391-416 | a tag given by one rule only is collected exactly when the partner wrote one of that rule's two keywords |
| Persona.NoRule | agents/ag2ana/agent.py:391-416 | a tag that no rule of a kind yields is never in that kind's list |
| Persona.ScanTags | agents/ag2ana/agent.py:388-416 | the loop over the history builds the interest and topic lists of the tag definition |
| Persona.Choose | agents/ag2ana/agent.py:439-462 | the stage's answer is its default unless some arm's condition holds |
| Persona.ChooseFirst | agents/ag2ana/agent.py:439-462 | the first arm whose condition holds gives the stage's answer |
| Persona.ChooseDefault | agents/ag2ana/agent.py:439-462 | with no arm holding, the stage answers its `else` text |
| Persona.LastSix | agents/ag2ana/agent.py:469 | `history[-6:]` is the last min(6, n) entries in order |
| Persona.OwnMessages | agents/ag2ana/agent.py:469 | the recent messages are exactly the lowercased messages of the persona's own entries |
| Persona.Available | agents/ag2ana/agent.py:472-476 | definition of `available_topics`; Persona.AvailableIff states which topics it holds |
| Persona.AvailableIff | agents/ag2ana/agent.py:472-476 | a topic is available exactly when it is in the pool and no recent message contains it, case-insensitively |
| Persona.FilterTopics | agents/ag2ana/agent.py:472-476 | the filtering loop computes the available topics of the definition |
| Persona.Respond | agents/ag2ana/agent.py:484-502 | the ongoing answer is the default unless some fallback applies and its text is the answer |
| Persona.RespondFirst | agents/ag2ana/agent.py:484-499 | the first applicable fallback (tag present, keyword not recent) gives the answer |
| Persona.RespondDefault | agents/ag2ana/agent.py:500-502 | with no applicable fallback the closing line is the answer |
| Persona.Message | agents/ag2ana/agent.py:385-502 | definition of the message `generate_message` returns; the stage lemmas below state what it is in each case |
| Persona.GenerateMessage | agents/ag2ana/agent.py:385-502 | the method (tag scan, then the stage branches) returns the message the decision definition gives |
| Persona.FollowupMessage | agents/ag2ana/agent.py:439-462 | each follow-up stage answers from its own table using the tags the whole history gave |
| Persona.GreetingNamesPartner | agents/ag2ana/agent.py:436-437 | the greeting is the persona's greeting template and contains the partner's name |
| Persona.InjectedTopicIsFresh | agents/ag2ana/agent.py:469-481 | an injected topic comes from the pool and appears in none of the persona's own last-six messages |
| Persona.OngoingFallback | agents/ag2ana/agent.py:483-499 | without injection, the first applicable fallback is the ongoing message |
| Persona.OngoingClosing | agents/ag2ana/agent.py:500-502 | without injection or fallback, the message is the closing line and names the partner |
| Ana.FollowupReplies | agents/ag2ana/agent.py:439-462 | Ana's three follow-up messages are her tables' choices over the collected tags |
| Ana.CookingTag | agents/ag2ana/agent.py:395-396 | the "cooking" interest is collected exactly when the partner wrote "cooking" or "chef" |
| Ana.MotorcycleTag | agents/ag2ana/agent.py:397-398 | the "motorcycles" interest is collected exactly when the partner wrote "motorcycle" or "riding" |
| Ana.WelfareTag | agents/ag2ana/agent.py:401-402 | the "animal welfare" topic is collected exactly when the partner wrote "animal" or "welfare" |
| Ana.HobbyTag | agents/ag2ana/agent.py:403-404 | the "hobbies" topic is collected exactly when the partner wrote "hobby" or "hobbies" |
| Ana.TurkishTag | agents/ag2ana/agent.py:405-406 | the "turkish cuisine" interest is collected exactly when the partner wrote "turkish" or "cuisine" |
| Ana.NoWelfareInterest | agents/ag2ana/agent.py:391-416 | "animal welfare" is only ever a topic, never an interest |
| Ana.Followup1Chef | agents/ag2ana/agent.py:439-446 | the first follow-up is the chef reply exactly when the partner mentioned cooking, and otherwise the campaign reply |
| Ana.Followup1NeverWelfare | agents/ag2ana/agent.py:441-442 | the welfare arm of the first follow-up never fires, because it tests the interest list |
| Ana.Followup2Priority | agents/ag2ana/agent.py:448-454 | the second follow-up is hiking without hobbies, the cause if hobbies came up without welfare, else the routine |
| Ana.Followup3Priority | agents/ag2ana/agent.py:456-462 | the third follow-up prefers riding, then Turkish food, then yoga |
| Irvin.FollowupReplies | agents/ag2robert/agent.py:436-459 | Irvin's three follow-up messages are his tables' choices over the collected tags |
| Irvin.CookingTag | agents/ag2robert/agent.py:394-395 | the "cooking" interest is collected exactly when the partner wrote "cooking" or "chef" |
| Irvin.WelfareTag | agents/ag2robert/agent.py:396-397 | the "animal welfare" interest is collected exactly when the partner wrote "animal" or "welfare" |
| Irvin.FitnessTag | agents/ag2robert/agent.py:400-401 | the "fitness" interest is collected exactly when the partner wrote "yoga" or "hiking" |
| Irvin.NoWelfareTopic | agents/ag2robert/agent.py:390-413 | "animal welfare" is only ever an interest, never a topic |
| Irvin.LawyerMeansLaw | agents/ag2robert/agent.py:398-399 | writing "lawyer" always counts as writing "law" |
| Irvin.LawTag | agents/ag2robert/agent.py:398-399 | the "law" interest is collected exactly when the partner wrote "law" |
| Irvin.Followup1Welfare | agents/ag2robert/agent.py:436-443 | the first follow-up is the welfare reply exactly when welfare came up without cooking, and otherwise the cooking reply |
| Irvin.Followup2NeverBalance | agents/ag2robert/agent.py:445-451 | the second follow-up depends only on hobbies, and its balance arm is unreachable |
| Irvin.Followup3Priority | agents/ag2robert/agent.py:453-459 | the third follow-up prefers fitness, then law, then classes |
| Transcript.ShortName | agents/ag2ana/agent.py:328 | the short name is a space-free prefix of the lowercased name, cut at the first space |
| Transcript.Sorted | agents/ag2ana/agent.py:331 | the two names come back as the same multiset in non-decreasing order |
| Transcript.SortedSymmetric | agents/ag2ana/agent.py:331 | sorting is independent of argument order |
| Transcript.LogFilename | agents/ag2ana/agent.py:334 | the file is in the logs directory and ends in `_conversation.txt` |
| Transcript.LogFilenameShared | agents/ag2ana/agent.py:330-334 | two agents whose short names are derived from their card names append to the same file |
| Transcript.LogSpeaker | agents/ag2ana/agent.py:340-341 | the speaker is rewritten to the persona's name exactly when it is that name or the short name |
| Transcript.LogEntry | agents/ag2ana/agent.py:344 | definition of one log entry; Transcript.ParseLogEntry reads it back |
| Transcript.ParseLogEntry | agents/ag2ana/agent.py:344 | a log entry reads back into its timestamp, speaker and message |
| Transcript.AnaIrvinLogsDiverge | agents/ag2ana/agent.py:327-334 | as written, Ana logs to `irvin_maria_conversation.txt` and Irvin to `ana_irvin_conversation.txt`, two different files |
| Transcript.AnaSideFile | agents/ag2ana/agent.py:327-334 | Ana's file for a partner card "Irvin …" is `irvin_maria_conversation.txt` |
| Transcript.IrvinSideFile | agents/ag2robert/agent.py:326-333 | Irvin's file for a partner card "Ana …" is `ana_irvin_conversation.txt` |
| Transcript.CardShortName | agents/ag2ana/agent.py:328 | a card name's short name is its lowercased first word |
| Transcript.SharedLogFilename | agents/ag2ana/agent.py:327-334 | with both short names derived from the card names, both agents choose one shared file |
| Agent.CheckState | agents/ag2ana/agent.py:134-143 | definition of `check_state`'s active agent; Agent.CheckStateAfterCallback states what it reports after the callback |
| Agent.BeforeModel | agents/ag2ana/agent.py:145-152 | the callback activates the session, keeps an existing id and inserts the fresh one only when missing; an active state is untouched |
| Agent.CheckStateAfterCallback | agents/ag2ana/agent.py:134-152 | after the callback `check_state` reports the stored active agent, or None when none is stored |
| Agent.BeforeModelIdempotent | agents/ag2ana/agent.py:145-152 | running the callback twice is running it once |
| Agent.StartState | agents/ag2ana/agent.py:180-197 | `send_message` sets agent, partner, task id and session id and keeps every other key |
| Agent.ReplyState | agents/ag2ana/agent.py:243-262 | `reply_message` sets the agent, fills the partner only if there is a conversation and no partner yet, keeps the ids, and adds no other key |
| Agent.ReplyStateIdempotent | agents/ag2ana/agent.py:243-262 | replying twice leaves the same state as replying once |
| Agent.ReplyAfterStart | agents/ag2ana/agent.py:243-262 | a reply right after a send changes nothing in the state |
| Agent.SessionActive | agents/ag2ana/agent.py:561-566 | a session stays active exactly in the submitted, working and input-required states |
| Agent.ToolContext.constructor | agents/ag2ana/__main__.py:171-176 | a new tool context holds the given state with both action flags off |
| Agent.ConvertPart | agents/ag2ana/agent.py:596-615 | a text part becomes its text, a data part its dict, a file part a reference keyed by its name, and any other part an "Unknown type" text |
| Agent.ConvertAll | agents/ag2ana/agent.py:589-593 | the parts are converted one for one, in order |
| Agent.ConvertParts | agents/ag2ana/agent.py:589-593 | the conversion loop returns the converted parts and sets both action flags exactly when a file part is present |
| Agent.ConvertAllAppend | agents/ag2ana/agent.py:577-586 | converting a concatenation is concatenating the conversions |
| Agent.HasFileAppend | agents/ag2ana/agent.py:577-586 | a concatenation has a file part exactly when one of its halves has |
| Agent.ExtractResponseText | agents/ag2ana/agent.py:294-311 | no task or no status message gives None; otherwise the result is the first part with non-empty text, and None exactly when no part has text |
| Agent.Infos | agents/ag2ana/agent.py:154-164 | there is one name/description record per registered card, in registration order |
| Agent.PersonaAgent.constructor | agents/ag2ana/agent.py:38-56 | a new agent has no cards |
| Agent.PersonaAgent.RegisterAgentCard | agents/ag2ana/agent.py:69-76 | registering overwrites the card under its name, and the order gains the name only if it is new |
| Agent.PersonaAgent.ListRemoteAgents | agents/ag2ana/agent.py:154-164 | listing gives the card records in dictionary order, and an empty list without cards |
| Agent.PersonaAgent.SendMessage | agents/ag2ana/agent.py:166-227 | an unknown agent is an error with nothing sent; otherwise the state is started, the message is sent with the given ids and the transport's answer or error is returned |
| Agent.PersonaAgent.ReplyMessage | agents/ag2ana/agent.py:229-292 | without saved ids the reply is refused with nothing sent; otherwise it is sent on the saved task and session |
| Agent.PersonaAgent.SendTask | agents/ag2ana/agent.py:509-586 | covers a missing session id, a raised send, no task, a cancelled or failed task, and otherwise the converted message and artifact parts with the session flag and the action flags |
| Agent.ConvertAnswer | agents/ag2ana/agent.py:577-586 | the answer is the converted message parts followed by every artifact's, with the flags set when any part is a file |
| Agent.AfterRecords | agents/ag2robert/__main__.py:309-342 | processing records keeps every card already registered |
| Agent.AfterRecordsCovers | agents/ag2robert/__main__.py:309-342 | every buildable record's name ends up registered, and every new card comes from a buildable record |
| Agent.OrderAfterRecords | agents/ag2robert/__main__.py:309-342 | the roster after processing records keeps the old order as its prefix |
| Agent.RegisterAgentsFromDb | agents/ag2robert/__main__.py:309-342 | the agent's cards afterwards are those of the record-processing definition, and its roster order is the old order followed by each newly registered name in record order |
| Driver.Stage | agents/ag2ana/__main__.py:183-200 | count 0 is the greeting, and counts from 1 on cycle through the three follow-ups |
| Driver.StagePeriodic | agents/ag2ana/__main__.py:191-200 | after the first message the stage repeats every three messages and is never the greeting |
| Driver.DriverReplyText | agents/ag2ana/__main__.py:222-228 | reading the reply raises exactly when the task has a status without message, and otherwise gives the response text |
| Driver.ReplyEntries | agents/ag2ana/__main__.py:237-242 | the reply is logged as one entry exactly when it has text |
| Driver.ConversationKept | agents/ag2ana/__main__.py:203-220 | `send_message` leaves a saved conversation, which a later `reply_message` leaves unchanged |
| Driver.Extended | agents/ag2ana/__main__.py:230-242 | a successful exchange appends the persona's own entry and at most one reply entry to the history |
| Driver.ConsistentExchange | agents/ag2ana/__main__.py:178-220 | under the invariant an exchange completes exactly when the transport answers, and a saved state is reused unchanged |
| Driver.CountedConsistent | agents/ag2ana/__main__.py:278-282 | counting one more message with one or two new entries keeps the invariant |
| Driver.StartedConsistent | agents/ag2ana/__main__.py:243-282 | starting a conversation with its first entries and state keeps the invariant |
| Driver.RegisteredConsistent | agents/ag2ana/__main__.py:179-181 | the lazy creation of a partner's count and history keeps the invariant |
| Driver.Exchanged | agents/ag2ana/__main__.py:178-288 | definition of the dictionaries after one exchange; Driver.ExchangedEffect and Driver.ExchangedConsistent state its meaning |
| Driver.ExchangedConsistent | agents/ag2ana/__main__.py:178-288 | every exchange, completed or failed, keeps the bookkeeping invariant |
| Driver.ExchangedEffect | agents/ag2ana/__main__.py:178-288 | the count rises by one exactly on success, and the history gains the generated message; a failure keeps history and saved states; other partners are untouched |
| Driver.Rounded | agents/ag2ana/__main__.py:152-165 | definition of the dictionaries after one round; Driver.RoundedConsistent states what it keeps |
| Driver.RoundedStep | agents/ag2ana/__main__.py:160-165 | one more roster entry either skips the persona itself or adds one exchange |
| Driver.RoundedConsistent | agents/ag2ana/__main__.py:152-165 | a whole round keeps the invariant and adds only partners from the roster other than the persona |
| Driver.Contact | agents/ag2ana/__main__.py:203-276 | the send or reply succeeds exactly when it is reachable and answered, and returns the reply text and the new tool state |
| Driver.ConversationDriver.constructor | agents/ag2ana/__main__.py:137-144 | the driver starts with empty counts, histories and conversations |
| Driver.ConversationDriver.Exchange | agents/ag2ana/__main__.py:169-288 | the exchange with one partner keeps the bookkeeping invariant, leaves the dictionaries the exchange definition gives and reports whether it completed |
| Driver.ConversationDriver.ExchangeStep | agents/ag2ana/__main__.py:169-288 | the statements of one exchange leave the dictionaries the exchange definition gives |
| Driver.ConversationDriver.Visit | agents/ag2ana/__main__.py:160-166 | a roster name containing the persona's own is skipped and any other is exchanged with, keeping the invariant |
| Driver.ConversationDriver.Round | agents/ag2ana/__main__.py:152-165 | the loop over the roster keeps the invariant and leaves the state of the round definition, which is unchanged without cards |
| TaskManager.ExtractUserQuery | agents/ag2ana/task_manager.py:289-307 | the query is the first part's text when that part is text, and a non-text first part is an error |
| TaskManager.StreamEvents | agents/ag2ana/task_manager.py:192-246 | definition of the events of a run of chunks; the stream lemmas state their count and order |
| TaskManager.StoreAfter | agents/ag2ana/task_manager.py:182-223 | definition of the stored task after a stream; TaskManager.StoreAfterStatus and TaskManager.StoreAfterArtifacts state its status and artifacts |
| TaskManager.HandlerEvents | agents/ag2ana/task_manager.py:164-256 | definition of everything the handler enqueues: the initial working event, the chunk events, then an error event on a failure |
| TaskManager.ChunkOutcome | agents/ag2ana/task_manager.py:196-215 | a non-final chunk keeps the task working; a final one asks for input or completes it, and only completion carries the artifact |
| TaskManager.ChunkEvents | agents/ag2ana/task_manager.py:217-246 | each chunk ends with its status event, preceded by the artifact event only on completion |
| TaskManager.StreamEventsCount | agents/ag2ana/task_manager.py:192-246 | a stream sends one event per chunk plus one per completing chunk |
| TaskManager.ArtifactThenStatus | agents/ag2ana/task_manager.py:225-246 | every artifact event is followed at once by a final completed status carrying the same parts |
| TaskManager.StoreAfterStatus | agents/ag2ana/task_manager.py:182-223 | the stored status after a stream is that of its last chunk, or working when there is none |
| TaskManager.StoreAfterArtifacts | agents/ag2ana/task_manager.py:217-223 | the stream only appends artifacts, one per completing chunk, and keeps the session |
| TaskManager.StreamStep | agents/ag2ana/task_manager.py:192-246 | one more chunk adds its own events and store update |
| TaskManager.HandledOneMore | agents/ag2ana/task_manager.py:192-246 | handling one more chunk extends the store and the queue as the stream definitions say |
| TaskManager.PersonaStreamEvents | agents/ag2ana/agent.py:353-373 | the persona's stream puts its reply only in a working status, then completes with an empty artifact |
| TaskManager.FinalTasks | agents/ag2ana/task_manager.py:48-79 | definition of the store `on_send_task` leaves; TaskManager.RejectedUntouched and TaskManager.AcceptedStored state its meaning |
| TaskManager.SendOutcome | agents/ag2ana/task_manager.py:48-79 | an incompatible request is rejected, a bad query raises, and a good query with an answer gives a completed task with that answer, the request's id and session, and the request message as its history |
| TaskManager.Upserted | agents/ag2ana/task_manager.py:58 | the task exists afterwards; an existing one is kept and a new one is submitted with no artifacts |
| TaskManager.RejectedUntouched | agents/ag2ana/task_manager.py:54-56 | a rejected request changes no task |
| TaskManager.AcceptedStored | agents/ag2ana/task_manager.py:58-79 | an accepted request is stored, and it is completed exactly when the answer is returned |
| TaskManager.NeverAnswered | agents/ag2ana/task_manager.py:54-79 | as written, over Ana's agent the call to `invoke` raises, so an accepted text query gets "Error during on_send_task: …" and its task stays WORKING with its artifacts |
| TaskManager.AnsweredWithInvoke | agents/ag2ana/task_manager.py:54-79 | with an agent that defines `invoke`, an accepted text query is answered with the response, and the stored task is completed with one more artifact |
| TaskManager.AgentTaskManager.constructor | agents/ag2ana/task_manager.py:40-46 | a new manager has no tasks and no events |
| TaskManager.AgentTaskManager.UpsertTask | agents/ag2ana/task_manager.py:58 | the store becomes the upserted one and the queue is untouched |
| TaskManager.AgentTaskManager.UpdateStore | agents/ag2ana/task_manager.py:60-62 | the task's status is replaced and its artifacts extended |
| TaskManager.AgentTaskManager.Enqueue | agents/ag2ana/task_manager.py:187-189 | the event is appended to the queue |
| TaskManager.AgentTaskManager.HandleSendTaskStreaming | agents/ag2ana/task_manager.py:164-256 | a bad query changes nothing; otherwise the store and queue become those of the stream definitions, with the error event on a failure |
| TaskManager.AgentTaskManager.HandleChunks | agents/ag2ana/task_manager.py:192-246 | the chunk loop leaves the stream definitions' store and queue |
| TaskManager.AgentTaskManager.HandleChunk | agents/ag2ana/task_manager.py:195-246 | one chunk updates the store and then enqueues its events |
| TaskManager.AgentTaskManager.OnSendTaskSubscribe | agents/ag2ana/task_manager.py:81-115 | the validation result is returned; a rejected request changes nothing; an accepted one is upserted and streamed, or only upserted with no event when its first part is not text |
| TaskManager.AgentTaskManager.HandleSendTask | agents/ag2ana/task_manager.py:121-162 | the answer completes the stored task with one artifact; the returned task has the request's id and session, that status and artifact, and the request message as its history |
| TaskManager.AgentTaskManager.OnSendTask | agents/ag2ana/task_manager.py:48-79 | the response and the store are those of the reference definition |
| Mint.Classify | dalle-nft-api/main.py:142-150 | a line is classified only under a label it contains |
| Mint.ClassifyPriority | dalle-nft-api/main.py:142-150 | a line gets the first label of the `elif` chain it contains, and none exactly when it contains none |
| Mint.LabelValue | dalle-nft-api/main.py:143-149 | splitting on the label yields a value exactly when the line contains the label |
| Mint.OpenSeaValueAsWritten | dalle-nft-api/main.py:151 | the as-written OpenSea split yields a value exactly when the line has a colon |
| Mint.OpenSeaValue | dalle-nft-api/main.py:151 | the intended OpenSea value exists exactly when the line has a colon |
| Mint.OpenSeaValueAfterColon | dalle-nft-api/main.py:151 | the intended OpenSea value is the stripped text after the first colon |
| Mint.LineValueFails | dalle-nft-api/main.py:141-151 | under either reading of the OpenSea line, a labelled line fails only when it is an OpenSea line without a colon |
| Mint.ParseLine | dalle-nft-api/main.py:141-151 | an unlabelled line changes nothing, and a line raises exactly when its value fails |
| Mint.ParseLines | dalle-nft-api/main.py:141-151 | definition of the parse loop's outcome, for the as-written and the intended reading of the OpenSea line; Mint.LastMatchWins and Mint.ParseFailure state its meaning |
| Mint.LastLine | dalle-nft-api/main.py:141-151 | finds the last line that sets a field, or none when no line does |
| Mint.LastMatchWins | dalle-nft-api/main.py:141-151 | under either reading, each field holds the value of the last line setting it (for OpenSea as written, the text between the first two colons), and it is set exactly when such a line exists |
| Mint.ParseFailure | dalle-nft-api/main.py:141-151 | under either reading, the parse fails exactly when some OpenSea line lacks a colon |
| Mint.NoRecovery | dalle-nft-api/main.py:141-151 | once the parse fails, later lines do not change the outcome |
| Mint.OpenSeaLineShape | action_providers/erc721/erc721_action_provider.py:476 | the provider's OpenSea line has its first colon right after the label text |
| Mint.OpenSeaTruncated | dalle-nft-api/main.py:151 | as written, the parser reads "https" as the OpenSea link of the provider's line |
| Mint.OpenSeaRecovered | dalle-nft-api/main.py:151 | the intended parser reads back the provider's full OpenSea link |
| Mint.ProviderOpenSeaField | dalle-nft-api/main.py:141-151 | when the provider's OpenSea line is the last OpenSea line, the parse as written stores "https" and the intended parse succeeds too and stores the full link |
| Mint.BuildArgs | dalle-nft-api/main.py:120-129 | prompt and destination are always passed, and name and contract only when truthy |
| Mint.Failed | dalle-nft-api/main.py:162-165 | a failure records status "failed" and the error message and keeps every link |
| Mint.Finished | dalle-nft-api/main.py:134-165 | the job completes exactly when the mint returns and its answer parses as written, and otherwise fails with the links kept |
| Mint.CompletedRecordTruncated | dalle-nft-api/main.py:141-160 | a completed record whose last OpenSea line is the provider's stores "https" as its `opensea_url` |
| Mint.CompletedOnReturn | dalle-nft-api/main.py:141-160 | an answer whose OpenSea lines all have a colon completes the job |
| Mint.FailedKeepsLinks | dalle-nft-api/main.py:162-165 | a raised mint only changes status and message |
| Mint.MintService.constructor | dalle-nft-api/main.py:36 | the task table starts empty |
| Mint.MintService.MintDalleNft | dalle-nft-api/main.py:169-208 | the request is queued under a fresh id, and the response names that id and the queued status |
| Mint.MintService.GetNftStatus | dalle-nft-api/main.py:210-233 | an unknown id is a 404, and a known one reports every field of its record |
| Mint.MintService.StartProcessing | dalle-nft-api/main.py:109-111 | the task moves to processing with its message |
| Mint.MintService.ParseResult | dalle-nft-api/main.py:134-151 | the loop over the lines gives the as-written parse definition's outcome |
| Mint.MintService.MintDalleNftTask | dalle-nft-api/main.py:106-165 | the job passes the built arguments and records the finished state of the task, with the links as the program as written parses them |
| Erc721.DefaultNftName | action_providers/erc721/erc721_action_provider.py:368 | the default name is the prefix plus the prompt, cut to 30 characters with an ellipsis |
| Erc721.NftName | action_providers/erc721/erc721_action_provider.py:368 | the caller's name when truthy, else a prefixed name of bounded length |
| Erc721.DefaultNameCollides | action_providers/erc721/erc721_action_provider.py:368 | long prompts that agree on 30 characters get the same default name |
| Erc721.DefaultNameShortPrompt | action_providers/erc721/erc721_action_provider.py:368 | for prompts of at most 30 characters the default name determines the prompt |
| Erc721.Collection | action_providers/erc721/erc721_action_provider.py:370-371 | the collection name and symbol are never empty |
| Erc721.CollectionCheck | action_providers/erc721/erc721_action_provider.py:373-378 | the missing-collection error can never fire |
| Erc721.SupportsFamilyOnly | action_providers/erc721/erc721_action_provider.py:490-500 | support depends only on the protocol family, compared case-sensitively with "evm"; name, chain id, RPC and explorer play no part |
| Erc721.TxUrl | action_providers/erc721/erc721_action_provider.py:104-107 | the explorer link is the explorer without its trailing slash, then `/tx/` and the hash |
| Erc721.TxUrlSlash | action_providers/erc721/erc721_action_provider.py:104-107 | a trailing slash on the explorer does not change the link |
| Erc721.ExplorerTxUrl | action_providers/erc721/erc721_action_provider.py:452-458 | the configured explorer gives `https://sepolia.basescan.org/tx/<hash>` |
| Erc721.NftMetadata | action_providers/erc721/erc721_action_provider.py:572-581 | the metadata carries name, image, a description ending in the prompt, and the three attributes Generator "DALL-E", Prompt with the prompt, and Collection "Xoxo NFT" |
| Erc721.MetadataPrompt | action_providers/erc721/erc721_action_provider.py:574 | two descriptions are equal exactly when the prompts are |
| Erc721.TransferMessage | action_providers/erc721/erc721_action_provider.py:237-244 | the success text appears exactly when the receipt status is 1, and otherwise the failure text with the hash |
| Erc721.DalleSuccessLines | action_providers/erc721/erc721_action_provider.py:466-477 | the answer has eleven lines, ending with the transaction link and the OpenSea link |
| Erc721.MintSubmitted | action_providers/erc721/erc721_action_provider.py:109 | the mint message ends with the transaction link line |

## Left out

- File I/O, logging, `time.sleep`, `asyncio` and the process entry points are not modelled. The log append of `_log_conversation` is reduced to the file name and the entry text.
- Timestamps, `uuid4` ids and `random.choice` are parameters.
- The A2A server library's in-memory task store and SSE queue are a map and one ordered event sequence. Its modality check is the `compatible` field of a request.
- The remote agents' `send_task` is the `Delivery` parameter, which is what it answers or raises. `A2AClient`, the HTTP card resolution in the agent constructors and everything networked are not modelled.
- `on_send_task` calls `self.agent.invoke`, but `AnaAgent` defines only `invoke_streaming`, so as written the call always raises `AttributeError` (TaskManager.NeverAnswered). The outcome of `invoke` is a parameter of `on_send_task`, which generalises to an agent that does define it. The streamed chunks are a parameter of the streaming handler.
- The streaming handler, which the library runs as a background task, runs to completion inside `on_send_task_subscribe`. The background mint job is a separate method, `MintDalleNftTask`, that runs on a queued record after `MintDalleNft` has returned. Interleaving with other requests is not modelled.
- Driver: the driver only ever selects greeting and the three follow-ups, so the ongoing branch of `generate_message` (topic injection, fallbacks, closing) is modelled in Persona but cannot be reached from the driver.
- Agent.RegisterAgentsFromDb: only Irvin's version is modelled. Ana's copy refers to an undefined `maria_agent` and raises on every record.
- AgentRegistry/MongoDB, web3 (contract deployment, `mint`, `transfer`, `get_balance` calls), OpenAI/DALL-E, IPFS/Pinata and `save_artifact` are external services. Only the pure argument and message handling around them is modelled.
- Integers are unbounded. No arithmetic in the core can overflow.
- Text.Lower: only ASCII letters are lowercased, and Unicode case mapping is left out.
- Text.Strip: only ASCII whitespace counts as space.
- Agent.PersonaAgent.SendMessage: the request's metadata (conversation and message ids) and its accepted output modes are not part of the sent request. The same holds for ReplyMessage and SendTask.

## Findings

| source | as written | input that shows it | evidently intended | confidence | as-written member | corrected member |
|---|---|---|---|---|---|---|
| agents/ag2ana/agent.py:327-334 | Ana's short name is hard-coded as "maria" while Irvin derives "ana" from her card | Ana logging with partner "Irvin …"; Irvin logging with partner "Ana …" | both sides of one conversation are appended to the same transcript file | not executed | Transcript.AnaIrvinLogsDiverge | Transcript.SharedLogFilename |
| dalle-nft-api/main.py:151 | the OpenSea link is taken as `line.split(":")[1].strip()` | the provider's line `View on OpenSea (after confirmation): https://testnets.opensea.io/...` yields "https" | the full link after the first colon | not executed | Mint.CompletedRecordTruncated | Mint.ProviderOpenSeaField |
| agents/ag2ana/task_manager.py:68 | `on_send_task` calls `self.agent.invoke`, which `AnaAgent` (agents/ag2ana/agent.py:28-373) does not define | any compatible request whose first part is text | the agent's one-shot answer completes the task | not executed | TaskManager.NeverAnswered | TaskManager.AnsweredWithInvoke |
