# ArquiBot, modelled in Dafny

ArquiBot is a Telegram bot for construction-site management. A webhook
receives each Telegram update and hands the text to a LangGraph agent. The
agent is a language model bound to a handful of business tools.

Purchase orders need human approval. On a normal turn the webhook asks the
graph to stop before the tool node when the model wants
`generar_orden_compra`. While a thread is paused, only the phrases
"aprobar orden" and "cancelar orden" move it on. Any other text gets the
instructions again.

This project models three parts of the bot and proves properties about them:

- `webhook.dfy` (module `Webhook`) models `handle_webhook` of main.py.
  - `HandleSpec` is a pure function of the thread store, the request body
    and the collaborators' behaviour during the call. The collaborators are
    `get_state` and `delete_thread`, either of which may raise, and the
    graph, which completes with some messages and a `next` list or raises.
  - `WebhookServer` is a class holding the store (thread id to history plus
    `next`), the outbox of Telegram messages and the log of graph calls.
  - Its `HandleWebhook` method changes that state step by step, as the
    handler does. It is proved to end in exactly the state `HandleSpec`
    describes.
  - The lemmas state what each branch does.
- `agent_graph.dfy` (module `AgentGraph`) models agent_graph.py.
  - The append-only message state, and `nodo_agente`, which adds one model
    reply and does not store the system prompt.
  - The tool node and `tools_condition`.
  - A `Builder` class whose `add_node`, `add_edge` and
    `add_conditional_edges` methods are replayed in the order of
    agent_graph.py.
  - `compile` and `get_app`.
  - A fuel-bounded run of a compiled graph with static and per-call
    interrupts.
  - The language model and the tools are function-valued inputs.
- `tools.dfy` (module `Tools`) models the deterministic tools of tools.py:
  - the worker-type normalisation;
  - the rate table with its default and the integer total;
  - three templated replies (cost, forecast, order), each with a parser
    that proves the fields read back, and one fixed text (logistics).
- `text.dfy` (module `Text`) models the Python string operations these rely
  on: `str.lower`, `str.strip`, single-character `str.replace` and `str(int)`
  with its decoder.
- `wrappers.dfy` holds the `Option` type.

## Model

| member | source | states |
|---|---|---|
| Text.LowerChar | main.py:78 | one character of `.lower()`: an ASCII or Latin-1 capital becomes the letter 32 code points up, anything else stays; the result is never a capital |
| Text.Lower | tools.py:33 | `.lower()` keeps the length and lower-cases each character in place |
| Text.LowerEqualsPhrase | main.py:78 | a text lower-cases to a lower-case ASCII phrase iff it has the phrase's length and each character is the phrase's letter or its capital |
| Text.LowerNoCapitals | tools.py:33 | a string with no capitals is its own lower-case form |
| Text.LowerByChars | main.py:97 | the lower-case form is determined character by character |
| Text.LowerIdempotent | tools.py:33 | lower-casing twice equals lower-casing once |
| Text.TrimLeft | tools.py:33 | `lstrip()` drops only white space (Python's `isspace` set) from the front, keeps a suffix of the input, and the kept part does not start with white space |
| Text.TrimRight | tools.py:33 | `rstrip()` drops only white space from the end, keeps a prefix of the input, and the kept part does not end with white space |
| Text.Strip | tools.py:33 | `strip()` is no longer than its input and neither end of the result is white space |
| Text.StripNoCapitals | tools.py:33 | `strip()` of a string without capitals has none |
| Text.TrimLeftOf | tools.py:33 | `lstrip()` of white space followed by a text that does not start with white space is that text |
| Text.TrimRightOf | tools.py:33 | `rstrip()` of a text that does not end with white space, followed by white space, is that text |
| Text.StripOf | tools.py:33 | `strip()` returns exactly the core of a string padded with white space on both sides |
| Text.StripTrimmed | tools.py:33 | a string with no white space at either end is its own `strip()` |
| Text.ReplaceChar | tools.py:33 | `.replace(a, b)` of single characters keeps the length and swaps exactly the occurrences of `a` for `b` |
| Text.ReplaceAbsent | tools.py:33 | replacing a character that does not occur changes nothing |
| Text.NatToDecimal | main.py:60 | the decimal text of a natural number is non-empty, all digits, and has no leading zero |
| Text.IntToDecimal | main.py:60 | `str(chat_id)` is non-empty and made of digits and a minus sign |
| Text.DecimalRoundTrip | main.py:60 | the digits of `n` denote `n` |
| Text.ParseIntRoundTrip | main.py:60 | reading back `str(i)` gives `i` |
| Text.IntToDecimalInjective | main.py:60 | two integers print alike only if they are equal |
| Text.NoPaddedDecimal | main.py:60 | `str(i)` never pads: a text with a leading zero and more than one character, or "-0", is the decimal text of no integer |
| Text.DecimalHasNoSeparator | tools.py:37 | the decimal text of an integer contains no character other than digits and the minus sign |
| Tools.NormalizeWorkerType | tools.py:33 | computes `tipo_trabajador.lower().strip().replace('ó', 'o')`; NormalizedForm, NormalizeIdempotent and the two worked examples state what it promises |
| Tools.NormalizedForm | tools.py:33 | a normalised worker type has no capitals and no `ó`, has no white space at either end, and is no longer than the input |
| Tools.NormalizedLetters | tools.py:33 | a normalised worker type contains no capital and no `ó` |
| Tools.NormalizedEnds | tools.py:33 | a normalised worker type has no white space at either end and is no longer than the input |
| Tools.FoldKeepsEnds | tools.py:33 | folding `ó` into `o` does not put white space at either end |
| Tools.NormalizeIdempotent | tools.py:33 | normalising a normalised worker type changes nothing |
| Tools.NormalizePaddedAccented | tools.py:33 | `" Peón "` normalises to `"peon"` |
| Tools.NormalizeCapitalAccented | tools.py:33 | `"PEÓN"` normalises to `"peon"` |
| Tools.Rate | tools.py:32-35 | looks the normalised type up in the three-entry `tarifas` table with 20 as the default; RateTable states every value |
| Tools.CrewSize | tools.py:29 | `cantidad_personas`, with 1 when the argument is omitted; CostReplyRoundTrip shows it in the reply |
| Tools.LaborTotal | tools.py:33-36 | `tarifa * horas * cantidad_personas` on the normalised type; LaborTotalZero, LaborTotalMonotone and LaborTotalBySpelling state its promises |
| Tools.RateTable | tools.py:32-35 | the rate is 25 for "oficial de primera", 15 for "peon", 35 for "capataz", and 20 for every other normalised type; it is always positive |
| Tools.TotalZero | tools.py:36 | the product is zero when the hours or the crew size is zero |
| Tools.LaborTotalZero | tools.py:36 | no hours or no people cost nothing, whatever the worker type |
| Tools.TotalMonotone | tools.py:36 | with a positive rate the product never falls as non-negative hours and crew grow |
| Tools.MulMonotone | tools.py:36 | multiplying by a non-negative factor preserves order |
| Tools.LaborTotalMonotone | tools.py:36 | for one worker type, more hours or more people never cost less, and the cost is never negative |
| Tools.LaborTotalBySpelling | tools.py:33-36 | worker types that normalise alike cost alike |
| Tools.CostReplyFields | tools.py:37 | the crew size, the worker type as given, the hours and the total all read back out of the cost reply, whatever text the worker type holds |
| Tools.CalcularCostoManoObra | tools.py:29-37 | `calcular_costo_mano_obra`: the reply f-string over the crew size, the raw type, the hours and LaborTotal; CostReplyRoundTrip states what it reports |
| Tools.CostReplyRoundTrip | tools.py:29-37 | `calcular_costo_mano_obra` reports the crew size (1 when omitted), the un-normalised worker type, the hours and `rate * hours * crew` |
| Tools.ConsultarClimaObra | tools.py:41-44 | `consultar_clima_obra`: the fixed sunny forecast naming the place; ForecastRoundTrip and ForecastInjective state its promises |
| Tools.ForecastRoundTrip | tools.py:41-44 | the forecast names exactly the place it was asked for |
| Tools.ForecastInjective | tools.py:44 | different places get different forecasts |
| Tools.CalcularLogisticaEntrega | tools.py:48-51 | `calcular_logistica_entrega`: the fixed 45 km, 55 minute estimate; LogisticsIgnoresRoute states that it ignores the route |
| Tools.LogisticsIgnoresRoute | tools.py:48-51 | the route estimate is the same for every origin and destination |
| Tools.GenerarOrdenCompra | tools.py:55-60 | `generar_orden_compra`: the order f-string over the quantity, material and printed total with transaction id #99281; OrderRoundTrip states what it records |
| Tools.OrderRoundTrip | tools.py:55-60 | every order ends with ". ID Transacción: #99281.", and its quantity, material and printed total read back out of it |
| AgentGraph.AddMessages | agent_graph.py:30-31 | the reducer keeps the old history as a prefix and puts the update after it |
| AgentGraph.NodoAgente | agent_graph.py:47-59 | `nodo_agente`: one model call on the system prompt followed by the history, returned as a one-message update; AgentTurn and AgentTurnAppendsOne state its promises |
| AgentGraph.AgentTurn | agent_graph.py:59 | an agent node returns exactly one message, a model reply |
| AgentGraph.AgentTurnAppendsOne | agent_graph.py:47-59 | an agent turn adds exactly one message, the model's answer to the prompt followed by the history, and the system prompt is in the new state only if it already was |
| AgentGraph.RunToolCalls | agent_graph.py:65 | the tool node runs iff the last message is a model reply, and returns one tool message per requested call, in order, tagged with the call's id |
| AgentGraph.ToolsCondition | agent_graph.py:69 | `tools_condition` fails on an empty state and routes to the tools iff the last message requests a tool |
| AgentGraph.Next | agent_graph.py:67-70 | the next node in a well-formed graph is a registered node or END |
| AgentGraph.Builder.constructor | agent_graph.py:62 | a new builder has no nodes, edges or branches |
| AgentGraph.Builder.AddNode | agent_graph.py:64-65 | adding a node succeeds iff the name is neither START nor END nor taken, and changes only the node map |
| AgentGraph.Builder.AddEdge | agent_graph.py:67 | adding an edge succeeds iff it neither leaves END nor enters START and (a restriction of this model, not of LangGraph) its source has no plain edge yet, and changes only the edge map |
| AgentGraph.Builder.AddConditionalEdges | agent_graph.py:69 | adding a branch succeeds iff the source has none yet, and changes only the branch map |
| AgentGraph.Builder.Compile | agent_graph.py:95-98 | compiling yields the graph iff it is well formed in this model's sense: LangGraph's checks on edge ends and interrupts, plus four rules of the model's own (START has a plain edge; branches leave registered nodes only; every path map names both routes; no node has both a plain edge and a branch) |
| AgentGraph.BuildArquiBot | agent_graph.py:62-70 | each builder call of agent_graph.py is accepted, and together they yield the two-node graph with START to agente, a branch from agente and herramientas back to agente |
| AgentGraph.GetApp | agent_graph.py:83-99 | the built graph compiles, has ArquiBot's shape and has no static interrupt point |
| AgentGraph.ArquiBotGraphShape | agent_graph.py:62-70 | the compiled graph has ArquiBot's shape and an empty `interrupt_before` |
| AgentGraph.ArquiBotSteps | agent_graph.py:67-70 | START always goes to agente; herramientas always goes back to agente; agente goes to herramientas iff its last message requests a tool, and to END otherwise |
| AgentGraph.Step | agent_graph.py:30-31 | one superstep only appends to the state, never continues at a node where it must stop, and stops only before a node an interrupt names |
| AgentGraph.Run | agent_graph.py:62-70 | runs supersteps of the built graph from a node until END, a stop before an interrupted node, a failure or the recursion limit; RunAppendOnly, StopsOnlyAtInterrupts and FinishedEndsWithAgentReply state its promises |
| AgentGraph.Invoke | main.py:121-126 | the compiled app's `invoke`: the input messages are added to the thread's history and the run starts at START; NoStopWithoutCallInterrupts and GateStopsBeforeOrder state its promises |
| AgentGraph.RunAppendOnly | agent_graph.py:30-31 | every run, however it ends, keeps the history it started from as a prefix |
| AgentGraph.StopsOnlyAtInterrupts | main.py:125 | a run stops only before a node that a static or per-call interrupt names |
| AgentGraph.NoStopWithoutCallInterrupts | agent_graph.py:95-98 | with no static interrupts, as the app is compiled, a call without per-call interrupts never stops, so pausing comes only from the webhook's interrupt |
| AgentGraph.GateStopsBeforeOrder | main.py:118-126 | under the webhook's gate a stop is before herramientas, with a pending model reply that calls `generar_orden_compra`, so the order has not been generated |
| AgentGraph.ArquiBotFinishingStep | agent_graph.py:69 | in ArquiBot's graph, a step that finishes ends on a model reply that requests no tool |
| AgentGraph.FinishedEndsWithAgentReply | agent_graph.py:67-70 | in ArquiBot's graph, a run that finishes ends on a model reply that requests no tool, so every tool result is followed by another agent turn |
| Webhook.IsPaused | main.py:74-76 | a snapshot counts as paused when its `next` is non-empty and starts with `__interrupt__`; NodeNameStopIsNotPaused and PauseComesFromGraph state its consequences |
| Webhook.Decide | main.py:74-109 | the branch taken: the graph when not paused, otherwise approve, cancel or reprompt by the lower-cased text; DecisionCases states all four cases |
| Webhook.DecisionCases | main.py:74-109 | the message goes to the graph iff the thread is not paused; while paused it resumes iff the text spells "aprobar orden" letter for letter in either case, cancels iff it so spells "cancelar orden", and otherwise reprompts |
| Webhook.UpperCaseCommands | main.py:78 | while paused, "APROBAR ORDEN" resumes and "Cancelar Orden" cancels |
| Webhook.LowerApproveCommand | main.py:78 | "APROBAR ORDEN" lower-cases to "aprobar orden" |
| Webhook.LowerCancelCommand | main.py:97 | "Cancelar Orden" lower-cases to "cancelar orden" |
| Webhook.NearMissesReprompt | main.py:103-109 | while paused, padded commands, the empty text and a partial phrase all reprompt, because nothing is stripped |
| Webhook.IgnoresUpdatesWithoutMessage | main.py:52-53 | an update without a message answers ok, sends nothing, calls no graph and changes no thread |
| Webhook.RejectsUnparsableBody | main.py:46-49 | a body that is not JSON answers HTTP 400 and changes nothing |
| Webhook.ThreadKeyIsChatId | main.py:56-61 | only the thread `str(chat_id)` can change, every graph call names it, every reply goes to that chat, and a missing text is handled as "" |
| Webhook.DistinctChatsDistinctThreads | main.py:60 | different chats use different threads |
| Webhook.MissingChatIdRaises | main.py:56 | a message without a chat id raises before anything is sent, stored or invoked |
| Webhook.HandleSpec | main.py:44-142 | `handle_webhook` as a function of the store, the body and the collaborators, giving the new store, the messages sent, the graph calls and the response; WebhookServer.HandleWebhook is proved equal to it and the lemmas below state its promises |
| Webhook.ResumeSpec | main.py:78-95 | the approval branch: notice, one invoke of "ORDEN APROBADA" with no interrupt, then the last message or a raise; ApprovalSendsNoticeThenResult and ApprovalWithFailingGraph state its promises |
| Webhook.CancelSpec | main.py:97-101 | the cancellation branch: delete the thread, then the notice, or a raise; CancellationDeletesThread and CancellationWithFailingDelete state its promises |
| Webhook.ForwardSpec | main.py:118-142 | the normal branch: one gated invoke, then the critical-action prompt or the last message, or a raise; NormalTurn and NormalTurnWithFailingGraph state its promises |
| Webhook.ApprovalSendsNoticeThenResult | main.py:78-95 | paused, an approval sends the approval notice, then invokes the graph once, with the single message "ORDEN APROBADA" and no interrupt, then sends that invocation's last message: exactly two messages, in that order; it stores the extended history |
| Webhook.ApprovalWithFailingGraph | main.py:86-90 | if the resumed graph raises, only the approval notice has been sent and the response is an error; the thread keeps what the checkpointer saved before the raise (nothing, or the history plus "ORDEN APROBADA" plus the completed supersteps with their `next`), and stays paused iff that `next` starts with the marker |
| Webhook.CancellationDeletesThread | main.py:97-101 | paused, a cancellation deletes the thread, sends only the cancellation notice, calls no graph and answers ok |
| Webhook.CancellationWithFailingDelete | main.py:99 | if `delete_thread` raises, nothing is sent and the store is unchanged |
| Webhook.CancelledThreadStartsAfresh | main.py:69-76 | after a cancellation, the next message on that chat finds no checkpoint, takes the normal path and starts a fresh history |
| Webhook.OtherTextReprompts | main.py:103-109 | paused, any other text sends exactly the reprompt, calls no graph and changes no thread |
| Webhook.NormalTurn | main.py:118-140 | not paused, including when `get_state` raises, the text goes to the graph once with the purchase-order gate; afterwards a non-empty `next` sends only the critical-action prompt and an empty one only the last message |
| Webhook.NormalTurnWithFailingGraph | main.py:121-126 | a normal turn whose graph raises sends nothing and answers with an error; the thread keeps what the checkpointer saved before the raise (nothing, or the prior history plus the user's message plus the completed supersteps with their `next`) |
| Webhook.NodeNameStopIsNotPaused | main.py:74-76 | a `next` that starts with a node name rather than "__interrupt__" is not a pause: an approval typed then goes to the graph as ordinary text |
| Webhook.CompletedBranchesAnswerOk | main.py:95-142 | every branch that runs to the end answers `{"status": "ok"}` |
| Webhook.PauseComesFromGraph | main.py:121-126 | a thread that was not paused becomes paused only because the graph saved a `next` (on completion or before a raise) that starts with the marker |
| Webhook.InvokedKeepsStoreValid | main.py:121-126 | storing a checkpoint keeps every history in the store non-empty |
| Webhook.CommittedKeepsStoreValid | main.py:121-126 | whatever an invocation commits, completed or raised, keeps every history in the store non-empty |
| Webhook.SavedCheckpoint | main.py:121-126 | the checkpoint saved before a raise holds the prior history, then the input, then the progress made, with the saved `next` |
| Webhook.HandleKeepsStoreValid | main.py:44-142 | every call keeps every history in the store non-empty |
| Webhook.ForeignThreadsUntouched | main.py:60-61 | a thread saved under an id that `str` of no integer yields (for example one with a padded number such as "007", or one another client of the checkpointer wrote) is never changed by any call |
| Webhook.WebhookServer.constructor | main.py:19-21 | the server attaches to the checkpoints already saved, with nothing sent and no graph call made yet |
| Webhook.WebhookServer.Send | main.py:30-40 | sending appends one message to the outbox and changes nothing else |
| Webhook.WebhookServer.GetState | main.py:69-72 | `get_state` yields the thread's checkpoint, or nothing when there is none or the call raises |
| Webhook.WebhookServer.StoreInvocation | main.py:121-126 | an invocation is logged; when the graph completes, the input and the produced messages are appended to the thread and the last message's content is returned; when it raises, the thread holds what the checkpointer saved before the raise, if anything |
| Webhook.WebhookServer.DeleteThread | main.py:99 | deleting removes the thread's key unless the call raises |
| Webhook.WebhookServer.ApproveOrder | main.py:78-95 | the approval branch ends in the store, outbox, call log and response `HandleSpec` gives |
| Webhook.WebhookServer.CancelOrder | main.py:97-101 | the cancellation branch ends in the store, outbox, call log and response `HandleSpec` gives |
| Webhook.WebhookServer.ForwardTurn | main.py:118-142 | the normal branch ends in the store, outbox, call log and response `HandleSpec` gives |
| Webhook.WebhookServer.HandleWebhook | main.py:44-142 | handling one update, on any store, ends in exactly the store, outbox, call log and response `HandleSpec` gives, and keeps histories non-empty when they were |

## Left out

- HTTP, FastAPI and uvicorn (main.py:1-5, 27, 144-153) are transport. A request body becomes the `Body` datatype, and an escaping exception becomes the `Raised` response.
- The body of `send_telegram_message` (main.py:30-40) is an HTTP POST. It is modelled as appending to the outbox, which always succeeds. A non-ok reply from Telegram only prints. A connection error or timeout makes `requests.post` raise; nothing catches it, so it escapes `handle_webhook` and cuts the branch short (in the approval branch, before the graph is invoked). Such transport failures are not modelled.
- Language-model inference (agent_graph.py:43-44, 59) is the function `llm` in `AgentGraph`, an input. Which tool the model picks is that function's business.
- The webhook treats one `invoke` of the graph as an abstract step (`GraphOutcome`) rather than calling `AgentGraph.Invoke`. A raise carries what LangGraph's checkpointer committed before it (`Crashed(Some(checkpoint))`), or nothing if it raised before the input was saved (`Crashed(None)`); which supersteps completed is left to that outcome. What a stop under the webhook's gate means is proved in `AgentGraph.GateStopsBeforeOrder`.
- The Postgres checkpointer, the connection pool and `checkpointer.setup()` (agent_graph.py:74-89) are replaced by the map `WebhookServer.threads`.
- `pool.delete_thread` (main.py:99) is "remove the key, or raise". Whether it raises is an input.
- The second `get_state` after a normal turn (main.py:129) is outside any `try`. It is modelled as reading the store that the invocation just wrote, and it never raises.
- The JSON shape of an update is reduced to what the handler reads: `message`, `chat.id` and `text`. A `text` that is not a string is not modelled.
- `consultar_base_conocimiento` (tools.py:19-25) is an embedding search over PGVector, a foreign call. It is not part of this model.
- The float `costo_total` (tools.py:55, 60) is taken as the text Python prints for it, since floating-point formatting is not modelled.
- Text.Lower: covers the ASCII and Latin-1 capitals. The rest of Unicode case mapping is not modelled, including letters that change length.
- Text.LowerChar: leaves every character outside ASCII and Latin-1 unchanged, where Python lowers other Unicode capitals too.
- Tools.NormalizedForm: its bound `|r| <= |tipo|` relies on lower-casing never changing the length, which holds for the modelled characters but not for every Unicode one.
- AgentGraph.AddMessages: models `add_messages` for messages with fresh ids only. Replacing a message by id is not modelled, because nothing in the bot updates an old message.
- AgentGraph.Run: LangGraph's recursion limit is modelled as a fuel bound, and its exact step accounting is not reproduced. Fan-out edges and parallel supersteps are not modelled, because this graph has none.
- AgentGraph.Builder.Compile: refuses some graphs LangGraph compiles — a conditional entry from START instead of a plain START edge, and a branch whose path map leaves out a route (LangGraph fails only when that route is taken). The bot's graph has neither, and the model cannot run a missing route.
- AgentGraph.Builder.AddEdge: refuses a second plain edge from one source, and `AgentGraph.WellFormed` refuses a node with both a plain edge and a branch. LangGraph's `StateGraph` accepts both, fanning out to several successors; the model follows one successor per step, and the bot's graph needs neither.
- AgentGraph.Step: the per-call interrupt is given the meaning the webhook intends: stop before the node when the pending model reply calls one of the named tools. No LangGraph API is modelled for it (see the notes below).
- `send_email` is imported at agent_graph.py:18 and listed at agent_graph.py:40, but tools.py does not define it. As written, the `from tools import (...)` at agent_graph.py:12-19 raises `ImportError`, so importing agent_graph from main.py:9 (or test_agent.py:1) fails before any handler or graph exists. The model describes the program as if that import succeeded: it has no tool of that name, and its tool runner is an arbitrary function. The system prompt at agent_graph.py:53-56 still tells the model to call `send_email` right after the gated tool. That text is kept verbatim in `AgentGraph.SystemPrompt`.
- ingest.py, Test_scripts/ingest.py, test_retrieval.py and test_agent.py are loading scripts and interactive demos. They are not part of this model.

## Notes

- The approval phrases are compared after `.lower()` only. Nothing is stripped, so " aprobar orden" reprompts (`Webhook.NearMissesReprompt`). The model follows the code here, not any looser reading.
- A thread counts as paused only when its snapshot's `next` starts with "__interrupt__" (main.py:76). LangGraph lists pending node names in `next`, such as "herramientas". `Webhook.NodeNameStopIsNotPaused` shows what the code then does: an approval typed after such a stop goes to the graph as ordinary text.
- main.py:125 passes `interrupt_before` a list holding a `(node, {"tools": [...]})` tuple, and LangGraph compares list entries with node names. Whether such an entry ever matches is open. The model gives it the intended meaning (see AgentGraph.Step above).
- A psycopg `ConnectionPool` has no `delete_thread` method, so the cancellation branch may raise in practice. The model keeps that path (`Webhook.CancellationWithFailingDelete`).
