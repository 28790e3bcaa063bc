/**
 * The Telegram webhook of main.py: the human-approval gate in front of the
 * purchase-order tool. A per-thread store of checkpoints, the messages sent
 * back to Telegram and the calls made to the agent graph are the server's
 * state; the graph's answer, a failing `get_state` and a failing
 * `delete_thread` are inputs of each call.
 */
module Webhook {
  import opened Wrappers
  import opened Text
  import AgentGraph

  // ----- the store and what the gate reads from it -------------------------

  /** A thread's checkpoint: its history and the `next` tuple of its snapshot. */
  datatype ThreadState = ThreadState(messages: AgentGraph.Messages, next: seq<string>)

  type Store = map<string, ThreadState>

  function Lookup(threads: Store, threadId: string): Option<ThreadState>
  {
    if threadId in threads then Some(threads[threadId]) else None
  }

  const InterruptMarker := "__interrupt__"
  const ApprovePhrase := "aprobar orden"
  const CancelPhrase := "cancelar orden"

  /** The human message that resumes an approved order. */
  const ApprovedInput := "ORDEN APROBADA"

  const ApprovedNotice := "\U{2705} **ORDEN APROBADA!** Reanudando el proceso de compra..."
  const CancelledNotice := "\U{274C} **ORDEN CANCELADA.** El proceso ha sido terminado y la memoria limpiada."
  const PendingReprompt :=
    "\U{1F6A8} **ATENCIÓN: Proceso de APROBACIÓN PENDIENTE.**\nPor favor, escribe:\n"
    + "- `APROBAR ORDEN` para continuar con la compra.\n- `CANCELAR ORDEN` para terminar la solicitud."
  const CriticalActionPrompt :=
    "\U{1F6A8} **ACCIÓN CRÍTICA DETECTADA: ORDEN DE COMPRA.**\n"
    + "El Agente ArquiBot ha decidido usar la función de compra. Se requiere su aprobación.\n"
    + "Por favor, envíe `APROBAR ORDEN` o `CANCELAR ORDEN`."

  /** The thread counts as paused when its snapshot's `next` starts with the interrupt marker. */
  predicate IsPaused(state: Option<ThreadState>) {
    state.Some? && |state.value.next| > 0 && state.value.next[0] == InterruptMarker
  }

  /** The four ways a message can be handled. */
  datatype Decision = Resume | Cancel | Reprompt | Forward

  /** The branch decision: only `.lower()` is applied to the text, nothing is stripped. */
  function Decide(state: Option<ThreadState>, text: string): Decision
  {
    if !IsPaused(state) then Forward
    else if Lower(text) == ApprovePhrase then Resume
    else if Lower(text) == CancelPhrase then Cancel
    else Reprompt
  }

  /**
   * While paused, a text resumes exactly when it spells "aprobar orden" with
   * each letter in either case, and cancels exactly when it so spells
   * "cancelar orden"; everything else reprompts, and nothing but a pause
   * leaves the normal path.
   */
  lemma DecisionCases(state: Option<ThreadState>, text: string)
    ensures Decide(state, text) == Forward <==> !IsPaused(state)
    ensures Decide(state, text) == Resume <==> IsPaused(state) && SpellsCaseless(text, ApprovePhrase)
    ensures Decide(state, text) == Cancel <==> IsPaused(state) && SpellsCaseless(text, CancelPhrase)
    ensures Decide(state, text) == Reprompt <==>
      IsPaused(state) && !SpellsCaseless(text, ApprovePhrase) && !SpellsCaseless(text, CancelPhrase)
  {
    LowerEqualsPhrase(text, ApprovePhrase);
    LowerEqualsPhrase(text, CancelPhrase);
  }

  /** The upper-case commands the prompts ask for are recognised. */
  lemma UpperCaseCommands(state: Option<ThreadState>)
    requires IsPaused(state)
    ensures Decide(state, "APROBAR ORDEN") == Resume
    ensures Decide(state, "Cancelar Orden") == Cancel
  {
    LowerApproveCommand();
    LowerCancelCommand();
  }

  lemma LowerApproveCommand()
    ensures Lower("APROBAR ORDEN") == ApprovePhrase
  {
    LowerByChars("APROBAR ORDEN", ApprovePhrase);
  }

  lemma LowerCancelCommand()
    ensures Lower("Cancelar Orden") == CancelPhrase
  {
    LowerByChars("Cancelar Orden", CancelPhrase);
  }

  /** Padding, a missing text and partial phrases are never taken for a command. */
  lemma NearMissesReprompt(state: Option<ThreadState>)
    requires IsPaused(state)
    ensures Decide(state, " aprobar orden") == Reprompt
    ensures Decide(state, "cancelar orden ") == Reprompt
    ensures Decide(state, "") == Reprompt
    ensures Decide(state, "aprobar") == Reprompt
  {
    DecisionCases(state, " aprobar orden");
    DecisionCases(state, "cancelar orden ");
    DecisionCases(state, "");
    DecisionCases(state, "aprobar");
    assert " aprobar orden"[0] != ApprovePhrase[0];
    assert "cancelar orden "[0] != ApprovePhrase[0];
  }

  // ----- one webhook call --------------------------------------------------

  /** `message["chat"]`. */
  datatype Chat = Chat(id: Option<int>)

  /** `data["message"]`: its chat, and its text when it has one. */
  datatype TelegramMessage = TelegramMessage(chat: Option<Chat>, text: Option<string>)

  /** The request body: not JSON, or a JSON update that may carry a message. */
  datatype Body = Unparsable | Update(message: Option<TelegramMessage>)

  /** `{"status": "ok"}`, the HTTP 400 for a bad body, or an exception that escapes the handler. */
  datatype Response = StatusOk | BadRequest | Raised

  /** What the checkpointer holds for a run: the messages produced so far and the pending `next`. */
  datatype Checkpoint = Checkpoint(produced: AgentGraph.Messages, next: seq<string>)

  /**
   * What the agent graph does with one `invoke`: it completes, having
   * appended messages and reporting `next`; or it raises, either before the
   * checkpointer saved anything (`None`) or after it saved the input and the
   * supersteps completed so far (`Some`).
   */
  datatype GraphOutcome = Completed(produced: AgentGraph.Messages, next: seq<string>) | Crashed(saved: Option<Checkpoint>)

  /** The collaborators' behaviour during one call. */
  datatype Collaborators = Collaborators(getStateFails: bool, graph: GraphOutcome, deleteFails: bool)

  /** One call of `app_graph.invoke`: the thread, the human message, the interrupts passed. */
  datatype Invocation = Invocation(threadId: string, input: AgentGraph.Message, interrupts: seq<AgentGraph.Interrupt>)

  /** One `send_telegram_message`. */
  datatype Outgoing = Outgoing(chatId: int, text: string)

  /** Everything one call changes and answers. */
  datatype Outcome = Outcome(threads: Store, sent: seq<Outgoing>, calls: seq<Invocation>, response: Response)

  /** The checkpoint of a thread after an `invoke`: the input then what the graph produced are appended. */
  function Invoked(threads: Store, threadId: string, input: AgentGraph.Message, produced: AgentGraph.Messages, next: seq<string>): Store
  {
    var history := if threadId in threads then threads[threadId].messages else [];
    threads[threadId := ThreadState(AgentGraph.AddMessages(history, [input] + produced), next)]
  }

  /** The store after an `invoke`, whether it completed or raised: whatever the checkpointer saved. */
  function Committed(threads: Store, threadId: string, input: AgentGraph.Message, outcome: GraphOutcome): Store
  {
    match outcome
    case Completed(produced, next) => Invoked(threads, threadId, input, produced, next)
    case Crashed(None) => threads
    case Crashed(Some(c)) => Invoked(threads, threadId, input, c.produced, c.next)
  }

  /** The `next` the graph left in the thread's snapshot, if it saved one. */
  function ReportedNext(outcome: GraphOutcome): Option<seq<string>>
  {
    match outcome
    case Completed(_, next) => Some(next)
    case Crashed(None) => None
    case Crashed(Some(c)) => Some(c.next)
  }

  /** `final_output["messages"][-1].content`. */
  function LastContent(messages: AgentGraph.Messages): string
    requires |messages| > 0
  {
    messages[|messages| - 1].content
  }

  /** The approval branch: notice, resume without interrupts, then the last message. */
  function ResumeSpec(threads: Store, chatId: int, env: Collaborators): Outcome
  {
    var threadId := IntToDecimal(chatId);
    var notice := [Outgoing(chatId, ApprovedNotice)];
    var call := Invocation(threadId, AgentGraph.HumanMessage(ApprovedInput), []);
    match env.graph
    case Crashed(_) => Outcome(Committed(threads, threadId, call.input, env.graph), notice, [call], Raised)
    case Completed(produced, next) =>
      var after := Invoked(threads, threadId, call.input, produced, next);
      Outcome(after, notice + [Outgoing(chatId, LastContent(after[threadId].messages))], [call], StatusOk)
  }

  /** The cancellation branch: delete the thread, then the notice. */
  function CancelSpec(threads: Store, chatId: int, env: Collaborators): Outcome
  {
    if env.deleteFails then Outcome(threads, [], [], Raised)
    else Outcome(threads - {IntToDecimal(chatId)}, [Outgoing(chatId, CancelledNotice)], [], StatusOk)
  }

  /** The normal branch: invoke with the purchase-order gate, then prompt or answer. */
  function ForwardSpec(threads: Store, chatId: int, text: string, env: Collaborators): Outcome
  {
    var threadId := IntToDecimal(chatId);
    var call := Invocation(threadId, AgentGraph.HumanMessage(text), [AgentGraph.Gate]);
    match env.graph
    case Crashed(_) => Outcome(Committed(threads, threadId, call.input, env.graph), [], [call], Raised)
    case Completed(produced, next) =>
      var after := Invoked(threads, threadId, call.input, produced, next);
      var reply := if |next| > 0 then CriticalActionPrompt else LastContent(after[threadId].messages);
      Outcome(after, [Outgoing(chatId, reply)], [call], StatusOk)
  }

  /** The message's text, with a missing one read as the empty string. */
  function TextOf(msg: TelegramMessage): string
  {
    if msg.text.Some? then msg.text.value else ""
  }

  /** What `get_state` yields for the thread of `chatId`. */
  function Snapshot(threads: Store, chatId: int, env: Collaborators): Option<ThreadState>
  {
    if env.getStateFails then None else Lookup(threads, IntToDecimal(chatId))
  }

  /** `handle_webhook`, as a function of the store, the body and the collaborators. */
  function HandleSpec(threads: Store, body: Body, env: Collaborators): Outcome
  {
    match body
    case Unparsable => Outcome(threads, [], [], BadRequest)
    case Update(None) => Outcome(threads, [], [], StatusOk)
    case Update(Some(msg)) =>
      if msg.chat.None? || msg.chat.value.id.None? then Outcome(threads, [], [], Raised)
      else
        var chatId := msg.chat.value.id.value;
        match Decide(Snapshot(threads, chatId, env), TextOf(msg))
        case Resume => ResumeSpec(threads, chatId, env)
        case Cancel => CancelSpec(threads, chatId, env)
        case Reprompt => Outcome(threads, [Outgoing(chatId, PendingReprompt)], [], StatusOk)
        case Forward => ForwardSpec(threads, chatId, TextOf(msg), env)
  }

  /** The body of an update that carries a message from chat `chatId`. */
  function MessageFrom(chatId: int, text: Option<string>): Body
  {
    Update(Some(TelegramMessage(Some(Chat(Some(chatId))), text)))
  }

  /**
   * What the webhook keeps true of the store: every history it holds is
   * non-empty. Keys are not constrained: the checkpointer may also hold
   * threads other clients wrote, under any id.
   */
  predicate ValidStore(threads: Store) {
    forall t :: t in threads ==> |threads[t].messages| > 0
  }

  // ----- properties of one call --------------------------------------------

  /** An update without a message is acknowledged and does nothing else. */
  lemma IgnoresUpdatesWithoutMessage(threads: Store, env: Collaborators)
    ensures HandleSpec(threads, Update(None), env) == Outcome(threads, [], [], StatusOk)
  {
  }

  /** A body that is not JSON is answered with HTTP 400 and does nothing else. */
  lemma RejectsUnparsableBody(threads: Store, env: Collaborators)
    ensures HandleSpec(threads, Unparsable, env) == Outcome(threads, [], [], BadRequest)
  {
  }

  /**
   * A message is filed under the decimal text of its chat id: only that
   * thread can change, every graph call names it and every reply goes to
   * that chat; a missing text is the empty string.
   */
  lemma ThreadKeyIsChatId(threads: Store, chatId: int, text: Option<string>, env: Collaborators)
    ensures var o := HandleSpec(threads, MessageFrom(chatId, text), env);
      && (forall t :: t != IntToDecimal(chatId) ==> Lookup(o.threads, t) == Lookup(threads, t))
      && (forall k :: 0 <= k < |o.calls| ==> o.calls[k].threadId == IntToDecimal(chatId))
      && (forall k :: 0 <= k < |o.sent| ==> o.sent[k].chatId == chatId)
    ensures text == None ==> HandleSpec(threads, MessageFrom(chatId, text), env) == HandleSpec(threads, MessageFrom(chatId, Some("")), env)
  {
  }

  /** Different chats are different threads. */
  lemma DistinctChatsDistinctThreads(a: int, b: int)
    requires a != b
    ensures IntToDecimal(a) != IntToDecimal(b)
  {
    if IntToDecimal(a) == IntToDecimal(b) {
      IntToDecimalInjective(a, b);
    }
  }

  /** A message without a chat id raises before anything happens. */
  lemma MissingChatIdRaises(threads: Store, chat: Option<Chat>, text: Option<string>, env: Collaborators)
    requires chat.None? || chat.value.id.None?
    ensures HandleSpec(threads, Update(Some(TelegramMessage(chat, text))), env) == Outcome(threads, [], [], Raised)
  {
  }

  /** True when the thread of `chatId` is paused and `get_state` works. */
  predicate PausedFor(threads: Store, chatId: int, env: Collaborators) {
    !env.getStateFails && IsPaused(Lookup(threads, IntToDecimal(chatId)))
  }

  /**
   * Paused, an approval sends the approval notice, invokes the graph once with
   * the single human message "ORDEN APROBADA" and without interrupts, then
   * sends that invocation's last message: two messages, in that order.
   */
  lemma ApprovalSendsNoticeThenResult(threads: Store, chatId: int, text: string, produced: AgentGraph.Messages, next: seq<string>, env: Collaborators)
    requires PausedFor(threads, chatId, env) && Lower(text) == ApprovePhrase
    requires env.graph == Completed(produced, next)
    ensures var o := HandleSpec(threads, MessageFrom(chatId, Some(text)), env);
      var id := IntToDecimal(chatId);
      var history := threads[id].messages + [AgentGraph.HumanMessage(ApprovedInput)] + produced;
      && o.calls == [Invocation(id, AgentGraph.HumanMessage(ApprovedInput), [])]
      && o.threads == threads[id := ThreadState(history, next)]
      && o.sent == [Outgoing(chatId, ApprovedNotice), Outgoing(chatId, history[|history| - 1].content)]
      && o.response == StatusOk
  {
    var id := IntToDecimal(chatId);
    var input := AgentGraph.HumanMessage(ApprovedInput);
    assert threads[id].messages + [input] + produced == AgentGraph.AddMessages(threads[id].messages, [input] + produced);
  }

  /**
   * If the resumed graph raises, only the approval notice has gone out; the
   * thread keeps what the checkpointer saved before the failure ("ORDEN
   * APROBADA" and the supersteps completed so far), and it stays paused only
   * if the saved `next` still starts with the marker.
   */
  lemma ApprovalWithFailingGraph(threads: Store, chatId: int, text: string, env: Collaborators)
    requires PausedFor(threads, chatId, env) && Lower(text) == ApprovePhrase && env.graph.Crashed?
    ensures var o := HandleSpec(threads, MessageFrom(chatId, Some(text)), env);
      var id := IntToDecimal(chatId);
      && o.sent == [Outgoing(chatId, ApprovedNotice)]
      && o.calls == [Invocation(id, AgentGraph.HumanMessage(ApprovedInput), [])]
      && o.response == Raised
      && (env.graph.saved.None? ==> o.threads == threads)
      && (env.graph.saved.Some? ==>
            var c := env.graph.saved.value;
            && o.threads == threads[id := ThreadState(threads[id].messages + [AgentGraph.HumanMessage(ApprovedInput)] + c.produced, c.next)]
            && (IsPaused(Lookup(o.threads, id)) <==> |c.next| > 0 && c.next[0] == InterruptMarker))
  {
    assert Decide(Snapshot(threads, chatId, env), text) == Resume;
    assert HandleSpec(threads, MessageFrom(chatId, Some(text)), env) == ResumeSpec(threads, chatId, env);
    if env.graph.saved.Some? {
      SavedCheckpoint(threads, IntToDecimal(chatId), AgentGraph.HumanMessage(ApprovedInput), env.graph.saved.value);
    }
  }

  /** A checkpoint saved before a raise holds the prior history, the input and the progress made. */
  lemma SavedCheckpoint(threads: Store, threadId: string, input: AgentGraph.Message, c: Checkpoint)
    ensures var prior := if threadId in threads then threads[threadId].messages else [];
      Committed(threads, threadId, input, Crashed(Some(c))) == threads[threadId := ThreadState(prior + [input] + c.produced, c.next)]
  {
    var prior := if threadId in threads then threads[threadId].messages else [];
    assert prior + [input] + c.produced == AgentGraph.AddMessages(prior, [input] + c.produced);
  }

  /** Paused, a cancellation deletes the thread, sends one notice and calls no graph. */
  lemma CancellationDeletesThread(threads: Store, chatId: int, text: string, env: Collaborators)
    requires PausedFor(threads, chatId, env) && Lower(text) == CancelPhrase && !env.deleteFails
    ensures HandleSpec(threads, MessageFrom(chatId, Some(text)), env)
         == Outcome(threads - {IntToDecimal(chatId)}, [Outgoing(chatId, CancelledNotice)], [], StatusOk)
    ensures IntToDecimal(chatId) !in HandleSpec(threads, MessageFrom(chatId, Some(text)), env).threads
  {
  }

  /** When `delete_thread` raises, nothing is sent and the thread stays paused. */
  lemma CancellationWithFailingDelete(threads: Store, chatId: int, text: string, env: Collaborators)
    requires PausedFor(threads, chatId, env) && Lower(text) == CancelPhrase && env.deleteFails
    ensures HandleSpec(threads, MessageFrom(chatId, Some(text)), env) == Outcome(threads, [], [], Raised)
  {
  }

  /**
   * After a cancellation, the next message on the same chat finds no
   * checkpoint and takes the normal path: it starts a fresh history.
   */
  lemma CancelledThreadStartsAfresh(threads: Store, chatId: int, cancel: string, env1: Collaborators,
                                    text: string, produced: AgentGraph.Messages, next: seq<string>, env2: Collaborators)
    requires PausedFor(threads, chatId, env1) && Lower(cancel) == CancelPhrase && !env1.deleteFails
    requires env2.graph == Completed(produced, next)
    ensures var after := HandleSpec(threads, MessageFrom(chatId, Some(cancel)), env1).threads;
      var o := HandleSpec(after, MessageFrom(chatId, Some(text)), env2);
      var id := IntToDecimal(chatId);
      && o.calls == [Invocation(id, AgentGraph.HumanMessage(text), [AgentGraph.Gate])]
      && id in o.threads
      && o.threads[id] == ThreadState([AgentGraph.HumanMessage(text)] + produced, next)
  {
    var id := IntToDecimal(chatId);
    var after := HandleSpec(threads, MessageFrom(chatId, Some(cancel)), env1).threads;
    assert after == threads - {id};
    assert Decide(if env2.getStateFails then None else Lookup(after, id), text) == Forward;
  }

  /** Paused, any other text re-sends the instructions and changes nothing else. */
  lemma OtherTextReprompts(threads: Store, chatId: int, text: string, env: Collaborators)
    requires PausedFor(threads, chatId, env)
    requires Lower(text) != ApprovePhrase && Lower(text) != CancelPhrase
    ensures HandleSpec(threads, MessageFrom(chatId, Some(text)), env)
         == Outcome(threads, [Outgoing(chatId, PendingReprompt)], [], StatusOk)
  {
    assert Decide(Snapshot(threads, chatId, env), text) == Reprompt;
  }

  /**
   * Not paused (no checkpoint, an empty `next`, a `next` that starts with
   * anything but the marker, or a failing `get_state`), the text goes to the
   * graph once, with the purchase-order gate; afterwards a non-empty `next`
   * sends only the critical-action prompt, an empty one only the last
   * message.
   */
  lemma NormalTurn(threads: Store, chatId: int, text: string, produced: AgentGraph.Messages, next: seq<string>, env: Collaborators)
    requires !PausedFor(threads, chatId, env)
    requires env.graph == Completed(produced, next)
    ensures var o := HandleSpec(threads, MessageFrom(chatId, Some(text)), env);
      var id := IntToDecimal(chatId);
      var history := (if id in threads then threads[id].messages else []) + [AgentGraph.HumanMessage(text)] + produced;
      && o.calls == [Invocation(id, AgentGraph.HumanMessage(text), [AgentGraph.Gate])]
      && o.threads == threads[id := ThreadState(history, next)]
      && o.sent == [Outgoing(chatId, if |next| > 0 then CriticalActionPrompt else history[|history| - 1].content)]
      && o.response == StatusOk
  {
    var id := IntToDecimal(chatId);
    var prior := if id in threads then threads[id].messages else [];
    var input := AgentGraph.HumanMessage(text);
    assert Decide(Snapshot(threads, chatId, env), text) == Forward;
    assert HandleSpec(threads, MessageFrom(chatId, Some(text)), env) == ForwardSpec(threads, chatId, text, env);
    assert prior + [input] + produced == AgentGraph.AddMessages(prior, [input] + produced);
  }

  /**
   * A normal turn whose graph raises sends nothing; the thread keeps what the
   * checkpointer saved before the failure (the user's message and the
   * supersteps completed so far), or is as it was if nothing was saved.
   */
  lemma NormalTurnWithFailingGraph(threads: Store, chatId: int, text: string, env: Collaborators)
    requires !PausedFor(threads, chatId, env) && env.graph.Crashed?
    ensures var o := HandleSpec(threads, MessageFrom(chatId, Some(text)), env);
      var id := IntToDecimal(chatId);
      var prior := if id in threads then threads[id].messages else [];
      && o.sent == []
      && o.calls == [Invocation(id, AgentGraph.HumanMessage(text), [AgentGraph.Gate])]
      && o.response == Raised
      && (env.graph.saved.None? ==> o.threads == threads)
      && (env.graph.saved.Some? ==>
            o.threads == threads[id := ThreadState(prior + [AgentGraph.HumanMessage(text)] + env.graph.saved.value.produced,
                                                   env.graph.saved.value.next)])
  {
    assert Decide(Snapshot(threads, chatId, env), text) == Forward;
    assert HandleSpec(threads, MessageFrom(chatId, Some(text)), env) == ForwardSpec(threads, chatId, text, env);
    if env.graph.saved.Some? {
      SavedCheckpoint(threads, IntToDecimal(chatId), AgentGraph.HumanMessage(text), env.graph.saved.value);
    }
  }

  /**
   * A stop reported the way the graph names its pending node ("herramientas")
   * does not count as paused: an approval typed then is forwarded to the
   * graph as ordinary text.
   */
  lemma NodeNameStopIsNotPaused(threads: Store, chatId: int, env: Collaborators)
    requires !env.getStateFails && env.graph.Completed?
    requires Lookup(threads, IntToDecimal(chatId)).Some?
    requires Lookup(threads, IntToDecimal(chatId)).value.next == ["herramientas"]
    ensures HandleSpec(threads, MessageFrom(chatId, Some("aprobar orden")), env).calls
         == [Invocation(IntToDecimal(chatId), AgentGraph.HumanMessage("aprobar orden"), [AgentGraph.Gate])]
  {
    assert "herramientas" != InterruptMarker;
  }

  /** Every branch that runs to the end answers `{"status": "ok"}`. */
  lemma CompletedBranchesAnswerOk(threads: Store, chatId: int, text: Option<string>, env: Collaborators)
    requires env.graph.Completed? && !env.deleteFails
    ensures HandleSpec(threads, MessageFrom(chatId, text), env).response == StatusOk
  {
  }

  /**
   * A thread that was not paused becomes paused only because the graph
   * saved a `next` that starts with the marker.
   */
  lemma PauseComesFromGraph(threads: Store, body: Body, env: Collaborators, threadId: string)
    requires !IsPaused(Lookup(threads, threadId))
    requires IsPaused(Lookup(HandleSpec(threads, body, env).threads, threadId))
    ensures var n := ReportedNext(env.graph); n.Some? && |n.value| > 0 && n.value[0] == InterruptMarker
  {
  }

  /** Storing an invocation's checkpoint keeps every history non-empty. */
  lemma InvokedKeepsStoreValid(threads: Store, threadId: string, input: AgentGraph.Message, produced: AgentGraph.Messages, next: seq<string>)
    requires ValidStore(threads)
    ensures ValidStore(Invoked(threads, threadId, input, produced, next))
  {
  }

  /** Whatever an `invoke` commits keeps every history non-empty. */
  lemma CommittedKeepsStoreValid(threads: Store, threadId: string, input: AgentGraph.Message, outcome: GraphOutcome)
    requires ValidStore(threads)
    ensures ValidStore(Committed(threads, threadId, input, outcome))
  {
    match outcome
    case Completed(produced, next) => InvokedKeepsStoreValid(threads, threadId, input, produced, next);
    case Crashed(None) =>
    case Crashed(Some(c)) => InvokedKeepsStoreValid(threads, threadId, input, c.produced, c.next);
  }

  /** Every call keeps every history non-empty. */
  lemma HandleKeepsStoreValid(threads: Store, body: Body, env: Collaborators)
    requires ValidStore(threads)
    ensures ValidStore(HandleSpec(threads, body, env).threads)
  {
    if body.Update? && body.message.Some? && body.message.value.chat.Some? && body.message.value.chat.value.id.Some? {
      var msg := body.message.value;
      var chatId := msg.chat.value.id.value;
      var decision := Decide(Snapshot(threads, chatId, env), TextOf(msg));
      if decision == Resume {
        assert HandleSpec(threads, body, env) == ResumeSpec(threads, chatId, env);
        CommittedKeepsStoreValid(threads, IntToDecimal(chatId), AgentGraph.HumanMessage(ApprovedInput), env.graph);
      } else if decision == Forward {
        assert HandleSpec(threads, body, env) == ForwardSpec(threads, chatId, TextOf(msg), env);
        CommittedKeepsStoreValid(threads, IntToDecimal(chatId), AgentGraph.HumanMessage(TextOf(msg)), env.graph);
      }
    }
  }

  /**
   * A thread whose id is not the decimal text of any integer (one another
   * client of the checkpointer wrote) is never read as a chat's thread and
   * never changed by any call.
   */
  lemma ForeignThreadsUntouched(threads: Store, body: Body, env: Collaborators, t: string)
    requires forall i: int :: t != IntToDecimal(i)
    ensures Lookup(HandleSpec(threads, body, env).threads, t) == Lookup(threads, t)
  {
    if body.Update? && body.message.Some? && body.message.value.chat.Some? && body.message.value.chat.value.id.Some? {
      var chatId := body.message.value.chat.value.id.value;
      assert t != IntToDecimal(chatId);
      ThreadKeyIsChatId(threads, chatId, body.message.value.text, env);
    }
  }

  // ----- the server --------------------------------------------------------

  /** The running server: the checkpoint store, Telegram's outbox and the graph's call log. */
  class WebhookServer {
    var threads: Store
    var outbox: seq<Outgoing>
    var invocations: seq<Invocation>

    /** Start-up: attach to the checkpoints already saved; nothing sent or invoked yet. */
    constructor (saved: Store)
      ensures threads == saved && outbox == [] && invocations == []
    {
      threads, outbox, invocations := saved, [], [];
    }

    /** `send_telegram_message`: appends to the outbox. */
    method Send(chatId: int, text: string)
      modifies this`outbox
      ensures outbox == old(outbox) + [Outgoing(chatId, text)]
    {
      outbox := outbox + [Outgoing(chatId, text)];
    }

    /** `app_graph.get_state`, with `None` for a raised exception or no checkpoint. */
    method GetState(threadId: string, fails: bool) returns (state: Option<ThreadState>)
      ensures state == if fails then None else Lookup(threads, threadId)
    {
      if fails {
        state := None;
      } else if threadId in threads {
        state := Some(threads[threadId]);
      } else {
        state := None;
      }
    }

    /**
     * `app_graph.invoke`: logs the call and stores what the checkpointer
     * saved (all of it when the graph completes, the progress made before a
     * raise otherwise); on completion returns the last message's content.
     */
    method StoreInvocation(call: Invocation, outcome: GraphOutcome) returns (ok: bool, last: string)
      modifies this`threads, this`invocations
      ensures invocations == old(invocations) + [call]
      ensures ok == outcome.Completed?
      ensures threads == Committed(old(threads), call.threadId, call.input, outcome)
      ensures ok ==> last == LastContent(threads[call.threadId].messages)
    {
      invocations := invocations + [call];
      var history := if call.threadId in threads then threads[call.threadId].messages else [];
      ok, last := false, "";
      if outcome.Completed? {
        var messages := AgentGraph.AddMessages(history, [call.input] + outcome.produced);
        threads := threads[call.threadId := ThreadState(messages, outcome.next)];
        ok, last := true, messages[|messages| - 1].content;
      } else if outcome.saved.Some? {
        var c := outcome.saved.value;
        threads := threads[call.threadId := ThreadState(AgentGraph.AddMessages(history, [call.input] + c.produced), c.next)];
      }
    }

    /** `pool.delete_thread`: removes the key, unless the call raises. */
    method DeleteThread(threadId: string, fails: bool) returns (ok: bool)
      modifies this`threads
      ensures ok == !fails
      ensures threads == if ok then old(threads) - {threadId} else old(threads)
    {
      ok := !fails;
      if ok {
        threads := threads - {threadId};
      }
    }

    /** The approval branch of `handle_webhook`. */
    method ApproveOrder(chatId: int, graph: GraphOutcome) returns (response: Response)
      modifies this
      ensures var o := ResumeSpec(old(threads), chatId, Collaborators(false, graph, false));
        && threads == o.threads
        && outbox == old(outbox) + o.sent
        && invocations == old(invocations) + o.calls
        && response == o.response
    {
      var threadId := IntToDecimal(chatId);
      Send(chatId, ApprovedNotice);
      var ok, last := StoreInvocation(Invocation(threadId, AgentGraph.HumanMessage(ApprovedInput), []), graph);
      if !ok {
        return Raised;
      }
      Send(chatId, last);
      return StatusOk;
    }

    /** The cancellation branch of `handle_webhook`. */
    method CancelOrder(chatId: int, deleteFails: bool) returns (response: Response)
      modifies this
      ensures var o := CancelSpec(old(threads), chatId, Collaborators(false, Crashed(None), deleteFails));
        && threads == o.threads
        && outbox == old(outbox) + o.sent
        && invocations == old(invocations) + o.calls
        && response == o.response
    {
      var ok := DeleteThread(IntToDecimal(chatId), deleteFails);
      if !ok {
        return Raised;
      }
      Send(chatId, CancelledNotice);
      return StatusOk;
    }

    /** The normal branch of `handle_webhook`. */
    method ForwardTurn(chatId: int, text: string, graph: GraphOutcome) returns (response: Response)
      modifies this
      ensures var o := ForwardSpec(old(threads), chatId, text, Collaborators(false, graph, false));
        && threads == o.threads
        && outbox == old(outbox) + o.sent
        && invocations == old(invocations) + o.calls
        && response == o.response
    {
      var threadId := IntToDecimal(chatId);
      var ok, last := StoreInvocation(Invocation(threadId, AgentGraph.HumanMessage(text), [AgentGraph.Gate]), graph);
      if !ok {
        return Raised;
      }
      var after := GetState(threadId, false);
      if |after.value.next| > 0 {
        Send(chatId, CriticalActionPrompt);
      } else {
        Send(chatId, last);
      }
      return StatusOk;
    }

    /** `handle_webhook`, step by step. */
    method HandleWebhook(body: Body, env: Collaborators) returns (response: Response)
      modifies this
      ensures ValidStore(old(threads)) ==> ValidStore(threads)
      ensures var o := HandleSpec(old(threads), body, env);
        && threads == o.threads
        && outbox == old(outbox) + o.sent
        && invocations == old(invocations) + o.calls
        && response == o.response
    {
      if ValidStore(threads) {
        HandleKeepsStoreValid(threads, body, env);
      }
      if body.Unparsable? {
        return BadRequest;
      }
      if body.message.None? {
        return StatusOk;
      }
      var msg := body.message.value;
      if msg.chat.None? || msg.chat.value.id.None? {
        return Raised;
      }
      var chatId := msg.chat.value.id.value;
      var text := TextOf(msg);
      var state := GetState(IntToDecimal(chatId), env.getStateFails);
      var decision := Decide(state, text);
      if decision == Resume {
        response := ApproveOrder(chatId, env.graph);
      } else if decision == Cancel {
        response := CancelOrder(chatId, env.deleteFails);
      } else if decision == Reprompt {
        Send(chatId, PendingReprompt);
        response := StatusOk;
      } else {
        response := ForwardTurn(chatId, text, env.graph);
      }
    }
  }
}
