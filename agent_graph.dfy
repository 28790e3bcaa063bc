/**
 * The agent's conversation graph (agent_graph.py): an append-only message
 * state, the agent node that adds one model reply, the tool node, the
 * START -> agente -> (herramientas -> agente)* -> END topology built by
 * successive builder calls, and the compiled graph's run with its interrupt
 * points. The language model and the tools are inputs.
 */
module AgentGraph {
  import opened Wrappers

  // ----- state -------------------------------------------------------------

  datatype ToolCall = ToolCall(name: string, id: string)

  datatype Message =
    | HumanMessage(content: string)
    | AIMessage(content: string, toolCalls: seq<ToolCall>)
    | ToolMessage(content: string, toolCallId: string)
    | SystemMessage(content: string)

  /** `AgentState`: the conversation, oldest message first. */
  type Messages = seq<Message>

  /**
   * The `add_messages` reducer for messages that carry fresh ids (every
   * message the graph and the webhook create does): the update goes after
   * the existing history.
   */
  function AddMessages(left: Messages, right: Messages): (r: Messages)
    ensures |r| == |left| + |right|
    ensures r[..|left|] == left && r[|left|..] == right
  {
    left + right
  }

  // ----- the agent node ----------------------------------------------------

  const SystemPrompt := PromptRole + "\n" + PromptTools + "\n" + PromptKnowledge + "\n" + PromptLabour + "\n" + PromptPurchase + "\n" + PromptOrderStep + "\n" + PromptMailStep + "\n" + PromptMailBody + "\n" + PromptTail
  const PromptRole := "Eres ArquiBot, un asistente experto en gestión de construcción. "
  const PromptTools := "    Usa tus herramientas para responder. "
  const PromptKnowledge := "    Para preguntas sobre precios, costos o normas, **SIEMPRE DEBES CONSULTAR TU BASE DE CONOCIMIENTO (consultar_base_conocimiento)**."
  const PromptLabour := "    Si el usuario pregunta algo relacionado con cuanto le va a costar la mano de obra, tienes que usar la herramienta calcular_costo_mano_obra."
  const PromptPurchase := "    Si vas a comprar algo, **TU PROCESO DEBE SER ESTRICTAMENTE**:"
  const PromptOrderStep := "    1. Usar la tool **generar_orden_compra**."
  const PromptMailStep := "    2. **INMEDIATAMENTE DESPUÉS** de generar la orden, debes usar la tool **send_email** para enviar la orden al proveedor. "
  const PromptMailBody := "                            La orden generada debe ser el contenido principal del correo y el asunto del correo debe ser orden de compra.                              "
  const PromptTail := "    "

  /** What the model is shown: a system prompt, then the stored history. */
  function ModelInput(prompt: string, state: Messages): Messages
  {
    [SystemMessage(prompt)] + state
  }

  /** A reply of the tool-bound model: its text and the tool calls it requests. */
  datatype Reply = Reply(content: string, toolCalls: seq<ToolCall>)

  /** The language model, an input of the model: which reply it gives to which conversation. */
  type Llm = Messages -> Reply

  /** An agent node's update: one model reply, computed from the prompted history. */
  function AgentTurn(prompt: string, state: Messages, llm: Llm): (update: Messages)
    ensures |update| == 1 && update[0].AIMessage?
  {
    var reply := llm(ModelInput(prompt, state));
    [AIMessage(reply.content, reply.toolCalls)]
  }

  /** `nodo_agente`: the agent turn with ArquiBot's system prompt. */
  function NodoAgente(state: Messages, llm: Llm): Messages
  {
    AgentTurn(SystemPrompt, state, llm)
  }

  /**
   * An agent turn adds exactly one message, the model's answer to the
   * prompted history, and the system prompt it was shown is not stored.
   */
  lemma AgentTurnAppendsOne(prompt: string, state: Messages, llm: Llm)
    ensures var next := AddMessages(state, AgentTurn(prompt, state, llm));
      && next[..|state|] == state
      && |next| == |state| + 1
      && next[|state|] == AIMessage(llm(ModelInput(prompt, state)).content, llm(ModelInput(prompt, state)).toolCalls)
      && (SystemMessage(prompt) in next <==> SystemMessage(prompt) in state)
  {
    var next := AddMessages(state, AgentTurn(prompt, state, llm));
    if SystemMessage(prompt) in next {
      var k :| 0 <= k < |next| && next[k] == SystemMessage(prompt);
      assert k < |state| && state[k] == next[k];
    }
  }

  // ----- the tool node -----------------------------------------------------

  /** What running a tool call returns, an input of the model. */
  type ToolRunner = ToolCall -> string

  /**
   * `ToolNode`: one tool message per call of the last message, in order;
   * `None` when the last message is not a model reply.
   */
  function RunToolCalls(state: Messages, run: ToolRunner): (r: Option<Messages>)
    ensures r.Some? <==> |state| > 0 && state[|state| - 1].AIMessage?
    ensures r.Some? ==> var calls := state[|state| - 1].toolCalls;
      |r.value| == |calls|
      && forall i :: 0 <= i < |calls| ==> r.value[i] == ToolMessage(run(calls[i]), calls[i].id)
  {
    if |state| > 0 && state[|state| - 1].AIMessage? then
      var calls := state[|state| - 1].toolCalls;
      Some(seq(|calls|, i requires 0 <= i < |calls| => ToolMessage(run(calls[i]), calls[i].id)))
    else None
  }

  // ----- topology ----------------------------------------------------------

  datatype Node = Start | Agente | Herramientas | End

  /** What a registered node does: call the model with a system prompt, or run the requested tools. */
  datatype Action = CallModel(prompt: string) | RunTools

  /** The two outcomes of `tools_condition`, keys of a branch's path map. */
  datatype Route = ToolsRoute | EndRoute

  /** True when the message is a model reply that requests at least one tool. */
  predicate RequestsTools(m: Message) {
    m.AIMessage? && |m.toolCalls| > 0
  }

  /**
   * `tools_condition`: route to the tools when the last message requests
   * any; `None` (a `ValueError`) when there are no messages.
   */
  function ToolsCondition(state: Messages): (r: Option<Route>)
    ensures r.None? <==> state == []
    ensures r == Some(ToolsRoute) <==> |state| > 0 && RequestsTools(state[|state| - 1])
  {
    if state == [] then None
    else if RequestsTools(state[|state| - 1]) then Some(ToolsRoute)
    else Some(EndRoute)
  }

  /** A compiled graph. */
  datatype Graph = Graph(
    nodes: map<Node, Action>,
    edges: map<Node, Node>,
    branches: map<Node, map<Route, Node>>,
    interruptBefore: set<Node>)

  /** A node a step may go to: a registered one or END. */
  predicate IsTarget(g: Graph, n: Node) {
    n == End || n in g.nodes
  }

  /**
   * The graphs this model runs: every plain edge leaves START or a
   * registered node, every edge and branch arrives at a registered node or
   * END, and the static interrupts name registered nodes. The model is
   * stricter than LangGraph in four ways, all of which the bot's graph
   * meets: START must have a plain edge (LangGraph also accepts a
   * conditional entry from START); a branch must leave a registered node,
   * never START; a branch's path map must name both routes (LangGraph finds
   * a missing route only when the branch takes it); and no node may have
   * both a plain edge and a branch, since the model follows one successor
   * per step.
   */
  predicate WellFormed(g: Graph) {
    && Start in g.edges
    && Start !in g.nodes && End !in g.nodes
    && (forall s :: s in g.edges ==> (s == Start || s in g.nodes) && IsTarget(g, g.edges[s]))
    && (forall s :: s in g.branches ==>
          && s in g.nodes && s !in g.edges
          && ToolsRoute in g.branches[s] && EndRoute in g.branches[s]
          && IsTarget(g, g.branches[s][ToolsRoute]) && IsTarget(g, g.branches[s][EndRoute]))
    && g.interruptBefore <= g.nodes.Keys
  }

  /**
   * The node after `n`, given the state after `n` ran: the branch's choice,
   * else the plain edge, else END (a node without edges ends the run);
   * `None` when the branch cannot route an empty state.
   */
  function Next(g: Graph, n: Node, state: Messages): (r: Option<Node>)
    requires WellFormed(g) && (n == Start || n in g.nodes)
    ensures r.Some? ==> IsTarget(g, r.value)
  {
    if n in g.branches then
      match ToolsCondition(state)
      case None => None
      case Some(route) => Some(g.branches[n][route])
    else if n in g.edges then Some(g.edges[n])
    else Some(End)
  }

  /** `builder`: the graph under construction. */
  class Builder {
    var nodes: map<Node, Action>
    var edges: map<Node, Node>
    var branches: map<Node, map<Route, Node>>

    /** `StateGraph(AgentState)`: nothing registered yet. */
    constructor ()
      ensures nodes == map[] && edges == map[] && branches == map[]
    {
      nodes, edges, branches := map[], map[], map[];
    }

    /** `add_node`: refused for START, END and a name already taken. */
    method AddNode(n: Node, a: Action) returns (ok: bool)
      modifies this
      ensures ok <==> n != Start && n != End && n !in old(nodes)
      ensures nodes == if ok then old(nodes)[n := a] else old(nodes)
      ensures edges == old(edges) && branches == old(branches)
    {
      ok := n != Start && n != End && n !in nodes;
      if ok {
        nodes := nodes[n := a];
      }
    }

    /**
     * `add_edge`: refused when it leaves END or enters START; the model also
     * refuses a second plain edge from `s`, since it follows one successor
     * per step.
     */
    method AddEdge(s: Node, t: Node) returns (ok: bool)
      modifies this
      ensures ok <==> s != End && t != Start && s !in old(edges)
      ensures edges == if ok then old(edges)[s := t] else old(edges)
      ensures nodes == old(nodes) && branches == old(branches)
    {
      ok := s != End && t != Start && s !in edges;
      if ok {
        edges := edges[s := t];
      }
    }

    /** `add_conditional_edges` with `tools_condition`: refused when `s` already has that branch. */
    method AddConditionalEdges(s: Node, pathMap: map<Route, Node>) returns (ok: bool)
      modifies this
      ensures ok <==> s !in old(branches)
      ensures branches == if ok then old(branches)[s := pathMap] else old(branches)
      ensures nodes == old(nodes) && edges == old(edges)
    {
      ok := s !in branches;
      if ok {
        branches := branches[s := pathMap];
      }
    }

    /** `compile`: the graph when it is well formed in this model's sense, `None` (a `ValueError`) otherwise. */
    method Compile(interruptBefore: set<Node>) returns (g: Option<Graph>)
      ensures g.Some? <==> WellFormed(Graph(nodes, edges, branches, interruptBefore))
      ensures g.Some? ==> g.value == Graph(nodes, edges, branches, interruptBefore)
    {
      var candidate := Graph(nodes, edges, branches, interruptBefore);
      if WellFormed(candidate) {
        g := Some(candidate);
      } else {
        g := None;
      }
    }
  }

  /** The graph agent_graph.py builds: one branch after the agent, a loop back from the tools. */
  const ArquiBotGraph := Graph(
    map[Agente := CallModel(SystemPrompt), Herramientas := RunTools],
    map[Start := Agente, Herramientas := Agente],
    map[Agente := map[ToolsRoute := Herramientas, EndRoute := End]],
    {})

  /** The builder calls of agent_graph.py, in order; each of them is accepted. */
  method BuildArquiBot() returns (b: Builder)
    ensures fresh(b)
    ensures b.nodes == ArquiBotGraph.nodes && b.edges == ArquiBotGraph.edges
    ensures b.branches == ArquiBotGraph.branches
  {
    b := new Builder();
    var ok := b.AddNode(Agente, CallModel(SystemPrompt));
    assert ok;
    ok := b.AddNode(Herramientas, RunTools);
    assert ok;
    ok := b.AddEdge(Start, Agente);
    assert ok;
    ok := b.AddConditionalEdges(Agente, map[ToolsRoute := Herramientas, EndRoute := End]);
    assert ok;
    ok := b.AddEdge(Herramientas, Agente);
    assert ok;
  }

  /** `get_app`: the built graph compiles, with no static interrupt point. */
  method GetApp() returns (g: Option<Graph>)
    ensures g == Some(ArquiBotGraph)
    ensures ArquiBotShape(g.value) && g.value.interruptBefore == {}
  {
    var b := BuildArquiBot();
    g := b.Compile({});
  }

  /**
   * The shape of the graph agent_graph.py builds, whatever prompt the agent
   * node carries and whatever static interrupts it is compiled with.
   */
  predicate ArquiBotShape(g: Graph) {
    && g.nodes.Keys == {Agente, Herramientas}
    && g.nodes[Agente].CallModel? && g.nodes[Herramientas] == RunTools
    && g.edges == map[Start := Agente, Herramientas := Agente]
    && g.branches == map[Agente := map[ToolsRoute := Herramientas, EndRoute := End]]
  }

  lemma ArquiBotGraphShape()
    ensures ArquiBotShape(ArquiBotGraph) && ArquiBotGraph.interruptBefore == {}
  {
  }

  /**
   * The steps of the built graph: START goes to the agent, the tools go back
   * to the agent, and the agent goes to the tools exactly when its reply
   * requests a tool, to END otherwise.
   */
  lemma ArquiBotSteps(g: Graph, state: Messages)
    requires ArquiBotShape(g)
    ensures WellFormed(g) <==> g.interruptBefore <= {Agente, Herramientas}
    ensures WellFormed(g) ==> Next(g, Start, state) == Some(Agente)
    ensures WellFormed(g) ==> Next(g, Herramientas, state) == Some(Agente)
    ensures WellFormed(g) && |state| > 0 ==>
      Next(g, Agente, state) == Some(if RequestsTools(state[|state| - 1]) then Herramientas else End)
  {
  }

  // ----- running -----------------------------------------------------------

  /**
   * An interrupt passed to one `invoke`: stop before `node` when the pending
   * model reply calls one of `tools`.
   */
  datatype Interrupt = InterruptBefore(node: Node, tools: set<string>)

  /** True when the last message is a model reply that calls one of `tools`. */
  predicate CallsOneOf(state: Messages, tools: set<string>) {
    |state| > 0 && state[|state| - 1].AIMessage?
    && exists c :: c in state[|state| - 1].toolCalls && c.name in tools
  }

  /** True when one of the call's interrupts stops the run before `n`. */
  predicate CallInterrupts(perCall: seq<Interrupt>, n: Node, state: Messages) {
    exists k :: 0 <= k < |perCall| && perCall[k].node == n && CallsOneOf(state, perCall[k].tools)
  }

  /** True when the run stops before `n`: a static interrupt point, or one of the call's. */
  predicate StopsBefore(g: Graph, perCall: seq<Interrupt>, n: Node, state: Messages) {
    n in g.interruptBefore || CallInterrupts(perCall, n, state)
  }

  datatype Failure = RecursionLimit | NoMessages | NoModelReply

  datatype RunResult =
    | Finished(messages: Messages)
    | Stopped(messages: Messages, next: Node)
    | Failed(messages: Messages, failure: Failure)

  /** What one registered node adds to the state. */
  function Execute(a: Action, state: Messages, llm: Llm, run: ToolRunner): Option<Messages>
  {
    match a
    case CallModel(prompt) => Some(AgentTurn(prompt, state, llm))
    case RunTools => RunToolCalls(state, run)
  }

  /** The result of one step: go on at a registered node, or end the run. */
  datatype StepResult = Go(node: Node, state: Messages) | Halt(result: RunResult)

  /** True when `state` begins with `prefix`. */
  predicate Extends(state: Messages, prefix: Messages) {
    |prefix| <= |state| && state[..|prefix|] == prefix
  }

  /**
   * One superstep at `n`: the node's update is appended, the next node is
   * chosen, and the run ends at END, on an error, or before a node an
   * interrupt names.
   */
  function Step(g: Graph, n: Node, state: Messages, llm: Llm, run: ToolRunner, perCall: seq<Interrupt>): (r: StepResult)
    requires WellFormed(g) && (n == Start || n in g.nodes)
    ensures r.Go? ==> r.node in g.nodes && Extends(r.state, state) && !StopsBefore(g, perCall, r.node, r.state)
    ensures r.Halt? ==> Extends(r.result.messages, state)
    ensures r.Halt? && r.result.Stopped? ==> r.result.next != End && StopsBefore(g, perCall, r.result.next, r.result.messages)
  {
    var update := if n == Start then Some([]) else Execute(g.nodes[n], state, llm, run);
    match update
    case None => Halt(Failed(state, NoModelReply))
    case Some(u) =>
      var next := AddMessages(state, u);
      match Next(g, n, next)
      case None => Halt(Failed(next, NoMessages))
      case Some(m) =>
        if m == End then Halt(Finished(next))
        else if StopsBefore(g, perCall, m, next) then Halt(Stopped(next, m))
        else Go(m, next)
  }

  /** Runs from `n` for at most `fuel` supersteps (the recursion limit). */
  function Run(g: Graph, n: Node, state: Messages, llm: Llm, run: ToolRunner, perCall: seq<Interrupt>, fuel: nat): RunResult
    requires WellFormed(g) && (n == Start || n in g.nodes)
    decreases fuel
  {
    if fuel == 0 then Failed(state, RecursionLimit)
    else
      match Step(g, n, state, llm, run, perCall)
      case Halt(r) => r
      case Go(m, next) => Run(g, m, next, llm, run, perCall, fuel - 1)
  }

  /** `invoke`: the input messages go into the state, then the run starts at START. */
  function Invoke(g: Graph, state: Messages, input: Messages, llm: Llm, run: ToolRunner, perCall: seq<Interrupt>, fuel: nat): RunResult
    requires WellFormed(g)
  {
    Run(g, Start, AddMessages(state, input), llm, run, perCall, fuel)
  }

  /** A run only ever appends to the history it started from. */
  lemma {:induction false} RunAppendOnly(g: Graph, n: Node, state: Messages, llm: Llm, run: ToolRunner, perCall: seq<Interrupt>, fuel: nat)
    requires WellFormed(g) && (n == Start || n in g.nodes)
    ensures Extends(Run(g, n, state, llm, run, perCall, fuel).messages, state)
    decreases fuel
  {
    if fuel > 0 {
      var step := Step(g, n, state, llm, run, perCall);
      if step.Go? {
        RunAppendOnly(g, step.node, step.state, llm, run, perCall, fuel - 1);
        var r := Run(g, step.node, step.state, llm, run, perCall, fuel - 1);
        assert r.messages[..|state|] == r.messages[..|step.state|][..|state|];
      }
    }
  }

  /** A run stops only before a node that an interrupt, static or of this call, names. */
  lemma {:induction false} StopsOnlyAtInterrupts(g: Graph, n: Node, state: Messages, llm: Llm, run: ToolRunner, perCall: seq<Interrupt>, fuel: nat)
    requires WellFormed(g) && (n == Start || n in g.nodes)
    ensures var r := Run(g, n, state, llm, run, perCall, fuel);
      r.Stopped? ==> r.next != End && StopsBefore(g, perCall, r.next, r.messages)
    decreases fuel
  {
    if fuel > 0 {
      var step := Step(g, n, state, llm, run, perCall);
      if step.Go? {
        StopsOnlyAtInterrupts(g, step.node, step.state, llm, run, perCall, fuel - 1);
      }
    }
  }

  /** With no static interrupts, as the app is compiled, a call without interrupts never stops. */
  lemma NoStopWithoutCallInterrupts(g: Graph, state: Messages, input: Messages, llm: Llm, run: ToolRunner, fuel: nat)
    requires WellFormed(g) && g.interruptBefore == {}
    ensures !Invoke(g, state, input, llm, run, [], fuel).Stopped?
  {
    StopsOnlyAtInterrupts(g, Start, AddMessages(state, input), llm, run, [], fuel);
  }

  /** The purchase-order tool, the one the webhook gates. */
  const GatedTool := "generar_orden_compra"

  /** The interrupt the webhook passes on a normal turn. */
  const Gate := InterruptBefore(Herramientas, {GatedTool})

  /**
   * Under the webhook's gate, a stop happens before the tool node with the
   * purchase-order call still pending: the last message is the model reply
   * that requests it, so the tool has not run.
   */
  lemma GateStopsBeforeOrder(g: Graph, state: Messages, input: Messages, llm: Llm, run: ToolRunner, fuel: nat)
    requires WellFormed(g) && g.interruptBefore == {}
    ensures var r := Invoke(g, state, input, llm, run, [Gate], fuel);
      r.Stopped? ==> r.next == Herramientas && CallsOneOf(r.messages, {GatedTool})
  {
    var r := Invoke(g, state, input, llm, run, [Gate], fuel);
    StopsOnlyAtInterrupts(g, Start, AddMessages(state, input), llm, run, [Gate], fuel);
    if r.Stopped? {
      assert CallInterrupts([Gate], r.next, r.messages);
    }
  }

  /** In the built graph, a step that finishes comes from the agent, whose reply requests no tool. */
  lemma ArquiBotFinishingStep(g: Graph, n: Node, state: Messages, llm: Llm, run: ToolRunner, perCall: seq<Interrupt>)
    requires ArquiBotShape(g) && WellFormed(g)
    requires n == Start || n in g.nodes
    ensures var r := Step(g, n, state, llm, run, perCall);
      r.Halt? && r.result.Finished? ==>
        var m := r.result.messages;
        |m| > 0 && m[|m| - 1].AIMessage? && !RequestsTools(m[|m| - 1])
  {
    var r := Step(g, n, state, llm, run, perCall);
    if r.Halt? && r.result.Finished? {
      assert n == Agente;
      var update := AgentTurn(g.nodes[Agente].prompt, state, llm);
      var next := AddMessages(state, update);
      assert r.result.messages == next;
      assert next[|next| - 1] == update[0];
    }
  }

  /**
   * A run of the built graph that finishes ends on a model reply that
   * requests no tool: every tool result is followed by another agent turn.
   */
  lemma {:induction false} FinishedEndsWithAgentReply(g: Graph, n: Node, state: Messages, llm: Llm, run: ToolRunner, perCall: seq<Interrupt>, fuel: nat)
    requires ArquiBotShape(g) && WellFormed(g)
    requires n == Start || n in g.nodes
    ensures var r := Run(g, n, state, llm, run, perCall, fuel);
      r.Finished? ==> |r.messages| > 0 && r.messages[|r.messages| - 1].AIMessage?
                      && !RequestsTools(r.messages[|r.messages| - 1])
    decreases fuel
  {
    if fuel > 0 {
      ArquiBotFinishingStep(g, n, state, llm, run, perCall);
      var step := Step(g, n, state, llm, run, perCall);
      if step.Go? {
        assert Run(g, n, state, llm, run, perCall, fuel) == Run(g, step.node, step.state, llm, run, perCall, fuel - 1);
        FinishedEndsWithAgentReply(g, step.node, step.state, llm, run, perCall, fuel - 1);
      } else {
        assert Run(g, n, state, llm, run, perCall, fuel) == step.result;
      }
    }
  }
}
