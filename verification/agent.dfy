/** The hand-written agentic loop of the raw-API research agent: send the
    whole history to the model, record the reply, run every requested tool,
    send the results back, and stop on `end_turn`, on a reply without tool
    requests, or after `MaxTurns` model calls.

    The model is an oracle: the replies it gives, turn by turn, are a
    sequence, and a turn with no reply left is a model call that raised. The
    profile API is an oracle too (`Network`). */
module Agent {
  import opened Core
  import opened Text
  import opened JsonData
  import opened Http

  /** The turn budget, `MAX_TURNS`. */
  const MaxTurns: nat := 5

  /** The one tool the loop knows how to run. */
  const ProfileTool := "fetch_linkedin_profile"

  /** The stop reason that ends the loop whatever else the reply holds. */
  const EndTurn := "end_turn"

  // ---------------------------------------------------------------------
  // Model replies and conversation history.
  // ---------------------------------------------------------------------

  datatype ToolUse = ToolUse(id: string, name: string, input: Dict)

  /** A content block of a model reply. Blocks of any other type (`kind`)
      are neither kept in the history nor acted on. */
  datatype Block = TextBlock(text: string) | UseBlock(use: ToolUse) | OtherBlock(kind: string)

  datatype ModelResponse = ModelResponse(
    stopReason: string,
    content: seq<Block>,
    inputTokens: nat,
    outputTokens: nat)

  /** What `execute_tool` returns: `json.dumps` of a profile document
      (`Dumped`), or a message. */
  datatype ToolOutput = Dumped(data: Json) | Plain(text: string)

  datatype Role = User | Assistant

  datatype Part =
    | TextPart(text: string)
    | ToolUsePart(use: ToolUse)
    | ToolResultPart(toolUseId: string, output: ToolOutput)

  /** The first message carries the prompt as a string; later ones a list. */
  datatype Content = PlainText(text: string) | Parts(parts: seq<Part>)

  datatype Message = Message(role: Role, content: Content)

  // ---------------------------------------------------------------------
  // Metrics.
  // ---------------------------------------------------------------------

  datatype ApiCall = ApiCall(turn: nat, inputTokens: nat, outputTokens: nat, stopReason: string)

  datatype ToolCall = ToolCall(turn: nat, tool: string, input: Dict)

  datatype Metrics = Metrics(
    turns: nat,
    totalInputTokens: nat,
    totalOutputTokens: nat,
    toolCalls: seq<ToolCall>,
    apiCalls: seq<ApiCall>,
    finalResponse: string)

  /** The loop either returns its history and metrics, or a model call
      raised at the given (0-based) turn and the exception escaped. */
  datatype RunOutcome = Completed(messages: seq<Message>, metrics: Metrics) | ApiRaised(turn: nat)

  /** The outcome of the profile request made for the `j`-th tool request of
      turn `t` (both 0-based), given the `profile_url` argument sent. */
  type Network = (nat, nat, Json) -> HttpOutcome

  // ---------------------------------------------------------------------
  // execute_tool
  // ---------------------------------------------------------------------

  /** `tool_input.get("profile_url", "")`. */
  function UrlOf(input: Dict): Json {
    GetOr(input, "profile_url", Str(""))
  }

  /** `execute_tool`: runs the profile tool against the request outcome, or
      reports an unknown tool. Every failure becomes a message; it never
      raises. */
  function ExecuteTool(name: string, input: Dict, outcome: HttpOutcome): (r: ToolOutput)
    ensures name != ProfileTool ==> r == Plain("Unknown tool: " + name)
    ensures r.Dumped? <==>
      name == ProfileTool && outcome.Response? && outcome.status == 200
      && outcome.body.Ok? && outcome.body.value.Obj?
    ensures r.Dumped? ==> r.data == outcome.body.value
    ensures name == ProfileTool && outcome.Response? && outcome.status != 200 ==>
      var head := "API error " + NatToString(outcome.status) + ": ";
      && r.Plain? && StartsWith(r.text, head)
      && |r.text| - |head| == (if |outcome.text| < 200 then |outcome.text| else 200)
      && StartsWith(outcome.text, r.text[|head|..])
    ensures name == ProfileTool && (outcome.TimedOut? || outcome.RequestFailed?) ==>
      r == Plain("Exception: " + outcome.message)
    ensures name == ProfileTool && outcome.Response? && outcome.status == 200 && !r.Dumped? ==>
      r.Plain? && StartsWith(r.text, "Exception: ")
    ensures name == ProfileTool && outcome.Response? && outcome.status == 200 && outcome.body.Err? ==>
      r == Plain("Exception: " + outcome.body.error)
    ensures name == ProfileTool && outcome.Response? && outcome.status == 200 && outcome.body.Ok?
            && !outcome.body.value.Obj? ==>
      r == Plain("Exception: '" + TypeName(outcome.body.value) + "' object has no attribute 'get'")
  {
    if name == ProfileTool then
      match outcome
      case Response(status, text, body) =>
        if status == 200 then
          match body
          case Ok(doc) =>
            if doc.Obj? then Dumped(doc)
            else Plain("Exception: '" + TypeName(doc) + "' object has no attribute 'get'")
          case Err(msg) => Plain("Exception: " + msg)
        else Plain("API error " + NatToString(status) + ": " + Take(text, 200))
      case TimedOut(msg) => Plain("Exception: " + msg)
      case RequestFailed(msg) => Plain("Exception: " + msg)
    else Plain("Unknown tool: " + name)
  }

  // ---------------------------------------------------------------------
  // One turn.
  // ---------------------------------------------------------------------

  /** The tool requests of a reply, in order. */
  function ToolUses(c: seq<Block>): (u: seq<ToolUse>)
    ensures |u| <= |c|
  {
    if |c| == 0 then []
    else
      var last := c[|c| - 1];
      ToolUses(c[..|c| - 1]) + (if last.UseBlock? then [last.use] else [])
  }

  /** The tool requests of a reply are exactly its tool-use blocks. */
  lemma {:induction false} ToolUsesMembers(c: seq<Block>)
    ensures forall x :: x in ToolUses(c) <==> UseBlock(x) in c
  {
    if |c| > 0 {
      var p := c[..|c| - 1];
      ToolUsesMembers(p);
      assert c == p + [c[|c| - 1]];
    }
  }

  /** Requests are collected in block order: the requests of a joined reply
      are those of its first part followed by those of its second. */
  lemma {:induction false} ToolUsesAppend(c1: seq<Block>, c2: seq<Block>)
    ensures ToolUses(c1 + c2) == ToolUses(c1) + ToolUses(c2)
  {
    if |c2| > 0 {
      var p := c2[..|c2| - 1];
      ToolUsesAppend(c1, p);
      assert (c1 + c2)[..|c1 + c2| - 1] == c1 + p;
    } else {
      assert c1 + c2 == c1;
    }
  }

  /** The assistant message content: text and tool-use blocks, in order. */
  function AssistantParts(c: seq<Block>): seq<Part> {
    if |c| == 0 then []
    else
      AssistantParts(c[..|c| - 1]) +
        match c[|c| - 1]
        case TextBlock(t) => [TextPart(t)]
        case UseBlock(u) => [ToolUsePart(u)]
        case OtherBlock(_) => []
  }

  /** `text_response` after the block loop of one turn: the text of the last
      text block, or "" when the reply has none. */
  function LastText(c: seq<Block>): string {
    if |c| == 0 then ""
    else if c[|c| - 1].TextBlock? then c[|c| - 1].text
    else LastText(c[..|c| - 1])
  }

  /** The final text is that of the last text block, and "" when the
      reply holds none. */
  lemma {:induction false} LastTextIsLast(c: seq<Block>)
    ensures (forall i :: 0 <= i < |c| ==> !c[i].TextBlock?) ==> LastText(c) == ""
    ensures (exists i :: 0 <= i < |c| && c[i].TextBlock?) ==>
      exists i :: 0 <= i < |c| && c[i] == TextBlock(LastText(c))
                  && forall j :: i < j < |c| ==> !c[j].TextBlock?
  {
    if |c| > 0 && !c[|c| - 1].TextBlock? {
      var p := c[..|c| - 1];
      LastTextIsLast(p);
      assert forall i :: 0 <= i < |p| ==> p[i] == c[i];
    }
  }

  /** The reply ends the loop: `end_turn`, or no tool request at all. */
  predicate Stops(r: ModelResponse) {
    r.stopReason == EndTurn || |ToolUses(r.content)| == 0
  }

  function AssistantMessage(r: ModelResponse): Message {
    Message(Assistant, Parts(AssistantParts(r.content)))
  }

  /** The tool results of turn `t`: one per request, in request order. */
  function ExecuteAll(t: nat, uses: seq<ToolUse>, net: Network): (ps: seq<Part>)
    ensures |ps| == |uses|
    ensures forall j :: 0 <= j < |uses| ==> ps[j].ToolResultPart? && ps[j].toolUseId == uses[j].id
  {
    seq(|uses|, j requires 0 <= j < |uses| =>
      ToolResultPart(uses[j].id, ExecuteTool(uses[j].name, uses[j].input, net(t, j, UrlOf(uses[j].input)))))
  }

  function ResultsMessage(t: nat, r: ModelResponse, net: Network): Message {
    Message(User, Parts(ExecuteAll(t, ToolUses(r.content), net)))
  }

  /** The tool-call log entries of a reply received on turn number `turn`
      (1-based): every tool request, whether or not it is run. */
  function ToolCallsOf(turn: nat, c: seq<Block>): (calls: seq<ToolCall>)
    ensures |calls| == |ToolUses(c)|
  {
    var uses := ToolUses(c);
    seq(|uses|, i requires 0 <= i < |uses| => ToolCall(turn, uses[i].name, uses[i].input))
  }

  /** The metrics after the reply `r` to the call of 0-based turn `t`. */
  function Record(m: Metrics, t: nat, r: ModelResponse): Metrics {
    Metrics(
      m.turns + 1,
      m.totalInputTokens + r.inputTokens,
      m.totalOutputTokens + r.outputTokens,
      m.toolCalls + ToolCallsOf(t + 1, r.content),
      m.apiCalls + [ApiCall(t + 1, r.inputTokens, r.outputTokens, r.stopReason)],
      LastText(r.content))
  }

  // ---------------------------------------------------------------------
  // The loop.
  // ---------------------------------------------------------------------

  /** The loop from 0-based turn `t` on, with the history and metrics
      accumulated so far. */
  function Loop(t: nat, replies: seq<ModelResponse>, net: Network, msgs: seq<Message>, m: Metrics): RunOutcome
    requires t <= MaxTurns
    decreases MaxTurns - t
  {
    if t == MaxTurns then Completed(msgs, m)
    else if t >= |replies| then ApiRaised(t)
    else
      var r := replies[t];
      var m' := Record(m, t, r);
      var msgs' := msgs + [AssistantMessage(r)];
      if Stops(r) then Completed(msgs', m')
      else Loop(t + 1, replies, net, msgs' + [ResultsMessage(t, r, net)], m')
  }

  function InitialMessage(prompt: string): Message {
    Message(User, PlainText(prompt))
  }

  const NoMetrics := Metrics(0, 0, 0, [], [], "")

  /** `run_agent`: the loop from a history holding only the prompt. */
  function RunAgent(prompt: string, replies: seq<ModelResponse>, net: Network): RunOutcome {
    Loop(0, replies, net, [InitialMessage(prompt)], NoMetrics)
  }
}
