/** What the agentic loop guarantees: the turn budget, the stopping rule,
    the shape of the history, the pairing of tool results with tool
    requests, and the metrics. Each is proved from one characterisation of
    the loop's outcome (`Settled`) against reference definitions of the
    history and logs after k turns. */
module AgentLoop {
  import opened Core
  import opened JsonData
  import opened Agent

  // ---------------------------------------------------------------------
  // Reference definitions.
  // ---------------------------------------------------------------------

  /** The first `k` replies exist and each asked for more tool work. */
  ghost predicate ContinuesThrough(replies: seq<ModelResponse>, k: nat) {
    k <= |replies| && forall i :: 0 <= i < k ==> !Stops(replies[i])
  }

  /** The history after `k` continuing turns: the prompt, then per turn the
      assistant message and the message with its tool results. */
  function Transcript(prompt: string, replies: seq<ModelResponse>, net: Network, k: nat): seq<Message>
    requires k <= |replies|
  {
    if k == 0 then [InitialMessage(prompt)]
    else Transcript(prompt, replies, net, k - 1)
         + [AssistantMessage(replies[k - 1]), ResultsMessage(k - 1, replies[k - 1], net)]
  }

  /** One `api_calls` entry per model call, numbered from 1. */
  function ApiLog(replies: seq<ModelResponse>, k: nat): seq<ApiCall>
    requires k <= |replies|
  {
    seq(k, i requires 0 <= i < k =>
      ApiCall(i + 1, replies[i].inputTokens, replies[i].outputTokens, replies[i].stopReason))
  }

  /** Every tool request of the first `k` replies, in order. */
  function ToolLog(replies: seq<ModelResponse>, k: nat): seq<ToolCall>
    requires k <= |replies|
  {
    if k == 0 then [] else ToolLog(replies, k - 1) + ToolCallsOf(k, replies[k - 1].content)
  }

  function SumInput(calls: seq<ApiCall>): nat {
    if |calls| == 0 then 0 else SumInput(calls[..|calls| - 1]) + calls[|calls| - 1].inputTokens
  }

  function SumOutput(calls: seq<ApiCall>): nat {
    if |calls| == 0 then 0 else SumOutput(calls[..|calls| - 1]) + calls[|calls| - 1].outputTokens
  }

  /** The metrics after `k` model calls. */
  ghost predicate MetricsAfter(replies: seq<ModelResponse>, k: nat, m: Metrics) {
    && k <= |replies|
    && m.turns == k
    && m.apiCalls == ApiLog(replies, k)
    && m.totalInputTokens == SumInput(m.apiCalls)
    && m.totalOutputTokens == SumOutput(m.apiCalls)
    && m.toolCalls == ToolLog(replies, k)
    && (k > 0 ==> m.finalResponse == LastText(replies[k - 1].content))
  }

  /** How a run ends. A raise happens at the first turn with no reply, all
      earlier replies having continued. A completed run made `turns` calls,
      all but the last continuing; it stopped on the last reply and its
      history ends with that reply, or it used the whole budget and its
      history ends with the last tool results. */
  ghost predicate Settled(prompt: string, replies: seq<ModelResponse>, net: Network, o: RunOutcome) {
    match o
    case ApiRaised(k) => k < MaxTurns && k == |replies| && ContinuesThrough(replies, k)
    case Completed(msgs, m) =>
      var k := m.turns;
      && 1 <= k <= MaxTurns
      && k <= |replies|
      && ContinuesThrough(replies, k - 1)
      && MetricsAfter(replies, k, m)
      && if Stops(replies[k - 1])
         then msgs == Transcript(prompt, replies, net, k - 1) + [AssistantMessage(replies[k - 1])]
         else k == MaxTurns && msgs == Transcript(prompt, replies, net, MaxTurns)
  }

  // ---------------------------------------------------------------------
  // The characterisation.
  // ---------------------------------------------------------------------

  lemma {:induction false} RecordKeepsMetrics(replies: seq<ModelResponse>, t: nat, m: Metrics)
    requires t < |replies|
    requires MetricsAfter(replies, t, m)
    ensures MetricsAfter(replies, t + 1, Record(m, t, replies[t]))
  {
    var m' := Record(m, t, replies[t]);
    assert m'.apiCalls == ApiLog(replies, t + 1);
    assert m'.apiCalls[..t] == m.apiCalls;
  }

  /** A reply that stops the loop after `t` continuing turns settles it
      with that reply appended to the transcript. */
  lemma StopSettles(prompt: string, replies: seq<ModelResponse>, net: Network, t: nat, msgs: seq<Message>, m: Metrics)
    requires t < MaxTurns && t < |replies| && Stops(replies[t])
    requires ContinuesThrough(replies, t)
    requires msgs == Transcript(prompt, replies, net, t)
    requires MetricsAfter(replies, t + 1, m)
    ensures Settled(prompt, replies, net, Completed(msgs + [AssistantMessage(replies[t])], m))
  {
  }

  lemma {:induction false} LoopSettles(
    prompt: string, replies: seq<ModelResponse>, net: Network, t: nat, msgs: seq<Message>, m: Metrics)
    requires t <= MaxTurns
    requires ContinuesThrough(replies, t)
    requires msgs == Transcript(prompt, replies, net, t)
    requires MetricsAfter(replies, t, m)
    ensures Settled(prompt, replies, net, Loop(t, replies, net, msgs, m))
    decreases MaxTurns - t
  {
    if t == MaxTurns {
    } else if t >= |replies| {
    } else {
      var r := replies[t];
      var m' := Record(m, t, r);
      RecordKeepsMetrics(replies, t, m);
      if Stops(r) {
        StopSettles(prompt, replies, net, t, msgs, m');
      } else {
        var msgs' := msgs + [AssistantMessage(r)] + [ResultsMessage(t, r, net)];
        assert msgs' == Transcript(prompt, replies, net, t + 1);
        LoopSettles(prompt, replies, net, t + 1, msgs', m');
      }
    }
  }

  /** Every run of the agent ends as `Settled` describes. */
  lemma RunSettles(prompt: string, replies: seq<ModelResponse>, net: Network)
    ensures Settled(prompt, replies, net, RunAgent(prompt, replies, net))
  {
    LoopSettles(prompt, replies, net, 0, [InitialMessage(prompt)], NoMetrics);
  }

  /** The history after `k` continuing turns: `1 + 2k` messages, turn `i`'s
      reply at `2i+1` and its tool results at `2i+2`. */
  lemma {:induction false} TranscriptTurns(prompt: string, replies: seq<ModelResponse>, net: Network, k: nat)
    requires k <= |replies|
    ensures var h := Transcript(prompt, replies, net, k);
      && |h| == 1 + 2 * k
      && h[0] == InitialMessage(prompt)
      && (forall i :: 0 <= i < k ==>
            h[2 * i + 1] == AssistantMessage(replies[i]) && h[2 * i + 2] == ResultsMessage(i, replies[i], net))
  {
    if k > 0 {
      TranscriptTurns(prompt, replies, net, k - 1);
      var prev := Transcript(prompt, replies, net, k - 1);
      var h := Transcript(prompt, replies, net, k);
      assert h == prev + [AssistantMessage(replies[k - 1]), ResultsMessage(k - 1, replies[k - 1], net)];
      forall i | 0 <= i < k - 1
        ensures h[2 * i + 1] == AssistantMessage(replies[i]) && h[2 * i + 2] == ResultsMessage(i, replies[i], net)
      {
        assert h[2 * i + 1] == prev[2 * i + 1] && h[2 * i + 2] == prev[2 * i + 2];
      }
    }
  }

  /** The history after `k` continuing turns alternates user/assistant from
      the prompt. */
  lemma {:induction false} TranscriptShape(prompt: string, replies: seq<ModelResponse>, net: Network, k: nat)
    requires k <= |replies|
    ensures var h := Transcript(prompt, replies, net, k);
      && |h| == 1 + 2 * k
      && h[0] == InitialMessage(prompt)
      && (forall j :: 0 <= j < |h| ==> h[j].role == if j % 2 == 0 then User else Assistant)
      && (forall i :: 0 <= i < k ==>
            h[2 * i + 1] == AssistantMessage(replies[i]) && h[2 * i + 2] == ResultsMessage(i, replies[i], net))
  {
    TranscriptTurns(prompt, replies, net, k);
    var h := Transcript(prompt, replies, net, k);
    forall j | 0 <= j < |h| ensures h[j].role == if j % 2 == 0 then User else Assistant {
      if j > 0 {
        var i := (j - 1) / 2;
        if j % 2 == 1 {
          assert j == 2 * i + 1;
          assert h[j] == AssistantMessage(replies[i]);
        } else {
          assert j == 2 * i + 2;
          assert h[j] == ResultsMessage(i, replies[i], net);
        }
      }
    }
  }

  // ---------------------------------------------------------------------
  // Pairing of tool results with tool requests.
  // ---------------------------------------------------------------------

  function Ids(uses: seq<ToolUse>): seq<string> {
    seq(|uses|, i requires 0 <= i < |uses| => uses[i].id)
  }

  /** The tool requests among a message's parts, in order. */
  function UsesIn(ps: seq<Part>): seq<ToolUse> {
    if |ps| == 0 then []
    else UsesIn(ps[..|ps| - 1]) + (if ps[|ps| - 1].ToolUsePart? then [ps[|ps| - 1].use] else [])
  }

  /** The `tool_use_id`s of a message's tool results, in order. */
  function ResultIdsIn(ps: seq<Part>): seq<string> {
    if |ps| == 0 then []
    else ResultIdsIn(ps[..|ps| - 1]) + (if ps[|ps| - 1].ToolResultPart? then [ps[|ps| - 1].toolUseId] else [])
  }

  function UseIds(msg: Message): seq<string> {
    match msg.content
    case PlainText(_) => []
    case Parts(ps) => Ids(UsesIn(ps))
  }

  function ResultIds(msg: Message): seq<string> {
    match msg.content
    case PlainText(_) => []
    case Parts(ps) => ResultIdsIn(ps)
  }

  /** The assistant message keeps every tool request of the reply, in order. */
  lemma {:induction false} UsesInAssistantParts(c: seq<Block>)
    ensures UsesIn(AssistantParts(c)) == ToolUses(c)
  {
    if |c| > 0 {
      var p := c[..|c| - 1];
      UsesInAssistantParts(p);
      var a := AssistantParts(p);
      match c[|c| - 1]
      case TextBlock(t) =>
        assert AssistantParts(c) == a + [TextPart(t)];
        assert (a + [TextPart(t)])[..|a|] == a;
      case UseBlock(u) =>
        assert AssistantParts(c) == a + [ToolUsePart(u)];
        assert (a + [ToolUsePart(u)])[..|a|] == a;
      case OtherBlock(_) =>
        assert AssistantParts(c) == a;
    }
  }

  /** A list made only of tool results lists their ids in order. */
  lemma {:induction false} ResultIdsOfResults(ps: seq<Part>)
    requires forall j :: 0 <= j < |ps| ==> ps[j].ToolResultPart?
    ensures ResultIdsIn(ps) == seq(|ps|, j requires 0 <= j < |ps| => ps[j].toolUseId)
  {
    if |ps| > 0 {
      ResultIdsOfResults(ps[..|ps| - 1]);
    }
  }

  /** The results message of a continuing turn answers exactly the requests
      of that turn's assistant message, in the same order. */
  lemma ResultsAnswerReply(t: nat, r: ModelResponse, net: Network)
    ensures ResultIds(ResultsMessage(t, r, net)) == UseIds(AssistantMessage(r))
  {
    var uses := ToolUses(r.content);
    var ps := ExecuteAll(t, uses, net);
    ResultIdsOfResults(ps);
    UsesInAssistantParts(r.content);
  }

  // ---------------------------------------------------------------------
  // The guarantees of run_agent.
  // ---------------------------------------------------------------------

  /** At most `MaxTurns` model calls; `api_calls` has one entry per call,
      numbered 1.. in order, with that call's token counts. */
  lemma TurnBudget(prompt: string, replies: seq<ModelResponse>, net: Network)
    ensures var o := RunAgent(prompt, replies, net);
      o.Completed? ==>
        && 1 <= o.metrics.turns <= MaxTurns
        && |o.metrics.apiCalls| == o.metrics.turns
        && forall i :: 0 <= i < |o.metrics.apiCalls| ==>
             && o.metrics.apiCalls[i].turn == i + 1
             && o.metrics.apiCalls[i].inputTokens == replies[i].inputTokens
             && o.metrics.apiCalls[i].outputTokens == replies[i].outputTokens
    ensures var o := RunAgent(prompt, replies, net);
      o.ApiRaised? ==> o.turn < MaxTurns
  {
    RunSettles(prompt, replies, net);
  }

  /** The loop stops right after the first reply that says `end_turn` or
      requests no tool, or after `MaxTurns` replies; a missing reply before
      that raises. With a reply for every turn of the budget, the run always
      completes. */
  lemma StoppingRule(prompt: string, replies: seq<ModelResponse>, net: Network)
    ensures var o := RunAgent(prompt, replies, net);
      o.Completed? ==>
        var k := o.metrics.turns;
        && k <= |replies|
        && (forall i :: 0 <= i < k - 1 ==> !Stops(replies[i]))
        && (Stops(replies[k - 1]) || k == MaxTurns)
    ensures var o := RunAgent(prompt, replies, net);
      o.ApiRaised? ==>
        o.turn == |replies| && forall i :: 0 <= i < o.turn ==> !Stops(replies[i])
    ensures |replies| >= MaxTurns ==> RunAgent(prompt, replies, net).Completed?
  {
    RunSettles(prompt, replies, net);
  }

  /** The history of a completed run is the transcript of its continuing
      turns, followed by the final reply when the run stopped on it. */
  lemma CompletedHistory(prompt: string, replies: seq<ModelResponse>, net: Network)
    requires RunAgent(prompt, replies, net).Completed?
    ensures var o := RunAgent(prompt, replies, net);
      var k := o.metrics.turns;
      && 1 <= k <= MaxTurns && k <= |replies|
      && (Stops(replies[k - 1]) ==>
            o.messages == Transcript(prompt, replies, net, k - 1) + [AssistantMessage(replies[k - 1])])
      && (!Stops(replies[k - 1]) ==> o.messages == Transcript(prompt, replies, net, k))
  {
    RunSettles(prompt, replies, net);
  }

  /** User/assistant alternation starting from the prompt. */
  ghost predicate Alternates(h: seq<Message>) {
    forall j :: 0 <= j < |h| ==> h[j].role == if j % 2 == 0 then User else Assistant
  }

  /** Appending the stopping reply to a transcript keeps the alternation and
      ends the history on the assistant. */
  lemma StoppedShape(prompt: string, replies: seq<ModelResponse>, net: Network, k: nat)
    requires 1 <= k <= |replies|
    ensures var h := Transcript(prompt, replies, net, k - 1) + [AssistantMessage(replies[k - 1])];
      && |h| == 2 * k
      && h[0] == InitialMessage(prompt)
      && Alternates(h)
      && h[|h| - 1].role == Assistant
  {
    TranscriptShape(prompt, replies, net, k - 1);
    var tr := Transcript(prompt, replies, net, k - 1);
    var h := tr + [AssistantMessage(replies[k - 1])];
    forall j | 0 <= j < |h| ensures h[j].role == if j % 2 == 0 then User else Assistant {
      if j < |tr| {
        assert h[j] == tr[j];
      } else {
        assert j == 2 * (k - 1) + 1;
      }
    }
  }

  /** The history starts with the prompt and alternates user/assistant. A
      run that stopped on its k-th reply holds 2k messages and ends with the
      assistant's reply; a run that used the whole budget holds
      `1 + 2 * MaxTurns` and ends with tool results. */
  lemma HistoryShape(prompt: string, replies: seq<ModelResponse>, net: Network)
    ensures var o := RunAgent(prompt, replies, net);
      o.Completed? ==>
        var h := o.messages;
        var k := o.metrics.turns;
        && |h| == (if Stops(replies[k - 1]) then 2 * k else 1 + 2 * MaxTurns)
        && h[0] == InitialMessage(prompt)
        && Alternates(h)
        && (h[|h| - 1].role == Assistant <==> Stops(replies[k - 1]))
  {
    var o := RunAgent(prompt, replies, net);
    RunSettles(prompt, replies, net);
    if o.Completed? {
      SettledShape(prompt, replies, net, o);
    }
  }

  /** The shape of the history, for any completed outcome the loop can
      settle on. */
  lemma SettledShape(prompt: string, replies: seq<ModelResponse>, net: Network, o: RunOutcome)
    requires Settled(prompt, replies, net, o) && o.Completed?
    ensures var h := o.messages;
      var k := o.metrics.turns;
      && |h| == (if Stops(replies[k - 1]) then 2 * k else 1 + 2 * MaxTurns)
      && h[0] == InitialMessage(prompt)
      && Alternates(h)
      && (h[|h| - 1].role == Assistant <==> Stops(replies[k - 1]))
  {
    var k := o.metrics.turns;
    if Stops(replies[k - 1]) {
      StoppedShape(prompt, replies, net, k);
    } else {
      TranscriptShape(prompt, replies, net, k);
      assert (2 * k) % 2 == 0;
    }
  }

  /** In a history of `k` replies, the assistant message of turn `i` sits
      at position `2i + 1`. */
  lemma HistoryAssistants(prompt: string, replies: seq<ModelResponse>, net: Network, k: nat, h: seq<Message>)
    requires 1 <= k <= |replies|
    requires Stops(replies[k - 1]) ==> h == Transcript(prompt, replies, net, k - 1) + [AssistantMessage(replies[k - 1])]
    requires !Stops(replies[k - 1]) ==> h == Transcript(prompt, replies, net, k)
    ensures |h| >= 2 * k
    ensures forall i :: 0 <= i < k ==> h[2 * i + 1] == AssistantMessage(replies[i])
  {
    if Stops(replies[k - 1]) {
      TranscriptTurns(prompt, replies, net, k - 1);
      var tr := Transcript(prompt, replies, net, k - 1);
      forall i | 0 <= i < k ensures h[2 * i + 1] == AssistantMessage(replies[i]) {
        if i < k - 1 {
          assert h[2 * i + 1] == tr[2 * i + 1];
        }
      }
    } else {
      TranscriptTurns(prompt, replies, net, k);
    }
  }

  /** Every assistant message holds exactly its reply's text and tool
      requests, in order. */
  lemma AssistantMessagesKept(prompt: string, replies: seq<ModelResponse>, net: Network)
    ensures var o := RunAgent(prompt, replies, net);
      o.Completed? ==>
        && |o.messages| >= 2 * o.metrics.turns
        && forall i :: 0 <= i < o.metrics.turns ==> o.messages[2 * i + 1] == AssistantMessage(replies[i])
  {
    var o := RunAgent(prompt, replies, net);
    if o.Completed? {
      CompletedHistory(prompt, replies, net);
      HistoryAssistants(prompt, replies, net, o.metrics.turns, o.messages);
    }
  }

  /** In the transcript of continuing turns, every message after an
      assistant message answers that message's tool requests, in order. */
  lemma TranscriptPairs(prompt: string, replies: seq<ModelResponse>, net: Network, k: nat)
    requires k <= |replies|
    ensures var tr := Transcript(prompt, replies, net, k);
      forall j :: 0 <= j < |tr| - 1 && tr[j].role == Assistant ==> ResultIds(tr[j + 1]) == UseIds(tr[j])
  {
    TranscriptShape(prompt, replies, net, k);
    var tr := Transcript(prompt, replies, net, k);
    forall j | 0 <= j < |tr| - 1 && tr[j].role == Assistant
      ensures ResultIds(tr[j + 1]) == UseIds(tr[j])
    {
      var i := j / 2;
      assert j % 2 == 1;
      assert j == 2 * i + 1;
      ResultsAnswerReply(i, replies[i], net);
    }
  }

  /** A message appended after a user message has nothing to answer, so
      the pairing of the earlier messages carries over. */
  lemma PairedAfterUser(h: seq<Message>, last: Message)
    requires |h| > 0 && h[|h| - 1].role == User
    requires forall j :: 0 <= j < |h| - 1 && h[j].role == Assistant ==> ResultIds(h[j + 1]) == UseIds(h[j])
    ensures var h' := h + [last];
      forall j :: 0 <= j < |h'| - 1 && h'[j].role == Assistant ==> ResultIds(h'[j + 1]) == UseIds(h'[j])
  {
    var h' := h + [last];
    forall j | 0 <= j < |h'| - 1 && h'[j].role == Assistant
      ensures ResultIds(h'[j + 1]) == UseIds(h'[j])
    {
      assert h'[j] == h[j] && h'[j + 1] == h[j + 1];
    }
  }

  /** A history made of the transcript of the continuing turns, followed
      by the stopping reply when there is one, pairs results with requests. */
  lemma HistoryPairs(prompt: string, replies: seq<ModelResponse>, net: Network, k: nat, h: seq<Message>)
    requires 1 <= k <= |replies|
    requires Stops(replies[k - 1]) ==> h == Transcript(prompt, replies, net, k - 1) + [AssistantMessage(replies[k - 1])]
    requires !Stops(replies[k - 1]) ==> h == Transcript(prompt, replies, net, k)
    ensures forall j :: 0 <= j < |h| - 1 && h[j].role == Assistant ==> ResultIds(h[j + 1]) == UseIds(h[j])
  {
    if Stops(replies[k - 1]) {
      var tr := Transcript(prompt, replies, net, k - 1);
      TranscriptShape(prompt, replies, net, k - 1);
      TranscriptPairs(prompt, replies, net, k - 1);
      assert tr[|tr| - 1].role == User by {
        assert (|tr| - 1) % 2 == 0;
      }
      PairedAfterUser(tr, AssistantMessage(replies[k - 1]));
    } else {
      TranscriptPairs(prompt, replies, net, k);
    }
  }

  /** The pairing of results with requests, for any outcome the loop can
      settle on. */
  lemma SettledPairs(prompt: string, replies: seq<ModelResponse>, net: Network, o: RunOutcome)
    requires Settled(prompt, replies, net, o) && o.Completed?
    ensures var h := o.messages;
      forall j :: 0 <= j < |h| - 1 && h[j].role == Assistant ==> ResultIds(h[j + 1]) == UseIds(h[j])
  {
    HistoryPairs(prompt, replies, net, o.metrics.turns, o.messages);
  }

  /** Every message that follows an assistant message lists, in order,
      results for exactly the tool requests of that assistant message. */
  lemma ResultsFollowRequests(prompt: string, replies: seq<ModelResponse>, net: Network)
    ensures var o := RunAgent(prompt, replies, net);
      o.Completed? ==>
        var h := o.messages;
        forall j :: 0 <= j < |h| - 1 && h[j].role == Assistant ==> ResultIds(h[j + 1]) == UseIds(h[j])
  {
    var o := RunAgent(prompt, replies, net);
    RunSettles(prompt, replies, net);
    if o.Completed? {
      SettledPairs(prompt, replies, net, o);
    }
  }

  /** The tool requests of the reply that stops the loop are logged in
      `tool_calls` and kept in the last history message, but no tool is run
      for them: no results message follows. */
  lemma StoppingRequestsNotRun(prompt: string, replies: seq<ModelResponse>, net: Network)
    ensures var o := RunAgent(prompt, replies, net);
      o.Completed? && Stops(replies[o.metrics.turns - 1]) ==>
        var last := replies[o.metrics.turns - 1];
        var calls := o.metrics.toolCalls;
        && o.messages[|o.messages| - 1] == AssistantMessage(last)
        && UseIds(o.messages[|o.messages| - 1]) == Ids(ToolUses(last.content))
        && |ToolCallsOf(o.metrics.turns, last.content)| <= |calls|
        && calls[|calls| - |ToolCallsOf(o.metrics.turns, last.content)|..] == ToolCallsOf(o.metrics.turns, last.content)
  {
    var o := RunAgent(prompt, replies, net);
    RunSettles(prompt, replies, net);
    if o.Completed? && Stops(replies[o.metrics.turns - 1]) {
      UsesInAssistantParts(replies[o.metrics.turns - 1].content);
    }
  }

  /** The token totals are the sums of the per-call counts in `api_calls`. */
  lemma TokenTotals(prompt: string, replies: seq<ModelResponse>, net: Network)
    ensures var o := RunAgent(prompt, replies, net);
      o.Completed? ==>
        && o.metrics.totalInputTokens == SumInput(o.metrics.apiCalls)
        && o.metrics.totalOutputTokens == SumOutput(o.metrics.apiCalls)
  {
    RunSettles(prompt, replies, net);
  }

  /** `final_response` is the last text block of the final reply only, or
      "" when that reply has none, even if earlier replies had text. */
  lemma FinalResponse(prompt: string, replies: seq<ModelResponse>, net: Network)
    ensures var o := RunAgent(prompt, replies, net);
      o.Completed? ==>
        var c := replies[o.metrics.turns - 1].content;
        && o.metrics.finalResponse == LastText(c)
        && ((forall i :: 0 <= i < |c| ==> !c[i].TextBlock?) ==> o.metrics.finalResponse == "")
  {
    RunSettles(prompt, replies, net);
    var o := RunAgent(prompt, replies, net);
    if o.Completed? {
      LastTextIsLast(replies[o.metrics.turns - 1].content);
    }
  }

  /** A first reply that needs no tool ends the run after one call, with
      the prompt and that reply as the whole history. */
  lemma FirstReplyFinishes(prompt: string, replies: seq<ModelResponse>, net: Network)
    requires |replies| > 0 && Stops(replies[0])
    ensures var o := RunAgent(prompt, replies, net);
      && o.Completed?
      && o.metrics.turns == 1
      && o.messages == [InitialMessage(prompt), AssistantMessage(replies[0])]
  {
    RunSettles(prompt, replies, net);
  }

  /** A model that asks for a tool on every turn exhausts the budget:
      exactly `MaxTurns` calls and `1 + 2 * MaxTurns` messages, and every
      request was run, even when every tool run failed. */
  lemma BudgetExhausted(prompt: string, replies: seq<ModelResponse>, net: Network)
    requires |replies| >= MaxTurns
    requires forall i :: 0 <= i < MaxTurns ==> !Stops(replies[i])
    ensures var o := RunAgent(prompt, replies, net);
      && o.Completed?
      && o.metrics.turns == MaxTurns
      && |o.messages| == 1 + 2 * MaxTurns
      && o.messages[|o.messages| - 1] == ResultsMessage(MaxTurns - 1, replies[MaxTurns - 1], net)
  {
    RunSettles(prompt, replies, net);
    TranscriptShape(prompt, replies, net, MaxTurns);
  }
}
