/**
 * The conversation loop: the transcript sent to the language model, the bounded rounds of
 * tool calls, the dispatch of each call through the handler table and the final answer.
 *
 * The provider is a function from the transcript it is sent to its reply, and the handlers are a
 * function from (position of the call among all calls of the conversation, name, arguments) to
 * what the handler returned or threw.
 */
module Chat {
  import opened Wrappers
  import opened Json
  import Text
  import Catalog
  import Handlers

  // ---------------------------------------------------------------- data model

  /** The chat mode: simulate changes or carry them out. */
  datatype Mode = Simulation | Actual

  /** A persisted chat message; the role is 'user' or 'assistant'. */
  datatype ChatMessage = ChatMessage(role: string, content: string)

  /** The roles of the provider's transcript. */
  datatype Role = User | Model

  /** A tool call the model asks for; the name and the arguments may be missing. */
  datatype FunctionCall = FunctionCall(name: Option<string>, args: Option<Json>)

  /** The answer to one tool call, sent back to the model. */
  datatype FunctionResponse = FunctionResponse(name: string, response: Json)

  /** One part of a turn: text, a tool call, or a tool response. */
  datatype Part = Part(text: Option<string>, functionCall: Option<FunctionCall>, functionResponse: Option<FunctionResponse>)

  /** One turn of the transcript. */
  datatype Content = Content(role: Role, parts: seq<Part>)

  /** What the provider returned for one request. */
  datatype Reply =
    | Raised(message: string)                         // the request itself threw
    | Response(candidate: Option<Candidate>)          // `response.candidates?.[0]`
  datatype Candidate = Candidate(content: Option<CandidateContent>)
  datatype CandidateContent = CandidateContent(parts: Option<seq<Part>>)

  /** A request to the provider: the transcript and the tool declarations. */
  datatype ProviderCall = ProviderCall(contents: seq<Content>, tools: seq<Catalog.Tool>)

  /** What a handler did: returned a value, threw an `Error` with a message, or threw something else. */
  datatype Outcome = Returned(value: Json) | ThrewError(message: string) | ThrewOther

  /** One executed tool call as reported to the caller. */
  datatype FunctionCallResult = FunctionCallResult(name: string, args: Json, result: Json)

  datatype ChatResponse = ChatResponse(content: string, functionCalls: seq<FunctionCallResult>)

  /** The round limit. */
  const MaxIterations: nat := 10

  const NoValidResponse := "No valid response from Gemini"
  const FallbackText := "エラーが発生しました。"
  const AbortText := "処理が複雑すぎるため、中断しました。もう少し具体的にお伝えいただけますか？"
  const UnknownError := "Unknown error"

  // ---------------------------------------------------------------- system prompt

  /** The opening of the system prompt (the rest of its wording is not modelled). */
  const BasePrompt := "あなたはStripe APIを操作するアシスタントです。"
  const SimulationSuffix := "\n\n【シミュレーションモード】\n現在はシミュレーションモードです。"
  const ExecutionSuffix := "\n\n【実行モード】\n現在は実行モードです。"

  /** The base prompt followed by the simulation section in simulation mode and the execution section otherwise. */
  function SystemPrompt(mode: Mode): (prompt: string)
    ensures Text.StartsWith(prompt, BasePrompt)
    ensures prompt[|BasePrompt|..] == if mode == Simulation then SimulationSuffix else ExecutionSuffix
  {
    BasePrompt + (if mode == Simulation then SimulationSuffix else ExecutionSuffix)
  }

  /** The two modes get different prompts, so the mode always reaches the model. */
  lemma SystemPromptDistinguishesModes()
    ensures SystemPrompt(Simulation) != SystemPrompt(Actual)
  {
    assert SystemPrompt(Simulation)[|BasePrompt| + 4] != SystemPrompt(Actual)[|BasePrompt| + 4];
  }

  // ---------------------------------------------------------------- transcript seeding

  function TextPart(text: string): Part {
    Part(Some(text), None, None)
  }

  /** `msg.role === 'user' ? 'user' : 'model'`. */
  function RoleOf(role: string): Role {
    if role == "user" then User else Model
  }

  /** The transcript the loop starts from. */
  function Seed(messages: seq<ChatMessage>, mode: Mode): seq<Content> {
    if |messages| > 0 then
      [Content(User, [TextPart(SystemPrompt(mode) + "\n\n" + messages[0].content)])]
      + seq(|messages| - 1, i requires 0 <= i < |messages| - 1 =>
          Content(RoleOf(messages[i + 1].role), [TextPart(messages[i + 1].content)]))
    else
      [Content(User, [TextPart(SystemPrompt(mode))])]
  }

  /**
   * With history, the first turn is a user turn carrying the system prompt, a blank line and the first
   * message, whatever that message's role; every later message follows in order, 'user' as user and
   * anything else as model. Without history the transcript is the system prompt alone.
   */
  lemma SeedShape(messages: seq<ChatMessage>, mode: Mode)
    ensures |messages| > 0 ==> |Seed(messages, mode)| == |messages|
    ensures |messages| > 0 ==> Seed(messages, mode)[0] == Content(User, [TextPart(SystemPrompt(mode) + "\n\n" + messages[0].content)])
    ensures forall i :: 1 <= i < |messages| ==>
      && Seed(messages, mode)[i].parts == [TextPart(messages[i].content)]
      && (Seed(messages, mode)[i].role == User <==> messages[i].role == "user")
    ensures |messages| == 0 ==> Seed(messages, mode) == [Content(User, [TextPart(SystemPrompt(mode))])]
  {
    forall i | 1 <= i < |messages|
      ensures Seed(messages, mode)[i] == Content(RoleOf(messages[i].role), [TextPart(messages[i].content)])
    {
    }
  }

  /** The seeding loop of the source: one turn per message, the first one carrying the system prompt. */
  method SeedContents(messages: seq<ChatMessage>, mode: Mode) returns (contents: seq<Content>)
    ensures contents == Seed(messages, mode)
  {
    var systemPrompt := SystemPrompt(mode);
    contents := [];
    if |messages| > 0 {
      contents := contents + [Content(User, [TextPart(systemPrompt + "\n\n" + messages[0].content)])];
      var i := 1;
      while i < |messages|
        invariant 1 <= i <= |messages|
        invariant |contents| == i
        invariant contents[0] == Content(User, [TextPart(systemPrompt + "\n\n" + messages[0].content)])
        invariant forall j :: 1 <= j < i ==> contents[j] == Content(RoleOf(messages[j].role), [TextPart(messages[j].content)])
      {
        var msg := messages[i];
        contents := contents + [Content(if msg.role == "user" then User else Model, [TextPart(msg.content)])];
        i := i + 1;
      }
    } else {
      contents := contents + [Content(User, [TextPart(systemPrompt)])];
    }
  }

  // ---------------------------------------------------------------- one tool call

  /** `'functionCall' in part && part.functionCall`. */
  predicate IsCallPart(part: Part) {
    part.functionCall.Some?
  }

  /** A call the loop processes: it has a non-empty name. */
  predicate IsNamed(call: FunctionCall) {
    call.name.Some? && call.name.value != ""
  }

  /** `functionCall.args || {}`. */
  function ArgsOf(call: FunctionCall): Json {
    Handlers.OrDefault(call.args, JObj([]))
  }

  /** What the tool response carries for a handler's outcome. */
  function Normalize(outcome: Outcome): (result: Json)
    ensures IsObjectLike(result)
    ensures outcome.Returned? && IsObjectLike(outcome.value) ==> result == outcome.value
    ensures outcome.Returned? && !IsObjectLike(outcome.value) ==> result == JObj([("value", outcome.value)])
    ensures outcome.ThrewError? ==> result == ErrorObject(outcome.message)
    ensures outcome.ThrewOther? ==> result == ErrorObject(UnknownError)
  {
    match outcome
    case Returned(v) => if IsObjectLike(v) then v else JObj([("value", v)])
    case ThrewError(m) => ErrorObject(m)
    case ThrewOther => ErrorObject(UnknownError)
  }

  /** The result of a named call, the `k`-th processed call of the conversation. */
  function CallResult(call: FunctionCall, invoke: (nat, string, Json) -> Outcome, k: nat): (r: FunctionCallResult)
    requires IsNamed(call)
    ensures r.name == call.name.value && r.args == ArgsOf(call)
    ensures !Handlers.HasHandler(r.name) ==> r.result == ErrorObject("Unknown function: " + r.name)
    ensures Handlers.HasHandler(r.name) ==> r.result == Normalize(invoke(k, r.name, r.args))
  {
    var name := call.name.value;
    var args := ArgsOf(call);
    FunctionCallResult(name, args,
      if Handlers.HasHandler(name) then Normalize(invoke(k, name, args))
      else ErrorObject("Unknown function: " + name))
  }

  /** Every per-call result is an object, so a tool failure never escapes the loop as an exception. */
  lemma CallResultIsObject(call: FunctionCall, invoke: (nat, string, Json) -> Outcome, k: nat)
    requires IsNamed(call)
    ensures IsObjectLike(CallResult(call, invoke, k).result)
    ensures HasKey(CallResult(call, invoke, k).result, "error") <==>
      !Handlers.HasHandler(call.name.value)
      || !invoke(k, call.name.value, ArgsOf(call)).Returned?
      || HasKey(invoke(k, call.name.value, ArgsOf(call)).value, "error")
  {
    var outcome := invoke(k, call.name.value, ArgsOf(call));
    if Handlers.HasHandler(call.name.value) && outcome.Returned? && !IsObjectLike(outcome.value) {
      assert Lookup([("value", outcome.value)], "error") == Lookup([], "error");
    }
  }

  // ---------------------------------------------------------------- the handler lookup as written

  /** `functionHandlers[name]` is truthy: an own handler or an inherited member. */
  predicate FoundAsWritten(name: string) {
    Handlers.HasHandler(name) || name in InheritedMembers
  }

  /**
   * The per-call result as the source computes it: an inherited member passes the `if (handler)` test and
   * is called in place of a handler; `inherited` is what that call returns or throws.
   */
  function CallResultAsWritten(call: FunctionCall, invoke: (nat, string, Json) -> Outcome,
                               inherited: string -> Outcome, k: nat): (r: FunctionCallResult)
    requires IsNamed(call)
    ensures r.name == call.name.value && r.args == ArgsOf(call)
    ensures Handlers.HasHandler(r.name) ==> r == CallResult(call, invoke, k)
    ensures !FoundAsWritten(r.name) ==> r == CallResult(call, invoke, k)
    ensures !Handlers.HasHandler(r.name) && FoundAsWritten(r.name) ==> r.result == Normalize(inherited(r.name))
  {
    var name := call.name.value;
    var args := ArgsOf(call);
    FunctionCallResult(name, args,
      if Handlers.HasHandler(name) then Normalize(invoke(k, name, args))
      else if name in InheritedMembers then Normalize(inherited(name))
      else ErrorObject("Unknown function: " + name))
  }

  /**
   * A call named "toString" is no tool, yet the table lookup finds `Object.prototype.toString`, which,
   * called without a receiver, returns "[object Undefined]": the model is told the call succeeded with that
   * value. Looking up own handlers only, as `CallResult` does, answers "Unknown function: toString".
   */
  lemma ToStringIsDispatchedAsWritten(args: Option<Json>, invoke: (nat, string, Json) -> Outcome,
                                      inherited: string -> Outcome, k: nat)
    requires inherited("toString") == Returned(JStr("[object Undefined]"))
    ensures !Handlers.HasHandler("toString") && FoundAsWritten("toString")
    ensures CallResultAsWritten(FunctionCall(Some("toString"), args), invoke, inherited, k).result
      == JObj([("value", JStr("[object Undefined]"))])
    ensures CallResult(FunctionCall(Some("toString"), args), invoke, k).result == ErrorObject("Unknown function: toString")
  {
    Handlers.ToStringIsNoHandler();
    assert InheritedMembers[5] == "toString";
    assert "Unknown function: " + "toString" == "Unknown function: toString";
  }

  // ---------------------------------------------------------------- one round

  /** The call parts of a reply, in order (`parts.filter(...)`). */
  function CallParts(parts: seq<Part>): seq<FunctionCall>
    decreases |parts|
  {
    if |parts| == 0 then []
    else
      var init := CallParts(parts[..|parts| - 1]);
      var last := parts[|parts| - 1];
      if IsCallPart(last) then init + [last.functionCall.value] else init
  }

  /** The filter keeps exactly the calls of the parts: none is lost and none is invented. */
  lemma {:induction false} CallPartsAreTheCalls(parts: seq<Part>)
    ensures |CallParts(parts)| <= |parts|
    ensures forall c :: c in CallParts(parts) <==> exists i :: 0 <= i < |parts| && parts[i].functionCall == Some(c)
    decreases |parts|
  {
    if |parts| > 0 {
      var init := parts[..|parts| - 1];
      CallPartsAreTheCalls(init);
      assert forall i :: 0 <= i < |init| ==> init[i] == parts[i];
      forall c | exists i :: 0 <= i < |parts| && parts[i].functionCall == Some(c)
        ensures c in CallParts(parts)
      {
        var i :| 0 <= i < |parts| && parts[i].functionCall == Some(c);
        if i < |init| {
          assert init[i].functionCall == Some(c);
        }
      }
    }
  }

  /** A round asks for tools exactly when one of its parts is a call. */
  lemma ToolRoundIff(reply: Reply)
    ensures ToolRound(reply) <==> HasContent(reply) && exists i :: 0 <= i < |PartsOf(reply)| && IsCallPart(PartsOf(reply)[i])
  {
    var parts := PartsOf(reply);
    CallPartsAreTheCalls(parts);
    if |CallParts(parts)| > 0 {
      assert CallParts(parts)[0] in CallParts(parts);
    }
    if exists i :: 0 <= i < |parts| && IsCallPart(parts[i]) {
      var i :| 0 <= i < |parts| && IsCallPart(parts[i]);
      assert parts[i].functionCall.value in CallParts(parts);
    }
  }

  /** The results of a round's calls, numbered from `k`: named calls only, in order. */
  function RoundResults(calls: seq<FunctionCall>, invoke: (nat, string, Json) -> Outcome, k: nat): seq<FunctionCallResult>
    decreases |calls|
  {
    if |calls| == 0 then []
    else
      var init := RoundResults(calls[..|calls| - 1], invoke, k);
      var last := calls[|calls| - 1];
      if IsNamed(last) then init + [CallResult(last, invoke, k + |init|)] else init
  }

  /** The calls that produce a result: those with a name. */
  function NamedCalls(calls: seq<FunctionCall>): seq<FunctionCall>
    decreases |calls|
  {
    if |calls| == 0 then []
    else
      var init := NamedCalls(calls[..|calls| - 1]);
      if IsNamed(calls[|calls| - 1]) then init + [calls[|calls| - 1]] else init
  }

  /** One result per named call, in the calls' order, numbered consecutively from `k`; nameless calls produce nothing. */
  lemma {:induction false} RoundResultsFollowNamedCalls(calls: seq<FunctionCall>, invoke: (nat, string, Json) -> Outcome, k: nat)
    ensures |RoundResults(calls, invoke, k)| == |NamedCalls(calls)|
    ensures forall i :: 0 <= i < |NamedCalls(calls)| ==>
      IsNamed(NamedCalls(calls)[i]) && RoundResults(calls, invoke, k)[i] == CallResult(NamedCalls(calls)[i], invoke, k + i)
    decreases |calls|
  {
    if |calls| > 0 {
      RoundResultsFollowNamedCalls(calls[..|calls| - 1], invoke, k);
    }
  }

  /** The tool response part for a result. */
  function ResponsePart(r: FunctionCallResult): Part {
    Part(None, None, Some(FunctionResponse(r.name, r.result)))
  }

  function ResponseParts(results: seq<FunctionCallResult>): (parts: seq<Part>)
    ensures |parts| == |results|
    ensures forall i :: 0 <= i < |results| ==> parts[i] == ResponsePart(results[i])
  {
    seq(|results|, i requires 0 <= i < |results| => ResponsePart(results[i]))
  }

  /**
   * The source's inner loop over one round's calls: skips nameless calls, looks each name up in the
   * handler table, isolates every failure into an error object, and collects the results and the
   * response parts.
   */
  method DispatchCalls(calls: seq<FunctionCall>, invoke: (nat, string, Json) -> Outcome, k: nat)
    returns (results: seq<FunctionCallResult>, responses: seq<Part>)
    ensures results == RoundResults(calls, invoke, k)
    ensures responses == ResponseParts(results)
  {
    results, responses := [], [];
    for j := 0 to |calls|
      invariant results == RoundResults(calls[..j], invoke, k)
      invariant |responses| == |results|
      invariant forall i :: 0 <= i < |results| ==> responses[i] == ResponsePart(results[i])
    {
      assert calls[..j + 1][..j] == calls[..j];
      var call := calls[j];
      if !IsNamed(call) {
        continue;
      }
      var name := call.name.value;
      var args := ArgsOf(call);
      var result: Json;
      if Handlers.HasHandler(name) {
        var outcome := invoke(k + |results|, name, args);
        match outcome {
          case Returned(raw) =>
            result := if IsObjectLike(raw) then raw else JObj([("value", raw)]);
          case ThrewError(message) =>
            result := ErrorObject(message);
          case ThrewOther =>
            result := ErrorObject(UnknownError);
        }
      } else {
        result := ErrorObject("Unknown function: " + name);
      }
      assert FunctionCallResult(name, args, result) == CallResult(call, invoke, k + |results|);
      results := results + [FunctionCallResult(name, args, result)];
      responses := responses + [ResponsePart(FunctionCallResult(name, args, result))];
    }
    assert calls[..|calls|] == calls;
    assert responses == ResponseParts(results);
  }

  // ---------------------------------------------------------------- the loop

  /** `candidate.content.parts || []` of a reply that has a candidate with content. */
  function PartsOf(reply: Reply): seq<Part> {
    match reply
    case Response(Some(Candidate(Some(CandidateContent(Some(parts)))))) => parts
    case _ => []
  }

  /** The reply has a candidate with content. */
  predicate HasContent(reply: Reply) {
    reply.Response? && reply.candidate.Some? && reply.candidate.value.content.Some?
  }

  /** A round that asks for tools: the loop continues after it. */
  predicate ToolRound(reply: Reply) {
    HasContent(reply) && |CallParts(PartsOf(reply))| > 0
  }

  /** The transcript and the accumulated results between rounds. */
  datatype State = State(contents: seq<Content>, results: seq<FunctionCallResult>)

  /** A tool round appends the model turn with all its parts, then one user turn with one response per result. */
  function Step(s: State, parts: seq<Part>, invoke: (nat, string, Json) -> Outcome): State {
    var round := RoundResults(CallParts(parts), invoke, |s.results|);
    State(s.contents + [Content(Model, parts), Content(User, ResponseParts(round))], s.results + round)
  }

  /** The state after `i` tool rounds. */
  function StateAfter(seed: seq<Content>, provider: seq<Content> -> Reply, invoke: (nat, string, Json) -> Outcome, i: nat): State
    decreases i
  {
    if i == 0 then State(seed, [])
    else
      var s := StateAfter(seed, provider, invoke, i - 1);
      Step(s, PartsOf(provider(s.contents)), invoke)
  }

  /** The reply of the provider to the `i`-th request. */
  function ReplyAt(seed: seq<Content>, provider: seq<Content> -> Reply, invoke: (nat, string, Json) -> Outcome, i: nat): Reply {
    provider(StateAfter(seed, provider, invoke, i).contents)
  }

  /** `parts.filter(part => part.text).map(part => part.text).join('')`. */
  function FinalText(parts: seq<Part>): string
    decreases |parts|
  {
    if |parts| == 0 then ""
    else
      var init := FinalText(parts[..|parts| - 1]);
      var t := parts[|parts| - 1].text;
      if t.Some? && t.value != "" then init + t.value else init
  }

  /** What a round without tool calls returns: the text, or the fallback when there is none. */
  function Answer(reply: Reply, results: seq<FunctionCallResult>): Result<ChatResponse, string> {
    if reply.Raised? then Err(reply.message)
    else if !HasContent(reply) then Err(NoValidResponse)
    else
      var text := FinalText(PartsOf(reply));
      Ok(ChatResponse(if text != "" then text else FallbackText, results))
  }

  /** `states` is a run of the loop: it starts from `seed`, and every state but the last is a tool round leading to the next. */
  ghost predicate IsRun(states: seq<State>, seed: seq<Content>, provider: seq<Content> -> Reply, invoke: (nat, string, Json) -> Outcome) {
    && |states| > 0
    && states[0] == State(seed, [])
    && forall i :: 0 <= i < |states| - 1 ==>
         ToolRound(provider(states[i].contents))
         && states[i + 1] == Step(states[i], PartsOf(provider(states[i].contents)), invoke)
  }

  /**
   * `processChat`. The provider is called once per round, at most `MaxIterations` times, always with the
   * current transcript and the same tool list; `states` are the transcript and the results before each call.
   * Every round but the last asks for tools; the last one either answers (or fails), or is the tenth tool
   * round, after which the loop gives up with the abort message and every result gathered.
   */
  method ProcessChat(messages: seq<ChatMessage>, mode: Mode,
                     provider: seq<Content> -> Reply, invoke: (nat, string, Json) -> Outcome)
    returns (res: Result<ChatResponse, string>, sent: seq<ProviderCall>, ghost states: seq<State>)
    ensures 1 <= |sent| <= MaxIterations && |states| == |sent|
    ensures IsRun(states, Seed(messages, mode), provider, invoke)
    ensures forall i :: 0 <= i < |sent| ==> sent[i] == ProviderCall(states[i].contents, [Catalog.StripeTools])
    ensures var last := states[|states| - 1];
      !ToolRound(provider(last.contents)) ==> res == Answer(provider(last.contents), last.results)
    ensures var last := states[|states| - 1];
      ToolRound(provider(last.contents)) ==>
        |sent| == MaxIterations
        && res == Ok(ChatResponse(AbortText, Step(last, PartsOf(provider(last.contents)), invoke).results))
  {
    var contents := SeedContents(messages, mode);
    var functionCallResults: seq<FunctionCallResult> := [];
    sent, states := [], [];
    var iterations := 0;
    while iterations < MaxIterations
      invariant 0 <= iterations <= MaxIterations
      invariant |sent| == |states| == iterations
      invariant iterations == 0 ==> contents == Seed(messages, mode) && functionCallResults == []
      invariant iterations > 0 ==> IsRun(states, Seed(messages, mode), provider, invoke)
      invariant iterations > 0 ==>
        var last := states[iterations - 1];
        ToolRound(provider(last.contents))
        && State(contents, functionCallResults) == Step(last, PartsOf(provider(last.contents)), invoke)
      invariant forall i :: 0 <= i < iterations ==> sent[i] == ProviderCall(states[i].contents, [Catalog.StripeTools])
    {
      ghost var before := State(contents, functionCallResults);
      sent := sent + [ProviderCall(contents, [Catalog.StripeTools])];
      if iterations > 0 {
        RunExtend(states, before, Seed(messages, mode), provider, invoke);
      }
      states := states + [before];
      var reply, answer;
      reply, answer, contents, functionCallResults := Round(contents, functionCallResults, provider, invoke);
      if answer.Some? {
        res := answer.value;
        return;
      }
      iterations := iterations + 1;
    }
    res := Ok(ChatResponse(AbortText, functionCallResults));
  }

  /** A run whose last state asks for tools extends by the step that follows it. */
  lemma RunExtend(states: seq<State>, next: State, seed: seq<Content>,
                  provider: seq<Content> -> Reply, invoke: (nat, string, Json) -> Outcome)
    requires IsRun(states, seed, provider, invoke)
    requires var last := states[|states| - 1];
      ToolRound(provider(last.contents)) && next == Step(last, PartsOf(provider(last.contents)), invoke)
    ensures IsRun(states + [next], seed, provider, invoke)
  {
  }

  /** A run visits exactly the states `StateAfter` describes, round by round. */
  lemma {:induction false} RunIsStateAfter(states: seq<State>, seed: seq<Content>,
                                           provider: seq<Content> -> Reply, invoke: (nat, string, Json) -> Outcome, i: nat)
    requires IsRun(states, seed, provider, invoke)
    requires i < |states|
    ensures states[i] == StateAfter(seed, provider, invoke, i)
    ensures |states[i].contents| == |seed| + 2 * i && states[i].contents[..|seed|] == seed
    decreases i
  {
    if i > 0 {
      RunIsStateAfter(states, seed, provider, invoke, i - 1);
      StepAppendsTwoTurns(states[i - 1], PartsOf(provider(states[i - 1].contents)), invoke);
    }
  }

  /**
   * What the loop returns when it reaches round `i`: the answer of the first round from `i` on that asks
   * for no tools, or, once `MaxIterations` tool rounds have run, the abort message with every result.
   */
  function RunFrom(seed: seq<Content>, provider: seq<Content> -> Reply, invoke: (nat, string, Json) -> Outcome, i: nat)
    : Result<ChatResponse, string>
    requires i <= MaxIterations
    decreases MaxIterations - i
  {
    if i == MaxIterations then Ok(ChatResponse(AbortText, StateAfter(seed, provider, invoke, i).results))
    else
      var s := StateAfter(seed, provider, invoke, i);
      if ToolRound(provider(s.contents)) then RunFrom(seed, provider, invoke, i + 1)
      else Answer(provider(s.contents), s.results)
  }

  /** What `processChat` returns for a seed transcript, as a function of the provider and the handlers. */
  function RunResult(seed: seq<Content>, provider: seq<Content> -> Reply, invoke: (nat, string, Json) -> Outcome)
    : Result<ChatResponse, string>
  {
    RunFrom(seed, provider, invoke, 0)
  }

  /** Along a run, every round but the last asks for tools, so the outcome is decided from the last round. */
  lemma {:induction false} RunFromAlongRun(states: seq<State>, seed: seq<Content>,
                                           provider: seq<Content> -> Reply, invoke: (nat, string, Json) -> Outcome, j: nat)
    requires IsRun(states, seed, provider, invoke)
    requires |states| <= MaxIterations && j < |states|
    ensures RunFrom(seed, provider, invoke, j) == RunFrom(seed, provider, invoke, |states| - 1)
    decreases |states| - j
  {
    if j < |states| - 1 {
      RunIsStateAfter(states, seed, provider, invoke, j);
      RunFromAlongRun(states, seed, provider, invoke, j + 1);
    }
  }

  /**
   * Whatever `ProcessChat` promises about its run, its answer is `RunResult`: the loop computes the
   * function of the seed, the provider and the handlers.
   */
  lemma ProcessChatComputesRunResult(res: Result<ChatResponse, string>, states: seq<State>, seed: seq<Content>,
                                     provider: seq<Content> -> Reply, invoke: (nat, string, Json) -> Outcome)
    requires 1 <= |states| <= MaxIterations
    requires IsRun(states, seed, provider, invoke)
    requires var last := states[|states| - 1];
      !ToolRound(provider(last.contents)) ==> res == Answer(provider(last.contents), last.results)
    requires var last := states[|states| - 1];
      ToolRound(provider(last.contents)) ==>
        |states| == MaxIterations
        && res == Ok(ChatResponse(AbortText, Step(last, PartsOf(provider(last.contents)), invoke).results))
    ensures res == RunResult(seed, provider, invoke)
  {
    var n := |states| - 1;
    RunFromAlongRun(states, seed, provider, invoke, 0);
    RunIsStateAfter(states, seed, provider, invoke, n);
  }

  /**
   * One pass of the loop body: asks the provider, and either ends the conversation with an answer or an
   * error, or runs the requested tools and returns the grown transcript and results.
   */
  method Round(contents: seq<Content>, results: seq<FunctionCallResult>,
               provider: seq<Content> -> Reply, invoke: (nat, string, Json) -> Outcome)
    returns (reply: Reply, answer: Option<Result<ChatResponse, string>>,
             contents': seq<Content>, results': seq<FunctionCallResult>)
    ensures reply == provider(contents)
    ensures answer.None? <==> ToolRound(reply)
    ensures answer.Some? ==> answer.value == Answer(reply, results) && contents' == contents && results' == results
    ensures answer.None? ==> State(contents', results') == Step(State(contents, results), PartsOf(reply), invoke)
  {
    contents', results' := contents, results;
    reply := provider(contents);
    if reply.Raised? {
      answer := Some(Err(reply.message));
      return;
    }
    if reply.candidate.None? || reply.candidate.value.content.None? {
      answer := Some(Err(NoValidResponse));
      return;
    }
    var parts := reply.candidate.value.content.value.parts.GetOr([]);
    assert parts == PartsOf(reply);
    var functionCalls := CallParts(parts);
    if |functionCalls| == 0 {
      var finalText := FinalText(parts);
      answer := Some(Ok(ChatResponse(if finalText != "" then finalText else FallbackText, results)));
      return;
    }
    answer := None;
    contents' := contents' + [Content(Model, parts)];
    var round, functionResponseParts := DispatchCalls(functionCalls, invoke, |results'|);
    results' := results' + round;
    contents' := contents' + [Content(User, functionResponseParts)];
  }

  // ---------------------------------------------------------------- properties of the loop

  /** Each tool round grows the transcript by exactly two turns: the model's, then the responses as a user turn. */
  lemma StepAppendsTwoTurns(s: State, parts: seq<Part>, invoke: (nat, string, Json) -> Outcome)
    ensures var t := Step(s, parts, invoke);
      && |t.contents| == |s.contents| + 2
      && t.contents[..|s.contents|] == s.contents
      && t.contents[|s.contents|] == Content(Model, parts)
      && t.contents[|s.contents| + 1].role == User
      && |t.contents[|s.contents| + 1].parts| == |t.results| - |s.results|
      && t.results[..|s.results|] == s.results
  {
  }

  /** The transcript only grows: every earlier transcript is a prefix of every later one, two turns per round. */
  lemma {:induction false} TranscriptGrows(seed: seq<Content>, provider: seq<Content> -> Reply,
                                           invoke: (nat, string, Json) -> Outcome, i: nat, j: nat)
    requires i <= j
    ensures |StateAfter(seed, provider, invoke, j).contents| == |seed| + 2 * j
    ensures StateAfter(seed, provider, invoke, i).contents <= StateAfter(seed, provider, invoke, j).contents
    ensures StateAfter(seed, provider, invoke, i).results <= StateAfter(seed, provider, invoke, j).results
    decreases j
  {
    if j > 0 {
      if i < j {
        TranscriptGrows(seed, provider, invoke, i, j - 1);
      }
      TranscriptGrows(seed, provider, invoke, j - 1, j - 1);
    }
  }

  /** Each round's responses answer its results one to one, by name and result, in order. */
  lemma ResponsesMatchResults(s: State, parts: seq<Part>, invoke: (nat, string, Json) -> Outcome)
    ensures var t := Step(s, parts, invoke);
      var round := t.results[|s.results|..];
      forall i :: 0 <= i < |round| ==>
        t.contents[|s.contents| + 1].parts[i].functionResponse == Some(FunctionResponse(round[i].name, round[i].result))
  {
  }

  /** The reported results are the rounds' results in order; each has a non-empty name. */
  lemma {:induction false} ResultsAreNamed(seed: seq<Content>, provider: seq<Content> -> Reply,
                                           invoke: (nat, string, Json) -> Outcome, i: nat)
    ensures forall r :: r in StateAfter(seed, provider, invoke, i).results ==> r.name != ""
    decreases i
  {
    if i > 0 {
      ResultsAreNamed(seed, provider, invoke, i - 1);
      var s := StateAfter(seed, provider, invoke, i - 1);
      var calls := CallParts(PartsOf(provider(s.contents)));
      RoundResultsFollowNamedCalls(calls, invoke, |s.results|);
    }
  }

  /** A reply that only has text ends the conversation with that text, or with the fallback when it is empty. */
  lemma AnswerText(reply: Reply, results: seq<FunctionCallResult>)
    requires HasContent(reply) && !ToolRound(reply)
    ensures Answer(reply, results).Ok?
    ensures Answer(reply, results).value.functionCalls == results
    ensures Answer(reply, results).value.content == FallbackText <==> FinalText(PartsOf(reply)) in {"", FallbackText}
  {
  }

  /** The loop fails only when the provider does: a tool failure never becomes an error of `processChat`. */
  lemma ErrorsComeFromProvider(reply: Reply, results: seq<FunctionCallResult>)
    ensures Answer(reply, results).Err? <==> reply.Raised? || !HasContent(reply)
    ensures reply.Raised? ==> Answer(reply, results) == Err(reply.message)
    ensures reply.Response? && !HasContent(reply) ==> Answer(reply, results) == Err(NoValidResponse)
  {
  }

  /** The joined text consists of the text parts, in order. */
  lemma {:induction false} FinalTextOfTexts(texts: seq<string>)
    requires forall i :: 0 <= i < |texts| ==> texts[i] != ""
    ensures FinalText(seq(|texts|, i requires 0 <= i < |texts| => TextPart(texts[i]))) == Text.Concat(texts)
    decreases |texts|
  {
    if |texts| > 0 {
      var parts := seq(|texts|, i requires 0 <= i < |texts| => TextPart(texts[i]));
      var init := texts[..|texts| - 1];
      assert parts[..|parts| - 1] == seq(|init|, i requires 0 <= i < |init| => TextPart(init[i]));
      FinalTextOfTexts(init);
      ConcatSnoc(init, texts[|texts| - 1]);
      assert init + [texts[|texts| - 1]] == texts;
    }
  }

  lemma {:induction false} ConcatSnoc(parts: seq<string>, last: string)
    ensures Text.Concat(parts + [last]) == Text.Concat(parts) + last
    decreases |parts|
  {
    if |parts| > 0 {
      assert (parts + [last])[1..] == parts[1..] + [last];
      ConcatSnoc(parts[1..], last);
    } else {
      assert parts + [last] == [last];
    }
  }
}
