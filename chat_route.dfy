/**
 * The chat endpoint: request validation, the persisted conversation around one run of the loop,
 * the session title and mode updates, the audit trail, and the classification of failures.
 *
 * The store is a class over the session, message and audit tables; authentication, the key lookup,
 * the provider and the handlers are parameters.
 */
module ChatRoute {
  import opened Wrappers
  import opened Json
  import Text
  import Chat

  // ---------------------------------------------------------------- request validation

  const MaxMessageLength: nat := 10000

  /** A validated request: `{ sessionId, message, mode }`. */
  datatype SendMessage = SendMessage(sessionId: string, message: string, mode: Chat.Mode)

  /** `z.enum(['simulation', 'actual'])`. */
  function ParseMode(v: Option<Json>): (m: Option<Chat.Mode>)
    ensures m == Some(Chat.Simulation) <==> v == Some(JStr("simulation"))
    ensures m == Some(Chat.Actual) <==> v == Some(JStr("actual"))
  {
    if v == Some(JStr("simulation")) then Some(Chat.Simulation)
    else if v == Some(JStr("actual")) then Some(Chat.Actual)
    else None
  }

  /** The request schema: an object whose `sessionId` is a string, `message` a string of 1 to 10000 characters, and `mode` one of the two modes. */
  function Validate(body: Json): (r: Option<SendMessage>)
    ensures r.Some? <==>
      && body.JObj?
      && Prop(body, "sessionId").Some? && Prop(body, "sessionId").value.JStr?
      && Prop(body, "message").Some? && Prop(body, "message").value.JStr?
      && 1 <= |Prop(body, "message").value.s| <= MaxMessageLength
      && ParseMode(Prop(body, "mode")).Some?
    ensures r.Some? ==>
      && Prop(body, "sessionId") == Some(JStr(r.value.sessionId))
      && Prop(body, "message") == Some(JStr(r.value.message))
      && 1 <= |r.value.message| <= MaxMessageLength
      && ParseMode(Prop(body, "mode")) == Some(r.value.mode)
  {
    var sessionId := Prop(body, "sessionId");
    var message := Prop(body, "message");
    var mode := ParseMode(Prop(body, "mode"));
    if body.JObj? && sessionId.Some? && sessionId.value.JStr? && message.Some? && message.value.JStr?
       && 1 <= |message.value.s| <= MaxMessageLength && mode.Some?
    then Some(SendMessage(sessionId.value.s, message.value.s, mode.value))
    else None
  }

  // ---------------------------------------------------------------- history, title, mode

  /** A stored message; the function calls are kept only when there were some. */
  datatype StoredMessage = StoredMessage(role: string, content: string, functionCalls: Option<seq<Chat.FunctionCallResult>>)

  /** The history sent to the loop: the stored messages in order, then the new user message. */
  function History(stored: seq<StoredMessage>, message: string): (h: seq<Chat.ChatMessage>)
    ensures |h| == |stored| + 1
    ensures forall i :: 0 <= i < |stored| ==> h[i] == Chat.ChatMessage(stored[i].role, stored[i].content)
    ensures h[|stored|] == Chat.ChatMessage("user", message)
  {
    seq(|stored|, i requires 0 <= i < |stored| => Chat.ChatMessage(stored[i].role, stored[i].content))
    + [Chat.ChatMessage("user", message)]
  }

  /** What the assistant message stores as its function calls: nothing when the loop made none. */
  function StoredCalls(results: seq<Chat.FunctionCallResult>): (r: Option<seq<Chat.FunctionCallResult>>)
    ensures r.None? <==> |results| == 0
    ensures r.Some? ==> r.value == results
  {
    if |results| > 0 then Some(results) else None
  }

  const TitleLength: nat := 30

  /** A session title from its first message: the message itself up to 30 characters, otherwise its first 30 followed by "...". */
  function Title(message: string): (t: string)
    ensures |message| <= TitleLength ==> t == message
    ensures |message| > TitleLength ==> |t| == TitleLength + 3 && t[..TitleLength] == message[..TitleLength] && t[TitleLength..] == "..."
    ensures |t| <= TitleLength + 3
  {
    if |message| > TitleLength then message[..TitleLength] + "..." else message
  }

  /** A stored session: its organization, its title (`None` is null) and its mode. */
  datatype Session = Session(organizationId: string, title: Option<string>, mode: Chat.Mode)

  /** The title written after a request: only an untitled session whose history is this one message gets one. */
  function NewTitle(session: Session, historyLength: nat, message: string): (t: Option<string>)
    ensures t.Some? <==> (session.title.None? || session.title.value == "") && historyLength == 1
    ensures t.Some? ==> t.value == Title(message)
  {
    if (session.title.None? || session.title.value == "") && historyLength == 1 then Some(Title(message)) else None
  }

  // ---------------------------------------------------------------- audit

  /** The resource kind recorded for a tool: the first of the known words its name contains. */
  function ResourceType(name: string): (kind: string)
    ensures kind == "customer" <==> Text.Contains(name, "Customer")
    ensures kind == "product" <==> !Text.Contains(name, "Customer") && Text.Contains(name, "Product")
    ensures kind == "price" <==>
      !Text.Contains(name, "Customer") && !Text.Contains(name, "Product") && Text.Contains(name, "Price")
    ensures kind == "subscription" <==>
      && !Text.Contains(name, "Customer") && !Text.Contains(name, "Product") && !Text.Contains(name, "Price")
      && Text.Contains(name, "Subscription")
    ensures kind == "coupon" <==>
      && !Text.Contains(name, "Customer") && !Text.Contains(name, "Product") && !Text.Contains(name, "Price")
      && !Text.Contains(name, "Subscription") && Text.Contains(name, "Coupon")
    ensures kind == "invoice" <==>
      && !Text.Contains(name, "Customer") && !Text.Contains(name, "Product") && !Text.Contains(name, "Price")
      && !Text.Contains(name, "Subscription") && !Text.Contains(name, "Coupon") && Text.Contains(name, "Invoice")
    ensures kind == "test_clock" <==>
      && !Text.Contains(name, "Customer") && !Text.Contains(name, "Product") && !Text.Contains(name, "Price")
      && !Text.Contains(name, "Subscription") && !Text.Contains(name, "Coupon") && !Text.Contains(name, "Invoice")
      && Text.Contains(name, "TestClock")
    ensures kind == "payment_method" <==>
      && !Text.Contains(name, "Customer") && !Text.Contains(name, "Product") && !Text.Contains(name, "Price")
      && !Text.Contains(name, "Subscription") && !Text.Contains(name, "Coupon") && !Text.Contains(name, "Invoice")
      && !Text.Contains(name, "TestClock") && Text.Contains(name, "PaymentMethod")
    ensures kind == "unknown" <==>
      && !Text.Contains(name, "Customer") && !Text.Contains(name, "Product") && !Text.Contains(name, "Price")
      && !Text.Contains(name, "Subscription") && !Text.Contains(name, "Coupon") && !Text.Contains(name, "Invoice")
      && !Text.Contains(name, "TestClock") && !Text.Contains(name, "PaymentMethod")
  {
    if Text.Contains(name, "Customer") then "customer"
    else if Text.Contains(name, "Product") then "product"
    else if Text.Contains(name, "Price") then "price"
    else if Text.Contains(name, "Subscription") then "subscription"
    else if Text.Contains(name, "Coupon") then "coupon"
    else if Text.Contains(name, "Invoice") then "invoice"
    else if Text.Contains(name, "TestClock") then "test_clock"
    else if Text.Contains(name, "PaymentMethod") then "payment_method"
    else "unknown"
  }

  /** The eight kinds and "unknown" are exactly the values the classification can take. */
  lemma ResourceTypeRange(name: string)
    ensures ResourceType(name) in ["customer", "product", "price", "subscription", "coupon", "invoice",
                                   "test_clock", "payment_method", "unknown"]
  {
  }

  /** One audit record; the input and the output stand for their serialized forms. */
  datatype AuditRecord = AuditRecord(userId: string, organizationId: string, action: string, resourceType: string,
                                     input: Json, output: Json, success: bool)

  /** The user a request is made by. */
  datatype User = User(id: string, organizationId: string, role: string)

  /** The audit record of one call: it succeeded exactly when its result has no `error` key. */
  function AuditOf(user: User, call: Chat.FunctionCallResult): (a: AuditRecord)
    ensures a.action == call.name && a.input == call.args && a.output == call.result
    ensures a.userId == user.id && a.organizationId == user.organizationId
    ensures a.resourceType == ResourceType(call.name)
    ensures a.success <==> !HasKey(call.result, "error")
  {
    AuditRecord(user.id, user.organizationId, call.name, ResourceType(call.name), call.args, call.result,
                !HasKey(call.result, "error"))
  }

  /** The audit records of a response: one per call, in order. */
  function AuditsOf(user: User, calls: seq<Chat.FunctionCallResult>): (r: seq<AuditRecord>)
    ensures |r| == |calls|
    ensures forall i :: 0 <= i < |calls| ==> r[i] == AuditOf(user, calls[i])
  {
    seq(|calls|, i requires 0 <= i < |calls| => AuditOf(user, calls[i]))
  }

  // ---------------------------------------------------------------- failures

  /** What a failed request throws: a validation failure, an `Error` with its message, or any other value as `String(value)` prints it. */
  datatype Thrown = ValidationFailure | ThrownError(message: string) | ThrownValue(text: string)

  /** An error response: the status, the message shown, and an optional hint. */
  datatype Failure = Failure(status: nat, error: string, hint: Option<string>)

  const DefaultModel := "gemini-2.5-flash"

  /** The message text a failure is classified by. */
  function MessageOf(e: Thrown): string {
    match e
    case ValidationFailure => ""
    case ThrownError(m) => m
    case ThrownValue(t) => t
  }

  predicate IsKeyProblem(m: string) {
    Text.Contains(m, "API key") || Text.Contains(m, "GEMINI_API_KEY")
  }
  predicate IsModelProblem(m: string) {
    Text.Contains(m, "model") && (Text.Contains(m, "not found") || Text.Contains(m, "invalid"))
  }
  predicate IsRateLimited(m: string) {
    Text.Contains(m, "quota") || Text.Contains(m, "rate limit") || Text.Contains(m, "429")
  }
  predicate IsNetworkProblem(m: string) {
    Text.Contains(m, "fetch failed") || Text.Contains(m, "network")
  }
  predicate IsBlocked(m: string) {
    Text.Contains(m, "SAFETY") || Text.Contains(m, "blocked")
  }

  /**
   * The first matching rule decides: validation 400, key 401, model 400, rate limit 429, network 503,
   * safety 400, anything else 500.
   */
  function Classify(e: Thrown, configuredModel: Option<string>): (f: Failure)
    ensures e.ValidationFailure? ==> f == Failure(400, "入力が不正です", None)
    ensures !e.ValidationFailure? ==> var m := MessageOf(e);
      && (f.status == 401 <==> IsKeyProblem(m))
      && (f.status == 429 <==> !IsKeyProblem(m) && !IsModelProblem(m) && IsRateLimited(m))
      && (f.status == 503 <==> !IsKeyProblem(m) && !IsModelProblem(m) && !IsRateLimited(m) && IsNetworkProblem(m))
      && (f.status == 400 <==>
            !IsKeyProblem(m) && (IsModelProblem(m) || (!IsRateLimited(m) && !IsNetworkProblem(m) && IsBlocked(m))))
      && (f.status == 500 <==>
            !IsKeyProblem(m) && !IsModelProblem(m) && !IsRateLimited(m) && !IsNetworkProblem(m) && !IsBlocked(m))
      && (f.status == 500 ==> f == Failure(500, "エラーが発生しました", None))
    ensures f.error != ""
  {
    if e.ValidationFailure? then Failure(400, "入力が不正です", None)
    else
      var m := MessageOf(e);
      if IsKeyProblem(m) then
        Failure(401, "Gemini APIキーが設定されていないか無効です。",
                Some("環境変数 GEMINI_API_KEY を設定してください。APIキーは https://aistudio.google.com/apikey から取得できます。"))
      else if IsModelProblem(m) then
        var modelName := if configuredModel.Some? && configuredModel.value != "" then configuredModel.value else DefaultModel;
        Failure(400, "AIモデル「" + modelName + "」が見つかりません。",
                Some("有効なモデル名: gemini-2.5-flash, gemini-2.5-flash-lite, gemini-2.5-pro"))
      else if IsRateLimited(m) then
        Failure(429, "APIのレート制限に達しました。しばらく待ってから再試行してください。",
                Some("Gemini APIの無料枠は1分あたり15リクエストです。"))
      else if IsNetworkProblem(m) then
        Failure(503, "Gemini APIへの接続に失敗しました。インターネット接続を確認してください。",
                Some("Google APIサービスのステータスを https://status.cloud.google.com/ で確認できます。"))
      else if IsBlocked(m) then
        Failure(400, "コンテンツが安全性フィルターによってブロックされました。", Some("別の表現で試してください。"))
      else Failure(500, "エラーが発生しました", None)
  }

  /** A model problem names the configured model, or the default one when none is configured. */
  lemma ModelProblemNamesModel(e: Thrown, configuredModel: Option<string>)
    requires !e.ValidationFailure? && !IsKeyProblem(MessageOf(e)) && IsModelProblem(MessageOf(e))
    ensures var name := if configuredModel.Some? && configuredModel.value != "" then configuredModel.value else DefaultModel;
      Classify(e, configuredModel).error == "AIモデル「" + name + "」が見つかりません。"
  {
  }

  // ---------------------------------------------------------------- the endpoint

  /** The response: the answer and the calls made, or a failure. */
  datatype Response = Answered(content: string, functionCalls: seq<Chat.FunctionCallResult>) | Failed(failure: Failure)

  const AuthRequired := "認証が必要です"
  const SessionNotFound := "セッションが見つかりません"
  const KeyMissing := "Stripeキーが設定されていません。設定画面からAPIキーを登録してください。"

  /** The persisted tables the endpoint reads and writes. */
  class Store {
    var sessions: map<string, Session>
    var messages: map<string, seq<StoredMessage>>
    var audit: seq<AuditRecord>

    constructor(sessions: map<string, Session>, messages: map<string, seq<StoredMessage>>)
      ensures this.sessions == sessions && this.messages == messages && audit == []
    {
      this.sessions := sessions;
      this.messages := messages;
      audit := [];
    }

    /** A session's messages in creation order; a session without messages has none. */
    function MessagesOf(id: string): seq<StoredMessage>
      reads this
    {
      if id in messages then messages[id] else []
    }

    /** The session `id` exists and belongs to the organization `org`. */
    predicate Owns(id: string, org: string)
      reads this
    {
      id in sessions && sessions[id].organizationId == org
    }

    method AddMessage(id: string, m: StoredMessage)
      modifies this
      ensures messages == old(messages)[id := old(MessagesOf(id)) + [m]]
      ensures sessions == old(sessions) && audit == old(audit)
    {
      messages := messages[id := MessagesOf(id) + [m]];
    }

    /** The audit loop: one record per call, appended in order. */
    method WriteAudit(user: User, calls: seq<Chat.FunctionCallResult>)
      modifies this
      ensures audit == old(audit) + AuditsOf(user, calls)
      ensures sessions == old(sessions) && messages == old(messages)
    {
      for i := 0 to |calls|
        invariant audit == old(audit) + AuditsOf(user, calls[..i])
        invariant sessions == old(sessions) && messages == old(messages)
      {
        assert AuditsOf(user, calls[..i + 1]) == AuditsOf(user, calls[..i]) + [AuditOf(user, calls[i])];
        audit := audit + [AuditOf(user, calls[i])];
      }
      assert calls[..|calls|] == calls;
    }

    /**
     * The guards of the endpoint, in order: a signed-in user (401), a body that parses as JSON (`Err` carries
     * the parser's message, classified like any other thrown error), a valid body (400), a session of the
     * user's organization (404), a configured payments key (400).
     */
    function Admit(user: Option<User>, body: Result<Json, string>, stripeKey: string -> Option<string>,
                   configuredModel: Option<string>)
      : (r: Result<(User, SendMessage), Failure>)
      reads this
      ensures user.None? <==> r == Err(Failure(401, AuthRequired, None))
      ensures user.Some? && body.Err? ==> r == Err(Classify(ThrownError(body.error), configuredModel))
      ensures user.Some? && body.Ok? && Validate(body.value).None? ==> r == Err(Classify(ValidationFailure, configuredModel))
      ensures user.Some? && body.Ok? && Validate(body.value).Some? ==>
        var req := Validate(body.value).value;
        && (!Owns(req.sessionId, user.value.organizationId) ==> r == Err(Failure(404, SessionNotFound, None)))
        && (Owns(req.sessionId, user.value.organizationId) && !IsNonEmptyKey(stripeKey(user.value.organizationId)) ==>
              r == Err(Failure(400, KeyMissing, None)))
      ensures r.Ok? <==>
        && user.Some? && body.Ok? && Validate(body.value).Some?
        && Owns(Validate(body.value).value.sessionId, user.value.organizationId)
        && IsNonEmptyKey(stripeKey(user.value.organizationId))
      ensures r.Ok? ==> r.value == (user.value, Validate(body.value).value)
    {
      if user.None? then Err(Failure(401, AuthRequired, None))
      else if body.Err? then Err(Classify(ThrownError(body.error), configuredModel))
      else if Validate(body.value).None? then Err(Classify(ValidationFailure, configuredModel))
      else if !Owns(Validate(body.value).value.sessionId, user.value.organizationId) then Err(Failure(404, SessionNotFound, None))
      else if !IsNonEmptyKey(stripeKey(user.value.organizationId)) then Err(Failure(400, KeyMissing, None))
      else Ok((user.value, Validate(body.value).value))
    }

    /** The writes after a successful run: the assistant message, the title and mode, the audit records. */
    method Conclude(user: User, req: SendMessage, historyLength: nat, answer: Chat.ChatResponse)
      requires req.sessionId in sessions
      modifies this
      ensures var id := req.sessionId;
        var session := old(sessions[id]);
        var title := NewTitle(session, historyLength, req.message);
        && MessagesOf(id) == old(MessagesOf(id)) + [StoredMessage("assistant", answer.content, StoredCalls(answer.functionCalls))]
        && sessions == old(sessions)[id := Session(session.organizationId, if title.Some? then title else session.title, req.mode)]
        && audit == old(audit) + AuditsOf(user, answer.functionCalls)
    {
      var chatSession := sessions[req.sessionId];
      AddMessage(req.sessionId, StoredMessage("assistant", answer.content, StoredCalls(answer.functionCalls)));
      var title := NewTitle(chatSession, historyLength, req.message);
      if title.Some? {
        sessions := sessions[req.sessionId := sessions[req.sessionId].(title := title)];
      }
      if chatSession.mode != req.mode {
        sessions := sessions[req.sessionId := sessions[req.sessionId].(mode := req.mode)];
      }
      WriteAudit(user, answer.functionCalls);
    }

    /**
     * `POST /api/chat`. A rejection leaves every table unchanged. Once admitted, the user message is stored
     * before the loop runs on the stored history followed by the new message; that message stays stored
     * when the loop fails, and the failure is classified; on success the response is the loop's answer,
     * the assistant message follows the user's and `Conclude` updates the session and the audit trail.
     */
    method Post(user: Option<User>, body: Result<Json, string>, stripeKey: string -> Option<string>, configuredModel: Option<string>,
                provider: seq<Chat.Content> -> Chat.Reply, invoke: (nat, string, Json) -> Chat.Outcome)
      returns (response: Response)
      modifies this
      ensures var admitted := old(Admit(user, body, stripeKey, configuredModel));
        admitted.Err? ==> response == Failed(admitted.error) && unchanged(this)
      ensures var admitted := old(Admit(user, body, stripeKey, configuredModel));
        admitted.Ok? && response.Failed? ==>
          var req := admitted.value.1;
          && MessagesOf(req.sessionId) == old(MessagesOf(req.sessionId)) + [StoredMessage("user", req.message, None)]
          && sessions == old(sessions) && audit == old(audit)
      ensures var admitted := old(Admit(user, body, stripeKey, configuredModel));
        admitted.Ok? && response.Answered? ==>
          var (u, req) := admitted.value;
          var session := old(sessions[req.sessionId]);
          var title := NewTitle(session, |old(MessagesOf(req.sessionId))| + 1, req.message);
          && MessagesOf(req.sessionId) == old(MessagesOf(req.sessionId))
               + [StoredMessage("user", req.message, None),
                  StoredMessage("assistant", response.content, StoredCalls(response.functionCalls))]
          && sessions == old(sessions)[req.sessionId := Session(session.organizationId,
                                         if title.Some? then title else session.title, req.mode)]
          && audit == old(audit) + AuditsOf(u, response.functionCalls)
      ensures var admitted := old(Admit(user, body, stripeKey, configuredModel));
        admitted.Ok? ==>
          var req := admitted.value.1;
          var run := Chat.RunResult(Chat.Seed(History(old(MessagesOf(req.sessionId)), req.message), req.mode), provider, invoke);
          && (run.Err? ==> response == Failed(Classify(ThrownError(run.error), configuredModel)))
          && (run.Ok? ==> response == Answered(run.value.content, run.value.functionCalls))
    {
      var admitted := Admit(user, body, stripeKey, configuredModel);
      if admitted.Err? {
        return Failed(admitted.error);
      }
      var (u, req) := admitted.value;
      var stored := MessagesOf(req.sessionId);
      AddMessage(req.sessionId, StoredMessage("user", req.message, None));
      var history := History(stored, req.message);
      var result := RunLoop(history, req.mode, provider, invoke);
      if result.Err? {
        return Failed(Classify(ThrownError(result.error), configuredModel));
      }
      var answer := result.value;
      Conclude(u, req, |history|, answer);
      return Answered(answer.content, answer.functionCalls);
    }
  }

  /** One run of the conversation loop on a history: it returns what the loop computes from the seeded transcript. */
  method RunLoop(history: seq<Chat.ChatMessage>, mode: Chat.Mode,
                 provider: seq<Chat.Content> -> Chat.Reply, invoke: (nat, string, Json) -> Chat.Outcome)
    returns (result: Result<Chat.ChatResponse, string>)
    ensures result == Chat.RunResult(Chat.Seed(history, mode), provider, invoke)
  {
    var sent;
    ghost var states;
    result, sent, states := Chat.ProcessChat(history, mode, provider, invoke);
    Chat.ProcessChatComputesRunResult(result, states, Chat.Seed(history, mode), provider, invoke);
  }

  /** `if (!stripeSecretKey)`: a missing or empty key. */
  predicate IsNonEmptyKey(key: Option<string>) {
    key.Some? && key.value != ""
  }

  /** The history always ends with the new user message and starts with the oldest stored one. */
  lemma HistoryEndsWithRequest(stored: seq<StoredMessage>, message: string)
    ensures History(stored, message)[|History(stored, message)| - 1] == Chat.ChatMessage("user", message)
    ensures |stored| > 0 ==> History(stored, message)[0].content == stored[0].content
    ensures |History(stored, message)| == 1 <==> |stored| == 0
  {
  }
}
