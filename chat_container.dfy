/**
 * The chat screen's state: the message list, the mode, the loading flag, the error banner and the
 * current session. Loading a session, creating one and sending a message change that state step by
 * step; the requests themselves and the clock are parameters.
 */
module ChatContainer {
  import opened Wrappers
  import opened Json
  import Text

  datatype Role = User | Assistant

  /** A displayed message; `functionCalls` is the raw list the server returned (`None` is undefined). */
  datatype Message = Message(id: string, role: Role, content: string, functionCalls: Option<Json>)

  /** The error banner: a message and an optional hint. */
  datatype ErrorInfo = ErrorInfo(message: string, hint: Option<string>)

  /** The session request's outcome: an ok response with its `messages` and `mode` (`None` when absent), or not. */
  datatype Fetched = FetchedOk(messages: Option<seq<Message>>, mode: Option<string>) | FetchNotOk | FetchThrew

  /** The session-creation request's outcome: an ok response with its `id` (`None` when absent), or not. */
  datatype Created = CreatedOk(id: Option<string>) | CreateNotOk | CreateThrew

  /**
   * The chat request's outcome: an ok response with the answer, a non-ok response with its `error` and
   * `hint` fields, or a thrown error (a network failure or a body that is not JSON).
   */
  datatype Posted =
    | Answered(content: string, functionCalls: Option<Json>)
    | NotOk(error: Option<string>, hint: Option<string>)
    | PostThrew

  const Simulation := "simulation"
  const CreateFailed := "セッションの作成に失敗しました"
  const GenericError := "エラーが発生しました"
  const SendFailed := "メッセージの送信に失敗しました"
  const TempPrefix := "temp-"
  const AssistantPrefix := "assistant-"

  /** A JavaScript string or null in a truthiness test: present and non-empty. */
  predicate Present(s: Option<string>) {
    s.Some? && s.value != ""
  }

  /** `list.filter(m => m.id !== id)`: every message without that id, in order. */
  function Without(list: seq<Message>, id: string): (r: seq<Message>)
    ensures |r| <= |list|
    ensures forall m :: m in r <==> m in list && m.id != id
    decreases |list|
  {
    if |list| == 0 then []
    else if list[|list| - 1].id == id then Without(list[..|list| - 1], id)
    else Without(list[..|list| - 1], id) + [list[|list| - 1]]
  }

  /** Filtering a concatenation filters each part, so the order of the kept messages is the list's order. */
  lemma {:induction false} WithoutDistributes(a: seq<Message>, b: seq<Message>, id: string)
    ensures Without(a + b, id) == Without(a, id) + Without(b, id)
    decreases |b|
  {
    if |b| == 0 {
      assert a + b == a;
    } else {
      var b' := b[..|b| - 1];
      assert (a + b)[..|a + b| - 1] == a + b';
      WithoutDistributes(a, b', id);
    }
  }

  /** A list in which no message has `id` is left as it is. */
  lemma {:induction false} WithoutAbsentId(list: seq<Message>, id: string)
    requires forall m :: m in list ==> m.id != id
    ensures Without(list, id) == list
    decreases |list|
  {
    if |list| > 0 {
      var front := list[..|list| - 1];
      assert forall m :: m in front ==> m in list;
      WithoutAbsentId(front, id);
      assert front + [list[|list| - 1]] == list;
    }
  }

  /**
   * Rolling back the optimistic message restores the list exactly when no earlier message shares its
   * id; an earlier message that does is removed along with it.
   */
  lemma RollbackRestores(list: seq<Message>, m: Message)
    requires forall x :: x in list ==> x.id != m.id
    ensures Without(list + [m], m.id) == list
  {
    WithoutDistributes(list, [m], m.id);
    WithoutAbsentId(list, m.id);
    assert Without([m], m.id) == Without([], m.id);
  }

  /** `temp-${Date.now()}`: the id of the optimistic user message. */
  function TempId(now: nat): (id: string)
    ensures Text.StartsWith(id, TempPrefix)
  {
    TempPrefix + Text.NatToString(now)
  }

  /** `assistant-${Date.now()}`: the id of an assistant message. */
  function AssistantId(now: nat): (id: string)
    ensures Text.StartsWith(id, AssistantPrefix)
  {
    AssistantPrefix + Text.NatToString(now)
  }

  /** An optimistic id is never an assistant id, whatever the two clocks read. */
  lemma TempIdIsNotAssistantId(t1: nat, t2: nat)
    ensures TempId(t1) != AssistantId(t2)
  {
    assert TempId(t1)[0] == 't';
    assert AssistantId(t2)[0] == 'a';
  }

  /** The banner a non-ok response shows: the server's error (or a generic one) and its hint. */
  function RejectionBanner(error: Option<string>, hint: Option<string>): (e: ErrorInfo)
    ensures e.message == if Present(error) then error.value else GenericError
    ensures e.message != ""
    ensures e.hint == hint
  {
    ErrorInfo(if Present(error) then error.value else GenericError, hint)
  }

  /** The id a creation request yields, `null` unless the response was ok. */
  function CreatedId(created: Created): Option<string> {
    if created.CreatedOk? then created.id else None
  }

  class ChatContainer {
    var messages: seq<Message>
    var mode: string
    var loading: bool
    var error: Option<ErrorInfo>
    var currentSessionId: Option<string>

    /** Initial state: no messages, simulation mode, idle, no error, and the given session if it is non-empty. */
    constructor(sessionId: Option<string>)
      ensures messages == [] && mode == Simulation && !loading && error.None?
      ensures currentSessionId == if Present(sessionId) then sessionId else None
    {
      messages := [];
      mode := Simulation;
      loading := false;
      error := None;
      currentSessionId := if Present(sessionId) then sessionId else None;
    }

    /**
     * The effect run whenever the route's session changes. With a session, it becomes current and an ok
     * response replaces the list and mode (an empty list and simulation when absent); a failed request
     * changes nothing more. Without one, the state resets to an empty list, simulation mode and no session.
     */
    method SessionChanged(sessionId: Option<string>, fetched: Fetched)
      modifies this
      ensures !Present(sessionId) ==> messages == [] && mode == Simulation && currentSessionId.None?
      ensures Present(sessionId) ==> currentSessionId == sessionId
      ensures Present(sessionId) && fetched.FetchedOk? ==>
        && messages == fetched.messages.GetOr([])
        && mode == if Present(fetched.mode) then fetched.mode.value else Simulation
      ensures Present(sessionId) && !fetched.FetchedOk? ==> messages == old(messages) && mode == old(mode)
      ensures loading == old(loading) && error == old(error)
    {
      if Present(sessionId) {
        currentSessionId := sessionId;
        if fetched.FetchedOk? {
          messages := fetched.messages.GetOr([]);
          mode := if Present(fetched.mode) then fetched.mode.value else Simulation;
        }
      } else {
        messages := [];
        mode := Simulation;
        currentSessionId := None;
      }
    }

    /** The request creating a session: an ok response makes its id current, and the id (or none) is returned. */
    method CreateSession(created: Created) returns (id: Option<string>)
      modifies this
      ensures id == CreatedId(created)
      ensures currentSessionId == if created.CreatedOk? then created.id else old(currentSessionId)
      ensures messages == old(messages) && mode == old(mode) && loading == old(loading) && error == old(error)
    {
      id := None;
      if created.CreatedOk? {
        currentSessionId := created.id;
        id := created.id;
      }
    }

    /**
     * Sending `content`. The error is cleared and loading set; without a current session one is created,
     * and if that fails the banner says so and the list is untouched. Otherwise the user message is
     * appended at once; an answer appends exactly one assistant message after it, while a rejection or a
     * thrown error removes the messages with the optimistic id again and shows a banner. Loading is false
     * on every way out. `sentAt` and `answeredAt` are the clock's readings when the two ids are made.
     */
    method SendMessage(content: string, created: Created, posted: Posted, sentAt: nat, answeredAt: nat)
      modifies this
      ensures !loading && mode == old(mode)
      ensures !Present(old(currentSessionId)) && !Present(CreatedId(created)) ==>
        && error == Some(ErrorInfo(CreateFailed, None))
        && messages == old(messages)
        && currentSessionId == if created.CreatedOk? then created.id else old(currentSessionId)
      ensures Present(old(currentSessionId)) || Present(CreatedId(created)) ==>
        var user := Message(TempId(sentAt), User, content, None);
        && currentSessionId == (if Present(old(currentSessionId)) then old(currentSessionId) else CreatedId(created))
        && (posted.Answered? ==>
              && messages == old(messages) + [user, Message(AssistantId(answeredAt), Assistant, posted.content, posted.functionCalls)]
              && error.None?)
        && (posted.NotOk? ==>
              messages == Without(old(messages) + [user], user.id) && error == Some(RejectionBanner(posted.error, posted.hint)))
        && (posted.PostThrew? ==>
              messages == Without(old(messages) + [user], user.id) && error == Some(ErrorInfo(SendFailed, None)))
    {
      error := None;
      loading := true;
      var active := currentSessionId;
      if !Present(active) {
        active := CreateSession(created);
        if !Present(active) {
          error := Some(ErrorInfo(CreateFailed, None));
          loading := false;
          return;
        }
      }
      var user := Message(TempId(sentAt), User, content, None);
      messages := messages + [user];
      match posted {
        case NotOk(e, hint) =>
          error := Some(RejectionBanner(e, hint));
          messages := Without(messages, user.id);
        case PostThrew =>
          error := Some(ErrorInfo(SendFailed, None));
          messages := Without(messages, user.id);
        case Answered(answer, calls) =>
          messages := messages + [Message(AssistantId(answeredAt), Assistant, answer, calls)];
      }
      loading := false;
    }

    /** The mode switch. */
    method ChangeMode(m: string)
      modifies this
      ensures mode == m
      ensures messages == old(messages) && loading == old(loading) && error == old(error)
      ensures currentSessionId == old(currentSessionId)
    {
      mode := m;
    }

    /** Closing the error banner. */
    method DismissError()
      modifies this
      ensures error.None?
      ensures messages == old(messages) && mode == old(mode) && loading == old(loading)
      ensures currentSessionId == old(currentSessionId)
    {
      error := None;
    }
  }

  /**
   * A failed send leaves the list as it was before, provided no earlier message has the optimistic id
   * (ids made from the same clock reading collide).
   */
  lemma FailedSendRestoresList(before: seq<Message>, content: string, sentAt: nat)
    requires forall x :: x in before ==> x.id != TempId(sentAt)
    ensures Without(before + [Message(TempId(sentAt), User, content, None)], TempId(sentAt)) == before
  {
    RollbackRestores(before, Message(TempId(sentAt), User, content, None));
  }

  /** Assistant messages never carry an optimistic id, so a later rollback never removes an answer. */
  lemma RollbackKeepsAnswers(list: seq<Message>, sentAt: nat, m: Message)
    requires m in list && m.role == Assistant
    requires exists t: nat :: m.id == AssistantId(t)
    ensures m in Without(list, TempId(sentAt))
  {
    var t: nat :| m.id == AssistantId(t);
    TempIdIsNotAssistantId(sentAt, t);
  }
}
