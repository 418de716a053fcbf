/**
 * The session list beside the chat: loading the list, renaming a session in place, deleting one, and
 * the relative dates shown under each title. Requests, the confirmation dialog and the clock are
 * parameters; navigation is returned as the path pushed to the router.
 */
module ChatSidebar {
  import opened Wrappers
  import opened Json
  import Text

  /** A session as the list shows it; `updatedAt` is its time in milliseconds since the epoch. */
  datatype ChatSession = ChatSession(id: string, title: string, mode: string, messageCount: int, updatedAt: int)

  const MillisPerDay := 1000 * 60 * 60 * 24
  const Today := "今日"
  const Yesterday := "昨日"
  const DaysAgoSuffix := "日前"
  const ChatPath := "/chat"

  /** `Math.floor((now - date) / dayLength)`: whole days elapsed, negative for a date in the future. */
  function DaysBetween(date: int, now: int): (days: int)
    ensures days * MillisPerDay <= now - date < (days + 1) * MillisPerDay
  {
    (now - date) / MillisPerDay
  }

  /**
   * The date label: today, yesterday, "<n>日前" for fewer than seven days (a future date gives a negative
   * count), and otherwise the locale's short month and day, which is a parameter here.
   */
  function FormatDate(date: int, now: int, localeDate: string): (shown: string)
    ensures DaysBetween(date, now) == 0 ==> shown == Today
    ensures DaysBetween(date, now) == 1 ==> shown == Yesterday
    ensures DaysBetween(date, now) < 7 && DaysBetween(date, now) != 0 && DaysBetween(date, now) != 1 ==>
      shown == Text.IntToString(DaysBetween(date, now)) + DaysAgoSuffix
    ensures DaysBetween(date, now) >= 7 ==> shown == localeDate
  {
    var days := DaysBetween(date, now);
    if days == 0 then Today
    else if days == 1 then Yesterday
    else if days < 7 then Text.IntToString(days) + DaysAgoSuffix
    else localeDate
  }

  /** For two to six days ago the text reads back as the day count. */
  lemma DaysAgoReadsBack(date: int, now: int, localeDate: string)
    requires 2 <= DaysBetween(date, now) < 7
    ensures var shown := FormatDate(date, now, localeDate);
      && |shown| > |DaysAgoSuffix|
      && shown[|shown| - |DaysAgoSuffix|..] == DaysAgoSuffix
      && Text.AllDigits(shown[..|shown| - |DaysAgoSuffix|])
      && Text.DigitsValue(shown[..|shown| - |DaysAgoSuffix|]) == DaysBetween(date, now)
  {
    var days: nat := DaysBetween(date, now);
    var shown := FormatDate(date, now, localeDate);
    assert shown == Text.NatToString(days) + DaysAgoSuffix;
    assert shown[..|shown| - |DaysAgoSuffix|] == Text.NatToString(days);
    Text.DigitsValueOfNatToString(days);
  }

  /** A time less than a day old is labelled today, and one between one and two days old yesterday. */
  lemma RecentDatesAreNamed(date: int, now: int, localeDate: string)
    requires date <= now
    ensures now - date < MillisPerDay ==> FormatDate(date, now, localeDate) == Today
    ensures MillisPerDay <= now - date < 2 * MillisPerDay ==> FormatDate(date, now, localeDate) == Yesterday
  {
    var days := DaysBetween(date, now);
    if now - date < MillisPerDay {
      assert days < 1;
      assert days >= 0;
    }
    if MillisPerDay <= now - date < 2 * MillisPerDay {
      assert days >= 1 && days < 2;
    }
  }

  /**
   * `sessions.map(s => s.id === id ? { ...s, title } : s)`: the session with that id takes the new title
   * and everything else, including the order and the length, is unchanged.
   */
  function Renamed(sessions: seq<ChatSession>, id: string, title: string): (r: seq<ChatSession>)
    ensures |r| == |sessions|
    ensures forall i :: 0 <= i < |r| ==>
      && r[i].id == sessions[i].id
      && r[i] == (if sessions[i].id == id then sessions[i].(title := title) else sessions[i])
    decreases |sessions|
  {
    if |sessions| == 0 then []
    else
      var s := sessions[|sessions| - 1];
      Renamed(sessions[..|sessions| - 1], id, title) + [if s.id == id then s.(title := title) else s]
  }

  /** Renaming to the same title twice is renaming once. */
  lemma RenameIdempotent(sessions: seq<ChatSession>, id: string, title: string)
    ensures Renamed(Renamed(sessions, id, title), id, title) == Renamed(sessions, id, title)
  {
    var once := Renamed(sessions, id, title);
    var twice := Renamed(once, id, title);
    assert forall i :: 0 <= i < |twice| ==> twice[i] == once[i];
  }

  /** A rename of an id no session has changes nothing. */
  lemma RenameOfUnknownId(sessions: seq<ChatSession>, id: string, title: string)
    requires forall i :: 0 <= i < |sessions| ==> sessions[i].id != id
    ensures Renamed(sessions, id, title) == sessions
  {
    var r := Renamed(sessions, id, title);
    assert forall i :: 0 <= i < |r| ==> r[i] == sessions[i];
  }

  /** The key pressed in the title editor: Enter saves, Escape cancels, others are ignored. */
  datatype KeyAction = Save | Cancel | Ignore

  function EditKeyAction(key: string): (a: KeyAction)
    ensures a == Save <==> key == "Enter"
    ensures a == Cancel <==> key == "Escape"
  {
    if key == "Enter" then Save else if key == "Escape" then Cancel else Ignore
  }

  /** The path a click on a session pushes: its chat, unless that session is being edited. */
  function ClickTarget(editingId: Option<string>, id: string): (path: Option<string>)
    ensures path.Some? <==> editingId != Some(id)
    ensures path.Some? ==> path.value == ChatPath + "/" + id
  {
    if editingId != Some(id) then Some(ChatPath + "/" + id) else None
  }

  /** The path a successful delete pushes: the empty chat, only when the deleted session is the current one. */
  function DeleteTarget(currentSessionId: Option<string>, deleted: string): (path: Option<string>)
    ensures path.Some? <==> currentSessionId == Some(deleted)
    ensures path.Some? ==> path.value == ChatPath
  {
    if currentSessionId == Some(deleted) then Some(ChatPath) else None
  }

  class Sidebar {
    var sessions: seq<ChatSession>
    var loading: bool
    var editingId: Option<string>
    var editTitle: string

    /** Initial state: no sessions yet, loading, nothing being edited. */
    constructor()
      ensures sessions == [] && loading && editingId.None? && editTitle == ""
    {
      sessions := [];
      loading := true;
      editingId := None;
      editTitle := "";
    }

    /** Loading the list: an ok response (`Some`) replaces it, anything else keeps it; loading ends either way. */
    method FetchSessions(fetched: Option<seq<ChatSession>>)
      modifies this
      ensures sessions == fetched.GetOr(old(sessions))
      ensures !loading && editingId == old(editingId) && editTitle == old(editTitle)
    {
      if fetched.Some? {
        sessions := fetched.value;
      }
      loading := false;
    }

    /**
     * The new-chat button: an ok response (`Some` holding the response's `id`, possibly absent) navigates
     * to that session's chat and reloads the list; a failed request does nothing.
     */
    method CreateNewSession(created: Option<Option<Json>>, refreshed: Option<seq<ChatSession>>)
      returns (navigate: Option<string>)
      modifies this
      ensures created.None? ==> navigate.None? && sessions == old(sessions) && loading == old(loading)
      ensures created.Some? ==>
        && navigate == Some(ChatPath + "/" + ToJsString(created.value))
        && sessions == refreshed.GetOr(old(sessions)) && !loading
      ensures editingId == old(editingId) && editTitle == old(editTitle)
    {
      navigate := None;
      if created.Some? {
        navigate := Some(ChatPath + "/" + ToJsString(created.value));
        FetchSessions(refreshed);
      }
    }

    /**
     * Deleting `id` after the confirmation dialog: nothing happens unless it is confirmed and the request
     * succeeds; then the empty chat is opened when `id` was the current session, and the list reloads.
     */
    method DeleteSession(id: string, currentSessionId: Option<string>, confirmed: bool, deleted: bool,
                         refreshed: Option<seq<ChatSession>>)
      returns (navigate: Option<string>)
      modifies this
      ensures !(confirmed && deleted) ==> navigate.None? && sessions == old(sessions) && loading == old(loading)
      ensures confirmed && deleted ==>
        navigate == DeleteTarget(currentSessionId, id) && sessions == refreshed.GetOr(old(sessions)) && !loading
      ensures editingId == old(editingId) && editTitle == old(editTitle)
    {
      navigate := None;
      if !confirmed {
        return;
      }
      if deleted {
        navigate := DeleteTarget(currentSessionId, id);
        FetchSessions(refreshed);
      }
    }

    /** The pencil button: the session's title becomes the editor's text. */
    method StartEditing(id: string, currentTitle: string)
      modifies this
      ensures editingId == Some(id) && editTitle == currentTitle
      ensures sessions == old(sessions) && loading == old(loading)
    {
      editingId := Some(id);
      editTitle := currentTitle;
    }

    /** Typing in the title editor. */
    method EditTitleChanged(text: string)
      modifies this
      ensures editTitle == text
      ensures sessions == old(sessions) && loading == old(loading) && editingId == old(editingId)
    {
      editTitle := text;
    }

    method CancelEditing()
      modifies this
      ensures editingId.None? && editTitle == ""
      ensures sessions == old(sessions) && loading == old(loading)
    {
      editingId := None;
      editTitle := "";
    }

    /**
     * Saving the edited title of `id`. A whitespace-only title only cancels; otherwise the trimmed title is
     * sent (and returned), and an ok response renames exactly that session. Editing ends on every path.
     */
    method SaveTitle(id: string, renamed: bool) returns (sent: Option<string>)
      modifies this
      ensures sent.None? <==> Text.AllWhitespace(old(editTitle))
      ensures sent.Some? ==> sent.value == Text.Trim(old(editTitle)) && sent.value != ""
      ensures sessions == if sent.Some? && renamed then Renamed(old(sessions), id, sent.value) else old(sessions)
      ensures editingId.None? && editTitle == "" && loading == old(loading)
    {
      var title := Text.Trim(editTitle);
      Text.TrimEmptyIff(editTitle);
      sent := None;
      if title == "" {
        CancelEditing();
        return;
      }
      sent := Some(title);
      if renamed {
        sessions := Renamed(sessions, id, title);
      }
      editingId := None;
      editTitle := "";
    }

    /** A key pressed in the title editor of `id`; `Some` is the title sent when the key saves. */
    method EditKeyDown(id: string, key: string, renamed: bool) returns (sent: Option<string>)
      modifies this
      ensures EditKeyAction(key) == Ignore ==>
        sent.None? && sessions == old(sessions) && editingId == old(editingId) && editTitle == old(editTitle)
      ensures EditKeyAction(key) == Cancel ==> sent.None? && sessions == old(sessions)
      ensures EditKeyAction(key) == Save ==>
        && (sent.None? <==> Text.AllWhitespace(old(editTitle)))
        && sessions == if sent.Some? && renamed then Renamed(old(sessions), id, sent.value) else old(sessions)
      ensures EditKeyAction(key) != Ignore ==> editingId.None? && editTitle == ""
      ensures loading == old(loading)
    {
      sent := None;
      match EditKeyAction(key) {
        case Save => sent := SaveTitle(id, renamed);
        case Cancel => CancelEditing();
        case Ignore =>
      }
    }
  }
}
