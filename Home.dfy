/**
 * The home screen's handlers: loading the signed-in user and the entered users,
 * entering and leaving the office with a single-flight guard, status notifications
 * and saving a note. Rendering, the sidebar and account deletion are not modelled.
 */
module Home {
  import opened Common
  import opened Js
  import opened Strings
  import opened Session
  import opened EnteredUsers
  import Config

  datatype Action = Enter | Exit

  const NOTE_ADDED: string := "メモを追加"
  const API_REQUEST_FAILED: string := "API request failed"
  const SAVE_FAILED: string := "保存に失敗しました"

  /** The notification status word for an action. */
  function StatusWord(action: Action): string {
    match action
    case Enter => "入室"
    case Exit => "退室"
  }

  /** The title of the alert shown when an action fails. */
  function FailureTitle(action: Action): string {
    match action
    case Enter => "入室に失敗しました"
    case Exit => "退室に失敗しました"
  }

  /** The last segment of an action's path. */
  function ActionSuffix(action: Action): string {
    if action == Enter then "/enter" else "/exit"
  }

  /** `/users/${id}/enter` or `/users/${id}/exit`. */
  function ActionPath(action: Action, userId: int): (r: string)
    ensures StartsWith(r, "/users/")
  {
    var r := "/users/" + IntToString(userId) + ActionSuffix(action);
    assert r[..|"/users/"|] == "/users/";
    r
  }

  /** The path ends in the action's own segment. */
  lemma ActionPathNamesAction(action: Action, userId: int)
    ensures EndsWith(ActionPath(action, userId), ActionSuffix(action))
    ensures EndsWith(ActionPath(action, userId), "/enter") <==> action == Enter
  {
    var r := ActionPath(action, userId);
    assert r[|r| - |ActionSuffix(action)|..] == ActionSuffix(action);
    if action == Exit {
      assert r[|r| - 1] == 't';
    }
  }

  /** Different users or different actions never share a path. */
  lemma ActionPathInjective(a1: Action, i1: int, a2: Action, i2: int)
    requires ActionPath(a1, i1) == ActionPath(a2, i2)
    ensures a1 == a2 && i1 == i2
  {
    var r := ActionPath(a1, i1);
    var n1, n2 := IntToString(i1), IntToString(i2);
    var s1, s2 := ActionSuffix(a1), ActionSuffix(a2);
    assert r[|r| - 1] == s1[|s1| - 1] by { assert r == ("/users/" + n1) + s1; }
    assert r[|r| - 1] == s2[|s2| - 1] by { assert r == ("/users/" + n2) + s2; }
    assert a1 == a2;
    assert n1 == r[7..|r| - |s1|];
    assert n2 == r[7..|r| - |s2|];
    IntToStringInjective(i1, i2);
  }

  /** `usersMeGet()`'s body: the user and, possibly, the users in the office. */
  datatype MeResponse = MeResponse(user: User, enteredUsers: Option<seq<EnteredUser>>)

  /** The body of a status notification. */
  datatype Notification = Notification(user: string, status: string, officeCode: Option<string>, note: Option<string>)

  /** The POST `performAction` sends. */
  datatype ActionRequest = ActionRequest(url: string, authorization: string)

  /** The PATCH `handleSaveNote` sends. */
  datatype NotePatch = NotePatch(userId: int, note: string)

  /** The screen's state variables, with the session provider's snapshot. */
  datatype HomeState = HomeState(
    enteredUsers: seq<EnteredUser>,
    isLoading: bool,
    refreshing: bool,
    pendingAction: Option<Action>,
    auth: Snapshot)

  /** `user.office?.code ?? null`. */
  function OfficeCode(user: User): Option<string> {
    match user.office
    case Some(office) => Some(office.code)
    case None => None
  }

  /** The notification `notifyStatus(status, note)` sends, if any; a failed send is swallowed. */
  function NotifyRequest(auth: Snapshot, status: string, note: Option<string>): (r: Option<Notification>)
    ensures r.Some? <==> TruthyString(auth.token) && auth.user.Some?
    ensures r.Some? ==>
      r.value == Notification(auth.user.value.name, status, OfficeCode(auth.user.value), note)
  {
    if !TruthyString(auth.token) || auth.user.None? then None
    else Some(Notification(auth.user.value.name, status, OfficeCode(auth.user.value), note))
  }

  /** What `performAction(path)` resolves or rejects with, and the request it sent. */
  datatype Performed = Performed(result: Attempt<bool>, request: Option<ActionRequest>)

  /** `performAction(path)` where `response` is how `fetch` settles. */
  function PerformSpec(apiBase: string, auth: Snapshot, path: string, response: Attempt<HttpResponse>)
    : (r: Performed)
    ensures r.request.None? <==> !TruthyString(auth.token) || auth.user.None?
    ensures r.request.None? ==> r.result == Done(false)
    ensures r.request.Some? ==>
      r.request.value == ActionRequest(Config.WithApiPath(apiBase, path), "Bearer " + auth.token.value)
    ensures r.request.Some? ==> (r.result.Done? <==> response.Done? && response.value.ok)
    ensures r.request.Some? ==> (r.result == Done(true) <==> response.Done? && response.value.ok)
    ensures r.result.Done? && r.result.value ==> r.request.Some?
    ensures r.request.Some? && response.Done? && !response.value.ok ==>
      r.result == Threw(if response.value.text == "" then API_REQUEST_FAILED else response.value.text)
  {
    if !TruthyString(auth.token) || auth.user.None? then Performed(Done(false), None)
    else
      var request := ActionRequest(Config.WithApiPath(apiBase, path), "Bearer " + auth.token.value);
      match response
      case Threw(e) => Performed(Threw(e), Some(request))
      case Done(http) =>
        if !http.ok then
          Performed(Threw(if http.text == "" then API_REQUEST_FAILED else http.text), Some(request))
        else Performed(Done(true), Some(request))
  }

  /** The state after `fetchData()`, and whether it offered to sign out. */
  datatype Fetched = Fetched(state: HomeState, offeredSignOut: bool)

  /** `fetchData()` where `me` is how `usersMeGet()` settles. */
  function FetchSpec(h: HomeState, me: Attempt<MeResponse>): Fetched {
    if !TruthyString(h.auth.token) then Fetched(h, false)
    else
      match me
      case Done(response) =>
        Fetched(
          h.(enteredUsers := response.enteredUsers.GetOr([]), isLoading := false, refreshing := false,
             auth := SetUserStateSpec(h.auth, Some(response.user))),
          false)
      case Threw(_) =>
        Fetched(h.(isLoading := false, refreshing := false), true)
  }

  lemma FetchEffects(h: HomeState, me: Attempt<MeResponse>)
    ensures var f := FetchSpec(h, me);
      && (!TruthyString(h.auth.token) ==> f == Fetched(h, false))
      && (TruthyString(h.auth.token) ==> !f.state.isLoading && !f.state.refreshing)
      && (TruthyString(h.auth.token) && me.Done? ==>
            && f.state.enteredUsers == (if me.value.enteredUsers.Some? then me.value.enteredUsers.value else [])
            && f.state.auth.user == Some(me.value.user) && f.state.auth.status == SignedIn
            && f.state.auth.token == h.auth.token && !f.offeredSignOut)
      && (TruthyString(h.auth.token) && me.Threw? ==>
            f.state.enteredUsers == h.enteredUsers && f.state.auth == h.auth && f.offeredSignOut)
      && f.state.pendingAction == h.pendingAction
  {
  }

  /** What an enter or exit press did: the state afterwards and what it sent or showed. */
  datatype ActionTrace = ActionTrace(
    state: HomeState,
    pendingDuring: Option<Action>,
    request: Option<ActionRequest>,
    notification: Option<Notification>,
    offeredSignOut: bool,
    alert: Option<string>)

  /** `handleEnter()` / `handleExit()`: perform, then notify, then refresh. */
  function ActionSpec(
    h: HomeState, action: Action, apiBase: string,
    response: Attempt<HttpResponse>, me: Attempt<MeResponse>): ActionTrace
  {
    if h.auth.user.None? || h.pendingAction.Some? then ActionTrace(h, None, None, None, false, None)
    else
      var running := h.(pendingAction := Some(action));
      var performed := PerformSpec(apiBase, running.auth, ActionPath(action, h.auth.user.value.id), response);
      if performed.result.Threw? then
        ActionTrace(running.(pendingAction := None), Some(action), performed.request, None, false,
                    Some(FailureTitle(action)))
      else
        var notification := NotifyRequest(running.auth, StatusWord(action), None);
        var fetched := FetchSpec(running, me);
        ActionTrace(fetched.state.(pendingAction := None), Some(action), performed.request, notification,
                    fetched.offeredSignOut, None)
  }

  /** At most one action is in flight: a press while one is pending, or while signed out, does nothing. */
  lemma SingleFlight(h: HomeState, action: Action, apiBase: string,
                     response: Attempt<HttpResponse>, me: Attempt<MeResponse>)
    requires h.pendingAction.Some? || h.auth.user.None?
    ensures ActionSpec(h, action, apiBase, response, me) == ActionTrace(h, None, None, None, false, None)
  {
  }

  /** A press that runs marks its action as pending for the call and clears it afterwards. */
  lemma PendingClearedAfterwards(h: HomeState, action: Action, apiBase: string,
                                 response: Attempt<HttpResponse>, me: Attempt<MeResponse>)
    requires h.pendingAction.None? && h.auth.user.Some?
    ensures var t := ActionSpec(h, action, apiBase, response, me);
      t.pendingDuring == Some(action) && t.state.pendingAction.None?
  {
  }

  /** A failed action sends no notification, refreshes nothing and shows the failure alert. */
  lemma FailedActionSkipsTheRest(h: HomeState, action: Action, apiBase: string,
                                 response: Attempt<HttpResponse>, me: Attempt<MeResponse>)
    requires h.pendingAction.None? && h.auth.user.Some? && TruthyString(h.auth.token)
    requires response.Threw? || !response.value.ok
    ensures var t := ActionSpec(h, action, apiBase, response, me);
      && t.notification.None? && t.state == h && t.alert == Some(FailureTitle(action))
      && t.request.Some?
  {
  }

  /** A successful action notifies with its status word and then refreshes. */
  lemma SucceededActionNotifiesThenRefreshes(h: HomeState, action: Action, apiBase: string,
                                             response: Attempt<HttpResponse>, me: Attempt<MeResponse>)
    requires h.pendingAction.None? && h.auth.user.Some? && TruthyString(h.auth.token)
    requires response.Done? && response.value.ok
    ensures var t := ActionSpec(h, action, apiBase, response, me);
      && t.request == Some(ActionRequest(
           Config.WithApiPath(apiBase, ActionPath(action, h.auth.user.value.id)), "Bearer " + h.auth.token.value))
      && t.notification == Some(Notification(h.auth.user.value.name, StatusWord(action), OfficeCode(h.auth.user.value), None))
      && t.state == FetchSpec(h, me).state
      && t.alert.None?
  {
    var f := FetchSpec(h.(pendingAction := Some(action)), me);
    assert f.state.(pendingAction := None) == FetchSpec(h, me).state;
  }

  /** What a note save did. */
  datatype SaveTrace = SaveTrace(
    state: HomeState,
    patch: Option<NotePatch>,
    notification: Option<Notification>,
    offeredSignOut: bool,
    alert: Option<string>)

  /** `handleSaveNote(userId, note)` where `patched` is how the PATCH settles. */
  function SaveNoteSpec(h: HomeState, userId: int, note: string, patched: Attempt<()>, me: Attempt<MeResponse>)
    : SaveTrace
  {
    if !TruthyString(h.auth.token) then SaveTrace(h, None, None, false, None)
    else if patched.Threw? then SaveTrace(h, Some(NotePatch(userId, note)), None, false, Some(SAVE_FAILED))
    else
      var own := h.auth.user.Some? && h.auth.user.value.id == userId;
      var updated :=
        if own then h.(auth := SetUserStateSpec(h.auth, Some(h.auth.user.value.(note := Some(note))))) else h;
      var trimmed := Trim(note);
      var notification := if own && trimmed != "" then NotifyRequest(updated.auth, NOTE_ADDED, Some(trimmed)) else None;
      var fetched := FetchSpec(updated, me);
      SaveTrace(fetched.state, Some(NotePatch(userId, note)), notification, fetched.offeredSignOut, None)
  }

  /**
   * A note save needs a token; it notifies, with the trimmed note, exactly when the
   * note is the user's own and not blank; only the user's own note is updated in memory.
   */
  lemma SaveNoteRules(h: HomeState, userId: int, note: string, patched: Attempt<()>, me: Attempt<MeResponse>)
    ensures var t := SaveNoteSpec(h, userId, note, patched, me);
      && (!TruthyString(h.auth.token) ==> t == SaveTrace(h, None, None, false, None))
      && (TruthyString(h.auth.token) ==> t.patch == Some(NotePatch(userId, note)))
      && (t.notification.Some? <==>
            TruthyString(h.auth.token) && patched.Done? && h.auth.user.Some? && h.auth.user.value.id == userId
            && !AllWhitespace(note))
      && (t.notification.Some? ==> t.notification.value.note == Some(Trim(note))
                                    && t.notification.value.status == NOTE_ADDED)
      && (me.Threw? && TruthyString(h.auth.token) && patched.Done? ==>
            t.state.auth.user ==
              (if h.auth.user.Some? && h.auth.user.value.id == userId
               then Some(h.auth.user.value.(note := Some(note))) else h.auth.user))
  {
  }

  class HomeScreen {
    const auth: SessionManager
    /** `API_BASE_URL`. */
    const apiBase: string
    var enteredUsers: seq<EnteredUser>
    var isLoading: bool
    var refreshing: bool
    var pendingAction: Option<Action>

    constructor (auth: SessionManager, apiBase: string)
      ensures this.auth == auth && this.apiBase == apiBase
      ensures enteredUsers == [] && isLoading && !refreshing && pendingAction.None?
    {
      this.auth := auth;
      this.apiBase := apiBase;
      enteredUsers := [];
      isLoading := true;
      refreshing := false;
      pendingAction := None;
    }

    function State(): HomeState
      reads this, auth, auth.tokens, auth.secure
    {
      HomeState(enteredUsers, isLoading, refreshing, pendingAction, auth.Current())
    }

    /** `fetchData()`. */
    method FetchData(me: Attempt<MeResponse>) returns (offeredSignOut: bool)
      modifies this, auth
      ensures Fetched(State(), offeredSignOut) == FetchSpec(old(State()), me)
    {
      offeredSignOut := false;
      if !TruthyString(auth.token) {
        return;
      }
      refreshing := true;
      match me {
        case Done(response) =>
          enteredUsers := response.enteredUsers.GetOr([]);
          auth.SetUserState(Some(response.user));
        case Threw(_) =>
          offeredSignOut := true;
      }
      isLoading := false;
      refreshing := false;
    }

    /** `notifyStatus(status, note)`: the notification it sends, if any. */
    method NotifyStatus(status: string, note: Option<string>) returns (sent: Option<Notification>)
      ensures sent == NotifyRequest(auth.Current(), status, note)
    {
      if !TruthyString(auth.token) || auth.user.None? {
        return None;
      }
      sent := Some(Notification(auth.user.value.name, status, OfficeCode(auth.user.value), note));
    }

    /** `performAction(path)`. */
    method PerformAction(path: string, response: Attempt<HttpResponse>) returns (performed: Performed)
      ensures performed == PerformSpec(apiBase, auth.Current(), path, response)
    {
      if !TruthyString(auth.token) || auth.user.None? {
        return Performed(Done(false), None);
      }
      var request := ActionRequest(Config.WithApiPath(apiBase, path), "Bearer " + auth.token.value);
      match response {
        case Threw(e) =>
          performed := Performed(Threw(e), Some(request));
        case Done(http) =>
          if !http.ok {
            var message := if http.text == "" then API_REQUEST_FAILED else http.text;
            performed := Performed(Threw(message), Some(request));
          } else {
            performed := Performed(Done(true), Some(request));
          }
      }
    }

    /** `handleEnter()` for `Enter`, `handleExit()` for `Exit`. */
    method HandleAction(action: Action, response: Attempt<HttpResponse>, me: Attempt<MeResponse>)
      returns (trace: ActionTrace)
      modifies this, auth
      ensures trace.state == State()
      ensures trace == ActionSpec(old(State()), action, apiBase, response, me)
    {
      if auth.user.None? || pendingAction.Some? {
        return ActionTrace(State(), None, None, None, false, None);
      }
      var userId := auth.user.value.id;
      pendingAction := Some(action);
      var pendingDuring := pendingAction;
      var performed := PerformAction(ActionPath(action, userId), response);
      var notification: Option<Notification> := None;
      var offeredSignOut := false;
      var alert: Option<string> := None;
      if performed.result.Threw? {
        alert := Some(FailureTitle(action));
      } else {
        notification := NotifyStatus(StatusWord(action), None);
        offeredSignOut := FetchData(me);
      }
      pendingAction := None;
      trace := ActionTrace(State(), pendingDuring, performed.request, notification, offeredSignOut, alert);
    }

    /** `handleSaveNote(userId, note)`. */
    method HandleSaveNote(userId: int, note: string, patched: Attempt<()>, me: Attempt<MeResponse>)
      returns (trace: SaveTrace)
      modifies this, auth
      ensures trace.state == State()
      ensures trace == SaveNoteSpec(old(State()), userId, note, patched, me)
    {
      if !TruthyString(auth.token) {
        return SaveTrace(State(), None, None, false, None);
      }
      var patch := Some(NotePatch(userId, note));
      if patched.Threw? {
        return SaveTrace(State(), patch, None, false, Some(SAVE_FAILED));
      }
      var notification: Option<Notification> := None;
      if auth.user.Some? && auth.user.value.id == userId {
        auth.SetUserState(Some(auth.user.value.(note := Some(note))));
        var trimmed := Trim(note);
        if trimmed != "" {
          notification := NotifyStatus(NOTE_ADDED, Some(trimmed));
        }
      }
      var offeredSignOut := FetchData(me);
      trace := SaveTrace(State(), patch, notification, offeredSignOut, None);
    }
  }
}
