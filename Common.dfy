/** Shared wrappers and the records the backend API hands to the client. */
module Common {

  /** A value that may be absent (`null` / `undefined` in the app). */
  datatype Option<+T> = None | Some(value: T) {
    function GetOr(default: T): T {
      match this
      case Some(v) => v
      case None => default
    }
  }

  /** The outcome of an awaited call that may throw (a rejected promise). */
  datatype Attempt<+T> = Done(value: T) | Threw(error: string)

  /** A `string | null | undefined` that is truthy: present and not the empty string. */
  predicate TruthyString(s: Option<string>) {
    s.Some? && s.value != ""
  }

  /** An office as the API describes it; `name` may be missing. */
  datatype Office = Office(code: string, name: Option<string>)

  /** `UserSafe`: the signed-in user's profile snapshot. */
  datatype User = User(
    id: int,
    name: string,
    office: Option<Office>,
    entered: bool,
    note: Option<string>,
    iconFileName: Option<string>)

  /** `UserListItem`: one row of the public user list. */
  datatype UserListItem = UserListItem(id: int, name: string, office: Option<Office>)

  /** The body of a successful login: a session token and the profile. */
  datatype LoginResult = LoginResult(token: string, user: User)

  /** A raw HTTP response as read by `fetch`: the ok flag and the body text. */
  datatype HttpResponse = HttpResponse(ok: bool, text: string)
}
