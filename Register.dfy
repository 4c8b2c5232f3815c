/** The registration form's submit handler: validation, the multipart request, and the error texts. */
module Register {
  import opened Common
  import opened Js
  import opened Strings
  import Config

  const DEFAULT_ICON_NAME: string := "avatar.jpg"
  const DEFAULT_ICON_TYPE: string := "image/jpeg"
  const REGISTER_FAILED: string := "ユーザー追加に失敗しました"
  const REGISTER_ERROR: string := "ユーザー追加時にエラーが発生しました"
  const MISSING_FIELDS: string := "入力内容を確認してください"
  const REGISTERED: string := "登録完了"

  /** The picked image: its URI, and the file name and MIME type when the picker knows them. */
  datatype IconAsset = IconAsset(uri: string, fileName: Option<string>, mimeType: Option<string>)

  /** The multipart body `handleRegister` posts to `/users`. */
  datatype RegisterRequest = RegisterRequest(
    url: string,
    name: string,
    email: string,
    password: string,
    officeCode: string,
    iconUri: string,
    iconName: string,
    iconType: string)

  /**
   * The form's state variables. The error texts are JavaScript values, since the
   * screen stores whatever the error body's `error` and `detail` fields hold.
   */
  datatype Form = Form(
    name: string,
    email: string,
    password: string,
    icon: Option<IconAsset>,
    selectedOffice: string,
    errorMessage: JsValue,
    errorDetail: JsValue,
    loading: bool)

  /** What one press of the register button did. */
  datatype Submitted = Submitted(form: Form, request: Option<RegisterRequest>, alert: Option<string>)

  /** Every required field is filled in: the three texts non-blank, an icon and an office chosen. */
  predicate Complete(f: Form) {
    Trim(f.name) != "" && Trim(f.email) != "" && Trim(f.password) != "" && f.icon.Some? && f.selectedOffice != ""
  }

  /** The request built from a complete form. */
  function RequestFor(f: Form, apiBase: string): (r: RegisterRequest)
    requires f.icon.Some?
    ensures r.url == Config.WithApiPath(apiBase, "/users")
    ensures r.name == Trim(f.name) && r.email == Trim(f.email) && r.password == Trim(f.password)
    ensures r.officeCode == f.selectedOffice && r.iconUri == f.icon.value.uri
    ensures r.iconName == f.icon.value.fileName.GetOr(DEFAULT_ICON_NAME)
    ensures r.iconType == f.icon.value.mimeType.GetOr(DEFAULT_ICON_TYPE)
  {
    RegisterRequest(
      Config.WithApiPath(apiBase, "/users"),
      Trim(f.name), Trim(f.email), Trim(f.password), f.selectedOffice,
      f.icon.value.uri,
      f.icon.value.fileName.GetOr(DEFAULT_ICON_NAME),
      f.icon.value.mimeType.GetOr(DEFAULT_ICON_TYPE))
  }

  /** `text ? JSON.parse(text) : undefined`, where `parsed` is `JSON.parse`'s result (`None`: it threw). */
  function ErrorBody(text: string, parsed: Option<JsValue>): (r: JsValue)
    ensures text == "" || parsed.None? ==> r == Undefined
  {
    if text == "" then Undefined else parsed.GetOr(Undefined)
  }

  /** `errorBody?.error ?? "ユーザー追加に失敗しました"`. */
  function ErrorMessageOf(body: JsValue): (r: JsValue)
    ensures !Nullish(Prop(body, "error")) ==> r == Prop(body, "error")
    ensures Nullish(Prop(body, "error")) ==> r == Str(REGISTER_FAILED)
    ensures !Nullish(r)
  {
    var e := Prop(body, "error");
    if Nullish(e) then Str(REGISTER_FAILED) else e
  }

  /** `(errorBody?.detail ?? text) ?? ""`. */
  function ErrorDetailOf(body: JsValue, text: string): (r: JsValue)
    ensures !Nullish(Prop(body, "detail")) ==> r == Prop(body, "detail")
    ensures Nullish(Prop(body, "detail")) ==> r == Str(text)
    ensures !Nullish(r)
  {
    var d := Prop(body, "detail");
    if Nullish(d) then Str(text) else d
  }

  /** How the awaited request settles the form, once the error texts have been cleared. */
  function SettleSpec(sending: Form, response: Attempt<HttpResponse>, parsed: Option<JsValue>)
    : (Form, Option<string>)
  {
    match response
    case Threw(e) =>
      (sending.(errorMessage := Str(REGISTER_ERROR), errorDetail := Str(e)), None)
    case Done(http) =>
      if http.ok then
        (sending.(name := "", email := "", password := "", selectedOffice := "", icon := None), Some(REGISTERED))
      else
        var body := ErrorBody(http.text, parsed);
        (sending.(errorMessage := ErrorMessageOf(body), errorDetail := ErrorDetailOf(body, http.text)), None)
  }

  /**
   * `handleRegister()`: `response` is how `fetch` and `response.text()` settle,
   * `parsed` how `JSON.parse` of the error text does.
   */
  function RegisterSpec(f: Form, apiBase: string, response: Attempt<HttpResponse>, parsed: Option<JsValue>)
    : Submitted
  {
    if f.loading then Submitted(f, None, None)
    else if !Complete(f) then Submitted(f, None, Some(MISSING_FIELDS))
    else
      var settled := SettleSpec(f.(errorMessage := Str(""), errorDetail := Str("")), response, parsed);
      Submitted(settled.0, Some(RequestFor(f, apiBase)), settled.1)
  }

  /**
   * Nothing is sent while a submission runs or unless the form is complete; a sent
   * request carries the trimmed fields; the button is released afterwards; and an
   * accepted registration empties the form.
   */
  lemma RegisterRules(f: Form, apiBase: string, response: Attempt<HttpResponse>, parsed: Option<JsValue>)
    ensures var s := RegisterSpec(f, apiBase, response, parsed);
      && (s.request.Some? <==> !f.loading && Complete(f))
      && (f.loading ==> s.form == f)
      && (s.request.Some? ==> s.request.value == RequestFor(f, apiBase) && !s.form.loading)
      && (s.request.Some? && response.Done? && response.value.ok ==>
            s.form.name == "" && s.form.email == "" && s.form.password == ""
            && s.form.selectedOffice == "" && s.form.icon.None?
            && s.form.errorMessage == Str("") && s.form.errorDetail == Str(""))
      && (s.request.None? ==> s.form == f)
  {
  }

  /** An error response without a usable body shows the default message and the raw text as detail. */
  lemma UnreadableErrorBody(f: Form, apiBase: string, text: string, parsed: Option<JsValue>)
    requires !f.loading && Complete(f)
    requires text == "" || parsed.None? || !parsed.value.Obj?
    ensures var s := RegisterSpec(f, apiBase, Done(HttpResponse(false, text)), parsed);
      s.form.errorMessage == Str(REGISTER_FAILED) && s.form.errorDetail == Str(text)
  {
  }

  /** An error body's own `error` and `detail` strings are shown as they are. */
  lemma ErrorBodyShown(f: Form, apiBase: string, text: string, error: string, detail: string)
    requires !f.loading && Complete(f) && text != ""
    ensures var body := Obj(map["error" := Str(error), "detail" := Str(detail)]);
      var s := RegisterSpec(f, apiBase, Done(HttpResponse(false, text)), Some(body));
      s.form.errorMessage == Str(error) && s.form.errorDetail == Str(detail)
  {
  }

  class RegisterScreen {
    /** `API_BASE_URL`. */
    const apiBase: string
    var name: string
    var email: string
    var password: string
    var icon: Option<IconAsset>
    var selectedOffice: string
    var errorMessage: JsValue
    var errorDetail: JsValue
    var loading: bool

    constructor (apiBase: string)
      ensures this.apiBase == apiBase
      ensures View() == Form("", "", "", None, "", Str(""), Str(""), false)
    {
      this.apiBase := apiBase;
      name, email, password, icon, selectedOffice := "", "", "", None, "";
      errorMessage, errorDetail, loading := Str(""), Str(""), false;
    }

    function View(): Form
      reads this
    {
      Form(name, email, password, icon, selectedOffice, errorMessage, errorDetail, loading)
    }

    /** The awaited request and the catch block of `handleRegister`. */
    method Settle(response: Attempt<HttpResponse>, parsed: Option<JsValue>) returns (alert: Option<string>)
      modifies this
      ensures (View(), alert) == SettleSpec(old(View()), response, parsed)
    {
      alert := None;
      match response {
        case Threw(e) =>
          errorMessage, errorDetail := Str(REGISTER_ERROR), Str(e);
        case Done(http) =>
          if http.ok {
            alert := Some(REGISTERED);
            name, email, password, selectedOffice, icon := "", "", "", "", None;
          } else {
            var body := ErrorBody(http.text, parsed);
            errorMessage, errorDetail := ErrorMessageOf(body), ErrorDetailOf(body, http.text);
          }
      }
    }

    /** `handleRegister()`. */
    method HandleRegister(response: Attempt<HttpResponse>, parsed: Option<JsValue>)
      returns (request: Option<RegisterRequest>, alert: Option<string>)
      modifies this
      ensures Submitted(View(), request, alert) == RegisterSpec(old(View()), apiBase, response, parsed)
    {
      request, alert := None, None;
      if loading {
        return;
      }
      if !Complete(View()) {
        alert := Some(MISSING_FIELDS);
        return;
      }
      request := Some(RequestFor(View(), apiBase));
      loading := true;
      errorMessage, errorDetail := Str(""), Str("");
      alert := Settle(response, parsed);
      loading := false;
    }
  }
}
