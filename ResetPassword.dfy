/** The new-password form opened from the reset e-mail's link. */
module ResetPassword {
  import opened Common
  import opened Strings

  const SUCCESS_MARK: string := "リセットされました"
  /** "パスワードがリセットされました。アプリに戻り、ログイン画面から再度ログインしてください。" */
  const RESET_DONE: string := "パスワードが" + SUCCESS_MARK + "。アプリに戻り、ログイン画面から再度ログインしてください。"
  const RESET_FAILED: string := "リセットに失敗しました"
  const INVALID_LINK: string := "無効なリンク"
  const INPUT_ERROR: string := "入力エラー"

  /** The body of `usersResetPasswordTokenPost`. */
  datatype ResetRequest = ResetRequest(token: string, password: string)

  datatype Form = Form(password: string, loading: bool, message: string)

  /** What one press of the reset button did. */
  datatype Submitted = Submitted(form: Form, request: Option<ResetRequest>, alert: Option<string>)

  /** `handleSubmit()` with the link's `token`; `result` is how the reset call settles. */
  function SubmitSpec(f: Form, token: Option<string>, result: Attempt<()>): Submitted {
    if f.loading then Submitted(f, None, None)
    else if !TruthyString(token) then Submitted(f, None, Some(INVALID_LINK))
    else if Trim(f.password) == "" then Submitted(f, None, Some(INPUT_ERROR))
    else
      Submitted(
        f.(loading := false, message := if result.Done? then RESET_DONE else RESET_FAILED),
        Some(ResetRequest(token.value, Trim(f.password))), None)
  }

  /** `message.includes("リセットされました")`: the message is styled as a success. */
  predicate SuccessStyled(message: string) {
    Contains(message, SUCCESS_MARK)
  }

  /** The success text carries the success mark. */
  lemma SuccessTextMarked()
    ensures SuccessStyled(RESET_DONE)
  {
    var prefix := "パスワードが";
    assert RESET_DONE[|prefix|..|prefix| + |SUCCESS_MARK|] == SUCCESS_MARK;
    assert OccursAt(RESET_DONE, SUCCESS_MARK, |prefix|);
    ContainsIffOccurs(RESET_DONE, SUCCESS_MARK);
  }

  /** The failure text does not. */
  lemma FailureTextUnmarked()
    ensures !SuccessStyled(RESET_FAILED)
  {
    forall i ensures !OccursAt(RESET_FAILED, SUCCESS_MARK, i) {
      if 0 <= i <= |RESET_FAILED| - |SUCCESS_MARK| {
        // Every window covers position 4, which holds a character the mark lacks.
        assert RESET_FAILED[i..i + |SUCCESS_MARK|][4 - i] == RESET_FAILED[4] == 'に';
        assert SUCCESS_MARK[4 - i] != 'に';
      }
    }
    ContainsIffOccurs(RESET_FAILED, SUCCESS_MARK);
  }

  /**
   * No request without a link token or a non-blank password, or while one runs; a sent
   * request carries the token and the trimmed password; the message is success-styled
   * exactly when the reset succeeded; the button is released afterwards.
   */
  lemma SubmitRules(f: Form, token: Option<string>, result: Attempt<()>)
    ensures var s := SubmitSpec(f, token, result);
      && (s.request.Some? <==> !f.loading && TruthyString(token) && !AllWhitespace(f.password))
      && (s.request.Some? ==> s.request.value == ResetRequest(token.value, Trim(f.password)))
      && (s.request.Some? ==> !s.form.loading && (SuccessStyled(s.form.message) <==> result.Done?))
      && (s.request.None? ==> s.form == f)
  {
    SuccessTextMarked();
    FailureTextUnmarked();
  }

  class ResetPasswordScreen {
    /** `route.params?.token`. */
    const token: Option<string>
    var password: string
    var loading: bool
    var message: string

    constructor (token: Option<string>)
      ensures this.token == token && password == "" && !loading && message == ""
    {
      this.token := token;
      password, loading, message := "", false, "";
    }

    function View(): Form
      reads this
    {
      Form(password, loading, message)
    }

    /** `handleSubmit()`. */
    method HandleSubmit(result: Attempt<()>) returns (request: Option<ResetRequest>, alert: Option<string>)
      modifies this
      ensures Submitted(View(), request, alert) == SubmitSpec(old(View()), token, result)
    {
      request, alert := None, None;
      if loading {
        return;
      }
      if token.None? || token.value == "" {
        alert := Some(INVALID_LINK);
        return;
      }
      if Trim(password) == "" {
        alert := Some(INPUT_ERROR);
        return;
      }
      loading := true;
      message := "";
      request := Some(ResetRequest(token.value, Trim(password)));
      if result.Done? {
        message := RESET_DONE;
      } else {
        message := RESET_FAILED;
      }
      loading := false;
    }
  }
}
