/** The "forgot password" form: asks the backend to e-mail a reset link. */
module ResetPasswordRequest {
  import opened Common
  import opened Strings

  /** The word both outcome texts begin their report with. */
  const SEND: string := "送信"
  /** The part only the success text has. */
  const SENT: string := SEND + "しました"
  /** "パスワード再設定用のメールを送信しました。メールをご確認ください。" */
  const SEND_DONE: string := "パスワード再設定用のメールを" + SENT + "。メールをご確認ください。"
  /** "送信に失敗しました" */
  const SEND_FAILED: string := SEND + "に失敗しました"
  const INPUT_ERROR: string := "入力エラー"

  datatype Form = Form(email: string, loading: bool, message: string)

  /** What one press of the send button did; `request` is the e-mail address sent. */
  datatype Submitted = Submitted(form: Form, request: Option<string>, alert: Option<string>)

  /** `handleSubmit()`; `result` is how the request call settles. */
  function SubmitSpec(f: Form, result: Attempt<()>): Submitted {
    if f.loading then Submitted(f, None, None)
    else if Trim(f.email) == "" then Submitted(f, None, Some(INPUT_ERROR))
    else
      Submitted(
        f.(loading := false, message := if result.Done? then SEND_DONE else SEND_FAILED),
        Some(Trim(f.email)), None)
  }

  /** The style test as the screen writes it: `message.includes("送信")`. */
  predicate SuccessStyledAsWritten(message: string) {
    Contains(message, SEND)
  }

  /** The style test as intended: the message reports that the mail was sent. */
  predicate SuccessStyled(message: string) {
    Contains(message, SENT)
  }

  /** The written test styles the failure text as a success. */
  lemma FailureStyledAsSuccessAsWritten()
    ensures SuccessStyledAsWritten(SEND_DONE)
    ensures SuccessStyledAsWritten(SEND_FAILED)
  {
    var prefix := "パスワード再設定用のメールを";
    assert SEND_DONE[|prefix|..|prefix| + |SEND|] == SEND;
    assert OccursAt(SEND_DONE, SEND, |prefix|);
    ContainsIffOccurs(SEND_DONE, SEND);
    assert SEND_FAILED[..|SEND|] == SEND;
  }

  /** So a failed request is shown in the success style. */
  lemma FailedRequestLooksSuccessfulAsWritten(f: Form, e: string)
    requires !f.loading && Trim(f.email) != ""
    ensures SuccessStyledAsWritten(SubmitSpec(f, Threw(e)).form.message)
  {
    FailureStyledAsSuccessAsWritten();
  }

  /** The intended test tells the two texts apart. */
  lemma StyleMatchesOutcome()
    ensures SuccessStyled(SEND_DONE)
    ensures !SuccessStyled(SEND_FAILED)
  {
    var prefix := "パスワード再設定用のメールを";
    assert SEND_DONE[|prefix|..|prefix| + |SENT|] == SENT;
    assert OccursAt(SEND_DONE, SENT, |prefix|);
    ContainsIffOccurs(SEND_DONE, SENT);
    assert SEND_FAILED[3] == '失';
    forall i ensures !OccursAt(SEND_FAILED, SENT, i) {
      if 0 <= i <= |SEND_FAILED| - |SENT| {
        // Every window covers position 3, which holds a character the success part lacks.
        assert SEND_FAILED[i..i + |SENT|][3 - i] == SEND_FAILED[3];
        assert SENT[3 - i] != '失';
      }
    }
    ContainsIffOccurs(SEND_FAILED, SENT);
  }

  /**
   * No request while one runs or for a blank address; the request carries the trimmed
   * address; with the intended test the style follows the outcome; the button is released.
   */
  lemma SubmitRules(f: Form, result: Attempt<()>)
    ensures var s := SubmitSpec(f, result);
      && (s.request.Some? <==> !f.loading && !AllWhitespace(f.email))
      && (s.request.Some? ==> s.request.value == Trim(f.email))
      && (s.request.Some? ==> !s.form.loading && (SuccessStyled(s.form.message) <==> result.Done?))
      && (s.request.None? ==> s.form == f)
  {
    StyleMatchesOutcome();
  }

  class ResetPasswordRequestScreen {
    var email: string
    var loading: bool
    var message: string

    constructor ()
      ensures email == "" && !loading && message == ""
    {
      email, loading, message := "", false, "";
    }

    function View(): Form
      reads this
    {
      Form(email, loading, message)
    }

    /** Whether the message is shown in the success style (the intended test). */
    function ShowsSuccess(): (r: bool)
      reads this
      ensures r <==> message != "" && SuccessStyled(message)
    {
      message != "" && SuccessStyled(message)
    }

    /** `handleSubmit()`. */
    method HandleSubmit(result: Attempt<()>) returns (request: Option<string>, alert: Option<string>)
      modifies this
      ensures Submitted(View(), request, alert) == SubmitSpec(old(View()), result)
    {
      request, alert := None, None;
      if loading {
        return;
      }
      if Trim(email) == "" {
        alert := Some(INPUT_ERROR);
        return;
      }
      loading := true;
      message := "";
      request := Some(Trim(email));
      if result.Done? {
        message := SEND_DONE;
      } else {
        message := SEND_FAILED;
      }
      loading := false;
    }
  }
}
