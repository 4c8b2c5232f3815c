/**
 * The login screen's handlers: manual login, the biometric convenience login
 * over the cached credentials, the biometric sheet, and the effect that loads
 * the cached credentials whenever the session status changes. Rendering and
 * navigation are not modelled.
 */
module Login {
  import opened Common
  import opened Strings
  import opened Storage
  import opened Session
  import CredentialStorage

  const LOGIN_FAILED: string := "メールアドレスまたはパスワードが違います"
  const EXPO_GO_UNSUPPORTED: string := "Expo Go では顔認証を利用できません。通常ログインをご利用ください。"
  const NO_HARDWARE: string := "この端末では顔認証を利用できません。"
  const NOT_ENROLLED: string := "顔認証が設定されていません。"
  const USAGE_DESCRIPTION_MISSING: string :=
    "Face ID を利用するには iOS の設定でこのアプリにFace ID利用許可(NSFaceIDUsageDescription)を付与する必要があります。Expo Go ではご利用いただけません。"
  const CHALLENGE_FAILED: string := "顔認証に失敗しました。再度お試しください。"
  const BIOMETRIC_LOGIN_FAILED: string := "顔認証でのログインに失敗しました。手動でログインしてください。"
  const USAGE_DESCRIPTION_KEY: string := "NSFaceIDUsageDescription"
  const USER_CANCEL: string := "user_cancel"

  /** What `authenticateAsync` resolves to; `warning` is kept only when it is a string. */
  datatype Challenge = Challenge(success: bool, error: Option<string>, warning: Option<string>)

  /** The screen's state variables. */
  datatype Form = Form(
    email: string,
    password: string,
    loading: bool,
    errorMessage: string,
    savedCredentials: Option<CredentialStorage.Credentials>,
    biometricVisible: bool,
    biometricLoading: bool,
    biometricError: string)

  /** The screen together with the session provider and its backends. */
  datatype ScreenState = ScreenState(form: Form, auth: Snapshot)

  /** How a biometric login attempt ends. */
  datatype BiometricOutcome =
    | Ignored                            // no cached credentials, or an attempt is running
    | UnavailableInExpoGo                // the app runs inside Expo Go
    | NoHardware
    | NotEnrolled
    | UsageDescriptionMissing            // the warning names NSFaceIDUsageDescription
    | NotAuthenticated(showError: bool)  // the challenge said no
    | SignInSucceeded                    // signIn with the cached pair succeeded
    | SignInRejected(error: string)      // signIn with the cached pair threw
    | QueryFailed                       // a capability query or the challenge threw

  predicate MissingUsageDescription(c: Challenge) {
    c.warning.Some? && Contains(c.warning.value, USAGE_DESCRIPTION_KEY)
  }

  /** How the awaited capability checks and the challenge end, in the order they are awaited. */
  datatype Gate =
    | GateNoHardware
    | GateNotEnrolled
    | GateUsageDescriptionMissing
    | GateRefused(showError: bool)
    | GateThrew
    | GateApproved

  /** Whether the refusal carries an error worth showing: present, non-empty and not a user cancel. */
  predicate ShowsRefusal(c: Challenge) {
    c.error.Some? && c.error.value != "" && c.error.value != USER_CANCEL
  }

  /** The part of `handleBiometricLogin` between the guards and `signIn`. */
  function ChallengeGate(hasHardware: Attempt<bool>, enrolled: Attempt<bool>, challenge: Attempt<Challenge>): (r: Gate)
    ensures r.GateApproved? <==>
      && hasHardware == Done(true) && enrolled == Done(true)
      && challenge.Done? && challenge.value.success && !MissingUsageDescription(challenge.value)
    ensures r.GateNoHardware? <==> hasHardware == Done(false)
    ensures r.GateNotEnrolled? <==> hasHardware == Done(true) && enrolled == Done(false)
    ensures r.GateRefused? ==>
      challenge.Done? && !challenge.value.success && r.showError == ShowsRefusal(challenge.value)
    ensures r.GateThrew? ==> hasHardware.Threw? || enrolled.Threw? || challenge.Threw?
  {
    match hasHardware
    case Threw(_) => GateThrew
    case Done(hw) =>
      if !hw then GateNoHardware
      else match enrolled
        case Threw(_) => GateThrew
        case Done(en) =>
          if !en then GateNotEnrolled
          else match challenge
            case Threw(_) => GateThrew
            case Done(c) =>
              if MissingUsageDescription(c) then GateUsageDescriptionMissing
              else if !c.success then GateRefused(ShowsRefusal(c))
              else GateApproved
  }

  /** The decision tree of `handleBiometricLogin`. */
  function BiometricDecision(
    hasSaved: bool, busy: bool, shouldRequireBiometric: bool,
    hasHardware: Attempt<bool>, enrolled: Attempt<bool>, challenge: Attempt<Challenge>,
    login: Attempt<LoginResult>): (r: BiometricOutcome)
    ensures r.Ignored? <==> !hasSaved || busy
    ensures r.UnavailableInExpoGo? <==> hasSaved && !busy && !shouldRequireBiometric
    ensures r.SignInSucceeded? || r.SignInRejected? <==>
      && hasSaved && !busy && shouldRequireBiometric
      && hasHardware == Done(true) && enrolled == Done(true)
      && challenge.Done? && challenge.value.success && !MissingUsageDescription(challenge.value)
    ensures r.SignInSucceeded? ==> login.Done?
    ensures r.SignInRejected? ==> login == Threw(r.error)
    ensures r.NotAuthenticated? ==> challenge.Done? && r.showError == ShowsRefusal(challenge.value)
    ensures r.QueryFailed? ==> hasHardware.Threw? || enrolled.Threw? || challenge.Threw?
    ensures (r.UsageDescriptionMissing? || r.QueryFailed? || r.SignInRejected?) ==>
      hasSaved && !busy && shouldRequireBiometric
  {
    if !hasSaved || busy then Ignored
    else if !shouldRequireBiometric then UnavailableInExpoGo
    else match ChallengeGate(hasHardware, enrolled, challenge)
      case GateNoHardware => NoHardware
      case GateNotEnrolled => NotEnrolled
      case GateUsageDescriptionMissing => UsageDescriptionMissing
      case GateRefused(showError) => NotAuthenticated(showError)
      case GateThrew => QueryFailed
      case GateApproved =>
        match login
        case Done(_) => SignInSucceeded
        case Threw(e) => SignInRejected(e)
  }

  /** The cached credentials are purged exactly on a non-retryable failure or a throw. */
  predicate Purges(o: BiometricOutcome) {
    o.UsageDescriptionMissing? || o.SignInRejected? || o.QueryFailed?
  }

  /** Forgetting the cached pair after a failure that retrying cannot fix. */
  function PurgeSpec(st: ScreenState, message: string): ScreenState {
    ScreenState(
      st.form.(biometricError := message, savedCredentials := None, biometricVisible := false),
      st.auth.(secure := CredentialStorage.AfterRemove(st.auth.secure)))
  }

  /** The state after the try block, whether it threw, and whether `signIn` succeeded. */
  datatype TryResult = TryResult(state: ScreenState, threw: bool, signedIn: bool)

  /** The try block of `handleBiometricLogin`, entered with the cached pair `saved`. */
  function TrySpec(
    st: ScreenState, saved: CredentialStorage.Credentials,
    hasHardware: Attempt<bool>, enrolled: Attempt<bool>, challenge: Attempt<Challenge>,
    login: Attempt<LoginResult>): TryResult
  {
    match ChallengeGate(hasHardware, enrolled, challenge)
    case GateThrew => TryResult(st, true, false)
    case GateNoHardware => TryResult(st.(form := st.form.(biometricError := NO_HARDWARE)), false, false)
    case GateNotEnrolled => TryResult(st.(form := st.form.(biometricError := NOT_ENROLLED)), false, false)
    case GateUsageDescriptionMissing => TryResult(PurgeSpec(st, USAGE_DESCRIPTION_MISSING), false, false)
    case GateRefused(showError) =>
      TryResult(if showError then st.(form := st.form.(biometricError := CHALLENGE_FAILED)) else st, false, false)
    case GateApproved =>
      var form := st.form.(loading := true, errorMessage := "");
      var auth := SignInSpec(st.auth, saved.email, saved.password, login);
      if login.Threw? then TryResult(ScreenState(form, auth), true, false)
      else TryResult(ScreenState(form.(biometricVisible := false), auth), false, true)
  }

  /** `handleBiometricLogin()`: the guards, the try block, the catch and the finally block. */
  function BiometricLoginSpec(
    st: ScreenState, shouldRequireBiometric: bool,
    hasHardware: Attempt<bool>, enrolled: Attempt<bool>, challenge: Attempt<Challenge>,
    login: Attempt<LoginResult>): ScreenState
  {
    var f := st.form;
    if f.savedCredentials.None? || f.biometricLoading then st
    else if !shouldRequireBiometric then
      st.(form := f.(biometricError := EXPO_GO_UNSUPPORTED, biometricVisible := false))
    else
      var t := TrySpec(st.(form := f.(biometricError := "", biometricLoading := true)),
                       f.savedCredentials.value, hasHardware, enrolled, challenge, login);
      var caught := if t.threw then PurgeSpec(t.state, BIOMETRIC_LOGIN_FAILED) else t.state;
      caught.(form := caught.form.(biometricLoading := false, loading := caught.form.loading && t.signedIn))
  }

  /** What a biometric login attempt does to the form: the guards and the two busy flags. */
  lemma BiometricLoginEffects(
    st: ScreenState, shouldRequireBiometric: bool,
    hasHardware: Attempt<bool>, enrolled: Attempt<bool>, challenge: Attempt<Challenge>,
    login: Attempt<LoginResult>)
    ensures var r := BiometricLoginSpec(st, shouldRequireBiometric, hasHardware, enrolled, challenge, login);
      var o := BiometricDecision(
              st.form.savedCredentials.Some?, st.form.biometricLoading, shouldRequireBiometric,
              hasHardware, enrolled, challenge, login);
      && (o.Ignored? ==> r == st)
      && (!o.Ignored? ==> !r.form.biometricLoading)
      && (r.form.loading <==> (if o.Ignored? || o.UnavailableInExpoGo? then st.form.loading else o.SignInSucceeded?))
      && r.form.email == st.form.email && r.form.password == st.form.password
  {
  }

  /** The message each outcome of a biometric login attempt leaves, and what happens to the sheet. */
  lemma BiometricLoginMessages(
    st: ScreenState, shouldRequireBiometric: bool,
    hasHardware: Attempt<bool>, enrolled: Attempt<bool>, challenge: Attempt<Challenge>,
    login: Attempt<LoginResult>)
    ensures var r := BiometricLoginSpec(st, shouldRequireBiometric, hasHardware, enrolled, challenge, login);
      var o := BiometricDecision(
              st.form.savedCredentials.Some?, st.form.biometricLoading, shouldRequireBiometric,
              hasHardware, enrolled, challenge, login);
      && (o.UnavailableInExpoGo? ==> r.form.biometricError == EXPO_GO_UNSUPPORTED && !r.form.biometricVisible)
      && (o.NoHardware? ==> r.form.biometricError == NO_HARDWARE)
      && (o.NotEnrolled? ==> r.form.biometricError == NOT_ENROLLED)
      && (o.NotAuthenticated? ==> r.form.biometricError == if o.showError then CHALLENGE_FAILED else "")
      && (o.NoHardware? || o.NotEnrolled? || o.NotAuthenticated? ==>
            r.form.biometricVisible == st.form.biometricVisible)
      && (o.UsageDescriptionMissing? ==> r.form.biometricError == USAGE_DESCRIPTION_MISSING)
      && (o.QueryFailed? || o.SignInRejected? ==> r.form.biometricError == BIOMETRIC_LOGIN_FAILED)
      && (o.SignInSucceeded? ==>
            r.form.biometricError == "" && r.form.errorMessage == "" && !r.form.biometricVisible)
  {
  }

  /** What a biometric login attempt does to the session and the credential cache. */
  lemma BiometricLoginSessionEffects(
    st: ScreenState, shouldRequireBiometric: bool,
    hasHardware: Attempt<bool>, enrolled: Attempt<bool>, challenge: Attempt<Challenge>,
    login: Attempt<LoginResult>)
    ensures var r := BiometricLoginSpec(st, shouldRequireBiometric, hasHardware, enrolled, challenge, login);
      var o := BiometricDecision(
              st.form.savedCredentials.Some?, st.form.biometricLoading, shouldRequireBiometric,
              hasHardware, enrolled, challenge, login);
      && (Purges(o) ==> r.form.savedCredentials.None? && !r.form.biometricVisible
                        && r.auth.secure == CredentialStorage.AfterRemove(st.auth.secure))
      && (!Purges(o) ==> r.auth.secure == st.auth.secure || o.SignInSucceeded?)
      && (!Purges(o) ==> r.form.savedCredentials == st.form.savedCredentials)
      && (o.SignInSucceeded? ==> r.auth == SignInSpec(st.auth, st.form.savedCredentials.value.email,
                                               st.form.savedCredentials.value.password, login))
      && (!o.SignInSucceeded? ==>
            r.auth.status == st.auth.status && r.auth.token == st.auth.token
            && r.auth.user == st.auth.user && r.auth.tokens == st.auth.tokens)
  {
  }

  /** `handleLogin()`: signs in with the trimmed inputs unless a login is running. */
  function LoginSpec(st: ScreenState, login: Attempt<LoginResult>): (r: ScreenState)
    ensures st.form.loading ==> r == st
    ensures !st.form.loading ==> !r.form.loading
    ensures !st.form.loading ==> r.auth == SignInSpec(st.auth, Trim(st.form.email), Trim(st.form.password), login)
    ensures !st.form.loading ==> r.form.errorMessage == if login.Threw? then LOGIN_FAILED else ""
    ensures r.form.savedCredentials == st.form.savedCredentials
  {
    if st.form.loading then st
    else
      ScreenState(
        st.form.(loading := false, errorMessage := if login.Threw? then LOGIN_FAILED else ""),
        SignInSpec(st.auth, Trim(st.form.email), Trim(st.form.password), login))
  }

  /** The credential-loading effect, run whenever the session status changes. */
  function LoadCredentialsSpec(st: ScreenState, shouldRequireBiometric: bool): (r: ScreenState)
    ensures st.auth.status != SignedOut ==> r.auth == st.auth
    ensures r.form.savedCredentials.None? ==> !r.form.biometricVisible
    ensures st.auth.status != SignedOut ==> r.form.savedCredentials.None?
    ensures st.auth.status == SignedOut ==>
      r.form.savedCredentials == CredentialStorage.GetResult(st.auth.secure)
      && r.auth == st.auth.(secure := CredentialStorage.AfterGet(st.auth.secure))
    ensures r.form.savedCredentials.Some? ==>
      r.form.email == r.form.savedCredentials.value.email
      && r.form.biometricVisible == shouldRequireBiometric && r.form.biometricError == ""
  {
    var f := st.form;
    if st.auth.status != SignedOut then
      st.(form := f.(savedCredentials := None, biometricVisible := false))
    else
      var saved := CredentialStorage.GetResult(st.auth.secure);
      var auth := st.auth.(secure := CredentialStorage.AfterGet(st.auth.secure));
      match saved
      case Some(c) =>
        ScreenState(
          f.(savedCredentials := saved, email := c.email, biometricError := "",
             biometricVisible := shouldRequireBiometric),
          auth)
      case None =>
        ScreenState(f.(savedCredentials := None, biometricVisible := false), auth)
  }

  class LoginScreen {
    const auth: SessionManager
    /** `Constants.appOwnership !== "expo"`: not running inside Expo Go. */
    const shouldRequireBiometric: bool
    var email: string
    var password: string
    var loading: bool
    var errorMessage: string
    var savedCredentials: Option<CredentialStorage.Credentials>
    var biometricVisible: bool
    var biometricLoading: bool
    var biometricError: string

    constructor (auth: SessionManager, shouldRequireBiometric: bool)
      ensures this.auth == auth && this.shouldRequireBiometric == shouldRequireBiometric
      ensures View() == Form("", "", false, "", None, false, false, "")
    {
      this.auth := auth;
      this.shouldRequireBiometric := shouldRequireBiometric;
      email, password, loading, errorMessage := "", "", false, "";
      savedCredentials, biometricVisible, biometricLoading, biometricError := None, false, false, "";
    }

    function View(): Form
      reads this
    {
      Form(email, password, loading, errorMessage, savedCredentials,
           biometricVisible, biometricLoading, biometricError)
    }

    function State(): ScreenState
      reads this, auth, auth.tokens, auth.secure
    {
      ScreenState(View(), auth.Current())
    }

    /** The effect on `status`: load the cached credentials while signed out. */
    method LoadCredentials()
      modifies this, auth.secure
      ensures State() == LoadCredentialsSpec(old(State()), shouldRequireBiometric)
    {
      if auth.status == SignedOut {
        var saved := CredentialStorage.Get(auth.secure);
        if saved.Some? {
          savedCredentials := saved;
          email := saved.value.email;
          biometricError := "";
          biometricVisible := shouldRequireBiometric;
        } else {
          savedCredentials := None;
          biometricVisible := false;
        }
      } else {
        savedCredentials := None;
        biometricVisible := false;
      }
    }

    /** `handleBiometricDismiss()`: the sheet cannot be closed mid-attempt. */
    method HandleBiometricDismiss()
      modifies this
      ensures biometricVisible == (old(biometricVisible) && old(biometricLoading))
      ensures View() == old(View()).(biometricVisible := biometricVisible)
    {
      if biometricLoading {
        return;
      }
      biometricVisible := false;
    }

    /** `handleBiometricOpen()`. */
    method HandleBiometricOpen()
      modifies this
      ensures old(savedCredentials).None? ==> View() == old(View())
      ensures old(savedCredentials).Some? ==>
        View() == old(View()).(biometricVisible := shouldRequireBiometric,
                               biometricError := if shouldRequireBiometric then "" else EXPO_GO_UNSUPPORTED)
    {
      if savedCredentials.None? {
        return;
      }
      if !shouldRequireBiometric {
        biometricError := EXPO_GO_UNSUPPORTED;
        biometricVisible := false;
        return;
      }
      biometricError := "";
      biometricVisible := true;
    }

    /** Forgets the cached pair and closes the sheet with `message`. */
    method Purge(message: string)
      modifies this, auth.secure
      ensures State() == PurgeSpec(old(State()), message)
    {
      biometricError := message;
      CredentialStorage.Remove(auth.secure);
      savedCredentials := None;
      biometricVisible := false;
    }

    /** The try block of `handleBiometricLogin()`. */
    method TryBiometricLogin(
      saved: CredentialStorage.Credentials,
      hasHardware: Attempt<bool>, enrolled: Attempt<bool>, challenge: Attempt<Challenge>,
      login: Attempt<LoginResult>) returns (threw: bool, signedIn: bool)
      modifies this, auth, auth.tokens, auth.secure
      ensures TryResult(State(), threw, signedIn) ==
              TrySpec(old(State()), saved, hasHardware, enrolled, challenge, login)
    {
      threw, signedIn := false, false;
      match ChallengeGate(hasHardware, enrolled, challenge) {
        case GateThrew =>
          threw := true;
        case GateNoHardware =>
          biometricError := NO_HARDWARE;
        case GateNotEnrolled =>
          biometricError := NOT_ENROLLED;
        case GateUsageDescriptionMissing =>
          Purge(USAGE_DESCRIPTION_MISSING);
        case GateRefused(showError) =>
          if showError {
            biometricError := CHALLENGE_FAILED;
          }
        case GateApproved =>
          loading := true;
          errorMessage := "";
          var result := auth.SignIn(saved.email, saved.password, login);
          if result.Threw? {
            threw := true;
          } else {
            signedIn := true;
            biometricVisible := false;
          }
      }
    }

    /** `handleBiometricLogin()`. */
    method HandleBiometricLogin(
      hasHardware: Attempt<bool>, enrolled: Attempt<bool>, challenge: Attempt<Challenge>,
      login: Attempt<LoginResult>)
      modifies this, auth, auth.tokens, auth.secure
      ensures State() == BiometricLoginSpec(
        old(State()), shouldRequireBiometric, hasHardware, enrolled, challenge, login)
    {
      if savedCredentials.None? || biometricLoading {
        return;
      }
      if !shouldRequireBiometric {
        biometricError := EXPO_GO_UNSUPPORTED;
        biometricVisible := false;
        return;
      }
      biometricError := "";
      biometricLoading := true;
      var threw, signedInSuccessfully := TryBiometricLogin(savedCredentials.value, hasHardware, enrolled, challenge, login);
      if threw {
        Purge(BIOMETRIC_LOGIN_FAILED);
      }
      biometricLoading := false;
      if !signedInSuccessfully {
        loading := false;
      }
    }

    /** `handleLogin()`. */
    method HandleLogin(login: Attempt<LoginResult>)
      modifies this, auth, auth.tokens, auth.secure
      ensures State() == LoginSpec(old(State()), login)
    {
      if loading {
        return;
      }
      loading := true;
      errorMessage := "";
      var result := auth.SignIn(Trim(email), Trim(password), login);
      if result.Threw? {
        errorMessage := LOGIN_FAILED;
      }
      loading := false;
    }
  }
}
