/**
 * The session manager (`AuthProvider`): a three-state machine over `status`,
 * `user` and `token`, mirrored to the token store and the credential store.
 *
 * Each transition is given twice: as a pure function from one `Snapshot` of the
 * provider and both backends to the next (where its properties are proved), and
 * as a method of `SessionManager` that runs the handler step by step and is
 * proved to produce exactly that next snapshot. Remote calls and the biometric
 * capability are inputs: each is the outcome the awaited call would have had.
 */
module Session {
  import opened Common
  import opened Storage
  import TokenStorage
  import CredentialStorage

  datatype Status = Checking | SignedOut | SignedIn

  /** The provider's state together with the two backends it writes to. */
  datatype Snapshot = Snapshot(
    status: Status,
    user: Option<User>,
    token: Option<string>,
    tokens: KvState<string>,
    secure: KvState<StoredText>)

  /** Signed in exactly when a token and a user are held; otherwise neither is. */
  predicate Consistent(s: Snapshot) {
    if s.status == SignedIn then s.token.Some? && s.user.Some? else s.token.None? && s.user.None?
  }

  /** How a restore ends. */
  datatype RestoreOutcome =
    | NoToken                              // nothing usable stored
    | Rejected                             // the biometric challenge said no
    | Failed                               // some awaited call threw
    | Restored(token: string, user: User)  // the stored token still works

  /** The biometric gate ran and was passed, or it was bypassed. */
  predicate GatePassed(hasHardware: Attempt<bool>, enrolled: Attempt<bool>, challenge: Attempt<bool>) {
    hasHardware == Done(false)
    || (hasHardware == Done(true) && enrolled == Done(false))
    || (hasHardware == Done(true) && enrolled == Done(true) && challenge == Done(true))
  }

  /** The decision `loadSession` takes, given the stored token and each awaited outcome. */
  function Restore(
    stored: Option<string>, hasHardware: Attempt<bool>, enrolled: Attempt<bool>,
    challenge: Attempt<bool>, profile: Attempt<User>): (r: RestoreOutcome)
    ensures r.NoToken? <==> !TruthyString(stored)
    ensures r.Rejected? <==>
      TruthyString(stored) && hasHardware == Done(true) && enrolled == Done(true) && challenge == Done(false)
    ensures r.Restored? <==>
      TruthyString(stored) && GatePassed(hasHardware, enrolled, challenge) && profile.Done?
    ensures r.Restored? ==> r.token == stored.value && profile == Done(r.user)
  {
    if !TruthyString(stored) then NoToken
    else match hasHardware
      case Threw(_) => Failed
      case Done(hw) =>
        var gate :=
          if !hw then Done(true)
          else match enrolled
            case Threw(e) => Threw(e)
            case Done(en) => if !en then Done(true) else challenge;
        match gate
        case Threw(_) => Failed
        case Done(approved) =>
          if !approved then Rejected
          else match profile
            case Threw(_) => Failed
            case Done(u) => Restored(stored.value, u)
  }

  /** `loadSession`, the restore run at start-up. */
  function RestoreSpec(
    s: Snapshot, hasHardware: Attempt<bool>, enrolled: Attempt<bool>,
    challenge: Attempt<bool>, profile: Attempt<User>): Snapshot
  {
    var stored := TokenStorage.GetResult(s.tokens);
    match Restore(stored, hasHardware, enrolled, challenge, profile)
    case NoToken =>
      Snapshot(SignedOut, None, None, s.tokens, s.secure)
    case Rejected =>
      Snapshot(SignedOut, None, None, TokenStorage.AfterRemove(s.tokens), CredentialStorage.AfterRemove(s.secure))
    case Failed =>
      Snapshot(SignedOut, None, None, TokenStorage.AfterRemove(s.tokens), s.secure)
    case Restored(t, u) =>
      Snapshot(SignedIn, Some(u), Some(t), s.tokens, s.secure)
  }

  /**
   * A restore always settles, consistently; it signs in only with the stored token
   * and the fetched profile, touching neither store; when it signs out no usable token
   * is left; and only a refused biometric challenge forgets the saved credentials.
   */
  lemma RestoreOutcomes(
    s: Snapshot, hasHardware: Attempt<bool>, enrolled: Attempt<bool>,
    challenge: Attempt<bool>, profile: Attempt<User>)
    ensures var r := RestoreSpec(s, hasHardware, enrolled, challenge, profile);
      && Consistent(r) && r.status != Checking
      && (r.status == SignedIn ==> r.token == TokenStorage.GetResult(s.tokens))
      && (r.status == SignedIn ==> profile == Done(r.user.value))
      && (r.status == SignedIn ==> r.tokens == s.tokens && r.secure == s.secure)
      && (r.status == SignedOut ==> !TruthyString(TokenStorage.GetResult(r.tokens)))
      && (r.secure != s.secure ==> hasHardware == Done(true) && enrolled == Done(true) && challenge == Done(false))
    ensures var r := RestoreSpec(s, hasHardware, enrolled, challenge, profile);
      match Restore(TokenStorage.GetResult(s.tokens), hasHardware, enrolled, challenge, profile)
      case NoToken => r.tokens == s.tokens && r.secure == s.secure
      case Rejected =>
        r.tokens == TokenStorage.AfterRemove(s.tokens) && r.secure == CredentialStorage.AfterRemove(s.secure)
      case Failed => r.tokens == TokenStorage.AfterRemove(s.tokens) && r.secure == s.secure
      case Restored(t, u) => r.status == SignedIn && r.token == Some(t) && r.user == Some(u)
  {
  }

  /** `signIn(credentials)`; a rejected login changes nothing. */
  function SignInSpec(s: Snapshot, email: string, password: string, login: Attempt<LoginResult>): (r: Snapshot)
    ensures login.Threw? ==> r == s
    ensures login.Done? ==> Consistent(r) && r.status == SignedIn
    ensures login.Done? ==> r.token == Some(login.value.token) && r.user == Some(login.value.user)
    ensures login.Done? && s.tokens.failure.None? ==> TokenStorage.GetResult(r.tokens) == Some(login.value.token)
    ensures login.Done? && s.secure.failure.None? && email != "" && password != "" ==>
      CredentialStorage.GetResult(r.secure) == Some(CredentialStorage.Credentials(email, password))
  {
    match login
    case Threw(_) => s
    case Done(result) =>
      CredentialStorage.SanitizePair(CredentialStorage.Credentials(email, password));
      Snapshot(
        SignedIn, Some(result.user), Some(result.token),
        TokenStorage.AfterSet(s.tokens, Some(result.token)),
        CredentialStorage.AfterSet(s.secure, CredentialStorage.Credentials(email, password)))
  }

  /** `signOut({ forgetCredentials })`. */
  function SignOutSpec(s: Snapshot, forgetCredentials: bool): (r: Snapshot)
    ensures Consistent(r) && r.status == SignedOut
    ensures TokenStorage.GetResult(r.tokens) == None
    ensures forgetCredentials ==> CredentialStorage.GetResult(r.secure) == None
    ensures !forgetCredentials ==> r.secure == s.secure
  {
    Snapshot(
      SignedOut, None, None,
      TokenStorage.AfterRemove(s.tokens),
      if forgetCredentials then CredentialStorage.AfterRemove(s.secure) else s.secure)
  }

  /** `refreshUser()`; any failure signs out, keeping the stored credentials. */
  function RefreshSpec(s: Snapshot, profile: Attempt<User>): (r: Snapshot)
    ensures !TruthyString(s.token) ==> r == s
    ensures TruthyString(s.token) && profile.Done? ==>
      r == s.(status := SignedIn, user := Some(profile.value))
    ensures TruthyString(s.token) && profile.Threw? ==> r == SignOutSpec(s, false)
    ensures r.secure == s.secure
  {
    if !TruthyString(s.token) then s
    else match profile
      case Done(u) => s.(user := Some(u), status := SignedIn)
      case Threw(_) => SignOutSpec(s, false)
  }

  /** `setUserState(next)`: only the in-memory user and status change. */
  function SetUserStateSpec(s: Snapshot, next: Option<User>): (r: Snapshot)
    ensures r.user == next && (r.status == SignedIn <==> next.Some?)
    ensures r.token == s.token && r.tokens == s.tokens && r.secure == s.secure
  {
    s.(user := next, status := if next.Some? then SignedIn else SignedOut)
  }

  /** Every transition but `setUserState` keeps the invariant. */
  lemma TransitionsKeepConsistency(
    s: Snapshot, hasHardware: Attempt<bool>, enrolled: Attempt<bool>, challenge: Attempt<bool>,
    profile: Attempt<User>, email: string, password: string, login: Attempt<LoginResult>, forget: bool)
    requires Consistent(s)
    ensures Consistent(RestoreSpec(s, hasHardware, enrolled, challenge, profile))
    ensures Consistent(SignInSpec(s, email, password, login))
    ensures Consistent(SignOutSpec(s, forget))
    ensures Consistent(RefreshSpec(s, profile))
  {
    RestoreOutcomes(s, hasHardware, enrolled, challenge, profile);
  }

  /** `setUserState` keeps the invariant when it replaces the user of a live session. */
  lemma SetUserStateWhileSignedIn(s: Snapshot, next: User)
    requires Consistent(s) && s.status == SignedIn
    ensures Consistent(SetUserStateSpec(s, Some(next)))
  {
  }

  /**
   * ...but not otherwise: it never touches `token`, so it can sign in without a
   * token, or sign out while a token is still held.
   */
  lemma {:induction false} SetUserStateCanBreakConsistency(s: Snapshot, u: User)
    requires Consistent(s)
    ensures s.status != SignedIn ==> !Consistent(SetUserStateSpec(s, Some(u)))
    ensures s.status == SignedIn ==> !Consistent(SetUserStateSpec(s, None))
  {
  }

  /** Signing out twice leaves the same state as signing out once. */
  lemma SignOutIdempotent(s: Snapshot, forget: bool)
    ensures SignOutSpec(SignOutSpec(s, forget), forget) == SignOutSpec(s, forget)
  {
    var once := SignOutSpec(s, forget);
    if once.tokens.failure.None? {
      assert once.tokens.items - {TokenStorage.TOKEN_KEY} == once.tokens.items;
    }
    if once.secure.failure.None? && forget {
      assert once.secure.items - {CredentialStorage.CREDENTIAL_KEY} == once.secure.items;
    }
  }

  /** Signing out when already signed out leaves the in-memory session as it was. */
  lemma SignOutWhenSignedOut(s: Snapshot, forget: bool)
    requires Consistent(s) && s.status == SignedOut
    ensures var r := SignOutSpec(s, forget); r.status == s.status && r.user == s.user && r.token == s.token
  {
  }

  /** A routine sign-out keeps the stored credentials; `forgetCredentials` clears them. */
  lemma CredentialSurvival(s: Snapshot)
    ensures CredentialStorage.GetResult(SignOutSpec(s, false).secure) == CredentialStorage.GetResult(s.secure)
    ensures CredentialStorage.GetResult(SignOutSpec(s, true).secure) == None
  {
  }

  /** Without a usable stored token, no biometric or profile outcome matters. */
  lemma RestoreWithoutTokenConsultsNothing(
    s: Snapshot, h1: Attempt<bool>, e1: Attempt<bool>, c1: Attempt<bool>, p1: Attempt<User>,
    h2: Attempt<bool>, e2: Attempt<bool>, c2: Attempt<bool>, p2: Attempt<User>)
    requires !TruthyString(TokenStorage.GetResult(s.tokens))
    ensures RestoreSpec(s, h1, e1, c1, p1) == RestoreSpec(s, h2, e2, c2, p2)
    ensures RestoreSpec(s, h1, e1, c1, p1) == s.(status := SignedOut, user := None, token := None)
  {
  }

  /** Without biometric hardware, enrolment and the challenge do not matter. */
  lemma RestoreWithoutHardwareSkipsChallenge(
    s: Snapshot, e1: Attempt<bool>, c1: Attempt<bool>, e2: Attempt<bool>, c2: Attempt<bool>, p: Attempt<User>)
    ensures RestoreSpec(s, Done(false), e1, c1, p) == RestoreSpec(s, Done(false), e2, c2, p)
  {
  }

  /** Not enrolled: the challenge does not matter. */
  lemma RestoreWithoutEnrolmentSkipsChallenge(
    s: Snapshot, c1: Attempt<bool>, c2: Attempt<bool>, p: Attempt<User>)
    ensures RestoreSpec(s, Done(true), Done(false), c1, p) == RestoreSpec(s, Done(true), Done(false), c2, p)
  {
  }

  /** The provider object. `tokens` and `secure` are the app's two backend singletons. */
  class SessionManager {
    var status: Status
    var user: Option<User>
    var token: Option<string>
    const tokens: AsyncStorage
    const secure: SecureStore

    constructor (tokens: AsyncStorage, secure: SecureStore)
      ensures this.tokens == tokens && this.secure == secure
      ensures status == Checking && user == None && token == None
    {
      this.tokens := tokens;
      this.secure := secure;
      status := Checking;
      user := None;
      token := None;
    }

    function Current(): Snapshot
      reads this, tokens, secure
    {
      Snapshot(status, user, token, tokens.State(), secure.State())
    }

    /**
     * The biometric part of the try block: `threw` records a throw that reaches the
     * catch, `approved` whether the gate let the restore go on.
     */
    static method BiometricGate(hasHardware: Attempt<bool>, enrolled: Attempt<bool>, challenge: Attempt<bool>)
      returns (threw: bool, approved: bool)
      ensures threw <==>
        hasHardware.Threw? || (hasHardware == Done(true) && (enrolled.Threw? || (enrolled == Done(true) && challenge.Threw?)))
      ensures !threw ==> (approved <==> GatePassed(hasHardware, enrolled, challenge))
    {
      threw, approved := false, true;
      match hasHardware {
        case Threw(_) => threw := true;
        case Done(hw) =>
          if hw {
            match enrolled {
              case Threw(_) => threw := true;
              case Done(en) =>
                if en {
                  match challenge {
                    case Threw(_) => threw := true;
                    case Done(success) => approved := success;
                  }
                }
            }
          }
      }
    }

    /** `loadSession()`. */
    method LoadSession(
      hasHardware: Attempt<bool>, enrolled: Attempt<bool>, challenge: Attempt<bool>, profile: Attempt<User>)
      modifies this, tokens, secure
      ensures Current() == RestoreSpec(old(Current()), hasHardware, enrolled, challenge, profile)
    {
      status := Checking;
      var stored := TokenStorage.Get(tokens);
      ghost var outcome := Restore(stored, hasHardware, enrolled, challenge, profile);
      if !TruthyString(stored) {
        token, user, status := None, None, SignedOut;
        return;
      }
      var threw, approved := BiometricGate(hasHardware, enrolled, challenge);
      if !threw && !approved {
        assert outcome.Rejected?;
        TokenStorage.Remove(tokens);
        CredentialStorage.Remove(secure);
        token, user, status := None, None, SignedOut;
        return;
      }
      if !threw {
        match profile {
          case Threw(_) => threw := true;
          case Done(u) =>
            assert outcome == Restored(stored.value, u);
            token, user, status := stored, Some(u), SignedIn;
            return;
        }
      }
      // The catch block.
      assert outcome.Failed?;
      TokenStorage.Remove(tokens);
      token, user, status := None, None, SignedOut;
    }

    /** `signIn({ email, password })`; a rejected login propagates its error. */
    method SignIn(email: string, password: string, login: Attempt<LoginResult>) returns (result: Attempt<()>)
      modifies this, tokens, secure
      ensures result == if login.Threw? then Threw(login.error) else Done(())
      ensures Current() == SignInSpec(old(Current()), email, password, login)
    {
      match login {
        case Threw(e) =>
          result := Threw(e);
        case Done(r) =>
          TokenStorage.Set(tokens, Some(r.token));
          CredentialStorage.Set(secure, CredentialStorage.Credentials(email, password));
          token := Some(r.token);
          user := Some(r.user);
          status := SignedIn;
          result := Done(());
      }
    }

    /** `signOut({ forgetCredentials })`; never fails. */
    method SignOut(forgetCredentials: bool)
      modifies this, tokens, secure
      ensures Current() == SignOutSpec(old(Current()), forgetCredentials)
    {
      TokenStorage.Remove(tokens);
      if forgetCredentials {
        CredentialStorage.Remove(secure);
      }
      token := None;
      user := None;
      status := SignedOut;
    }

    /** `refreshUser()`. */
    method RefreshUser(profile: Attempt<User>)
      modifies this, tokens, secure
      ensures Current() == RefreshSpec(old(Current()), profile)
    {
      if !TruthyString(token) {
        return;
      }
      match profile {
        case Done(u) =>
          user := Some(u);
          status := SignedIn;
        case Threw(_) =>
          SignOut(false);
      }
    }

    /** `setUserState(next)`. */
    method SetUserState(next: Option<User>)
      modifies this
      ensures Current() == SetUserStateSpec(old(Current()), next)
    {
      user := next;
      status := if next.Some? then SignedIn else SignedOut;
    }
  }
}
