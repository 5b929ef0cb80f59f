/**
 * The login page: it calls `login(email, password)` with what was typed and,
 * on success, stores the session (`token`, `userId`, `name`) and navigates to
 * `/events`; on failure it shows an error notice whose text is the server's
 * `error` field when that is truthy and a fixed fallback otherwise.
 */
module Login {
  import opened Js
  import opened Api
  import opened Browser
  import opened Session

  const LoginErrorTitle: string := "Error al iniciar sesión"
  const CredentialsMessage: string := "Verifica tus credenciales"

  /** `error?.response?.data?.error || 'Verifica tus credenciales'` */
  function LoginErrorText(f: Failure): (text: string)
    ensures text != ""
    ensures TruthyText(ErrorTextOf(f)) ==> text == ErrorTextOf(f).value
    ensures !TruthyText(ErrorTextOf(f)) ==> text == CredentialsMessage
  {
    if TruthyText(ErrorTextOf(f)) then ErrorTextOf(f).value else CredentialsMessage
  }

  /** Everything `handleLogin` does, in order, given what `login` settled with. */
  function LoginEffects(email: string, password: string, result: LoginResult): seq<Effect> {
    [CallLogin(email, password)] +
    match result
    case LoggedIn(user, token) => LoginWrites(user, token) + [Navigate("/events")]
    case LoginRejected(f) => [Notice(ErrorIcon, LoginErrorTitle, Some(LoginErrorText(f)))]
  }

  class LoginPage {
    const browser: Browser
    var email: string
    var password: string

    constructor (browser: Browser)
      ensures this.browser == browser && email == "" && password == ""
    {
      this.browser := browser;
      email := "";
      password := "";
    }

    /** The `onChange` of the email input. */
    method SetEmail(value: string)
      modifies this
      ensures email == value && password == old(password)
    {
      email := value;
    }

    /** The `onChange` of the password input. */
    method SetPassword(value: string)
      modifies this
      ensures password == value && email == old(email)
    {
      password := value;
    }

    /** `handleLogin`, with `result` the outcome of the awaited `login` call. */
    method HandleLogin(result: LoginResult)
      requires browser.Valid()
      modifies browser
      ensures browser.Valid()
      ensures browser.trace == old(browser.trace) + LoginEffects(email, password, result)
      ensures browser.storage ==
              if result.LoggedIn? then StoreLogin(old(browser.storage), result.user, result.token)
              else old(browser.storage)
    {
      browser.Emit([CallLogin(email, password)]);
      match result {
        case LoggedIn(user, token) =>
          browser.SetItem(TokenKey, token);
          browser.SetItem(UserIdKey, IntToString(user.id));
          browser.SetItem(NameKey, user.name);
          browser.Emit([Navigate("/events")]);
        case LoginRejected(f) =>
          browser.Emit([Notice(ErrorIcon, LoginErrorTitle, Some(LoginErrorText(f)))]);
      }
    }
  }

  /** The error text never depends on the HTTP status. */
  lemma LoginErrorIgnoresStatus(r: ErrorResponse, status: Option<int>)
    ensures LoginErrorText(Failure(Some(r))) == LoginErrorText(Failure(Some(r.(status := status))))
  {
  }

  /** `login` is called exactly once, with the email and password as typed, whatever the outcome. */
  lemma LoginCallsServiceOnce(email: string, password: string, result: LoginResult)
    ensures ServiceCalls(LoginEffects(email, password, result)) == [CallLogin(email, password)]
  {
    var t := LoginEffects(email, password, result);
    ServiceCallsAppend([t[0]], t[1..]);
    assert [t[0]] + t[1..] == t;
    ServiceCallsNone(t[1..]);
  }

  /**
   * On success navigation to `/events` is the last effect and the only
   * navigation, and by the time it happens storage already holds the whole
   * session.
   */
  lemma LoginNavigatesAfterWrites(m: map<string, string>, email: string, password: string, user: User, token: string)
    ensures var t := LoginEffects(email, password, LoggedIn(user, token));
            && t[|t| - 1] == Navigate("/events")
            && (forall i :: 0 <= i < |t| - 1 ==> !t[i].Navigate?)
            && Replay(m, t[..|t| - 1]) == StoreLogin(m, user, token)
  {
    var t := LoginEffects(email, password, LoggedIn(user, token));
    assert t[..|t| - 1] == [t[0]] + LoginWrites(user, token);
    ReplayAppend(m, [t[0]], LoginWrites(user, token));
    ReplayLoginWrites(m, user, token);
  }

  /** Replaying the whole login flow on storage `m` gives the stored session, or `m` on failure. */
  lemma LoginStorage(m: map<string, string>, email: string, password: string, result: LoginResult)
    ensures Replay(m, LoginEffects(email, password, result)) ==
            if result.LoggedIn? then StoreLogin(m, result.user, result.token) else m
  {
    var t := LoginEffects(email, password, result);
    if result.LoggedIn? {
      LoginNavigatesAfterWrites(m, email, password, result.user, result.token);
      assert t == t[..|t| - 1] + [t[|t| - 1]];
      ReplayAppend(m, t[..|t| - 1], [t[|t| - 1]]);
    } else {
      ReplayReadOnly(m, t);
    }
  }

  /** A failed login writes no storage key and does not navigate; it only shows the error notice. */
  lemma LoginFailureHasNoSideEffects(email: string, password: string, f: Failure)
    ensures var t := LoginEffects(email, password, LoginRejected(f));
            && (forall i :: 0 <= i < |t| ==> !t[i].WritesStorage() && !t[i].Navigate?)
            && t[|t| - 1] == Notice(ErrorIcon, LoginErrorTitle, Some(LoginErrorText(f)))
  {
  }
}
