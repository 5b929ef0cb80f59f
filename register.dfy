/**
 * The registration page: it calls `register(name, email, password)`; on
 * success it shows a success notice and navigates to the login route `/`; on
 * failure it shows an error notice. It never touches storage.
 */
module Register {
  import opened Js
  import opened Api
  import opened Browser

  const RegisterErrorTitle: string := "Error al registrar"
  const CheckDataMessage: string := "Verifica los datos"
  const RegisteredTitle: string := "Registro exitoso"
  const RegisteredText: string := "Ya puedes iniciar sesión"

  /**
   * `error?.response?.status === 400 ? 'Verifica los datos'
   *    : error?.response?.data?.error || 'Verifica los datos'`
   */
  function RegisterErrorText(f: Failure): (text: string)
    ensures text != ""
    ensures StatusOf(f) == Some(400) ==> text == CheckDataMessage
    ensures StatusOf(f) != Some(400) && TruthyText(ErrorTextOf(f)) ==> text == ErrorTextOf(f).value
    ensures !TruthyText(ErrorTextOf(f)) ==> text == CheckDataMessage
  {
    if StatusOf(f) == Some(400) then CheckDataMessage
    else if TruthyText(ErrorTextOf(f)) then ErrorTextOf(f).value
    else CheckDataMessage
  }

  /** Everything `handleRegister` does, in order, given what `register` settled with. */
  function RegisterEffects(name: string, email: string, password: string, result: RegisterResult): seq<Effect> {
    [CallRegister(name, email, password)] +
    match result
    case Registered => [Notice(SuccessIcon, RegisteredTitle, Some(RegisteredText)), Navigate("/")]
    case RegisterRejected(f) => [Notice(ErrorIcon, RegisterErrorTitle, Some(RegisterErrorText(f)))]
  }

  class RegisterPage {
    const browser: Browser
    var name: string
    var email: string
    var password: string

    constructor (browser: Browser)
      ensures this.browser == browser && name == "" && email == "" && password == ""
    {
      this.browser := browser;
      name := "";
      email := "";
      password := "";
    }

    /** The `onChange` handlers of the three inputs. */
    method SetName(value: string)
      modifies this
      ensures name == value && email == old(email) && password == old(password)
    {
      name := value;
    }

    method SetEmail(value: string)
      modifies this
      ensures email == value && name == old(name) && password == old(password)
    {
      email := value;
    }

    method SetPassword(value: string)
      modifies this
      ensures password == value && name == old(name) && email == old(email)
    {
      password := value;
    }

    /** `handleRegister`, with `result` the outcome of the awaited `register` call. */
    method HandleRegister(result: RegisterResult)
      requires browser.Valid()
      modifies browser
      ensures browser.Valid()
      ensures browser.trace == old(browser.trace) + RegisterEffects(name, email, password, result)
      ensures browser.storage == old(browser.storage)
    {
      browser.Emit([CallRegister(name, email, password)]);
      match result {
        case Registered =>
          browser.Emit([Notice(SuccessIcon, RegisteredTitle, Some(RegisteredText))]);
          browser.Emit([Navigate("/")]);
        case RegisterRejected(f) =>
          browser.Emit([Notice(ErrorIcon, RegisterErrorTitle, Some(RegisterErrorText(f)))]);
      }
    }
  }

  /** A 400 shows the generic text even when the server sent an `error` string. */
  lemma BadRequestHidesServerError(data: Option<ErrorBody>)
    ensures RegisterErrorText(Failure(Some(ErrorResponse(Some(400), data)))) == CheckDataMessage
  {
  }

  /** The text shown is either the server's `error` string verbatim or the generic text, nothing else. */
  lemma RegisterErrorTextOrigin(f: Failure)
    ensures RegisterErrorText(f) == CheckDataMessage || Some(RegisterErrorText(f)) == ErrorTextOf(f)
  {
  }

  /** `register` is called exactly once, with name, email and password in that order. */
  lemma RegisterCallsServiceOnce(name: string, email: string, password: string, result: RegisterResult)
    ensures ServiceCalls(RegisterEffects(name, email, password, result)) == [CallRegister(name, email, password)]
  {
    var t := RegisterEffects(name, email, password, result);
    ServiceCallsAppend([t[0]], t[1..]);
    assert [t[0]] + t[1..] == t;
    ServiceCallsNone(t[1..]);
  }

  /**
   * The flow never writes storage, navigates exactly when registration
   * succeeded, and then only to `/` after the success notice.
   */
  lemma RegisterFlowShape(m: map<string, string>, name: string, email: string, password: string, result: RegisterResult)
    ensures var t := RegisterEffects(name, email, password, result);
            && Replay(m, t) == m
            && ((exists i :: 0 <= i < |t| && t[i].Navigate?) <==> result.Registered?)
            && (result.Registered? ==>
                  t[|t| - 1] == Navigate("/") && t[|t| - 2] == Notice(SuccessIcon, RegisteredTitle, Some(RegisteredText)))
  {
    var t := RegisterEffects(name, email, password, result);
    ReplayReadOnly(m, t);
    if result.Registered? {
      assert t[|t| - 1].Navigate?;
    }
  }
}
