/** The login screen: when its button is enabled, and what it does with a login result. */
module LoginScreen {
  import opened Wrappers
  import opened KotlinText
  import opened Results
  import opened Api
  import opened Repository
  import opened EditTexts

  const LoginSuccessTitle: UiText := StringResource("login_success_title")
  const LoginSuccessMessage: UiText := StringResource("login_success_message")
  const LoginFailedMessage: UiText := StringResource("login_failed_message")

  /** A field counts for a form's button when its (untrimmed) text is not empty and it shows no error. */
  predicate FieldReady(text: string, error: Option<UiText>) {
    text != [] && error == None
  }

  /** `setButton`: enabled exactly when both fields are ready. */
  predicate LoginButtonEnabled(emailText: string, emailError: Option<UiText>,
                               passwordText: string, passwordError: Option<UiText>) {
    FieldReady(emailText, emailError) && FieldReady(passwordText, passwordError)
  }

  /**
   * With the errors the fields' validators leave, the button is enabled
   * exactly when the trimmed email has the accepted form and the trimmed
   * password has at least 8 characters.
   */
  lemma LoginButtonAfterEdits(email: string, password: string)
    ensures LoginButtonEnabled(email, EmailError(email), password, PasswordError(password)) <==>
              EmailForm(Trim(email)) && Utf16Length(Trim(password)) >= MinPasswordLength
  {
    if EmailForm(Trim(email)) && Utf16Length(Trim(password)) >= MinPasswordLength {
      EmailMatchesIff(Trim(email));
      assert Trim(email) != [] by {
        var i, j, k :| EmailSplit(Trim(email), i, j, k);
      }
      TrimNonEmpty(email);
      TrimNonEmpty(password);
    }
  }

  /** `resultState.data.loginResult?.token`. */
  function LoginToken(response: LoginResponse): (t: Option<string>)
    ensures t.Some? <==> response.loginResult.Some? && response.loginResult.value.token.Some?
    ensures t.Some? ==> t.value == response.loginResult.value.token.value
  {
    match response.loginResult
    case Some(result) => result.token
    case None => None
  }

  datatype LoginAction =
    | ShowProgress
    | SaveSessionAndOpenMain(user: UserModel)
    | ShowFailure(message: UiText)

  /**
   * What the login observer does with a result: Loading shows progress; a
   * Success with a token saves the session from the submitted inputs and
   * opens the main screen; a Success without one, and an Error (its text
   * verbatim), show a message.
   */
  function LoginDispatch(r: ResultState<LoginResponse>, email: string, password: string): (a: LoginAction)
    ensures a.ShowProgress? <==> r.Loading?
    ensures a.SaveSessionAndOpenMain? <==> r.Success? && LoginToken(r.data).Some?
    ensures a.SaveSessionAndOpenMain? ==> a.user == UserModel(email, LoginToken(r.data).value, password, true)
    ensures r.Success? && LoginToken(r.data).None? ==> a == ShowFailure(LoginFailedMessage)
    ensures r.Error? ==> a == ShowFailure(Literal(r.error))
  {
    match r
    case Loading => ShowProgress
    case Success(data) =>
      (match LoginToken(data)
       case Some(token) => SaveSessionAndOpenMain(UserModel(email, token, password, true))
       case None => ShowFailure(LoginFailedMessage))
    case Error(e) => ShowFailure(Literal(e))
  }

  /**
   * From call outcome to screen: a session is saved exactly when the service
   * returned a response not flagged as an error that carries a token.
   */
  lemma LoginSavesSessionIff(outcome: CallOutcome<LoginResponse>, email: string, password: string)
    ensures LoginDispatch(Login(outcome), email, password).SaveSessionAndOpenMain? <==>
              outcome.Returned? && outcome.response.error != Some(true) && LoginToken(outcome.response).Some?
    ensures !LoginDispatch(Login(outcome), email, password).ShowProgress?
  {
  }

  class LoginActivity {
    const emailText: EmailEditText
    const passwordText: PasswordEditText
    var buttonEnabled: bool
    var progressVisible: bool
    var title: Option<UiText>
    var toasts: seq<UiText>
    var savedSessions: seq<UserModel>
    var startedMain: bool

    constructor (buttonEnabled: bool)
      ensures fresh(emailText) && fresh(passwordText)
      ensures emailText.text == [] && emailText.error == None
      ensures passwordText.text == [] && passwordText.error == None
      ensures this.buttonEnabled == buttonEnabled && !progressVisible && title == None
      ensures toasts == [] && savedSessions == [] && !startedMain
    {
      emailText := new EmailEditText();
      passwordText := new PasswordEditText();
      this.buttonEnabled := buttonEnabled;
      progressVisible, title, toasts, savedSessions, startedMain := false, None, [], [], false;
    }

    method SetButton()
      modifies this`buttonEnabled
      ensures buttonEnabled == LoginButtonEnabled(emailText.text, emailText.error, passwordText.text, passwordText.error)
    {
      var emailResult := emailText.text != [] && emailText.error == None;
      var passwordResult := passwordText.text != [] && passwordText.error == None;
      buttonEnabled := emailResult && passwordResult;
    }

    /** A change to the email text: the field validates it first, then the button is recomputed. */
    method OnEmailTextChanged(newText: string)
      modifies emailText, this`buttonEnabled
      ensures emailText.text == newText && emailText.error == EmailError(newText)
      ensures buttonEnabled == LoginButtonEnabled(newText, EmailError(newText), passwordText.text, passwordText.error)
    {
      emailText.BeginTextChange(newText);
      emailText.OnTextChanged();
      SetButton();
      emailText.EndTextChange();
    }

    /** A change to the password text: the field validates it first, then the button is recomputed. */
    method OnPasswordTextChanged(newText: string)
      modifies passwordText, this`buttonEnabled
      ensures passwordText.text == newText && passwordText.error == PasswordError(newText)
      ensures buttonEnabled == LoginButtonEnabled(emailText.text, emailText.error, newText, PasswordError(newText))
    {
      passwordText.BeginTextChange(newText);
      passwordText.OnTextChanged();
      SetButton();
      passwordText.EndTextChange();
    }

    /** The `loginResult` observer: carries out `LoginDispatch`. */
    method OnLoginResult(r: ResultState<LoginResponse>, email: string, password: string)
      modifies this`progressVisible, this`title, this`toasts, this`savedSessions, this`startedMain
      ensures match LoginDispatch(r, email, password)
              case ShowProgress =>
                progressVisible && toasts == old(toasts) && savedSessions == old(savedSessions) &&
                title == old(title) && startedMain == old(startedMain)
              case SaveSessionAndOpenMain(user) =>
                !progressVisible && savedSessions == old(savedSessions) + [user] &&
                title == Some(LoginSuccessTitle) && toasts == old(toasts) + [LoginSuccessMessage] && startedMain
              case ShowFailure(message) =>
                !progressVisible && toasts == old(toasts) + [message] && savedSessions == old(savedSessions) &&
                title == old(title) && startedMain == old(startedMain)
    {
      match r {
        case Loading =>
          progressVisible := true;
        case Success(data) =>
          var token := LoginToken(data);
          if token.Some? {
            savedSessions := savedSessions + [UserModel(email, token.value, password, true)];
            title := Some(LoginSuccessTitle);
            toasts := toasts + [LoginSuccessMessage];
            progressVisible := false;
            startedMain := true;
          } else {
            toasts := toasts + [LoginFailedMessage];
            progressVisible := false;
          }
        case Error(e) =>
          progressVisible := false;
          toasts := toasts + [Literal(e)];
      }
    }

    /** `login`: the current texts are submitted and the classified outcome reaches the observer. */
    method Login(outcome: CallOutcome<LoginResponse>)
      modifies this`progressVisible, this`title, this`toasts, this`savedSessions, this`startedMain
      ensures savedSessions == old(savedSessions) +
                if outcome.Returned? && outcome.response.error != Some(true) && LoginToken(outcome.response).Some?
                then [UserModel(emailText.text, LoginToken(outcome.response).value, passwordText.text, true)]
                else []
      ensures !progressVisible
      ensures match LoginDispatch(Repository.Login(outcome), emailText.text, passwordText.text)
              case ShowProgress => false
              case SaveSessionAndOpenMain(user) =>
                title == Some(LoginSuccessTitle) && toasts == old(toasts) + [LoginSuccessMessage] && startedMain
              case ShowFailure(message) =>
                toasts == old(toasts) + [message] && title == old(title) && startedMain == old(startedMain)
    {
      var email := emailText.text;
      var password := passwordText.text;
      var result := Repository.Login(outcome);
      OnLoginResult(result, email, password);
    }
  }
}
