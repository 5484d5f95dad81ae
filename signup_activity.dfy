/** The signup screen: when its button is enabled, which edits recompute it, and what it does with a result. */
module SignupScreen {
  import opened Wrappers
  import opened KotlinText
  import opened Results
  import opened Api
  import opened Repository
  import opened EditTexts
  import opened LoginScreen

  const SignupSuccessTitle: UiText := StringResource("login_success_title")
  const SignupMessageStart: string := "Akun dengan "
  const SignupMessageEnd: string := " sudah jadi nih. Selamat bersenang-senang!"

  /** `setButton`: enabled exactly when name, email and password are all ready. */
  predicate SignupButtonEnabled(nameText: string, nameError: Option<UiText>,
                                emailText: string, emailError: Option<UiText>,
                                passwordText: string, passwordError: Option<UiText>) {
    FieldReady(nameText, nameError) && FieldReady(emailText, emailError) && FieldReady(passwordText, passwordError)
  }

  /**
   * With the errors the validators leave, the button is enabled exactly
   * when the name is not blank, the email has the accepted form and the
   * password has at least 8 characters, all trimmed.
   */
  lemma SignupButtonAfterEdits(name: string, email: string, password: string)
    ensures SignupButtonEnabled(name, NameError(name), email, EmailError(email), password, PasswordError(password)) <==>
              !NameBlank(name) && EmailForm(Trim(email)) && Utf16Length(Trim(password)) >= MinPasswordLength
  {
    LoginButtonAfterEdits(email, password);
    if !NameBlank(name) {
      TrimNonEmpty(name);
    }
  }

  /** The success message, which names the submitted email. */
  function SignupSuccessMessage(email: string): (m: UiText)
    ensures m.Literal? && StartsWith(m.text, SignupMessageStart)
    ensures |m.text| == |SignupMessageStart| + |email| + |SignupMessageEnd|
    ensures m.text[|SignupMessageStart|..|SignupMessageStart| + |email|] == email
  {
    Literal(SignupMessageStart + email + SignupMessageEnd)
  }

  datatype SignupAction =
    | ShowLoading
    | WelcomeAndOpen(message: UiText)
    | ShowError(message: UiText)

  /**
   * What the signup observer does with a result: Loading shows progress; a
   * Success, whatever its payload, greets the submitted email and opens the
   * welcome screen; an Error shows its text.
   */
  function SignupDispatch(r: ResultState<SignupResponse>, email: string): (a: SignupAction)
    ensures a.ShowLoading? <==> r.Loading?
    ensures a.WelcomeAndOpen? <==> r.Success?
    ensures a.WelcomeAndOpen? ==> a.message == SignupSuccessMessage(email)
    ensures r.Error? ==> a == ShowError(Literal(r.error))
  {
    match r
    case Loading => ShowLoading
    case Success(_) => WelcomeAndOpen(SignupSuccessMessage(email))
    case Error(e) => ShowError(Literal(e))
  }

  class SignupActivity {
    const nameText: NameEditText
    const emailText: EmailEditText
    const passwordText: PasswordEditText
    var buttonEnabled: bool
    var loadingVisible: bool
    var title: Option<UiText>
    var toasts: seq<UiText>
    var startedWelcome: bool

    constructor (buttonEnabled: bool)
      ensures fresh(nameText) && fresh(emailText) && fresh(passwordText)
      ensures nameText.text == [] && nameText.error == None
      ensures emailText.text == [] && emailText.error == None
      ensures passwordText.text == [] && passwordText.error == None
      ensures this.buttonEnabled == buttonEnabled && !loadingVisible && title == None
      ensures toasts == [] && !startedWelcome
    {
      nameText := new NameEditText();
      emailText := new EmailEditText();
      passwordText := new PasswordEditText();
      this.buttonEnabled := buttonEnabled;
      loadingVisible, title, toasts, startedWelcome := false, None, [], false;
    }

    method SetButton()
      modifies this`buttonEnabled
      ensures buttonEnabled == SignupButtonEnabled(nameText.text, nameText.error, emailText.text, emailText.error,
                                                   passwordText.text, passwordText.error)
    {
      var nameResult := nameText.text != [] && nameText.error == None;
      var emailResult := emailText.text != [] && emailText.error == None;
      var passwordResult := passwordText.text != [] && passwordText.error == None;
      buttonEnabled := nameResult && emailResult && passwordResult;
    }

    /** A change to the name: only the field's own validator runs; the button keeps its state. */
    method OnNameTextChanged(newText: string)
      modifies nameText
      ensures nameText.text == newText && nameText.error == NameError(newText)
      ensures nameText.validatedName == !NameBlank(newText)
      ensures buttonEnabled == old(buttonEnabled)
    {
      nameText.ChangeText(newText);
    }

    method OnEmailTextChanged(newText: string)
      modifies emailText, this`buttonEnabled
      ensures emailText.text == newText && emailText.error == EmailError(newText)
      ensures buttonEnabled == SignupButtonEnabled(nameText.text, nameText.error, newText, EmailError(newText),
                                                   passwordText.text, passwordText.error)
    {
      emailText.BeginTextChange(newText);
      emailText.OnTextChanged();
      SetButton();
      emailText.EndTextChange();
    }

    method OnPasswordTextChanged(newText: string)
      modifies passwordText, this`buttonEnabled
      ensures passwordText.text == newText && passwordText.error == PasswordError(newText)
      ensures buttonEnabled == SignupButtonEnabled(nameText.text, nameText.error, emailText.text, emailText.error,
                                                   newText, PasswordError(newText))
    {
      passwordText.BeginTextChange(newText);
      passwordText.OnTextChanged();
      SetButton();
      passwordText.EndTextChange();
    }

    /** The `registerResult` observer: carries out `SignupDispatch`. */
    method OnRegisterResult(r: ResultState<SignupResponse>, email: string)
      modifies this`loadingVisible, this`title, this`toasts, this`startedWelcome
      ensures match SignupDispatch(r, email)
              case ShowLoading =>
                loadingVisible && toasts == old(toasts) && title == old(title) && startedWelcome == old(startedWelcome)
              case WelcomeAndOpen(message) =>
                !loadingVisible && title == Some(SignupSuccessTitle) && toasts == old(toasts) + [message] && startedWelcome
              case ShowError(message) =>
                !loadingVisible && toasts == old(toasts) + [message] && title == old(title) &&
                startedWelcome == old(startedWelcome)
    {
      match r {
        case Loading =>
          loadingVisible := true;
        case Success(_) =>
          title := Some(SignupSuccessTitle);
          toasts := toasts + [SignupSuccessMessage(email)];
          loadingVisible := false;
          startedWelcome := true;
        case Error(e) =>
          toasts := toasts + [Literal(e)];
          loadingVisible := false;
      }
    }

    /**
     * `register`: the texts go to the service, whose answer is `outcome`; the
     * classified outcome reaches the observer with the submitted email.
     */
    method Register(outcome: CallOutcome<SignupResponse>)
      modifies this`loadingVisible, this`title, this`toasts, this`startedWelcome
      ensures startedWelcome == (old(startedWelcome) || (outcome.Returned? && outcome.response.error != Some(true)))
      ensures !loadingVisible
      ensures match SignupDispatch(Repository.Signup(outcome), emailText.text)
              case ShowLoading => false
              case WelcomeAndOpen(message) => title == Some(SignupSuccessTitle) && toasts == old(toasts) + [message]
              case ShowError(message) => toasts == old(toasts) + [message] && title == old(title)
    {
      var email := emailText.text;
      var result := Repository.Signup(outcome);
      OnRegisterResult(result, email);
    }
  }

  /**
   * Filling the form with the name last leaves the button disabled, however
   * valid the texts: the name's edit does not recompute it, and it was
   * computed while the name was still empty.
   */
  method NameEnteredLastKeepsButtonDisabled(screen: SignupActivity, email: string, password: string, name: string)
    requires screen.nameText.text == []
    modifies screen.nameText, screen.emailText, screen.passwordText, screen`buttonEnabled
    ensures screen.nameText.text == name && screen.emailText.text == email && screen.passwordText.text == password
    ensures !screen.buttonEnabled
  {
    screen.OnEmailTextChanged(email);
    screen.OnPasswordTextChanged(password);
    screen.OnNameTextChanged(name);
  }
}
