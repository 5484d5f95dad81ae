/**
 * The repository between the screens and the remote story service: how each
 * way a call can end is reported as a `ResultState`, and the process-wide
 * single repository instance.
 */
module Repository {
  import opened Wrappers
  import opened KotlinText
  import opened Results
  import opened Api

  /** How a call to the remote service ends. */
  datatype CallOutcome<+R> =
    | Returned(response: R)                  // the call returned a decoded body
    | HttpFailure(errorBody: Option<string>) // an HTTP error status, with the raw error body if there is one
    | OtherFailure(message: Option<string>)  // any other exception, with its message if it has one

  /** What the JSON decoder makes of a body: a value, or a failure with the exception's message. */
  datatype Decoded<+T> = Decoded(value: T) | DecodeFailed(message: Option<string>)

  /**
   * The JSON decoder `fromJson`, left abstract: callers pass it in. Its value
   * may be null (`Decoded(None)`), which Gson returns without throwing.
   */
  type Decoder<!T> = Option<string> -> Decoded<Option<T>>

  /** Gson's answer to an absent or empty body: null, not an exception. */
  predicate NullForEmptyBody<T>(parse: Decoder<T>) {
    parse(None) == Decoded(None) && parse(Some("")) == Decoded(None)
  }

  const HtmlResponseMessage: string := "Server error: Unexpected HTML response. Please contact support."
  const ParseFailureMessage: string := "Failed to parse server response."
  const UploadParsePrefix: string := "Error: "

  /** Kotlin's `message.toString()` on a nullable message: the text "null" stands in for a missing one. */
  function ExceptionText(message: Option<string>): (r: string)
    ensures message.None? ==> r == "null"
    ensures message.Some? ==> r == message.value
    ensures r == "" <==> message == Some("")
  {
    match message
    case Some(m) => m
    case None => "null"
  }

  /** An error body that starts, case-sensitively, with "<html>". */
  predicate IsHtmlBody(body: Option<string>) {
    body.Some? && StartsWith(body.value, "<html>")
  }

  /**
   * The rule `login` and `signup` share: a response flagged `error == true`
   * becomes an Error with its message (or "" without one), any other
   * response is passed on unchanged, the raw HTTP error body (not decoded)
   * is the error text, and other failures carry their message's text.
   */
  function AccountCall<R>(outcome: CallOutcome<R>, flagged: R -> bool, message: R -> Option<string>): (r: ResultState<R>)
    ensures r.IsTerminal()
    ensures r.Success? <==> outcome.Returned? && !flagged(outcome.response)
    ensures r.Success? ==> r.data == outcome.response
    ensures outcome.Returned? && flagged(outcome.response) ==> r.error == OrEmpty(message(outcome.response))
    ensures outcome.HttpFailure? ==> r.error == OrEmpty(outcome.errorBody)
    ensures outcome.OtherFailure? ==> r.error == ExceptionText(outcome.message)
  {
    match outcome
    case Returned(response) =>
      if flagged(response) then Error(OrEmpty(message(response))) else Success(response)
    case HttpFailure(body) => Error(OrEmpty(body))
    case OtherFailure(m) => Error(ExceptionText(m))
  }

  /** `login`: the shared rule on the login response's `error` flag and `message`. */
  function Login(outcome: CallOutcome<LoginResponse>): (r: ResultState<LoginResponse>)
    ensures r.IsTerminal()
    ensures r.Success? <==> outcome.Returned? && outcome.response.error != Some(true)
    ensures r.Success? ==> r.data == outcome.response
    ensures outcome.Returned? && outcome.response.error == Some(true) ==> r.error == OrEmpty(outcome.response.message)
    ensures outcome.HttpFailure? ==> r.error == OrEmpty(outcome.errorBody)
    ensures outcome.OtherFailure? ==> r.error == ExceptionText(outcome.message)
  {
    AccountCall(outcome, (response: LoginResponse) => response.error == Some(true),
                (response: LoginResponse) => response.message)
  }

  /** `signup`: the shared rule on the registration response's `error` flag and `message`. */
  function Signup(outcome: CallOutcome<SignupResponse>): (r: ResultState<SignupResponse>)
    ensures r.IsTerminal()
    ensures r.Success? <==> outcome.Returned? && outcome.response.error != Some(true)
    ensures r.Success? ==> r.data == outcome.response
    ensures outcome.Returned? && outcome.response.error == Some(true) ==> r.error == OrEmpty(outcome.response.message)
    ensures outcome.HttpFailure? ==> r.error == OrEmpty(outcome.errorBody)
    ensures outcome.OtherFailure? ==> r.error == ExceptionText(outcome.message)
  {
    AccountCall(outcome, (response: SignupResponse) => response.error == Some(true),
                (response: SignupResponse) => response.message)
  }

  /**
   * `getStories`: every returned response is a Success, whatever its error
   * flag; an HTML error page gets a fixed message and is not decoded; any
   * other error body is decoded into a Success, or gets a second fixed
   * message; so no HTTP error body ever reaches the error text.
   */
  function GetStories(outcome: CallOutcome<StoryResponse>, parse: Decoder<StoryResponse>): (r: ResultState<Option<StoryResponse>>)
    ensures r.IsTerminal()
    ensures outcome.Returned? ==> r == Success(Some(outcome.response))
    ensures outcome.HttpFailure? ==> (r == Error(HtmlResponseMessage) <==> IsHtmlBody(outcome.errorBody))
    ensures outcome.HttpFailure? && !IsHtmlBody(outcome.errorBody) ==>
              (r.Success? <==> parse(outcome.errorBody).Decoded?) &&
              (r.Success? ==> r.data == parse(outcome.errorBody).value)
    ensures outcome.HttpFailure? && r.Error? ==> r.error == HtmlResponseMessage || r.error == ParseFailureMessage
    ensures outcome.OtherFailure? ==> r == Error(ExceptionText(outcome.message))
  {
    match outcome
    case Returned(response) => Success(Some(response))
    case HttpFailure(body) =>
      if IsHtmlBody(body) then Error(HtmlResponseMessage)
      else
        (match parse(body)
         case Decoded(v) => Success(v)
         case DecodeFailed(_) => Error(ParseFailureMessage))
    case OtherFailure(message) => Error(ExceptionText(message))
  }

  /** An HTML error page is never handed to the decoder: the decoder cannot change the result. */
  lemma HtmlBodyNeverDecoded(body: string, parse1: Decoder<StoryResponse>, parse2: Decoder<StoryResponse>)
    requires StartsWith(body, "<html>")
    ensures GetStories(HttpFailure(Some(body)), parse1) == GetStories(HttpFailure(Some(body)), parse2)
  {
  }

  /**
   * The two policies for an HTTP error with a decodable body disagree: the
   * story list reports it as a Success, login reports the raw body as an Error.
   */
  lemma HttpErrorPolicyDiffers(body: string, parse: Decoder<StoryResponse>)
    requires !StartsWith(body, "<html>") && parse(Some(body)).Decoded?
    ensures GetStories(HttpFailure(Some(body)), parse).Success?
    ensures Login(HttpFailure(Some(body))) == Error(body)
  {
  }

  /** The terminal value `uploadStory` emits after Loading. */
  function UploadTerminal(outcome: CallOutcome<UploadResponse>, parse: Decoder<UploadResponse>): (r: ResultState<Option<UploadResponse>>)
    ensures r.IsTerminal()
    ensures r.Success? <==> outcome.Returned? || (outcome.HttpFailure? && parse(outcome.errorBody).Decoded?)
    ensures outcome.Returned? ==> r.data == Some(outcome.response)
    ensures outcome.HttpFailure? && r.Success? ==> r.data == parse(outcome.errorBody).value
    ensures outcome.HttpFailure? && r.Error? ==>
              r.error == UploadParsePrefix + ExceptionText(parse(outcome.errorBody).message)
    ensures outcome.OtherFailure? ==> r == Error(ExceptionText(outcome.message))
  {
    match outcome
    case Returned(response) => Success(Some(response))
    case HttpFailure(body) =>
      (match parse(body)
       case Decoded(v) => Success(v)
       case DecodeFailed(m) => Error(UploadParsePrefix + ExceptionText(m)))
    case OtherFailure(message) => Error(ExceptionText(message))
  }

  /**
   * An upload rejected over HTTP with an absent or empty error body ends in
   * a Success whose payload is null, since Gson decodes such a body to null.
   */
  lemma EmptyUploadBodyIsNullSuccess(body: Option<string>, parse: Decoder<UploadResponse>)
    requires NullForEmptyBody(parse) && (body == None || body == Some(""))
    ensures UploadTerminal(HttpFailure(body), parse) == Success(None)
  {
  }

  /** Loading first, then exactly one terminal value. */
  predicate LoadingThenTerminal<T>(values: seq<ResultState<T>>) {
    |values| == 2 && values[0] == Loading && values[1].IsTerminal()
  }

  /** The observable stream a `liveData { }` builder produces: the values emitted, in order. */
  class LiveData<T> {
    var values: seq<ResultState<T>>

    constructor ()
      ensures values == []
    {
      values := [];
    }

    method Emit(v: ResultState<T>)
      modifies this
      ensures values == old(values) + [v]
    {
      values := values + [v];
    }
  }

  /**
   * `uploadStory`: a fresh stream that receives Loading and then the one
   * terminal value of the outcome (building the multipart request is not
   * modelled).
   */
  method UploadStory(outcome: CallOutcome<UploadResponse>, parse: Decoder<UploadResponse>)
    returns (live: LiveData<Option<UploadResponse>>)
    ensures fresh(live)
    ensures live.values == [Loading, UploadTerminal(outcome, parse)]
    ensures LoadingThenTerminal(live.values)
  {
    live := new LiveData();
    live.Emit(Loading);
    match outcome
    case Returned(response) =>
      live.Emit(Success(Some(response)));
    case HttpFailure(body) =>
      match parse(body) {
        case Decoded(v) =>
          live.Emit(Success(v));
        case DecodeFailed(m) =>
          live.Emit(Error(UploadParsePrefix + ExceptionText(m)));
      }
    case OtherFailure(message) =>
      live.Emit(Error(ExceptionText(message)));
  }

  /** The HTTP service client; its behaviour is the `CallOutcome` passed to each operation. */
  class ApiService {}

  /** The session store; its behaviour is not modelled. */
  class UserPreference {}

  class UserRepository {
    const apiService: ApiService
    const userPreference: UserPreference

    constructor (apiService: ApiService, userPreference: UserPreference)
      ensures this.apiService == apiService && this.userPreference == userPreference
    {
      this.apiService := apiService;
      this.userPreference := userPreference;
    }
  }

  /** The companion object holding the single repository instance. */
  class UserRepositoryCompanion {
    var instance: UserRepository?

    constructor ()
      ensures instance == null
    {
      instance := null;
    }

    /**
     * `getInstance`: the first call creates the repository from its
     * arguments and remembers it; every later call returns that same
     * instance and ignores its arguments.
     */
    method GetInstance(apiService: ApiService, userPreference: UserPreference) returns (r: UserRepository)
      modifies this
      ensures old(instance) != null ==> r == old(instance)
      ensures old(instance) == null ==> fresh(r) && r.apiService == apiService && r.userPreference == userPreference
      ensures instance == r
    {
      if instance != null {
        r := instance;
      } else {
        r := new UserRepository(apiService, userPreference);
      }
      instance := r;
    }
  }

  /** Two calls in a row give the same instance, built from the first call's arguments if none existed. */
  method GetInstanceTwice(companion: UserRepositoryCompanion,
                          api1: ApiService, pref1: UserPreference,
                          api2: ApiService, pref2: UserPreference)
    returns (r1: UserRepository, r2: UserRepository)
    modifies companion
    ensures r1 == r2 && companion.instance == r1
    ensures old(companion.instance) == null ==> r2.apiService == api1 && r2.userPreference == pref1
  {
    r1 := companion.GetInstance(api1, pref1);
    r2 := companion.GetInstance(api2, pref2);
  }
}
