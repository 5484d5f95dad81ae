/**
 * The response records of the story service, as decoded from JSON. Fields the
 * decoder may leave null are `Option`s. Only the fields the application reads
 * are kept.
 */
module Api {
  import opened Wrappers

  /** The `loginResult` object of a login response. */
  datatype LoginResult = LoginResult(userId: Option<string>, name: Option<string>, token: Option<string>)

  datatype LoginResponse = LoginResponse(error: Option<bool>, message: Option<string>, loginResult: Option<LoginResult>)

  datatype SignupResponse = SignupResponse(error: Option<bool>, message: Option<string>)

  /** One story of the list; `lat`/`lon` (floating point) are not kept. */
  datatype ListStoryItem = ListStoryItem(
    id: Option<string>,
    name: Option<string>,
    description: Option<string>,
    photoUrl: Option<string>,
    createdAt: Option<string>)

  datatype StoryResponse = StoryResponse(error: Option<bool>, message: Option<string>, listStory: Option<seq<ListStoryItem>>)

  datatype UploadResponse = UploadResponse(error: bool, message: string)

  /** The session record the login screen saves. */
  datatype UserModel = UserModel(email: string, token: string, password: string, isLogin: bool)
}
