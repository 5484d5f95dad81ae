/**
 * The story upload screen: the picked image, the guards that run before an
 * upload, the reaction to the upload's results, and the "last uploaded
 * story" record it saves on success.
 */
module CameraScreen {
  import opened Wrappers
  import opened KotlinText
  import opened Results
  import opened Api
  import opened Repository
  import opened Preferences

  const LastUploadedStoryKey: string := "last_uploaded_story"
  const MaxImageBytes: nat := 1_048_576

  const InvalidInputMessage: string := "Please provide a valid image and description."
  const NoTokenMessage: string := "Token is not available."
  const ImageCopyFailedMessage: string := "Failed to process the selected image."
  const FileTooLargeMessage: string := "File size must be less than 1 MB."
  const UploadingMessage: string := "Uploading..."
  const UploadSucceededPrefix: string := "Upload successful: "
  const UploadFailedPrefix: string := "Failed to upload story: "

  /** The record `saveUploadedStory` writes: "$description|$imageUri|$timestamp". */
  function StoryRecord(description: string, uri: string, timestamp: int): string {
    Join([description, uri, LongToString(timestamp)], '|')
  }

  /** The record splits back into its three fields when neither text holds a '|'. */
  lemma StoryRecordFields(description: string, uri: string, timestamp: int)
    requires '|' !in description && '|' !in uri
    ensures Split(StoryRecord(description, uri, timestamp), '|') == [description, uri, LongToString(timestamp)]
  {
    var fields := [description, uri, LongToString(timestamp)];
    assert '|' !in fields[2];
    SplitJoin(fields, '|');
  }

  /** What reaches the repository when an upload starts; the session token is only a guard. */
  datatype UploadRequest = UploadRequest(imageSize: nat, description: string)

  datatype UploadDecision =
    | Refused(message: string)
    | Accepted(description: string, fileSize: nat)

  /**
   * The guards of `uploadStory`, in their order: an image and a description
   * that is not blank once trimmed, then a session token, then a copy of the
   * image, then a size of at most 1 048 576 bytes. The first guard that
   * fails decides the message.
   */
  function UploadPrecondition(imageUri: Option<string>, descriptionText: string,
                              token: Option<string>, copiedFileSize: Option<nat>): (d: UploadDecision)
    ensures imageUri.None? || Trim(descriptionText) == [] ==> d == Refused(InvalidInputMessage)
    ensures imageUri.Some? && Trim(descriptionText) != [] && token.None? ==> d == Refused(NoTokenMessage)
    ensures imageUri.Some? && Trim(descriptionText) != [] && token.Some? && copiedFileSize.None? ==>
              d == Refused(ImageCopyFailedMessage)
    ensures imageUri.Some? && Trim(descriptionText) != [] && token.Some? &&
            copiedFileSize.Some? && copiedFileSize.value > MaxImageBytes ==>
              d == Refused(FileTooLargeMessage)
    ensures d.Accepted? <==>
              imageUri.Some? && Trim(descriptionText) != [] && token.Some? &&
              copiedFileSize.Some? && copiedFileSize.value <= MaxImageBytes
    ensures d.Accepted? ==> d.description == Trim(descriptionText) && d.fileSize == copiedFileSize.value
  {
    var description := Trim(descriptionText);
    if imageUri.None? || description == [] then Refused(InvalidInputMessage)
    else if token.None? then Refused(NoTokenMessage)
    else if copiedFileSize.None? then Refused(ImageCopyFailedMessage)
    else if copiedFileSize.value > MaxImageBytes then Refused(FileTooLargeMessage)
    else Accepted(description, copiedFileSize.value)
  }

  /** The first failing guard decides: what comes later cannot change the refusal. */
  lemma FirstFailingGuardDecides(imageUri: Option<string>, descriptionText: string,
                                 token: Option<string>, size: Option<nat>,
                                 token': Option<string>, size': Option<nat>)
    ensures imageUri.None? || Trim(descriptionText) == [] ==>
              UploadPrecondition(imageUri, descriptionText, token, size) ==
              UploadPrecondition(imageUri, descriptionText, token', size')
    ensures token.None? ==>
              UploadPrecondition(imageUri, descriptionText, token, size) ==
              UploadPrecondition(imageUri, descriptionText, token, size')
    ensures UploadPrecondition(imageUri, descriptionText, token, size).Refused? ==>
              UploadPrecondition(imageUri, descriptionText, token, size).message in
                {InvalidInputMessage, NoTokenMessage, ImageCopyFailedMessage, FileTooLargeMessage}
  {
  }

  /** The size limit is inclusive: up to 1 048 576 bytes pass, every larger size is refused. */
  lemma SizeLimitInclusive(imageUri: string, descriptionText: string, token: string, size: nat)
    requires Trim(descriptionText) != []
    ensures UploadPrecondition(Some(imageUri), descriptionText, Some(token), Some(size)).Accepted? <==> size <= MaxImageBytes
    ensures size > MaxImageBytes ==>
              UploadPrecondition(Some(imageUri), descriptionText, Some(token), Some(size)) == Refused(FileTooLargeMessage)
  {
  }

  /**
   * The message the screen shows for each value the upload stream delivers;
   * none for a Success with a null payload, where reading `data.message`
   * throws a NullPointerException before the toast is built.
   */
  function UploadToast(r: ResultState<Option<UploadResponse>>): (m: Option<string>)
    ensures m.None? <==> r == Success(None)
    ensures r.Loading? <==> m == Some(UploadingMessage)
    ensures r.Success? && r.data.Some? ==> m == Some(UploadSucceededPrefix + r.data.value.message)
    ensures r.Error? ==> m == Some(UploadFailedPrefix + r.error)
  {
    match r
    case Loading => Some(UploadingMessage)
    case Success(Some(data)) => Some(UploadSucceededPrefix + data.message)
    case Success(None) => None
    case Error(e) => Some(UploadFailedPrefix + e)
  }

  /** The toasts a value adds: its message, or none when building it throws. */
  function ToastsOf(r: ResultState<Option<UploadResponse>>): seq<string> {
    if UploadToast(r).Some? then [UploadToast(r).value] else []
  }

  class CameraMain {
    var currentImageUri: Option<string>
    var toasts: seq<string>
    var uploads: seq<UploadRequest>
    var finished: bool
    const preferences: SharedPreferences

    constructor (preferences: SharedPreferences)
      ensures currentImageUri == None && toasts == [] && uploads == [] && !finished
      ensures this.preferences == preferences
    {
      currentImageUri, toasts, uploads, finished := None, [], [], false;
      this.preferences := preferences;
    }

    /** The gallery picker's callback: a picked image replaces the current one; cancelling keeps it. */
    method OnGalleryResult(uri: Option<string>)
      modifies this`currentImageUri
      ensures currentImageUri == if uri.Some? then uri else old(currentImageUri)
    {
      if uri.Some? {
        currentImageUri := uri;
      }
    }

    /**
     * `startCamera`: with the permissions granted, the current image becomes
     * the new media-store entry, which may be null.
     */
    method StartCamera(permissionsGranted: bool, newImageUri: Option<string>)
      modifies this`currentImageUri
      ensures currentImageUri == if permissionsGranted then newImageUri else old(currentImageUri)
    {
      if permissionsGranted {
        currentImageUri := newImageUri;
      }
    }

    /** `saveUploadedStory`: the record replaces any earlier one under "last_uploaded_story". */
    method SaveUploadedStory(description: string, imageUri: string, now: int)
      requires IsLong(now)
      modifies preferences
      ensures preferences.entries ==
                old(preferences.entries)[LastUploadedStoryKey := StoryRecord(description, imageUri, now)]
    {
      var storyData := StoryRecord(description, imageUri, now);
      preferences.PutString(LastUploadedStoryKey, storyData);
    }

    /**
     * The observer of the upload stream: every value shows a message; only a
     * Success saves the story (with the current image) and finishes the
     * screen. A Success with a null payload throws before any of that
     * (`crashed`): nothing is shown, saved or finished.
     */
    method OnUploadResult(r: ResultState<Option<UploadResponse>>, description: string, now: int)
      returns (crashed: bool)
      requires IsLong(now)
      modifies this`toasts, this`finished, preferences
      ensures crashed <==> r == Success(None)
      ensures toasts == old(toasts) + ToastsOf(r)
      ensures finished == (old(finished) || (r.Success? && !crashed))
      ensures preferences.entries ==
                if r.Success? && !crashed && currentImageUri.Some?
                then old(preferences.entries)[LastUploadedStoryKey := StoryRecord(description, currentImageUri.value, now)]
                else old(preferences.entries)
    {
      crashed := false;
      match r {
        case Loading =>
          toasts := toasts + [UploadingMessage];
        case Success(data) =>
          if data.None? {
            return true;
          }
          toasts := toasts + [UploadSucceededPrefix + data.value.message];
          if currentImageUri.Some? {
            SaveUploadedStory(description, currentImageUri.value, now);
          }
          finished := true;
        case Error(e) =>
          toasts := toasts + [UploadFailedPrefix + e];
      }
    }

    /**
     * `uploadStory`: the guards run in order and the first failure shows its
     * message and stops; the repository is looked up once the first guard
     * passes. When all pass, the upload starts with the trimmed description
     * and the stream's values (Loading, then one terminal value) reach the
     * observer in order; `crashed` reports that the observer threw on a
     * null payload. The token read, the image copy and the clock are
     * inputs: `sessionToken`, `copiedFileSize` and `now`.
     */
    method UploadStory(descriptionText: string,
                       companion: UserRepositoryCompanion, apiService: ApiService, userPreference: UserPreference,
                       sessionToken: Option<string>, copiedFileSize: Option<nat>,
                       outcome: CallOutcome<UploadResponse>, parse: Decoder<UploadResponse>, now: int)
      returns (crashed: bool)
      requires IsLong(now)
      modifies this`toasts, this`uploads, this`finished, preferences, companion
      ensures var d := UploadPrecondition(currentImageUri, descriptionText, sessionToken, copiedFileSize);
              match d
              case Refused(m) =>
                && !crashed && toasts == old(toasts) + [m]
                && uploads == old(uploads) && finished == old(finished)
                && preferences.entries == old(preferences.entries)
              case Accepted(description, size) =>
                var t := UploadTerminal(outcome, parse);
                && uploads == old(uploads) + [UploadRequest(size, description)]
                && (crashed <==> t == Success(None))
                && toasts == old(toasts) + [UploadingMessage] + ToastsOf(t)
                && finished == (old(finished) || (t.Success? && t.data.Some?))
                && preferences.entries ==
                     if t.Success? && t.data.Some?
                     then old(preferences.entries)[LastUploadedStoryKey := StoryRecord(description, currentImageUri.value, now)]
                     else old(preferences.entries)
      ensures currentImageUri.Some? && Trim(descriptionText) != [] ==>
                companion.instance != null &&
                (old(companion.instance) != null ==> companion.instance == old(companion.instance))
      ensures currentImageUri.None? || Trim(descriptionText) == [] ==>
                companion.instance == old(companion.instance)
    {
      crashed := false;
      var description := Trim(descriptionText);
      if currentImageUri == None || description == [] {
        toasts := toasts + [InvalidInputMessage];
        return;
      }
      var userRepository := companion.GetInstance(apiService, userPreference);
      if sessionToken == None {
        toasts := toasts + [NoTokenMessage];
        return;
      }
      if copiedFileSize == None {
        toasts := toasts + [ImageCopyFailedMessage];
        return;
      }
      var imageSize := copiedFileSize.value;
      if imageSize > MaxImageBytes {
        toasts := toasts + [FileTooLargeMessage];
        return;
      }
      uploads := uploads + [UploadRequest(imageSize, description)];
      var live := Repository.UploadStory(outcome, parse);
      crashed := OnUploadResult(live.values[0], description, now);
      crashed := OnUploadResult(live.values[1], description, now);
    }
  }
}
