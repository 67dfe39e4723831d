/** The upload screen (ui/add_story/AddStoryActivity.kt): which photo source the photo button
    opens, what the camera and gallery results change, the gate in front of an upload, and the
    loading toggle driven by the upload's responses. The effects the screen has on the world
    (launching another screen, a snackbar, starting the upload) are returned as values. */
module AddStoryActivity {
  import opened Responses
  import opened StoryRepository

  /** `PhotoSource`: where the photo button takes the picture from. */
  datatype PhotoSource = Camera | Gallery

  /** The views whose clicks the screen handles, and any other view. */
  datatype ViewId = BtnCamera | BtnGallery | BtnPhoto | BtnAddStory | OtherView

  /** Snackbar texts: the two validation strings, or a text taken from a response. */
  datatype Message = ImageEmpty | DescriptionRequired | Text(text: string)

  /** The arguments an upload is started with: the authorization header, the image and the
      camera flag handed to the image reduction, and the description. */
  datatype UploadCall = UploadCall(authorization: string, image: File, isBackCamera: bool, description: string)

  /** What a callback does beyond changing the screen's own fields. `Crash` stands for the
      unchecked cast of a missing result to a non-null type, which throws. */
  datatype Effect =
    | LaunchCamera
    | LaunchGallery
    | ShowImage(file: File)
    | ShowSnackbar(message: Message)
    | StartUpload(call: UploadCall)
    | NavigateHome
    | Crash

  /** Android's `Activity.RESULT_OK`. */
  const RESULT_OK: int := -1

  /** `"Bearer $token"`: Kotlin renders a null token as the text "null". */
  function BearerHeader(token: Option<string>): (header: string)
    ensures |header| >= 7 && header[..7] == "Bearer "
    ensures token.Some? ==> header[7..] == token.value
    ensures token.None? ==> header[7..] == "null"
  {
    "Bearer " + token.GetOr("null")
  }

  /** The upload form's `validateFormLogin` as a value: the snackbar that blocks the upload,
      if any. A missing image is reported before an empty description. */
  function UploadBlocker(image: Option<File>, description: string): (blocker: Option<Message>)
    ensures blocker.None? <==> image.Some? && description != ""
    ensures image.None? ==> blocker == Some(ImageEmpty)
    ensures image.Some? && description == "" ==> blocker == Some(DescriptionRequired)
  {
    if image.None? then Some(ImageEmpty)
    else if description == "" then Some(DescriptionRequired)
    else None
  }

  /** `toggleLoading(response is Loading)`: the add button's enabled state after the observer
      has handled a response. */
  function EnabledAfter(response: Response<string>): (enabled: bool)
    ensures enabled <==> response.IsTerminal()
  {
    match response
    case Loading => false
    case Success(_) => true
    case Empty => true
    case Error(_) => true
  }

  /** The add button's enabled state after the observer has handled each value of a flow in
      turn, starting from `enabled`. */
  function EnabledAfterObserving(flow: seq<Response<string>>, enabled: bool): bool {
    if flow == [] then enabled else EnabledAfterObserving(flow[1..], EnabledAfter(flow[0]))
  }

  /** Only the last value observed decides the button's state, so a live-data holder that
      drops intermediate values leaves the same state as one that delivers them all. */
  lemma {:induction false} EnabledAfterObservingLast(flow: seq<Response<string>>, enabled: bool)
    requires flow != []
    ensures EnabledAfterObserving(flow, enabled) == flow[|flow| - 1].IsTerminal()
  {
    if |flow| > 1 {
      EnabledAfterObservingLast(flow[1..], EnabledAfter(flow[0]));
    }
  }

  /** Whatever the upload's outcome, once its flow has been observed the add button is
      enabled again. */
  lemma UploadReenablesButton(outcome: UploadOutcome, enabled: bool)
    ensures EnabledAfterObserving(AddNewStoryFlow(outcome), enabled)
  {
  }

  /** The screen's state: the fields the activity updates in place, the description the user
      typed, and the two widgets `toggleLoading` sets. */
  class AddStoryScreen {
    var selectedPhotoSource: PhotoSource
    var storyImage: Option<File>
    var token: Option<string>
    var isBackCamera: bool
    var descriptionText: string
    var progressVisible: bool
    var addEnabled: bool
    /** `CameraActivity.CAMERA_X_RESULT`, whose value is defined outside this model. */
    const cameraXResult: int

    /** The add button is enabled exactly when the progress bar is hidden. */
    ghost predicate Valid()
      reads this
    {
      addEnabled == !progressVisible
    }

    /** The field initialisers and `onCreate`, which reads the current token. */
    constructor (authToken: Option<string>, cameraXResult: int)
      ensures Valid()
      ensures selectedPhotoSource == Camera && isBackCamera && storyImage.None?
      ensures token == authToken && this.cameraXResult == cameraXResult
      ensures descriptionText == "" && addEnabled
    {
      selectedPhotoSource := Camera;
      storyImage := None;
      token := authToken;
      isBackCamera := true;
      descriptionText := "";
      progressVisible := false;
      addEnabled := true;
      this.cameraXResult := cameraXResult;
    }

    /** The user edits the description. */
    method EditDescription(text: string)
      modifies this`descriptionText
      ensures descriptionText == text
    {
      descriptionText := text;
    }

    /** `toggleLoading`: the progress bar shows and the add button is disabled, or the reverse. */
    method ToggleLoading(state: bool)
      modifies this`progressVisible, this`addEnabled
      ensures Valid()
      ensures progressVisible == state && addEnabled == !state
    {
      progressVisible := state;
      addEnabled := !state;
    }

    /** `startPhoto`: the photo button opens the camera or the gallery, as the current source says. */
    method StartPhoto() returns (effect: Effect)
      ensures effect.LaunchCamera? <==> selectedPhotoSource == Camera
      ensures effect.LaunchGallery? <==> selectedPhotoSource == Gallery
    {
      match selectedPhotoSource {
        case Camera => effect := LaunchCamera;
        case Gallery => effect := LaunchGallery;
      }
    }

    /** `validateFormLogin`: true means blocked; the image check runs before the description check. */
    method ValidateFormLogin() returns (blocked: bool, effects: seq<Effect>)
      ensures blocked <==> UploadBlocker(storyImage, descriptionText).Some?
      ensures blocked ==> effects == [ShowSnackbar(UploadBlocker(storyImage, descriptionText).value)]
      ensures !blocked ==> effects == []
    {
      if storyImage.None? {
        return true, [ShowSnackbar(ImageEmpty)];
      }
      if descriptionText == "" {
        return true, [ShowSnackbar(DescriptionRequired)];
      }
      return false, [];
    }

    /** `uploadNewStory`: a blocked form changes nothing; otherwise the screen shows loading
        and starts the upload with the bearer header and the current description. */
    method UploadNewStory() returns (effects: seq<Effect>)
      modifies this`progressVisible, this`addEnabled
      requires Valid()
      ensures Valid()
      ensures UploadBlocker(storyImage, descriptionText).Some? ==>
                && effects == [ShowSnackbar(UploadBlocker(storyImage, descriptionText).value)]
                && progressVisible == old(progressVisible) && addEnabled == old(addEnabled)
      ensures UploadBlocker(storyImage, descriptionText).None? ==>
                && progressVisible && !addEnabled
                && storyImage.Some?
                && effects == [StartUpload(UploadCall(BearerHeader(token), storyImage.value, isBackCamera, descriptionText))]
    {
      var blocked;
      blocked, effects := ValidateFormLogin();
      if blocked {
        return;
      }
      ToggleLoading(true);
      effects := [StartUpload(UploadCall(BearerHeader(token), storyImage.value, isBackCamera, descriptionText))];
    }

    /** `onClick`: the camera and gallery buttons only choose the source; the photo button
        opens the chosen source; the add button attempts the upload. */
    method OnClick(view: ViewId) returns (effects: seq<Effect>)
      modifies this`selectedPhotoSource, this`progressVisible, this`addEnabled
      requires Valid()
      ensures Valid()
      ensures view == BtnCamera ==> selectedPhotoSource == Camera && effects == []
      ensures view == BtnGallery ==> selectedPhotoSource == Gallery && effects == []
      ensures view != BtnCamera && view != BtnGallery ==> selectedPhotoSource == old(selectedPhotoSource)
      ensures view == BtnPhoto ==>
                effects == [if selectedPhotoSource == Camera then LaunchCamera else LaunchGallery]
      ensures view != BtnAddStory ==> progressVisible == old(progressVisible) && addEnabled == old(addEnabled)
      ensures view == BtnAddStory ==>
                if UploadBlocker(storyImage, descriptionText).Some? then
                  && effects == [ShowSnackbar(UploadBlocker(storyImage, descriptionText).value)]
                  && progressVisible == old(progressVisible) && addEnabled == old(addEnabled)
                else
                  && progressVisible && !addEnabled && storyImage.Some?
                  && effects == [StartUpload(UploadCall(BearerHeader(token), storyImage.value, isBackCamera, descriptionText))]
      ensures view == OtherView ==> effects == []
    {
      match view {
        case BtnCamera =>
          selectedPhotoSource := Camera;
          effects := [];
        case BtnGallery =>
          selectedPhotoSource := Gallery;
          effects := [];
        case BtnPhoto =>
          var effect := StartPhoto();
          effects := [effect];
        case BtnAddStory =>
          effects := UploadNewStory();
        case OtherView =>
          effects := [];
      }
    }

    /** The observer of the upload state: Loading disables the add button, every other value
        enables it; Success shows the server's message and returns home; Error shows its
        message when it has one. */
    method OnUploadState(response: Response<string>) returns (effects: seq<Effect>)
      modifies this`progressVisible, this`addEnabled
      ensures Valid()
      ensures addEnabled == EnabledAfter(response)
      ensures response.Loading? || response.Empty? ==> effects == []
      ensures response.Success? ==> effects == [ShowSnackbar(Text(response.data)), NavigateHome]
      ensures response.Error? && response.message.Some? ==> effects == [ShowSnackbar(Text(response.message.value))]
      ensures response.Error? && response.message.None? ==> effects == []
    {
      match response {
        case Loading =>
          ToggleLoading(true);
          effects := [];
        case Empty =>
          ToggleLoading(false);
          effects := [];
        case Success(data) =>
          ToggleLoading(false);
          effects := [ShowSnackbar(Text(data)), NavigateHome];
        case Error(message) =>
          ToggleLoading(false);
          effects := if message.Some? then [ShowSnackbar(Text(message.value))] else [];
      }
    }

    /** The gallery result: on RESULT_OK the picked image becomes the story image and is
        shown. `picked` is the file the result's Uri is copied to; it is absent when the
        result carries no Uri, and then the cast to a non-null Uri throws. */
    method OnGalleryResult(resultCode: int, picked: Option<File>) returns (effects: seq<Effect>)
      modifies this`storyImage
      ensures resultCode != RESULT_OK ==> storyImage == old(storyImage) && effects == []
      ensures resultCode == RESULT_OK && picked.None? ==> storyImage == old(storyImage) && effects == [Crash]
      ensures resultCode == RESULT_OK && picked.Some? ==>
                storyImage == picked && effects == [ShowImage(picked.value)]
    {
      if resultCode == RESULT_OK {
        if picked.None? {
          return [Crash];
        }
        storyImage := picked;
        effects := [ShowImage(picked.value)];
      } else {
        effects := [];
      }
    }

    /** The camera result: any result code other than CAMERA_X_RESULT changes nothing.
        Otherwise the captured picture becomes the story image and the camera flag is taken
        from the result, defaulting to the back camera; a result without a picture throws. */
    method OnCameraResult(resultCode: int, picture: Option<File>, isBackCameraExtra: Option<bool>)
      returns (effects: seq<Effect>)
      modifies this`storyImage, this`isBackCamera
      ensures resultCode != cameraXResult ==>
                storyImage == old(storyImage) && isBackCamera == old(isBackCamera) && effects == []
      ensures resultCode == cameraXResult && picture.None? ==>
                storyImage == old(storyImage) && isBackCamera == old(isBackCamera) && effects == [Crash]
      ensures resultCode == cameraXResult && picture.Some? ==>
                && storyImage == picture
                && isBackCamera == isBackCameraExtra.GetOr(true)
                && effects == [ShowImage(picture.value)]
    {
      if resultCode != cameraXResult {
        return [];
      }
      if picture.None? {
        return [Crash];
      }
      storyImage := picture;
      isBackCamera := isBackCameraExtra.GetOr(true);
      effects := [ShowImage(picture.value)];
    }
  }
}
