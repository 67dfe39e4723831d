# Story App: repository emissions, wire mapping, list diffing and form gates in Dafny

This project models the small amount of logic in the Story App Android client that can be
stated without the Android framework:

- **The repository** (`StoryRepository`). Each of its five operations (login, register, list
  stories, story detail, upload a story) emits `Loading`, makes one call to the remote
  service, and turns the outcome into at most one terminal `Response`: `Success`, `Empty` or
  `Error(message?)`. One run of an operation is modelled as its trace: the values handed to
  `emit` and the request sent to the endpoint, in order. Each operation is a method that
  records these steps in a `FlowRun` object where the source makes them. Its trace is
  proved to be `Loading`, then the one request, then the rest of a function from the
  service outcome to the emitted sequence. Lemmas about those functions state each
  operation's behaviour, including two quirks of the source: a login
  success without a login result emits only `Loading`, and a detail-fetch error builds an
  `Error` but never emits it.
- **The wire-to-domain mapping** (`StoryItem.asDomain`). Absent text fields become `""`. The
  coordinates are ignored. The list version keeps length and order and distributes over
  concatenation.
- **The list adapter.** The diff callback's two predicates, and the caption `bind` builds in a
  spannable buffer: the name in bold, a space, then the description.
- **The registration form.** The ordered chain of five checks, the error each input layout
  shows afterwards, and the gate that forwards the exact texts to registration.
- **The upload screen** (`AddStoryActivity`). The photo-source state, the camera and gallery
  result callbacks, the upload gate with its `"Bearer $token"` header, and the loading
  toggle. A lemma shows that every upload flow leaves the add button enabled once it has been
  observed.

Code that is not visible becomes a parameter:
- The HTTP service: one function per endpoint, from arguments to outcome.
- The `Login`/`Register` domain conversions.
- The email pattern.
- `CAMERA_X_RESULT`.

Files: `responses.dfy`, `story_item.dfy`, `story_list_adapter.dfy`, `story_repository.dfy`,
`register_fragment.dfy`, `add_story_activity.dfy`.

Source paths in the table are relative to the repository root.

## Model

| member | source | states |
|---|---|---|
| `Responses.TerminalIsLast` | app/src/main/java/com/rendiputra/storyapp/data/StoryRepository.kt:22-103 | in any emitted flow a terminal value can only be the last element, and there is at most one |
| `StoryItems.AsDomain` | app/src/main/java/com/rendiputra/storyapp/data/network/response/StoryItem.kt:35-42 | each story field is the same-named wire field when present and `""` when absent |
| `StoryItems.ListAsDomain` | app/src/main/java/com/rendiputra/storyapp/data/network/response/StoryItem.kt:30-33 | the list translation keeps the length, and element i is the translation of input element i |
| `StoryItems.AbsentFieldsBecomeEmpty` | app/src/main/java/com/rendiputra/storyapp/data/network/response/StoryItem.kt:35-42 | each absent `id`/`name`/`description`/`photoUrl`/`createdAt` becomes `""` in the story |
| `StoryItems.PresentFieldsAreCopied` | app/src/main/java/com/rendiputra/storyapp/data/network/response/StoryItem.kt:36-41 | each present field is copied unchanged into the same-named story field |
| `StoryItems.CoordinatesAreIgnored` | app/src/main/java/com/rendiputra/storyapp/data/network/response/StoryItem.kt:23-42 | two wire records that differ only in `lon`/`lat` translate to the same story |
| `StoryItems.ListAsDomainAppend` | app/src/main/java/com/rendiputra/storyapp/data/network/response/StoryItem.kt:30-33 | translating a concatenation is concatenating the translations |
| `StoryListAdapter.AreItemsTheSame` | app/src/main/java/com/rendiputra/storyapp/adapter/StoryListAdapter.kt:20-22 | two stories are the same item iff their ids are equal; equal stories always are |
| `StoryListAdapter.AreContentsTheSame` | app/src/main/java/com/rendiputra/storyapp/adapter/StoryListAdapter.kt:20-26 | holds iff all five story fields agree, and implies `AreItemsTheSame` |
| `StoryListAdapter.DiffPredicatesReflexiveSymmetric` | app/src/main/java/com/rendiputra/storyapp/adapter/StoryListAdapter.kt:20-26 | both diff predicates are reflexive and symmetric |
| `StoryListAdapter.ChangedStoryIsSameItem` | app/src/main/java/com/rendiputra/storyapp/adapter/StoryListAdapter.kt:20-26 | a story with the same id but some other field changed is the same item with changed content |
| `StoryListAdapter.BindCaption` | app/src/main/java/com/rendiputra/storyapp/adapter/StoryListAdapter.kt:35-40 | the caption text is `name + " " + description`; the only span is bold from position 0 to the end of the name; a position is bold iff it lies in the name |
| `StoryRepository.LoginFlow` | app/src/main/java/com/rendiputra/storyapp/data/StoryRepository.kt:22-34 | login's flow is well formed, has a terminal value unless the success carries no login result, and never contains `Empty` |
| `StoryRepository.RegisterFlow` | app/src/main/java/com/rendiputra/storyapp/data/StoryRepository.kt:36-46 | register's flow is `Loading` then one terminal value: `Success` iff the call succeeded, `Error` iff it failed; never `Empty` |
| `StoryRepository.StoriesFlow` | app/src/main/java/com/rendiputra/storyapp/data/StoryRepository.kt:48-62 | the list flow always ends in a terminal value: `Empty` iff success without a list, `Error` iff the call failed |
| `StoryRepository.DetailStoryFlow` | app/src/main/java/com/rendiputra/storyapp/data/StoryRepository.kt:64-79 | the detail flow is well formed, has a terminal value iff the call succeeded, and never contains `Error` |
| `StoryRepository.AddNewStoryFlow` | app/src/main/java/com/rendiputra/storyapp/data/StoryRepository.kt:81-103 | the upload flow always ends in a terminal value: `Success` iff the call completed successfully; never `Empty` |
| `StoryRepository.FlowTrace` | app/src/main/java/com/rendiputra/storyapp/data/StoryRepository.kt:22-103 | a run that emits the first value, makes its call, then emits the rest, emits exactly the flow, sends exactly the one request, and the call directly follows the first value |
| `StoryRepository.LoadingBeforeTheCall` | app/src/main/java/com/rendiputra/storyapp/data/StoryRepository.kt:22-103 | in every operation's trace `Loading` comes first, the endpoint call directly follows and is the only call; an upload whose request could not be built makes no call and emits `[Loading, Error(message)]` |
| `StoryRepository.Login` | app/src/main/java/com/rendiputra/storyapp/data/StoryRepository.kt:22-34 | the trace is `Loading`, then one login request with the given email and password, then the rest of `LoginFlow` of the endpoint's outcome |
| `StoryRepository.Register` | app/src/main/java/com/rendiputra/storyapp/data/StoryRepository.kt:36-46 | the trace is `Loading`, then one register request with the given texts, then the rest of `RegisterFlow` of the endpoint's outcome |
| `StoryRepository.GetStories` | app/src/main/java/com/rendiputra/storyapp/data/StoryRepository.kt:48-62 | the trace is `Loading`, then one list request with the token, then the rest of `StoriesFlow` of the endpoint's outcome |
| `StoryRepository.GetDetailStory` | app/src/main/java/com/rendiputra/storyapp/data/StoryRepository.kt:64-79 | the trace is `Loading`, then one detail request with the token and id, then the rest of `DetailStoryFlow`; the error value built on failure is not emitted |
| `StoryRepository.AddNewStory` | app/src/main/java/com/rendiputra/storyapp/data/StoryRepository.kt:81-103 | the trace is `Loading`, then one upload request unless building it threw, then the rest of `AddNewStoryFlow`; every exception ends as an emitted `Error` and nothing propagates |
| `StoryRepository.LoginSuccessFlows` | app/src/main/java/com/rendiputra/storyapp/data/StoryRepository.kt:24-29 | a login result yields exactly `[Loading, Success(asDomain(result))]`; a null login result yields only `[Loading]` |
| `StoryRepository.NetworkErrorEmitsError` | app/src/main/java/com/rendiputra/storyapp/data/StoryRepository.kt:30-98 | for login, register, list and upload a service error yields `[Loading, Error(body?.message)]`, with no message when there is no body |
| `StoryRepository.RegisterSuccessFlow` | app/src/main/java/com/rendiputra/storyapp/data/StoryRepository.kt:38-41 | a register success always yields `[Loading, Success(asDomain(body))]` |
| `StoryRepository.ReadSuccessFlows` | app/src/main/java/com/rendiputra/storyapp/data/StoryRepository.kt:51-73 | for list and detail a success with a null payload yields `[Loading, Empty]`, a payload yields `Success` of its translation |
| `StoryRepository.DetailErrorEmitsOnlyLoading` | app/src/main/java/com/rendiputra/storyapp/data/StoryRepository.kt:75-77 | a detail-fetch error yields exactly `[Loading]` |
| `StoryRepository.AddNewStoryFlows` | app/src/main/java/com/rendiputra/storyapp/data/StoryRepository.kt:83-102 | a thrown exception yields `[Loading, Error(exception.message)]`; a success yields `[Loading, Success(body.message)]` |
| `RegisterFragment.FirstFailure` | app/src/main/java/com/rendiputra/storyapp/ui/auth/RegisterFragment.kt:89-117 | the chain passes iff no check fails; when it stops, the stopping check fails and every earlier check passes |
| `RegisterFragment.AcceptedIff` | app/src/main/java/com/rendiputra/storyapp/ui/auth/RegisterFragment.kt:91-116 | the form is accepted iff the name is non-empty, the email non-empty and valid, and the password at least 6 long |
| `RegisterFragment.BlockingChecks` | app/src/main/java/com/rendiputra/storyapp/ui/auth/RegisterFragment.kt:91-114 | an empty name blocks whatever else holds; a non-empty email the pattern rejects blocks; an accepted password has length at least 6 |
| `RegisterFragment.FirstFailureIsFirstFailing` | app/src/main/java/com/rendiputra/storyapp/ui/auth/RegisterFragment.kt:89-117 | the chain stops at a check iff that check fails and every check before it, in the fixed order, passes |
| `RegisterFragment.RegisterForm.ValidateFormLogin` | app/src/main/java/com/rendiputra/storyapp/ui/auth/RegisterFragment.kt:89-117 | blocks iff some check fails; only the first failing check's layout shows an error, layouts checked before it are cleared, later ones are untouched |
| `RegisterFragment.RegisterForm.Register` | app/src/main/java/com/rendiputra/storyapp/ui/auth/RegisterFragment.kt:76-87 | registration is requested, with the exact field texts, iff the chain passes |
| `AddStoryActivity.BearerHeader` | app/src/main/java/com/rendiputra/storyapp/ui/add_story/AddStoryActivity.kt:173 | the header is `"Bearer "` followed by the token, or by `null` when there is none |
| `AddStoryActivity.UploadBlocker` | app/src/main/java/com/rendiputra/storyapp/ui/add_story/AddStoryActivity.kt:180-192 | the upload is allowed iff an image is selected and the description is non-empty; a missing image is reported first |
| `AddStoryActivity.EnabledAfter` | app/src/main/java/com/rendiputra/storyapp/ui/add_story/AddStoryActivity.kt:89-107 | after the observer handles a response the add button is enabled iff the response is terminal |
| `AddStoryActivity.EnabledAfterObservingLast` | app/src/main/java/com/rendiputra/storyapp/ui/add_story/AddStoryActivity.kt:89-120 | after a non-empty sequence of responses the add button is enabled iff the last one is terminal |
| `AddStoryActivity.UploadReenablesButton` | app/src/main/java/com/rendiputra/storyapp/ui/add_story/AddStoryActivity.kt:89-120 | whatever the upload's outcome, observing its flow leaves the add button enabled |
| `AddStoryActivity.AddStoryScreen.constructor` | app/src/main/java/com/rendiputra/storyapp/ui/add_story/AddStoryActivity.kt:46-57 | the source starts as the camera, the back camera is assumed, no image is selected, the token is the current one |
| `AddStoryActivity.AddStoryScreen.ToggleLoading` | app/src/main/java/com/rendiputra/storyapp/ui/add_story/AddStoryActivity.kt:116-120 | the progress bar shows iff loading, and the add button is enabled iff not loading |
| `AddStoryActivity.AddStoryScreen.StartPhoto` | app/src/main/java/com/rendiputra/storyapp/ui/add_story/AddStoryActivity.kt:82-87 | the photo button opens the camera iff the source is the camera, and the gallery iff it is the gallery |
| `AddStoryActivity.AddStoryScreen.ValidateFormLogin` | app/src/main/java/com/rendiputra/storyapp/ui/add_story/AddStoryActivity.kt:180-192 | blocks iff `UploadBlocker` reports a message, and shows exactly that message |
| `AddStoryActivity.AddStoryScreen.UploadNewStory` | app/src/main/java/com/rendiputra/storyapp/ui/add_story/AddStoryActivity.kt:164-178 | a blocked form changes no state; otherwise loading is shown and the upload starts with the bearer header, the image, the camera flag and the description |
| `AddStoryActivity.AddStoryScreen.OnClick` | app/src/main/java/com/rendiputra/storyapp/ui/add_story/AddStoryActivity.kt:64-71 | the camera and gallery buttons only set the source; the photo button opens the current source; the add button runs the upload gate; other views do nothing |
| `AddStoryActivity.AddStoryScreen.OnUploadState` | app/src/main/java/com/rendiputra/storyapp/ui/add_story/AddStoryActivity.kt:89-107 | `Loading` disables the add button and every terminal value enables it; success shows the message and goes home; an error shows its message if any |
| `AddStoryActivity.AddStoryScreen.OnGalleryResult` | app/src/main/java/com/rendiputra/storyapp/ui/add_story/AddStoryActivity.kt:136-145 | only `RESULT_OK` changes the story image, to the picked file; a missing Uri crashes without changing state |
| `AddStoryActivity.AddStoryScreen.OnCameraResult` | app/src/main/java/com/rendiputra/storyapp/ui/add_story/AddStoryActivity.kt:148-162 | a result code other than `CAMERA_X_RESULT` changes nothing; otherwise the picture becomes the story image and the camera flag comes from the result, defaulting to true |

## Left out

- The view models (`AuthViewModel`, `MainViewModel`, `DetailViewModel`, `AddStoryViewModel`) are left out. They republish each emitted value from a coroutine through live data, and two concurrent invocations race with no stable contract. `EnabledAfterObservingLast` shows that the add button's final state depends only on the last value, whether or not intermediate values are dropped.
- `StoryService` is a Retrofit interface. Each endpoint is a function parameter from its arguments to an outcome, and the call is recorded in the trace as a request with those arguments. Request encoding, headers, transport and the suspension during the call are not modelled.
- `StoryRepository.AddNewStory`: whether an exception comes from building the request or from the call is an input of the model (two outcome variants); which statements of the `try` block can throw is not modelled.
- The upload's multipart request is not modelled: the `photo` part, the `image/jpeg` and `text/plain` media types, and the file name. The upload endpoint parameter receives the token, the file and the description, and may throw.
- The `Login` and `Register` conversions and their response types are not shown in the source. They are type and function parameters.
- The `message` of the shared error body is taken as nullable, because that class is not part of this model.
- `validateEmail` wraps the platform's email pattern, which is not visible. It is the `validEmail` parameter.
- `CAMERA_X_RESULT` is defined in `CameraActivity`, which is not part of this model. It is a constant the screen is constructed with.
- Image handling is not modelled: `uriToFile`, `reduceFileImage`, `rotateBitmap`, bitmap decoding, and the single-thread executor and main-looper handler. The model runs the executor's work at once. In the source, the upload reads the description on the executor, slightly later.
- Rendering is not modelled: Coil loading of `photoUrl` in `bind`, click listeners, snackbar durations, navigation, the toolbar, and the `MainActivity`/`DetailActivity` observers.
- The registration screen's own state observer and `toggleLoading` are not modelled. They follow the same pattern as the upload screen's.
- Token persistence, dependency injection, and `DiffUtil`'s list differencing itself are not modelled.
- `lon`/`lat` are Kotlin `Double`s. They are carried as reals only to state that the translation ignores them.
- `AddStoryActivity.AddStoryScreen.constructor`: the layout is not part of this model. The progress bar is assumed hidden and the add button enabled when the screen is created.
- `StoryListAdapter.BindCaption`: for an empty name the model records a zero-length bold span, which Android's spannable builder discards. In both cases no position is bold.
- `RegisterFragment.FirstFailure`: the password length is counted in characters. Kotlin's `length` counts UTF-16 code units, which differ for characters outside the Basic Multilingual Plane.
- `AddStoryActivity.AddStoryScreen.OnGalleryResult`: `Crash` stands for the exception the unchecked cast throws. What the platform does after that is not modelled.
