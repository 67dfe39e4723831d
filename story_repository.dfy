/** The repository (data/StoryRepository.kt): each of its five operations emits `Loading`,
    calls one endpoint of the remote service, and turns the service's outcome into at most
    one further `Response`. The service (data/network/service/StoryService.kt) and the
    conversions whose sources are not shown are parameters. One run of an operation is
    modelled as its trace: the values it emits and the service request it makes, in order. */
module StoryRepository {
  import opened Responses
  import opened StoryItems

  /** The error body every endpoint shares (CommonNetworkErrorResponse). */
  datatype ErrorBody = ErrorBody(message: Option<string>)

  /** What a service call returns: a typed success body, or an error (server error, network
      failure, unknown failure) whose body may be absent. */
  datatype NetworkResponse<+S> = NetworkSuccess(body: S) | NetworkError(errorBody: Option<ErrorBody>)

  /** Success bodies of the endpoints, restricted to the fields the repository reads. */
  datatype LoginResponse<+R> = LoginResponse(loginResult: Option<R>)
  datatype StoryResponse = StoryResponse(listStory: Option<seq<StoryItem>>)
  datatype DetailStoryResponse = DetailStoryResponse(story: Option<StoryItem>)
  datatype AddNewStoryResponse = AddNewStoryResponse(message: string)

  /** A local image file; only its path is relevant here. */
  datatype File = File(path: string)

  /** What the `try` block of addNewStory meets: the endpoint's outcome, an exception while
      the multipart request is built (before the endpoint is called), or an exception thrown
      by the call itself. Exception messages may be null. */
  datatype UploadOutcome =
    | Completed(response: NetworkResponse<AddNewStoryResponse>)
    | ThrownBeforeCall(buildMessage: Option<string>)
    | ThrownByCall(callMessage: Option<string>)

  /** The request one operation sends to its endpoint, with its arguments. */
  datatype Request =
    | LoginRequest(email: string, password: string)
    | RegisterRequest(name: string, email: string, password: string)
    | StoriesRequest(token: string)
    | DetailStoryRequest(token: string, id: string)
    | AddNewStoryRequest(token: string, image: File, description: string)

  /** One observable step of a flow: a value handed to `emit`, or the service call. */
  datatype Event<+T> = Emitted(response: Response<T>) | Called(request: Request)

  /** `response.body?.message`: the server's message, absent when there is no body. */
  function ErrorMessage(errorBody: Option<ErrorBody>): Option<string> {
    match errorBody
    case Some(body) => body.message
    case None => None
  }

  /** The values a trace emits, in order. */
  function Emissions<T>(trace: seq<Event<T>>): seq<Response<T>> {
    if trace == [] then []
    else (if trace[0].Emitted? then [trace[0].response] else []) + Emissions(trace[1..])
  }

  /** The requests a trace sends, in order. */
  function Calls<T>(trace: seq<Event<T>>): seq<Request> {
    if trace == [] then []
    else (if trace[0].Called? then [trace[0].request] else []) + Calls(trace[1..])
  }

  /** Each value of `responses` emitted in turn. */
  function EmittedAll<T>(responses: seq<Response<T>>): (trace: seq<Event<T>>)
    ensures |trace| == |responses|
    ensures forall i :: 0 <= i < |responses| ==> trace[i] == Emitted(responses[i])
  {
    if responses == [] then [] else [Emitted(responses[0])] + EmittedAll(responses[1..])
  }

  lemma {:induction false} EmissionsAppend<T>(a: seq<Event<T>>, b: seq<Event<T>>)
    ensures Emissions(a + b) == Emissions(a) + Emissions(b)
    ensures Calls(a + b) == Calls(a) + Calls(b)
  {
    if a == [] {
      assert a + b == b;
    } else {
      var ab := a + b;
      assert ab[0] == a[0];
      assert ab[1..] == a[1..] + b;
      EmissionsAppend(a[1..], b);
      var head := if a[0].Emitted? then [a[0].response] else [];
      assert Emissions(ab) == head + Emissions(a[1..] + b);
      assert Emissions(ab) == head + (Emissions(a[1..]) + Emissions(b));
      assert Emissions(a) == head + Emissions(a[1..]);
      var callHead := if a[0].Called? then [a[0].request] else [];
      assert Calls(ab) == callHead + Calls(a[1..] + b);
      assert Calls(a) == callHead + Calls(a[1..]);
    }
  }

  lemma {:induction false} EmissionsOfEmittedAll<T>(responses: seq<Response<T>>)
    ensures Emissions(EmittedAll(responses)) == responses
    ensures Calls(EmittedAll(responses)) == []
  {
    if responses != [] {
      var trace := EmittedAll(responses);
      assert trace == [Emitted(responses[0])] + EmittedAll(responses[1..]);
      EmissionsAppend([Emitted(responses[0])], EmittedAll(responses[1..]));
      EmissionsOfEmittedAll(responses[1..]);
    }
  }

  /** The trace of a run that emits the first value of `flow`, then makes the call (when
      there is one), then emits the rest of `flow`: it emits exactly `flow`, sends exactly
      the one request, and nothing but the first value comes before the call. */
  function FlowTrace<T>(flow: seq<Response<T>>, call: Option<Request>): (trace: seq<Event<T>>)
    requires flow != []
    ensures |trace| == |flow| + (if call.Some? then 1 else 0)
    ensures trace[0] == Emitted(flow[0])
    ensures call.Some? ==> trace[1] == Called(call.value)
    ensures Emissions(trace) == flow
    ensures Calls(trace) == if call.Some? then [call.value] else []
  {
    FlowTraceContents(flow, call);
    [Emitted(flow[0])] + CallEvents<T>(call) + EmittedAll(flow[1..])
  }

  /** The call event of a run, if it makes one. */
  function CallEvents<T>(call: Option<Request>): seq<Event<T>> {
    if call.Some? then [Called(call.value)] else []
  }

  lemma FlowTraceContents<T>(flow: seq<Response<T>>, call: Option<Request>)
    requires flow != []
    ensures Emissions([Emitted(flow[0])] + CallEvents<T>(call) + EmittedAll(flow[1..])) == flow
    ensures Calls([Emitted(flow[0])] + CallEvents<T>(call) + EmittedAll(flow[1..]))
            == if call.Some? then [call.value] else []
  {
    var first: seq<Event<T>> := [Emitted(flow[0])];
    var callEvents := CallEvents<T>(call);
    EmissionsAppend(first, callEvents);
    EmissionsAppend(first + callEvents, EmittedAll(flow[1..]));
    EmissionsOfEmittedAll(flow[1..]);
    assert Emissions(first) == [flow[0]] by {
      assert first[1..] == [];
    }
    assert Calls(first) == [] by {
      assert first[1..] == [];
    }
    if call.Some? {
      assert callEvents[1..] == [];
    }
    assert [flow[0]] + flow[1..] == flow;
  }

  /** The flow collector a Kotlin `flow { ... }` builder pushes into with `emit`, together with the
      service request the builder makes between emissions. */
  class FlowRun<T> {
    var trace: seq<Event<T>>

    constructor ()
      ensures trace == []
    {
      trace := [];
    }

    method Emit(value: Response<T>)
      modifies this
      ensures trace == old(trace) + [Emitted(value)]
    {
      trace := trace + [Emitted(value)];
    }

    method Call(request: Request)
      modifies this
      ensures trace == old(trace) + [Called(request)]
    {
      trace := trace + [Called(request)];
    }
  }

  // ---------------------------------------------------------------------------------------
  // What each operation emits, as a function of the service outcome.

  /** login: a success without a login result emits nothing after Loading. */
  function LoginFlow<R, L>(outcome: NetworkResponse<LoginResponse<R>>, asDomain: R -> L): (flow: seq<Response<L>>)
    ensures WellFormedFlow(flow)
    ensures |flow| == 2 <==> !(outcome.NetworkSuccess? && outcome.body.loginResult.None?)
    ensures forall i :: 0 <= i < |flow| ==> !flow[i].Empty?
  {
    match outcome
    case NetworkSuccess(body) =>
      if body.loginResult.Some? then [Loading, Success(asDomain(body.loginResult.value))] else [Loading]
    case NetworkError(errorBody) => [Loading, Error(ErrorMessage(errorBody))]
  }

  /** register: every outcome ends in Success or Error; there is no Empty path. */
  function RegisterFlow<B, D>(outcome: NetworkResponse<B>, asDomain: B -> D): (flow: seq<Response<D>>)
    ensures WellFormedFlow(flow) && |flow| == 2
    ensures flow[1].Success? <==> outcome.NetworkSuccess?
    ensures flow[1].Error? <==> outcome.NetworkError?
  {
    match outcome
    case NetworkSuccess(body) => [Loading, Success(asDomain(body))]
    case NetworkError(errorBody) => [Loading, Error(ErrorMessage(errorBody))]
  }

  /** getStories: a success without a list is Empty, a list is translated. */
  function StoriesFlow(outcome: NetworkResponse<StoryResponse>): (flow: seq<Response<seq<Story>>>)
    ensures WellFormedFlow(flow) && |flow| == 2
    ensures flow[1].Empty? <==> outcome.NetworkSuccess? && outcome.body.listStory.None?
    ensures flow[1].Error? <==> outcome.NetworkError?
  {
    match outcome
    case NetworkSuccess(body) =>
      if body.listStory.Some? then [Loading, Success(ListAsDomain(body.listStory.value))] else [Loading, Empty]
    case NetworkError(errorBody) => [Loading, Error(ErrorMessage(errorBody))]
  }

  /** getDetailStory: as getStories for a single record, except that the error branch
      builds an Error value without emitting it, so an error emits nothing after Loading. */
  function DetailStoryFlow(outcome: NetworkResponse<DetailStoryResponse>): (flow: seq<Response<Story>>)
    ensures WellFormedFlow(flow)
    ensures |flow| == 2 <==> outcome.NetworkSuccess?
    ensures forall i :: 0 <= i < |flow| ==> !flow[i].Error?
  {
    match outcome
    case NetworkSuccess(body) =>
      if body.story.Some? then [Loading, Success(AsDomain(body.story.value))] else [Loading, Empty]
    case NetworkError(_) => [Loading]
  }

  /** addNewStory: an exception is caught and emitted as an Error carrying its message. */
  function AddNewStoryFlow(outcome: UploadOutcome): (flow: seq<Response<string>>)
    ensures WellFormedFlow(flow) && |flow| == 2
    ensures flow[1].Success? <==> outcome.Completed? && outcome.response.NetworkSuccess?
    ensures !flow[1].Empty?
  {
    match outcome
    case ThrownBeforeCall(message) => [Loading, Error(message)]
    case ThrownByCall(message) => [Loading, Error(message)]
    case Completed(response) =>
      match response
      case NetworkSuccess(body) => [Loading, Success(body.message)]
      case NetworkError(errorBody) => [Loading, Error(ErrorMessage(errorBody))]
  }

  // ---------------------------------------------------------------------------------------
  // The operations: Loading is emitted, then the one service call is made, then the rest.

  method Login<R, L>(email: string, password: string,
                     loginService: (string, string) -> NetworkResponse<LoginResponse<R>>,
                     asDomain: R -> L)
    returns (trace: seq<Event<L>>)
    ensures trace == FlowTrace(LoginFlow(loginService(email, password), asDomain), Some(LoginRequest(email, password)))
  {
    var run := new FlowRun<L>();
    run.Emit(Loading);
    run.Call(LoginRequest(email, password));
    var response := loginService(email, password);
    match response {
      case NetworkSuccess(body) =>
        if body.loginResult.Some? {
          run.Emit(Success(asDomain(body.loginResult.value)));
        }
      case NetworkError(errorBody) =>
        run.Emit(Error(ErrorMessage(errorBody)));
    }
    trace := run.trace;
  }

  method Register<B, D>(name: string, email: string, password: string,
                        registerService: (string, string, string) -> NetworkResponse<B>,
                        asDomain: B -> D)
    returns (trace: seq<Event<D>>)
    ensures trace == FlowTrace(RegisterFlow(registerService(name, email, password), asDomain),
                               Some(RegisterRequest(name, email, password)))
  {
    var run := new FlowRun<D>();
    run.Emit(Loading);
    run.Call(RegisterRequest(name, email, password));
    var response := registerService(name, email, password);
    match response {
      case NetworkSuccess(body) =>
        run.Emit(Success(asDomain(body)));
      case NetworkError(errorBody) =>
        run.Emit(Error(ErrorMessage(errorBody)));
    }
    trace := run.trace;
  }

  method GetStories(token: string, storiesService: string -> NetworkResponse<StoryResponse>)
    returns (trace: seq<Event<seq<Story>>>)
    ensures trace == FlowTrace(StoriesFlow(storiesService(token)), Some(StoriesRequest(token)))
  {
    var run := new FlowRun<seq<Story>>();
    run.Emit(Loading);
    run.Call(StoriesRequest(token));
    var response := storiesService(token);
    match response {
      case NetworkSuccess(body) =>
        if body.listStory.Some? {
          run.Emit(Success(ListAsDomain(body.listStory.value)));
        } else {
          run.Emit(Empty);
        }
      case NetworkError(errorBody) =>
        run.Emit(Error(ErrorMessage(errorBody)));
    }
    trace := run.trace;
  }

  method GetDetailStory(token: string, id: string,
                        detailService: (string, string) -> NetworkResponse<DetailStoryResponse>)
    returns (trace: seq<Event<Story>>)
    ensures trace == FlowTrace(DetailStoryFlow(detailService(token, id)), Some(DetailStoryRequest(token, id)))
  {
    var run := new FlowRun<Story>();
    run.Emit(Loading);
    run.Call(DetailStoryRequest(token, id));
    var response := detailService(token, id);
    match response {
      case NetworkSuccess(body) =>
        if body.story.Some? {
          run.Emit(Success(AsDomain(body.story.value)));
        } else {
          run.Emit(Empty);
        }
      case NetworkError(errorBody) =>
        // The source builds this value and drops it.
        var unused: Response<Story> := Error(ErrorMessage(errorBody));
    }
    trace := run.trace;
  }

  /** The endpoint is called unless building the request already threw; any exception is
      caught and emitted as an Error. */
  method AddNewStory(token: string, image: File, description: string,
                     upload: (string, File, string) -> UploadOutcome)
    returns (trace: seq<Event<string>>)
    ensures trace == FlowTrace(AddNewStoryFlow(upload(token, image, description)),
                               if upload(token, image, description).ThrownBeforeCall? then None
                               else Some(AddNewStoryRequest(token, image, description)))
  {
    var run := new FlowRun<string>();
    run.Emit(Loading);
    var outcome := upload(token, image, description);
    match outcome {
      case ThrownBeforeCall(message) =>
        run.Emit(Error(message));
      case ThrownByCall(message) =>
        run.Call(AddNewStoryRequest(token, image, description));
        run.Emit(Error(message));
      case Completed(response) =>
        run.Call(AddNewStoryRequest(token, image, description));
        match response {
          case NetworkSuccess(body) =>
            run.Emit(Success(body.message));
          case NetworkError(errorBody) =>
            run.Emit(Error(ErrorMessage(errorBody)));
        }
    }
    trace := run.trace;
  }

  // ---------------------------------------------------------------------------------------
  // Properties of the flows.

  /** Loading is the first event of a run, the service call follows it directly, and that
      call is the only one. */
  ghost predicate LoadingThenOneCall<T>(trace: seq<Event<T>>, request: Request) {
    && |trace| >= 2
    && trace[0] == Emitted(Loading)
    && trace[1] == Called(request)
    && Calls(trace) == [request]
  }

  /** Every operation's run emits Loading before it calls its endpoint, and calls it once;
      the upload calls it unless building the request threw, and then makes no call. */
  lemma LoadingBeforeTheCall<R, L, B, D>(
    email: string, password: string, name: string, token: string, id: string,
    image: File, description: string,
    loginOutcome: NetworkResponse<LoginResponse<R>>, loginAsDomain: R -> L,
    registerOutcome: NetworkResponse<B>, registerAsDomain: B -> D,
    storiesOutcome: NetworkResponse<StoryResponse>,
    detailOutcome: NetworkResponse<DetailStoryResponse>,
    uploadOutcome: UploadOutcome)
    ensures LoadingThenOneCall(FlowTrace(LoginFlow(loginOutcome, loginAsDomain), Some(LoginRequest(email, password))),
                               LoginRequest(email, password))
    ensures LoadingThenOneCall(FlowTrace(RegisterFlow(registerOutcome, registerAsDomain), Some(RegisterRequest(name, email, password))),
                               RegisterRequest(name, email, password))
    ensures LoadingThenOneCall(FlowTrace(StoriesFlow(storiesOutcome), Some(StoriesRequest(token))), StoriesRequest(token))
    ensures LoadingThenOneCall(FlowTrace(DetailStoryFlow(detailOutcome), Some(DetailStoryRequest(token, id))),
                               DetailStoryRequest(token, id))
    ensures !uploadOutcome.ThrownBeforeCall? ==>
              LoadingThenOneCall(FlowTrace(AddNewStoryFlow(uploadOutcome), Some(AddNewStoryRequest(token, image, description))),
                                 AddNewStoryRequest(token, image, description))
    ensures uploadOutcome.ThrownBeforeCall? ==>
              FlowTrace(AddNewStoryFlow(uploadOutcome), None)
              == [Emitted(Loading), Emitted(Error(uploadOutcome.buildMessage))]
  {
    if uploadOutcome.ThrownBeforeCall? {
      var trace := FlowTrace(AddNewStoryFlow(uploadOutcome), None);
      assert trace[1..] == EmittedAll([Error(uploadOutcome.buildMessage)]);
    }
  }

  /** login with a login result emits exactly its translation; without one, only Loading. */
  lemma LoginSuccessFlows<R, L>(result: R, asDomain: R -> L)
    ensures LoginFlow(NetworkSuccess(LoginResponse(Some(result))), asDomain) == [Loading, Success(asDomain(result))]
    ensures LoginFlow(NetworkSuccess(LoginResponse(None)), asDomain) == [Loading]
  {
  }

  /** login, register, getStories and addNewStory turn a service error into exactly one
      Error carrying the error body's message, or no message when there is no body. */
  lemma NetworkErrorEmitsError<R, L, B, D>(errorBody: Option<ErrorBody>, loginAsDomain: R -> L, registerAsDomain: B -> D)
    ensures LoginFlow(NetworkError(errorBody), loginAsDomain) == [Loading, Error(ErrorMessage(errorBody))]
    ensures RegisterFlow(NetworkError(errorBody), registerAsDomain) == [Loading, Error(ErrorMessage(errorBody))]
    ensures StoriesFlow(NetworkError(errorBody)) == [Loading, Error(ErrorMessage(errorBody))]
    ensures AddNewStoryFlow(Completed(NetworkError(errorBody))) == [Loading, Error(ErrorMessage(errorBody))]
    ensures errorBody.None? ==> ErrorMessage(errorBody).None?
    ensures errorBody.Some? ==> ErrorMessage(errorBody) == errorBody.value.message
  {
  }

  /** register success always emits Success of the translated body. */
  lemma RegisterSuccessFlow<B, D>(body: B, asDomain: B -> D)
    ensures RegisterFlow(NetworkSuccess(body), asDomain) == [Loading, Success(asDomain(body))]
  {
  }

  /** The two reads emit Empty for a success without payload and Success of the translated
      payload otherwise. */
  lemma ReadSuccessFlows(items: seq<StoryItem>, item: StoryItem)
    ensures StoriesFlow(NetworkSuccess(StoryResponse(None))) == [Loading, Empty]
    ensures StoriesFlow(NetworkSuccess(StoryResponse(Some(items)))) == [Loading, Success(ListAsDomain(items))]
    ensures DetailStoryFlow(NetworkSuccess(DetailStoryResponse(None))) == [Loading, Empty]
    ensures DetailStoryFlow(NetworkSuccess(DetailStoryResponse(Some(item)))) == [Loading, Success(AsDomain(item))]
  {
  }

  /** A detail-fetch error emits no terminal value. */
  lemma DetailErrorEmitsOnlyLoading(errorBody: Option<ErrorBody>)
    ensures DetailStoryFlow(NetworkError(errorBody)) == [Loading]
  {
  }

  /** addNewStory: a thrown exception becomes an Error with the exception's message; a
      success emits the server's message. */
  lemma AddNewStoryFlows(exceptionMessage: Option<string>, message: string)
    ensures AddNewStoryFlow(ThrownBeforeCall(exceptionMessage)) == [Loading, Error(exceptionMessage)]
    ensures AddNewStoryFlow(ThrownByCall(exceptionMessage)) == [Loading, Error(exceptionMessage)]
    ensures AddNewStoryFlow(Completed(NetworkSuccess(AddNewStoryResponse(message)))) == [Loading, Success(message)]
  {
  }
}
