/**
  The request builder of httptestclient: a `Client` accumulates the method,
  url, headers, body and form of one request, builds the request, sends it
  through a transport and decides whether the exchange met the test's
  expectations. Every failure goes through `FailNow`, which records the report
  the test sink receives and sets the sticky error `err`. A failure ends the
  operation that raised it, as the real `FailNow` does; the self-test sink,
  whose `FailNow` returns, lets the code go on in the few places where that
  shows.

  The transport is abstract: an `Exchange` lists the paths of the redirect hops
  the HTTP client followed and then says whether the exchange ended in a
  transport error or in a response.
 */
module HttpTestClient {
  import opened Options
  import opened Multimap

  /** Default `User-Agent` header value. */
  const UserAgent: string := "test-http-request"
  const ContentTypeApplicationJson: string := "application/json"
  /** The Content-Type given to a body when none was set. */
  const DefaultContentType: string := ContentTypeApplicationJson
  const FormContentType: string := "application/x-www-form-urlencoded"
  const ContentTypeHeader: string := "Content-Type"

  // The formats `FailNow` reports, exactly as the test sink receives them.
  const MisuseFormat: string := "misuse of ExpectedStatusCode(%d), use ExpectRedirectTo instead"
  const OddPairsFormat: string := "Incorrect number of parameters %d items, missed pair"
  const NilPayloadFormat: string := "payload to send is nil"
  const NoErrorFormat: string := "Expected no error, got %v"
  const RedirectMismatchFormat: string := "expected to redirect path '%s', actual path '%s'"
  const NoRedirectFormat: string := "expected to redirect path '%s' but no redirection happened"
  const ExpectedSuccessFormat: string := "expected success, got %d"
  const ExpectedStatusFormat: string := "expected %d, got %d"
  const AssertionNotMetFormat: string := "ASSERTION NOT MET"

  newtype byte = x: int | 0 <= x < 256

  /** One `Errorf(format, args...)` call on the test sink. */
  datatype Report = Report(format: string, args: seq<FmtArg>)

  /** The arguments the client passes to a format: `%d`, `%s` and `%v` operands. */
  datatype FmtArg = IntArg(i: int) | StrArg(s: string) | ErrArg(e: GoError)

  /**
    The errors the client stores: one raised outside the model (transport,
    request construction, JSON encoding, reading the body), one made by
    `fmt.Errorf` from a report, and the `ErrNilBodyJSON` sentinel.
   */
  datatype GoError = Foreign(text: string) | Formatted(report: Report) | NilBodyJSON

  /**
    The request body: none, the given bytes, the bytes of a string, or the
    URL encoding of a form.
   */
  datatype Body = NoBody | Raw(bytes: seq<byte>) | Text(text: string) | FormEncoded(form: Values)

  datatype RequestContext = Background | Supplied(name: string)

  /** What `BodyJSON` is given: nil, a value `json.Marshal` encodes, or one it rejects. */
  datatype Payload = NilPayload | Encodes(bytes: seq<byte>) | FailsToEncode(cause: string)

  datatype Request = Request(httpMethod: string, url: string, header: Values, body: Body, context: RequestContext)

  /** Reading the response body, which can fail. */
  datatype ReadResult = Read(text: string) | ReadFailed(cause: string)

  datatype Response = Response(status: int, header: Values, body: ReadResult)

  datatype Outcome = TransportError(cause: string) | Completed(response: Response)

  /** Redirect hop paths in the order they were followed, then how the exchange ended. */
  datatype Exchange = Exchange(hops: seq<string>, outcome: Outcome)

  datatype SimpleResponse = SimpleResponse(header: Values, body: string, status: int)

  /** The zero `SimpleResponse` returned when the exchange failed. */
  const NoSimpleResponse: SimpleResponse := SimpleResponse(map[], "", 0)

  /** Everything a `Client` holds, plus the reports its test sink received. */
  datatype ClientState = ClientState(
    httpMethod: string,
    url: string,
    header: Values,
    body: Body,
    form: Values,
    context: RequestContext,
    expectedStatus: int,
    err: Option<GoError>,
    expectRedirectPath: string,
    reported: seq<Report>)

  /**
    What every client keeps true: the expected status is never a redirect code,
    and the sticky error is set exactly when something was reported.
   */
  predicate Consistent(st: ClientState)
  {
    !(300 <= st.expectedStatus < 400) && (st.err.Some? <==> |st.reported| > 0)
  }

  /** `failNow`: the report reaches the sink and becomes the sticky error. */
  function Fail(st: ClientState, rep: Report): ClientState
  {
    st.(err := Some(Formatted(rep)), reported := st.reported + [rep])
  }

  /**
    `hasError` on a non-nil error. It stores the error and then calls
    `failNow`, which replaces it with the formatted report, so only the report
    remains.
   */
  function ErrorReported(st: ClientState, e: GoError): ClientState
  {
    Fail(st, Report(NoErrorFormat, [ErrArg(e)]))
  }

  /** The state `New` returns. */
  function Initial(): (st: ClientState)
    ensures st.header == map["Accept" := [ContentTypeApplicationJson], "User-Agent" := [UserAgent]]
    ensures st.httpMethod == "GET" && st.url == "/" && st.body == NoBody && st.form == map[]
    ensures st.context == Background && st.expectedStatus == 0 && st.expectRedirectPath == ""
    ensures st.err == None && st.reported == []
    ensures Consistent(st)
  {
    var h := Set(Set(map[], "Accept", ContentTypeApplicationJson), "User-Agent", UserAgent);
    ClientState("GET", "/", h, NoBody, map[], Background, 0, None, "", [])
  }

  /** `ExpectedStatusCode`: a 3xx code is refused and reported; any other code is stored. */
  function WithExpectedStatus(st: ClientState, status: int): (r: ClientState)
    ensures 300 <= status < 400 ==>
      r.expectedStatus == st.expectedStatus && r.err.Some? &&
      r.reported == st.reported + [Report(MisuseFormat, [IntArg(status)])]
    ensures !(300 <= status < 400) ==> r == st.(expectedStatus := status)
    ensures r.header == st.header && r.form == st.form && r.body == st.body
    ensures Consistent(st) ==> Consistent(r)
  {
    if 300 <= status < 400 then Fail(st, Report(MisuseFormat, [IntArg(status)]))
    else st.(expectedStatus := status)
  }

  /**
    `FormData`: an odd argument count is reported and changes nothing else;
    otherwise the pairs are added to the form in order and the body becomes the
    encoding of the whole form.
   */
  function WithFormData(st: ClientState, args: seq<string>): (r: ClientState)
    ensures |args| % 2 != 0 ==>
      r.form == st.form && r.body == st.body && r.err.Some? &&
      r.reported == st.reported + [Report(OddPairsFormat, [IntArg(|args|)])]
    ensures |args| % 2 == 0 ==>
      r.form.Keys == st.form.Keys + PairedKeys(args) && r.body == FormEncoded(r.form) &&
      (forall key :: Lookup(r.form, key) == Lookup(st.form, key) + PairedValues(args, key)) &&
      r.err == st.err && r.reported == st.reported
    ensures r.header == st.header && r.httpMethod == st.httpMethod
    ensures Consistent(st) ==> Consistent(r)
  {
    if |args| % 2 != 0 then Fail(st, Report(OddPairsFormat, [IntArg(|args|)]))
    else
      var f := AddPairs(st.form, args);
      assert forall key :: Lookup(f, key) == Lookup(st.form, key) + PairedValues(args, key) by {
        forall key { AddPairsAppends(st.form, args, key); }
      }
      AddPairsAppends(st.form, args, "");
      st.(form := f, body := FormEncoded(f))
  }

  /**
    `BodyJSON`: nil is reported as "payload to send is nil"; an encoding error
    is reported through `hasError`; an encoded value becomes the body. A test
    sink whose `FailNow` returns (`nonHalting`) lets the sentinel
    `ErrNilBodyJSON` overwrite the error.
   */
  function WithJsonBody(st: ClientState, payload: Payload, nonHalting: bool): (r: ClientState)
    ensures payload.NilPayload? ==>
      r.body == st.body && r.err.Some? && r.reported == st.reported + [Report(NilPayloadFormat, [])]
    ensures payload.FailsToEncode? ==>
      r.body == st.body && r.err.Some? &&
      r.reported == st.reported + [Report(NoErrorFormat, [ErrArg(Foreign(payload.cause))])]
    ensures payload.Encodes? ==> r == st.(body := Raw(payload.bytes))
    ensures r.header == st.header && r.form == st.form
    ensures Consistent(st) ==> Consistent(r)
  {
    match payload
    case NilPayload =>
      var failed := Fail(st, Report(NilPayloadFormat, []));
      if nonHalting then failed.(err := Some(NilBodyJSON)) else failed
    case FailsToEncode(cause) => ErrorReported(st, Foreign(cause))
    case Encodes(bytes) => st.(body := Raw(bytes))
  }

  /** `strings.HasPrefix(path, "/")`. */
  predicate StartsWithSlash(path: string)
  {
    |path| > 0 && path[0] == '/'
  }

  /**
    `joinPath`: the root, then exactly one '/' of its own or of `path`, then the
    rest of `path`.
   */
  function JoinPath(root: string, path: string): (r: string)
    ensures |r| == |root| + 1 + (if StartsWithSlash(path) then |path| - 1 else |path|)
    ensures r[..|root|] == root && r[|root|] == '/'
    ensures StartsWithSlash(path) ==> r[|root|..] == path
    ensures !StartsWithSlash(path) ==> r[|root| + 1..] == path
  {
    if !StartsWithSlash(path) then root + "/" + path else root + path
  }

  /**
    The headers `buildRequest` sends: a non-empty form forces the form
    Content-Type; otherwise a body without a Content-Type gets the default one;
    otherwise the headers are left alone. No other header changes.
   */
  function RequestHeaders(h: Values, form: Values, body: Body): (r: Values)
    ensures |form| > 0 ==> Lookup(r, ContentTypeHeader) == [FormContentType]
    ensures |form| == 0 && body != NoBody && Get(h, ContentTypeHeader) == "" ==>
      Lookup(r, ContentTypeHeader) == [DefaultContentType]
    ensures |form| == 0 && (body == NoBody || Get(h, ContentTypeHeader) != "") ==> r == h
    ensures SameElsewhere(r, h, ContentTypeHeader)
  {
    if |form| > 0 then Set(h, ContentTypeHeader, FormContentType)
    else if body != NoBody && Get(h, ContentTypeHeader) == "" then Set(h, ContentTypeHeader, DefaultContentType)
    else h
  }

  /** The client state after `buildRequest`, and the request, nil when none was built. */
  datatype Built = Built(state: ClientState, request: Option<Request>)

  /**
    `buildRequest(baseURL)`; `requestError` is the error
    `http.NewRequestWithContext` returns, if any. A stored error yields no
    request and changes nothing. Otherwise a form with an empty method switches
    the client's method to POST; a method still empty is sent as GET, which
    `http.NewRequestWithContext` substitutes without changing the client. The
    header map the request shares with the client receives the Content-Type
    rules.
   */
  function Build(st: ClientState, baseURL: string, requestError: Option<string>): (b: Built)
    ensures st.err.Some? ==> b == Built(st, None)
    ensures st.err.None? && requestError.Some? ==>
      b.request.None? && b.state.err.Some? &&
      b.state.reported == st.reported + [Report(NoErrorFormat, [ErrArg(Foreign(requestError.value))])]
    ensures st.err.None? && requestError.None? ==>
      b.request.Some? && b.state.err == None && b.state.reported == st.reported &&
      b.request.value.url == JoinPath(baseURL, st.url) &&
      b.request.value.header == b.state.header == RequestHeaders(st.header, st.form, st.body) &&
      b.request.value.body == st.body && b.request.value.context == st.context &&
      (st.httpMethod != "" ==> b.request.value.httpMethod == b.state.httpMethod == st.httpMethod) &&
      (st.httpMethod == "" && |st.form| > 0 ==> b.request.value.httpMethod == b.state.httpMethod == "POST") &&
      (st.httpMethod == "" && |st.form| == 0 ==> b.request.value.httpMethod == "GET" && b.state.httpMethod == "")
    ensures b.state.url == st.url && b.state.form == st.form && b.state.body == st.body
    ensures b.state.expectedStatus == st.expectedStatus && b.state.expectRedirectPath == st.expectRedirectPath
    ensures Consistent(st) ==> Consistent(b.state)
  {
    if st.err.Some? then Built(st, None)
    else
      var urlPath := JoinPath(baseURL, st.url);
      var switched := if |st.form| > 0 && st.httpMethod == "" then st.(httpMethod := "POST") else st;
      if requestError.Some? then Built(ErrorReported(switched, Foreign(requestError.value)), None)
      else
        var prepared := switched.(header := RequestHeaders(switched.header, switched.form, switched.body));
        var sent := if prepared.httpMethod == "" then "GET" else prepared.httpMethod;
        Built(prepared, Some(Request(sent, urlPath, prepared.header, prepared.body, prepared.context)))
  }

  /** Every hop went to `path` (vacuously when there was none). */
  predicate AllHopsTo(hops: seq<string>, path: string)
  {
    forall k :: 0 <= k < |hops| ==> hops[k] == path
  }

  /** The first hop whose path is not `path`: the one the redirect check refuses. */
  function FirstMismatch(hops: seq<string>, path: string): (r: Option<string>)
    ensures r.None? <==> AllHopsTo(hops, path)
    ensures r.Some? ==> r.value != path && r.value in hops
  {
    if |hops| == 0 then None
    else if hops[0] != path then Some(hops[0])
    else FirstMismatch(hops[1..], path)
  }

  /** The refused hop is the one after the longest run of hops to `path`. */
  lemma {:induction false} FirstMismatchAt(hops: seq<string>, path: string, i: nat)
    requires i < |hops| && hops[i] != path
    requires forall j :: 0 <= j < i ==> hops[j] == path
    ensures FirstMismatch(hops, path) == Some(hops[i])
    decreases i
  {
    if i > 0 {
      assert hops[0] == path;
      FirstMismatchAt(hops[1..], path, i - 1);
    }
  }

  /**
    The status policy of `Do`: with no expected status any code below 400
    passes; a positive expected status must match exactly; a negative one is
    never compared.
   */
  predicate StatusAccepted(expected: int, status: int)
  {
    (expected == 0 ==> status < 400) && (expected > 0 ==> status == expected)
  }

  /** An exchange that meets every expectation `Do` checks. */
  predicate Passes(expectRedirectPath: string, expectedStatus: int, ex: Exchange)
  {
    AllHopsTo(ex.hops, expectRedirectPath) && ex.outcome.Completed? &&
    (expectRedirectPath != "" ==> |ex.hops| > 0) &&
    StatusAccepted(expectedStatus, ex.outcome.response.status)
  }

  /** The client state after `Do`, and the response, nil when the test failed. */
  datatype Dispatched = Dispatched(state: ClientState, response: Option<Response>)

  /**
    The checks `Do` makes once the request is built, in order: a refused
    redirect hop, a transport error, an expected redirect that did not happen,
    then the status policy. The first failed check is the first report. A
    self-testing sink (`selfTest`, whose `FailNow` returns) also sees the error
    the refused hop makes the HTTP client return, and is told
    "ASSERTION NOT MET" when nothing failed.
   */
  function Decide(st: ClientState, selfTest: bool, ex: Exchange): (d: Dispatched)
    ensures d.response.Some? <==> Passes(st.expectRedirectPath, st.expectedStatus, ex)
    ensures d.response.Some? ==> d.response == Some(ex.outcome.response)
    ensures d.response.Some? ==>
      d.state.reported == st.reported + (if selfTest then [Report(AssertionNotMetFormat, [])] else [])
    ensures d.response.None? ==> |d.state.reported| > |st.reported| && d.state.err.Some?
    ensures st.reported <= d.state.reported
    ensures !AllHopsTo(ex.hops, st.expectRedirectPath) ==>
      var refused := Report(RedirectMismatchFormat,
        [StrArg(st.expectRedirectPath), StrArg(FirstMismatch(ex.hops, st.expectRedirectPath).value)]);
      d.state.reported == st.reported + [refused] +
        (if selfTest then [Report(NoErrorFormat, [ErrArg(Formatted(refused))])] else [])
    ensures AllHopsTo(ex.hops, st.expectRedirectPath) && ex.outcome.TransportError? ==>
      d.state.reported == st.reported + [Report(NoErrorFormat, [ErrArg(Foreign(ex.outcome.cause))])]
    ensures (AllHopsTo(ex.hops, st.expectRedirectPath) && ex.outcome.Completed? &&
             st.expectRedirectPath != "" && |ex.hops| == 0) ==>
      d.state.reported == st.reported + [Report(NoRedirectFormat, [StrArg(st.expectRedirectPath)])]
    ensures (AllHopsTo(ex.hops, st.expectRedirectPath) && ex.outcome.Completed? &&
             (st.expectRedirectPath != "" ==> |ex.hops| > 0) &&
             st.expectedStatus == 0 && ex.outcome.response.status >= 400) ==>
      d.state.reported == st.reported + [Report(ExpectedSuccessFormat, [IntArg(ex.outcome.response.status)])]
    ensures (AllHopsTo(ex.hops, st.expectRedirectPath) && ex.outcome.Completed? &&
             (st.expectRedirectPath != "" ==> |ex.hops| > 0) &&
             st.expectedStatus > 0 && ex.outcome.response.status != st.expectedStatus) ==>
      d.state.reported == st.reported +
        [Report(ExpectedStatusFormat, [IntArg(st.expectedStatus), IntArg(ex.outcome.response.status)])]
    ensures d.state == st.(err := d.state.err, reported := d.state.reported)
    ensures Consistent(st) ==> Consistent(d.state)
  {
    var path := st.expectRedirectPath;
    match FirstMismatch(ex.hops, path)
    case Some(hop) =>
      var rep := Report(RedirectMismatchFormat, [StrArg(path), StrArg(hop)]);
      var failed := Fail(st, rep);
      Dispatched(if selfTest then ErrorReported(failed, Formatted(rep)) else failed, None)
    case None =>
      match ex.outcome
      case TransportError(cause) => Dispatched(ErrorReported(st, Foreign(cause)), None)
      case Completed(resp) =>
        if path != "" && |ex.hops| == 0 then
          Dispatched(Fail(st, Report(NoRedirectFormat, [StrArg(path)])), None)
        else if st.expectedStatus == 0 && resp.status >= 400 then
          Dispatched(Fail(st, Report(ExpectedSuccessFormat, [IntArg(resp.status)])), None)
        else if st.expectedStatus > 0 && st.expectedStatus != resp.status then
          Dispatched(Fail(st, Report(ExpectedStatusFormat, [IntArg(st.expectedStatus), IntArg(resp.status)])), None)
        else if selfTest then Dispatched(Fail(st, Report(AssertionNotMetFormat, [])), Some(resp))
        else Dispatched(st, Some(resp))
  }

  /** `Do(server)`: build against the server's URL, then decide. A stored error sends nothing. */
  function Dispatch(st: ClientState, selfTest: bool, serverURL: string, requestError: Option<string>, ex: Exchange): (d: Dispatched)
    ensures st.err.Some? ==> d == Dispatched(st, None)
    ensures st.err.None? && requestError.None? ==>
      (d.response.Some? <==> Passes(st.expectRedirectPath, st.expectedStatus, ex))
    ensures requestError.Some? ==> d.response.None?
    ensures st.reported <= d.state.reported
    ensures Consistent(st) ==> Consistent(d.state)
  {
    var b := Build(st, serverURL, requestError);
    if b.request.None? then Dispatched(b.state, None) else Decide(b.state, selfTest, ex)
  }

  /** The client state after `DoSimple`, and what it returns. */
  datatype SimpleDispatched = SimpleDispatched(state: ClientState, response: SimpleResponse)

  /**
    `DoSimple(server)`: `Do`, then the body is read to a string. A failed
    exchange or a failed read gives the zero response.
   */
  function DispatchSimple(st: ClientState, selfTest: bool, serverURL: string, requestError: Option<string>, ex: Exchange): (d: SimpleDispatched)
    ensures
      var done := Dispatch(st, selfTest, serverURL, requestError, ex);
      (done.response.Some? && done.response.value.body.Read? ==>
        d == SimpleDispatched(done.state,
          SimpleResponse(done.response.value.header, done.response.value.body.text, done.response.value.status))) &&
      (done.response.Some? && done.response.value.body.ReadFailed? ==>
        d.response == NoSimpleResponse &&
        d.state.reported == done.state.reported + [Report(NoErrorFormat, [ErrArg(Foreign(done.response.value.body.cause))])]) &&
      (done.response.None? ==> d == SimpleDispatched(done.state, NoSimpleResponse))
    ensures Consistent(st) ==> Consistent(d.state)
  {
    var done := Dispatch(st, selfTest, serverURL, requestError, ex);
    match done.response
    case None => SimpleDispatched(done.state, NoSimpleResponse)
    case Some(resp) =>
      match resp.body
      case ReadFailed(cause) => SimpleDispatched(ErrorReported(done.state, Foreign(cause)), NoSimpleResponse)
      case Read(text) => SimpleDispatched(done.state, SimpleResponse(resp.header, text, resp.status))
  }

  /** A fresh client builds `GET <base>/` with exactly the two default headers and no body. */
  lemma NewClientRequest(baseURL: string)
    ensures Build(Initial(), baseURL, None).request ==
      Some(Request("GET", baseURL + "/",
        map["Accept" := [ContentTypeApplicationJson], "User-Agent" := [UserAgent]], NoBody, Background))
  {
    var st := Initial();
    assert "Accept" != ContentTypeHeader && "User-Agent" != ContentTypeHeader;
  }

  /**
    Building is idempotent: building again from the state a successful build
    left gives the same request and changes nothing more.
   */
  lemma BuildTwice(st: ClientState, baseURL: string)
    requires st.err.None?
    ensures Build(Build(st, baseURL, None).state, baseURL, None) == Build(st, baseURL, None)
  {
    var b := Build(st, baseURL, None);
    var h := b.state.header;
    if |st.form| == 0 && st.body != NoBody && Get(st.header, ContentTypeHeader) == "" {
      assert Get(h, ContentTypeHeader) == DefaultContentType;
    }
    assert RequestHeaders(h, st.form, st.body) == h;
  }

  /** `BodyJSON(nil)` followed by a build: the nil report is the only one and no request is made. */
  lemma NilPayloadBlocksRequest(st: ClientState, nonHalting: bool, baseURL: string, requestError: Option<string>)
    requires st.err.None? && st.reported == []
    ensures
      var b := Build(WithJsonBody(st, NilPayload, nonHalting), baseURL, requestError);
      b.request.None? && b.state.reported == [Report(NilPayloadFormat, [])]
  {
  }

  /** Once an error is stored no later `Do` sends anything or reports anything. */
  lemma StickyError(st: ClientState, selfTest: bool, status: int, args: seq<string>, serverURL: string, requestError: Option<string>, ex: Exchange)
    requires st.err.Some?
    ensures WithExpectedStatus(st, status).err.Some? && WithFormData(st, args).err.Some?
    ensures
      var later := WithFormData(WithExpectedStatus(st, status), args);
      Dispatch(later, selfTest, serverURL, requestError, ex) == Dispatched(later, None)
  {
  }

  /**
    A `Client`. `selfTest` says that the test sink is the self-test double,
    whose `FailNow` returns instead of ending the test.
   */
  class Client {
    const selfTest: bool
    var httpMethod: string
    var url: string
    var header: Values
    var body: Body
    var form: Values
    var context: RequestContext
    var expectedStatus: int
    var err: Option<GoError>
    var expectRedirectPath: string
    /** The reports the test sink received, oldest first. */
    var reported: seq<Report>

    function State(): ClientState
      reads this
    {
      ClientState(httpMethod, url, header, body, form, context, expectedStatus, err, expectRedirectPath, reported)
    }

    predicate Valid()
      reads this
    {
      Consistent(State())
    }

    /** `New`. */
    constructor (selfTest: bool)
      ensures this.selfTest == selfTest && State() == Initial() && Valid()
    {
      this.selfTest := selfTest;
      var h: Values := map[];
      h := Set(h, "Accept", ContentTypeApplicationJson);
      h := Set(h, "User-Agent", UserAgent);
      httpMethod, url, header, body, form := "GET", "/", h, NoBody, map[];
      context, expectedStatus, err, expectRedirectPath, reported := Background, 0, None, "", [];
    }

    /** `failNow(format, args...)`. */
    method FailNow(format: string, args: seq<FmtArg>)
      requires Valid()
      modifies this
      ensures State() == Fail(old(State()), Report(format, args)) && Valid()
    {
      err := Some(Formatted(Report(format, args)));
      reported := reported + [Report(format, args)];
    }

    /** `hasError(err)`: true, after reporting, exactly when there is an error. */
    method HasError(e: Option<GoError>) returns (failed: bool)
      requires Valid()
      modifies this
      ensures failed == e.Some?
      ensures State() == (if e.Some? then ErrorReported(old(State()), e.value) else old(State())) && Valid()
    {
      if e.Some? {
        FailNow(NoErrorFormat, [ErrArg(e.value)]);
        return true;
      }
      return false;
    }

    method Context(ctx: RequestContext)
      modifies this
      ensures State() == old(State()).(context := ctx)
    {
      context := ctx;
    }

    method ExpectedStatusCode(status: int)
      requires Valid()
      modifies this
      ensures State() == WithExpectedStatus(old(State()), status) && Valid()
    {
      if 300 <= status < 400 {
        FailNow(MisuseFormat, [IntArg(status)]);
        return;
      }
      expectedStatus := status;
    }

    method ExpectRedirectTo(path: string)
      modifies this
      ensures State() == old(State()).(expectRedirectPath := path)
    {
      expectRedirectPath := path;
    }

    method Method(m: string)
      modifies this
      ensures State() == old(State()).(httpMethod := m)
    {
      httpMethod := m;
    }

    /** `URL(format, args...)`, given the string `fmt.Sprintf` makes of them. */
    method URL(formatted: string)
      modifies this
      ensures State() == old(State()).(url := formatted)
    {
      url := formatted;
    }

    method Get(formatted: string)
      modifies this
      ensures State() == old(State()).(httpMethod := "GET", url := formatted)
    {
      Method("GET");
      URL(formatted);
    }

    method Post(formatted: string)
      modifies this
      ensures State() == old(State()).(httpMethod := "POST", url := formatted)
    {
      Method("POST");
      URL(formatted);
    }

    method Put(formatted: string)
      modifies this
      ensures State() == old(State()).(httpMethod := "PUT", url := formatted)
    {
      Method("PUT");
      URL(formatted);
    }

    method Patch(formatted: string)
      modifies this
      ensures State() == old(State()).(httpMethod := "PATCH", url := formatted)
    {
      Method("PATCH");
      URL(formatted);
    }

    method Delete(formatted: string)
      modifies this
      ensures State() == old(State()).(httpMethod := "DELETE", url := formatted)
    {
      Method("DELETE");
      URL(formatted);
    }

    /**
      `Header(name, value, more...)`: `Set` the first value, then `Add` each
      further one, so `name` ends up with exactly these values.
     */
    method Header(name: string, value: string, more: seq<string>)
      modifies this
      ensures State() == old(State()).(header := old(header)[name := [value] + more])
    {
      header := Set(header, name, value);
      assert [value] + more[..0] == [value];
      var i := 0;
      while i < |more|
        invariant 0 <= i <= |more|
        invariant header == old(header)[name := [value] + more[..i]]
        invariant State() == old(State()).(header := header)
      {
        assert ([value] + more[..i]) + [more[i]] == [value] + more[..i + 1];
        header := Add(header, name, more[i]);
        i := i + 1;
      }
      assert more[..i] == more;
    }

    method FormData(args: seq<string>)
      requires Valid()
      modifies this
      ensures State() == WithFormData(old(State()), args) && Valid()
    {
      if |args| % 2 != 0 {
        FailNow(OddPairsFormat, [IntArg(|args|)]);
        return;
      }
      var i := 0;
      while i < |args|
        invariant 0 <= i <= |args| && i % 2 == 0
        invariant form == AddPairs(old(form), args[..i])
        invariant State() == old(State()).(form := form)
      {
        assert args[..i + 2][..i] == args[..i];
        form := Add(form, args[i], args[i + 1]);
        i := i + 2;
      }
      assert args[..i] == args;
      body := FormEncoded(form);
    }

    /** `ClearHeaders`: no header is left, not even the defaults. */
    method ClearHeaders()
      modifies this
      ensures State() == old(State()).(header := map[])
    {
      header := map[];
    }

    method BodyBytes(bytes: seq<byte>)
      modifies this
      ensures State() == old(State()).(body := Raw(bytes))
    {
      body := Raw(bytes);
    }

    method BodyString(text: string)
      modifies this
      ensures State() == old(State()).(body := Text(text))
    {
      body := Text(text);
    }

    method BodyJSON(payload: Payload)
      requires Valid()
      modifies this
      ensures State() == WithJsonBody(old(State()), payload, selfTest) && Valid()
    {
      match payload
      case NilPayload =>
        FailNow(NilPayloadFormat, []);
        if selfTest {
          err := Some(NilBodyJSON);
        }
      case FailsToEncode(cause) =>
        var _ := HasError(Some(Foreign(cause)));
      case Encodes(bytes) =>
        BodyBytes(bytes);
    }

    /** `buildRequest(baseURL)`; `requestError` stands for a failing `http.NewRequestWithContext`. */
    method BuildRequestWith(baseURL: string, requestError: Option<string>) returns (req: Option<Request>)
      requires Valid()
      modifies this
      ensures Built(State(), req) == Build(old(State()), baseURL, requestError) && Valid()
    {
      if err.Some? {
        return None;
      }
      var urlPath := JoinPath(baseURL, url);
      if |form| > 0 && httpMethod == "" {
        Method("POST");
      }
      var failed := HasError(if requestError.Some? then Some(Foreign(requestError.value)) else None);
      if failed {
        return None;
      }
      if |form| > 0 {
        header := Set(header, ContentTypeHeader, FormContentType);
      } else if body != NoBody && Multimap.Get(header, ContentTypeHeader) == "" {
        header := Set(header, ContentTypeHeader, DefaultContentType);
      }
      var sent := if httpMethod == "" then "GET" else httpMethod;
      return Some(Request(sent, urlPath, header, body, context));
    }

    /** `BuildRequest`: a request against the empty base URL. */
    method BuildRequest(requestError: Option<string>) returns (req: Option<Request>)
      requires Valid()
      modifies this
      ensures Built(State(), req) == Build(old(State()), "", requestError) && Valid()
    {
      req := BuildRequestWith("", requestError);
    }

    /**
      `Do(server)`. The HTTP client's redirect loop is the loop over the hops:
      each hop is checked against `expectRedirectPath` and sets the
      `wasRedirected` flag.
     */
    method Do(serverURL: string, requestError: Option<string>, ex: Exchange) returns (resp: Option<Response>)
      requires Valid()
      modifies this
      ensures Dispatched(State(), resp) == Dispatch(old(State()), selfTest, serverURL, requestError, ex) && Valid()
    {
      var req := BuildRequestWith(serverURL, requestError);
      if req.None? {
        return None;
      }
      ghost var built := State();
      var wasRedirected := false;
      var i := 0;
      while i < |ex.hops|
        invariant 0 <= i <= |ex.hops|
        invariant forall j :: 0 <= j < i ==> ex.hops[j] == expectRedirectPath
        invariant wasRedirected == (i > 0)
        invariant State() == built
      {
        if ex.hops[i] != expectRedirectPath {
          FirstMismatchAt(ex.hops, expectRedirectPath, i);
          var path, hop := expectRedirectPath, ex.hops[i];
          FailNow(RedirectMismatchFormat, [StrArg(path), StrArg(hop)]);
          if selfTest {
            var _ := HasError(Some(Formatted(Report(RedirectMismatchFormat, [StrArg(path), StrArg(hop)]))));
          }
          return None;
        }
        wasRedirected := true;
        i := i + 1;
      }
      match ex.outcome
      case TransportError(cause) =>
        var _ := HasError(Some(Foreign(cause)));
        return None;
      case Completed(r) =>
        if expectRedirectPath != "" && !wasRedirected {
          FailNow(NoRedirectFormat, [StrArg(expectRedirectPath)]);
          return None;
        }
        if expectedStatus == 0 && r.status >= 400 {
          FailNow(ExpectedSuccessFormat, [IntArg(r.status)]);
          return None;
        } else if expectedStatus > 0 && expectedStatus != r.status {
          FailNow(ExpectedStatusFormat, [IntArg(expectedStatus), IntArg(r.status)]);
          return None;
        }
        if selfTest {
          FailNow(AssertionNotMetFormat, []);
        }
        return Some(r);
    }

    /** `DoSimple(server)`. */
    method DoSimple(serverURL: string, requestError: Option<string>, ex: Exchange) returns (simple: SimpleResponse)
      requires Valid()
      modifies this
      ensures SimpleDispatched(State(), simple) == DispatchSimple(old(State()), selfTest, serverURL, requestError, ex) && Valid()
    {
      var resp := Do(serverURL, requestError, ex);
      if resp.None? {
        return NoSimpleResponse;
      }
      match resp.value.body
      case ReadFailed(cause) =>
        var _ := HasError(Some(Foreign(cause)));
        return NoSimpleResponse;
      case Read(text) =>
        return SimpleResponse(resp.value.header, text, resp.value.status);
    }
  }
}
