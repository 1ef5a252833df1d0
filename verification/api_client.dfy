/**
 * Request construction in the reporting client (`ZebrunnerApiClient`).
 *
 * Each public operation of the client is modelled by the request it builds:
 * method, path template with its route parameters, headers, query parameters
 * and body. Sending the request and mapping JSON are not part of the model.
 */
module ApiClient {
  import opened Wrappers
  import opened Text

  const ContextPath := "api/reporting"
  const ApiVersion := "v1"

  const Authorization := "Authorization"
  const ContentType := "Content-Type"
  const Accept := "Accept"
  const CapturedAtHeader := "x-zbr-screenshot-captured-at"
  const Json := "application/json"
  const Png := "image/png"

  /** The fixed text between the host and an endpoint path. */
  const BasePath := "/" + ContextPath + "/" + ApiVersion + "/"

  datatype Method = Get | Post | Put

  /** A path template: literal text and `{name}` placeholders. */
  datatype Segment = Lit(text: string) | Hole(name: string)

  type Header = (string, string)

  /** Test run and test transfer objects: only the server id matters to the
      client; the rest is the JSON body, opaque here. */
  datatype TestRunDto = TestRunDto(id: Option<int>, body: string)
  datatype TestDto = TestDto(id: Option<int>, body: string)

  datatype Body =
    | NoBody
    | RunBody(run: TestRunDto)
    | TestBody(test: TestDto)
    | LogsBody(logs: seq<string>)
    | PngBody(bytes: seq<bv8>)

  datatype Request = Request(
    verb: Method,
    template: seq<Segment>,
    routeParams: map<string, string>,
    headers: seq<Header>,
    query: seq<Header>,
    body: Body)

  /** The client: the API host and the headers fixed when it is built. */
  datatype Client = Client(apiHost: string, defaultHeaders: seq<Header>)

  /** A test status, known to the client only by its enum constant name. */
  datatype Status = Status(name: string)

  /** Enum constant names are Java identifiers: non-empty, no comma. */
  predicate ValidStatus(s: Status) {
    |s.name| > 0 && ',' !in s.name
  }

  /** The rerun filter: a CI run id plus test-id and status sets, each given as
      its elements in iteration order without repetition. */
  datatype RerunCondition = RerunCondition(runId: string, testIds: seq<int>, statuses: seq<Status>)

  // ---------------------------------------------------------------------------
  // URL and headers
  // ---------------------------------------------------------------------------

  /** `url`: `String.format("%s/%s/%s/%s", apiHost, "api/reporting", "v1", path)`. */
  function Url(apiHost: string, path: string): (r: string)
    ensures |r| == |apiHost| + |BasePath| + |path|
    ensures r[..|apiHost|] == apiHost
    ensures r[|apiHost|..|apiHost| + |BasePath|] == "/api/reporting/v1/"
    ensures r[|apiHost| + |BasePath|..] == path
  {
    apiHost + "/" + ContextPath + "/" + ApiVersion + "/" + path
  }

  /** The values of every header called `name`, in order. */
  function Values(hs: seq<Header>, name: string): seq<string>
  {
    if |hs| == 0 then []
    else (if hs[0].0 == name then [hs[0].1] else []) + Values(hs[1..], name)
  }

  lemma {:induction false} ValuesAppend(a: seq<Header>, b: seq<Header>, name: string)
    ensures Values(a + b, name) == Values(a, name) + Values(b, name)
    decreases |a|
  {
    if |a| == 0 {
      assert a + b == b;
    } else {
      var head := if a[0].0 == name then [a[0].1] else [];
      assert (a + b)[0] == a[0];
      assert (a + b)[1..] == a[1..] + b;
      ValuesAppend(a[1..], b, name);
      assert Values(a + b, name) == head + (Values(a[1..], name) + Values(b, name));
    }
  }

  lemma AppendedHeaderValues(hs: seq<Header>, name: string, value: string)
    ensures Values(hs + [(name, value)], name) == Values(hs, name) + [value]
    ensures forall other | other != name :: Values(hs + [(name, value)], other) == Values(hs, other)
  {
    var h := [(name, value)];
    assert h[1..] == [];
    assert Values(h, name) == [value];
    ValuesAppend(hs, h, name);
    forall other | other != name ensures Values(hs + h, other) == Values(hs, other) {
      ValuesAppend(hs, h, other);
      assert Values(h, other) == [];
    }
  }

  /** `header`: one more header, the existing ones kept. */
  function AddHeader(hs: seq<Header>, name: string, value: string): (r: seq<Header>)
    ensures Values(r, name) == Values(hs, name) + [value]
    ensures forall other | other != name :: Values(r, other) == Values(hs, other)
  {
    AppendedHeaderValues(hs, name, value);
    hs + [(name, value)]
  }

  function RemoveHeader(hs: seq<Header>, name: string): (r: seq<Header>)
    ensures Values(r, name) == []
    ensures forall other | other != name :: Values(r, other) == Values(hs, other)
    decreases |hs|
  {
    if |hs| == 0 then []
    else if hs[0].0 == name then RemoveHeader(hs[1..], name)
    else [hs[0]] + RemoveHeader(hs[1..], name)
  }

  /** `headerReplace`: every header called `name` gives way to one with `value`. */
  function ReplaceHeader(hs: seq<Header>, name: string, value: string): (r: seq<Header>)
    ensures Values(r, name) == [value]
    ensures forall other | other != name :: Values(r, other) == Values(hs, other)
  {
    AddHeader(RemoveHeader(hs, name), name, value)
  }

  /** `initClient`: bearer authorisation and JSON content negotiation on every request. */
  function NewClient(hostname: string, accessToken: string): (c: Client)
    ensures c.apiHost == hostname
    ensures Values(c.defaultHeaders, Authorization) == ["Bearer " + accessToken]
    ensures Values(c.defaultHeaders, ContentType) == [Json]
    ensures Values(c.defaultHeaders, Accept) == [Json]
    ensures forall other | other !in {Authorization, ContentType, Accept} :: Values(c.defaultHeaders, other) == []
  {
    var h0 := AddHeader([], Authorization, "Bearer " + accessToken);
    var h1 := AddHeader(h0, ContentType, Json);
    Client(hostname, AddHeader(h1, Accept, Json))
  }

  // ---------------------------------------------------------------------------
  // Route resolution
  // ---------------------------------------------------------------------------

  /** `routeParam` substitution: each placeholder takes its parameter's value;
      a placeholder without one is left as written. */
  function Resolve(template: seq<Segment>, params: map<string, string>): string
  {
    if |template| == 0 then ""
    else Resolve(template[..|template| - 1], params) + SegmentText(template[|template| - 1], params)
  }

  function SegmentText(s: Segment, params: map<string, string>): string {
    match s
    case Lit(t) => t
    case Hole(n) => if n in params then params[n] else "{" + n + "}"
  }

  // Resolution of short templates, spelled out segment by segment.
  lemma Resolve1(t: seq<Segment>, p: map<string, string>)
    requires |t| == 1
    ensures Resolve(t, p) == SegmentText(t[0], p)
  {
    assert Resolve(t[..0], p) == "";
  }

  lemma Resolve2(t: seq<Segment>, p: map<string, string>)
    requires |t| == 2
    ensures Resolve(t, p) == SegmentText(t[0], p) + SegmentText(t[1], p)
  {
    Resolve1(t[..1], p);
  }

  lemma Resolve3(t: seq<Segment>, p: map<string, string>)
    requires |t| == 3
    ensures Resolve(t, p) == SegmentText(t[0], p) + SegmentText(t[1], p) + SegmentText(t[2], p)
  {
    Resolve2(t[..2], p);
  }

  lemma Resolve4(t: seq<Segment>, p: map<string, string>)
    requires |t| == 4
    ensures Resolve(t, p) == SegmentText(t[0], p) + SegmentText(t[1], p) + SegmentText(t[2], p) + SegmentText(t[3], p)
  {
    Resolve3(t[..3], p);
  }

  lemma Resolve5(t: seq<Segment>, p: map<string, string>)
    requires |t| == 5
    ensures Resolve(t, p) == SegmentText(t[0], p) + SegmentText(t[1], p) + SegmentText(t[2], p)
                             + SegmentText(t[3], p) + SegmentText(t[4], p)
  {
    Resolve4(t[..4], p);
  }

  /** The full URL a request goes to. */
  function Target(c: Client, r: Request): string {
    Url(c.apiHost, Resolve(r.template, r.routeParams))
  }

  /** `String.valueOf(Long)`: the decimal digits, or `null` for a missing id. */
  function ValueOf(id: Option<int>): string {
    if id.Some? then Decimal(id.value) else "null"
  }

  // ---------------------------------------------------------------------------
  // The requests
  // ---------------------------------------------------------------------------

  const RunsTemplate := [Lit("test-runs")]
  const RunTemplate := [Lit("test-runs/"), Hole("testRunId")]
  const TestsTemplate := [Lit("test-runs/"), Hole("testRunId"), Lit("/tests")]
  const TestTemplate := [Lit("test-runs/"), Hole("testRunId"), Lit("/tests/"), Hole("testId")]
  const LogsTemplate := [Lit("test-runs/"), Hole("testRunId"), Lit("/logs")]
  const ScreenshotsTemplate := [Lit("test-runs/"), Hole("testRunId"), Lit("/tests/"), Hole("testId"), Lit("/screenshots")]
  const CiRunTestsTemplate := [Lit("test-runs/"), Hole("ciRunId"), Lit("/tests")]

  /** `registerTestRunStart`. */
  function RegisterTestRunStart(c: Client, run: TestRunDto): (r: Request)
    ensures r.verb == Post && r.body == RunBody(run) && r.headers == c.defaultHeaders && r.query == []
    ensures Target(c, r) == Url(c.apiHost, "test-runs")
  {
    Resolve1(RunsTemplate, map[]);
    Request(Post, RunsTemplate, map[], c.defaultHeaders, [], RunBody(run))
  }

  /** `registerTestRunFinish`: the run's own id names the resource. */
  function RegisterTestRunFinish(c: Client, run: TestRunDto): (r: Request)
    ensures r.verb == Put && r.body == RunBody(run) && r.headers == c.defaultHeaders && r.query == []
    ensures Target(c, r) == Url(c.apiHost, "test-runs/" + ValueOf(run.id))
  {
    Resolve2(RunTemplate, map["testRunId" := ValueOf(run.id)]);
    Request(Put, RunTemplate, map["testRunId" := ValueOf(run.id)], c.defaultHeaders, [], RunBody(run))
  }

  /** `registerTestStart`. */
  function RegisterTestStart(c: Client, testRunId: Option<int>, test: TestDto): (r: Request)
    ensures r.verb == Post && r.body == TestBody(test) && r.headers == c.defaultHeaders && r.query == []
    ensures Target(c, r) == Url(c.apiHost, "test-runs/" + ValueOf(testRunId) + "/tests")
  {
    Resolve3(TestsTemplate, map["testRunId" := ValueOf(testRunId)]);
    Request(Post, TestsTemplate, map["testRunId" := ValueOf(testRunId)], c.defaultHeaders, [], TestBody(test))
  }

  /** `registerTestFinish`: the test's own id names the resource. */
  function RegisterTestFinish(c: Client, testRunId: Option<int>, test: TestDto): (r: Request)
    ensures r.verb == Put && r.body == TestBody(test) && r.headers == c.defaultHeaders && r.query == []
    ensures Target(c, r) == Url(c.apiHost, "test-runs/" + ValueOf(testRunId) + "/tests/" + ValueOf(test.id))
  {
    Resolve4(TestTemplate, map["testRunId" := ValueOf(testRunId), "testId" := ValueOf(test.id)]);
    Request(Put, TestTemplate, map["testRunId" := ValueOf(testRunId), "testId" := ValueOf(test.id)],
            c.defaultHeaders, [], TestBody(test))
  }

  /** `sendLogs`: the batch keeps its order. */
  function SendLogs(c: Client, logs: seq<string>, testRunId: string): (r: Request)
    ensures r.verb == Post && r.body == LogsBody(logs) && r.headers == c.defaultHeaders && r.query == []
    ensures Target(c, r) == Url(c.apiHost, "test-runs/" + testRunId + "/logs")
  {
    Resolve3(LogsTemplate, map["testRunId" := testRunId]);
    Request(Post, LogsTemplate, map["testRunId" := testRunId], c.defaultHeaders, [], LogsBody(logs))
  }

  /** `sendScreenshot`: the single content type becomes `image/png` and the
      capture time travels as a decimal header; the other headers stay. */
  function SendScreenshot(c: Client, screenshot: seq<bv8>, testRunId: string, testId: string, capturedAt: int): (r: Request)
    ensures r.verb == Post && r.body == PngBody(screenshot) && r.query == []
    ensures Target(c, r) == Url(c.apiHost, "test-runs/" + testRunId + "/tests/" + testId + "/screenshots")
    ensures Values(r.headers, ContentType) == [Png]
    ensures Values(r.headers, CapturedAtHeader) == Values(c.defaultHeaders, CapturedAtHeader) + [Decimal(capturedAt)]
    ensures Values(r.headers, Authorization) == Values(c.defaultHeaders, Authorization)
    ensures Values(r.headers, Accept) == Values(c.defaultHeaders, Accept)
    ensures forall other | other != ContentType && other != CapturedAtHeader ::
      Values(r.headers, other) == Values(c.defaultHeaders, other)
  {
    var headers := AddHeader(ReplaceHeader(c.defaultHeaders, ContentType, Png), CapturedAtHeader, Decimal(capturedAt));
    Resolve5(ScreenshotsTemplate, map["testRunId" := testRunId, "testId" := testId]);
    Request(Post, ScreenshotsTemplate, map["testRunId" := testRunId, "testId" := testId],
            headers, [], PngBody(screenshot))
  }

  // ---------------------------------------------------------------------------
  // Rerun lookup and its query parameters
  // ---------------------------------------------------------------------------

  function DecimalAll(ids: seq<int>): (r: seq<string>)
    ensures |r| == |ids|
    ensures forall i | 0 <= i < |ids| :: r[i] == Decimal(ids[i])
  {
    if |ids| == 0 then [] else [Decimal(ids[0])] + DecimalAll(ids[1..])
  }

  function NamesAll(statuses: seq<Status>): (r: seq<string>)
    ensures |r| == |statuses|
    ensures forall i | 0 <= i < |statuses| :: r[i] == statuses[i].name
  {
    if |statuses| == 0 then [] else [statuses[0].name] + NamesAll(statuses[1..])
  }

  /** `setTestIds`: a `tests` parameter with the comma-joined ids, only when
      there are ids; every other parameter is left as it was. */
  function SetTestIds(query: seq<Header>, testIds: seq<int>): (r: seq<Header>)
    ensures Values(r, "tests") == Values(query, "tests") + (if |testIds| > 0 then [Join(DecimalAll(testIds), ',')] else [])
    ensures forall other | other != "tests" :: Values(r, other) == Values(query, other)
  {
    if |testIds| > 0 then AddHeader(query, "tests", Join(DecimalAll(testIds), ',')) else query
  }

  /** `setStatuses`: a `statuses` parameter with the comma-joined names, only
      when there are statuses; every other parameter is left as it was. */
  function SetStatuses(query: seq<Header>, statuses: seq<Status>): (r: seq<Header>)
    ensures Values(r, "statuses") == Values(query, "statuses") + (if |statuses| > 0 then [Join(NamesAll(statuses), ',')] else [])
    ensures forall other | other != "statuses" :: Values(r, other) == Values(query, other)
  {
    if |statuses| > 0 then AddHeader(query, "statuses", Join(NamesAll(statuses), ',')) else query
  }

  /** `getTestsByCiRunId`. */
  function GetTestsByCiRunId(c: Client, cond: RerunCondition): (r: Request)
    ensures r.verb == Get && r.body == NoBody && r.headers == c.defaultHeaders
    ensures Target(c, r) == Url(c.apiHost, "test-runs/" + cond.runId + "/tests")
    ensures |Values(r.query, "tests")| <= 1 && |Values(r.query, "statuses")| <= 1
    ensures Values(r.query, "tests") != [] <==> |cond.testIds| > 0
    ensures Values(r.query, "statuses") != [] <==> |cond.statuses| > 0
    ensures |cond.testIds| > 0 ==> Values(r.query, "tests") == [Join(DecimalAll(cond.testIds), ',')]
    ensures |cond.statuses| > 0 ==> Values(r.query, "statuses") == [Join(NamesAll(cond.statuses), ',')]
    ensures forall other | other != "tests" && other != "statuses" :: Values(r.query, other) == []
  {
    var query := SetStatuses(SetTestIds([], cond.testIds), cond.statuses);
    Resolve3(CiRunTestsTemplate, map["ciRunId" := cond.runId]);
    Request(Get, CiRunTestsTemplate, map["ciRunId" := cond.runId], c.defaultHeaders, query, NoBody)
  }

  /** Reads a `tests` value back into ids. */
  function ParseIds(pieces: seq<string>): seq<Option<int>>
  {
    if |pieces| == 0 then [] else [ParseDecimal(pieces[0])] + ParseIds(pieces[1..])
  }

  function SomeAll(ids: seq<int>): (r: seq<Option<int>>)
    ensures |r| == |ids| && forall i | 0 <= i < |ids| :: r[i] == Some(ids[i])
  {
    if |ids| == 0 then [] else [Some(ids[0])] + SomeAll(ids[1..])
  }

  /** Splitting the `tests` value on commas and reading each piece gives back
      exactly the requested ids, in iteration order. */
  lemma {:induction false} TestIdsRoundTrip(ids: seq<int>)
    requires |ids| > 0
    ensures Split(Join(DecimalAll(ids), ','), ',') == DecimalAll(ids)
    ensures ParseIds(Split(Join(DecimalAll(ids), ','), ',')) == SomeAll(ids)
  {
    var pieces := DecimalAll(ids);
    forall i | 0 <= i < |pieces| ensures ',' !in pieces[i] {
      assert forall k | 0 <= k < |pieces[i]| :: IsDigit(pieces[i][k]) || pieces[i][k] == '-';
    }
    SplitJoin(pieces, ',');
    ParseDecimalAll(ids);
  }

  lemma {:induction false} ParseDecimalAll(ids: seq<int>)
    ensures ParseIds(DecimalAll(ids)) == SomeAll(ids)
    decreases |ids|
  {
    if |ids| > 0 {
      DecimalRoundTrip(ids[0]);
      ParseDecimalAll(ids[1..]);
      assert DecimalAll(ids)[1..] == DecimalAll(ids[1..]);
    }
  }

  /** Splitting the `statuses` value on commas gives back exactly the enum names. */
  lemma StatusesRoundTrip(statuses: seq<Status>)
    requires |statuses| > 0
    requires forall i | 0 <= i < |statuses| :: ValidStatus(statuses[i])
    ensures Split(Join(NamesAll(statuses), ','), ',') == NamesAll(statuses)
  {
    SplitJoin(NamesAll(statuses), ',');
  }

  // ---------------------------------------------------------------------------
  // Every request carries the bearer token
  // ---------------------------------------------------------------------------

  datatype Call =
    | StartRun(run: TestRunDto)
    | FinishRun(run: TestRunDto)
    | StartTest(runId: Option<int>, test: TestDto)
    | FinishTest(runId: Option<int>, test: TestDto)
    | Logs(logs: seq<string>, logRunId: string)
    | Screenshot(bytes: seq<bv8>, shotRunId: string, shotTestId: string, capturedAt: int)
    | TestsByCiRun(cond: RerunCondition)

  function Build(c: Client, call: Call): Request {
    match call
    case StartRun(run) => RegisterTestRunStart(c, run)
    case FinishRun(run) => RegisterTestRunFinish(c, run)
    case StartTest(runId, test) => RegisterTestStart(c, runId, test)
    case FinishTest(runId, test) => RegisterTestFinish(c, runId, test)
    case Logs(logs, runId) => SendLogs(c, logs, runId)
    case Screenshot(bytes, runId, testId, at) => SendScreenshot(c, bytes, runId, testId, at)
    case TestsByCiRun(cond) => GetTestsByCiRunId(c, cond)
  }

  /** Whatever the operation, the request carries exactly one `Authorization:
      Bearer <token>` and one `Accept: application/json`, and exactly one
      content type: `image/png` for a screenshot, `application/json` otherwise. */
  lemma EveryRequestAuthorized(hostname: string, accessToken: string, call: Call)
    ensures var r := Build(NewClient(hostname, accessToken), call);
      && Values(r.headers, Authorization) == ["Bearer " + accessToken]
      && Values(r.headers, Accept) == [Json]
      && Values(r.headers, ContentType) == (if call.Screenshot? then [Png] else [Json])
      && Values(r.headers, CapturedAtHeader) == (if call.Screenshot? then [Decimal(call.capturedAt)] else [])
  {
    var c := NewClient(hostname, accessToken);
    match call {
      case Screenshot(bytes, runId, testId, at) =>
        var r := SendScreenshot(c, bytes, runId, testId, at);
        assert Values(r.headers, CapturedAtHeader) == [Decimal(at)];
      case StartRun(_) =>
      case FinishRun(_) =>
      case StartTest(_, _) =>
      case FinishTest(_, _) =>
      case Logs(_, _) =>
      case TestsByCiRun(_) =>
    }
  }

  /** The finish request for a test names the test by the id the server gave
      it: the text after the URL's last `/` reads back as that id. */
  lemma FinishTestAddressesTest(c: Client, testRunId: Option<int>, test: TestDto)
    requires test.id.Some?
    ensures var url := Target(c, RegisterTestFinish(c, testRunId, test));
      exists k | 0 <= k < |url| ::
        && url[k] == '/'
        && (forall j | k < j < |url| :: url[j] != '/')
        && ParseDecimal(url[k + 1..]) == test.id
  {
    var url := Target(c, RegisterTestFinish(c, testRunId, test));
    var tail := Decimal(test.id.value);
    var k := |url| - |tail| - 1;
    assert url[k + 1..] == tail;
    assert url[k] == '/';
    forall j | k < j < |url| ensures url[j] != '/' {
      assert url[j] == tail[j - k - 1];
    }
    DecimalRoundTrip(test.id.value);
  }
}
