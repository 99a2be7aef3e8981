/** The request and response records every test service exchanges, with the
    defaults of their optional fields, and the error response the services'
    exception handlers build. */
module BaseService {
  import opened Wrappers
  import opened Values
  import opened TestIds

  datatype TestExecutionRequest = TestExecutionRequest(
    gameUrl: string,
    testType: string,
    additionalParams: map<string, Value>,
    imageData: Option<string>)

  datatype TestExecutionResponse = TestExecutionResponse(
    status: string,
    message: string,
    testId: string,
    executionTime: real,
    results: map<string, Value>)

  /** A request built with only the required fields. */
  function NewRequest(gameUrl: string, testType: string): (r: TestExecutionRequest)
    ensures r.gameUrl == gameUrl && r.testType == testType
    ensures r.additionalParams == map[] && r.imageData.None?
  {
    TestExecutionRequest(gameUrl, testType, map[], None)
  }

  /** A response built with only the required fields. */
  function NewResponse(status: string, message: string, testId: string): (r: TestExecutionResponse)
    ensures r.status == status && r.message == message && r.testId == testId
    ensures r.executionTime == 0.0 && r.results == map[]
  {
    TestExecutionResponse(status, message, testId, 0.0, map[])
  }

  /** The `except Exception` branch of a service: status "error", message
      "<what> failed: <error>", id "<idPrefix><hash(game_url) % 10000>". */
  function ErrorResponse(idPrefix: string, what: string, err: string, urlHash: int, elapsed: real)
    : (r: TestExecutionResponse)
    ensures r.status == "error" && r.message == what + " failed: " + err
    ensures IsHashId(r.testId, idPrefix)
    ensures r.results == map["error" := VStr(err)]
  {
    TestExecutionResponse("error", what + " failed: " + err, HashSuffixId(idPrefix, urlHash), elapsed,
                          map["error" := VStr(err)])
  }

  /** `additional_params["selectedTestCases"][0]`, or the text of the
      KeyError, IndexError or TypeError it raises. */
  function FirstSelectedCase(params: map<string, Value>): (r: Result<Value, string>)
    ensures r.Success? <==> "selectedTestCases" in params && First(params["selectedTestCases"]).Success?
    ensures r.Success? ==> r.value == First(params["selectedTestCases"]).value
    ensures "selectedTestCases" !in params ==> r == Failure("'selectedTestCases'")
    ensures "selectedTestCases" in params && params["selectedTestCases"] == VList([]) ==>
      r == Failure("list index out of range")
  {
    assert "'" + "selectedTestCases" + "'" == "'selectedTestCases'";
    match Lookup(params, "selectedTestCases")
    case Failure(e) => Failure(e)
    case Success(cases) => First(cases)
  }
}
