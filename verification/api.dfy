/** The browser client's HTTP layer: the request bodies it posts and the way
    it turns a failed request into the message of the error it throws. The
    HTTP transport itself (axios, base URL, interceptors that only log) is
    foreign; a request's outcome enters as a `Result`. */
module Api {
  import opened Wrappers
  import opened Text

  /** The part of an HTTP error response the client reads. */
  datatype ErrorResponse = ErrorResponse(status: int, detail: Option<string>)

  /** An axios error: the server's response, if one arrived, and the error
      code (`"ECONNABORTED"` for a timeout). */
  datatype HttpFailure = HttpFailure(response: Option<ErrorResponse>, code: string)

  const InvalidRequest := "Invalid request"
  const ServerError := "Server error. Please try again later."
  const Timeout := "Request timeout. Please check your connection."
  const NetworkError := "Network error. Please check your connection."

  /** `detail || fallback`: an absent or empty detail is falsy. */
  function DetailOr(detail: Option<string>, fallback: string): (m: string)
    ensures detail.Some? && detail.value != [] ==> m == detail.value
    ensures detail.None? || detail.value == [] ==> m == fallback
  {
    if detail.Some? && detail.value != [] then detail.value else fallback
  }

  /** `handleApiError` of the Electron client: the message of the error it
      always throws. */
  function HandleApiError(e: HttpFailure): (m: string)
    ensures e.response.Some? && e.response.value.status == 400 ==>
      m == DetailOr(e.response.value.detail, InvalidRequest)
    ensures e.response.Some? && e.response.value.status >= 500 ==> m == ServerError
    ensures ((e.response.None? || (e.response.value.status != 400 && e.response.value.status < 500))
             && e.code == "ECONNABORTED") ==> m == Timeout
    ensures e.response.Some? && e.response.value.status != 400 && e.response.value.status < 500
            && e.code != "ECONNABORTED" ==>
      m == DetailOr(e.response.value.detail, "Request failed with status " + IntToString(e.response.value.status))
    ensures e.response.None? && e.code != "ECONNABORTED" ==> m == NetworkError
  {
    if e.response.Some? && e.response.value.status == 400 then DetailOr(e.response.value.detail, InvalidRequest)
    else if e.response.Some? && e.response.value.status >= 500 then ServerError
    else if e.code == "ECONNABORTED" then Timeout
    else if e.response.Some? then
      DetailOr(e.response.value.detail, "Request failed with status " + IntToString(e.response.value.status))
    else NetworkError
  }

  /** The error handling of the web client's `submitComplianceTest`: the
      same order of checks, without the branch for other HTTP statuses. */
  function LegacyErrorMessage(e: HttpFailure): (m: string)
    ensures e.response.Some? && e.response.value.status == 400 ==>
      m == DetailOr(e.response.value.detail, InvalidRequest)
    ensures m == ServerError <==>
      (e.response.Some? && e.response.value.status >= 500)
      || (e.response.Some? && e.response.value.status == 400 && e.response.value.detail == Some(ServerError))
    ensures ((e.response.None? || (e.response.value.status != 400 && e.response.value.status < 500))
             && e.code == "ECONNABORTED") ==> m == Timeout
    ensures ((e.response.None? || (e.response.value.status != 400 && e.response.value.status < 500))
             && e.code != "ECONNABORTED") ==> m == NetworkError
  {
    if e.response.Some? && e.response.value.status == 400 then DetailOr(e.response.value.detail, InvalidRequest)
    else if e.response.Some? && e.response.value.status >= 500 then ServerError
    else if e.code == "ECONNABORTED" then Timeout
    else NetworkError
  }

  /** The two clients report every failure alike except a response with a
      status other than 400 below 500 that is not a timeout: the web client
      calls it a network error, the Electron client shows the server's
      detail or the status. */
  lemma {:induction false} ClassificationsDiffer(e: HttpFailure)
    ensures LegacyErrorMessage(e) == HandleApiError(e) <==>
      !(e.response.Some? && e.response.value.status != 400 && e.response.value.status < 500
        && e.code != "ECONNABORTED")
      || HandleApiError(e) == NetworkError
    ensures e.response.Some? && e.response.value.status != 400 && e.response.value.status < 500
            && e.code != "ECONNABORTED" ==>
      LegacyErrorMessage(e) == NetworkError
      && HandleApiError(e) == DetailOr(e.response.value.detail, "Request failed with status " + IntToString(e.response.value.status))
  {
  }

  /** The body of a POST request. */
  datatype Body =
    | RunTestBody(gameUrl: string, testType: string)
    | StepBody(testId: string, classId: int, screenshot: string, clicked: bool)

  datatype Post = Post(path: string, body: Body)

  /** `submitComplianceTest(gameUrl, testType)`: a sub-test list passed as a
      third argument is not part of the request. */
  function SubmitComplianceTest(gameUrl: string, testType: string): (p: Post)
    ensures p.path == "/run-test"
    ensures p.body.RunTestBody? && p.body.gameUrl == gameUrl && p.body.testType == testType
  {
    Post("/run-test", RunTestBody(gameUrl, testType))
  }

  /** `startRegressionTest(gameUrl)`: the same request as a compliance test
      of type "Regression". */
  function StartRegressionTest(gameUrl: string): (p: Post)
    ensures p == SubmitComplianceTest(gameUrl, "Regression")
  {
    Post("/run-test", RunTestBody(gameUrl, "Regression"))
  }

  /** `submitTestStep`: exactly the test id, the class id, the screenshot and
      the `clicked` flag of `action_result`. */
  function SubmitTestStep(testId: string, classId: int, screenshot: string, clicked: bool): (p: Post)
    ensures p.path == "/run-test-step"
    ensures p.body.StepBody? && p.body.testId == testId && p.body.classId == classId
    ensures p.body.screenshot == screenshot && p.body.clicked == clicked
  {
    Post("/run-test-step", StepBody(testId, classId, screenshot, clicked))
  }

  /** An awaited request of the Electron client: the response data, or the
      error `handleApiError` throws. */
  function Call<T>(reply: Result<T, HttpFailure>): (r: Result<T, string>)
    ensures reply.Success? <==> r.Success?
    ensures reply.Success? ==> r.value == reply.value
    ensures reply.Failure? ==> r.error == HandleApiError(reply.error)
  {
    match reply
    case Success(data) => Success(data)
    case Failure(e) => Failure(HandleApiError(e))
  }
}
