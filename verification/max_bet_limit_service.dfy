/** The "Max Bet Limit Testing" service: only the case "mbl_001" has a
    script; every other case, and an empty selection, gets the "not
    implemented" script and still succeeds. */
module MaxBetLimitService {
  import opened Wrappers
  import opened Values
  import opened Environment
  import opened TestIds
  import opened BaseService

  const TestType: string := "Max Bet Limit Testing"

  /** Every request is accepted. */
  function ValidateRequest(req: TestExecutionRequest): (ok: bool)
    ensures ok
  {
    true
  }

  /** `selected_tests[0] if selected_tests else None`, with
      `selected_tests = additional_params.get("selectedTestCases", [])`. */
  function SubTestId(params: map<string, Value>): (r: Result<Value, string>)
    ensures !Truthy(Get(params, "selectedTestCases", VList([]))) ==> r == Success(VNone)
    ensures Truthy(Get(params, "selectedTestCases", VList([]))) ==> r == First(params["selectedTestCases"])
  {
    var selected := Get(params, "selectedTestCases", VList([]));
    if Truthy(selected) then First(selected) else Success(VNone)
  }

  function ScriptFor(subTestId: Value): (s: Script)
    ensures s == MaxBetCase("mbl_001") <==> subTestId == VStr("mbl_001")
    ensures subTestId != VStr("mbl_001") ==> s == MaxBetNotImplemented
  {
    if subTestId == VStr("mbl_001") then MaxBetCase("mbl_001") else MaxBetNotImplemented
  }

  /** The success response carrying `script`. */
  function Prepared(gameUrl: string, env: Env, script: Script): (r: TestExecutionResponse)
    ensures r.status == "success" && r.message == "Max bet test prepared for URL: " + gameUrl
    ensures r.executionTime == env.elapsed
    ensures r.testId == MakeStableTestId(TestType, gameUrl, env.timestamp, env.sha256Hex)
    ensures r.testId[..22] == "max_bet_limit_testing_" && |r.testId| == 34
    ensures r.results == map["script" := VScript(script)]
  {
    StableIdPrefixes();
    TestExecutionResponse(
      "success", "Max bet test prepared for URL: " + gameUrl,
      MakeStableTestId(TestType, gameUrl, env.timestamp, env.sha256Hex), env.elapsed,
      map["script" := VScript(script)])
  }

  /** `execute_test`; the error response's message reads "Help File test failed". */
  function Execute(req: TestExecutionRequest, env: Env): (r: TestExecutionResponse)
    ensures r.status == "success" <==> SubTestId(req.additionalParams).Success?
    ensures !Truthy(Get(req.additionalParams, "selectedTestCases", VList([]))) ==>
      r.status == "success" && r.results == map["script" := VScript(MaxBetNotImplemented)]
    ensures r.status == "success" ==>
      && r.message == "Max bet test prepared for URL: " + req.gameUrl
      && r.executionTime == env.elapsed
      && r.testId == MakeStableTestId(TestType, req.gameUrl, env.timestamp, env.sha256Hex)
      && r.testId[..22] == "max_bet_limit_testing_" && |r.testId| == 34
      && r.results.Keys == {"script"}
      && r.results["script"] == VScript(ScriptFor(SubTestId(req.additionalParams).value))
    ensures r.status == "error" ==>
      && IsHashId(r.testId, "max_bet_error_")
      && r.message == "Help File test failed: " + SubTestId(req.additionalParams).error
    ensures SubTestId(req.additionalParams).Failure? ==>
      r == ErrorResponse("max_bet_error_", "Help File test",
                         SubTestId(req.additionalParams).error, env.pyHash(req.gameUrl), env.elapsed)
  {
    StableIdPrefixes();
    match SubTestId(req.additionalParams)
    case Failure(e) => ErrorResponse("max_bet_error_", "Help File test", e, env.pyHash(req.gameUrl), env.elapsed)
    case Success(subTestId) => Prepared(req.gameUrl, env, ScriptFor(subTestId))
  }

  /** "mbl_002" is listed in the client but has no script here. */
  lemma OnlyFirstCaseImplemented(req: TestExecutionRequest, env: Env)
    requires req.additionalParams == map["selectedTestCases" := VList([VStr("mbl_002"), VStr("mbl_001")])]
    ensures Execute(req, env).status == "success"
    ensures Execute(req, env).results["script"] == VScript(MaxBetNotImplemented)
  {
  }

  /** A selection that cannot be indexed, such as a non-empty dictionary, is
      the error path. */
  lemma UnindexableSelectionFails(req: TestExecutionRequest, env: Env)
    requires req.additionalParams == map["selectedTestCases" := VDict(map["a" := VInt(1)])]
    ensures Execute(req, env).status == "error"
    ensures Execute(req, env).results == map["error" := VStr("0")]
  {
    var selected := req.additionalParams["selectedTestCases"];
    assert "a" in selected.entries;
    assert Truthy(selected);
  }
}
