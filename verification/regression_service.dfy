/** The "Regression" service: it hands the renderer an orchestration script
    together with the fixed class-id flow the script walks through. */
module RegressionService {
  import opened Values
  import opened Environment
  import opened TestIds
  import opened BaseService

  const TestType: string := "Regression"

  /** The class ids the regression walks through, in order. */
  const RegressionFlow: seq<int> := [0, 1, 1, 15, 7, 10, 11]

  /** A non-empty game URL is required (`game_url` is always a str). */
  function ValidateRequest(req: TestExecutionRequest): (ok: bool)
    ensures ok <==> |req.gameUrl| > 0
  {
    req.gameUrl != []
  }

  /** `execute_test`: always a success carrying the script and the flow,
      under a stable id computed from the type, the URL and the start time. */
  function Execute(req: TestExecutionRequest, env: Env): (r: TestExecutionResponse)
    ensures r.status == "success"
    ensures r.message == "Regression script generated for URL: " + req.gameUrl
    ensures r.testId == MakeStableTestId(TestType, req.gameUrl, env.timestamp, env.sha256Hex)
    ensures |r.testId| == 23 && r.testId[..11] == "regression_"
    ensures r.results.Keys == {"script", "test_flow", "flow_description"}
    ensures r.results["test_flow"] == IntList(RegressionFlow)
    ensures r.results["script"] == VScript(RegressionOrchestration)
  {
    StableIdPrefixes();
    TestExecutionResponse(
      "success", "Regression script generated for URL: " + req.gameUrl,
      MakeStableTestId(TestType, req.gameUrl, env.timestamp, env.sha256Hex), env.elapsed,
      map["script" := VScript(RegressionOrchestration),
          "test_flow" := IntList(RegressionFlow),
          "flow_description" := VStr("Orchestrated regression flow using detect + clicks")])
  }
}
