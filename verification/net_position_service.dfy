/** The "Net Position" service: the first selected test case picks one of
    three scripts; any other case gets the "not implemented" script. */
module NetPositionService {
  import opened Wrappers
  import opened Values
  import opened Environment
  import opened TestIds
  import opened BaseService

  const TestType: string := "Net Position"

  const Cases: set<string> := {"sr_001", "sr_002", "sr_003"}

  /** Every request is accepted. */
  function ValidateRequest(req: TestExecutionRequest): (ok: bool)
    ensures ok
  {
    true
  }

  /** The if/elif chain on the sub-test id. */
  function ScriptFor(subTestId: Value): (s: Script)
    ensures subTestId.VStr? && subTestId.s in Cases ==> s == NetPositionCase(subTestId.s)
    ensures !(subTestId.VStr? && subTestId.s in Cases) ==> s == NetPositionNotImplemented
  {
    if subTestId == VStr("sr_001") then NetPositionCase("sr_001")
    else if subTestId == VStr("sr_002") then NetPositionCase("sr_002")
    else if subTestId == VStr("sr_003") then NetPositionCase("sr_003")
    else NetPositionNotImplemented
  }

  /** `execute_test`: the selected script under a stable id, or the error
      response when the first selected case cannot be read. */
  function Execute(req: TestExecutionRequest, env: Env): (r: TestExecutionResponse)
    ensures r.status == "success" <==> FirstSelectedCase(req.additionalParams).Success?
    ensures r.status == "success" ==>
      && r.message == "Net Position test prepared for URL: " + req.gameUrl
      && r.executionTime == env.elapsed
      && r.testId == MakeStableTestId(TestType, req.gameUrl, env.timestamp, env.sha256Hex)
      && r.testId[..13] == "net_position_"
      && r.results.Keys == {"script", "flow_description"}
      && r.results["script"] == VScript(ScriptFor(FirstSelectedCase(req.additionalParams).value))
      && r.results["flow_description"] == VStr("Load Game -> Continue -> Extract Net Position -> Spin -> Verify Net Position")
    ensures FirstSelectedCase(req.additionalParams).Failure? ==>
      r == ErrorResponse("net_position_error_", "Net Position test",
                         FirstSelectedCase(req.additionalParams).error, env.pyHash(req.gameUrl), env.elapsed)
    ensures r.status == "error" ==>
      && IsHashId(r.testId, "net_position_error_")
      && r.results == map["error" := VStr(FirstSelectedCase(req.additionalParams).error)]
  {
    StableIdPrefixes();
    match FirstSelectedCase(req.additionalParams)
    case Failure(e) => ErrorResponse("net_position_error_", "Net Position test", e, env.pyHash(req.gameUrl), env.elapsed)
    case Success(subTestId) =>
      TestExecutionResponse(
        "success", "Net Position test prepared for URL: " + req.gameUrl,
        MakeStableTestId(TestType, req.gameUrl, env.timestamp, env.sha256Hex), env.elapsed,
        map["script" := VScript(ScriptFor(subTestId)),
            "flow_description" := VStr("Load Game -> Continue -> Extract Net Position -> Spin -> Verify Net Position")])
  }

  /** A selection that starts with an unknown case still succeeds, with the
      "not implemented" script; an empty selection is an error. */
  lemma UnknownCaseSucceeds(req: TestExecutionRequest, env: Env, first: string, rest: seq<Value>)
    requires req.additionalParams == map["selectedTestCases" := VList([VStr(first)] + rest)]
    ensures first !in Cases ==> Execute(req, env).status == "success"
                                && Execute(req, env).results["script"] == VScript(NetPositionNotImplemented)
    ensures first in Cases ==> Execute(req, env).results["script"] == VScript(NetPositionCase(first))
  {
  }

  lemma EmptySelectionFails(req: TestExecutionRequest, env: Env)
    requires "selectedTestCases" in req.additionalParams
    requires req.additionalParams["selectedTestCases"] == VList([])
    ensures Execute(req, env).status == "error"
    ensures Execute(req, env).results == map["error" := VStr("list index out of range")]
  {
  }
}
