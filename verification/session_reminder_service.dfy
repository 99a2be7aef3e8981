/** The "Session Reminder" service: the first selected test case picks one
    of four scripts. The if/elif chain has no else, so any other case leaves
    the script variable unbound and the call ends in the error response. */
module SessionReminderService {
  import opened Wrappers
  import opened Values
  import opened Environment
  import opened TestIds
  import opened BaseService

  const TestType: string := "Session Reminder"

  const Cases: set<string> := {"sr_001", "sr_002", "sr_003", "sr_004"}

  /** Python 3.11's text for reading the unbound `SR_script`. */
  const UnboundScriptMessage: string :=
    "cannot access local variable 'SR_script' where it is not associated with a value"

  /** Every request is accepted. */
  function ValidateRequest(req: TestExecutionRequest): (ok: bool)
    ensures ok
  {
    true
  }

  /** The if/elif chain on the sub-test id; None when no branch is taken. */
  function ScriptFor(subTestId: Value): (s: Option<Script>)
    ensures s.Some? <==> subTestId.VStr? && subTestId.s in Cases
    ensures s.Some? ==> s.value == SessionReminderCase(subTestId.s)
  {
    if subTestId == VStr("sr_001") then Some(SessionReminderCase("sr_001"))
    else if subTestId == VStr("sr_002") then Some(SessionReminderCase("sr_002"))
    else if subTestId == VStr("sr_003") then Some(SessionReminderCase("sr_003"))
    else if subTestId == VStr("sr_004") then Some(SessionReminderCase("sr_004"))
    else None
  }

  function SelectedScript(params: map<string, Value>): (r: Result<Script, string>)
    ensures r.Success? <==> FirstSelectedCase(params).Success? && ScriptFor(FirstSelectedCase(params).value).Some?
  {
    match FirstSelectedCase(params)
    case Failure(e) => Failure(e)
    case Success(subTestId) =>
      match ScriptFor(subTestId)
      case Some(script) => Success(script)
      case None => Failure(UnboundScriptMessage)
  }

  /** `execute_test`. */
  function Execute(req: TestExecutionRequest, env: Env): (r: TestExecutionResponse)
    ensures r.status == "success" <==>
      exists c :: c in Cases && FirstSelectedCase(req.additionalParams) == Success(VStr(c))
    ensures r.status == "success" ==>
      && r.message == "Regression test prepared for URL: " + req.gameUrl
      && r.testId == MakeStableTestId(TestType, req.gameUrl, env.timestamp, env.sha256Hex)
      && r.testId[..17] == "session_reminder_" && |r.testId| == 29
      && r.results.Keys == {"core_features_working", "no_critical_errors", "ui_elements_present",
                            "flow_description", "script"}
      && r.results["core_features_working"] == VBool(true)
      && r.results["no_critical_errors"] == VBool(true)
      && r.results["ui_elements_present"] == VBool(true)
      && r.results["script"] == VScript(SessionReminderCase(FirstSelectedCase(req.additionalParams).value.s))
      && r.results["flow_description"] == VStr("Load Game -> Spin Button -> Win Animation -> Collect Button")
      && r.executionTime == env.elapsed
    ensures SelectedScript(req.additionalParams).Failure? ==>
      r == ErrorResponse("session_reminder_error_", "Session Reminder test",
                         SelectedScript(req.additionalParams).error, env.pyHash(req.gameUrl), env.elapsed)
    ensures r.status == "error" ==>
      && IsHashId(r.testId, "session_reminder_error_")
      && r.results == map["error" := VStr(SelectedScript(req.additionalParams).error)]
    ensures FirstSelectedCase(req.additionalParams).Success? && r.status == "error" ==>
      r.results == map["error" := VStr(UnboundScriptMessage)]
  {
    StableIdPrefixes();
    match SelectedScript(req.additionalParams)
    case Failure(e) =>
      ErrorResponse("session_reminder_error_", "Session Reminder test", e, env.pyHash(req.gameUrl), env.elapsed)
    case Success(script) =>
      TestExecutionResponse(
        "success", "Regression test prepared for URL: " + req.gameUrl,
        MakeStableTestId(TestType, req.gameUrl, env.timestamp, env.sha256Hex), env.elapsed,
        map["core_features_working" := VBool(true),
            "no_critical_errors" := VBool(true),
            "ui_elements_present" := VBool(true),
            "flow_description" := VStr("Load Game -> Spin Button -> Win Animation -> Collect Button"),
            "script" := VScript(script)])
  }

  /** A case outside sr_001..sr_004, such as "sr_005", is an error. */
  lemma UnknownCaseFails(req: TestExecutionRequest, env: Env)
    requires req.additionalParams == map["selectedTestCases" := VList([VStr("sr_005")])]
    ensures Execute(req, env).status == "error"
    ensures Execute(req, env).results == map["error" := VStr(UnboundScriptMessage)]
  {
    assert FirstSelectedCase(req.additionalParams) == Success(VStr("sr_005"));
  }
}
