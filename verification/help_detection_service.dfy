/** The "Help File Detection" service: it checks that a non-empty action
    list was supplied and reports that none of its actions were executed. */
module HelpDetectionService {
  import opened Values
  import opened BaseService

  const TestType: string := "Help File Detection"

  const ScriptMissingMessage: string := "Missing or invalid 'help_detection_script' in request additional_params."

  /** `help_detection_script` is present, a list, and not empty. */
  predicate HasScript(params: map<string, Value>)
  {
    var s := Get(params, "help_detection_script", VNone);
    Truthy(s) && s.VList?
  }

  /** `execute_test`: the guard, then a loop that only logs, so
      `actions_executed` stays empty whatever the script holds. */
  function Execute(req: TestExecutionRequest): (r: TestExecutionResponse)
    ensures r.executionTime == 0.0
    ensures r.status == "success" <==>
      ("help_detection_script" in req.additionalParams
       && req.additionalParams["help_detection_script"].VList?
       && req.additionalParams["help_detection_script"].items != [])
    ensures r.status == "success" ==> r.testId == "help_detection" && r.results == map["actions_executed" := VList([])]
    ensures r.status != "success" ==>
      && r.status == "error" && r.testId == "help_detection_error"
      && r.results == map["error" := VStr("Missing or invalid 'help_detection_script'")]
  {
    if !HasScript(req.additionalParams) then
      TestExecutionResponse("error", ScriptMissingMessage, "help_detection_error", 0.0,
                            map["error" := VStr("Missing or invalid 'help_detection_script'")])
    else
      TestExecutionResponse("success", "Help file detection script execution completed.", "help_detection", 0.0,
                            map["actions_executed" := VList([])])
  }
}
