/** The "Playcheck Regulation – limited to the base game" service: it accepts every request and reports the
    fixed flow [9, 10, 1] (SettingsButton, PaytableButton, SpinButton) with all of its checks passed. */
module PlaycheckService {
  import opened Values
  import opened Environment
  import opened TestIds
  import opened BaseService

  const TestType: string := "Playcheck Regulation – limited to the base game"

  const Flow: seq<int> := [9, 10, 1]

  /** Every request is accepted. */
  function ValidateRequest(req: TestExecutionRequest): (ok: bool)
    ensures ok
  {
    true
  }

  /** `execute_test`: nothing in the try block can raise, so the result is
      always the success response, with id "playcheck_<hash(game_url) % 10000>". */
  function Execute(req: TestExecutionRequest, env: Env): (r: TestExecutionResponse)
    ensures r.status == "success"
    ensures r.message == "Playcheck Regulation test completed successfully for URL: " + req.gameUrl
    ensures IsHashId(r.testId, "playcheck_")
    ensures r.results.Keys == {"base_game_only", "bonus_features_disabled", "spin_limits_applied", "compliance_verified", "test_flow", "flow_description"}
    ensures r.results["test_flow"] == IntList(Flow)
    ensures forall k :: k in r.results && k != "test_flow" && k != "flow_description" ==> r.results[k] == VBool(true)
  {
    TestExecutionResponse(
      "success", "Playcheck Regulation test completed successfully for URL: " + req.gameUrl,
      HashSuffixId("playcheck_", env.pyHash(req.gameUrl)), env.elapsed,
      map[
          "base_game_only" := VBool(true),
          "bonus_features_disabled" := VBool(true),
          "spin_limits_applied" := VBool(true),
          "compliance_verified" := VBool(true),
          "test_flow" := IntList(Flow),
          "flow_description" := VStr("Settings -> Paytable -> Spin Button")])
  }
}
