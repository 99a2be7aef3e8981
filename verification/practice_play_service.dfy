/** The "Practice Play" service: it accepts every request and reports the
    fixed flow [9, 2, 13, 1] (SettingsButton, AutoPlayButton, StartAutoPlayBtn, SpinButton) with all of its checks passed. */
module PracticePlayService {
  import opened Values
  import opened Environment
  import opened TestIds
  import opened BaseService

  const TestType: string := "Practice Play"

  const Flow: seq<int> := [9, 2, 13, 1]

  /** Every request is accepted. */
  function ValidateRequest(req: TestExecutionRequest): (ok: bool)
    ensures ok
  {
    true
  }

  /** `execute_test`: nothing in the try block can raise, so the result is
      always the success response, with id "practice_play_<hash(game_url) % 10000>". */
  function Execute(req: TestExecutionRequest, env: Env): (r: TestExecutionResponse)
    ensures r.status == "success"
    ensures r.message == "Practice Play test completed successfully for URL: " + req.gameUrl
    ensures IsHashId(r.testId, "practice_play_")
    ensures r.results.Keys == {"demo_mode_available", "no_real_money_involved", "feature_accessibility", "clear_demo_indicators", "transition_to_real_money", "test_flow", "flow_description"}
    ensures r.results["test_flow"] == IntList(Flow)
    ensures forall k :: k in r.results && k != "test_flow" && k != "flow_description" ==> r.results[k] == VBool(true)
  {
    TestExecutionResponse(
      "success", "Practice Play test completed successfully for URL: " + req.gameUrl,
      HashSuffixId("practice_play_", env.pyHash(req.gameUrl)), env.elapsed,
      map[
          "demo_mode_available" := VBool(true),
          "no_real_money_involved" := VBool(true),
          "feature_accessibility" := VBool(true),
          "clear_demo_indicators" := VBool(true),
          "transition_to_real_money" := VBool(true),
          "test_flow" := IntList(Flow),
          "flow_description" := VStr("Settings -> AutoPlay Button -> Start AutoPlay -> Spin Button")])
  }
}
