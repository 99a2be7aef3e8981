/** The "Banking" service: it accepts every request and reports the
    fixed flow [9, 7, 6] (SettingsButton, BetSettingsButton, PurchaseButton) with all of its checks passed. */
module BankingService {
  import opened Values
  import opened Environment
  import opened TestIds
  import opened BaseService

  const TestType: string := "Banking"

  const Flow: seq<int> := [9, 7, 6]

  /** Every request is accepted. */
  function ValidateRequest(req: TestExecutionRequest): (ok: bool)
    ensures ok
  {
    true
  }

  /** `execute_test`: nothing in the try block can raise, so the result is
      always the success response, with id "banking_<hash(game_url) % 10000>". */
  function Execute(req: TestExecutionRequest, env: Env): (r: TestExecutionResponse)
    ensures r.status == "success"
    ensures r.message == "Banking test completed successfully for URL: " + req.gameUrl
    ensures IsHashId(r.testId, "banking_")
    ensures r.results.Keys == {"deposit_functionality", "withdrawal_functionality", "balance_tracking", "transaction_logging", "security_compliance", "test_flow", "flow_description"}
    ensures r.results["test_flow"] == IntList(Flow)
    ensures forall k :: k in r.results && k != "test_flow" && k != "flow_description" ==> r.results[k] == VBool(true)
  {
    TestExecutionResponse(
      "success", "Banking test completed successfully for URL: " + req.gameUrl,
      HashSuffixId("banking_", env.pyHash(req.gameUrl)), env.elapsed,
      map[
          "deposit_functionality" := VBool(true),
          "withdrawal_functionality" := VBool(true),
          "balance_tracking" := VBool(true),
          "transaction_logging" := VBool(true),
          "security_compliance" := VBool(true),
          "test_flow" := IntList(Flow),
          "flow_description" := VStr("Settings -> Bet Settings -> Purchase Button")])
  }
}
