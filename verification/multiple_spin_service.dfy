/** The "Multiple Spin Test" service: it reports the fixed flow of settings,
    bet settings and five spins, and, when a screenshot is attached, runs the
    detector on it without letting an image failure fail the test. */
module MultipleSpinService {
  import opened Wrappers
  import opened Values
  import opened Yolo
  import opened Environment
  import opened TestIds
  import opened BaseService

  const TestType: string := "Multiple Spin Test – limited to the base game"

  const Flow: seq<int> := [9, 7, 1, 1, 1, 1, 1]

  /** `hasattr(request, 'image_data') and request.image_data` */
  predicate ImageGiven(req: TestExecutionRequest)
  {
    req.imageData.Some? && req.imageData.value != []
  }

  /** Without image data every request is valid; with it, the data must be
      base64-decodable as sent (the data-URL prefix is not removed here). */
  function ValidateRequest(req: TestExecutionRequest, b64Decodes: string -> bool): (ok: bool)
    ensures !ImageGiven(req) ==> ok
    ensures ImageGiven(req) ==> (ok <==> b64Decodes(req.imageData.value))
  {
    if ImageGiven(req) then b64Decodes(req.imageData.value) else true
  }

  /** The screenshot was given and decoded, so the detector ran on it. */
  predicate ImageProcessed(req: TestExecutionRequest, env: Env)
  {
    ImageGiven(req) && DecodeImage(req.imageData, env.imageOpens, env.decodeError).Success?
  }

  /** The detections of a processed image; detection records of this
      service carry no class name. */
  function SpinDetections(req: TestExecutionRequest, env: Env): seq<Detection>
  {
    if ImageProcessed(req, env) && env.yolo.Some? then Detections(env.yolo.value, None) else []
  }

  function PyBool(b: bool): string
  {
    if b then "True" else "False"
  }

  function SpinResponse(req: TestExecutionRequest, env: Env, processed: bool, count: nat): TestExecutionResponse
  {
    TestExecutionResponse(
      "success",
      "Multiple Spin Test completed successfully for URL: " + req.gameUrl + ". Image processed: " + PyBool(processed),
      HashSuffixId("multiple_spin_", env.pyHash(req.gameUrl)), env.elapsed,
      map["spins_executed" := VInt(100),
          "base_game_only" := VBool(true),
          "rtp_verified" := VBool(true),
          "variance_acceptable" := VBool(true),
          "average_rtp" := VReal(96.5),
          "test_flow" := IntList(Flow),
          "flow_description" := VStr("Settings -> Bet Settings -> Spin Button (5 times)"),
          "image_processed" := VBool(processed),
          "detection_count" := VInt(count)])
  }

  /** What `execute_test` returns. */
  function Execute(req: TestExecutionRequest, env: Env): (r: TestExecutionResponse)
    ensures r.status == "success"
    ensures r.results.Keys == {"spins_executed", "base_game_only", "rtp_verified", "variance_acceptable",
                               "average_rtp", "test_flow", "flow_description", "image_processed", "detection_count"}
    ensures IsHashId(r.testId, "multiple_spin_")
    ensures r.results["test_flow"] == IntList(Flow)
    ensures r.results["image_processed"] == VBool(ImageProcessed(req, env))
    ensures !ImageProcessed(req, env) ==> r.results["detection_count"] == VInt(0)
    ensures ImageProcessed(req, env) && env.yolo.Some? ==>
      r.results["detection_count"] == VInt(|AllBoxes(env.yolo.value)|)
    ensures env.yolo.None? ==> r.results["detection_count"] == VInt(0)
  {
    SpinResponse(req, env, ImageProcessed(req, env), |SpinDetections(req, env)|)
  }

  /** `execute_test`, step by step: detections and the processed flag start
      empty and false and are replaced only when decoding succeeds. */
  method ExecuteTest(req: TestExecutionRequest, env: Env) returns (resp: TestExecutionResponse)
    ensures resp == Execute(req, env)
  {
    var yoloDetections: seq<Detection> := [];
    var imageProcessed := false;
    if ImageGiven(req) {
      var image := DecodeImage(req.imageData, env.imageOpens, env.decodeError);
      if image.Success? {
        yoloDetections := RunYoloInference(env.yolo, None);
        imageProcessed := true;
      }
    }
    resp := SpinResponse(req, env, imageProcessed, |yoloDetections|);
  }
}
