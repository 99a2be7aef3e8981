/** The HTTP layer of the backend: `/test-types`, `/run-test` and the
    placeholder `/test-results/{test_id}`. */
module App {
  import opened Wrappers
  import opened Text
  import opened Values
  import opened Environment
  import opened BaseService
  import opened ServiceRegistry

  /** The body of POST /run-test, after request validation. */
  datatype TestRequest = TestRequest(
    gameUrl: string,
    testType: string,
    selectedPolicy: Option<string>,
    selectedTestSuite: Option<string>,
    selectedTestCases: Option<seq<string>>,
    classId: Option<int>,
    imageData: Option<string>,
    additionalParams: map<string, Value>)

  /** What the endpoint answers: a TestResponse, or an HTTP error. */
  datatype HttpResult =
    | Ok(status: string, message: string, testId: string, results: map<string, Value>)
    | HttpError(code: int, detail: string)

  /** The exceptions the handler distinguishes. */
  datatype Raised =
    | HttpException(code: int, detail: string)
    | ValueError(message: string)
    | OtherException(message: string)

  /** The handler's except clauses: an HTTPException passes through, a
      ValueError is a 400 with its message, anything else a bare 500. */
  function ExceptionToHttp(e: Raised): (r: HttpResult)
    ensures r.HttpError?
    ensures e.HttpException? ==> r == HttpError(e.code, e.detail)
    ensures e.ValueError? ==> r == HttpError(400, e.message)
    ensures e.OtherException? ==> r == HttpError(500, "Internal server error")
  {
    match e
    case HttpException(code, detail) => HttpError(code, detail)
    case ValueError(message) => HttpError(400, message)
    case OtherException(_) => HttpError(500, "Internal server error")
  }

  /** A Python list of strings. */
  function StrList(xs: seq<string>): (v: Value)
    ensures v.VList? && |v.items| == |xs|
    ensures forall i :: 0 <= i < |xs| ==> v.items[i] == VStr(xs[i])
  {
    VList(seq(|xs|, i requires 0 <= i < |xs| => VStr(xs[i])))
  }

  /** The keys the merge may write. */
  const MergedKeys: set<string> := {"selectedPolicy", "selectedTestSuite", "selectedTestCases", "class_ids"}

  /** The dictionary `run_test` passes on as `additional_params`. */
  function MergedParams(req: TestRequest): map<string, Value>
  {
    var m0 := req.additionalParams;
    var m1 := if req.selectedPolicy.Some? then m0["selectedPolicy" := VStr(req.selectedPolicy.value)] else m0;
    var m2 := if req.selectedTestSuite.Some? then m1["selectedTestSuite" := VStr(req.selectedTestSuite.value)] else m1;
    var m3 := if req.selectedTestCases.Some? then m2["selectedTestCases" := StrList(req.selectedTestCases.value)] else m2;
    if "class_ids" !in m3 && req.classId.Some? then m3["class_ids" := VList([VInt(req.classId.value)])] else m3
  }

  /** `merged_params`: a copy of `additional_params`, then the three
      selections where given, then `class_ids` from `class_id` if absent. */
  method MergeParams(req: TestRequest) returns (merged: map<string, Value>)
    ensures merged == MergedParams(req)
    ensures forall k :: k in req.additionalParams ==> k in merged
    ensures forall k :: k in merged && k !in MergedKeys ==> k in req.additionalParams && merged[k] == req.additionalParams[k]
    ensures req.selectedPolicy.Some? ==> Get(merged, "selectedPolicy", VNone) == VStr(req.selectedPolicy.value)
    ensures req.selectedPolicy.None? ==> Get(merged, "selectedPolicy", VNone) == Get(req.additionalParams, "selectedPolicy", VNone)
    ensures req.selectedTestSuite.Some? ==> Get(merged, "selectedTestSuite", VNone) == VStr(req.selectedTestSuite.value)
    ensures req.selectedTestSuite.None? ==> Get(merged, "selectedTestSuite", VNone) == Get(req.additionalParams, "selectedTestSuite", VNone)
    ensures req.selectedTestCases.Some? ==> Get(merged, "selectedTestCases", VNone) == StrList(req.selectedTestCases.value)
    ensures req.selectedTestCases.None? ==> Get(merged, "selectedTestCases", VNone) == Get(req.additionalParams, "selectedTestCases", VNone)
    ensures "class_ids" in req.additionalParams ==> merged["class_ids"] == req.additionalParams["class_ids"]
    ensures "class_ids" !in req.additionalParams && req.classId.Some? ==> Get(merged, "class_ids", VNone) == VList([VInt(req.classId.value)])
    ensures "class_ids" !in req.additionalParams && req.classId.None? ==> "class_ids" !in merged
  {
    merged := req.additionalParams;
    if req.selectedPolicy.Some? {
      merged := merged["selectedPolicy" := VStr(req.selectedPolicy.value)];
    }
    if req.selectedTestSuite.Some? {
      merged := merged["selectedTestSuite" := VStr(req.selectedTestSuite.value)];
    }
    if req.selectedTestCases.Some? {
      merged := merged["selectedTestCases" := StrList(req.selectedTestCases.value)];
    }
    if "class_ids" !in merged && req.classId.Some? {
      merged := merged["class_ids" := VList([VInt(req.classId.value)])];
    }
  }

  /** pydantic 1.x's text for a TestExecutionRequest whose `image_data` is
      not a string and cannot be coerced to one. */
  const ImageDataNotString: string :=
    "1 validation error for TestExecutionRequest\nimage_data\n  str type expected (type=type_error.str)"

  /** `request.imageData or merged_params.get("imageData")`, checked against
      the field `image_data: str = None` of TestExecutionRequest the way
      pydantic 1.x does: None is kept (the default makes the field
      optional), a string is kept, a bool, int or float becomes its `str`,
      anything else fails validation. */
  function ImageDataOf(req: TestRequest, merged: map<string, Value>, floatStr: real -> string)
    : (r: Result<Option<string>, string>)
    ensures req.imageData.Some? && req.imageData.value != [] ==> r == Success(req.imageData)
    ensures !(req.imageData.Some? && req.imageData.value != []) ==>
      match Get(merged, "imageData", VNone)
      case VNone => r == Success(None)
      case VStr(s) => r == Success(Some(s))
      case VBool(b) => r == Success(Some(if b then "True" else "False"))
      case VInt(i) => r == Success(Some(IntToString(i)))
      case VReal(x) => r == Success(Some(floatStr(x)))
      case _ => r == Failure(ImageDataNotString)
  {
    if req.imageData.Some? && req.imageData.value != [] then Success(req.imageData)
    else
      match Get(merged, "imageData", VNone)
      case VNone => Success(None)
      case VStr(s) => Success(Some(s))
      case VBool(b) => Success(Some(if b then "True" else "False"))
      case VInt(i) => Success(Some(IntToString(i)))
      case VReal(x) => Success(Some(floatStr(x)))
      case _ => Failure(ImageDataNotString)
  }

  /** The answer built from a service's response: its execution time is dropped. */
  function Respond(resp: TestExecutionResponse): (r: HttpResult)
    ensures r.Ok? && r.status == resp.status && r.message == resp.message
    ensures r.testId == resp.testId && r.results == resp.results
  {
    Ok(resp.status, resp.message, resp.testId, resp.results)
  }

  /** `run_test`: the type gate, the merge, the request, the factory call
      and the mapping of exceptions onto HTTP errors. */
  method RunTest(factory: TestServiceFactory, req: TestRequest, env: Env) returns (r: HttpResult)
    requires factory.Valid()
    ensures !factory.IsValidTestType(req.testType) ==>
      r == HttpError(400, "Invalid test type. Must be one of: " + Join(", ", factory.GetAvailableTestTypes()))
    ensures factory.IsValidTestType(req.testType) && r.HttpError? ==> r.code == 400
    ensures factory.IsValidTestType(req.testType) ==>
      match ImageDataOf(req, MergedParams(req), env.floatStr)
      case Failure(e) => r == HttpError(400, e)
      case Success(imageData) =>
        var er := TestExecutionRequest(req.gameUrl, req.testType, MergedParams(req), imageData);
        var service := factory.services[req.testType];
        if Validate(service, er, env) then r == Respond(Run(service, er, env))
        else r == HttpError(400, "Invalid request for test type: " + req.testType)
  {
    if !factory.IsValidTestType(req.testType) {
      var available := factory.GetAvailableTestTypes();
      return ExceptionToHttp(HttpException(400, "Invalid test type. Must be one of: " + Join(", ", available)));
    }
    var merged := MergeParams(req);
    var imageData := ImageDataOf(req, merged, env.floatStr);
    if imageData.Failure? {
      return ExceptionToHttp(ValueError(imageData.error));
    }
    var executionRequest := TestExecutionRequest(req.gameUrl, req.testType, merged, imageData.value);
    var result := factory.ExecuteTest(req.testType, executionRequest, env);
    if result.Failure? {
      return ExceptionToHttp(ValueError(result.error));
    }
    r := Respond(result.value);
  }

  /** `get_test_types`: the registered types and their number. */
  function GetTestTypes(factory: TestServiceFactory): (r: map<string, Value>)
    reads factory
    requires factory.Valid()
    ensures r.Keys == {"test_types", "count"}
    ensures r["test_types"] == StrList(factory.keys)
    ensures r["count"] == VInt(|r["test_types"].items|)
  {
    var types := factory.GetAvailableTestTypes();
    map["test_types" := StrList(types), "count" := VInt(|types|)]
  }

  /** `get_test_results`: a placeholder that reports every id as completed. */
  function GetTestResults(testId: string): (r: map<string, Value>)
    ensures r.Keys == {"test_id", "status", "message", "note"}
    ensures r["test_id"] == VStr(testId) && r["status"] == VStr("completed")
  {
    map["test_id" := VStr(testId),
        "status" := VStr("completed"),
        "message" := VStr("Test results retrieval not yet implemented"),
        "note" := VStr("This endpoint will be implemented when test result storage is added")]
  }
}
