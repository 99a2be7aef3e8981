/** The "UI Element Detection" service: it decodes the screenshot, runs the
    object detector and returns, for every requested class id, a click target
    built from the most confident detection of that class, or a
    "not_detected" placeholder. */
module DetectService {
  import opened Wrappers
  import opened Text
  import opened Values
  import opened Yolo
  import opened Environment
  import opened BaseService
  import opened TestIds

  const TestType: string := "UI Element Detection"

  /** Python's message for an out-of-range list index. */
  const IndexErrorMessage: string := "list index out of range"

  /** One entry of `click_targets`. A placeholder has no click point, no box
      and the status "not_detected"; a found target has no status. */
  datatype ClickTarget = ClickTarget(
    classId: int,
    className: Option<string>,
    clickX: Option<real>,
    clickY: Option<real>,
    boundingBox: Option<Corners>,
    confidence: real,
    width: real,
    height: real,
    status: Option<string>)

  /** Detection `i` is the one the search settles on for `classId`: it has
      that class and a positive confidence, no detection of the class is more
      confident, and every earlier one is strictly less confident, so the
      earliest of equally confident detections wins. */
  predicate IsBestIndex(dets: seq<Detection>, classId: int, i: nat)
  {
    && i < |dets| && dets[i].classId == classId && dets[i].confidence > 0.0
    && (forall j :: 0 <= j < |dets| && dets[j].classId == classId ==> dets[j].confidence <= dets[i].confidence)
    && (forall j :: 0 <= j < i && dets[j].classId == classId ==> dets[j].confidence < dets[i].confidence)
  }

  /** No detection of `classId` beats the starting confidence 0.0. */
  predicate NoCandidate(dets: seq<Detection>, classId: int)
  {
    forall j :: 0 <= j < |dets| && dets[j].classId == classId ==> dets[j].confidence <= 0.0
  }

  /** The index the inner loop of `_get_click_targets` ends with: the last
      strict improvement over the running best, which starts at 0.0. */
  function BestIndex(dets: seq<Detection>, classId: int): (r: Option<nat>)
    ensures r.Some? ==> IsBestIndex(dets, classId, r.value)
    ensures r.None? ==> NoCandidate(dets, classId)
    decreases |dets|
  {
    if dets == [] then None
    else
      var n := |dets| - 1;
      var prev := BestIndex(dets[..n], classId);
      var bestConfidence := if prev.Some? then dets[prev.value].confidence else 0.0;
      if dets[n].classId == classId && dets[n].confidence > bestConfidence then Some(n) else prev
  }

  /** The choice is determined by the detections alone: at most one index is
      the best, and whenever one exists it is the one chosen. */
  lemma BestIndexUnique(dets: seq<Detection>, classId: int, i: nat)
    requires IsBestIndex(dets, classId, i)
    ensures BestIndex(dets, classId) == Some(i)
    ensures !NoCandidate(dets, classId)
  {
  }

  function BestDetection(dets: seq<Detection>, classId: int): Option<Detection>
  {
    match BestIndex(dets, classId)
    case Some(i) => Some(dets[i])
    case None => None
  }

  function FoundTarget(classId: int, d: Detection): ClickTarget
  {
    ClickTarget(classId, d.className, Some(d.midX), Some(d.midY), Some(d.box), d.confidence, d.width, d.height, None)
  }

  function Placeholder(classId: int, name: string): ClickTarget
  {
    ClickTarget(classId, Some(name), None, None, None, 0.0, 0.0, 0.0, Some("not_detected"))
  }

  /** The target for one requested class id; None when the placeholder's
      class-name lookup raises IndexError. */
  function TargetFor(dets: seq<Detection>, classId: int, classes: seq<string>): (r: Option<ClickTarget>)
    ensures r.None? <==> NoCandidate(dets, classId) && classId < -|classes|
    ensures r.Some? ==> r.value.classId == classId
    ensures r.Some? && r.value.status.None? ==>
      exists i: nat :: IsBestIndex(dets, classId, i) && r.value == FoundTarget(classId, dets[i])
    ensures r.Some? && r.value.status.Some? ==>
      && NoCandidate(dets, classId)
      && r.value.clickX.None? && r.value.clickY.None? && r.value.boundingBox.None?
      && r.value.confidence == 0.0 && r.value.width == 0.0 && r.value.height == 0.0
      && r.value.status == Some("not_detected")
      && r.value.className == ClassName(classes, classId)
  {
    match BestIndex(dets, classId)
    case Some(i) => Some(FoundTarget(classId, dets[i]))
    case None =>
      match ClassName(classes, classId)
      case Some(name) => Some(Placeholder(classId, name))
      case None => None
  }

  /** The whole of `_get_click_targets`: one target per requested id, in
      request order, or the IndexError of a placeholder lookup. */
  function ClickTargets(dets: seq<Detection>, ids: seq<int>, classes: seq<string>)
    : (r: Result<seq<ClickTarget>, string>)
    ensures r.Success? <==> forall k :: 0 <= k < |ids| ==> TargetFor(dets, ids[k], classes).Some?
    ensures r.Success? ==> |r.value| == |ids|
    ensures r.Success? ==> forall k :: 0 <= k < |ids| ==> TargetFor(dets, ids[k], classes) == Some(r.value[k])
    ensures r.Failure? ==> r.error == IndexErrorMessage
  {
    if forall k :: 0 <= k < |ids| ==> TargetFor(dets, ids[k], classes).Some? then
      Success(seq(|ids|, k requires 0 <= k < |ids| => TargetFor(dets, ids[k], classes).value))
    else
      Failure(IndexErrorMessage)
  }

  lemma BestDetectionStep(dets: seq<Detection>, classId: int, j: nat)
    requires j < |dets|
    ensures var prev := BestDetection(dets[..j], classId);
      var bestConfidence := if prev.Some? then prev.value.confidence else 0.0;
      BestDetection(dets[..j + 1], classId)
        == if dets[j].classId == classId && dets[j].confidence > bestConfidence then Some(dets[j]) else prev
  {
    assert dets[..j + 1][..j] == dets[..j];
  }

  /** `_get_click_targets`: for each requested id, a scan that keeps the
      detection with the highest confidence seen so far. */
  method GetClickTargets(dets: seq<Detection>, ids: seq<int>, classes: seq<string>)
    returns (r: Result<seq<ClickTarget>, string>)
    ensures r == ClickTargets(dets, ids, classes)
  {
    var targets: seq<ClickTarget> := [];
    for k := 0 to |ids|
      invariant |targets| == k
      invariant forall m :: 0 <= m < k ==> TargetFor(dets, ids[m], classes) == Some(targets[m])
    {
      var classId := ids[k];
      var best: Option<Detection> := None;
      var bestConfidence := 0.0;
      for j := 0 to |dets|
        invariant best == BestDetection(dets[..j], classId)
        invariant bestConfidence == if best.Some? then best.value.confidence else 0.0
      {
        BestDetectionStep(dets, classId, j);
        if dets[j].classId == classId && dets[j].confidence > bestConfidence {
          best := Some(dets[j]);
          bestConfidence := dets[j].confidence;
        }
      }
      assert dets[..|dets|] == dets;
      if best.Some? {
        targets := targets + [FoundTarget(classId, best.value)];
      } else {
        var name := ClassName(classes, classId);
        if name.None? {
          assert TargetFor(dets, ids[k], classes).None?;
          return Failure(IndexErrorMessage);
        }
        targets := targets + [Placeholder(classId, name.value)];
      }
    }
    assert targets == ClickTargets(dets, ids, classes).value;
    return Success(targets);
  }

  /** `additional_params.get('class_ids', [])`: a falsy value is the
      ValueError of the service; a list of integers is the request. */
  function ClassIdsOf(params: map<string, Value>): (r: Result<seq<int>, string>)
    ensures !Truthy(Get(params, "class_ids", VList([]))) ==> r == Failure("No class IDs provided for detection")
    ensures r.Success? ==> r.value != [] && Get(params, "class_ids", VList([])) == IntList(r.value)
  {
    var v := Get(params, "class_ids", VList([]));
    if !Truthy(v) then Failure("No class IDs provided for detection")
    else if v.VList? && forall i :: 0 <= i < |v.items| ==> v.items[i].VInt? then
      var ids := seq(|v.items|, i requires 0 <= i < |v.items| => v.items[i].i);
      assert IntList(ids).items == v.items;
      Success(ids)
    else Failure("class_ids is not a list of integers")
  }

  /** `str(class_ids)` for a list of integers, as Python prints it. */
  function ListRepr(ids: seq<int>): string
  {
    "[" + Join(", ", seq(|ids|, i requires 0 <= i < |ids| => IntToString(ids[i]))) + "]"
  }

  function CornersValue(c: Corners): Value
  {
    VDict(map["x1" := VReal(c.x1), "y1" := VReal(c.y1), "x2" := VReal(c.x2), "y2" := VReal(c.y2)])
  }

  function OptReal(x: Option<real>): Value
  {
    if x.Some? then VReal(x.value) else VNone
  }

  /** The dictionary a target becomes in the response; a placeholder's width
      and height are the integer 0. */
  function TargetValue(t: ClickTarget): Value
  {
    var name := if t.className.Some? then VStr(t.className.value) else VNone;
    var common := map[
      "class_id" := VInt(t.classId), "class_name" := name,
      "click_x" := OptReal(t.clickX), "click_y" := OptReal(t.clickY),
      "bounding_box" := if t.boundingBox.Some? then CornersValue(t.boundingBox.value) else VNone,
      "confidence" := VReal(t.confidence)];
    if t.status.Some? then
      VDict(common["width" := VInt(0)]["height" := VInt(0)]["status" := VStr(t.status.value)])
    else
      VDict(common["width" := VReal(t.width)]["height" := VReal(t.height)])
  }

  function DetectError(err: string): (r: TestExecutionResponse)
    ensures r.status == "error" && r.testId == "detect_error" && r.executionTime == 0.0
    ensures r.message == "Detection failed: " + err && r.results == map["error" := VStr(err)]
  {
    TestExecutionResponse("error", "Detection failed: " + err, "detect_error", 0.0, map["error" := VStr(err)])
  }

  /** The detections `_run_yolo_inference` returns for the decoded image. */
  function DetectionsFor(env: Env): seq<Detection>
  {
    if env.yolo.Some? then Detections(env.yolo.value, Some(env.classes)) else []
  }

  lemma NotHashId(prefix: string, tail: string)
    requires tail != [] && !IsDigit(tail[0])
    ensures !IsHashId(prefix + tail, prefix)
  {
    assert (prefix + tail)[|prefix|..] == tail;
  }

  /** The `click_targets` list of the response: one dictionary per target,
      in order. */
  function TargetsValue(targets: seq<ClickTarget>): (v: Value)
    ensures v.VList? && |v.items| == |targets|
    ensures forall k :: 0 <= k < |targets| ==> v.items[k] == TargetValue(targets[k])
  {
    VList(seq(|targets|, k requires 0 <= k < |targets| => TargetValue(targets[k])))
  }

  /** The results map of a successful detection. */
  function DetectedResults(requested: Value, env: Env, targets: seq<ClickTarget>): (m: map<string, Value>)
    ensures m.Keys == {"requested_classes", "click_targets", "total_detections", "matched_targets"}
    ensures m["click_targets"] == TargetsValue(targets)
    ensures m["matched_targets"] == VInt(|targets|)
    ensures m["total_detections"] == VInt(|DetectionsFor(env)|)
    ensures m["requested_classes"] == requested
  {
    map["requested_classes" := requested,
        "click_targets" := TargetsValue(targets),
        "total_detections" := VInt(|DetectionsFor(env)|),
        "matched_targets" := VInt(|targets|)]
  }

  /** The success response for the requested ids and the targets found for
      them. */
  function Detected(req: TestExecutionRequest, env: Env, ids: seq<int>, targets: seq<ClickTarget>)
    : (r: TestExecutionResponse)
    requires "class_ids" in req.additionalParams
    ensures r.status == "success" && r.executionTime == 0.0 && IsHashId(r.testId, "detect_")
    ensures r.message == "Detection completed. Found " + NatToString(|targets|) + " targets for "
                         + NatToString(|ids|) + " requested classes."
    ensures r.results.Keys == {"requested_classes", "click_targets", "total_detections", "matched_targets"}
    ensures r.results["click_targets"] == TargetsValue(targets)
    ensures r.results["matched_targets"] == VInt(|targets|)
    ensures r.results["total_detections"] == VInt(|DetectionsFor(env)|)
    ensures r.results["requested_classes"] == req.additionalParams["class_ids"]
  {
    TestExecutionResponse(
      "success",
      "Detection completed. Found " + NatToString(|targets|) + " targets for "
        + NatToString(|ids|) + " requested classes.",
      HashSuffixId("detect_", env.pyHash(ListRepr(ids))), 0.0,
      DetectedResults(req.additionalParams["class_ids"], env, targets))
  }

  /** `execute_test` of the detection service: the class ids, then the
      image, then the targets; the first of them to fail gives the error
      response with its message. */
  function Execute(req: TestExecutionRequest, env: Env): (r: TestExecutionResponse)
    ensures r.executionTime == 0.0
    ensures r.status == "success" || r.status == "error"
    ensures r.status == "error" <==> r.testId == "detect_error"
    ensures r.status == "error" ==> r.results.Keys == {"error"}
    ensures ClassIdsOf(req.additionalParams).Failure? ==> r == DetectError(ClassIdsOf(req.additionalParams).error)
    ensures !Truthy(Get(req.additionalParams, "class_ids", VList([]))) ==>
      r == DetectError("No class IDs provided for detection")
    ensures ClassIdsOf(req.additionalParams).Success? && DecodeImage(req.imageData, env.imageOpens, env.decodeError).Failure? ==>
      r == DetectError("Invalid image data: " + env.decodeError(req.imageData))
    ensures req.imageData.None? ==> r.status == "error"
    ensures ClassIdsOf(req.additionalParams).Success? && DecodeImage(req.imageData, env.imageOpens, env.decodeError).Success?
            && ClickTargets(DetectionsFor(env), ClassIdsOf(req.additionalParams).value, env.classes).Failure? ==>
      r == DetectError(IndexErrorMessage)
    ensures r.status == "success" <==>
      && ClassIdsOf(req.additionalParams).Success?
      && DecodeImage(req.imageData, env.imageOpens, env.decodeError).Success?
      && ClickTargets(DetectionsFor(env), ClassIdsOf(req.additionalParams).value, env.classes).Success?
    ensures r.status == "success" ==>
      var ids := ClassIdsOf(req.additionalParams).value;
      var targets := ClickTargets(DetectionsFor(env), ids, env.classes).value;
      && "class_ids" in req.additionalParams
      && r == Detected(req, env, ids, targets)
      && r.results["matched_targets"] == VInt(|ids|)
  {
    match ClassIdsOf(req.additionalParams)
    case Failure(e) => DetectError(e)
    case Success(ids) =>
      assert "class_ids" in req.additionalParams by {
        assert IntList(ids) != VList([]);
      }
      match DecodeImage(req.imageData, env.imageOpens, env.decodeError)
      case Failure(e) => DetectError(e)
      case Success(_) =>
        match ClickTargets(DetectionsFor(env), ids, env.classes)
        case Failure(e) => DetectError(e)
        case Success(targets) =>
          NotHashId("detect_", "error");
          Detected(req, env, ids, targets)
  }

  /** The same steps, through the two loops of the service. */
  method ExecuteTest(req: TestExecutionRequest, env: Env) returns (resp: TestExecutionResponse)
    ensures resp == Execute(req, env)
  {
    var ids := ClassIdsOf(req.additionalParams);
    if ids.Failure? {
      return DetectError(ids.error);
    }
    var image := DecodeImage(req.imageData, env.imageOpens, env.decodeError);
    if image.Failure? {
      return DetectError(image.error);
    }
    var dets := RunYoloInference(env.yolo, Some(env.classes));
    var targets := GetClickTargets(dets, ids.value, env.classes);
    if targets.Failure? {
      return DetectError(targets.error);
    }
    assert "class_ids" in req.additionalParams by {
      assert IntList(ids.value) != VList([]);
    }
    resp := Detected(req, env, ids.value, targets.value);
  }

  /** The attributes a TestExecutionRequest has; `class_ids` is not one. */
  const RequestAttributes: set<string> := {"game_url", "test_type", "additional_params", "image_data"}

  /** `validate_request` as written: `hasattr(request, 'class_ids')` is
      False for every request, so every request is rejected. */
  function ValidateRequestAsWritten(req: TestExecutionRequest, b64Decodes: string -> bool): (ok: bool)
    ensures !ok
  {
    if "image_data" !in RequestAttributes || req.imageData.None? || req.imageData.value == [] then false
    else "class_ids" in RequestAttributes  // False, so the later checks are never reached
  }

  /** `validate_request` as evidently intended: non-empty image data,
      truthy `class_ids` and base64-decodable image data. */
  function ValidateRequest(req: TestExecutionRequest, b64Decodes: string -> bool): (ok: bool)
    ensures ok <==> && req.imageData.Some? && req.imageData.value != []
                    && Truthy(Get(req.additionalParams, "class_ids", VNone))
                    && b64Decodes(req.imageData.value)
    ensures ok ==> ClassIdsOf(req.additionalParams).Failure? ==>
      ClassIdsOf(req.additionalParams).error == "class_ids is not a list of integers"
  {
    if req.imageData.None? || req.imageData.value == [] then false
    else if !Truthy(Get(req.additionalParams, "class_ids", VNone)) then false
    else b64Decodes(req.imageData.value)
  }

  /** A well-formed detection request that the intended check accepts and
      the written one rejects. */
  lemma AsWrittenRejectsWellFormedRequest()
    ensures var req := TestExecutionRequest("https://example.com", TestType,
                                            map["class_ids" := VList([VInt(1)])], Some("aGk="));
      ValidateRequest(req, _ => true) && !ValidateRequestAsWritten(req, _ => true)
  {
  }
}
