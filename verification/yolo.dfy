/** The object-detection adapter code shared by the UI Element Detection and
    Multiple Spin services: data-URL prefix stripping before base64 decoding,
    and the conversion of raw model boxes into detection records. The model
    itself, base64 decoding and image opening are foreign and enter as data. */
module Yolo {
  import opened Wrappers
  import opened Text

  /** Box corners as reported by `box.xyxy[0]`. */
  datatype Corners = Corners(x1: real, y1: real, x2: real, y2: real)

  /** One raw model box: corners, confidence and class index. */
  datatype RawBox = RawBox(xyxy: Corners, conf: real, cls: nat)

  /** One element of the model's output; `boxes` may be None. */
  datatype YoloResult = YoloResult(boxes: Option<seq<RawBox>>)

  /** A processed detection record. `className` is present only where the
      service knows its class list (the detection service, not multiple spin). */
  datatype Detection = Detection(
    midX: real, midY: real, box: Corners, confidence: real, classId: nat,
    className: Option<string>, width: real, height: real)

  /** `classes[class_id] if class_id < len(classes) else f"class_{class_id}"`,
      with Python list indexing: a negative index counts from the end and one
      below `-len(classes)` raises IndexError (None here). */
  function ClassName(classes: seq<string>, classId: int): (r: Option<string>)
    ensures classId >= |classes| ==> r == Some("class_" + IntToString(classId))
    ensures 0 <= classId < |classes| ==> r == Some(classes[classId])
    ensures -|classes| <= classId < 0 ==> r == Some(classes[|classes| + classId])
    ensures r.None? <==> classId < -|classes|
  {
    if classId < |classes| then
      if classId >= 0 then Some(classes[classId])
      else if classId >= -|classes| then Some(classes[|classes| + classId])
      else None
    else Some("class_" + IntToString(classId))
  }

  /** The list used when classes.json is missing or unreadable. */
  function FallbackClasses(): (cs: seq<string>)
    ensures |cs| == 17
  {
    seq(17, i requires 0 <= i < 17 => "class_" + NatToString(i))
  }

  /** With the fallback list both branches of ClassName agree: every
      non-negative class index is named "class_<index>". */
  lemma FallbackClassName(classId: nat)
    ensures ClassName(FallbackClasses(), classId) == Some("class_" + NatToString(classId))
  {
    if classId < 17 {
      assert FallbackClasses()[classId] == "class_" + NatToString(classId);
    }
  }

  /** One record per box: centre is the mean of the corners, size their difference. */
  function ToDetection(b: RawBox, classes: Option<seq<string>>): Detection
  {
    var c := b.xyxy;
    Detection(
      (c.x1 + c.x2) / 2.0, (c.y1 + c.y2) / 2.0, c, b.conf, b.cls,
      if classes.Some? then ClassName(classes.value, b.cls) else None,
      c.x2 - c.x1, c.y2 - c.y1)
  }

  /** The centre of a detection lies inside its box and its size is non-negative. */
  lemma DetectionGeometry(b: RawBox, classes: Option<seq<string>>)
    requires b.xyxy.x1 <= b.xyxy.x2 && b.xyxy.y1 <= b.xyxy.y2
    ensures var d := ToDetection(b, classes);
      && d.box.x1 <= d.midX <= d.box.x2 && d.box.y1 <= d.midY <= d.box.y2
      && d.width >= 0.0 && d.height >= 0.0
      && d.midX - d.box.x1 == d.width / 2.0
  {
  }

  function BoxesOf(r: YoloResult): seq<RawBox>
  {
    if r.boxes.Some? then r.boxes.value else []
  }

  /** All boxes of all results, in order; results whose boxes are None add nothing. */
  function AllBoxes(results: seq<YoloResult>): seq<RawBox>
  {
    if results == [] then []
    else AllBoxes(results[..|results| - 1]) + BoxesOf(results[|results| - 1])
  }

  lemma {:induction false} AllBoxesAppend(a: seq<YoloResult>, b: seq<YoloResult>)
    ensures AllBoxes(a + b) == AllBoxes(a) + AllBoxes(b)
    decreases |b|
  {
    if b == [] {
      assert a + b == a;
    } else {
      var b' := b[..|b| - 1];
      assert (a + b)[..|a + b| - 1] == a + b';
      AllBoxesAppend(a, b');
    }
  }

  /** A result without boxes contributes nothing, wherever it stands. */
  lemma SkipsMissingBoxes(a: seq<YoloResult>, b: seq<YoloResult>)
    ensures AllBoxes(a + [YoloResult(None)] + b) == AllBoxes(a + b)
  {
    var none := [YoloResult(None)];
    assert AllBoxes(none) == [] by {
      assert none[..0] == [];
    }
    AllBoxesAppend(a + none, b);
    AllBoxesAppend(a, none);
    AllBoxesAppend(a, b);
  }

  function DetectionsOf(boxes: seq<RawBox>, classes: Option<seq<string>>): (ds: seq<Detection>)
    ensures |ds| == |boxes|
  {
    seq(|boxes|, k requires 0 <= k < |boxes| => ToDetection(boxes[k], classes))
  }

  /** What `_process_yolo_detections` returns for the model's results. */
  function Detections(results: seq<YoloResult>, classes: Option<seq<string>>): seq<Detection>
  {
    DetectionsOf(AllBoxes(results), classes)
  }

  lemma DetectionsOfAppend(a: seq<RawBox>, b: seq<RawBox>, classes: Option<seq<string>>)
    ensures DetectionsOf(a + b, classes) == DetectionsOf(a, classes) + DetectionsOf(b, classes)
  {
  }

  lemma DetectionsStep(results: seq<YoloResult>, i: nat, classes: Option<seq<string>>)
    requires i < |results|
    ensures Detections(results[..i + 1], classes)
            == Detections(results[..i], classes) + DetectionsOf(BoxesOf(results[i]), classes)
  {
    assert results[..i + 1][..i] == results[..i];
    DetectionsOfAppend(AllBoxes(results[..i]), BoxesOf(results[i]), classes);
  }

  lemma DetectionsOfStep(bs: seq<RawBox>, j: nat, classes: Option<seq<string>>)
    requires j < |bs|
    ensures DetectionsOf(bs[..j + 1], classes) == DetectionsOf(bs[..j], classes) + [ToDetection(bs[j], classes)]
  {
    assert bs[..j + 1] == bs[..j] + [bs[j]];
    DetectionsOfAppend(bs[..j], [bs[j]], classes);
  }

  /** The double loop over results and their boxes, appending one record per box. */
  method ProcessYoloDetections(results: seq<YoloResult>, classes: Option<seq<string>>)
    returns (detections: seq<Detection>)
    ensures |detections| == |AllBoxes(results)|
    ensures forall k :: 0 <= k < |detections| ==> detections[k] == ToDetection(AllBoxes(results)[k], classes)
  {
    detections := [];
    for i := 0 to |results|
      invariant detections == Detections(results[..i], classes)
    {
      DetectionsStep(results, i, classes);
      var boxes := results[i].boxes;
      if boxes.Some? {
        var bs := boxes.value;
        for j := 0 to |bs|
          invariant detections == Detections(results[..i], classes) + DetectionsOf(bs[..j], classes)
        {
          DetectionsOfStep(bs, j, classes);
          detections := detections + [ToDetection(bs[j], classes)];
        }
        assert bs[..|bs|] == bs;
      } else {
        assert DetectionsOf(BoxesOf(results[i]), classes) == [];
      }
    }
    assert results[..|results|] == results;
  }

  /** `_run_yolo_inference`: no model, or an exception during inference, gives no detections. */
  method RunYoloInference(model: Option<seq<YoloResult>>, classes: Option<seq<string>>)
    returns (detections: seq<Detection>)
    ensures model.None? ==> detections == []
    ensures model.Some? ==> detections == Detections(model.value, classes)
  {
    if model.None? {
      return [];
    }
    detections := ProcessYoloDetections(model.value, classes);
  }

  /** `_decode_base64_image` prefix handling: with a comma, only the second
      comma-separated field is decoded; otherwise the whole string. */
  function StripDataUrlPrefix(s: string): (r: string)
    ensures ',' !in r
    ensures ',' !in s ==> r == s
    ensures ',' in s ==> r == Split(s, ',')[1]
  {
    if ',' in s then Split(s, ',')[1] else s
  }

  /** `_decode_base64_image`: `imageOpens` says whether base64 decoding and
      PIL's Image.open succeed on the stripped payload. Any failure
      (including a missing image, on which `',' in None` raises) is the
      ValueError "Invalid image data: " followed by the text of the caught
      exception, which `decodeError` gives. On success the decoded payload
      is returned. */
  function DecodeImage(data: Option<string>, imageOpens: string -> bool, decodeError: Option<string> -> string)
    : (r: Result<string, string>)
    ensures r.Success? <==> data.Some? && imageOpens(StripDataUrlPrefix(data.value))
    ensures r.Success? ==> r.value == StripDataUrlPrefix(data.value) && ',' !in r.value
    ensures r.Failure? ==> r.error == "Invalid image data: " + decodeError(data)
  {
    if data.Some? && imageOpens(StripDataUrlPrefix(data.value)) then Success(StripDataUrlPrefix(data.value))
    else Failure("Invalid image data: " + decodeError(data))
  }
}
