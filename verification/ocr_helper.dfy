/** The OCR text finder run as a command-line helper: the first text
    fragment, in reader order, that contains the query, ignoring case and
    surrounding blanks, and the truncated centroid of its box. The OCR engine
    and image decoding are foreign; their output enters as data. */
module OcrHelper {
  import opened Wrappers
  import opened Text

  datatype Point = Point(x: real, y: real)

  /** One `(bbox, text, confidence)` triple of `reader.readtext`. */
  datatype OcrResult = OcrResult(bbox: seq<Point>, text: string, confidence: real)

  /** The found record; `confidence` is the engine's confidence times 100. */
  datatype Hit = Hit(text: string, x: int, y: int, confidence: real)

  /** Python's `int()` of a float: truncation toward zero. */
  function Trunc(r: real): (i: int)
    ensures r >= 0.0 ==> i as real <= r < i as real + 1.0
    ensures r < 0.0 ==> i as real - 1.0 < r <= i as real
  {
    if r >= 0.0 then r.Floor else -((-r).Floor)
  }

  function SumX(ps: seq<Point>): real
  {
    if ps == [] then 0.0 else ps[0].x + SumX(ps[1..])
  }

  function SumY(ps: seq<Point>): real
  {
    if ps == [] then 0.0 else ps[0].y + SumY(ps[1..])
  }

  /** The normalised form both sides of the comparison take. */
  function Normalize(s: string): string
  {
    Lower(Strip(s))
  }

  /** Whether result `r` matches the already normalised query `q`. */
  predicate Matches(q: string, r: OcrResult)
  {
    Contains(Normalize(r.text), q)
  }

  /** The normalised text of every result, in reader order. */
  function NormalizedTexts(results: seq<OcrResult>): (ts: seq<string>)
    ensures |ts| == |results|
    ensures forall k :: 0 <= k < |results| ==> ts[k] == Normalize(results[k].text)
  {
    seq(|results|, k requires 0 <= k < |results| => Normalize(results[k].text))
  }

  /** Index of the first normalised text from `from` on that contains the
      normalised query `q`, scanning in reader order. */
  function FirstMatchFrom(texts: seq<string>, q: string, from: nat): (r: Option<nat>)
    requires from <= |texts|
    ensures r.Some? ==> from <= r.value < |texts| && Contains(texts[r.value], q)
    ensures r.Some? ==> forall j :: from <= j < r.value ==> !Contains(texts[j], q)
    ensures r.None? ==> forall j :: from <= j < |texts| ==> !Contains(texts[j], q)
    decreases |texts| - from
  {
    if from == |texts| then None
    else if Contains(texts[from], q) then Some(from)
    else FirstMatchFrom(texts, q, from + 1)
  }

  function FirstMatch(results: seq<OcrResult>, query: string): (r: Option<nat>)
    ensures r.Some? ==> r.value < |results| && Matches(Normalize(query), results[r.value])
    ensures r.Some? ==> forall j :: 0 <= j < r.value ==> !Matches(Normalize(query), results[j])
    ensures r.None? ==> forall j :: 0 <= j < |results| ==> !Matches(Normalize(query), results[j])
  {
    FirstMatchFrom(NormalizedTexts(results), Normalize(query), 0)
  }

  /** `find_text` after the image has been read: None is `{"found": False}`;
      a matching result with an empty box divides by zero. */
  function FindText(results: seq<OcrResult>, query: string): (r: Result<Option<Hit>, string>)
    ensures FirstMatch(results, query).None? <==> r == Success(None)
    ensures r.Success? && r.value.Some? ==>
      var i := FirstMatch(results, query).value;
      var b := results[i].bbox;
      && b != []
      && r.value.value == Hit(results[i].text, Trunc(SumX(b) / |b| as real), Trunc(SumY(b) / |b| as real),
                              results[i].confidence * 100.0)
    ensures r.Failure? ==> r.error == "division by zero" && results[FirstMatch(results, query).value].bbox == []
  {
    match FirstMatch(results, query)
    case None => Success(None)
    case Some(i) =>
      var b := results[i].bbox;
      if b == [] then Failure("division by zero")
      else Success(Some(Hit(results[i].text, Trunc(SumX(b) / |b| as real), Trunc(SumY(b) / |b| as real),
                            results[i].confidence * 100.0)))
  }

  /** A blank query is contained in every text, so the first result is found. */
  lemma BlankQueryMatchesFirst(results: seq<OcrResult>, query: string)
    requires Strip(query) == [] && results != []
    ensures FirstMatch(results, query) == Some(0)
  {
    assert Normalize(query) == [];
  }

  /** The centroid of an axis-aligned box with non-negative corners lies
      within it. */
  lemma CentroidInsideBox(x1: real, y1: real, x2: real, y2: real)
    requires 0.0 <= x1 <= x2 && 0.0 <= y1 <= y2
    ensures var b := [Point(x1, y1), Point(x2, y1), Point(x2, y2), Point(x1, y2)];
      && x1.Floor <= Trunc(SumX(b) / 4.0) <= x2.Floor
      && y1.Floor <= Trunc(SumY(b) / 4.0) <= y2.Floor
  {
    var b := [Point(x1, y1), Point(x2, y1), Point(x2, y2), Point(x1, y2)];
    assert b[1..][1..][1..][1..] == [];
    assert SumX(b[1..][1..][1..]) == x1;
    assert SumX(b[1..][1..]) == x2 + x1;
    assert SumX(b[1..]) == x2 + x2 + x1;
    assert SumX(b) == x1 + x2 + x2 + x1;
    assert SumY(b[1..][1..][1..]) == y2;
    assert SumY(b[1..][1..]) == y2 + y2;
    assert SumY(b[1..]) == y1 + y2 + y2;
    assert SumY(b) == y1 + y1 + y2 + y2;
  }

  /** The JSON the helper prints. */
  datatype CliOutput =
    | Found(hit: Hit)
    | NotFound
    | Failed(error: string)

  /** The `__main__` block: the payload's image and query; `imageError` is
      the text of the exception decoding the image raises, if any, and
      `results` what the reader returns for it. Every exception is reported
      with `found` False and its text. */
  function Cli(image: Option<string>, query: Option<string>, imageError: Option<string> -> Option<string>,
               results: seq<OcrResult>): (out: CliOutput)
    ensures imageError(image).Some? ==> out == Failed(imageError(image).value)
    ensures imageError(image).None? && query.None? ==> out == Failed("'NoneType' object has no attribute 'strip'")
    ensures imageError(image).None? && query.Some? ==>
      match FindText(results, query.value)
      case Success(None) => out == NotFound
      case Success(Some(hit)) => out == Found(hit)
      case Failure(e) => out == Failed(e)
  {
    if imageError(image).Some? then Failed(imageError(image).value)
    else if query.None? then Failed("'NoneType' object has no attribute 'strip'")
    else
      match FindText(results, query.value)
      case Success(None) => NotFound
      case Success(Some(hit)) => Found(hit)
      case Failure(e) => Failed(e)
  }
}
