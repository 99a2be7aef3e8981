/** The backend's OCR lookup: the first text fragment, in reader order,
    equal to the search text up to case and surrounding blanks, and the
    truncated midpoint of its top-left and bottom-right corners. */
module OcrService {
  import opened Wrappers
  import opened Text
  import opened OcrHelper

  /** The 5-tuple `(found, x, y, text, confidence)`. */
  datatype Lookup = Lookup(found: bool, x: Option<int>, y: Option<int>, text: Option<string>,
                           confidence: Option<real>)

  const NotFoundTuple: Lookup := Lookup(false, None, None, None, None)

  /** Whether result `r` equals the already normalised search text `q`. */
  predicate EqualsSearch(q: string, r: OcrResult)
  {
    Normalize(r.text) == q
  }

  /** Index of the first text from `from` on that equals `q`. */
  function FirstEqualFrom(texts: seq<string>, q: string, from: nat): (r: Option<nat>)
    requires from <= |texts|
    ensures r.Some? ==> from <= r.value < |texts| && texts[r.value] == q
    ensures r.Some? ==> forall j :: from <= j < r.value ==> texts[j] != q
    ensures r.None? ==> forall j :: from <= j < |texts| ==> texts[j] != q
    decreases |texts| - from
  {
    if from == |texts| then None
    else if texts[from] == q then Some(from)
    else FirstEqualFrom(texts, q, from + 1)
  }

  /** Index of the first result equal to the search text, in reader order. */
  function FirstEqual(results: seq<OcrResult>, search: string): (r: Option<nat>)
    ensures r.Some? ==> r.value < |results| && EqualsSearch(Normalize(search), results[r.value])
    ensures r.Some? ==> forall j :: 0 <= j < r.value ==> !EqualsSearch(Normalize(search), results[j])
    ensures r.None? ==> forall j :: 0 <= j < |results| ==> !EqualsSearch(Normalize(search), results[j])
  {
    FirstEqualFrom(NormalizedTexts(results), Normalize(search), 0)
  }

  /** The tuple for the result at `found`, if any: the truncated midpoint of
      its top-left and bottom-right corners, or the not-found tuple when
      there is no result or its box is not four points. */
  function LookupAt(results: seq<OcrResult>, found: Option<nat>): (r: Lookup)
    requires found.Some? ==> found.value < |results|
    ensures r.found <==> found.Some? && |results[found.value].bbox| == 4
    ensures r.found ==>
      var m := results[found.value];
      r == Lookup(true, Some(Trunc((m.bbox[0].x + m.bbox[2].x) / 2.0)), Some(Trunc((m.bbox[0].y + m.bbox[2].y) / 2.0)),
                  Some(m.text), Some(m.confidence))
    ensures !r.found ==> r == NotFoundTuple
  {
    match found
    case None => NotFoundTuple
    case Some(i) =>
      var b := results[i].bbox;
      if |b| != 4 then NotFoundTuple
      else Lookup(true, Some(Trunc((b[0].x + b[2].x) / 2.0)), Some(Trunc((b[0].y + b[2].y) / 2.0)),
                  Some(results[i].text), Some(results[i].confidence))
  }

  /** `find_text_in_image`: the tuple of the first equal result. `imageOk`
      says whether decoding and reading the image succeeded. A box that is
      not four points fails to unpack, which the handler turns into the
      not-found tuple like every other exception. */
  function FindTextInImage(imageOk: bool, results: seq<OcrResult>, search: string): (r: Lookup)
    ensures var f := FirstEqual(results, search);
      && (!imageOk || f.None? ==> r == NotFoundTuple)
      && (r.found <==> imageOk && f.Some? && |results[f.value].bbox| == 4)
      && (r.found ==> r == LookupAt(results, f))
      && (!r.found ==> r == NotFoundTuple)
  {
    if imageOk then LookupAt(results, FirstEqual(results, search)) else NotFoundTuple
  }

  /** Equality implies containment: whatever the service finds, the
      command-line helper finds at the same index or earlier. */
  lemma ExactMatchIsSubstringMatch(results: seq<OcrResult>, search: string)
    requires FirstEqual(results, search).Some?
    ensures FirstMatch(results, search).Some?
    ensures FirstMatch(results, search).value <= FirstEqual(results, search).value
  {
    var i := FirstEqual(results, search).value;
    var t := Normalize(results[i].text);
    assert t <= t;
    assert Matches(Normalize(search), results[i]);
  }
}
