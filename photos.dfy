/**
 * The result selection of fetchPlacesImage: what it makes of the candidate
 * list the place search returned. The search itself is an input; `Threw`
 * stands for the request failing (or a reply without a candidates list),
 * which fetchPlacesImage rethrows.
 */
module Photos {
  import opened Wrappers

  /** One element of a candidate's `photos` array. A missing or empty reference is "". */
  datatype Photo = Photo(photoReference: string)

  /** One element of `candidates`; `photos` is None when the field is absent. */
  datatype Candidate = Candidate(placeId: string, photos: Option<seq<Photo>>)

  const NoPhoto := "No photo available"
  const ComingSoon := "image comming soon"
  const PhotoEndpoint := "https://maps.googleapis.com/maps/api/place/photo?maxwidth=400&photoreference="

  /** The photo URL built from a reference and the API key: the reference sits right after the endpoint, the key at the end. */
  function PhotoUrl(reference: string, apiKey: string): (u: string)
    ensures |u| == |PhotoEndpoint| + |reference| + |"&key="| + |apiKey|
    ensures u[..|PhotoEndpoint|] == PhotoEndpoint
    ensures u[|PhotoEndpoint|..|PhotoEndpoint| + |reference|] == reference
    ensures u[|u| - |apiKey|..] == apiKey
  {
    PhotoEndpoint + reference + "&key=" + apiKey
  }

  /**
   * fetchPlacesImage after the search: no candidate gives the sentinel; a first
   * candidate gives the photo URL of its first photo's reference, with the
   * literal "image comming soon" in place of a missing reference. Indexing the
   * `photos` of a candidate that has none throws.
   */
  function FetchPlacesImage(search: Try<seq<Candidate>>, apiKey: string): (r: Try<string>)
    ensures search.Threw? ==> r.Threw?
    ensures search == Ok([]) ==> r == Ok(NoPhoto)
    ensures search.Ok? && |search.value| > 0 && search.value[0].photos.None? ==> r.Threw?
    ensures search.Ok? && |search.value| > 0 && search.value[0].photos.Some? ==>
      var photos := search.value[0].photos.value;
      r == Ok(PhotoUrl(if |photos| > 0 && photos[0].photoReference != "" then photos[0].photoReference else ComingSoon, apiKey))
    ensures r.Ok? ==> r.value != "" && r.value != ComingSoon
  {
    match search
    case Threw => Threw
    case Ok(candidates) =>
      if |candidates| > 0 then
        match candidates[0].photos
        case None => Threw
        case Some(photos) =>
          var reference := if |photos| > 0 && photos[0].photoReference != "" then photos[0].photoReference else ComingSoon;
          Ok(PhotoUrl(reference, apiKey))
      else
        Ok(NoPhoto)
  }

  /** What a lookup that did not throw can answer: the no-candidate sentinel or a photo URL for some reference. */
  ghost predicate IsPhotoAnswer(u: string, apiKey: string)
  {
    u == NoPhoto || exists reference :: u == PhotoUrl(reference, apiKey)
  }

  /** fetchPlacesImage never answers with anything but the sentinel or a photo URL. */
  lemma FetchAnswers(search: Try<seq<Candidate>>, apiKey: string)
    ensures var r := FetchPlacesImage(search, apiKey);
      r.Ok? ==> IsPhotoAnswer(r.value, apiKey)
  {
  }

  /** A built URL is never the no-candidate sentinel, and distinct references give distinct URLs: the reference can be read back. */
  lemma PhotoUrlDistinct(reference: string, other: string, apiKey: string)
    ensures PhotoUrl(reference, apiKey) != NoPhoto
    ensures PhotoUrl(reference, apiKey) == PhotoUrl(other, apiKey) ==> reference == other
  {
    var u := PhotoUrl(reference, apiKey);
    assert u[..|PhotoEndpoint|] == PhotoEndpoint;
    assert |NoPhoto| < |PhotoEndpoint|;
    if u == PhotoUrl(other, apiKey) {
      var tail := "&key=" + apiKey;
      assert |reference| == |other|;
      assert u[|PhotoEndpoint|..|PhotoEndpoint| + |reference|] == reference;
      assert PhotoUrl(other, apiKey)[|PhotoEndpoint|..|PhotoEndpoint| + |other|] == other;
    }
  }
}
