/**
 * The validation and fallback part of createItinerary. The model call and
 * JSON.parse are an input: the parsed document, or None when the call or the
 * parse failed.
 */
module Generator {
  import opened Wrappers
  import opened Itinerary

  const GenerationFailure := "Failed to generate itinerary"

  /** What createItinerary returns: the document, or the record {success: false, message}. */
  datatype Generation = Generated(doc: Document) | Failed(message: string) {

    /** `result?.success` as the handler reads it. */
    predicate Success()
    {
      match this
      case Generated(d) => d.success
      case Failed(_) => false
    }
  }

  /**
   * The parsed reply is accepted only when its `success` is truthy and
   * `itinerary.trip` is present; anything else, a failed call or parse
   * included, becomes the fixed failure record. Nothing is thrown.
   */
  function CreateItinerary(parsed: Option<Document>): (g: Generation)
    ensures g.Generated? <==> parsed.Some? && parsed.value.success && parsed.value.trip.Some?
    ensures g.Generated? ==> g.doc == parsed.value
    ensures g.Failed? ==> g.message == GenerationFailure
    ensures g.Success() <==> g.Generated?
  {
    match parsed
    case None => Failed(GenerationFailure)
    case Some(d) =>
      if !d.success || d.trip.None? then Failed(GenerationFailure) else Generated(d)
  }
}
