/**
 * The display form of a job's images: both the wizard and the gallery turn the
 * base64 bodies of `GET /api/tryon/{id}/base64` into `data:` URIs
 * (RFC 2397, section 3) and spread them into the job record.
 */
module Images {
  import opened JsObjects

  const PngDataUriPrefix := "data:image/png;base64,"

  /** The fields of the image endpoint's JSON body. */
  const GeneratedPayloadKey := "generated_image_data"
  const OriginalPayloadKey := "original_image_data"

  /** The fields the components add to a job record. */
  const GeneratedImageKey := "generatedImageData"
  const OriginalImageKey := "originalImageData"

  /** A PNG image given as base64 text, as a `data:` URI. */
  function PngDataUri(payload: string): (uri: string)
    ensures |uri| == |PngDataUriPrefix| + |payload|
    ensures uri[..|PngDataUriPrefix|] == PngDataUriPrefix
    ensures uri[|PngDataUriPrefix|..] == payload
  {
    PngDataUriPrefix + payload
  }

  /** The base64 text of a PNG `data:` URI, or `None` for any other text. */
  function PayloadOf(uri: string): Option<string>
  {
    if |uri| >= |PngDataUriPrefix| && uri[..|PngDataUriPrefix|] == PngDataUriPrefix
    then Some(uri[|PngDataUriPrefix|..])
    else None
  }

  lemma PayloadOfDataUri(payload: string)
    ensures PayloadOf(PngDataUri(payload)) == Some(payload)
  {
  }

  lemma DataUriOfPayload(uri: string, payload: string)
    requires PayloadOf(uri) == Some(payload)
    ensures PngDataUri(payload) == uri
  {
  }

  /**
   * `{...job, generatedImageData: ..., originalImageData: ...}`: the job record
   * with both images of `body` attached as data URIs. A body without a payload
   * field yields the URI of the text `undefined`, as the template literal does.
   */
  function WithImages(job: Record, body: Record): (r: Record)
    ensures r.Keys == job.Keys + {GeneratedImageKey, OriginalImageKey}
    ensures PayloadOf(r[GeneratedImageKey]) == Some(Field(body, GeneratedPayloadKey))
    ensures PayloadOf(r[OriginalImageKey]) == Some(Field(body, OriginalPayloadKey))
    ensures forall k :: k in job && k != GeneratedImageKey && k != OriginalImageKey ==> r[k] == job[k]
  {
    Spread(job, map[GeneratedImageKey := PngDataUri(Field(body, GeneratedPayloadKey)),
                    OriginalImageKey := PngDataUri(Field(body, OriginalPayloadKey))])
  }
}
