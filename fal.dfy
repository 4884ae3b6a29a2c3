/** The fal.ai provider of lib/providers/fal.ts: model selection by category, the request
    it submits and how the output URL is read from the result. `fal.subscribe` is the
    parameter `subscribe`. */
module Fal {
  import opened Common

  const AuraSr := "fal-ai/aura-sr"
  const Esrgan := "fal-ai/esrgan"

  /** `FAL_MODELS`. */
  const FalModels: map<string, string> := map[
    "clarity" := AuraSr,
    "anime" := Esrgan,
    "restoration" := Esrgan,
    "product" := AuraSr,
    "portrait" := AuraSr
  ]

  /** `FAL_MODELS[category] ?? "fal-ai/aura-sr"`: ESRGAN for anime and restoration, Aura SR
      for every other category, known or not. */
  function ModelFor(category: string): (m: string)
    ensures m == AuraSr || m == Esrgan
    ensures m == Esrgan <==> category == "anime" || category == "restoration"
  {
    if category in FalModels then FalModels[category] else AuraSr
  }

  lemma FalModelsPinned()
    ensures ModelFor("clarity") == AuraSr && ModelFor("product") == AuraSr && ModelFor("portrait") == AuraSr
    ensures ModelFor("anime") == Esrgan && ModelFor("restoration") == Esrgan
    ensures ModelFor("unknown") == AuraSr
  {
  }

  datatype FalInput = FalInput(imageUrl: string, category: string, scale: int)

  /** The `input` object submitted: the image URL and the scale, sent twice. */
  datatype FalRequest = FalRequest(imageUrl: string, scale: int, upscalingFactor: int)

  /** The request for an input: the scale goes out both as `scale` and as `upscaling_factor`. */
  function RequestFor(input: FalInput): (r: FalRequest)
    ensures r.imageUrl == input.imageUrl
    ensures r.scale == input.scale && r.upscalingFactor == input.scale
  {
    FalRequest(input.imageUrl, input.scale, input.scale)
  }

  /** `result.data`: `image.url` (absent or present) and the `url` of each of `images`. */
  datatype FalData = FalData(imageUrl: Option<string>, imageUrls: seq<Option<string>>)

  /** What `fal.subscribe` did: threw, or resolved with a result. */
  datatype FalCall = FalThrew(error: Thrown) | FalReturned(data: FalData)

  const NoOutputMessage := "fal.ai returned no output URL"

  /** `data.image.url ?? data.images[0].url`, or the error thrown when that is absent or empty. */
  function FalOutputUrl(data: FalData): (r: Result<string, Thrown>)
    ensures r.Ok? ==> r.value != ""
    ensures r.Ok? && data.imageUrl.Some? ==> r.value == data.imageUrl.value
    ensures r.Ok? && data.imageUrl.None? ==> |data.imageUrls| > 0 && data.imageUrls[0] == Some(r.value)
    ensures r.Err? <==> (if data.imageUrl.Some? then data.imageUrl.value == ""
                         else |data.imageUrls| == 0 || data.imageUrls[0].None? || data.imageUrls[0].value == "")
    ensures r.Err? ==> r.error == ErrorObject(NoOutputMessage)
  {
    var chosen := if data.imageUrl.Some? then data.imageUrl
                  else if |data.imageUrls| > 0 then data.imageUrls[0]
                  else None;
    if chosen.None? || chosen.value == "" then Err(ErrorObject(NoOutputMessage))
    else Ok(chosen.value)
  }

  /** `upscaleWithFal`: submits to the model of the category; a throw propagates. */
  function UpscaleWithFal(input: FalInput, subscribe: (string, FalRequest) -> FalCall): (r: Result<string, Thrown>)
    ensures var call := subscribe(ModelFor(input.category), RequestFor(input));
            && (call.FalThrew? ==> r == Err(call.error))
            && (call.FalReturned? ==> r == FalOutputUrl(call.data))
    ensures r.Ok? ==> r.value != ""
  {
    match subscribe(ModelFor(input.category), RequestFor(input))
    case FalThrew(e) => Err(e)
    case FalReturned(data) => FalOutputUrl(data)
  }
}
