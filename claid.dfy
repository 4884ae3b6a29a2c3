/** The Claid provider of lib/providers/claid.ts: endpoint selection by category, the
    request it posts, and how the output URL is read from the reply. The HTTP call itself is
    the parameter `post`. */
module Claid {
  import opened Common

  const ClaidBase := "https://api.claid.ai"
  const PortraitEndpoint := "/v1-beta1/image/upscale/portrait"
  const SmartEndpoint := "/v1-beta1/image/upscale/smart"

  /** `CLAID_ENDPOINTS`. */
  const ClaidEndpoints: map<string, string> := map["portrait" := PortraitEndpoint, "product" := SmartEndpoint]

  /** `getClaidEndpoint`: the portrait endpoint for portraits, the smart one for anything else. */
  function GetClaidEndpoint(category: string): (e: string)
    ensures e == PortraitEndpoint || e == SmartEndpoint
    ensures e == PortraitEndpoint <==> category == "portrait"
  {
    if category in ClaidEndpoints then ClaidEndpoints[category] else SmartEndpoint
  }

  lemma ClaidEndpointsPinned()
    ensures GetClaidEndpoint("portrait") == "/v1-beta1/image/upscale/portrait"
    ensures GetClaidEndpoint("product") == "/v1-beta1/image/upscale/smart"
    ensures GetClaidEndpoint("unknown") == "/v1-beta1/image/upscale/smart"
  {
  }

  datatype ClaidInput = ClaidInput(imageUrl: string, category: string, scale: int)

  /** The JSON body posted: input image, JPEG output at quality 95, upscaled by `scale`. */
  datatype ClaidRequest = ClaidRequest(imageUrl: string, formatType: string, quality: nat, upscalingFactor: int)

  /** What the provider answered: what a rejected `fetch` or a throwing `res.json()` threw,
      a non-ok status with its text, or an ok JSON body with `data.output.tmp_url` and
      `output.url` (each absent or present). */
  datatype ClaidResponse =
    | PostThrew(thrown: Thrown)
    | NotOk(text: string)
    | OkJson(dataOutputTmpUrl: Option<string>, outputUrl: Option<string>)

  const NoOutputMessage := "Claid returned no output URL"

  /** The output URL of a reply, or the error `upscaleWithClaid` throws: `tmp_url ?? url`,
      where `??` falls through only on an absent value and an empty string is no URL. */
  function ClaidOutputUrl(resp: ClaidResponse): (r: Result<string, Thrown>)
    ensures resp.PostThrew? ==> r == Err(resp.thrown)
    ensures resp.NotOk? ==> r == Err(ErrorObject("Claid API error: " + resp.text))
    ensures r.Ok? ==> r.value != "" && resp.OkJson?
    ensures r.Ok? && resp.dataOutputTmpUrl.Some? ==> r.value == resp.dataOutputTmpUrl.value
    ensures r.Ok? && resp.dataOutputTmpUrl.None? ==> resp.outputUrl == Some(r.value)
    ensures resp.OkJson? ==>
              (r.Err? <==> (if resp.dataOutputTmpUrl.Some? then resp.dataOutputTmpUrl.value == ""
                            else resp.outputUrl.None? || resp.outputUrl.value == ""))
    ensures resp.OkJson? && r.Err? ==> r.error == ErrorObject(NoOutputMessage)
  {
    match resp
    case PostThrew(thrown) => Err(thrown)
    case NotOk(text) => Err(ErrorObject("Claid API error: " + text))
    case OkJson(tmpUrl, url) =>
      var chosen := if tmpUrl.Some? then tmpUrl else url;
      if chosen.None? || chosen.value == "" then Err(ErrorObject(NoOutputMessage))
      else Ok(chosen.value)
  }

  /** `upscaleWithClaid`: posts to the endpoint of the category and reads the reply. */
  function UpscaleWithClaid(input: ClaidInput, post: (string, ClaidRequest) -> ClaidResponse): (r: Result<string, Thrown>)
    ensures var resp := post(ClaidBase + GetClaidEndpoint(input.category),
                             ClaidRequest(input.imageUrl, "jpeg", 95, input.scale));
            r == ClaidOutputUrl(resp)
    ensures r.Ok? ==> r.value != ""
  {
    var url := ClaidBase + GetClaidEndpoint(input.category);
    ClaidOutputUrl(post(url, ClaidRequest(input.imageUrl, "jpeg", 95, input.scale)))
  }
}
