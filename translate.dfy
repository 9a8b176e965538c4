/**
 * The OpenAI-shaped success body: one entry per upstream image URL, each
 * paired with the prompt the upstream echoed back.
 */
module Translate {

  datatype ImageDatum = ImageDatum(revisedPrompt: string, url: string)

  /** `{ created, data }`. */
  datatype ImagesResponse = ImagesResponse(created: int, data: seq<ImageDatum>)

  /** `images.map(url => ({ revised_prompt: prompt, url }))`. */
  function PairWithPrompt(prompt: string, images: seq<string>): (data: seq<ImageDatum>)
    ensures |data| == |images|
    ensures forall i :: 0 <= i < |images| ==> data[i].url == images[i] && data[i].revisedPrompt == prompt
  {
    if images == [] then [] else [ImageDatum(prompt, images[0])] + PairWithPrompt(prompt, images[1..])
  }

  /** The URLs of a response body, in order. */
  function Urls(data: seq<ImageDatum>): seq<string>
  {
    if data == [] then [] else [data[0].url] + Urls(data[1..])
  }

  /** Reading the URLs back out gives the upstream list: nothing dropped, added or reordered. */
  lemma {:induction false} UrlsOfPaired(prompt: string, images: seq<string>)
    ensures Urls(PairWithPrompt(prompt, images)) == images
  {
    if images != [] {
      UrlsOfPaired(prompt, images[1..]);
      assert PairWithPrompt(prompt, images)[1..] == PairWithPrompt(prompt, images[1..]);
    }
  }

  /** The success body; `created` is `Math.floor(nowMs / 1000)`. */
  function ToOpenAI(nowMs: nat, prompt: string, images: seq<string>): (r: ImagesResponse)
    ensures r.created * 1000 <= nowMs < r.created * 1000 + 1000
    ensures |r.data| == |images|
    ensures forall i :: 0 <= i < |images| ==> r.data[i] == ImageDatum(prompt, images[i])
  {
    ImagesResponse(nowMs / 1000, PairWithPrompt(prompt, images))
  }
}
