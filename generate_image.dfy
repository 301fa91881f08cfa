/**
 * The image route: it validates `{ prompt, type }`, wraps the prompt in a
 * photography template chosen by category and answers with an image-service
 * URL built from the percent-encoded template.  No request is made to the
 * image service, so the route is string construction only.
 *
 * `encode` stands for `encodeURIComponent` (percent-encoding as in section 2.1
 * of RFC 3986) and is kept abstract: every property below holds whatever the
 * encoding does.
 */
module GenerateImage {
  import opened Wrappers
  import opened Text

  /** The parsed body; "" stands for a missing, null or empty member (all falsy). */
  datatype ImageRequest = ImageRequest(prompt: string, kind: string)

  /** What the handler answers. */
  datatype ImageResponse =
    | Rejected(status: nat, message: string)               // `{ error: message }` with an error status
    | Answered(imageUrl: string, service: string, success: bool, error: Option<string>)  // status 200
    | Crashed                                              // an exception escapes the handler

  const MissingFields := "Missing prompt or type"
  const ImageService := "Pollinations AI (Flux)"
  const PlaceholderService := "Placeholder"

  const ImageBase := "https://image.pollinations.ai/prompt/"
  const ImageQuery := "?width=1024&height=1024&nologo=true&enhance=true&model=flux"
  const PlaceholderBase := "https://via.placeholder.com/1024/"
  const ExerciseColour := "6366f1"
  const FoodColour := "10b981"

  /** The two halves of the exercise template, around the prompt. */
  const ExerciseHead := "professional fitness photography, "
    + "athletic person performing "
  const ExerciseTail := " exercise, correct form, "
    + "modern gym environment, high quality, "
    + "4k resolution, dynamic pose, proper lighting"

  /** The two halves of the food template, around the prompt. */
  const FoodHead := "professional food photography, delicious "
  const FoodTail := ", beautifully plated on elegant white plate, "
    + "restaurant quality presentation, "
    + "natural lighting, appetizing, high resolution, "
    + "4k, vibrant colors"

  /** `!prompt || !type` */
  predicate IsMissing(req: ImageRequest)
  {
    req.prompt == "" || req.kind == ""
  }

  /** The template chosen by category: "exercise" gets the fitness one, anything else the food one. */
  function EnhancedPrompt(prompt: string, kind: string): (r: string)
    ensures kind == "exercise" ==> ExerciseHead <= r
    ensures kind != "exercise" ==> FoodHead <= r
    ensures Contains(r, prompt)
  {
    if kind == "exercise" then
      ContainsMiddle(ExerciseHead, prompt, ExerciseTail);
      ExerciseHead + prompt + ExerciseTail
    else
      ContainsMiddle(FoodHead, prompt, FoodTail);
      FoodHead + prompt + FoodTail
  }

  /** The two templates can be told apart by their first words. */
  lemma TemplatesDiffer(prompt: string, other: string)
    ensures !(FoodHead <= EnhancedPrompt(prompt, "exercise"))
    ensures !(ExerciseHead <= EnhancedPrompt(other, "food"))
  {
    assert ExerciseHead[14] == 'i' && FoodHead[14] == 'o';
    PrefixesClash(EnhancedPrompt(prompt, "exercise"), ExerciseHead, FoodHead, 14);
    PrefixesClash(EnhancedPrompt(other, "food"), FoodHead, ExerciseHead, 14);
  }

  /** A string cannot start with two texts that differ at a position both have. */
  lemma PrefixesClash(s: string, a: string, b: string, i: nat)
    requires a <= s && i < |a| && i < |b| && a[i] != b[i]
    ensures !(b <= s)
  {
    assert s[i] == a[i];
  }

  /** The image-service URL: the encoded template as one path segment, then fixed size and model options. */
  function ImageUrl(enhanced: string, encode: string -> string): (url: string)
    ensures |url| == |ImageBase| + |encode(enhanced)| + |ImageQuery|
    ensures ImageBase <= url
    ensures EndsWith(url, ImageQuery)
    ensures url[|ImageBase|..|url| - |ImageQuery|] == encode(enhanced)
  {
    var url := ImageBase + encode(enhanced) + ImageQuery;
    assert url[..|ImageBase|] == ImageBase;
    assert url[|url| - |ImageQuery|..] == ImageQuery;
    url
  }

  /** `prompt || 'Image'` */
  function PlaceholderText(prompt: string): (text: string)
    ensures text != ""
    ensures prompt != "" ==> text == prompt
    ensures prompt == "" ==> text == "Image"
  {
    OrElse(prompt, "Image")
  }

  /**
   * The placeholder URL: the colour marks the category and the text is the
   * encoded prompt, or "Image" when there is none.  Both colours are six hex
   * digits, so the prefix, the suffix and the length fix the URL exactly.
   */
  function PlaceholderUrl(prompt: string, kind: string, encode: string -> string): (url: string)
    ensures kind == "exercise" ==> PlaceholderBase + ExerciseColour <= url
    ensures kind != "exercise" ==> PlaceholderBase + FoodColour <= url
    ensures EndsWith(url, "/ffffff?text=" + encode(PlaceholderText(prompt)))
    ensures |url| == |PlaceholderBase| + 6 + |"/ffffff?text=" + encode(PlaceholderText(prompt))|
  {
    var colour := if kind == "exercise" then ExerciseColour else FoodColour;
    var tail := "/ffffff?text=" + encode(PlaceholderText(prompt));
    var url := PlaceholderBase + colour + tail;
    assert url[..|PlaceholderBase + colour|] == PlaceholderBase + colour;
    assert url[|url| - |tail|..] == tail;
    url
  }

  /** The answer given when something goes wrong: the placeholder, marked unsuccessful, with the error's message. */
  function PlaceholderResponse(prompt: string, kind: string, message: string, encode: string -> string): (resp: ImageResponse)
    ensures resp.Answered? && !resp.success
    ensures resp.service == PlaceholderService && resp.error == Some(message)
    ensures resp.imageUrl == PlaceholderUrl(prompt, kind, encode)
  {
    Answered(PlaceholderUrl(prompt, kind, encode), PlaceholderService, false, Some(message))
  }

  /**
   * The route handler, with the catch block reading the request's prompt and
   * type as its author evidently intended.  `body` is the result of
   * `request.json()` followed by the destructuring of `{ prompt, type }`: a
   * failure carries the thrown error's message.  Both a body that is not JSON
   * and the JSON `null` (whose destructuring throws a `TypeError`) fail this
   * way, and in that case neither prompt nor type was ever read, so both count
   * as missing.
   */
  function ImageRoute(body: Result<ImageRequest>, encode: string -> string): (resp: ImageResponse)
    ensures !resp.Crashed?
  {
    match body
    case Failure(message) => PlaceholderResponse("", "", message, encode)
    case Success(req) =>
      if IsMissing(req) then Rejected(400, MissingFields)
      else Answered(ImageUrl(EnhancedPrompt(req.prompt, req.kind), encode), ImageService, true, None)
  }

  /**
   * The route handler as written.  `prompt` and `type` are declared with
   * `const` inside the `try` block, so the `catch` block that builds the
   * placeholder cannot see them: reaching it raises a `ReferenceError` of its
   * own, which escapes the handler.  The catch block is reached exactly
   * when `body` is a `Failure`: a body that is not JSON, or the JSON `null`.
   */
  function ImageRouteAsWritten(body: Result<ImageRequest>, encode: string -> string): (resp: ImageResponse)
    ensures body.Failure? <==> resp.Crashed?
    ensures body.Success? ==> resp == ImageRoute(body, encode)
  {
    match body
    case Failure(_) => Crashed
    case Success(_) => ImageRoute(body, encode)
  }

  /** A body that is not JSON, or is `null`, crashes the handler as written, but gets the "Image" placeholder as intended. */
  lemma UnreadableBodyCrashesAsWritten(message: string, encode: string -> string)
    ensures ImageRouteAsWritten(Failure(message), encode) == Crashed
    ensures ImageRoute(Failure(message), encode)
      == Answered(PlaceholderBase + FoodColour + "/ffffff?text=" + encode("Image"),
                  PlaceholderService, false, Some(message))
  {
    var url := PlaceholderUrl("", "", encode);
    assert url == PlaceholderBase + FoodColour + ("/ffffff?text=" + encode("Image"));
  }

  /** A missing prompt or type is refused with 400, and only then. */
  lemma MissingFieldsRejected(req: ImageRequest, encode: string -> string)
    ensures ImageRoute(Success(req), encode).Rejected? <==> IsMissing(req)
    ensures IsMissing(req) ==> ImageRoute(Success(req), encode) == Rejected(400, "Missing prompt or type")
  {
  }

  /** Success depends only on validation: valid input always succeeds with the image service. */
  lemma SuccessIffValid(body: Result<ImageRequest>, encode: string -> string)
    ensures ImageRoute(body, encode).Answered? && ImageRoute(body, encode).success
      <==> body.Success? && !IsMissing(body.value)
    ensures body.Success? && !IsMissing(body.value) ==> ImageRoute(body, encode).service == ImageService
  {
  }

  /** The image URL carries the encoded template around the request's own prompt. */
  lemma ValidRequestUrl(req: ImageRequest, encode: string -> string)
    requires !IsMissing(req)
    ensures var resp := ImageRoute(Success(req), encode);
      resp.Answered? && ImageBase <= resp.imageUrl && EndsWith(resp.imageUrl, ImageQuery)
      && resp.imageUrl[|ImageBase|..|resp.imageUrl| - |ImageQuery|] == encode(EnhancedPrompt(req.prompt, req.kind))
      && Contains(EnhancedPrompt(req.prompt, req.kind), req.prompt)
  {
  }
}
