/** The `generateVideoFromImage` tool: like the text tool, with an image argument and no `personGeneration`. */
module VideoFromImage {
  import opened Common
  import opened Tools
  import VideoFromText

  /** The image argument: a URL, path or base64 string, or an MCP image content object. */
  datatype ImageArg = ImageRef(s: string) | ImageContent(mimeType: string, data: string)

  /** The tool's arguments; the prompt is optional here. */
  datatype ImageVideoArgs = ImageVideoArgs(
    image: ImageArg,
    prompt: Option<string>,
    aspectRatio: Option<string>,
    numberOfVideos: Option<int>,
    durationSeconds: Option<real>,
    enhancePrompt: BoolArg,
    negativePrompt: Option<string>,
    includeFullData: BoolArg,
    autoDownload: BoolArg)

  /** What the video client receives, in the order the handler passes it. */
  datatype ImageVideoCall = ImageVideoCall(
    imageData: string,
    prompt: Option<string>,
    config: VideoConfig,
    options: VideoOptions,
    mimeType: Option<string>)

  /** The image data and MIME hint: a string passes through with no hint, an object gives its data and type. */
  function ExtractImage(image: ImageArg): (out: (string, Option<string>))
    ensures image.ImageRef? ==> out == (image.s, None)
    ensures image.ImageContent? ==> out == (image.data, Some(image.mimeType))
  {
    match image
    case ImageRef(s) => (s, None)
    case ImageContent(m, d) => (d, Some(m))
  }

  /** The config: the text tool's defaults, without `personGeneration`. */
  function ImageVideoConfig(args: ImageVideoArgs): (c: VideoConfig)
    ensures c.personGeneration.None?
    ensures c.aspectRatio != "" && c.numberOfVideos != 0 && c.durationSeconds != 0.0
    ensures c.aspectRatio == (if Truthy(args.aspectRatio) then args.aspectRatio.value else "16:9")
    ensures c.numberOfVideos ==
            (if args.numberOfVideos.Some? && args.numberOfVideos.value != 0 then args.numberOfVideos.value else 1)
    ensures c.durationSeconds ==
            (if args.durationSeconds.Some? && args.durationSeconds.value != 0.0 then args.durationSeconds.value else 5.0)
    ensures c.enhancePrompt == CoerceOr(args.enhancePrompt, false)
    ensures c.negativePrompt == (if Truthy(args.negativePrompt) then args.negativePrompt.value else "")
  {
    VideoConfig(
      Or(args.aspectRatio, "", "16:9"),
      None,
      Or(args.numberOfVideos, 0, 1),
      Or(args.durationSeconds, 0.0, 5.0),
      CoerceOr(args.enhancePrompt, false),
      Or(args.negativePrompt, "", ""))
  }

  /** The call passed to the video client: data, prompt as given, config, options, MIME hint. */
  function ImageVideoCallFor(args: ImageVideoArgs): (call: ImageVideoCall)
    ensures call.prompt == args.prompt
    ensures call.config == ImageVideoConfig(args)
    ensures (call.imageData, call.mimeType) == ExtractImage(args.image)
    ensures call.options == VideoOptionsFor(args.includeFullData, args.autoDownload)
  {
    var (data, mime) := ExtractImage(args.image);
    ImageVideoCall(data, args.prompt, ImageVideoConfig(args), VideoOptionsFor(args.includeFullData, args.autoDownload), mime)
  }

  /** The two video tools build the same config from the same values, except that this one has no `personGeneration`. */
  lemma ConfigAgreesWithTextTool(args: ImageVideoArgs, personGeneration: Option<string>)
    ensures var t := VideoFromText.TextVideoArgs(
              "", args.aspectRatio, personGeneration, args.numberOfVideos, args.durationSeconds,
              args.enhancePrompt, args.negativePrompt, args.includeFullData, args.autoDownload);
            ImageVideoConfig(args) == VideoFromText.TextVideoConfig(t).(personGeneration := None)
  {
  }

  /**
    The handler: `veo` stands for the video client's `generateFromImage`. The
    image data and hint are set in branches, then the result is built by pushes.
  */
  method GenerateVideoFromImage(args: ImageVideoArgs, veo: ImageVideoCall -> Result<VideoResult>)
    returns (r: ToolResult)
    ensures r == VideoResponse(veo(ImageVideoCallFor(args)), args.includeFullData)
  {
    var imageData: string;
    var mimeType: Option<string> := None;
    if args.image.ImageRef? {
      imageData := args.image.s;
    } else {
      imageData := args.image.data;
      mimeType := Some(args.image.mimeType);
    }
    var config := ImageVideoConfig(args);
    var options := VideoOptionsFor(args.includeFullData, args.autoDownload);
    var result := veo(ImageVideoCall(imageData, args.prompt, config, options, mimeType));
    if result.Err? {
      return ErrorResult(VideoErrorPrefix, result.msg);
    }
    var v := result.value;
    var responseContent: seq<ContentItem> := [];
    if RawTruthy(args.includeFullData) && Truthy(v.videoData) {
      responseContent := responseContent + [ImageItem(v.mimeType, v.videoData.value)];
    }
    responseContent := responseContent + [TextItem(Json(VideoGenerated(
      true, "Video generated successfully", v.id, VideoUri(v.id), v.filepath, v.videoUrl, v)))];
    return ToolResult(false, responseContent);
  }
}
