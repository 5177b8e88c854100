/** The `generateVideoFromText` tool: coerce the options, fill in the config defaults, call the video client. */
module VideoFromText {
  import opened Common
  import opened Tools

  /** The tool's arguments; every field but the prompt is optional. */
  datatype TextVideoArgs = TextVideoArgs(
    prompt: string,
    aspectRatio: Option<string>,
    personGeneration: Option<string>,
    numberOfVideos: Option<int>,
    durationSeconds: Option<real>,
    enhancePrompt: BoolArg,
    negativePrompt: Option<string>,
    includeFullData: BoolArg,
    autoDownload: BoolArg)

  /**
    The config sent to the video client: each field as given when truthy, else
    its default (16:9, dont_allow, 1, 5 seconds, no negative prompt).
  */
  function TextVideoConfig(args: TextVideoArgs): (c: VideoConfig)
    ensures c.aspectRatio != "" && c.personGeneration.Some? && c.personGeneration.value != ""
    ensures c.numberOfVideos != 0 && c.durationSeconds != 0.0
    ensures c.aspectRatio == (if Truthy(args.aspectRatio) then args.aspectRatio.value else "16:9")
    ensures c.personGeneration ==
            Some(if Truthy(args.personGeneration) then args.personGeneration.value else "dont_allow")
    ensures c.numberOfVideos ==
            (if args.numberOfVideos.Some? && args.numberOfVideos.value != 0 then args.numberOfVideos.value else 1)
    ensures c.durationSeconds ==
            (if args.durationSeconds.Some? && args.durationSeconds.value != 0.0 then args.durationSeconds.value else 5.0)
    ensures c.enhancePrompt == CoerceOr(args.enhancePrompt, false)
    ensures c.negativePrompt == (if Truthy(args.negativePrompt) then args.negativePrompt.value else "")
  {
    VideoConfig(
      Or(args.aspectRatio, "", "16:9"),
      Some(Or(args.personGeneration, "", "dont_allow")),
      Or(args.numberOfVideos, 0, 1),
      Or(args.durationSeconds, 0.0, 5.0),
      CoerceOr(args.enhancePrompt, false),
      Or(args.negativePrompt, "", ""))
  }

  /** The arguments a config would be read back from. */
  function ArgsOf(prompt: string, c: VideoConfig, includeFullData: BoolArg, autoDownload: BoolArg): TextVideoArgs
  {
    TextVideoArgs(prompt, Some(c.aspectRatio), c.personGeneration, Some(c.numberOfVideos),
                  Some(c.durationSeconds), Bool(c.enhancePrompt), Some(c.negativePrompt),
                  includeFullData, autoDownload)
  }

  /** Filling in the defaults twice changes nothing. */
  lemma DefaultsIdempotent(args: TextVideoArgs)
    ensures var c := TextVideoConfig(args);
            TextVideoConfig(ArgsOf(args.prompt, c, args.includeFullData, args.autoDownload)) == c
  {
  }

  /** With nothing given, the config is the documented default. */
  lemma DefaultConfig(prompt: string)
    ensures TextVideoConfig(TextVideoArgs(prompt, None, None, None, None, Absent, None, Absent, Absent)) ==
            VideoConfig("16:9", Some("dont_allow"), 1, 5.0, false, "")
  {
  }

  /** A duration of zero is falsy and becomes five seconds, as an absent one does. */
  lemma ZeroDurationIsDefault(args: TextVideoArgs)
    requires args.durationSeconds == Some(0.0)
    ensures TextVideoConfig(args) == TextVideoConfig(args.(durationSeconds := None))
    ensures TextVideoConfig(args).durationSeconds == 5.0
  {
  }

  /**
    Each truthy value is passed through unchanged, whatever the other fields
    hold.
  */
  lemma GivenValuesKept(args: TextVideoArgs)
    ensures var c := TextVideoConfig(args);
            (Truthy(args.aspectRatio) ==> c.aspectRatio == args.aspectRatio.value) &&
            (Truthy(args.personGeneration) ==> c.personGeneration == args.personGeneration) &&
            (args.numberOfVideos.Some? && args.numberOfVideos.value != 0 ==>
               c.numberOfVideos == args.numberOfVideos.value) &&
            (args.durationSeconds.Some? && args.durationSeconds.value != 0.0 ==>
               c.durationSeconds == args.durationSeconds.value) &&
            (Truthy(args.negativePrompt) ==> c.negativePrompt == args.negativePrompt.value)
  {
  }

  /**
    The handler: `veo` stands for the video client's `generateFromText`, an
    error it throws being `Err`. The result is built by pushing an optional
    inline item and then the text item.
  */
  method GenerateVideoFromText(args: TextVideoArgs, veo: (string, VideoConfig, VideoOptions) -> Result<VideoResult>)
    returns (r: ToolResult)
    ensures r == VideoResponse(veo(args.prompt, TextVideoConfig(args),
                                   VideoOptionsFor(args.includeFullData, args.autoDownload)),
                               args.includeFullData)
  {
    var config := TextVideoConfig(args);
    var options := VideoOptionsFor(args.includeFullData, args.autoDownload);
    var result := veo(args.prompt, config, options);
    if result.Err? {
      return ErrorResult(VideoErrorPrefix, result.msg);
    }
    var v := result.value;
    var responseContent: seq<ContentItem> := [];
    if RawTruthy(args.includeFullData) && Truthy(v.videoData) {
      responseContent := responseContent + [ImageItem(v.mimeType, v.videoData.value)];
    }
    responseContent := responseContent + [TextItem(Json(VideoGenerated(
      true, "Video generated successfully", v.id, VideoUri(v.id), v.filepath, v.videoUrl, v)))];
    return ToolResult(false, responseContent);
  }
}
