/**
  What the tool handlers share: the coercion of `boolean | string` options,
  the content items of a tool result, the error envelope, the resource URIs,
  and the values exchanged with the video client.
*/
module Tools {
  import opened Common

  /** A `boolean | string` option as it arrives: absent, a boolean, or a string. */
  datatype BoolArg = Absent | Bool(b: bool) | Str(s: string)

  /**
    `s.toLowerCase() === 'true' || s === '1'`: the strings that coerce to true
    are `"1"` and the sixteen spellings of `true` in any letter case.
  */
  function IsTrueString(s: string): (b: bool)
    ensures b <==>
            s == "1" ||
            (|s| == 4 && (s[0] == 't' || s[0] == 'T') && (s[1] == 'r' || s[1] == 'R') &&
                         (s[2] == 'u' || s[2] == 'U') && (s[3] == 'e' || s[3] == 'E'))
  {
    ToLower(s) == "true" || s == "1"
  }

  /**
    `typeof a === 'string' ? IsTrueString(a) : a ?? d`: the default decides
    only an absent option, a boolean is kept, a string is parsed.
  */
  function CoerceOr(a: BoolArg, d: bool): (r: bool)
    ensures a.Absent? ==> r == d
    ensures a.Bool? ==> r == a.b
    ensures a.Str? ==> (r <==> IsTrueString(a.s)) && (r ==> |a.s| == 1 || |a.s| == 4)
  {
    match a
    case Absent => d
    case Bool(b) => b
    case Str(s) => IsTrueString(s)
  }

  /**
    `typeof a === 'string' ? IsTrueString(a) : a !== false`: false comes only
    from an explicit `false` or from a string that does not read as true.
  */
  function CoerceUnlessFalse(a: BoolArg): (r: bool)
    ensures !r <==> a == Bool(false) || (a.Str? && !IsTrueString(a.s))
  {
    if a.Str? then IsTrueString(a.s) else a != Bool(false)
  }

  /**
    The raw option tested for truthiness, as `if (args.includeFullData && ...)`
    does: only `true` and non-empty strings pass.
  */
  function RawTruthy(a: BoolArg): (r: bool)
    ensures r <==> a == Bool(true) || (a.Str? && a.s != "")
  {
    match a
    case Absent => false
    case Bool(b) => b
    case Str(s) => s != ""
  }

  /** `"TRUE"`, `"True"` and `"1"` are true; `"false"`, `"0"`, `"yes"` and `""` are false. */
  lemma CoercionExamples()
    ensures CoerceOr(Str("TRUE"), false) && CoerceOr(Str("True"), false) && CoerceOr(Str("1"), false)
    ensures !CoerceOr(Str("false"), true) && !CoerceOr(Str("0"), true)
    ensures !CoerceOr(Str("yes"), true) && !CoerceOr(Str(""), true)
  {
  }

  /** The `!== false` style of default is the `?? true` style. */
  lemma UnlessFalseIsDefaultTrue(a: BoolArg)
    ensures CoerceUnlessFalse(a) == CoerceOr(a, true)
  {
  }

  /**
    The raw truthiness test and the coercion disagree on strings: `"false"`
    and `"0"` are truthy although they coerce to false.
  */
  lemma RawFalseStringIsTruthy()
    ensures RawTruthy(Str("false")) && !CoerceOr(Str("false"), false)
    ensures RawTruthy(Str("0")) && !CoerceOr(Str("0"), false)
  {
  }

  /** The raw test and the coercion agree on booleans and on absence (default false). */
  lemma RawAgreesOnBooleans(a: BoolArg)
    requires !a.Str?
    ensures RawTruthy(a) == CoerceOr(a, false)
  {
  }

  /** What the video client returns for a generated video. */
  datatype VideoResult = VideoResult(
    id: string,
    filepath: string,
    videoUrl: Option<string>,
    mimeType: string,
    videoData: Option<string>)

  /** A stored video as the video client lists it. */
  datatype VideoMetadata = VideoMetadata(
    id: string,
    createdAt: string,
    prompt: string,
    filepath: string,
    videoUrl: Option<string>)

  /** The generation config handed to the video client; the image handler sends no `personGeneration`. */
  datatype VideoConfig = VideoConfig(
    aspectRatio: string,
    personGeneration: Option<string>,
    numberOfVideos: int,
    durationSeconds: real,
    enhancePrompt: bool,
    negativePrompt: string)

  datatype VideoOptions = VideoOptions(includeFullData: bool, autoDownload: bool)

  /** The options both video handlers send: `includeFullData` defaults to false, `autoDownload` to true. */
  function VideoOptionsFor(includeFullData: BoolArg, autoDownload: BoolArg): (o: VideoOptions)
    ensures o.includeFullData <==> includeFullData == Bool(true) || (includeFullData.Str? && IsTrueString(includeFullData.s))
    ensures !o.autoDownload <==> autoDownload == Bool(false) || (autoDownload.Str? && !IsTrueString(autoDownload.s))
  {
    VideoOptions(CoerceOr(includeFullData, false), CoerceOr(autoDownload, true))
  }

  /** Left out, the options ask for no inline data and for the download. */
  lemma VideoOptionsDefaults(includeFullData: BoolArg, autoDownload: BoolArg)
    ensures (includeFullData.Absent? || includeFullData == Bool(false)) <==>
            !VideoOptionsFor(includeFullData, autoDownload).includeFullData && !includeFullData.Str?
    ensures autoDownload.Absent? ==> VideoOptionsFor(includeFullData, autoDownload).autoDownload
  {
  }

  /** One row of the image listing. */
  datatype ImageSummary = ImageSummary(
    id: string,
    createdAt: string,
    prompt: string,
    resourceUri: string,
    filepath: string,
    mimeType: string,
    size: nat)

  /** One row of the video listing. */
  datatype VideoSummary = VideoSummary(
    id: string,
    createdAt: string,
    prompt: string,
    resourceUri: string,
    filepath: string,
    videoUrl: Option<string>)

  /** The objects the handlers serialise with `JSON.stringify` into their text item. */
  datatype Payload =
    | VideoGenerated(success: bool, message: string, videoId: string, resourceUri: string,
                     filepath: string, videoUrl: Option<string>, metadata: VideoResult)
    | ImageGenerated(success: bool, message: string, imageId: string, resourceUri: string, filepath: string)
    | ImageRetrieved(success: bool, message: string, imageId: string, resourceUri: string, filepath: string,
                     prompt: string, createdAt: string, mimeType: string, size: nat)
    | ImageListing(success: bool, count: nat, images: seq<ImageSummary>)
    | VideoListing(success: bool, count: nat, videos: seq<VideoSummary>)

  /** The text of a text item: a plain message, or a serialised payload. */
  datatype Text = Plain(s: string) | Json(payload: Payload)

  /** An item of a tool result; inline media travel as `image` items. */
  datatype ContentItem = ImageItem(mimeType: string, data: string) | TextItem(text: Text)

  datatype ToolResult = ToolResult(isError: bool, content: seq<ContentItem>)

  const VideoErrorPrefix: string := "Error generating video: "
  const ImageErrorPrefix: string := "Error generating image: "
  const GetImageErrorPrefix: string := "Error getting image: "
  const ListImagesErrorPrefix: string := "Error listing images: "
  const ListVideosErrorPrefix: string := "Error listing videos: "

  /** The handlers' `catch` block: a single text item naming the error. */
  function ErrorResult(prefix: string, msg: string): (r: ToolResult)
    ensures r.isError && |r.content| == 1 && r.content[0].TextItem? && r.content[0].text.Plain?
    ensures StartsWith(r.content[0].text.s, prefix) && r.content[0].text.s[|prefix|..] == msg
  {
    ToolResult(true, [TextItem(Plain(prefix + msg))])
  }

  /** The error envelope loses nothing: equal envelopes carry equal messages. */
  lemma ErrorResultInjective(prefix: string, m1: string, m2: string)
    requires ErrorResult(prefix, m1) == ErrorResult(prefix, m2)
    ensures m1 == m2
  {
  }

  function ImageUri(id: string): string
  {
    "images://" + id
  }

  function VideoUri(id: string): string
  {
    "videos://" + id
  }

  /** Resource URIs name their resource: different ids give different URIs, and images never clash with videos. */
  lemma UrisDistinguish(a: string, b: string)
    ensures ImageUri(a) == ImageUri(b) ==> a == b
    ensures VideoUri(a) == VideoUri(b) ==> a == b
    ensures ImageUri(a) != VideoUri(b)
  {
    if ImageUri(a) == ImageUri(b) {
      assert a == ImageUri(a)[9..] && b == ImageUri(b)[9..];
    }
    if VideoUri(a) == VideoUri(b) {
      assert a == VideoUri(a)[9..] && b == VideoUri(b)[9..];
    }
    assert ImageUri(a)[0] == 'i' && VideoUri(b)[0] == 'v';
  }

  /**
    The result of either video handler once the video client has answered:
    an inline item when the raw `includeFullData` is truthy and the video
    carries data, then the text payload; or the error envelope.
  */
  function VideoResponse(outcome: Result<VideoResult>, rawInclude: BoolArg): (r: ToolResult)
    ensures outcome.Err? ==> r == ErrorResult(VideoErrorPrefix, outcome.msg)
    ensures outcome.Ok? ==>
              var v := outcome.value;
              !r.isError && 1 <= |r.content| <= 2 &&
              r.content[|r.content| - 1] ==
                TextItem(Json(VideoGenerated(true, "Video generated successfully", v.id, VideoUri(v.id),
                                             v.filepath, v.videoUrl, v))) &&
              (|r.content| == 2 <==> RawTruthy(rawInclude) && Truthy(v.videoData)) &&
              (|r.content| == 2 ==> r.content[0] == ImageItem(v.mimeType, v.videoData.value))
  {
    match outcome
    case Err(msg) => ErrorResult(VideoErrorPrefix, msg)
    case Ok(v) =>
      var text := TextItem(Json(VideoGenerated(true, "Video generated successfully", v.id, VideoUri(v.id),
                                               v.filepath, v.videoUrl, v)));
      if RawTruthy(rawInclude) && Truthy(v.videoData) then
        ToolResult(false, [ImageItem(v.mimeType, v.videoData.value), text])
      else
        ToolResult(false, [text])
  }

  /** Asking for full data as the string `"false"` still inlines a video that has data. */
  lemma FalseStringStillInlines(v: VideoResult)
    requires Truthy(v.videoData)
    ensures |VideoResponse(Ok(v), Str("false")).content| == 2
  {
  }
}
