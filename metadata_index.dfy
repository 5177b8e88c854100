/**
  The image index kept in the image directory: looking one image up by id
  through its sidecar, and listing every image whose sidecar can be read.
  Also the shaping of the video listing the video client supplies.
*/
module MetadataIndex {
  import opened Common
  import opened Storage
  import opened Imagen
  import opened Tools

  function MetadataNotFoundMessage(id: string): string
  {
    "Image metadata not found: " + id
  }

  /** `getImageMetadata`: read and parse `{id}.json`; any failure is reported as the id not being found. */
  function GetImageMetadata(dir: string, id: string, files: map<string, Bytes>, codecs: Codecs): (r: Result<MetadataRecord>)
    ensures r.Err? ==> r == Err(MetadataNotFoundMessage(id))
    ensures r.Ok? <==> SidecarPath(dir, id) in files && codecs.jsonDecode(files[SidecarPath(dir, id)]).Some?
    ensures r.Ok? ==> Some(r.value) == codecs.jsonDecode(files[SidecarPath(dir, id)])
  {
    match ReadFrom(files, SidecarPath(dir, id))
    case Err(_) => Err(MetadataNotFoundMessage(id))
    case Ok(json) =>
      match codecs.jsonDecode(json)
      case None => Err(MetadataNotFoundMessage(id))
      case Some(m) => Ok(m)
  }

  datatype GetImageArgs = GetImageArgs(id: string, includeFullData: BoolArg)

  /** `metadata.mimeType || 'image/png'` */
  function InlineMimeType(m: MetadataRecord): string
  {
    if m.mimeType != "" then m.mimeType else "image/png"
  }

  function RetrievedText(m: MetadataRecord): ContentItem
  {
    TextItem(Json(ImageRetrieved(true, "Image retrieved successfully", m.id, ImageUri(m.id), m.filepath,
                                 m.prompt, m.createdAt, m.mimeType, m.size)))
  }

  /**
    The result of `getImage`: the error envelope when the metadata cannot be
    had; otherwise the image inlined when wanted (by default it is), when the
    record names a file and when that file can be read, then the metadata.
  */
  function GetImageResponse(args: GetImageArgs, dir: string, files: map<string, Bytes>, codecs: Codecs): (r: ToolResult)
    ensures GetImageMetadata(dir, args.id, files, codecs).Err? ==>
              r == ErrorResult(GetImageErrorPrefix, MetadataNotFoundMessage(args.id))
    ensures GetImageMetadata(dir, args.id, files, codecs).Ok? ==>
              var m := GetImageMetadata(dir, args.id, files, codecs).value;
              !r.isError && 1 <= |r.content| <= 2 &&
              r.content[|r.content| - 1] == RetrievedText(m) &&
              (|r.content| == 2 <==> CoerceUnlessFalse(args.includeFullData) && m.filepath != "" && m.filepath in files) &&
              (|r.content| == 2 ==> r.content[0] == ImageItem(InlineMimeType(m), codecs.base64Encode(files[m.filepath])))
  {
    match GetImageMetadata(dir, args.id, files, codecs)
    case Err(msg) => ErrorResult(GetImageErrorPrefix, msg)
    case Ok(m) =>
      if CoerceUnlessFalse(args.includeFullData) && m.filepath != "" && m.filepath in files then
        ToolResult(false, [ImageItem(InlineMimeType(m), codecs.base64Encode(files[m.filepath])), RetrievedText(m)])
      else
        ToolResult(false, [RetrievedText(m)])
  }

  /** The `getImage` handler; a failed read of the image file is skipped and the call still succeeds. */
  method GetImage(args: GetImageArgs, dir: string, fs: FileStore, codecs: Codecs) returns (r: ToolResult)
    ensures r == GetImageResponse(args, dir, fs.files, codecs)
  {
    var metadata := GetImageMetadata(dir, args.id, fs.files, codecs);
    if metadata.Err? {
      return ErrorResult(GetImageErrorPrefix, metadata.msg);
    }
    var m := metadata.value;
    var includeFullData := CoerceUnlessFalse(args.includeFullData);
    var responseContent: seq<ContentItem> := [];
    if includeFullData && m.filepath != "" {
      var imageData := fs.ReadFile(m.filepath);
      if imageData.Ok? {
        var mime := if m.mimeType != "" then m.mimeType else "image/png";
        responseContent := responseContent + [ImageItem(mime, codecs.base64Encode(imageData.value))];
      }
    }
    responseContent := responseContent + [RetrievedText(m)];
    return ToolResult(false, responseContent);
  }

  /**
    Saving an image and then getting it by its id gives back the record the
    save wrote and, by default, the stored bytes re-encoded.
  */
  lemma SaveThenGet(files: map<string, Bytes>, unwritable: set<string>, dir: string,
                    imageBytes: string, prompt: string, mimeType: string,
                    id: string, createdAt: string, codecs: Codecs)
    requires JsonRoundTrips(codecs)
    requires SaveEffect(files, unwritable, dir, imageBytes, prompt, mimeType, id, createdAt, codecs).0.Ok?
    ensures var files' := SaveEffect(files, unwritable, dir, imageBytes, prompt, mimeType, id, createdAt, codecs).1;
            var buffer := codecs.base64Decode(imageBytes);
            var m := RecordFor(dir, id, createdAt, prompt, mimeType, buffer);
            GetImageMetadata(dir, id, files', codecs) == Ok(m) &&
            GetImageResponse(GetImageArgs(id, Absent), dir, files', codecs).content ==
              [ImageItem(InlineMimeType(m), codecs.base64Encode(buffer)), RetrievedText(m)]
  {
    var files' := SaveEffect(files, unwritable, dir, imageBytes, prompt, mimeType, id, createdAt, codecs).1;
    var buffer := codecs.base64Decode(imageBytes);
    var m := RecordFor(dir, id, createdAt, prompt, mimeType, buffer);
    ImageAndSidecarDiffer(dir, id, mimeType);
    assert codecs.jsonDecode(codecs.jsonEncode(m)) == Some(m);
    assert GetImageMetadata(dir, id, files', codecs) == Ok(m);
    assert m.filepath != "";
  }

  /** The directory entries the listing considers: the names ending in `.json`, in order. */
  function MetadataFileNames(names: seq<string>): (r: seq<string>)
    ensures |r| <= |names|
    ensures forall x :: x in r <==> x in names && EndsWith(x, ".json")
  {
    if names == [] then []
    else if EndsWith(names[0], ".json") then [names[0]] + MetadataFileNames(names[1..])
    else MetadataFileNames(names[1..])
  }

  /** Filtering two runs of names is filtering each run, in order. */
  lemma {:induction false} MetadataFileNamesAppend(a: seq<string>, b: seq<string>)
    ensures MetadataFileNames(a + b) == MetadataFileNames(a) + MetadataFileNames(b)
  {
    if a == [] {
      assert a + b == b;
    } else {
      assert (a + b)[0] == a[0];
      assert (a + b)[1..] == a[1..] + b;
      MetadataFileNamesAppend(a[1..], b);
    }
  }

  /** Reading and parsing one sidecar of the listing; `None` when either fails. */
  function ParseEntry(dir: string, name: string, files: map<string, Bytes>, codecs: Codecs): (r: Option<MetadataRecord>)
    ensures r.Some? <==> Join(dir, name) in files && codecs.jsonDecode(files[Join(dir, name)]).Some?
    ensures r.Some? ==> r == codecs.jsonDecode(files[Join(dir, name)])
  {
    match ReadFrom(files, Join(dir, name))
    case Err(_) => None
    case Ok(json) => codecs.jsonDecode(json)
  }

  /** The records of the listing: each entry parsed in turn, the failures dropped. */
  function ReadRecords(dir: string, names: seq<string>, files: map<string, Bytes>, codecs: Codecs): (recs: seq<MetadataRecord>)
    ensures |recs| <= |names|
  {
    if names == [] then []
    else
      var first := ParseEntry(dir, names[0], files, codecs);
      (if first.Some? then [first.value] else []) + ReadRecords(dir, names[1..], files, codecs)
  }

  /** Reading the records of two runs of entries is reading each run, in order. */
  lemma {:induction false} ReadRecordsAppend(dir: string, a: seq<string>, b: seq<string>,
                                               files: map<string, Bytes>, codecs: Codecs)
    ensures ReadRecords(dir, a + b, files, codecs) == ReadRecords(dir, a, files, codecs) + ReadRecords(dir, b, files, codecs)
  {
    if a == [] {
      assert a + b == b;
    } else {
      assert (a + b)[0] == a[0];
      assert (a + b)[1..] == a[1..] + b;
      ReadRecordsAppend(dir, a[1..], b, files, codecs);
    }
  }

  /** An entry that cannot be read or parsed is dropped and nothing else moves. */
  lemma DropsUnreadableEntry(dir: string, a: seq<string>, bad: string, b: seq<string>,
                             files: map<string, Bytes>, codecs: Codecs)
    requires ParseEntry(dir, bad, files, codecs).None?
    ensures ReadRecords(dir, a + [bad] + b, files, codecs) == ReadRecords(dir, a, files, codecs) + ReadRecords(dir, b, files, codecs)
  {
    ReadRecordsAppend(dir, a, [bad] + b, files, codecs);
    assert a + [bad] + b == a + ([bad] + b);
    assert ([bad] + b)[1..] == b;
  }

  /** When every entry parses, there is one record per entry, in the same order. */
  lemma {:induction false} AllParsedAllListed(dir: string, names: seq<string>, files: map<string, Bytes>, codecs: Codecs)
    requires forall i :: 0 <= i < |names| ==> ParseEntry(dir, names[i], files, codecs).Some?
    ensures var recs := ReadRecords(dir, names, files, codecs);
            |recs| == |names| &&
            forall i :: 0 <= i < |names| ==> Some(recs[i]) == ParseEntry(dir, names[i], files, codecs)
  {
    if names != [] {
      assert ParseEntry(dir, names[0], files, codecs).Some?;
      forall i | 0 <= i < |names[1..]| ensures ParseEntry(dir, names[1..][i], files, codecs).Some? {
        assert names[1..][i] == names[i + 1];
      }
      AllParsedAllListed(dir, names[1..], files, codecs);
    }
  }

  /** Every listed record was parsed from some entry, and every entry that parses is listed. */
  lemma {:induction false} ListingSoundAndComplete(dir: string, names: seq<string>, files: map<string, Bytes>,
                                                     codecs: Codecs, m: MetadataRecord)
    ensures m in ReadRecords(dir, names, files, codecs) <==>
            exists i :: 0 <= i < |names| && ParseEntry(dir, names[i], files, codecs) == Some(m)
  {
    if names != [] {
      ListingSoundAndComplete(dir, names[1..], files, codecs, m);
      var rest := ReadRecords(dir, names[1..], files, codecs);
      if m in ReadRecords(dir, names, files, codecs) && m !in rest {
        assert ParseEntry(dir, names[0], files, codecs) == Some(m);
      }
      if m in rest {
        var j :| 0 <= j < |names[1..]| && ParseEntry(dir, names[1..][j], files, codecs) == Some(m);
        assert names[1..][j] == names[j + 1];
      }
      if exists i :: 0 <= i < |names| && ParseEntry(dir, names[i], files, codecs) == Some(m) {
        var i :| 0 <= i < |names| && ParseEntry(dir, names[i], files, codecs) == Some(m);
        if i > 0 {
          assert names[1..][i - 1] == names[i];
        }
      }
    }
  }

  /** One row of the image listing: the record's fields, and the URI of its id. */
  function Summary(m: MetadataRecord): (s: ImageSummary)
    ensures s.id == m.id && s.createdAt == m.createdAt && s.prompt == m.prompt
    ensures s.filepath == m.filepath && s.mimeType == m.mimeType && s.size == m.size
    ensures s.resourceUri == ImageUri(s.id)
  {
    ImageSummary(m.id, m.createdAt, m.prompt, ImageUri(m.id), m.filepath, m.mimeType, m.size)
  }

  /**
    `listGeneratedImages` given the directory listing (`entries`, or the error
    `readdir` threw): one row per sidecar that could be read and parsed, in
    directory order, `count` being their number.
  */
  function ListImagesResponse(dir: string, entries: Result<seq<string>>, files: map<string, Bytes>, codecs: Codecs): (r: ToolResult)
    ensures entries.Err? ==> r == ErrorResult(ListImagesErrorPrefix, entries.msg)
    ensures entries.Ok? ==>
              var recs := ReadRecords(dir, MetadataFileNames(entries.value), files, codecs);
              !r.isError && |r.content| == 1 && r.content[0].TextItem? && r.content[0].text.Json? &&
              var p := r.content[0].text.payload;
              p.ImageListing? && p.success && p.count == |p.images| == |recs| <= |entries.value| &&
              forall i :: 0 <= i < |p.images| ==>
                p.images[i] == Summary(recs[i]) && p.images[i].resourceUri == ImageUri(recs[i].id)
  {
    match entries
    case Err(msg) => ErrorResult(ListImagesErrorPrefix, msg)
    case Ok(names) =>
      var recs := ReadRecords(dir, MetadataFileNames(names), files, codecs);
      var images := seq(|recs|, i requires 0 <= i < |recs| => Summary(recs[i]));
      ToolResult(false, [TextItem(Json(ImageListing(true, |images|, images)))])
  }

  /** A saved image whose sidecar appears in the directory listing is listed with the record the save wrote. */
  lemma SavedImageIsListed(files: map<string, Bytes>, unwritable: set<string>, dir: string,
                           imageBytes: string, prompt: string, mimeType: string,
                           id: string, createdAt: string, codecs: Codecs, entries: seq<string>)
    requires JsonRoundTrips(codecs)
    requires SaveEffect(files, unwritable, dir, imageBytes, prompt, mimeType, id, createdAt, codecs).0.Ok?
    requires id + ".json" in entries
    ensures var files' := SaveEffect(files, unwritable, dir, imageBytes, prompt, mimeType, id, createdAt, codecs).1;
            var m := RecordFor(dir, id, createdAt, prompt, mimeType, codecs.base64Decode(imageBytes));
            Summary(m) in ListImagesResponse(dir, Ok(entries), files', codecs).content[0].text.payload.images
  {
    var files' := SaveEffect(files, unwritable, dir, imageBytes, prompt, mimeType, id, createdAt, codecs).1;
    var m := RecordFor(dir, id, createdAt, prompt, mimeType, codecs.base64Decode(imageBytes));
    var name := id + ".json";
    var names := MetadataFileNames(entries);
    assert EndsWith(name, ".json") by { assert name[|name| - 5..] == ".json"; }
    assert name in names;
    assert codecs.jsonDecode(codecs.jsonEncode(m)) == Some(m);
    assert ParseEntry(dir, name, files', codecs) == Some(m);
    var i :| 0 <= i < |names| && names[i] == name;
    ListingSoundAndComplete(dir, names, files', codecs, m);
    var recs := ReadRecords(dir, names, files', codecs);
    var k :| 0 <= k < |recs| && recs[k] == m;
    var p := ListImagesResponse(dir, Ok(entries), files', codecs).content[0].text.payload;
    assert p.images[k] == Summary(m);
  }

  /** One row of the video listing: the client's fields, and the URI of its id. */
  function VideoSummaryOf(v: VideoMetadata): (s: VideoSummary)
    ensures s.id == v.id && s.createdAt == v.createdAt && s.prompt == v.prompt
    ensures s.filepath == v.filepath && s.videoUrl == v.videoUrl
    ensures s.resourceUri == VideoUri(s.id)
  {
    VideoSummary(v.id, v.createdAt, v.prompt, VideoUri(v.id), v.filepath, v.videoUrl)
  }

  /** `listGeneratedVideos` given what the video client lists (or the error it threw): one row per video, in order. */
  function ListVideosResponse(videos: Result<seq<VideoMetadata>>): (r: ToolResult)
    ensures videos.Err? ==> r == ErrorResult(ListVideosErrorPrefix, videos.msg)
    ensures videos.Ok? ==>
              !r.isError && |r.content| == 1 && r.content[0].TextItem? && r.content[0].text.Json? &&
              var p := r.content[0].text.payload;
              p.VideoListing? && p.success && p.count == |p.videos| == |videos.value| &&
              forall i :: 0 <= i < |p.videos| ==>
                var (s, v) := (p.videos[i], videos.value[i]);
                s.id == v.id && s.createdAt == v.createdAt && s.prompt == v.prompt &&
                s.resourceUri == VideoUri(v.id) && s.filepath == v.filepath && s.videoUrl == v.videoUrl
  {
    match videos
    case Err(msg) => ErrorResult(ListVideosErrorPrefix, msg)
    case Ok(vs) =>
      var rows := seq(|vs|, i requires 0 <= i < |vs| => VideoSummaryOf(vs[i]));
      ToolResult(false, [TextItem(Json(VideoListing(true, |rows|, rows)))])
  }
}
