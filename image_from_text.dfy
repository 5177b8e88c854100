/** The `generateImageFromText` tool: ask the image client for one picture and report where it was saved. */
module ImageFromText {
  import opened Common
  import opened Storage
  import opened Imagen
  import opened Tools

  /** The tool's arguments. */
  datatype ImageArgs = ImageArgs(prompt: string, numberOfImages: Option<int>, includeFullData: BoolArg)

  /** The config: `numberOfImages` as given when truthy, else one. */
  function ImageConfigFor(args: ImageArgs): (c: ImageConfig)
    ensures c.numberOfImages != 0
    ensures args.numberOfImages.Some? && args.numberOfImages.value != 0 ==> c.numberOfImages == args.numberOfImages.value
    ensures args.numberOfImages.None? || args.numberOfImages == Some(0) ==> c.numberOfImages == 1
  {
    ImageConfig(Or(args.numberOfImages, 0, 1))
  }

  /**
    The tool result once the image client has finished: the handler checks the
    bytes once more, then pushes the PNG item when `includeFullData` holds (by
    default it does) and the text item.
  */
  function ImageResponse(gen: Result<Generation>, includeFullData: BoolArg): (r: ToolResult)
    ensures gen.Err? ==> r == ErrorResult(ImageErrorPrefix, gen.msg)
    ensures gen.Ok? && !HasBytes(gen.value.generatedImage) ==> r == ErrorResult(ImageErrorPrefix, MissingBytesMessage)
    ensures gen.Ok? && HasBytes(gen.value.generatedImage) ==>
              var g := gen.value;
              !r.isError && 1 <= |r.content| <= 2 &&
              r.content[|r.content| - 1] ==
                TextItem(Json(ImageGenerated(true, "Image generated successfully", g.id, ImageUri(g.id), g.filepath))) &&
              (|r.content| == 2 <==> CoerceUnlessFalse(includeFullData)) &&
              (|r.content| == 2 ==> r.content[0] == ImageItem("image/png", BytesOf(g.generatedImage)))
  {
    if gen.Err? then ErrorResult(ImageErrorPrefix, gen.msg)
    else
      var g := gen.value;
      if !HasBytes(g.generatedImage) then ErrorResult(ImageErrorPrefix, MissingBytesMessage)
      else
        var text := TextItem(Json(ImageGenerated(true, "Image generated successfully", g.id, ImageUri(g.id), g.filepath)));
        if CoerceUnlessFalse(includeFullData) then
          ToolResult(false, [ImageItem("image/png", BytesOf(g.generatedImage)), text])
        else
          ToolResult(false, [text])
  }

  /** The handler's own bytes check never fires: a generation that succeeded kept an entry with bytes. */
  lemma SecondBytesCheckUnreachable(files: map<string, Bytes>, unwritable: set<string>, dir: string,
                                    prompt: string, response: Result<ImagesResponse>,
                                    id: string, createdAt: string, codecs: Codecs)
    ensures var gen := GenerateEffect(files, unwritable, dir, prompt, response, id, createdAt, codecs).0;
            gen.Ok? ==> HasBytes(gen.value.generatedImage)
  {
  }

  /**
    From a usable answer and a writable directory, the tool stores the first
    picture's decoded bytes as `{id}.png` and inlines the same base64 it stored.
  */
  lemma SuccessfulGenerationInlinesStoredImage(files: map<string, Bytes>, unwritable: set<string>, dir: string,
                                               args: ImageArgs, response: ImagesResponse,
                                               id: string, createdAt: string, codecs: Codecs)
    requires FirstImage(response).Ok?
    requires ImagePath(dir, id, ".png") !in unwritable && SidecarPath(dir, id) !in unwritable
    requires args.includeFullData.Absent?
    ensures var (gen, files') := GenerateEffect(files, unwritable, dir, args.prompt, Ok(response), id, createdAt, codecs);
            var data := BytesOf(response.generatedImages.value[0]);
            var r := ImageResponse(gen, args.includeFullData);
            !r.isError && |r.content| == 2 && r.content[0] == ImageItem("image/png", data) &&
            ReadFrom(files', ImagePath(dir, id, ".png")) == Ok(codecs.base64Decode(data))
  {
  }

  /**
    The handler: the image client does the generation and the saving (so
    `fs` changes as `GenerateEffect` says); the result is built by pushes.
  */
  method GenerateImageFromText(args: ImageArgs, client: ImagenClient,
                               provider: ImageRequest -> Result<ImagesResponse>,
                               id: string, createdAt: string, codecs: Codecs) returns (r: ToolResult)
    modifies client.fs
    ensures var (gen, files') :=
              GenerateEffect(old(client.fs.files), client.fs.unwritable, client.imageDir, args.prompt,
                             provider(ImageRequest(client.model, args.prompt, Some(ImageConfigFor(args)))),
                             id, createdAt, codecs);
            client.fs.files == files' && r == ImageResponse(gen, args.includeFullData)
  {
    var config := ImageConfigFor(args);
    var gen := client.GenerateFromText(args.prompt, Some(config), provider, id, createdAt, codecs);
    if gen.Err? {
      return ErrorResult(ImageErrorPrefix, gen.msg);
    }
    var generatedImage := gen.value.generatedImage;
    if !HasBytes(generatedImage) {
      return ErrorResult(ImageErrorPrefix, MissingBytesMessage);
    }
    var responseContent: seq<ContentItem> := [];
    var includeFullData := CoerceUnlessFalse(args.includeFullData);
    if includeFullData {
      responseContent := responseContent + [ImageItem("image/png", generatedImage.image.value.imageBytes.value)];
    }
    responseContent := responseContent + [TextItem(Json(ImageGenerated(
      true, "Image generated successfully", gen.value.id, ImageUri(gen.value.id), gen.value.filepath)))];
    return ToolResult(false, responseContent);
  }
}
