/**
  The Imagen client: asks the image model for pictures, keeps the first one,
  and stores it in the image directory as `{id}{ext}` with a JSON sidecar
  `{id}.json` describing it.
*/
module Imagen {
  import opened Common
  import opened Storage
  import ImageInput

  /** The base64 payload of one generated picture; it may be missing or empty. */
  datatype ImageBlob = ImageBlob(imageBytes: Option<string>)

  /** One entry of the model's answer. */
  datatype GeneratedImage = GeneratedImage(image: Option<ImageBlob>)

  /** The model's answer; the list itself may be missing. */
  datatype ImagesResponse = ImagesResponse(generatedImages: Option<seq<GeneratedImage>>)

  datatype ImageConfig = ImageConfig(numberOfImages: int)

  /** What is sent to the image model: the configured model name, the prompt and the optional config. */
  datatype ImageRequest = ImageRequest(model: string, prompt: string, config: Option<ImageConfig>)

  /** Where a saved image went. */
  datatype Saved = Saved(id: string, filepath: string)

  /** What a successful generation returns: the saved image and the model's entry for it. */
  datatype Generation = Generation(id: string, filepath: string, generatedImage: GeneratedImage)

  const NoImagesMessage: string := "No images generated in the response"
  const MissingBytesMessage: string := "Generated image missing image bytes"

  /** `generatedImage.image?.imageBytes` is truthy. */
  predicate HasBytes(g: GeneratedImage)
  {
    g.image.Some? && Truthy(g.image.value.imageBytes)
  }

  /** The base64 payload of an entry that has one. */
  function BytesOf(g: GeneratedImage): string
    requires HasBytes(g)
  {
    g.image.value.imageBytes.value
  }

  /** The checks on the model's answer: a non-empty list whose first entry carries bytes. */
  function FirstImage(resp: ImagesResponse): (r: Result<GeneratedImage>)
    ensures r == Err(NoImagesMessage) <==>
            resp.generatedImages.None? || resp.generatedImages.value == []
    ensures r == Err(MissingBytesMessage) <==>
            resp.generatedImages.Some? && resp.generatedImages.value != [] &&
            !HasBytes(resp.generatedImages.value[0])
    ensures r.Ok? <==>
            resp.generatedImages.Some? && resp.generatedImages.value != [] &&
            HasBytes(resp.generatedImages.value[0])
    ensures r.Ok? ==> r.value == resp.generatedImages.value[0]
  {
    if resp.generatedImages.None? || |resp.generatedImages.value| == 0 then
      Err(NoImagesMessage)
    else if !HasBytes(resp.generatedImages.value[0]) then
      Err(MissingBytesMessage)
    else
      Ok(resp.generatedImages.value[0])
  }

  /** The file extension an image of a given MIME type is stored under. */
  function ExtensionFor(mimeType: string): (ext: string)
    ensures ext == ".jpg" <==> mimeType == "image/jpeg" || mimeType == "image/jpg"
    ensures ext == ".webp" <==> mimeType == "image/webp"
    ensures ext == ".png" <==> mimeType != "image/jpeg" && mimeType != "image/jpg" && mimeType != "image/webp"
  {
    if mimeType == "image/jpeg" || mimeType == "image/jpg" then ".jpg"
    else if mimeType == "image/webp" then ".webp"
    else ".png"
  }

  /** The MIME type a stored image is read back as, judged by its extension. */
  function StoredMimeType(mimeType: string): string
  {
    if mimeType == "image/jpeg" || mimeType == "image/jpg" then "image/jpeg"
    else if mimeType == "image/webp" then "image/webp"
    else "image/png"
  }

  /**
    The sidecar's record for an image saved under `id`: the caller's values,
    the decoded size, and the image's own path, which is never the sidecar's.
  */
  function RecordFor(dir: string, id: string, createdAt: string, prompt: string,
                     mimeType: string, buffer: Bytes): (m: MetadataRecord)
    ensures m.id == id && m.createdAt == createdAt && m.prompt == prompt && m.mimeType == mimeType
    ensures m.size == |buffer|
    ensures m.filepath == ImagePath(dir, id, ExtensionFor(mimeType)) && m.filepath != SidecarPath(dir, id)
  {
    ImageAndSidecarDiffer(dir, id, mimeType);
    MetadataRecord(id, createdAt, prompt, mimeType, |buffer|, ImagePath(dir, id, ExtensionFor(mimeType)))
  }

  /** A `uuid` v4 string: non-empty, with neither dots nor slashes. */
  predicate IdLike(id: string)
  {
    id != [] && Free(id, '.') && Free(id, '/')
  }

  /** `a` and `b` hold the same files, except possibly at `p` and `q`. */
  ghost predicate SameElsewhere(a: map<string, Bytes>, b: map<string, Bytes>, p: string, q: string)
  {
    forall k :: k != p && k != q ==> (k in a <==> k in b) && (k in a ==> a[k] == b[k])
  }

  /**
    The effect of `saveGeneratedImage`: decode the base64, write the image,
    then write the sidecar. A failed write stops there and is rethrown: when
    the image cannot be written nothing changes; when only the sidecar cannot
    be written the image stays behind without one.
  */
  function SaveEffect(files: map<string, Bytes>, unwritable: set<string>, dir: string,
                      imageBytes: string, prompt: string, mimeType: string,
                      id: string, createdAt: string, codecs: Codecs): (out: (Result<Saved>, map<string, Bytes>))
    ensures var (r, files') := out;
            var img := ImagePath(dir, id, ExtensionFor(mimeType));
            var side := SidecarPath(dir, id);
            var buffer := codecs.base64Decode(imageBytes);
            SameElsewhere(files, files', img, side) &&
            (r.Ok? <==> img !in unwritable && side !in unwritable) &&
            (img in unwritable ==> r == Err(WriteFailedMessage(img)) && files' == files) &&
            (img !in unwritable ==> ReadFrom(files', img) == Ok(buffer)) &&
            (img !in unwritable && side in unwritable ==>
               r == Err(WriteFailedMessage(side)) && files' == files[img := buffer]) &&
            (r.Ok? ==> r.value == Saved(id, img) &&
                       ReadFrom(files', side) ==
                         Ok(codecs.jsonEncode(RecordFor(dir, id, createdAt, prompt, mimeType, buffer))))
  {
    var img := ImagePath(dir, id, ExtensionFor(mimeType));
    var side := SidecarPath(dir, id);
    var buffer := codecs.base64Decode(imageBytes);
    ImageAndSidecarDiffer(dir, id, mimeType);
    if img in unwritable then (Err(WriteFailedMessage(img)), files)
    else if side in unwritable then (Err(WriteFailedMessage(side)), files[img := buffer])
    else
      var record := RecordFor(dir, id, createdAt, prompt, mimeType, buffer);
      (Ok(Saved(id, img)), files[img := buffer][side := codecs.jsonEncode(record)])
  }

  /**
    The effect of `generateFromText` once the model has answered (`response`
    is the answer, or the error the call threw): check the answer, then save
    the first picture as PNG.
  */
  function GenerateEffect(files: map<string, Bytes>, unwritable: set<string>, dir: string,
                          prompt: string, response: Result<ImagesResponse>,
                          id: string, createdAt: string, codecs: Codecs): (out: (Result<Generation>, map<string, Bytes>))
    ensures var (r, files') := out;
            (response.Err? ==> r == Err(response.msg) && files' == files) &&
            (response.Ok? && FirstImage(response.value).Err? ==>
               r == Err(FirstImage(response.value).msg) && files' == files) &&
            (r.Ok? ==> response.Ok? && FirstImage(response.value).Ok? &&
                       r.value == Generation(id, ImagePath(dir, id, ".png"), FirstImage(response.value).value))
  {
    if response.Err? then (Err(response.msg), files)
    else
      var first := FirstImage(response.value);
      if first.Err? then (Err(first.msg), files)
      else
        var (saved, files') := SaveEffect(files, unwritable, dir, BytesOf(first.value), prompt, "image/png",
                                          id, createdAt, codecs);
        if saved.Err? then (Err(saved.msg), files')
        else (Ok(Generation(saved.value.id, saved.value.filepath, first.value)), files')
  }

  /** A generation with a usable answer has the effect of saving its first picture as PNG. */
  lemma GenerateSavesFirstImage(files: map<string, Bytes>, unwritable: set<string>, dir: string,
                                prompt: string, response: ImagesResponse,
                                id: string, createdAt: string, codecs: Codecs)
    requires FirstImage(response).Ok?
    ensures var (r, files') := GenerateEffect(files, unwritable, dir, prompt, Ok(response), id, createdAt, codecs);
            var (s, files'') := SaveEffect(files, unwritable, dir, BytesOf(response.generatedImages.value[0]),
                                           prompt, "image/png", id, createdAt, codecs);
            files' == files'' && (r.Ok? <==> s.Ok?) && (r.Err? ==> s.Err? && r.msg == s.msg)
  {
  }

  /** The image and its sidecar never share a path. */
  lemma ImageAndSidecarDiffer(dir: string, id: string, mimeType: string)
    ensures ImagePath(dir, id, ExtensionFor(mimeType)) != SidecarPath(dir, id)
  {
    var ext := ExtensionFor(mimeType);
    var stem := dir + "/" + id;
    assert ImagePath(dir, id, ext) == stem + ext;
    assert SidecarPath(dir, id) == stem + ".json";
    assert (stem + ext)[|stem|..] == ext;
    assert (stem + ".json")[|stem|..] == ".json";
  }

  /** Saves under two different ids touch four different paths. */
  lemma DistinctIdsDistinctPaths(dir: string, id1: string, id2: string, m1: string, m2: string)
    requires id1 != id2
    ensures var p1, s1 := ImagePath(dir, id1, ExtensionFor(m1)), SidecarPath(dir, id1);
            var p2, s2 := ImagePath(dir, id2, ExtensionFor(m2)), SidecarPath(dir, id2);
            p1 != p2 && p1 != s2 && s1 != p2 && s1 != s2
  {
    var e1, e2 := ExtensionFor(m1), ExtensionFor(m2);
    var pre := dir + "/";
    PathsSplit(dir, id1, e1);
    PathsSplit(dir, id2, e2);
    assert (pre + id1)[|pre|..] == id1 && (pre + id2)[|pre|..] == id2;
    SuffixedNamesDiffer(pre + id1, pre + id2, e1, e2);
    SuffixedNamesDiffer(pre + id1, pre + id2, e1, ".json");
    SuffixedNamesDiffer(pre + id1, pre + id2, ".json", e2);
    SuffixedNamesDiffer(pre + id1, pre + id2, ".json", ".json");
  }

  /** A second save under a fresh id leaves the first image and its sidecar as they were. */
  lemma SecondSaveKeepsFirst(files: map<string, Bytes>, unwritable: set<string>, dir: string,
                             bytes1: string, prompt1: string, mime1: string, id1: string, at1: string,
                             bytes2: string, prompt2: string, mime2: string, id2: string, at2: string,
                             codecs: Codecs)
    requires id1 != id2
    requires SaveEffect(files, unwritable, dir, bytes1, prompt1, mime1, id1, at1, codecs).0.Ok?
    ensures var files1 := SaveEffect(files, unwritable, dir, bytes1, prompt1, mime1, id1, at1, codecs).1;
            var files2 := SaveEffect(files1, unwritable, dir, bytes2, prompt2, mime2, id2, at2, codecs).1;
            var p1, s1 := ImagePath(dir, id1, ExtensionFor(mime1)), SidecarPath(dir, id1);
            ReadFrom(files2, p1) == ReadFrom(files1, p1) && ReadFrom(files2, s1) == ReadFrom(files1, s1)
  {
    DistinctIdsDistinctPaths(dir, id1, id2, mime1, mime2);
  }

  /** A stored extension is a dot and a lower-case name the extension table maps back. */
  lemma StoredExtensionShape(mimeType: string)
    ensures var ext := ExtensionFor(mimeType);
            |ext| > 1 && ext == "." + ext[1..] && Free(ext[1..], '.') && Free(ext[1..], '/') &&
            ImageInput.MimeForExtension(ToLower(ext)) == StoredMimeType(mimeType)
  {
    var ext := ExtensionFor(mimeType);
    var r := ToLower(ext);
    if ext == ".jpg" {
      assert r[0] == '.' && r[1] == 'j' && r[2] == 'p' && r[3] == 'g';
    } else if ext == ".webp" {
      assert r[0] == '.' && r[1] == 'w' && r[2] == 'e' && r[3] == 'b' && r[4] == 'p';
    } else {
      assert r[0] == '.' && r[1] == 'p' && r[2] == 'n' && r[3] == 'g';
    }
  }

  /**
    Reading a stored image back by its path, with no MIME hint, gives the
    type it was saved as (`image/jpg` is read back as `image/jpeg`, and a type
    outside the table was stored as PNG).
  */
  lemma StoredImageReadsBack(dir: string, id: string, mimeType: string)
    requires IdLike(id)
    ensures ImageInput.PathMimeType(ImagePath(dir, id, ExtensionFor(mimeType)), None) == StoredMimeType(mimeType)
  {
    var ext := ExtensionFor(mimeType);
    StoredExtensionShape(mimeType);
    var stem := dir + "/" + id;
    var x := ext[1..];
    assert ImagePath(dir, id, ext) == stem + "." + x;
    assert stem[|stem| - 1] == id[|id| - 1];
    ImageInput.PathMimeFromExtension(stem, x, None);
  }

  /** The image client, bound to the image directory, the model name and the file system. */
  class ImagenClient {
    const imageDir: string
    const model: string
    const fs: FileStore

    constructor (imageDir: string, model: string, fs: FileStore)
      ensures this.imageDir == imageDir && this.model == model && this.fs == fs
    {
      this.imageDir := imageDir;
      this.model := model;
      this.fs := fs;
    }

    /** `saveGeneratedImage`, with the fresh id and the current time passed in. */
    method SaveGeneratedImage(imageBytes: string, prompt: string, mimeType: string,
                              id: string, createdAt: string, codecs: Codecs) returns (r: Result<Saved>)
      modifies fs
      ensures (r, fs.files) ==
              SaveEffect(old(fs.files), fs.unwritable, imageDir, imageBytes, prompt, mimeType, id, createdAt, codecs)
    {
      var extension := ".png";
      if mimeType == "image/jpeg" || mimeType == "image/jpg" {
        extension := ".jpg";
      } else if mimeType == "image/webp" {
        extension := ".webp";
      }
      var filepath := ImagePath(imageDir, id, extension);
      var buffer := codecs.base64Decode(imageBytes);
      var w := fs.WriteFile(filepath, buffer);
      if w.Err? {
        return Err(w.msg);
      }
      var metadata := MetadataRecord(id, createdAt, prompt, mimeType, |buffer|, filepath);
      var metadataPath := SidecarPath(imageDir, id);
      w := fs.WriteFile(metadataPath, codecs.jsonEncode(metadata));
      if w.Err? {
        return Err(w.msg);
      }
      return Ok(Saved(id, filepath));
    }

    /** `generateFromText`: `provider` stands for the image model, `id` and `createdAt` for uuid and the clock. */
    method GenerateFromText(prompt: string, config: Option<ImageConfig>,
                            provider: ImageRequest -> Result<ImagesResponse>,
                            id: string, createdAt: string, codecs: Codecs) returns (r: Result<Generation>)
      modifies fs
      ensures (r, fs.files) ==
              GenerateEffect(old(fs.files), fs.unwritable, imageDir, prompt,
                             provider(ImageRequest(model, prompt, config)), id, createdAt, codecs)
    {
      var response := provider(ImageRequest(model, prompt, config));
      if response.Err? {
        return Err(response.msg);
      }
      var images := response.value.generatedImages;
      if images.None? || |images.value| == 0 {
        return Err(NoImagesMessage);
      }
      var generatedImage := images.value[0];
      if !HasBytes(generatedImage) {
        return Err(MissingBytesMessage);
      }
      var saved := SaveGeneratedImage(generatedImage.image.value.imageBytes.value, prompt, "image/png",
                                      id, createdAt, codecs);
      if saved.Err? {
        return Err(saved.msg);
      }
      return Ok(Generation(saved.value.id, saved.value.filepath, generatedImage));
    }
  }
}
