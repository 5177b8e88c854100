# Google Media Studio MCP server: verified model of the decision layer

The server exposes image and video generation tools over MCP. Beneath the
library calls sits a thin layer of plain decisions, and this project models
that layer and proves what it does:

- the image-input normaliser (`Utils.processImageInput`): an argument is read as a URL, a file path or inline base64, in that order, and gets a MIME type;
- the Imagen client: it checks the model's answer, keeps the first picture, and stores it as `{dir}/{id}{ext}` with a JSON sidecar `{dir}/{id}.json`;
- the tool handlers: they coerce `boolean | string` options, fill in config defaults with `||`, build a result from an optional inline item followed by a text payload, and wrap every failure in an error envelope;
- the metadata index: a strict lookup by id, and a best-effort listing of the sidecars.

The outside world is replaced by values the model takes as parameters:

- `fetch`, `readFile` and the image and video models are functions, each returning a result or an error;
- base64 and JSON are the `Codecs` record;
- the fresh uuid and the timestamp are plain arguments;
- the file system is the `Storage.FileStore` class, an in-memory map from path to bytes. Writes to the paths in its `unwritable` set fail.

Each state-changing method (`SaveGeneratedImage`, `GenerateFromText`, `GenerateImageFromText`) is proved equal to a pure effect function (`SaveEffect`, `GenerateEffect`). The lemmas are stated about those functions.

Modules, one per file:

- `Common`: Option, Result, JS truthiness and string helpers.
- `Storage`: the file store, the directory layout and the codecs.
- `ImageInput`: `src/utils/utils.ts`.
- `Imagen`: `src/services/imagenClient.ts`.
- `Tools`: what the handlers share.
- `VideoFromText`: `src/tools/generateVideoFromText.ts`.
- `VideoFromImage`: `src/tools/generateVideoFromImage.ts`.
- `ImageFromText`: `src/tools/generateImageFromText.ts`.
- `MetadataIndex`: `src/tools/generateVideo.ts`.

## Model

| member | source | states |
|---|---|---|
| ImageInput.Classify | src/utils/utils.ts:18-75 | Dispatch is total and exclusive. The input is a URL iff it starts with `http://` or `https://`. It is a path iff it is not a URL and starts with `/` or contains `:\` or `:/`. Otherwise it is inline data. |
| ImageInput.UrlLooksLikePathButIsUrl | src/utils/utils.ts:18-38 | An `http(s)://` string passes the path test (it contains `:/`), yet it always takes the URL branch. |
| ImageInput.SlashIsPath | src/utils/utils.ts:38 | A string starting with `/` is always read as a file path. |
| ImageInput.Extname | src/utils/utils.ts:45 | `path.extname` gives either nothing or a dot followed by a dot-free, slash-free tail, and the result ends the path once trailing slashes are stripped. The component `..` has no extension. |
| ImageInput.ExtnameOfNamedFile | src/utils/utils.ts:45 | A path `stem.x` with a dot-free, slash-free `x` has extension `.x`, whatever dots the directories contain. |
| ImageInput.DotfileHasNoExtension | src/utils/utils.ts:45-61 | A dotfile such as `dir/.webp` has no extension, so without a hint it falls back to `image/jpeg`. |
| ImageInput.MimeForExtension | src/utils/utils.ts:46-62 | The table: `.png` to PNG, `.gif` to GIF and `.webp` to WebP, each an iff; every other extension (including `.jpg` and `.jpeg`) maps to JPEG. |
| ImageInput.PathMimeType | src/utils/utils.ts:43-63 | A truthy hint is the type. Without one the type is always PNG, JPEG, GIF or WebP, and it is PNG exactly when the lower-cased extension is `.png`. |
| ImageInput.PathMimeFromExtension | src/utils/utils.ts:43-63 | For a file `stem.x`, a truthy hint wins. Otherwise the type is the table entry for the lower-cased `.x`. |
| ImageInput.PathMimeIgnoresCase | src/utils/utils.ts:45-62 | Without a truthy hint, the type of `stem.x` is the table entry for `.` followed by `x` lower-cased, so `.PNG` and `.png` agree. |
| ImageInput.FetchFailureNamesStatus | src/utils/utils.ts:21-23 | The fetch-failure message starts with "Failed to fetch image: ", and the HTTP status can be read back from it. |
| ImageInput.ProcessImageInput | src/utils/utils.ts:13-76 | URL branch: it succeeds iff the fetch answers with a 2xx status. A network error propagates, and a non-ok status gives the status message. The bytes are the base64 body, and the MIME type is the content type, else the hint, else `image/jpeg`. Path branch: it succeeds iff the read succeeds, and the error propagates. The result is the base64 of the file and `PathMimeType`. Inline branch: the input unchanged, with the hint or else `image/png`. |
| Storage.PathDeterminesStem | src/services/imagenClient.ts:158-174 | A file name made of a dot-free stem and an extension starting with a dot determines both parts. |
| Storage.FileStore.constructor | src/services/imagenClient.ts:162 | The store starts with the given files and the given unwritable paths. |
| Storage.FileStore.ReadFile | src/tools/generateVideo.ts:69 | `fs.readFile` succeeds iff the path exists, and then yields its bytes. |
| Storage.FileStore.WriteFile | src/services/imagenClient.ts:162 | `fs.writeFile` is refused on an unwritable path (a failure when the file is opened) and changes nothing. Otherwise it sets exactly that path. |
| Imagen.FirstImage | src/services/imagenClient.ts:36-44 | "No images generated in the response" iff the list is missing or empty. "Generated image missing image bytes" iff the first entry lacks truthy bytes. Otherwise the result is the first entry. |
| Imagen.ExtensionFor | src/services/imagenClient.ts:150-155 | `.jpg` iff the type is image/jpeg or image/jpg. `.webp` iff it is image/webp. `.png` for every other type. |
| Imagen.RecordFor | src/services/imagenClient.ts:158-172 | The sidecar record carries the id, timestamp, prompt and MIME type it was given, the decoded size, and the image path, which is never the sidecar path. |
| Imagen.SaveEffect | src/services/imagenClient.ts:140-183 | The image is written first and then the sidecar, and the call succeeds iff both paths are writable. Only those two paths change. On success the image path holds the decoded bytes and the sidecar holds the record {id, createdAt, prompt, mimeType, size = decoded length, filepath}. An image write refused at open changes nothing. A refused sidecar write leaves the image in place. Either error is rethrown. |
| Imagen.GenerateEffect | src/services/imagenClient.ts:25-54 | A model error or a failed answer check returns that error and writes nothing. A success returns the first entry, saved under `{id}.png`. |
| Imagen.GenerateSavesFirstImage | src/services/imagenClient.ts:40-51 | With a usable answer, generation has exactly the effect of saving the first entry's bytes as `image/png`, whatever number of images was requested. |
| Imagen.ImageAndSidecarDiffer | src/services/imagenClient.ts:158-174 | For every id and every MIME type, the image path and the sidecar path never coincide, because no stored extension is `.json`. |
| Imagen.DistinctIdsDistinctPaths | src/services/imagenClient.ts:147-174 | Saves under two different ids touch four pairwise different paths. |
| Imagen.SecondSaveKeepsFirst | src/services/imagenClient.ts:158-175 | A later save under a fresh id leaves an earlier image and its sidecar as they were. |
| Imagen.StoredExtensionShape | src/services/imagenClient.ts:150-155 | Every stored extension is a dot plus a lower-case name that the input normaliser's table maps back to the saved type. |
| Imagen.StoredImageReadsBack | src/services/imagenClient.ts:150-158 | Passing a stored image's path as input with no hint yields the type it was stored as. `image/jpg` comes back as `image/jpeg`, and a type outside the table comes back as PNG. |
| Imagen.ImagenClient.constructor | src/services/imagenClient.ts:22-23 | The client is bound to the image directory, the model name and the store. |
| Imagen.ImagenClient.SaveGeneratedImage | src/services/imagenClient.ts:140-183 | The returned result and the new files are exactly `SaveEffect` of the old files. The method sets `extension` through the `if` chain and performs the two writes in order. |
| Imagen.ImagenClient.GenerateFromText | src/services/imagenClient.ts:25-54 | The model is asked with the configured model name, the prompt and the config. The result and the new files are exactly `GenerateEffect` of that answer. |
| Tools.IsTrueString | src/tools/generateVideoFromText.ts:47-57 | A string coerces to true exactly when it is `"1"` or one of the sixteen letter-case spellings of `true`. |
| Tools.CoerceOr | src/tools/generateVideoFromText.ts:47-57 | The default decides only an absent option. A boolean is kept, and a string reads as true only when it is `"1"` or `true` in any case (so only strings of length 1 or 4 are true). |
| Tools.CoerceUnlessFalse | src/tools/generateImageFromText.ts:57-59 | The result is false exactly for an explicit `false` or for a string that does not read as true. Absence gives true. |
| Tools.CoercionExamples | src/tools/generateVideoFromText.ts:47-57 | `"TRUE"`, `"True"` and `"1"` coerce to true. `"false"`, `"0"`, `"yes"` and `""` coerce to false, whatever the default. |
| Tools.RawTruthy | src/tools/generateVideoFromText.ts:82 | The raw option passes the truthiness test exactly when it is `true` or a non-empty string. |
| Tools.UnlessFalseIsDefaultTrue | src/tools/generateImageFromText.ts:57-59 | The `!== false` style of coercion equals the `?? true` style. Absent means true, and only a boolean false gives false. |
| Tools.RawFalseStringIsTruthy | src/tools/generateVideoFromText.ts:82 | The raw strings `"false"` and `"0"` are truthy although they coerce to false. |
| Tools.RawAgreesOnBooleans | src/tools/generateVideoFromText.ts:53-82 | For booleans and absence, the raw truthiness test agrees with the coercion that defaults to false. |
| Tools.VideoOptionsFor | src/tools/generateVideoFromText.ts:51-73 | `includeFullData` is on exactly for `true` or a true-reading string. `autoDownload` is off exactly for `false` or a string that does not read as true. |
| Tools.VideoOptionsDefaults | src/tools/generateVideoFromText.ts:51-73 | Inline data is off exactly when the option is absent or false (for non-strings). `autoDownload` is on when absent. |
| Tools.ErrorResult | src/tools/generateVideoFromText.ts:108-120 | The error envelope is a single text item, marked as an error, that reads prefix followed by message. |
| Tools.ErrorResultInjective | src/tools/generateVideoFromText.ts:117 | The envelope keeps the message: equal envelopes carry equal messages. |
| Tools.UrisDistinguish | src/tools/generateVideoFromText.ts:97 | `images://` and `videos://` URIs are injective in the id, and no image URI equals a video URI. |
| Tools.VideoResponse | src/tools/generateVideoFromText.ts:79-120 | A client error gives the "Error generating video: " envelope. On success the text item comes last, with success, the message, videoId, `videos://id`, filepath, videoUrl and the result. It is preceded by an inline item of the video's type and data iff the raw option is truthy and the video has data. |
| Tools.FalseStringStillInlines | src/tools/generateVideoFromText.ts:82-88 | A video with data is inlined even when the option is the string `"false"`. |
| VideoFromText.TextVideoConfig | src/tools/generateVideoFromText.ts:60-67 | Field by field: aspect ratio, personGeneration, count, duration and negative prompt are the given value when it is truthy (present and non-empty, or non-zero), and otherwise 16:9, dont_allow, 1, 5 and the empty string. `enhancePrompt` is the coerced option, defaulting to false. No defaulted field is falsy. |
| VideoFromText.DefaultsIdempotent | src/tools/generateVideoFromText.ts:60-67 | Applying the defaults to an already completed config changes nothing. |
| VideoFromText.DefaultConfig | src/tools/generateVideoFromText.ts:60-67 | With no arguments the config is 16:9, dont_allow, 1 video, 5 seconds, no enhancement, and an empty negative prompt. |
| VideoFromText.ZeroDurationIsDefault | src/tools/generateVideoFromText.ts:64 | A duration of 0 is falsy: it becomes 5, the same as an absent duration. |
| VideoFromText.GivenValuesKept | src/tools/generateVideoFromText.ts:60-67 | Each truthy value is passed through unchanged, independently of what the other fields hold. |
| VideoFromText.GenerateVideoFromText | src/tools/generateVideoFromText.ts:31-121 | The client is called with the prompt, the defaulted config and the coerced options. The handler returns `VideoResponse` of the client's answer, with the inline item gated on the raw option. |
| VideoFromImage.ExtractImage | src/tools/generateVideoFromImage.ts:47-57 | A string image passes through with no MIME hint. An object contributes its data and its MIME type. |
| VideoFromImage.ImageVideoConfig | src/tools/generateVideoFromImage.ts:73-79 | The config has no personGeneration. Aspect ratio, count, duration and negative prompt are the given value when truthy, else 16:9, 1, 5 and the empty string. `enhancePrompt` is the coerced option, defaulting to false. |
| VideoFromImage.ImageVideoCallFor | src/tools/generateVideoFromImage.ts:88-94 | The client receives the extracted data, the prompt as given (possibly absent), the defaulted config, the coerced options and the MIME hint, in that order. |
| VideoFromImage.ConfigAgreesWithTextTool | src/tools/generateVideoFromImage.ts:73-79 | From the same values, both video tools build the same config, except that this one has no personGeneration. |
| VideoFromImage.GenerateVideoFromImage | src/tools/generateVideoFromImage.ts:31-139 | The handler returns `VideoResponse` of the client's answer to `ImageVideoCallFor(args)`: the same coercions and response shape as the text tool. |
| ImageFromText.ImageConfigFor | src/tools/generateImageFromText.ts:42-44 | numberOfImages is never 0. It is the given value when that is non-zero, and 1 when it is absent or 0. |
| ImageFromText.ImageResponse | src/tools/generateImageFromText.ts:49-98 | A generation error, or missing bytes, gives the "Error generating image: " envelope. Otherwise the text item comes last with success, the message, imageId, `images://id` and filepath. It is preceded by an `image/png` item with the bytes iff includeFullData coerces true (the default). |
| ImageFromText.SecondBytesCheckUnreachable | src/tools/generateImageFromText.ts:49-51 | A successful generation always kept an entry with bytes, so the handler's own check never fires. |
| ImageFromText.SuccessfulGenerationInlinesStoredImage | src/tools/generateImageFromText.ts:47-68 | With a usable answer and a writable directory, the default result inlines the same base64 whose decoding was stored at `{id}.png`. |
| ImageFromText.GenerateImageFromText | src/tools/generateImageFromText.ts:32-99 | The files change exactly as `GenerateEffect` says for the defaulted config, and the result is `ImageResponse` of the generation. |
| MetadataIndex.GetImageMetadata | src/tools/generateVideo.ts:31-40 | Success iff `{id}.json` exists and parses, yielding the parsed record. Every failure is "Image metadata not found: id". |
| MetadataIndex.GetImageResponse | src/tools/generateVideo.ts:48-115 | Failed metadata gives the "Error getting image: " envelope. On success the text item comes last and echoes the record, with `images://` plus the record's id. It is preceded by an inline item iff includeFullData holds (by default it does), the filepath is non-empty and the file can be read. The inline item has the record's type (else `image/png`) and the base64 of the file. |
| MetadataIndex.GetImage | src/tools/generateVideo.ts:48-115 | The handler equals `GetImageResponse` of the store's files. A failed image read is skipped. |
| MetadataIndex.SaveThenGet | src/tools/generateVideo.ts:31-95 | After a successful save, a lookup by id gives back the record the save wrote, and by default inlines the stored bytes. |
| MetadataIndex.MetadataFileNames | src/tools/generateVideo.ts:130 | A name is kept iff it ends in `.json`, and at most as many names come out as went in. |
| MetadataIndex.MetadataFileNamesAppend | src/tools/generateVideo.ts:130 | Filtering is done name by name: two runs of names filter to the concatenation of their results, so directory order is kept. |
| MetadataIndex.ParseEntry | src/tools/generateVideo.ts:133-142 | An entry yields a record iff its file exists and parses, and then it is the parsed record. A read or parse failure yields nothing. |
| MetadataIndex.ReadRecords | src/tools/generateVideo.ts:133-145 | The failures are dropped, so there are never more records than entries. |
| MetadataIndex.ReadRecordsAppend | src/tools/generateVideo.ts:133-145 | Reading is done entry by entry: two runs of entries read as the concatenation of their records, so order is preserved. |
| MetadataIndex.DropsUnreadableEntry | src/tools/generateVideo.ts:134-145 | An entry that fails to read or parse is dropped, and nothing else moves. |
| MetadataIndex.AllParsedAllListed | src/tools/generateVideo.ts:133-145 | When every entry parses, there is one record per entry, in the same order. |
| MetadataIndex.ListingSoundAndComplete | src/tools/generateVideo.ts:133-145 | A record is listed iff some entry parses to it. |
| MetadataIndex.Summary | src/tools/generateVideo.ts:155-163 | A listing row copies id, timestamp, prompt, path, MIME type and size from its record, and its URI is `images://` plus the id. |
| MetadataIndex.ListImagesResponse | src/tools/generateVideo.ts:122-182 | A directory error gives the "Error listing images: " envelope. On success each parsed record yields one summary, in order. Each summary has `images://id`, and count equals the number of summaries, which is at most the number of entries. |
| MetadataIndex.SavedImageIsListed | src/tools/generateVideo.ts:130-163 | An image saved successfully, whose sidecar is in the directory listing, appears in the listing with the record the save wrote. |
| MetadataIndex.VideoSummaryOf | src/tools/generateVideo.ts:202-209 | A video row copies id, timestamp, prompt, path and URL from its metadata, and its URI is `videos://` plus the id. |
| MetadataIndex.ListVideosResponse | src/tools/generateVideo.ts:189-228 | A client error gives the "Error listing videos: " envelope. Otherwise, in order, each video yields a row that copies id, createdAt, prompt, filepath and videoUrl, with `videos://id`. The count equals the number of videos. |

## Left out

- `src/index.ts`: the MCP server, tool registration, zod schemas (including schema-level defaults) and the stdio transport.
- The video client (`veoClient`): the video submission, polling and download logic are not part of this model. Its answers are the `veo` parameter of the video handlers and the `videos` argument of the video listing.
- The Google GenAI calls: the image model is the `provider` parameter.
- Real network and disk I/O: `fetch` and `readFile` are parameters, and the disk is `FileStore`.
- The module-level `mkdir` / `process.exit(1)` blocks: the image directory is assumed to exist.
- uuid generation and `new Date().toISOString()`: the id and timestamp are arguments. Distinct ids are assumed where a lemma needs them (ids unequal); only `Imagen.StoredImageReadsBack` also assumes a uuid-like id (`IdLike`: non-empty, without dots or slashes).
- Base64 and JSON: they are the abstract `Codecs`. `JsonRoundTrips` is assumed only by the lemmas that read back what was written. A JSON text that parses to `null` is one of the inputs `jsonDecode` maps to `None`.
- The `JSON.stringify(..., null, 2)` formatting of the text payloads: payloads are kept as structured values.
- `Promise.all`: the listing reads its entries one after another, which gives the same result because reads do not change the store.
- Logging.
- `path.resolve`: it is taken as `dir + "/" + name` for a normalised absolute directory. Windows (`path.win32`) path rules are not modelled; `path.extname` follows Node's posix rules.
- Ids are assumed plain file names. `path.resolve` normalises `..` segments and restarts at a leading `/`, so an id such as `..`, `../x` or `/tmp/x` names a file outside the image directory; the model still joins it as `dir + "/" + id`.
- The directory listing of `listGeneratedImages` (what `fs.readdir` returns, or the error it throws) is an argument and is not derived from `FileStore`, because `readdir`'s order is not modelled. For this reason `MetadataIndex.SavedImageIsListed` requires the sidecar's name to be among the entries.
- A sidecar whose JSON text is `null`: `getImage` then fails on the first property it reads from `metadata` (`filepath` when inline data is wanted, `id` otherwise) and answers "Error getting image: " with the runtime's `TypeError` message, whereas the model answers with the "Image metadata not found" message because `jsonDecode` gives `None`. The listing drops such a sidecar (its `image !== null` filter), and there the model agrees with the code.
- A `response.arrayBuffer()` that rejects after an ok status (src/utils/utils.ts:25): `FetchReply` has no such case, so a fetched body is always available once the status is ok.
- ImageInput.PathMimeType: `toLowerCase` is modelled on ASCII letters only. This makes no difference for the compared extensions, which are ASCII.
- Tools.IsTrueString: same ASCII-only lower-casing as above.
- Storage.FileStore.WriteFile: a write is all-or-nothing. A real `fs.writeFile` opens with flag `'w'`, which creates and truncates the file, so a write that fails after that (a full disk, an I/O error) leaves an empty or partial `{id}.png` or `{id}.json` behind. A truncated sidecar does not parse, so `getImage` and the listing then behave as if it were missing.
- Sidecar records with missing or ill-typed fields: a parsed record is always a complete `MetadataRecord`.
- Non-integer, `NaN` or out-of-union values for `numberOfVideos` and `numberOfImages`: they are modelled as integers, and `durationSeconds` as a real, so `NaN` is not modelled.
- Errors thrown by `toLowerCase` on non-string values: the argument types rule them out.
- The zod schemas in `src/index.ts` default `includeFullData` to false before a handler runs. When the argument is absent, the handlers' own code applies it: `!== false` (true) in `generateImageFromText` and `getImage`. The model follows the handlers, because the schema layer is outside this model.
