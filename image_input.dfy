/**
  The image-input normaliser: an image argument is a URL, a local file path or
  inline base64 data, tried in that order, and comes out as base64 data plus a
  MIME type. The network and the local file system are oracles.
*/
module ImageInput {
  import opened Common
  import opened Storage

  /** What `fetch(url)` yields: a thrown network error, or a response. */
  datatype FetchReply =
    | NetworkError(message: string)
    | Response(status: nat, statusText: string, contentType: Option<string>, body: Bytes)

  /** `response.ok`: the status lies in 200-299 (the Fetch standard's "ok status"). */
  predicate OkStatus(status: nat)
  {
    200 <= status <= 299
  }

  /** The three ways an image argument is read. */
  datatype InputKind = Url | FilePath | Inline

  predicate IsUrl(image: string)
  {
    StartsWith(image, "http://") || StartsWith(image, "https://")
  }

  /** The path heuristic: absolute POSIX path, or a drive-letter form such as `C:\` or `C:/`. */
  predicate LooksLikePath(image: string)
  {
    StartsWith(image, "/") || Contains(image, ":\\") || Contains(image, ":/")
  }

  /** The dispatch order: the URL test comes first, then the path test, else inline data. */
  function Classify(image: string): (k: InputKind)
    ensures k == Url <==> IsUrl(image)
    ensures k == FilePath <==> !IsUrl(image) && LooksLikePath(image)
    ensures k == Inline <==> !IsUrl(image) && !LooksLikePath(image)
  {
    if IsUrl(image) then Url else if LooksLikePath(image) then FilePath else Inline
  }

  /** A URL contains `:/`, so it would pass the path test, yet it is read as a URL. */
  lemma UrlLooksLikePathButIsUrl(scheme: string, rest: string)
    requires scheme == "http://" || scheme == "https://"
    ensures LooksLikePath(scheme + rest)
    ensures Classify(scheme + rest) == Url
  {
    var s := scheme + rest;
    var k := |scheme| - 3;
    assert s[k..k + 2] == ":/";
    assert OccursAt(s, ":/", k);
    assert s[..|scheme|] == scheme;
  }

  /** A string starting with `/` is always read as a file path. */
  lemma SlashIsPath(image: string)
    requires StartsWith(image, "/")
    ensures Classify(image) == FilePath
  {
    assert image[0] == '/';
  }

  /** `p` without its trailing slashes. */
  function TrimTrailingSlashes(p: string): (t: string)
    ensures |t| <= |p| && t == p[..|t|]
    ensures t == [] || t[|t| - 1] != '/'
    ensures p != [] && p[|p| - 1] != '/' ==> t == p
  {
    if p != [] && p[|p| - 1] == '/' then TrimTrailingSlashes(p[..|p| - 1]) else p
  }

  /** The last component of a path: what follows its last `/`. */
  function LastComponent(t: string): (b: string)
    ensures EndsWith(t, b) && Free(b, '/')
  {
    t[LastIndex(t, '/') + 1..]
  }

  /**
    Node's posix `path.extname`: the part of the last path component from its
    last dot on, empty when there is no dot, when the only dot opens the
    component (`.png`), or for the component `..`.
  */
  function Extname(p: string): (e: string)
    ensures e == [] || (e[0] == '.' && Free(e[1..], '.') && Free(e, '/'))
    ensures EndsWith(TrimTrailingSlashes(p), e)
    ensures LastComponent(TrimTrailingSlashes(p)) == ".." ==> e == ""
  {
    var t := TrimTrailingSlashes(p);
    var base := LastComponent(t);
    ComponentExtensionDotLed(base);
    ComponentExtensionIsSuffix(base);
    ComponentExtensionSlashFree(base);
    EndsWithTrans(t, base, ComponentExtension(base));
    ComponentExtension(base)
  }

  /** The extension of one path component (see `Extname`). */
  function ComponentExtension(base: string): string
  {
    var d := LastIndex(base, '.');
    if d <= 0 || base == ".." then "" else base[d..]
  }

  /** The extension of a component is empty or a dot followed by no further dot. */
  lemma ComponentExtensionDotLed(base: string)
    ensures ComponentExtension(base) == [] ||
            (ComponentExtension(base)[0] == '.' && Free(ComponentExtension(base)[1..], '.'))
  {
    var d := LastIndex(base, '.');
    if d > 0 && base != ".." {
      assert ComponentExtension(base) == base[d..];
      assert base[d..][1..] == base[d + 1..];
    }
  }

  /** The extension of a component ends it. */
  lemma ComponentExtensionIsSuffix(base: string)
    ensures EndsWith(base, ComponentExtension(base))
  {
    var d := LastIndex(base, '.');
    if d > 0 && base != ".." {
      TailEndsWith(base, d);
    } else {
      TailEndsWith(base, |base|);
    }
  }

  /** The extension of a slash-free component is slash-free. */
  lemma ComponentExtensionSlashFree(base: string)
    requires Free(base, '/')
    ensures Free(ComponentExtension(base), '/')
  {
    var d := LastIndex(base, '.');
    if d > 0 && base != ".." {
      FreeSuffix(base, d, '/');
    }
  }

  /** Appending a slash-free suffix extends the last component of a path. */
  lemma LastComponentAppend(stem: string, ext: string)
    requires stem != [] && stem[|stem| - 1] != '/'
    requires Free(ext, '/')
    ensures LastComponent(stem + ext) == LastComponent(stem) + ext
    ensures LastComponent(stem) != []
  {
    LastIndexAppend(stem, ext, '/');
    var k := LastIndex(stem, '/');
    assert (stem + ext)[k + 1..] == stem[k + 1..] + ext;
  }

  /** The last dot of `b.x`, for a dot-free `x`, is the one before `x`. */
  lemma LastDotBeforeExtension(b: string, x: string)
    requires Free(x, '.')
    ensures LastIndex(b + "." + x, '.') == |b|
  {
    LastIndexAppend(b + ".", x, '.');
    assert b + "." + x == (b + ".") + x;
  }

  /** The component `c.x`, for a non-empty `c` and a dot-free `x`, has the extension `.x`. */
  lemma ComponentExtensionOfNamedFile(c: string, x: string)
    requires c != [] && x != [] && Free(x, '.')
    ensures ComponentExtension(c + "." + x) == "." + x
  {
    LastDotBeforeExtension(c, x);
    var b := c + "." + x;
    assert b[|c|..] == "." + x;
    assert |b| >= 3;
  }

  /** A file named `stem.x` has the extension `.x`, whatever dots the directories hold. */
  lemma ExtnameOfNamedFile(stem: string, x: string)
    requires stem != [] && stem[|stem| - 1] != '/'
    requires x != [] && Free(x, '.') && Free(x, '/')
    ensures Extname(stem + "." + x) == "." + x
  {
    var ext := "." + x;
    var p := stem + ext;
    assert p == stem + "." + x;
    assert p[|p| - 1] == x[|x| - 1];
    assert TrimTrailingSlashes(p) == p;
    assert Free(ext, '/');
    LastComponentAppend(stem, ext);
    var c := LastComponent(stem);
    assert LastComponent(p) == c + "." + x;
    ComponentExtensionOfNamedFile(c, x);
  }

  /** The fixed extension table, applied to an already lower-cased extension. */
  function MimeForExtension(ext: string): (m: string)
    ensures m == "image/png" <==> ext == ".png"
    ensures m == "image/gif" <==> ext == ".gif"
    ensures m == "image/webp" <==> ext == ".webp"
    ensures m != "image/png" && m != "image/gif" && m != "image/webp" ==> m == "image/jpeg"
  {
    if ext == ".png" then "image/png"
    else if ext == ".jpg" || ext == ".jpeg" then "image/jpeg"
    else if ext == ".gif" then "image/gif"
    else if ext == ".webp" then "image/webp"
    else "image/jpeg"
  }

  /** The MIME type of a file input: the caller's hint if truthy, else the lower-cased extension's. */
  function PathMimeType(image: string, hint: Option<string>): (m: string)
    ensures Truthy(hint) ==> m == hint.value
    ensures !Truthy(hint) ==> m in {"image/png", "image/jpeg", "image/gif", "image/webp"}
    ensures !Truthy(hint) ==> (m == "image/png" <==> ToLower(Extname(image)) == ".png")
  {
    if Truthy(hint) then hint.value else MimeForExtension(ToLower(Extname(image)))
  }

  /** Without a hint, a file `stem.x` gets the MIME type of `.x`, in any letter case. */
  lemma PathMimeFromExtension(stem: string, x: string, hint: Option<string>)
    requires stem != [] && stem[|stem| - 1] != '/'
    requires x != [] && Free(x, '.') && Free(x, '/')
    ensures PathMimeType(stem + "." + x, hint) ==
            if Truthy(hint) then hint.value else MimeForExtension(ToLower("." + x))
  {
    ExtnameOfNamedFile(stem, x);
  }

  /** Lower-casing leaves the dot of an extension in place. */
  lemma ToLowerDotted(x: string)
    ensures ToLower("." + x) == "." + ToLower(x)
  {
  }

  /**
    Without a truthy hint the extension is matched in any letter case: the
    MIME type of `stem.x` is the table's entry for `.` followed by `x` lower-cased.
  */
  lemma PathMimeIgnoresCase(stem: string, x: string, hint: Option<string>)
    requires stem != [] && stem[|stem| - 1] != '/'
    requires x != [] && Free(x, '.') && Free(x, '/')
    requires !Truthy(hint)
    ensures PathMimeType(stem + "." + x, hint) == MimeForExtension("." + ToLower(x))
  {
    PathMimeFromExtension(stem, x, hint);
    ToLowerDotted(x);
  }

  /** The last dot of `.x`, for a dot-free `x`, is its first character. */
  lemma DotfileLastDot(x: string)
    requires Free(x, '.')
    ensures LastIndex("." + x, '.') == 0
  {
    LastIndexAppend(".", x, '.');
  }

  /** A dotfile such as `/photos/.webp` has no extension, so without a hint it is taken for JPEG. */
  lemma DotfileHasNoExtension(dir: string, x: string)
    requires Free(x, '.') && Free(x, '/')
    ensures Extname(dir + "/." + x) == ""
    ensures PathMimeType(dir + "/." + x, None) == "image/jpeg"
  {
    var c := "." + x;
    var p := dir + "/" + c;
    assert p == dir + "/." + x;
    assert p[|p| - 1] != '/';
    assert TrimTrailingSlashes(p) == p;
    assert Free(c, '/');
    LastIndexAppend(dir + "/", c, '/');
    assert LastIndex(p, '/') == |dir|;
    assert p[|dir| + 1..] == c;
    DotfileLastDot(x);
    assert ComponentExtension(c) == "";
  }

  /** The normalised image: base64 data and its MIME type. */
  datatype ProcessedImage = ProcessedImage(imageBytes: string, mimeType: string)

  function FetchFailedMessage(status: nat, statusText: string): string
  {
    "Failed to fetch image: " + Decimal(status) + " " + statusText
  }

  /** The fetch error names the status: it can be read back from the message. */
  lemma FetchFailureNamesStatus(status: nat, statusText: string)
    ensures var msg := FetchFailedMessage(status, statusText);
            var prefix := "Failed to fetch image: ";
            StartsWith(msg, prefix) && DigitsValue(LeadingDigits(msg[|prefix|..])) == status
  {
    var prefix := "Failed to fetch image: ";
    var msg := FetchFailedMessage(status, statusText);
    assert msg[..|prefix|] == prefix;
    assert msg[|prefix|..] == Decimal(status) + " " + statusText;
    LeadingDigitsBeforeSpace(Decimal(status), statusText);
    DecimalRoundTrip(status);
  }

  /**
    `Utils.processImageInput(image, mimeType)`. Every input takes exactly one
    of the three branches; the URL branch fails on a network error or a
    non-ok status, the path branch when the file cannot be read.
  */
  function ProcessImageInput(
    image: string,
    mimeType: Option<string>,
    fetch: string -> FetchReply,
    readFile: string -> Result<Bytes>,
    base64: Bytes -> string): (r: Result<ProcessedImage>)
    ensures IsUrl(image) ==> (r.Ok? <==> fetch(image).Response? && OkStatus(fetch(image).status))
    ensures IsUrl(image) && fetch(image).NetworkError? ==> r == Err(fetch(image).message)
    ensures IsUrl(image) && fetch(image).Response? && !OkStatus(fetch(image).status) ==>
              r == Err(FetchFailedMessage(fetch(image).status, fetch(image).statusText))
    ensures IsUrl(image) && r.Ok? ==>
              r.value.imageBytes == base64(fetch(image).body) &&
              r.value.mimeType == (if Truthy(fetch(image).contentType) then fetch(image).contentType.value
                                   else if Truthy(mimeType) then mimeType.value
                                   else "image/jpeg")
    ensures Classify(image) == FilePath ==> (r.Ok? <==> readFile(image).Ok?)
    ensures Classify(image) == FilePath && r.Err? ==> r == Err(readFile(image).msg)
    ensures Classify(image) == FilePath && r.Ok? ==>
              r.value == ProcessedImage(base64(readFile(image).value), PathMimeType(image, mimeType))
    ensures Classify(image) == Inline ==>
              r == Ok(ProcessedImage(image, if Truthy(mimeType) then mimeType.value else "image/png"))
  {
    if IsUrl(image) then
      match fetch(image)
      case NetworkError(m) => Err(m)
      case Response(status, statusText, contentType, body) =>
        if !OkStatus(status) then Err(FetchFailedMessage(status, statusText))
        else Ok(ProcessedImage(base64(body), Or(contentType, "", Or(mimeType, "", "image/jpeg"))))
    else if LooksLikePath(image) then
      match readFile(image)
      case Err(m) => Err(m)
      case Ok(buffer) => Ok(ProcessedImage(base64(buffer), PathMimeType(image, mimeType)))
    else
      Ok(ProcessedImage(image, Or(mimeType, "", "image/png")))
  }
}
