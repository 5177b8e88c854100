/**
  The file system the program writes into, as an in-memory store, with the
  on-disk layout of the image directory and the codecs the program borrows
  from Node (base64 of `Buffer`, `JSON.stringify` / `JSON.parse`).
*/
module Storage {
  import opened Common

  type Bytes = seq<bv8>

  /** The JSON sidecar written next to every image: id, creation time, prompt, MIME type, byte size, file path. */
  datatype MetadataRecord = MetadataRecord(
    id: string,
    createdAt: string,
    prompt: string,
    mimeType: string,
    size: nat,
    filepath: string)

  /** The encoders and decoders the program takes from its runtime; they are parameters of the model. */
  datatype Codecs = Codecs(
    base64Encode: Bytes -> string,
    base64Decode: string -> Bytes,
    jsonEncode: MetadataRecord -> Bytes,
    jsonDecode: Bytes -> Option<MetadataRecord>)

  /** Parsing a sidecar gives back the record that was serialised into it. */
  ghost predicate JsonRoundTrips(c: Codecs)
  {
    forall m :: c.jsonDecode(c.jsonEncode(m)) == Some(m)
  }

  /** `path.resolve(dir, name)` for an absolute, normalised `dir` and a plain file name. */
  function Join(dir: string, name: string): string
  {
    dir + "/" + name
  }

  /** `{dir}/{id}{ext}`: where an image is stored. */
  function ImagePath(dir: string, id: string, ext: string): string
  {
    Join(dir, id + ext)
  }

  /** `{dir}/{id}.json`: where the sidecar of image `id` is stored. */
  function SidecarPath(dir: string, id: string): string
  {
    Join(dir, id + ".json")
  }

  /** Both paths of image `id` start with the directory and a slash, then the id. */
  lemma PathsSplit(dir: string, id: string, ext: string)
    ensures ImagePath(dir, id, ext) == (dir + "/") + id + ext
    ensures SidecarPath(dir, id) == (dir + "/") + id + ".json"
  {
  }

  /**
    Two names ending in suffixes whose last two characters tell them apart
    are equal only when both the stems and the suffixes are.
  */
  lemma SuffixedNamesDiffer(a: string, b: string, x: string, y: string)
    requires |x| >= 2 && |y| >= 2
    requires x[|x| - 2..] == y[|y| - 2..] ==> x == y
    requires a != b || x != y
    ensures a + x != b + y
  {
    assert (a + x)[|a + x| - 2..] == x[|x| - 2..];
    assert (b + y)[|b + y| - 2..] == y[|y| - 2..];
    if x == y {
      assert (a + x)[..|a|] == a;
      assert (b + y)[..|b|] == b;
    }
  }

  function NotFoundMessage(path: string): string
  {
    "ENOENT: no such file or directory, open '" + path + "'"
  }

  function WriteFailedMessage(path: string): string
  {
    "EACCES: permission denied, open '" + path + "'"
  }

  /** `fs.readFile(path)` against the contents of the store. */
  function ReadFrom(files: map<string, Bytes>, path: string): Result<Bytes>
  {
    if path in files then Ok(files[path]) else Err(NotFoundMessage(path))
  }

  /**
    A file name made of a dot-free stem and an extension starting with a dot
    determines both: the stem ends where the first dot after `prefix` is.
  */
  lemma PathDeterminesStem(prefix: string, a: string, b: string, e1: string, e2: string)
    requires forall i :: 0 <= i < |a| ==> a[i] != '.'
    requires forall i :: 0 <= i < |b| ==> b[i] != '.'
    requires |e1| > 0 && e1[0] == '.' && |e2| > 0 && e2[0] == '.'
    requires prefix + a + e1 == prefix + b + e2
    ensures a == b && e1 == e2
  {
    var s, t := prefix + a + e1, prefix + b + e2;
    assert forall i :: |prefix| <= i < |prefix| + |a| ==> s[i] == a[i - |prefix|] != '.';
    assert forall i :: |prefix| <= i < |prefix| + |b| ==> t[i] == b[i - |prefix|] != '.';
    assert s[|prefix| + |a|] == '.' && t[|prefix| + |b|] == '.';
    assert |a| == |b|;
    assert a == s[|prefix|..|prefix| + |a|] && b == t[|prefix|..|prefix| + |b|];
    assert e1 == s[|prefix| + |a|..] && e2 == t[|prefix| + |b|..];
  }

  /**
    The file system. `files` maps every existing path to its bytes; a write to
    a path in `unwritable` fails when the file is opened (permissions, say)
    and changes nothing.
  */
  class FileStore {
    var files: map<string, Bytes>
    const unwritable: set<string>

    constructor (files: map<string, Bytes>, unwritable: set<string>)
      ensures this.files == files && this.unwritable == unwritable
    {
      this.files := files;
      this.unwritable := unwritable;
    }

    /** `fs.readFile(path)`: the stored bytes, or an error when the file is missing. */
    function ReadFile(path: string): (r: Result<Bytes>)
      reads this
      ensures r.Ok? <==> path in files
      ensures r.Ok? ==> r.value == files[path]
    {
      ReadFrom(files, path)
    }

    /** `fs.writeFile(path, data)`: creates or replaces one file, or is refused at open and changes nothing. */
    method WriteFile(path: string, data: Bytes) returns (r: Result<()>)
      modifies this
      ensures path in unwritable ==> r == Err(WriteFailedMessage(path)) && files == old(files)
      ensures path !in unwritable ==> r == Ok(()) && files == old(files)[path := data]
    {
      if path in unwritable {
        r := Err(WriteFailedMessage(path));
      } else {
        files := files[path := data];
        r := Ok(());
      }
    }
  }
}
