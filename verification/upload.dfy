/** The image upload endpoint: the extension filter, the size limit and the
    reply built from the stored file name. */
module Upload {
  import opened Wrappers
  import opened Text

  const IMAGE_EXTENSIONS: seq<string> := ["jpg", "jpeg", "png", "gif", "webp"]

  /** Five mebibytes. */
  const MAX_FILE_SIZE: nat := 5 * 1024 * 1024

  /** The pattern /\.(jpg|jpeg|png|gif|webp)$/ matched anywhere: a dot at
      some position followed by one of the extensions and then the end of
      the name. */
  predicate MatchesImagePattern(name: string) {
    exists i | 0 <= i < |name| :: name[i] == '.' && name[i + 1..] in IMAGE_EXTENSIONS
  }

  /** The same test read as a list of case-sensitive suffixes. */
  predicate HasImageSuffix(name: string) {
    exists k | 0 <= k < |IMAGE_EXTENSIONS| :: EndsWith(name, "." + IMAGE_EXTENSIONS[k])
  }

  /** A dot at `i` followed by a listed extension is a listed suffix. */
  lemma PatternGivesSuffix(name: string, i: int)
    requires 0 <= i < |name| && name[i] == '.' && name[i + 1..] in IMAGE_EXTENSIONS
    ensures HasImageSuffix(name)
  {
    var ext := name[i + 1..];
    var k :| 0 <= k < |IMAGE_EXTENSIONS| && IMAGE_EXTENSIONS[k] == ext;
    var suffix := "." + ext;
    assert |suffix| == |name| - i;
    assert name[i..] == [name[i]] + name[i + 1..];
    assert name[|name| - |suffix|..] == suffix;
    assert EndsWith(name, "." + IMAGE_EXTENSIONS[k]);
  }

  /** A listed suffix puts a dot right before a listed extension. */
  lemma SuffixGivesPattern(name: string, k: int)
    requires 0 <= k < |IMAGE_EXTENSIONS| && EndsWith(name, "." + IMAGE_EXTENSIONS[k])
    ensures MatchesImagePattern(name)
  {
    var ext := IMAGE_EXTENSIONS[k];
    var suffix := "." + ext;
    var i := |name| - |suffix|;
    assert name[i..] == suffix;
    assert name[i] == suffix[0] == '.';
    assert name[i + 1..] == name[i..][1..] == suffix[1..] == ext;
  }

  lemma ImagePatternIsSuffixTest(name: string)
    ensures MatchesImagePattern(name) <==> HasImageSuffix(name)
  {
    if MatchesImagePattern(name) {
      var i :| 0 <= i < |name| && name[i] == '.' && name[i + 1..] in IMAGE_EXTENSIONS;
      PatternGivesSuffix(name, i);
    }
    if HasImageSuffix(name) {
      var k :| 0 <= k < |IMAGE_EXTENSIONS| && EndsWith(name, "." + IMAGE_EXTENSIONS[k]);
      SuffixGivesPattern(name, k);
    }
  }

  const ONLY_IMAGES := "Only image files are allowed!"

  /** fileFilter: the error it reports, or None when the file is let through. */
  function FileFilter(originalName: string): (r: Option<string>)
    ensures r.None? <==> HasImageSuffix(originalName)
    ensures r.Some? ==> r.value == ONLY_IMAGES
  {
    ImagePatternIsSuffixTest(originalName);
    if MatchesImagePattern(originalName) then None else Some(ONLY_IMAGES)
  }

  /** The test is case-sensitive. */
  lemma UpperCaseExtensionRejected()
    ensures FileFilter("photo.JPG") == Some(ONLY_IMAGES)
  {
    var name := "photo.JPG";
    forall i | 0 <= i < |name| && name[i] == '.' ensures name[i + 1..] !in IMAGE_EXTENSIONS {
      assert i == 5;
      assert name[6..] == "JPG";
    }
  }

  /** The match is anchored at the end of the name. */
  lemma InnerExtensionRejected()
    ensures FileFilter("x.png.exe") == Some(ONLY_IMAGES)
  {
    var name := "x.png.exe";
    forall i | 0 <= i < |name| && name[i] == '.' ensures name[i + 1..] !in IMAGE_EXTENSIONS {
      assert i == 1 || i == 5;
      assert name[2..] == "png.exe";
      assert name[6..] == "exe";
    }
  }

  lemma WebpAccepted()
    ensures FileFilter("cat.webp") == None
  {
    var name := "cat.webp";
    assert name[3] == '.' && name[4..] == "webp" == IMAGE_EXTENSIONS[4];
    assert MatchesImagePattern(name);
  }

  /** multer's limit: a file of more bytes is refused. */
  predicate WithinSizeLimit(size: nat) {
    size <= MAX_FILE_SIZE
  }

  lemma SizeLimitIsFiveMegabytes()
    ensures WithinSizeLimit(5242880) && !WithinSizeLimit(5242881)
  {
  }

  /** The stored file as handed to the handler. */
  datatype StoredFile = StoredFile(filename: string)

  datatype UploadReply = UploadReply(url: string, filename: string)

  const UPLOAD_DIR := "/uploads/"

  /** uploadFile: a missing file is refused; otherwise the public URL of the
      stored file and its name. */
  function UploadFile(file: Option<StoredFile>): (r: Result<UploadReply, string>)
    ensures r.Err? <==> file.None?
    ensures r.Err? ==> r.error == "File is required"
    ensures r.Ok? ==> r.value.filename == file.value.filename && StartsWith(r.value.url, UPLOAD_DIR)
    ensures r.Ok? ==> FilenameOfUrl(r.value.url) == Some(r.value.filename)
  {
    match file
    case None => Err("File is required")
    case Some(f) =>
      var url := UPLOAD_DIR + f.filename;
      assert url[..|UPLOAD_DIR|] == UPLOAD_DIR && url[|UPLOAD_DIR|..] == f.filename;
      Ok(UploadReply(url, f.filename))
  }

  /** The file name back from an upload URL. */
  function FilenameOfUrl(url: string): Option<string> {
    if StartsWith(url, UPLOAD_DIR) then Some(url[|UPLOAD_DIR|..]) else None
  }
}
