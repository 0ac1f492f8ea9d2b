/** The file-type check the upload handler applies to the client's file name. */
module FileType {
  import opened Wrappers
  import opened Text
  import opened Config

  datatype MediaKind = Video | Image

  /** The pair `(is_allowed, file_type)` the check returns. */
  datatype Verdict = Verdict(isAllowed: bool, kind: Option<MediaKind>)

  /** `filename.rsplit('.', 1)[1]`: everything after the last '.'. */
  function Extension(filename: string): (ext: string)
    requires '.' in filename
    ensures '.' !in ext
    ensures |ext| < |filename| && filename[|filename| - |ext| - 1] == '.'
    ensures ext == filename[|filename| - |ext|..]
  {
    filename[LastIndexOf(filename, '.') + 1..]
  }

  /**
   * `allowed_file`: a name without '.' is rejected; otherwise the lower-cased
   * extension is looked up in the video set first and then in the image set.
   */
  function AllowedFile(filename: string, exts: ExtensionSets): (v: Verdict)
    ensures '.' !in filename ==> v == Verdict(false, None)
    ensures v.isAllowed <==> v.kind.Some?
    ensures v.kind == Some(Video) <==> '.' in filename && Lower(Extension(filename)) in exts.video
    ensures v.kind == Some(Image) <==>
      '.' in filename && Lower(Extension(filename)) !in exts.video && Lower(Extension(filename)) in exts.image
  {
    if '.' !in filename then Verdict(false, None)
    else
      var extension := Lower(Extension(filename));
      if extension in exts.video then Verdict(true, Some(Video))
      else if extension in exts.image then Verdict(true, Some(Image))
      else Verdict(false, None)
  }

  /** Lower-casing commutes with taking a suffix. */
  lemma LowerSuffix(s: string, j: nat)
    requires j <= |s|
    ensures Lower(s)[j..] == Lower(s[j..])
  {
    assert forall i :: 0 <= i < |s| - j ==> Lower(s)[j..][i] == LowerChar(s[j + i]);
  }

  /** The extension of the lower-cased name is the lower-cased extension. */
  lemma LowerExtension(filename: string)
    requires '.' in filename
    ensures '.' in Lower(filename)
    ensures Extension(Lower(filename)) == Lower(Extension(filename))
  {
    LowerKeepsLastDot(filename);
    LowerSuffix(filename, LastIndexOf(filename, '.') + 1);
  }

  /** The check is case-insensitive: a name and its lower-cased form get the same verdict. */
  lemma CaseInsensitive(filename: string, exts: ExtensionSets)
    ensures AllowedFile(Lower(filename), exts) == AllowedFile(filename, exts)
  {
    LowerKeepsLastDot(filename);
    if '.' in filename {
      LowerExtension(filename);
      LowerIdempotent(Extension(filename));
    }
  }

  /** Lower-casing twice is lower-casing once. */
  lemma LowerIdempotent(s: string)
    ensures Lower(Lower(s)) == Lower(s)
  {
    forall i | 0 <= i < |s| ensures LowerChar(LowerChar(s[i])) == LowerChar(s[i]) {}
  }

  /** Only the lower-cased text after the last '.' decides the verdict. */
  lemma OnlyExtensionMatters(f1: string, f2: string, exts: ExtensionSets)
    requires '.' in f1 && '.' in f2
    requires Lower(Extension(f1)) == Lower(Extension(f2))
    ensures AllowedFile(f1, exts) == AllowedFile(f2, exts)
  {
  }

  /** In `prefix + "." + ext` with no '.' in `ext`, the extension is `ext`, whatever `prefix` holds. */
  lemma ExtensionAfterLastDot(prefix: string, ext: string)
    requires '.' !in ext
    ensures '.' in prefix + "." + ext
    ensures Extension(prefix + "." + ext) == ext
  {
    var f := prefix + "." + ext;
    assert f[|prefix|] == '.';
    forall k | |prefix| < k < |f| ensures f[k] != '.' {
      assert f[k] == ext[k - |prefix| - 1];
    }
    LastIndexUnique(f, '.', |prefix|);
    assert f[|prefix| + 1..] == ext;
  }

  /** A name that ends in '.' has an empty extension and is rejected by the gateway's sets. */
  lemma TrailingDotRejected(prefix: string, exts: ExtensionSets)
    requires "" !in exts.video && "" !in exts.image
    ensures AllowedFile(prefix + ".", exts) == Verdict(false, None)
  {
    var f := prefix + ".";
    assert f[|f| - 1] == '.';
    LastIndexUnique(f, '.', |f| - 1);
  }

  /**
   * Because the two sets of the gateway are disjoint, the video-first order
   * hides no image extension: an image extension is always classified image.
   */
  lemma ImageNeverShadowed(filename: string)
    requires '.' in filename && Lower(Extension(filename)) in ImageExtensions
    ensures AllowedFile(filename, ExtensionSets(VideoExtensions, ImageExtensions)) == Verdict(true, Some(Image))
  {
    ExtensionSetsDisjoint();
  }

  /** `a.tar.MP4` is a video: only the part after the last '.' counts, in lower case. */
  lemma ExampleDoubleExtension()
    ensures AllowedFile("a.tar.MP4", ExtensionSets(VideoExtensions, ImageExtensions)) == Verdict(true, Some(Video))
  {
    ExtensionAfterLastDot("a.tar", "MP4");
    assert "a.tar" + "." + "MP4" == "a.tar.MP4";
    assert Lower("MP4") == "mp4";
  }

  /** `photo.JPG` is an image. */
  lemma ExamplePhoto()
    ensures AllowedFile("photo.JPG", ExtensionSets(VideoExtensions, ImageExtensions)) == Verdict(true, Some(Image))
  {
    ExtensionAfterLastDot("photo", "JPG");
    assert "photo" + "." + "JPG" == "photo.JPG";
    assert Lower("JPG") == "jpg";
  }

  /** The extension `zip` is in neither configured set. */
  lemma ZipNotConfigured()
    ensures "zip" !in VideoExtensions && "zip" !in ImageExtensions
  {
    forall x | x in VideoExtensions + ImageExtensions ensures x != "zip" {
      assert x[0] != 'z';
    }
  }

  /** The lowered extension of `archive.zip` is `zip`. */
  lemma ArchiveExtension()
    ensures '.' in "archive.zip" && Lower(Extension("archive.zip")) == "zip"
  {
    ExtensionAfterLastDot("archive", "zip");
    assert "archive" + "." + "zip" == "archive.zip";
    assert Lower("zip") == "zip";
  }

  /** `archive.zip` is rejected. */
  lemma ExampleArchive()
    ensures AllowedFile("archive.zip", ExtensionSets(VideoExtensions, ImageExtensions)) == Verdict(false, None)
  {
    ArchiveExtension();
    ZipNotConfigured();
  }
}
