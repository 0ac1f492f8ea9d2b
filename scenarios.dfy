/**
 * Request sequences against a freshly started gateway, checked from the
 * handlers' contracts alone.
 */
module Scenarios {
  import opened Wrappers
  import opened Config
  import opened FileType
  import opened PosixPath
  import opened Gateway

  /** The analysis output of `photo.JPG` keeps the `.JPG` extension when the sanitizer keeps the name. */
  lemma PhotoOutputName(analysisHex: string)
    ensures '/' !in "photo.JPG"
    ensures ProcessedName(analysisHex, DotSuffix("photo.JPG")) == ProcessedPrefix + analysisHex + ".JPG"
  {
    ExtensionAfterLastDot("photo", "JPG");
    assert "photo" + "." + "JPG" == "photo.JPG";
    ProcessedKeepsExtension(analysisHex, "photo.JPG", "photo.JPG");
  }

  /**
   * Upload `photo.JPG`, poll its status, download it, clean up, poll again:
   * the upload is classified image, the output keeps `.JPG`, the status is
   * `completed` and then, after cleanup, `processing` again.
   */
  method PhotoLifecycle(env: Environment, content: Bytes, hex: string, analysisHex: string,
                        sanitize: string -> string, guess: string -> Option<string>,
                        videoOrder: seq<string>, imageOrder: seq<string>)
    requires IsHexId(hex) && IsHexId(analysisHex)
    requires sanitize("photo.JPG") == "photo.JPG"
    requires Enumerates(videoOrder, VideoExtensions) && Enumerates(imageOrder, ImageExtensions)
  {
    var settings := Resolve(env);
    SharedExtensions(env, env);
    var g := new Service(settings, Missing, Missing);
    PhotoOutputName(analysisHex);
    ExamplePhoto();
    var up := g.Upload(UploadRequest(Some(FilePart("photo.JPG", content))), hex, analysisHex, sanitize, videoOrder, imageOrder);
    assert up.Uploaded? && up.fileType == Image && up.isPlaceholder;
    assert up.processedFile == ProcessedPrefix + analysisHex + ".JPG";
    var name := up.processedFile;
    ProcessedNameIsPlain(analysisHex, DotSuffix("photo.JPG"));
    PollCompleted(g, name, content, guess, videoOrder, imageOrder);
    CleanupThenPoll(g, name, guess, videoOrder, imageOrder);
  }

  /** An output the processed folder holds polls as `completed` and downloads with its bytes. */
  method PollCompleted(g: Service, name: string, content: Bytes, guess: string -> Option<string>,
                       videoOrder: seq<string>, imageOrder: seq<string>)
    requires g.Valid() && PlainName(name)
    requires g.processed.Dir? && name in g.processed.files && g.processed.files[name] == content
    requires Enumerates(videoOrder, g.settings.allowedExtensions.video)
    requires Enumerates(imageOrder, g.settings.allowedExtensions.image)
  {
    var st := g.Status(name, videoOrder, imageOrder);
    assert st.Completed? && st.fileSize == Some(|content|);
    var dl := g.Download(name, guess);
    assert dl.Served? && dl.content == content;
  }

  /** After cleanup, any plain name polls as `processing` and downloads as 404. */
  method CleanupThenPoll(g: Service, name: string, guess: string -> Option<string>,
                         videoOrder: seq<string>, imageOrder: seq<string>)
    requires g.Valid() && PlainName(name)
    requires Enumerates(videoOrder, g.settings.allowedExtensions.video)
    requires Enumerates(imageOrder, g.settings.allowedExtensions.image)
    modifies g
  {
    var _ := g.Cleanup();
    var st := g.Status(name, videoOrder, imageOrder);
    assert st == Processing(g.settings.analysisTimeout);
    var dl := g.Download(name, guess);
    assert dl == NotFound;
  }

  /** Uploading `archive.zip` is refused with 400 and writes nothing. */
  method ArchiveRejected(env: Environment, content: Bytes, hex: string, analysisHex: string,
                         sanitize: string -> string, videoOrder: seq<string>, imageOrder: seq<string>)
    requires IsHexId(hex) && IsHexId(analysisHex)
    requires '/' !in sanitize("archive.zip")
    requires Enumerates(videoOrder, VideoExtensions) && Enumerates(imageOrder, ImageExtensions)
  {
    var settings := Resolve(env);
    SharedExtensions(env, env);
    var g := new Service(settings, Missing, Missing);
    ExampleArchive();
    var up := g.Upload(UploadRequest(Some(FilePart("archive.zip", content))), hex, analysisHex, sanitize, videoOrder, imageOrder);
    assert UploadStatusCode(up) == 400;
    assert g.uploads == Dir(map[]) && g.processed == Dir(map[]);
    assert up.reason.UnsupportedType?;
    assert "mp4" in settings.allowedExtensions.video;
    assert "mp4" in up.reason.supported;
  }

  /** A name that was never produced reports `processing` and downloads as 404. */
  method NeverProduced(env: Environment, name: string, guess: string -> Option<string>,
                       videoOrder: seq<string>, imageOrder: seq<string>)
    requires PlainName(name)
    requires Enumerates(videoOrder, VideoExtensions) && Enumerates(imageOrder, ImageExtensions)
  {
    var settings := Resolve(env);
    SharedExtensions(env, env);
    var g := new Service(settings, Missing, Missing);
    var st := g.Status(name, videoOrder, imageOrder);
    assert st == Processing(settings.analysisTimeout);
    var dl := g.Download(name, guess);
    assert DownloadStatusCode(dl) == 404;
  }
}
