/**
 * The request handlers of the gateway over an abstract file system of two
 * folders: upload (with the analysis stub it calls), status, download and
 * cleanup.
 */
module Gateway {
  import opened Wrappers
  import opened Text
  import opened PosixPath
  import opened Config
  import opened FileType
  import opened JsonConvert

  type Bytes = seq<bv8>

  /** A storage folder: absent, or a directory of named files and their bytes. */
  datatype Folder = Missing | Dir(files: map<string, Bytes>)

  /** Names a folder's file map may hold: non-empty, no '/', and not "." or "..". */
  predicate PlainName(n: string)
  {
    n != [] && '/' !in n && n != "." && n != ".."
  }

  /** The names the `<filename>` route segment can deliver: non-empty and without '/'. */
  predicate RouteName(n: string)
  {
    n != [] && '/' !in n
  }

  predicate FolderValid(f: Folder)
  {
    f.Dir? ==> forall n :: n in f.files ==> PlainName(n)
  }

  /** `os.makedirs(path, exist_ok=True)`: an absent folder is created empty, an existing one kept. */
  function MakeDirs(f: Folder): (r: Folder)
    ensures r.Dir?
    ensures f.Dir? ==> r == f
    ensures f.Missing? ==> r.files == map[]
  {
    if f.Dir? then f else Dir(map[])
  }

  /** What cleanup does to one folder: an existing folder is removed and recreated empty. */
  function Emptied(f: Folder): (r: Folder)
    ensures r.Dir? <==> f.Dir?
    ensures r.Dir? ==> r.files == map[]
  {
    if f.Dir? then Dir(map[]) else Missing
  }

  /**
   * `os.path.exists(os.path.join(folder, name))` for a route name: a file of
   * the folder, or "." and "..", which resolve only when the folder exists.
   */
  function Exists(f: Folder, name: string): (b: bool)
    requires RouteName(name)
    ensures b ==> f.Dir?
    ensures PlainName(name) ==> (b <==> f.Dir? && name in f.files)
    ensures f.Dir? && (name == "." || name == "..") ==> b
  {
    f.Dir? && (name == "." || name == ".." || name in f.files)
  }

  /** For a plain name, existence is membership; after cleanup no plain name exists any more. */
  lemma CleanupForgetsNames(f: Folder, name: string)
    requires PlainName(name)
    ensures Exists(f, name) <==> f.Dir? && name in f.files
    ensures !Exists(Emptied(f), name)
    ensures Emptied(Emptied(f)) == Emptied(f)
  {
  }

  /** The shape of `uuid.uuid4().hex`: 32 lower-case hexadecimal digits. */
  predicate IsHexId(h: string)
  {
    |h| == 32 && forall i :: 0 <= i < |h| ==> h[i] in "0123456789abcdef"
  }

  /** The stored upload name `<hex>_<sanitized name>`. */
  function StoredName(hex: string, sanitized: string): (n: string)
    ensures |n| == |hex| + 1 + |sanitized|
    ensures n[..|hex|] == hex && n[|hex|] == '_' && n[|hex| + 1..] == sanitized
  {
    hex + "_" + sanitized
  }

  const ProcessedPrefix: string := "distance_analysis_"

  /** The analysis output name `distance_analysis_<hex><ext>`. */
  function ProcessedName(hex: string, ext: string): (n: string)
    ensures |n| == |ProcessedPrefix| + |hex| + |ext|
    ensures n[..|ProcessedPrefix|] == ProcessedPrefix
    ensures n[|ProcessedPrefix|..|ProcessedPrefix| + |hex|] == hex && n[|ProcessedPrefix| + |hex|..] == ext
  {
    ProcessedPrefix + hex + ext
  }

  /** Two uploads with different ids never get the same stored name, whatever their file names. */
  lemma StoredNamesDistinct(h1: string, s1: string, h2: string, s2: string)
    requires IsHexId(h1) && IsHexId(h2) && h1 != h2
    ensures StoredName(h1, s1) != StoredName(h2, s2)
  {
    assert StoredName(h1, s1)[..32] == h1;
    assert StoredName(h2, s2)[..32] == h2;
  }

  /** Two analyses with different ids never produce the same output name. */
  lemma ProcessedNamesDistinct(h1: string, e1: string, h2: string, e2: string)
    requires IsHexId(h1) && IsHexId(h2) && h1 != h2
    ensures ProcessedName(h1, e1) != ProcessedName(h2, e2)
  {
    var n := |ProcessedPrefix|;
    assert ProcessedName(h1, e1)[n..n + 32] == h1;
    assert ProcessedName(h2, e2)[n..n + 32] == h2;
  }

  /** Stored names are plain file names. */
  lemma StoredNameIsPlain(hex: string, sanitized: string)
    requires IsHexId(hex) && '/' !in sanitized
    ensures PlainName(StoredName(hex, sanitized))
  {
    var n := StoredName(hex, sanitized);
    assert hex[0] != '/';
    assert forall k :: 0 <= k < |n| ==> n[k] == (if k < |hex| then hex[k] else if k == |hex| then '_' else sanitized[k - |hex| - 1]);
  }

  /** Analysis output names are plain file names. */
  lemma ProcessedNameIsPlain(hex: string, ext: string)
    requires IsHexId(hex) && '/' !in ext
    ensures PlainName(ProcessedName(hex, ext))
  {
    var n := ProcessedName(hex, ext);
    assert n[0] == 'd';
    var p := |ProcessedPrefix|;
    forall k | 0 <= k < |n| ensures n[k] != '/' {
      if k < p { assert n[k] == ProcessedPrefix[k]; }
      else if k < p + |hex| { assert n[k] == hex[k - p]; }
      else { assert n[k] == ext[k - p - |hex|]; }
    }
  }

  /** The dot-suffix of a name with a '.' is '.' followed by the classifier's extension. */
  lemma DotSuffixIsExtension(s: string)
    requires '.' in s
    ensures DotSuffix(s) == "." + Extension(s)
  {
    var j := LastIndexOf(s, '.');
    assert s[j..] == [s[j]] + s[j + 1..];
  }

  /**
   * With a sanitizer that keeps the dot-suffix of the name (as it does for an
   * ordinary name such as `photo.JPG`), the analysis output of an accepted
   * upload ends in '.' and the very extension the classifier looked at.
   */
  lemma ProcessedKeepsExtension(hex: string, filename: string, sanitized: string)
    requires '.' in filename && DotSuffix(sanitized) == DotSuffix(filename)
    ensures ProcessedName(hex, DotSuffix(sanitized)) == ProcessedPrefix + hex + "." + Extension(filename)
  {
    DotSuffixIsExtension(filename);
  }

  /** The file part of an upload request: the client's file name and the bytes sent. */
  datatype FilePart = FilePart(filename: string, content: Bytes)

  /** An upload request: the multipart field `file`, if present. */
  datatype UploadRequest = UploadRequest(file: Option<FilePart>)

  /** Why an upload is refused with 400. */
  datatype Rejection =
    | NoFilePart
    | NoFileSelected
    | UnsupportedType(supported: seq<string>)

  /** Which processing section of the analysis configuration the stub echoes. */
  datatype ProcessingSection = ImageProcessing | VideoProcessing

  /** What the analysis stub reports. */
  datatype AnalysisResult = AnalysisResult(
    success: bool,
    processedFile: string,
    distancesCalculated: bool,
    isPlaceholder: bool,
    units: string,
    timeout: nat,
    processingSection: ProcessingSection,
    delaySeconds: nat)

  /** The ways the stub's copy fails. */
  datatype IoError = SourceMissing | FolderMissing

  datatype UploadResponse =
    | Rejected(reason: Rejection)
    | Uploaded(
        originalFile: string,
        processedFile: string,
        fileType: MediaKind,
        fileSize: nat,
        distancesCalculated: bool,
        isPlaceholder: bool,
        units: string,
        timeout: nat,
        environment: string,
        processingSection: ProcessingSection)
    | Failed

  function UploadStatusCode(r: UploadResponse): (code: nat)
    ensures code == 400 <==> r.Rejected?
    ensures code == 500 <==> r.Failed?
    ensures code == 200 <==> r.Uploaded?
  {
    match r
    case Rejected(_) => 400
    case Uploaded(_, _, _, _, _, _, _, _, _, _) => 200
    case Failed => 500
  }

  datatype StatusResponse =
    | Completed(fileSize: Option<nat>, downloadName: string, units: string, environment: string, supportedFormats: Value)
    | Processing(estimatedTime: nat)

  datatype DownloadResponse =
    | Served(downloadName: string, content: Bytes, mimeType: string)
    | NotFound
    | DownloadFailed

  function DownloadStatusCode(r: DownloadResponse): (code: nat)
    ensures code == 404 <==> r.NotFound?
    ensures code == 200 <==> r.Served?
    ensures code == 500 <==> r.DownloadFailed?
  {
    match r
    case Served(_, _, _) => 200
    case NotFound => 404
    case DownloadFailed => 500
  }

  datatype CleanupResponse = Cleaned(uploadFolder: string, processedFolder: string)

  const OctetStream: string := "application/octet-stream"

  /** `mimetypes.guess_type(path)[0] or 'application/octet-stream'`. */
  function MimeType(guessed: Option<string>): (m: string)
    ensures m != []
    ensures guessed.Some? && guessed.value != [] ==> m == guessed.value
    ensures guessed.None? || guessed.value == [] ==> m == OctetStream
  {
    if guessed.Some? && guessed.value != [] then guessed.value else OctetStream
  }

  /**
   * `xs` is an iteration order of `s`: every element of `s` appears, nothing
   * else does, and nothing appears twice.
   */
  ghost predicate Enumerates(xs: seq<string>, s: set<string>)
  {
    (forall x :: x in xs <==> x in s) && |xs| == |s|
  }

  /** Strings as Python string values. */
  function Strs(xs: seq<string>): (vs: seq<Value>)
    ensures |vs| == |xs| && forall i :: 0 <= i < |xs| ==> vs[i] == Str(xs[i])
  {
    seq(|xs|, i requires 0 <= i < |xs| => Str(xs[i]))
  }

  /** `get_supported_formats_json`: the extension sets, as given by their iteration orders, made JSON-safe. */
  function SupportedFormatsJson(videoOrder: seq<string>, imageOrder: seq<string>): (v: Value)
    ensures v == Dict([Entry(Str("video"), List(Strs(videoOrder))), Entry(Str("image"), List(Strs(imageOrder)))])
    ensures SetFree(v)
  {
    var d := Dict([Entry(Str("video"), PySet(Strs(videoOrder))), Entry(Str("image"), PySet(Strs(imageOrder)))]);
    assert WellFormed(d);
    ConvertRemovesSets(d);
    Convert(d)
  }

  /**
   * With the orders in which Python iterates the two extension sets, the
   * supported-formats value lists exactly the video extensions under "video"
   * and exactly the image extensions under "image".
   */
  lemma SupportedFormatsListsExtensions(exts: ExtensionSets, videoOrder: seq<string>, imageOrder: seq<string>, e: string)
    requires Enumerates(videoOrder, exts.video) && Enumerates(imageOrder, exts.image)
    ensures var v := SupportedFormatsJson(videoOrder, imageOrder);
      && v.entries[0].key == Str("video") && v.entries[1].key == Str("image")
      && (Str(e) in v.entries[0].val.items <==> e in exts.video)
      && (Str(e) in v.entries[1].val.items <==> e in exts.image)
  {
    var vs := Strs(videoOrder);
    var ims := Strs(imageOrder);
    assert Str(e) in vs <==> e in videoOrder by {
      if Str(e) in vs { var i :| 0 <= i < |vs| && vs[i] == Str(e); assert videoOrder[i] == e; }
      if e in videoOrder { var i :| 0 <= i < |videoOrder| && videoOrder[i] == e; assert vs[i] == Str(e); }
    }
    assert Str(e) in ims <==> e in imageOrder by {
      if Str(e) in ims { var i :| 0 <= i < |ims| && ims[i] == Str(e); assert imageOrder[i] == e; }
      if e in imageOrder { var i :| 0 <= i < |imageOrder| && imageOrder[i] == e; assert ims[i] == Str(e); }
    }
  }

  /**
   * The list the rejection message is built from: each extension set in turn,
   * appended with `extend`.
   */
  method SupportedFormatsList(groups: seq<seq<string>>) returns (all: seq<string>)
    ensures all == Flatten(groups)
    ensures forall x :: x in all <==> exists i :: 0 <= i < |groups| && x in groups[i]
  {
    all := [];
    for i := 0 to |groups|
      invariant all == Flatten(groups[..i])
    {
      assert groups[..i + 1][..i] == groups[..i];
      all := all + groups[i];
    }
    assert groups[..|groups|] == groups;
    forall x ensures x in all <==> exists i :: 0 <= i < |groups| && x in groups[i] {
      FlattenMembership(groups, x);
    }
  }

  /** The gateway: its settings and the two storage folders. */
  class Service {
    const settings: Settings
    var uploads: Folder
    var processed: Folder

    /** The folders hold plain names only: the gateway never writes ".", ".." or a name with '/'. */
    ghost predicate Valid()
      reads this
    {
      FolderValid(uploads) && FolderValid(processed)
    }

    /** Start-up: both folders are created if they are absent. */
    constructor (settings: Settings, uploads0: Folder, processed0: Folder)
      requires settings.uploadFolder != settings.processedFolder
      requires FolderValid(uploads0) && FolderValid(processed0)
      ensures Valid()
      ensures this.settings == settings
      ensures uploads == MakeDirs(uploads0) && processed == MakeDirs(processed0)
    {
      this.settings := settings;
      uploads := MakeDirs(uploads0);
      processed := MakeDirs(processed0);
    }

    /**
     * The analysis stub: copies the stored upload into the processed folder
     * as `distance_analysis_<hex><ext>`, where `ext` is the extension of the
     * stored upload's path, and reports a placeholder success.
     */
    method Analyze(storedName: string, fileType: MediaKind, hex: string) returns (r: Result<AnalysisResult, IoError>)
      requires Valid() && IsHexId(hex)
      modifies this
      ensures Valid() && uploads == old(uploads)
      ensures var name := ProcessedName(hex, SplitExtension(JoinPath(settings.uploadFolder, storedName)));
        if !(old(uploads).Dir? && storedName in old(uploads).files) then
          r == Err(SourceMissing) && processed == old(processed)
        else if old(processed).Missing? then
          r == Err(FolderMissing) && processed == old(processed)
        else
          processed == Dir(old(processed).files[name := old(uploads).files[storedName]])
          && r == Ok(AnalysisResult(
                       success := true,
                       processedFile := name,
                       distancesCalculated := true,
                       isPlaceholder := true,
                       units := settings.defaultUnits,
                       timeout := settings.analysisTimeout,
                       processingSection := if fileType == Image then ImageProcessing else VideoProcessing,
                       delaySeconds := AnalysisDelay(settings)))
    {
      var delay := AnalysisDelay(settings);
      var ext := SplitExtension(JoinPath(settings.uploadFolder, storedName));
      var name := ProcessedName(hex, ext);
      if !(uploads.Dir? && storedName in uploads.files) {
        return Err(SourceMissing);
      }
      if processed.Missing? {
        return Err(FolderMissing);
      }
      ProcessedNameIsPlain(hex, ext);
      processed := Dir(processed.files[name := uploads.files[storedName]]);
      var section := if fileType == Image then ImageProcessing else VideoProcessing;
      r := Ok(AnalysisResult(true, name, true, true, settings.defaultUnits, settings.analysisTimeout, section, delay));
    }

    /**
     * The accepted-upload half of `POST /upload`: saves the bytes as
     * `<hex>_<sanitized name>`, runs the analysis stub and reports the output
     * file. A failure to save or to copy is a 500, and a failed copy leaves
     * the stored upload in place.
     */
    method StoreAndAnalyze(file: FilePart, kind: MediaKind, hex: string, analysisHex: string, sanitized: string)
      returns (r: UploadResponse)
      requires Valid() && IsHexId(hex) && IsHexId(analysisHex) && '/' !in sanitized
      modifies this
      ensures Valid()
      ensures var stored := StoredName(hex, sanitized);
        var output := ProcessedName(analysisHex, DotSuffix(sanitized));
        if old(uploads).Missing? then
          r == Failed && uploads == old(uploads) && processed == old(processed)
        else if old(processed).Missing? then
          r == Failed && uploads == Dir(old(uploads).files[stored := file.content]) && processed == old(processed)
        else
          uploads == Dir(old(uploads).files[stored := file.content])
          && processed == Dir(old(processed).files[output := file.content])
          && r == Uploaded(
                    originalFile := stored,
                    processedFile := output,
                    fileType := kind,
                    fileSize := |file.content|,
                    distancesCalculated := true,
                    isPlaceholder := true,
                    units := settings.defaultUnits,
                    timeout := settings.analysisTimeout,
                    environment := settings.className,
                    processingSection := if kind == Image then ImageProcessing else VideoProcessing)
    {
      var stored := StoredName(hex, sanitized);
      if uploads.Missing? {
        return Failed;
      }
      StoredNameIsPlain(hex, sanitized);
      uploads := Dir(uploads.files[stored := file.content]);
      var size := |file.content|;
      var analysis := Analyze(stored, kind, analysisHex);
      if analysis.Err? {
        return Failed;
      }
      StoredPathExtension(settings.uploadFolder, hex, sanitized);
      var a := analysis.value;
      r := Uploaded(stored, a.processedFile, kind, size, a.distancesCalculated, a.isPlaceholder,
                    settings.defaultUnits, settings.analysisTimeout, settings.className, a.processingSection);
    }

    /**
     * `POST /upload`: refuses a missing file part, an empty file name and a
     * disallowed type with 400 before anything is written, listing every
     * allowed extension in the last case; an accepted file goes on to
     * StoreAndAnalyze with the sanitized name.
     */
    method Upload(req: UploadRequest, hex: string, analysisHex: string, sanitize: string -> string,
                  videoOrder: seq<string>, imageOrder: seq<string>) returns (r: UploadResponse)
      requires Valid() && IsHexId(hex) && IsHexId(analysisHex)
      requires req.file.Some? ==> '/' !in sanitize(req.file.value.filename)
      requires Enumerates(videoOrder, settings.allowedExtensions.video)
      requires Enumerates(imageOrder, settings.allowedExtensions.image)
      modifies this
      ensures Valid()
      ensures r.Rejected? <==>
        req.file.None? || req.file.value.filename == []
        || !AllowedFile(req.file.value.filename, settings.allowedExtensions).isAllowed
      ensures r.Rejected? ==> uploads == old(uploads) && processed == old(processed)
      ensures req.file.None? ==> r == Rejected(NoFilePart)
      ensures req.file.Some? && req.file.value.filename == [] ==> r == Rejected(NoFileSelected)
      ensures (req.file.Some? && req.file.value.filename != []
               && !AllowedFile(req.file.value.filename, settings.allowedExtensions).isAllowed) ==>
        r.Rejected? && r.reason.UnsupportedType?
      ensures r.Rejected? && r.reason.UnsupportedType? ==>
        forall e :: e in r.reason.supported <==> e in settings.allowedExtensions.video || e in settings.allowedExtensions.image
      ensures !r.Rejected? ==>
        var file := req.file.value;
        var stored := StoredName(hex, sanitize(file.filename));
        var output := ProcessedName(analysisHex, DotSuffix(sanitize(file.filename)));
        var kind := AllowedFile(file.filename, settings.allowedExtensions).kind.value;
        if old(uploads).Missing? then
          r == Failed && uploads == old(uploads) && processed == old(processed)
        else if old(processed).Missing? then
          r == Failed && uploads == Dir(old(uploads).files[stored := file.content]) && processed == old(processed)
        else
          uploads == Dir(old(uploads).files[stored := file.content])
          && processed == Dir(old(processed).files[output := file.content])
          && r == Uploaded(
                    originalFile := stored,
                    processedFile := output,
                    fileType := kind,
                    fileSize := |file.content|,
                    distancesCalculated := true,
                    isPlaceholder := true,
                    units := settings.defaultUnits,
                    timeout := settings.analysisTimeout,
                    environment := settings.className,
                    processingSection := if kind == Image then ImageProcessing else VideoProcessing)
    {
      if req.file.None? {
        return Rejected(NoFilePart);
      }
      var file := req.file.value;
      if file.filename == [] {
        return Rejected(NoFileSelected);
      }
      var verdict := AllowedFile(file.filename, settings.allowedExtensions);
      if !verdict.isAllowed {
        var all := SupportedFormatsList([videoOrder, imageOrder]);
        assert forall e :: e in all <==> e in videoOrder || e in imageOrder;
        return Rejected(UnsupportedType(all));
      }
      r := StoreAndAnalyze(file, verdict.kind.value, hex, analysisHex, sanitize(file.filename));
    }

    /**
     * `GET /status/<name>`: `completed` exactly when the name exists in the
     * processed folder, otherwise `processing` with the configured timeout as
     * the estimate.
     */
    method Status(name: string, videoOrder: seq<string>, imageOrder: seq<string>) returns (r: StatusResponse)
      requires RouteName(name)
      requires Enumerates(videoOrder, settings.allowedExtensions.video)
      requires Enumerates(imageOrder, settings.allowedExtensions.image)
      ensures r.Completed? <==> Exists(processed, name)
      ensures r.Processing? ==> r.estimatedTime == settings.analysisTimeout
      ensures r.Completed? ==>
        && r.downloadName == name
        && r.fileSize == (if name in processed.files then Some(|processed.files[name]|) else None)
        && r.units == settings.defaultUnits && r.environment == settings.className
        && r.supportedFormats == SupportedFormatsJson(videoOrder, imageOrder)
    {
      if Exists(processed, name) {
        var size := if name in processed.files then Some(|processed.files[name]|) else None;
        r := Completed(size, name, settings.defaultUnits, settings.className, SupportedFormatsJson(videoOrder, imageOrder));
      } else {
        r := Processing(settings.analysisTimeout);
      }
    }

    /**
     * `GET /download/<name>`: 404 exactly when the name does not exist in the
     * processed folder; a file is served with the guessed MIME type or the
     * generic binary type; "." and "..", which are directories, fail with 500.
     */
    method Download(name: string, guess: string -> Option<string>) returns (r: DownloadResponse)
      requires Valid() && RouteName(name)
      ensures r.NotFound? <==> !Exists(processed, name)
      ensures r.Served? <==> processed.Dir? && name in processed.files
      ensures r.Served? ==>
        r == Served(name, processed.files[name], MimeType(guess(JoinPath(settings.processedFolder, name))))
      ensures r.DownloadFailed? ==> name == "." || name == ".."
    {
      var path := JoinPath(settings.processedFolder, name);
      if !Exists(processed, name) {
        return NotFound;
      }
      if name !in processed.files {
        return DownloadFailed;
      }
      r := Served(name, processed.files[name], MimeType(guess(path)));
    }

    /** `POST /cleanup`: each folder that exists is emptied; an absent folder stays absent. */
    method Cleanup() returns (r: CleanupResponse)
      requires Valid()
      modifies this
      ensures Valid()
      ensures uploads == Emptied(old(uploads)) && processed == Emptied(old(processed))
      ensures r == Cleaned(settings.uploadFolder, settings.processedFolder)
    {
      if uploads.Dir? {
        uploads := Dir(map[]);
      }
      if processed.Dir? {
        processed := Dir(map[]);
      }
      r := Cleaned(settings.uploadFolder, settings.processedFolder);
    }
  }
}
