# Distance-analysis upload gateway: a Dafny model

The gateway is a small Flask service. A client uploads a video or an image. The service checks the file name's extension, stores the file under a unique name in the upload folder, and runs a placeholder "distance analysis" that copies the file into the processed folder under a new name that keeps the extension. The client then polls a status endpoint or downloads the result. A cleanup endpoint empties both folders. A configuration profile chosen by `FLASK_ENV` fixes the limits, the timeout, the debug flag and the folder names.

This project models:

- `Config` (`config.dfy`): the four profile classes as one `Settings` record built from a base profile and per-class overrides, the `config` mapping, and `get_config` with its fallback.
- `FileType` (`file_type.dfy`): `allowed_file`.
- `JsonConvert` (`json_convert.dfy`): `convert_sets_to_lists` over a datatype of Python values.
- `Gateway` (`gateway.dfy`): a `Service` class that holds the settings and the two folders. Each folder is `Missing` or a map from file names to bytes. The class has the analysis stub and the upload, status, download and cleanup handlers as methods.
- `Text` (`text.dfy`) and `PosixPath` (`posix_path.dfy`): the string and path operations the code relies on: `str.lower`, `rsplit`/`rfind`, `os.path.join` and `os.path.splitext`.
- `Scenarios` (`scenarios.dfy`): request sequences against a freshly started service, checked from the handlers' contracts alone.

Anything that comes from outside the program is a parameter: the random ids, the file-name sanitizer, the MIME guesser, the environment variables, the working directory and Python's set iteration order.

Three behaviours of the code that are easy to misread:

- The handler deletes the upload when analysis reports failure (app.py:456-466). The stub never reports failure: it returns success or raises (app.py:161-178). So that branch is dead, and a failed copy is a 500 that keeps the upload. `Gateway.Service.StoreAndAnalyze` states this.
- The comment at app.py:147 says the original extension is kept. The code takes `os.path.splitext` of the *stored* path (app.py:148). So the output gets the dot-suffix of the sanitized name, or no extension when that name has no dot.
- Cleanup recreates only a folder that exists (app.py:536-542). An absent folder stays absent.

## Model

| member | source | states |
|---|---|---|
| `FileType.AllowedFile` | app.py:56-68 | A name without '.' gives `(False, None)`. The result is allowed exactly when a kind is given. It is video exactly when the lower-cased extension is in the video set. It is image exactly when that extension is in the image set and not in the video set. |
| `FileType.Extension` | app.py:61 | The extension has no '.'. It is exactly the text after the last '.' of the name. |
| `FileType.LowerExtension` | app.py:61 | Lower-casing a name first gives the same extension as lower-casing its extension. |
| `FileType.CaseInsensitive` | app.py:61-68 | A name and its lower-cased form get the same verdict. |
| `FileType.OnlyExtensionMatters` | app.py:61-68 | Two names whose lowered extensions agree get the same verdict. |
| `FileType.ExtensionAfterLastDot` | app.py:61 | For `prefix + "." + ext`, where `ext` has no '.', the extension is `ext` whatever the prefix holds. |
| `FileType.TrailingDotRejected` | app.py:61-68 | A name ending in '.' has an empty extension and is rejected. |
| `FileType.ImageNeverShadowed` | app.py:63-66 | Because the two configured sets are disjoint, checking video first never hides an image extension. |
| `FileType.ExampleDoubleExtension` | app.py:61-64 | `a.tar.MP4` is a video. |
| `FileType.ExamplePhoto` | app.py:61-66 | `photo.JPG` is an image. |
| `FileType.ExampleArchive` | app.py:58-68 | `archive.zip` is rejected. |
| `Text.Lower` | app.py:61 | `str.lower` keeps the length and lowers each character as `LowerChar` does (also used for `FLASK_DEBUG` at config.py:12). |
| `Text.LowerChar` | app.py:61 | `str.lower` on one character: '.' and '/' are kept, and ASCII capitals become ASCII lower-case letters. |
| `Text.LastIndexOf` | app.py:61 | The last position of a character, or -1 exactly when it does not occur. No later position holds it. |
| `Text.LowerKeepsLastDot` | app.py:61 | Lower-casing does not move the last '.'. |
| `Text.FlattenMembership` | app.py:402-404 | An element is in the list built by repeated `extend` exactly when it is in one of the parts. |
| `Config.EnvOr` | config.py:11 | `os.environ.get(...) or default`: a missing or empty variable gives the default. |
| `Config.Base` | config.py:7-39 | The base profile has both extension sets. Its debug flag is true exactly when `FLASK_DEBUG` lower-cased is `true`. |
| `Config.Load` | config.py:41-79 | Every class keeps the base extension sets, units and log file, and has a non-empty secret key. |
| `Config.GetConfig` | config.py:82-92 | The result is never the base class. It is production exactly for `production`, testing exactly for `testing`, and development for every other name, for `default` and for an unset variable. |
| `Config.Resolve` | app.py:16-17 | The resolved profile is never the base class; it is production exactly for `production`, testing exactly for `testing`, and its upload and processed folders differ. |
| `Config.ProfilesMapping` | config.py:82-87 | The `config` mapping has exactly the names `development`, `production`, `testing` and `default`; `default` is development, and the base class is not selectable. |
| `Config.FallbackIsDevelopment` | config.py:89-92 | Unknown names, `default` and an unset variable all select development. |
| `Config.ProfilePolicy` | config.py:41-79 | Per selected profile: 100/50/1 MiB limit, 60/600/5 s timeout, debug true/false/true, stub delay 2/3/2 s, and `uploads`/`processed` folders except `test_uploads`/`test_processed` for testing. |
| `Config.AnalysisDelay` | app.py:143 | The stub delay is 2 s exactly in a debug profile and 3 s otherwise. |
| `Config.BaseTimeoutNeverResolved` | config.py:26 | The base timeout of 300 s is never the resolved one. |
| `Config.SharedExtensions` | config.py:20-23 | All resolved profiles share the same extension sets, whatever the environment. |
| `Config.ExtensionSetsDisjoint` | config.py:21-22 | No extension is both video and image. |
| `Config.FlaskDebugIgnored` | config.py:12 | The `FLASK_DEBUG` value read by the base class never changes a resolved profile's debug flag, because every selectable class overrides it. |
| `JsonConvert.Convert` | app.py:85-94 | A dict keeps exactly its keys. A set becomes the list of its elements without converting them. A list or tuple becomes a list of the same length. Any other value is unchanged. |
| `JsonConvert.ConvertRemovesSets` | app.py:85-94 | Every value Python can build has no set left after conversion. |
| `JsonConvert.ConvertFixesPlain` | app.py:85-94 | A value without sets or tuples is returned unchanged. |
| `JsonConvert.SetElementsNotConverted` | app.py:89-92 | A tuple inside a set stays a tuple; the same tuple inside a list becomes a list. |
| `Gateway.SupportedFormatsJson` | app.py:97-99 | The supported-formats value is a dict whose `video` and `image` entries are lists of the sets' elements in iteration order, and it holds no set. |
| `Gateway.SupportedFormatsListsExtensions` | app.py:97-99 | Given the sets' iteration orders, a string is listed under `video` exactly when it is a video extension, and under `image` exactly when it is an image extension. |
| `Gateway.Exists` | app.py:482 | `os.path.exists` in a folder (also at app.py:506): only an existing folder has entries, and a plain name exists exactly when the folder holds it; "." and ".." exist whenever the folder does. |
| `PosixPath.DotSuffix` | app.py:148 | The dot-suffix of a name is a suffix of it that is empty or starts with its only '.'. |
| `Gateway.SupportedFormatsList` | app.py:402-405 | The loop builds the concatenation of the parts; an element is listed exactly when some part holds it. |
| `Gateway.StoredName` | app.py:413-414 | The stored name is the id, then '_', then the sanitized name. |
| `Gateway.StoredNamesDistinct` | app.py:413-414 | Uploads with different ids never share a stored name, whatever their file names. |
| `Gateway.StoredNameIsPlain` | app.py:413-415 | A stored name is a plain file name: non-empty, no '/', and not "." or "..". |
| `Gateway.ProcessedName` | app.py:149 | The output name is `distance_analysis_`, then the id, then the extension. |
| `Gateway.ProcessedNamesDistinct` | app.py:149 | Analyses with different ids never produce the same output name. |
| `Gateway.ProcessedNameIsPlain` | app.py:149-150 | An output name is a plain file name. |
| `PosixPath.JoinPath` | app.py:415 | An absolute second part replaces the folder. Otherwise the name is appended after a prefix that is empty or ends in '/'. |
| `PosixPath.SplitExtension` | app.py:148 | The extension is a suffix of the path. It is empty or starts with its only '.', and has no '/'. It is non-empty exactly when the final component has a dot after some other character. |
| `PosixPath.StoredPathExtension` | app.py:148 | For a stored upload `<id>_<name>` in any folder, the extension is the dot-suffix of `name`. |
| `Gateway.DotSuffixIsExtension` | app.py:61 | The dot-suffix of a name with a '.' is '.' followed by the classifier's extension. |
| `Gateway.ProcessedKeepsExtension` | app.py:147-149 | If the sanitizer keeps the name's dot-suffix, the output name ends in '.' plus the extension the classifier saw. |
| `Gateway.MimeType` | app.py:486 | The guessed type is used when it is non-empty; otherwise `application/octet-stream`. |
| `Gateway.MakeDirs` | app.py:48-49 | An existing folder is kept; a missing one is created empty. |
| `Gateway.Emptied` | app.py:536-542 | A folder that exists becomes empty; an absent one stays absent. |
| `Gateway.CleanupForgetsNames` | app.py:536-542 | For a plain name, existence is membership. After cleanup no plain name exists. |
| `Gateway.UploadStatusCode` | app.py:385-473 | A rejected upload is 400, a failed one 500, an uploaded one 200. |
| `Gateway.DownloadStatusCode` | app.py:476-497 | A missing file is 404, a served one 200, a failure 500. |
| `Gateway.Service.constructor` | app.py:47-49 | Start-up, for a profile whose two folders differ, creates missing folders and keeps existing ones. |
| `Gateway.Service.Analyze` | app.py:133-178 | With the source present and the processed folder existing: the source's bytes are copied to `distance_analysis_<id><splitext extension>`. The result is success with placeholder flags, the profile's units and timeout, the processing section chosen by the kind, and the profile's delay. Otherwise it is an error and nothing changes. |
| `Gateway.Service.StoreAndAnalyze` | app.py:412-455 | A missing upload folder is a 500 with nothing written. A missing processed folder is a 500 with the stored upload kept. Otherwise both files hold the uploaded bytes, and the response echoes the stored name, output name, kind, size, placeholder flags and settings. |
| `Gateway.Service.Upload` | app.py:385-473 | The upload is rejected exactly for a missing part, an empty name or a disallowed type, and then nothing is written. A disallowed type lists exactly the allowed extensions. An accepted file gets the outcome StoreAndAnalyze states. |
| `Gateway.Service.Status` | app.py:500-526 | The status is `completed` exactly when the name exists in the processed folder, with its size, units, environment and supported formats, given the iteration orders of the profile's two extension sets. Otherwise it is `processing` with the profile's timeout. |
| `Gateway.Service.Download` | app.py:476-497 | The response is 404 exactly when the name does not exist. A file is served exactly when it is in the processed folder, with its bytes and the MIME type from the fallback rule. On folders that hold only plain names, a failure happens only for "." and "..". |
| `Gateway.Service.Cleanup` | app.py:529-555 | Each existing folder becomes empty and each absent one stays absent, independently. The response names both folders. |

## Left out

- Flask plumbing is left out: routing, `jsonify`, the `url_for` download URLs, CORS setup including the in-place `cors_origins.extend`, and the `/`, `/app` (static HTML), `/test-cors` and `/health` endpoints. These are framework behaviour or static data. Only the supported-formats value `/health` and `/status` share is modelled.
- Logging is left out: it is side effects only.
- `create_dummy_video` is left out: it runs `ffmpeg` as a separate process.
- `time.sleep` is left out. The stub reports its delay as a number instead.
- `uuid.uuid4` ids are parameters. The only assumption is their shape: 32 lower-case hex digits.
- `werkzeug.secure_filename` is not part of this model. It is a parameter `sanitize`. Upload requires that its output contains no '/', which is that function's documented guarantee.
- Gateway.ProcessedKeepsExtension: the output keeps the client's extension only under the hypothesis that the sanitizer keeps the name's dot-suffix. A sanitizer that changes or drops that suffix gives an output that follows the sanitized name, as StoreAndAnalyze states.
- `mimetypes.guess_type` is a parameter. Only the fallback to `application/octet-stream` is modelled.
- `get_file_info` is reduced to the file size. The timestamps come from `os.stat` and the clock and are left out.
- Gateway.Service.Status: for "." and "..", which name directories, the size is reported as absent rather than the directory's `st_size`.
- The request-size gate (413) and its handler (app.py:573-580) are left out. The framework raises this error while the handler reads `request.files`, inside the handler's `try` block. Which status the client then sees depends on framework code that is not part of this model.
- The `TypeError` and 500 error handlers are left out (app.py:558-600), as is the debug detail they add.
- Human-readable messages are left out: the error texts and the `', '.join` of the extension list. A rejection carries the list itself.
- Only the chosen processing section of the analysis configuration is modelled. The inert configuration data (`DISTANCE_ANALYSIS_CONFIG`, `API_CONFIG`, `NOTIFICATION_CONFIG`) is left out.
- Of the I/O failures, only an absent folder and an absent source file are modelled. Disk-full, permission and `rmtree` errors are left out.
- Environment-variable reads and `os.getcwd()` are inputs (`Config.Environment`).
- The Production session-cookie settings (config.py:64-66) are left out: only the framework reads them.
- `CLEANUP_INTERVAL` is kept as a number of hours. No code consumes it.
- Python's set iteration order is a parameter. A set is given by its elements in iteration order.
- Text.LowerChar: full Unicode lower-casing is not modelled. ASCII capitals and KELVIN SIGN (the only character whose lower case is a single ASCII letter) are lowered, and every other character is kept. This agrees with `str.lower` on every comparison against the ASCII extension sets and against `"true"`.
- Concurrency is left out: the threaded server and the cleanup-versus-upload race. The model is sequential.
- Path traversal is not asserted. Route names contain no '/'. The names "." and ".." are modelled as existing exactly when the processed folder exists.
- The `__main__` start-up block (app.py:603-636) is left out. Its folder creation repeats `Gateway.Service.constructor`.
