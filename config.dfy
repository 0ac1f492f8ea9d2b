/**
 * The configuration profiles of the gateway: a base profile, three
 * environment profiles that override some of its fields, the name-to-profile
 * mapping and its lookup with a fallback.
 */
module Config {
  import opened Wrappers
  import opened Text
  import opened PosixPath

  /** The profile classes. `BaseConfig` is the parent the others inherit from. */
  datatype ConfigClass = BaseConfig | DevelopmentConfig | ProductionConfig | TestingConfig

  /**
   * What the profiles read from the process environment when they are
   * defined, plus the working directory the folders are joined to.
   */
  datatype Environment = Environment(
    flaskEnv: Option<string>,
    secretKey: Option<string>,
    flaskDebug: Option<string>,
    logLevel: Option<string>,
    logFile: Option<string>,
    cwd: string)

  /** The allowed extensions, keyed by media kind. */
  datatype ExtensionSets = ExtensionSets(video: set<string>, image: set<string>)

  /** One resolved profile: the fields a running gateway reads. */
  datatype Settings = Settings(
    className: string,
    debug: bool,
    testing: bool,
    secretKey: string,
    maxContentLength: nat,
    uploadFolder: string,
    processedFolder: string,
    allowedExtensions: ExtensionSets,
    analysisTimeout: nat,
    defaultUnits: string,
    supportedUnits: seq<string>,
    cleanupIntervalHours: nat,
    fileRetentionDays: nat,
    corsOrigins: seq<string>,
    logLevel: string,
    logFile: string)

  const MiB: nat := 1024 * 1024

  const VideoExtensions: set<string> := {"mp4", "avi", "mov", "mkv", "wmv", "webm"}
  const ImageExtensions: set<string> := {"jpg", "jpeg", "png", "gif", "bmp", "webp"}

  /** `os.environ.get(name) or default`: a missing or empty variable gives the default. */
  function EnvOr(v: Option<string>, default: string): (r: string)
    ensures v.Some? && v.value != [] ==> r == v.value
    ensures v.None? || v.value == [] ==> r == default
  {
    if v.Some? && v.value != [] then v.value else default
  }

  /** The base profile; every field the subclasses do not override comes from here. */
  function Base(env: Environment): (s: Settings)
    ensures s.allowedExtensions == ExtensionSets(VideoExtensions, ImageExtensions)
    ensures s.debug <==> Lower(env.flaskDebug.GetOr("False")) == "true"
  {
    Settings(
      className := "Config",
      debug := Lower(env.flaskDebug.GetOr("False")) == "true",
      testing := false,
      secretKey := EnvOr(env.secretKey, "dev-secret-key-change-in-production"),
      maxContentLength := 100 * MiB,
      uploadFolder := JoinPath(env.cwd, "uploads"),
      processedFolder := JoinPath(env.cwd, "processed"),
      allowedExtensions := ExtensionSets(VideoExtensions, ImageExtensions),
      analysisTimeout := 300,
      defaultUnits := "meters",
      supportedUnits := ["meters", "centimeters", "pixels", "feet", "inches"],
      cleanupIntervalHours := 24,
      fileRetentionDays := 7,
      corsOrigins := ["http://localhost:3000", "http://127.0.0.1:3000"],
      logLevel := env.logLevel.GetOr("INFO"),
      logFile := env.logFile.GetOr("distance_calculator.log"))
  }

  /** The settings a profile class defines: its own overrides on top of `Base`. */
  function Load(cls: ConfigClass, env: Environment): (s: Settings)
    ensures s.allowedExtensions == Base(env).allowedExtensions
    ensures s.defaultUnits == "meters" && s.logFile == Base(env).logFile
    ensures s.secretKey != []
  {
    var base := Base(env);
    match cls
    case BaseConfig => base
    case DevelopmentConfig =>
      base.(className := "DevelopmentConfig", debug := true, logLevel := "DEBUG",
            analysisTimeout := 60, fileRetentionDays := 1)
    case ProductionConfig =>
      base.(className := "ProductionConfig", debug := false,
            secretKey := EnvOr(env.secretKey, "must-be-set-in-production"),
            maxContentLength := 50 * MiB, analysisTimeout := 600)
    case TestingConfig =>
      base.(className := "TestingConfig", testing := true, debug := true,
            uploadFolder := JoinPath(env.cwd, "test_uploads"),
            processedFolder := JoinPath(env.cwd, "test_processed"),
            analysisTimeout := 5, maxContentLength := 1 * MiB)
  }

  /** The `config` mapping from profile names to classes. */
  const Profiles: map<string, ConfigClass> := map[
    "development" := DevelopmentConfig,
    "production" := ProductionConfig,
    "testing" := TestingConfig,
    "default" := DevelopmentConfig]

  /**
   * `get_config`: the class named by FLASK_ENV (or "default" when it is not
   * set); a name missing from the mapping falls back to the default entry.
   */
  function GetConfig(flaskEnv: Option<string>): (cls: ConfigClass)
    ensures cls != BaseConfig
    ensures cls == ProductionConfig <==> flaskEnv == Some("production")
    ensures cls == TestingConfig <==> flaskEnv == Some("testing")
    ensures cls == DevelopmentConfig <==> flaskEnv != Some("production") && flaskEnv != Some("testing")
  {
    var name := flaskEnv.GetOr("default");
    if name in Profiles then Profiles[name] else Profiles["default"]
  }

  /** The settings the gateway runs with: the selected class, loaded from the environment. */
  function Resolve(env: Environment): (s: Settings)
    ensures s.className in {"DevelopmentConfig", "ProductionConfig", "TestingConfig"}
    ensures s.className == "ProductionConfig" <==> env.flaskEnv == Some("production")
    ensures s.className == "TestingConfig" <==> env.flaskEnv == Some("testing")
    ensures s.uploadFolder != s.processedFolder
  {
    Load(GetConfig(env.flaskEnv), env)
  }

  /** The delay the analysis stub simulates: 2 seconds in a debug profile, 3 otherwise. */
  function AnalysisDelay(s: Settings): (seconds: nat)
    ensures seconds == 2 || seconds == 3
    ensures seconds == 2 <==> s.debug
  {
    if s.debug then 2 else 3
  }

  /** The mapping has exactly four names, and "default" is an alias of "development". */
  lemma ProfilesMapping()
    ensures Profiles.Keys == {"development", "production", "testing", "default"}
    ensures Profiles["default"] == Profiles["development"] == DevelopmentConfig
    ensures Profiles["production"] == ProductionConfig && Profiles["testing"] == TestingConfig
    ensures BaseConfig !in Profiles.Values
  {
  }

  /** The key "default", an unset variable and any unknown name all select the development profile. */
  lemma FallbackIsDevelopment(name: string)
    requires name !in {"development", "production", "testing"}
    ensures GetConfig(Some(name)) == DevelopmentConfig
    ensures GetConfig(None) == DevelopmentConfig
    ensures GetConfig(Some("default")) == DevelopmentConfig
  {
  }

  /** The profile table: size limit, timeout, debug flag, stub delay and folders per environment. */
  lemma ProfilePolicy(env: Environment)
    ensures var s := Resolve(env);
      match GetConfig(env.flaskEnv)
      case ProductionConfig =>
        s.maxContentLength == 50 * MiB && s.analysisTimeout == 600 && !s.debug && AnalysisDelay(s) == 3
        && s.uploadFolder == JoinPath(env.cwd, "uploads") && s.processedFolder == JoinPath(env.cwd, "processed")
      case TestingConfig =>
        s.maxContentLength == 1 * MiB && s.analysisTimeout == 5 && s.debug && AnalysisDelay(s) == 2
        && s.uploadFolder == JoinPath(env.cwd, "test_uploads") && s.processedFolder == JoinPath(env.cwd, "test_processed")
      case _ =>
        s.maxContentLength == 100 * MiB && s.analysisTimeout == 60 && s.debug && AnalysisDelay(s) == 2
        && s.uploadFolder == JoinPath(env.cwd, "uploads") && s.processedFolder == JoinPath(env.cwd, "processed")
  {
  }

  /** The base timeout of 300 seconds is never the one the gateway runs with. */
  lemma BaseTimeoutNeverResolved(env: Environment)
    ensures Resolve(env).analysisTimeout != 300
    ensures Resolve(env).analysisTimeout in {5, 60, 600}
  {
  }

  /** Every resolved profile allows the same extensions, and the environment cannot change them. */
  lemma SharedExtensions(env1: Environment, env2: Environment)
    ensures Resolve(env1).allowedExtensions == Resolve(env2).allowedExtensions
    ensures Resolve(env1).allowedExtensions == ExtensionSets(VideoExtensions, ImageExtensions)
  {
  }

  /** No extension is both a video and an image extension. */
  lemma ExtensionSetsDisjoint()
    ensures VideoExtensions !! ImageExtensions
  {
  }

  /** The debug flag FLASK_DEBUG sets on the base class is overridden by every selectable profile. */
  lemma FlaskDebugIgnored(env1: Environment, env2: Environment)
    requires env1.flaskEnv == env2.flaskEnv
    ensures Resolve(env1).debug == Resolve(env2).debug
  {
  }
}
