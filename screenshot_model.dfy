/**
 The screenshot service of lib/ScreenshotService.mjs as values: its
 settings, the screenshot context, the path scheme, the cache-validity rule,
 and one step function per operation (`start`, `stop`, `restart`,
 `takeScreenshot`) on the abstract state the operations act on, that is,
 the `browser` field and the file system. The classes in module
 Screenshots are proved against these functions.
 */
module ScreenshotModel {
  import opened Wrappers
  import opened FileSystem
  import opened Numerals

  /** The two image formats the service accepts. */
  datatype ImageType = Jpeg | Png {
    /** The `imageType` string that selects this format. */
    function Name(): string {
      match this
      case Jpeg => "jpeg"
      case Png => "png"
    }
  }

  /** What `takeScreenshot` is asked for: `{ url, width, height }`, the sizes optional. */
  datatype Context = Context(url: string, width: Option<int>, height: Option<int>)

  /** The constructor's argument object; `None` is a property left undefined. */
  datatype Options = Options(
    tempDir: Option<Path>,
    cacheTimeout: Option<int>,
    imageType: Option<string>,
    disableSandbox: Option<bool>)

  /** `this.settings` after construction (the logger is not modelled). */
  datatype Settings = Settings(tempDir: Path, cacheTimeout: int, imageType: ImageType, disableSandbox: bool)

  /** Everything fixed at construction: the settings, `this.tempDir`, and `md5(JSON.stringify(·))`. */
  datatype Config = Config(settings: Settings, tempDir: NonRootPath, fingerprint: Context -> string)

  /** The failures the operations raise. */
  datatype Error =
    | UnsupportedImageType(imageType: string)  // constructor: `imageType` is neither "jpeg" nor "png"
    | LaunchFailed                             // `puppeteer.launch` rejected
    | ExceptionNotDefined                      // `start` found `tempDir` present; `throw new Exception(...)` names an undefined class
    | DirectoryCreationFailed                  // `ensureDir` rejected
    | NotStarted                               // `takeScreenshot` with no browser recorded
    | RenderFailed                             // `newPage`, `setViewport`, `goto` or `screenshot` rejected

  datatype Status = Success | Failure(error: Error)

  datatype Result<T> = Ok(value: T) | Err(error: Error)

  /** The state of the browser object held in `this.browser`: launch arguments, open or closed, tabs opened. */
  datatype BrowserState = BrowserState(args: Option<seq<string>>, open: bool, pages: nat)

  /** What the lifecycle operations act on: the `browser` field (`None` while never set) and the file system. */
  datatype State = State(browser: Option<BrowserState>, entries: Entries)

  /** How the renderer's work on one tab ends: the image written, or a failure that may leave a partial file. */
  datatype RenderOutcome = Captured | Failed(partialWrite: bool)

  const DefaultCacheTimeout: int := 0
  const DefaultImageType: string := "png"
  const ServiceDirName: string := "screenshot-service"

  /** The constructor's image-type check, read positively: the format named by `s`, if it is one of the two. */
  function ParseImageType(s: string): (r: Option<ImageType>)
    ensures r.Some? <==> s == "jpeg" || s == "png"
    ensures r.Some? ==> r.value.Name() == s
  {
    if s == "jpeg" then Some(Jpeg) else if s == "png" then Some(Png) else None
  }

  /** The constructor's defaults and its image-type check; `osTmpdir` is the value of `osTmpdir()`. */
  function ResolveSettings(opts: Options, osTmpdir: Path): (r: Result<Settings>)
    ensures r.Ok? <==> opts.imageType.GetOr(DefaultImageType) in {"jpeg", "png"}
    ensures r.Err? ==> r.error == UnsupportedImageType(opts.imageType.GetOr(DefaultImageType))
    ensures r.Ok? ==> r.value.imageType.Name() == opts.imageType.GetOr(DefaultImageType)
    ensures r.Ok? ==> r.value.tempDir == opts.tempDir.GetOr(osTmpdir)
    ensures r.Ok? ==> r.value.cacheTimeout == opts.cacheTimeout.GetOr(DefaultCacheTimeout)
    ensures r.Ok? ==> r.value.disableSandbox == opts.disableSandbox.GetOr(false)
  {
    var name := opts.imageType.GetOr(DefaultImageType);
    match ParseImageType(name)
    case None => Err(UnsupportedImageType(name))
    case Some(t) =>
      Ok(Settings(opts.tempDir.GetOr(osTmpdir), opts.cacheTimeout.GetOr(DefaultCacheTimeout), t,
                  opts.disableSandbox.GetOr(false)))
  }

  /** The run directory: below the root, a `screenshot-service` directory, and in it one named by the clock reading, a dash and the random suffix. */
  function RunDir(root: Path, clock: nat, random: nat): (d: Path)
    ensures |d| == |root| + 2 && IsUnder(d, root)
    ensures d[|root|] == ServiceDirName
  {
    root + [ServiceDirName, Decimal(clock) + "-" + Decimal(random)]
  }

  /** The file extension: JPEG is renamed to `jpg`, any other format keeps its own name. */
  function Extension(t: ImageType): (ext: string)
    ensures ext == "jpg" <==> t == Jpeg
    ensures ext == "png" <==> t == Png
  {
    var name := t.Name();
    if name == "jpeg" then "jpg" else name
  }

  /** `getScreenshotPath(context)`: `tempDir/<fingerprint>.<extension>`. */
  function ScreenshotPath(cfg: Config, c: Context): (p: Path)
    ensures |p| == |cfg.tempDir| + 1 && IsUnder(p, cfg.tempDir)
    ensures var name, ext := p[|cfg.tempDir|], Extension(cfg.settings.imageType);
      |name| == |cfg.fingerprint(c)| + 1 + |ext| &&
      name[..|cfg.fingerprint(c)|] == cfg.fingerprint(c) &&
      name[|cfg.fingerprint(c)|..] == "." + ext
  {
    var name := cfg.fingerprint(c) + "." + Extension(cfg.settings.imageType);
    assert name[|cfg.fingerprint(c)|..] == "." + Extension(cfg.settings.imageType);
    cfg.tempDir + [name]
  }

  /** `isScreenshotCacheValid(path)` evaluated at time `now`. */
  predicate CacheValid(e: Entries, p: Path, now: int, cacheTimeout: int): (valid: bool)
    ensures valid ==> p in e
    ensures p in e ==> (valid <==> now - e[p].mtime < cacheTimeout)
  {
    p in e && now < e[p].mtime + cacheTimeout
  }

  /** The launch options: the two sandbox switches when sandboxing is disabled, none otherwise. */
  function LaunchArgs(disableSandbox: bool): (args: Option<seq<string>>)
    ensures args.Some? <==> disableSandbox
    ensures args.Some? ==> |args.value| == 2 && "--no-sandbox" in args.value && "--disable-setuid-sandbox" in args.value
  {
    if disableSandbox then Some(["--no-sandbox", "--disable-setuid-sandbox"]) else None
  }

  /**
   `start()` at time `now`; `launched` says whether `puppeteer.launch` succeeded.
   The new browser is recorded before the directory check, so it stays
   recorded when that check fails.
   */
  function StartStep(cfg: Config, s: State, now: int, launched: bool): (r: (Status, State))
    ensures !launched ==> r == (Failure(LaunchFailed), s)
    ensures launched ==> r.1.browser == Some(BrowserState(LaunchArgs(cfg.settings.disableSandbox), true, 0))
    ensures r.0 == Failure(ExceptionNotDefined) <==> launched && cfg.tempDir in s.entries
    ensures r.0.Success? <==> launched && cfg.tempDir !in s.entries && CanMakeDirs(s.entries, cfg.tempDir)
    ensures r.0.Success? ==> cfg.tempDir in r.1.entries && r.1.entries[cfg.tempDir].Dir?
    ensures r.0.Success? ==> forall q :: q in s.entries ==> q in r.1.entries && r.1.entries[q] == s.entries[q]
    ensures r.0.Success? ==> forall q :: q in r.1.entries && q !in s.entries ==> q in Ancestors(cfg.tempDir)
    ensures r.0.Success? ==> forall q :: q in Ancestors(cfg.tempDir) && q !in s.entries ==>
      q in r.1.entries && r.1.entries[q] == Dir(now)
    ensures launched && cfg.tempDir !in s.entries && !CanMakeDirs(s.entries, cfg.tempDir) ==>
      r.0 == Failure(DirectoryCreationFailed)
    ensures r.0.Failure? ==> r.1.entries == s.entries
  {
    if !launched then
      (Failure(LaunchFailed), s)
    else
      var recorded := s.(browser := Some(BrowserState(LaunchArgs(cfg.settings.disableSandbox), true, 0)));
      if cfg.tempDir in s.entries then
        (Failure(ExceptionNotDefined), recorded)
      else
        match MakeDirs(s.entries, cfg.tempDir, now)
        case None => (Failure(DirectoryCreationFailed), recorded)
        case Some(e) => (Success, recorded.(entries := e))
  }

  /**
   `stop()`: closes the recorded browser, if any, without clearing the field,
   and removes `tempDir` with everything below it when it exists.
   */
  function StopStep(cfg: Config, s: State): (r: State)
    ensures r.browser.Some? <==> s.browser.Some?
    ensures r.browser.Some? ==> r.browser.value == s.browser.value.(open := false)
    ensures cfg.tempDir !in r.entries
    ensures forall q :: q in r.entries ==> q in s.entries && r.entries[q] == s.entries[q]
    ensures forall q :: q in s.entries && !IsUnder(q, cfg.tempDir) ==> q in r.entries
    ensures cfg.tempDir in s.entries ==> forall q :: q in r.entries ==> !IsUnder(q, cfg.tempDir)
    ensures cfg.tempDir !in s.entries ==> r.entries == s.entries
  {
    var browser := if s.browser.Some? then Some(s.browser.value.(open := false)) else None;
    var entries := if cfg.tempDir in s.entries then RemoveTree(s.entries, cfg.tempDir) else s.entries;
    State(browser, entries)
  }

  /** `restart()`: `stop()` followed by `start()`. */
  function RestartStep(cfg: Config, s: State, now: int, launched: bool): (r: (Status, State))
    ensures !launched ==> r == (Failure(LaunchFailed), StopStep(cfg, s))
    ensures r.0 != Failure(ExceptionNotDefined)
    ensures r.0.Success? <==> launched && CanMakeDirs(StopStep(cfg, s).entries, cfg.tempDir)
    ensures launched ==> r.1.browser == Some(BrowserState(LaunchArgs(cfg.settings.disableSandbox), true, 0))
  {
    StartStep(cfg, StopStep(cfg, s), now, launched)
  }

  /**
   `takeScreenshot(context)` at time `now`; `render` is how the renderer's
   work on the new tab ends, when a tab is opened at all.
   */
  function TakeStep(cfg: Config, s: State, c: Context, now: int, render: RenderOutcome): (r: (Result<Path>, State))
    ensures s.browser.None? ==> r == (Err(NotStarted), s)
    ensures r.0.Ok? ==> r.0.value == ScreenshotPath(cfg, c) && ScreenshotPath(cfg, c) in r.1.entries
    ensures r.1.browser.Some? <==> s.browser.Some?
    ensures r.1.browser.Some? ==>
      r.1.browser.value.(pages := s.browser.value.pages) == s.browser.value &&
      r.1.browser.value.pages <= s.browser.value.pages + 1
    ensures s.browser.Some? && CacheValid(s.entries, ScreenshotPath(cfg, c), now, cfg.settings.cacheTimeout) ==>
      r == (Ok(ScreenshotPath(cfg, c)), s)
    ensures s.browser.Some? && !CacheValid(s.entries, ScreenshotPath(cfg, c), now, cfg.settings.cacheTimeout) ==>
      (r.0.Ok? <==> s.browser.value.open && render == Captured) &&
      (r.0.Err? ==> r.0.error == RenderFailed) &&
      (s.browser.value.open <==> r.1.browser.value.pages == s.browser.value.pages + 1)
    ensures r.1.entries == s.entries || r.1.entries == s.entries[ScreenshotPath(cfg, c) := File(now)]
    ensures r.0.Ok? && r.1.entries != s.entries ==> r.1.entries[ScreenshotPath(cfg, c)] == File(now)
    ensures r.1.entries != s.entries ==> render != Failed(false) && s.browser.Some? && s.browser.value.open
    ensures (s.browser.Some? && s.browser.value.open && render != Failed(false) &&
             !CacheValid(s.entries, ScreenshotPath(cfg, c), now, cfg.settings.cacheTimeout)) ==>
      r.1.entries == s.entries[ScreenshotPath(cfg, c) := File(now)]
    ensures s.browser.Some? && !s.browser.value.open ==> r.1 == s
  {
    if s.browser.None? then
      (Err(NotStarted), s)
    else
      var path := ScreenshotPath(cfg, c);
      if CacheValid(s.entries, path, now, cfg.settings.cacheTimeout) then
        (Ok(path), s)
      else if !s.browser.value.open then
        (Err(RenderFailed), s)
      else
        var tabbed := s.(browser := Some(s.browser.value.(pages := s.browser.value.pages + 1)));
        match render
        case Captured => (Ok(path), tabbed.(entries := s.entries[path := File(now)]))
        case Failed(partial) =>
          (Err(RenderFailed), if partial then tabbed.(entries := s.entries[path := File(now)]) else tabbed)
  }
}
