/**
 The `ScreenshotService` class of lib/ScreenshotService.mjs, with the fields
 it updates in place, and the Puppeteer browser object it keeps in
 `this.browser`. Every state-changing method is proved equal to its step
 function in ScreenshotModel; the properties of those functions are in
 ScreenshotProperties.
 */
module Screenshots {
  import opened Wrappers
  import opened FileSystem
  import opened ScreenshotModel

  /** The browser object `puppeteer.launch` returns, reduced to what the service observes of it. */
  class Browser {
    const args: Option<seq<string>>
    var open: bool
    var pages: nat

    /** A successful `puppeteer.launch`, given the launch arguments when there are any. */
    constructor Launch(args: Option<seq<string>>)
      ensures this.args == args && open && pages == 0
    {
      this.args := args;
      open := true;
      pages := 0;
    }

    /** `browser.close()`. */
    method Close()
      modifies this
      ensures !open && pages == old(pages)
    {
      open := false;
    }

    /** `browser.newPage()`: one more tab, or a rejection once the browser is closed. */
    method NewPage() returns (ok: bool)
      modifies this
      ensures ok == old(open) && open == old(open)
      ensures pages == if ok then old(pages) + 1 else old(pages)
    {
      ok := open;
      if ok {
        pages := pages + 1;
      }
    }

    function View(): BrowserState
      reads this
    {
      BrowserState(args, open, pages)
    }
  }

  class ScreenshotService {
    const settings: Settings
    const tempDir: NonRootPath
    const fingerprint: Context -> string
    var browser: Browser?

    /** The construction proper, once the settings are validated (see `Create`). */
    constructor (settings: Settings, tempDir: NonRootPath, fingerprint: Context -> string)
      ensures this.settings == settings && this.tempDir == tempDir && browser == null
      ensures forall c :: this.fingerprint(c) == fingerprint(c)
    {
      this.settings := settings;
      this.tempDir := tempDir;
      this.fingerprint := fingerprint;
      browser := null;
    }

    /** The part of the service that never changes after construction. */
    function Configuration(): Config {
      Config(settings, tempDir, fingerprint)
    }

    /** The abstract state the lifecycle acts on: the browser field and the file system. */
    function StateOf(disk: Disk): State
      reads this, browser, disk
    {
      State(if browser == null then None else Some(browser.View()), disk.entries)
    }

    /** `start()` at time `now`; `launched` says whether `puppeteer.launch` succeeds. */
    method Start(disk: Disk, now: int, launched: bool) returns (status: Status)
      modifies this, disk
      ensures (status, StateOf(disk)) == StartStep(Configuration(), old(StateOf(disk)), now, launched)
      ensures launched ==> fresh(browser)
      ensures !launched ==> browser == old(browser)
    {
      if !launched {
        return Failure(LaunchFailed);
      }
      browser := new Browser.Launch(LaunchArgs(settings.disableSandbox));
      var present := disk.PathExists(tempDir);
      if present {
        return Failure(ExceptionNotDefined);
      }
      var made := disk.EnsureDir(tempDir, now);
      if !made {
        return Failure(DirectoryCreationFailed);
      }
      return Success;
    }

    /** `stop()`: it closes the browser but leaves `this.browser` set. */
    method Stop(disk: Disk)
      modifies browser, disk
      ensures browser == old(browser)
      ensures StateOf(disk) == StopStep(Configuration(), old(StateOf(disk)))
    {
      if browser != null {
        browser.Close();
      }
      var present := disk.PathExists(tempDir);
      if present {
        disk.Remove(tempDir);
      }
    }

    /** `restart()`. */
    method Restart(disk: Disk, now: int, launched: bool) returns (status: Status)
      modifies this, browser, disk
      ensures (status, StateOf(disk)) == RestartStep(Configuration(), old(StateOf(disk)), now, launched)
    {
      Stop(disk);
      status := Start(disk, now, launched);
    }

    /** `isScreenshotCacheValid(path)` at time `now`. */
    method IsScreenshotCacheValid(disk: Disk, path: Path, now: int) returns (valid: bool)
      ensures valid <==> path in disk.entries && now < disk.entries[path].mtime + settings.cacheTimeout
      ensures valid == CacheValid(disk.entries, path, now, settings.cacheTimeout)
    {
      var present := disk.PathExists(path);
      if !present {
        return false;
      }
      var entry := disk.Stat(path);
      valid := now < entry.mtime + settings.cacheTimeout;
    }

    /** `takeScreenshot(context)` at time `now`; `render` is how the renderer's work on the new tab ends. */
    method TakeScreenshot(disk: Disk, context: Context, now: int, render: RenderOutcome) returns (r: Result<Path>)
      modifies browser, disk
      ensures browser == old(browser)
      ensures (r, StateOf(disk)) == TakeStep(Configuration(), old(StateOf(disk)), context, now, render)
    {
      if browser == null {
        return Err(NotStarted);
      }
      var path := ScreenshotPath(Configuration(), context);
      var cached := IsScreenshotCacheValid(disk, path, now);
      if cached {
        return Ok(path);
      }
      var tab := browser.NewPage();
      if !tab {
        return Err(RenderFailed);
      }
      match render
      case Captured =>
        disk.WriteFile(path, now);
        r := Ok(path);
      case Failed(partial) =>
        if partial {
          disk.WriteFile(path, now);
        }
        r := Err(RenderFailed);
    }
  }

  /**
   `new ScreenshotService(opts)`: checks the image type before anything is
   built and then fixes `tempDir` below the settings' root; `clock` and
   `random` are the values of `Date.now()` and
   `Math.floor(Math.random() * 1000)`.
   */
  method Create(opts: Options, osTmpdir: Path, clock: nat, random: nat, fingerprint: Context -> string)
    returns (r: Result<ScreenshotService>)
    ensures r.Ok? <==> ResolveSettings(opts, osTmpdir).Ok?
    ensures r.Err? ==> r.error == UnsupportedImageType(opts.imageType.GetOr(DefaultImageType))
    ensures r.Ok? ==> fresh(r.value) && r.value.browser == null
    ensures r.Ok? ==> r.value.settings == ResolveSettings(opts, osTmpdir).value
    ensures r.Ok? ==> r.value.tempDir == RunDir(r.value.settings.tempDir, clock, random)
    ensures r.Ok? ==> forall c :: r.value.fingerprint(c) == fingerprint(c)
  {
    var settings := ResolveSettings(opts, osTmpdir);
    if settings.Err? {
      return Err(settings.error);
    }
    var service := new ScreenshotService(settings.value, RunDir(settings.value.tempDir, clock, random), fingerprint);
    return Ok(service);
  }
}
