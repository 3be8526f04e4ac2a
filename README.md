# Screenshot service: cache and renderer lifecycle

A Dafny model of `ScreenshotService`, the core of screenshot-as-a-service.
The service keeps one shared headless browser and caches rendered screenshots
as files. Each file lives in a run directory that the service creates when it
starts and deletes when it stops. The model covers:

- construction: the defaults, the image-type check, and the run directory
  `tempDir/screenshot-service/<Date.now()>-<random>` fixed once;
- the path scheme `tempDir/<fingerprint>.<ext>`, with `jpg` for JPEG and `png`
  for PNG;
- the cache-validity rule: a file is valid when it exists and
  `now < mtime + cacheTimeout`;
- the lifecycle `start`, `stop` and `restart`, and the "not started" guard of
  `takeScreenshot`. These act on two things: the `browser` field and the file
  system.

Files:

- `filesystem.dfy` (module `FileSystem`): an abstract file system. It maps each
  path (a list of components) to a file or a directory, each with a
  modification time. It has the fs-extra calls the service uses
  (`pathExists`, `stat`, `ensureDir`, `remove`) and the renderer's file write,
  as methods of a `Disk` class. `ensureDir` and `remove` are also functions
  (`MakeDirs`, `RemoveTree`).
- `numerals.dfy` (module `Numerals`): decimal printing of the clock and the
  random suffix, proved injective.
- `screenshot_model.dfy` (module `ScreenshotModel`): the datatypes, the pure
  parts of the service (settings, extension, path, cache rule), and one step
  function per operation over `State(browser, entries)`.
- `screenshot_service.dfy` (module `Screenshots`): the `ScreenshotService`
  class, with `settings`, `tempDir` and the fingerprint as constants and
  `browser` as a mutable field. It also has the `Browser` object and `Create`
  (the constructor's validation). Each state-changing method of `ScreenshotService` is proved equal
  to its step function.
- `screenshot_properties.dfy` (module `ScreenshotProperties`): lemmas that
  relate several calls.

Inputs that the real code takes from outside are parameters of the model:

- the clock (`now`, `clock`);
- the random suffix;
- `osTmpdir()`;
- whether `puppeteer.launch` succeeds;
- how the renderer's work on a tab ends (`RenderOutcome`);
- `md5(JSON.stringify(context))`, as an arbitrary fixed function
  `fingerprint: Context -> string`. Only its determinism is used.

Where the code differs from its documentation, the model follows the code:

- The default image type is `png`. The constructor's doc comment says `'jpg'`.
  See `DefaultSettings`.
- `start` records the new browser before it checks for the run directory. When
  the directory already exists, the browser stays recorded. The failure is not
  the intended "already exists" error: `throw new Exception(...)` names a class
  that does not exist, so it fails with a reference error. This is
  `Error.ExceptionNotDefined`.
- `stop` closes the browser but never clears `this.browser`. When a browser
  was recorded and the run directory existed, `takeScreenshot` after `stop`
  gets past the "not started" guard. It then fails in the
  closed browser when `newPage` is called. See `TakeAfterStopFailsInBrowser`.
- `stop` removes `this.tempDir` even when the service did not create it, for
  example when `start` failed because the directory was already there. See
  `StopRemovesPreexistingDir`.
- The doc comment says a cache timeout of `0` disables the cache. It does so
  only for entries not newer than the clock. The check is `now < mtime + 0`, so
  an entry stamped in the future is served from the cache. This includes a
  directory at the screenshot path, since `exists` and `stat` accept
  directories. See `CacheDisabled` and `CacheDisabledAlwaysRenders`, which both
  assume no entry is newer than `now`.
- A render that fails after part of the file was written leaves the file in
  place. Within the timeout, that file is then served as a valid cache entry.
  See `PartialFileServedFromCache`.

## Model

| member | source | states |
|---|---|---|
| `FileSystem.MakeDirs` | lib/ScreenshotService.mjs:67 | `ensureDir` succeeds exactly when no prefix of the path is a file; then every prefix is a directory, existing entries are unchanged, and only those prefixes are added, stamped `now` |
| `FileSystem.RemoveTree` | lib/ScreenshotService.mjs:79-81 | `remove(p)` deletes exactly `p` and what lies below it, and keeps every other entry unchanged |
| `FileSystem.Disk.PathExists` | lib/ScreenshotService.mjs:64 | true exactly when something (file or directory) is at the path |
| `FileSystem.Disk.Stat` | lib/ScreenshotService.mjs:116 | returns the entry, and so the modification time, of an existing path |
| `FileSystem.Disk.EnsureDir` | lib/ScreenshotService.mjs:67 | reports success exactly when the directories can be made, and the new file system is `MakeDirs`' result, or unchanged on failure |
| `FileSystem.Disk.Remove` | lib/ScreenshotService.mjs:80 | the new file system is the old one without the removed tree |
| `FileSystem.Disk.WriteFile` | lib/ScreenshotService.mjs:155 | the file at the path is (re)written with time `now`; nothing else changes |
| `Numerals.Decimal` | lib/ScreenshotService.mjs:54 | the printed number is non-empty, all digits, and one character long exactly for numbers below 10 |
| `Numerals.DecimalInjective` | lib/ScreenshotService.mjs:54 | different numbers print differently |
| `Numerals.SplitAtSeparator` | lib/ScreenshotService.mjs:54 | `x-y` with no `-` in `x` splits back into `x` and `y` |
| `ScreenshotModel.ParseImageType` | lib/ScreenshotService.mjs:50-52 | accepts exactly `"jpeg"` and `"png"`, and an accepted format's name is the input |
| `ScreenshotModel.ResolveSettings` | lib/ScreenshotService.mjs:43-53 | construction succeeds exactly when the image type, defaulting to `"png"`, is `"jpeg"` or `"png"`; otherwise it fails with that type named; on success the settings hold the given values or the defaults (`osTmpdir()`, cache timeout 0, no sandbox switch) |
| `ScreenshotModel.RunDir` | lib/ScreenshotService.mjs:54 | the run directory lies two levels below the root, in `screenshot-service` |
| `ScreenshotModel.Extension` | lib/ScreenshotService.mjs:101 | the extension is `jpg` exactly for JPEG and `png` exactly for PNG |
| `ScreenshotModel.ScreenshotPath` | lib/ScreenshotService.mjs:99-103 | the path is one level below `tempDir`, and its file name splits into the context's fingerprint, a dot and the extension |
| `ScreenshotModel.LaunchArgs` | lib/ScreenshotService.mjs:62 | launch arguments are passed exactly when sandboxing is disabled, and they are the two sandbox switches |
| `ScreenshotModel.CacheValid` | lib/ScreenshotService.mjs:111-118 | the cache-validity rule: an entry is valid only when something is at the path, and then exactly when its age `now - mtime` is below the cache timeout |
| `ScreenshotModel.StartStep` | lib/ScreenshotService.mjs:61-68 | a failed launch changes nothing; after a launch the fresh browser is recorded even if `start` then fails; it fails with the reference error exactly when `tempDir` already exists; it succeeds exactly when `tempDir` is absent and creatable; when it is absent but a prefix is a file, it fails with the directory-creation error; success leaves `tempDir` a directory and adds exactly its missing prefixes, each stamped `now`; a failure leaves the file system unchanged |
| `ScreenshotModel.StopStep` | lib/ScreenshotService.mjs:75-82 | the browser field stays set exactly when it was, now closed; `tempDir` is absent afterwards; entries are only removed, only below `tempDir`, and all of them when `tempDir` existed; an absent `tempDir` leaves the file system unchanged |
| `ScreenshotModel.TakeStep` | lib/ScreenshotService.mjs:129-161 | with no browser recorded it fails with "not started" and changes nothing; any success returns the screenshot path and something (a file, or a directory at the path) is there; a valid cache entry is returned with nothing changed; otherwise exactly one tab is opened when the browser is open and none when it is closed, it succeeds exactly when the browser is open and the render completes, and it fails with a render error otherwise; a closed browser changes nothing at all; with an open browser and a render that completes or writes part of the file, the file at that path is (re)written with time `now`, replacing any stale file, and nothing else changes; in every other case the file system is unchanged |
| `ScreenshotModel.RestartStep` | lib/ScreenshotService.mjs:89-92 | `stop` then `start`: a failed launch leaves the stopped state; it never fails with the reference error, because `stop` has just removed `tempDir`; it succeeds exactly when the launch works and no prefix of `tempDir` is a file; after a launch the fresh browser is recorded |
| `Screenshots.Browser.Launch` | lib/ScreenshotService.mjs:63 | a launched browser is open with the given arguments and no tabs |
| `Screenshots.Browser.Close` | lib/ScreenshotService.mjs:77 | closing leaves the browser closed, its tabs untouched |
| `Screenshots.Browser.NewPage` | lib/ScreenshotService.mjs:145 | a tab opens, adding one to the count, exactly when the browser is open |
| `Screenshots.ScreenshotService.constructor` | lib/ScreenshotService.mjs:53-54 | the service holds the given settings, run directory and fingerprint, and no browser |
| `Screenshots.ScreenshotService.Start` | lib/ScreenshotService.mjs:61-68 | the returned status and the new browser field and file system are those of `StartStep`; a launch allocates a fresh browser object |
| `Screenshots.ScreenshotService.Stop` | lib/ScreenshotService.mjs:75-82 | the `browser` field is not reassigned, and the new state is that of `StopStep` |
| `Screenshots.ScreenshotService.Restart` | lib/ScreenshotService.mjs:89-92 | the status and new state are those of `stop` followed by `start` |
| `Screenshots.ScreenshotService.IsScreenshotCacheValid` | lib/ScreenshotService.mjs:111-118 | valid exactly when something is at the path and `now < mtime + cacheTimeout` |
| `Screenshots.ScreenshotService.TakeScreenshot` | lib/ScreenshotService.mjs:129-161 | the `browser` field is not reassigned, and the result and new state are those of `TakeStep` |
| `Screenshots.Create` | lib/ScreenshotService.mjs:43-55 | an instance is produced exactly when the image type is supported; otherwise it fails with the unsupported type named; a new instance has the resolved settings, its run directory below the settings' root, the given fingerprint and no browser |
| `ScreenshotProperties.ImageTypeRoundTrip` | lib/ScreenshotService.mjs:50 | every supported format is accepted under its own name |
| `ScreenshotProperties.DefaultSettings` | lib/ScreenshotService.mjs:44-48 | with no options, the format is PNG, the cache timeout 0, no sandbox switch, and the root the system temp directory |
| `ScreenshotProperties.RunDirUnique` | lib/ScreenshotService.mjs:54 | equal run directories come from the same clock reading and the same random suffix |
| `ScreenshotProperties.ScreenshotPathIdentifiesFingerprint` | lib/ScreenshotService.mjs:99-103 | two contexts get the same path exactly when they get the same fingerprint, so equal contexts share a path |
| `ScreenshotProperties.ScreenshotPathIsNoAncestor` | lib/ScreenshotService.mjs:102 | no screenshot path is `tempDir` or one of its parents |
| `ScreenshotProperties.CacheMissWhenAbsent` | lib/ScreenshotService.mjs:112-114 | nothing at the path means no valid entry |
| `ScreenshotProperties.FreshnessWindow` | lib/ScreenshotService.mjs:116-117 | a file written at `t0` is valid at `t` exactly when `t < t0 + cacheTimeout` |
| `ScreenshotProperties.CacheDisabled` | lib/ScreenshotService.mjs:38 | with the default timeout 0, a file not newer than `now` is never valid |
| `ScreenshotProperties.CacheDisabledAlwaysRenders` | lib/ScreenshotService.mjs:137-145 | with timeout 0 and no entry (file or directory) newer than `now`, each screenshot on an open browser opens a new tab |
| `ScreenshotProperties.StartEstablishesDirs` | lib/ScreenshotService.mjs:67 | after a successful `start`, `tempDir` and all its parents are directories |
| `ScreenshotProperties.TakePreservesDirs` | lib/ScreenshotService.mjs:155 | a screenshot never disturbs `tempDir` or its parents |
| `ScreenshotProperties.StartTwiceFails` | lib/ScreenshotService.mjs:63-66 | after a successful `start`, a second `start` without `stop` in between fails with the reference error, after replacing the recorded browser with a new one |
| `ScreenshotProperties.StopIsIdempotent` | lib/ScreenshotService.mjs:75-82 | a second `stop` changes nothing, and `tempDir` stays absent |
| `ScreenshotProperties.RestartSucceeds` | lib/ScreenshotService.mjs:89-92 | from a state where `tempDir` and its parents are directories, `restart` with a working launch succeeds and restores that state |
| `ScreenshotProperties.RestartAfterUse` | lib/ScreenshotService.mjs:54 | after a successful `start` and any screenshot, `restart` succeeds, since `tempDir` is fixed and `stop` just removed it |
| `ScreenshotProperties.TakeAfterStopFailsInBrowser` | lib/ScreenshotService.mjs:130-132 | when a browser was recorded and `tempDir` existed, `takeScreenshot` after `stop` is not rejected as "not started"; it fails as a render error in the closed browser and changes nothing |
| `ScreenshotProperties.StopRemovesPreexistingDir` | lib/ScreenshotService.mjs:79-81 | a `tempDir` that was already there makes `start` fail, and the next `stop` still removes it with everything below it |
| `ScreenshotProperties.ColdWarmStale` | lib/ScreenshotService.mjs:135-160 | after `start`, a cold request renders and writes the file at `now`; a repeat within the timeout returns the same path with nothing changed; a repeat at a time `t3` at or after the end of the timeout renders again and restamps the file with `t3` |
| `ScreenshotProperties.PartialFileServedFromCache` | lib/ScreenshotService.mjs:155-160 | a render that fails after a partial write leaves the file in place, and within the timeout the next request returns it without rendering |

## Left out

- The logger (`settings.logger`, lines 138-157). It has no effect on the state.
- Puppeteer's internals (`launch`, `newPage`, `setViewport`, `goto`, `screenshot`). These are foreign calls. Launch success is a parameter. The work on a tab is a `RenderOutcome` parameter: captured, or failed with or without a partial file. A closed browser always refuses `newPage`.
- Failures of `browser.close()` and `remove`. The model's `stop` always succeeds.
- Operating-system failures of `ensureDir` (missing permissions, a full disk). In the model it fails only when a prefix of the path is a file.
- The bodies of `md5` and `JSON.stringify`. They are foreign library code. The fingerprint is an arbitrary fixed function. The canonical order of the serialised fields is therefore not modelled.
- `Date.now()`, `Math.random()` and `osTmpdir()`. These are the clock, randomness and the environment, so they are parameters. `Create` does not require the random suffix to be below 1000.
- Normalisation by `path.join` (`.`, `..`, repeated separators). Paths are lists of components, so `join` is concatenation.
- Tree consistency of the file system. The model allows an entry whose parent is missing. A write into a missing directory, or onto a directory, does not fail by itself: the renderer outcome decides.
- The modification times of parent directories. A real `mkdir`, write or `remove` also updates the mtime of the containing directory; the model leaves every other entry unchanged. The service reads the times of screenshot files only, never of directories.
- Time passing during a render. The file is stamped with the same `now` as the cache check.
- `mtimeMs` as a floating-point number. Times are integers.
- Concurrency: async interleaving of `takeScreenshot` calls, and their missing per-key deduplication.
- A non-string `imageType`, and a call of the constructor with no argument object (a `TypeError`). These are JavaScript typing edge cases.
- `Screenshots.Create`: states that the stored fingerprint agrees with the given one on every context, not that it is the same function object.
- `app.mjs` (Express routing, parameter validation, HTTP responses, CORS, configuration and signal handling). This is transport plumbing outside the service.
