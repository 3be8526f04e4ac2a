/**
 Properties of the screenshot service that relate several calls: the
 uniqueness of the run directory, the path scheme as a cache key, the
 freshness window, the lifecycle (`start`, `stop`, `restart`) and the
 behaviour of `takeScreenshot` around it, stated on the step functions of
 ScreenshotModel, which the methods of Screenshots are proved equal to.
 */
module ScreenshotProperties {
  import opened Wrappers
  import opened FileSystem
  import opened Numerals
  import opened ScreenshotModel

  // ---------------------------------------------------------------- construction

  /** Every accepted format is accepted under its own name. */
  lemma ImageTypeRoundTrip(t: ImageType)
    ensures ParseImageType(t.Name()) == Some(t)
  {
  }

  /** With nothing given, the format is PNG (not the "jpg" the doc comment names) and caching is off. */
  lemma DefaultSettings(osTmpdir: Path)
    ensures ResolveSettings(Options(None, None, None, None), osTmpdir) == Ok(Settings(osTmpdir, 0, Png, false))
  {
  }

  /** Two runs started at different clock readings or with different random suffixes get different directories. */
  lemma RunDirUnique(root: Path, clock1: nat, random1: nat, clock2: nat, random2: nat)
    requires RunDir(root, clock1, random1) == RunDir(root, clock2, random2)
    ensures clock1 == clock2 && random1 == random2
  {
    var d := RunDir(root, clock1, random1);
    assert d[|root| + 1] == Decimal(clock1) + ['-'] + Decimal(random1);
    assert d[|root| + 1] == Decimal(clock2) + ['-'] + Decimal(random2);
    SplitAtSeparator(Decimal(clock1), Decimal(random1), Decimal(clock2), Decimal(random2), '-');
    DecimalInjective(clock1, clock2);
    DecimalInjective(random1, random2);
  }

  // ---------------------------------------------------------------- path scheme

  /** The screenshot path is a cache key: two contexts share a path exactly when they share a fingerprint. */
  lemma ScreenshotPathIdentifiesFingerprint(cfg: Config, c1: Context, c2: Context)
    ensures ScreenshotPath(cfg, c1) == ScreenshotPath(cfg, c2) <==> cfg.fingerprint(c1) == cfg.fingerprint(c2)
  {
  }

  /** No screenshot path is one of the directories `start` creates. */
  lemma ScreenshotPathIsNoAncestor(cfg: Config, c: Context)
    ensures ScreenshotPath(cfg, c) !in Ancestors(cfg.tempDir)
  {
  }

  // ---------------------------------------------------------------- cache validity

  /** A path with nothing at it is never a valid cache entry. */
  lemma CacheMissWhenAbsent(e: Entries, p: Path, now: int, cacheTimeout: int)
    requires p !in e
    ensures !CacheValid(e, p, now, cacheTimeout)
  {
  }

  /** A file written at `t0` is valid at `t` exactly while `t < t0 + cacheTimeout`. */
  lemma FreshnessWindow(e: Entries, p: Path, t0: int, t: int, cacheTimeout: int)
    ensures CacheValid(e[p := File(t0)], p, t, cacheTimeout) <==> t < t0 + cacheTimeout
  {
  }

  /** With the default timeout `0`, nothing written at or before `now` is valid. */
  lemma CacheDisabled(e: Entries, p: Path, now: int)
    requires p in e && e[p].mtime <= now
    ensures !CacheValid(e, p, now, DefaultCacheTimeout)
  {
  }

  /** With caching off, every screenshot taken on an open browser opens a new tab. */
  lemma CacheDisabledAlwaysRenders(cfg: Config, s: State, c: Context, now: int, render: RenderOutcome)
    requires cfg.settings.cacheTimeout == DefaultCacheTimeout
    requires s.browser.Some? && s.browser.value.open
    requires forall q :: q in s.entries ==> s.entries[q].mtime <= now
    ensures TakeStep(cfg, s, c, now, render).1.browser.value.pages == s.browser.value.pages + 1
  {
  }

  // ---------------------------------------------------------------- lifecycle

  /** `tempDir` and the directories above it all exist as directories. */
  predicate DirsInPlace(cfg: Config, e: Entries) {
    forall q :: q in Ancestors(cfg.tempDir) ==> q in e && e[q].Dir?
  }

  /** A successful `start` leaves `tempDir` and its parents in place. */
  lemma StartEstablishesDirs(cfg: Config, s: State, now: int)
    requires StartStep(cfg, s, now, true).0.Success?
    ensures DirsInPlace(cfg, StartStep(cfg, s, now, true).1.entries)
  {
  }

  /** Taking a screenshot writes below `tempDir` only, so it keeps the directories in place. */
  lemma TakePreservesDirs(cfg: Config, s: State, c: Context, now: int, render: RenderOutcome)
    requires DirsInPlace(cfg, s.entries)
    ensures DirsInPlace(cfg, TakeStep(cfg, s, c, now, render).1.entries)
  {
  }

  /** Two `start` calls without `stop` in between: the second fails, after replacing the recorded browser. */
  lemma StartTwiceFails(cfg: Config, s: State, t0: int, t1: int)
    requires StartStep(cfg, s, t0, true).0.Success?
    ensures var s1 := StartStep(cfg, s, t0, true).1;
      StartStep(cfg, s1, t1, true) ==
        (Failure(ExceptionNotDefined), s1.(browser := Some(BrowserState(LaunchArgs(cfg.settings.disableSandbox), true, 0))))
  {
  }

  /** A second `stop` changes nothing; `tempDir` stays absent. */
  lemma StopIsIdempotent(cfg: Config, s: State)
    ensures StopStep(cfg, StopStep(cfg, s)) == StopStep(cfg, s)
    ensures cfg.tempDir !in StopStep(cfg, StopStep(cfg, s)).entries
  {
  }

  /** `restart` from a state whose directories are in place succeeds, and leaves them in place again. */
  lemma RestartSucceeds(cfg: Config, s: State, now: int)
    requires DirsInPlace(cfg, s.entries)
    ensures RestartStep(cfg, s, now, true).0 == Success
    ensures DirsInPlace(cfg, RestartStep(cfg, s, now, true).1.entries)
  {
  }

  /** `start`, any screenshot, then `restart`: the restart succeeds. */
  lemma RestartAfterUse(cfg: Config, s: State, t0: int, c: Context, t1: int, render: RenderOutcome, t2: int)
    requires StartStep(cfg, s, t0, true).0.Success?
    ensures var started := StartStep(cfg, s, t0, true).1;
      RestartStep(cfg, TakeStep(cfg, started, c, t1, render).1, t2, true).0 == Success
  {
  }

  /**
   `stop` does not clear `this.browser`, so after it `takeScreenshot` gets
   past the "not started" guard and fails in the closed browser instead.
   */
  lemma TakeAfterStopFailsInBrowser(cfg: Config, s: State, c: Context, now: int, render: RenderOutcome)
    requires s.browser.Some? && cfg.tempDir in s.entries
    ensures var stopped := StopStep(cfg, s);
      TakeStep(cfg, stopped, c, now, render) == (Err(RenderFailed), stopped)
  {
  }

  /** A `tempDir` that already existed, making `start` fail, is still removed by the next `stop`. */
  lemma StopRemovesPreexistingDir(cfg: Config, s: State, now: int)
    requires cfg.tempDir in s.entries
    ensures StartStep(cfg, s, now, true).0 == Failure(ExceptionNotDefined)
    ensures forall q :: q in StopStep(cfg, StartStep(cfg, s, now, true).1).entries ==> !IsUnder(q, cfg.tempDir)
  {
  }

  // ---------------------------------------------------------------- end to end

  /**
   `start`; a screenshot on a cold cache renders and writes the file; the same
   request within the timeout is served from the cache; after the timeout it
   renders again and the file is restamped with `t3`.
   */
  lemma ColdWarmStale(cfg: Config, s: State, c: Context, t0: int, t1: int, t2: int, t3: int, render: RenderOutcome)
    requires StartStep(cfg, s, t0, true).0.Success?
    requires ScreenshotPath(cfg, c) !in s.entries
    requires t2 < t1 + cfg.settings.cacheTimeout <= t3
    ensures var p := ScreenshotPath(cfg, c);
      var started := StartStep(cfg, s, t0, true).1;
      var (r1, cold) := TakeStep(cfg, started, c, t1, Captured);
      var (r3, stale) := TakeStep(cfg, cold, c, t3, Captured);
      r1 == Ok(p) && cold.entries[p] == File(t1) && cold.browser.value.pages == 1 &&
      TakeStep(cfg, cold, c, t2, render) == (Ok(p), cold) &&
      r3 == Ok(p) && stale.entries[p] == File(t3) && stale.browser.value.pages == 2
  {
  }

  /**
   A render that fails after writing part of the file leaves it in place, and
   within the timeout the next request serves that file without rendering.
   */
  lemma PartialFileServedFromCache(cfg: Config, s: State, c: Context, t: int, t': int, render: RenderOutcome)
    requires s.browser.Some? && s.browser.value.open
    requires !CacheValid(s.entries, ScreenshotPath(cfg, c), t, cfg.settings.cacheTimeout)
    requires t' < t + cfg.settings.cacheTimeout
    ensures var (r1, s1) := TakeStep(cfg, s, c, t, Failed(true));
      r1 == Err(RenderFailed) && TakeStep(cfg, s1, c, t', render) == (Ok(ScreenshotPath(cfg, c)), s1)
  {
  }
}
