/** The root-cache plugin: keeps a prepared build root as one (optionally compressed) tar
    archive in a shared cache directory, unpacks it into the chroot at the start of a build
    and re-packs the chroot at the end, under a shared/exclusive lock on a lock file.

    The host filesystem is a map from path to (ctime, mtime); the chroot is the set of
    entries in it; everything the plugin learns from outside (the clock, lock contention,
    whether `tar` succeeds, what it extracts, whether `cache.log` can be written) arrives in
    an `Effects` value. */
module RootCachePlugin {
  import opened Text
  import opened Plugins

  const SecondsPerDay: int := 60 * 60 * 24
  const PigzPath := "/usr/bin/pigz"
  const ExcludePrefix := "--exclude="
  const WaitingPhase := "Waiting for rootcache lock"
  const UnpackingPhase := "unpacking root cache"
  const CreatingPhase := "creating cache"

  datatype FileStat = FileStat(ctime: int, mtime: int)

  /** This process's `fcntl.lockf` mode on the lock file. */
  datatype LockMode = Unlocked | Shared | Exclusive

  /** Calls to the build state's `start`/`finish` progress reporting. */
  datatype StateEvent = Start(phase: string) | Finish(phase: string)

  /** Exceptions that escape the plugin: `rootCacheLock` still `None` when the lock is taken
      (an AttributeError), and a failing `tar`. */
  datatype Error = NoLockHandle | TarFailed
  datatype Outcome = Ok | Failed(error: Error)

  /** Lock calls and archive accesses, in the order they happen. */
  datatype Step = Acquire(mode: LockMode) | Release | Extract | Pack | RemoveArchive

  /** Every archive access in `t` happens under the right lock, `held` being the lock at the
      start: `tar -x` reads the archive under the shared lock, `tar -c` and the removal of a
      partial archive run under the exclusive lock. */
  predicate LockedAccesses(t: seq<Step>, held: LockMode)
    decreases |t|
  {
    if t == [] then true
    else match t[0]
      case Acquire(m) => LockedAccesses(t[1..], m)
      case Release => LockedAccesses(t[1..], Unlocked)
      case Extract => held == Shared && LockedAccesses(t[1..], held)
      case _ => held == Exclusive && LockedAccesses(t[1..], held)
  }

  /** The lock held after the steps `t`, starting from `held`. */
  function HeldAfter(t: seq<Step>, held: LockMode): (m: LockMode)
    ensures t != [] && t[|t| - 1] == Release ==> m == Unlocked
    ensures t != [] && t[|t| - 1].Acquire? ==> m == t[|t| - 1].mode
    decreases |t|
  {
    if t == [] then held
    else HeldAfter(t[1..], match t[0] case Acquire(m) => m case Release => Unlocked case _ => held)
  }

  /** Lock discipline composes: a run of steps is disciplined exactly when its first part is,
      and its second part is from the lock the first part leaves held. */
  lemma {:induction false} LockedAccessesAppend(a: seq<Step>, b: seq<Step>, held: LockMode)
    ensures LockedAccesses(a + b, held) <==> LockedAccesses(a, held) && LockedAccesses(b, HeldAfter(a, held))
    ensures HeldAfter(a + b, held) == HeldAfter(b, HeldAfter(a, held))
    decreases |a|
  {
    if a == [] {
      assert a + b == b;
    } else {
      assert (a + b)[0] == a[0] && (a + b)[1..] == a[1..] + b;
      var next := match a[0] case Acquire(m) => m case Release => Unlocked case _ => held;
      LockedAccessesAppend(a[1..], b, next);
    }
  }

  /** The steps of an unpack that reaches `tar -x`: shared lock, extraction, and the release
      only when `tar` succeeded. */
  function UnpackSteps(tarSucceeds: bool): (t: seq<Step>)
    ensures |t| >= 2 && t[0] == Acquire(Shared) && t[1] == Extract
  {
    [Acquire(Shared), Extract] + (if tarSucceeds then [Release] else [])
  }

  /** The steps of a rebuild with an open lock handle: exclusive lock, `tar -c` only when
      packing, the removal of the archive only when `tar` failed and an archive exists after
      it (an old one, or the partial one `tar -cf` left), and always the release. */
  function RebuildSteps(packs: bool, tarSucceeds: bool, archiveAfterTar: bool): (t: seq<Step>)
    ensures |t| >= 2 && t[0] == Acquire(Exclusive) && t[|t| - 1] == Release
  {
    [Acquire(Exclusive)] + (if packs then PackSteps(tarSucceeds, archiveAfterTar) else []) + [Release]
  }

  /** The steps of packing itself: `tar -c`, then the removal of the archive when `tar`
      failed and an archive exists after it. */
  function PackSteps(tarSucceeds: bool, archiveAfterTar: bool): (t: seq<Step>)
    ensures |t| >= 1 && t[0] == Pack
  {
    [Pack] + (if !tarSucceeds && archiveAfterTar then [RemoveArchive] else [])
  }

  /** The shared lock is released after unpacking only when `tar -x` succeeded. */
  lemma UnpackStepsRelease(tarSucceeds: bool)
    ensures Release in UnpackSteps(tarSucceeds) <==> tarSucceeds
  {
    if tarSucceeds {
      assert UnpackSteps(tarSucceeds)[2] == Release;
    } else {
      assert UnpackSteps(tarSucceeds) == [Acquire(Shared), Extract];
    }
  }

  /** A rebuild runs `tar -c` exactly when it packs, and removes the archive exactly when
      packing failed and an archive is there after `tar`. */
  lemma RebuildStepsContent(packs: bool, tarSucceeds: bool, archiveAfterTar: bool)
    ensures Pack in RebuildSteps(packs, tarSucceeds, archiveAfterTar) <==> packs
    ensures RemoveArchive in RebuildSteps(packs, tarSucceeds, archiveAfterTar) <==> packs && !tarSucceeds && archiveAfterTar
  {
    var t := RebuildSteps(packs, tarSucceeds, archiveAfterTar);
    if packs && !tarSucceeds && archiveAfterTar {
      assert t == [Acquire(Exclusive), Pack, RemoveArchive, Release];
    } else if packs {
      assert t == [Acquire(Exclusive), Pack, Release];
    } else {
      assert t == [Acquire(Exclusive), Release];
    }
  }

  /** Unpacking reads the archive under the shared lock, whatever lock was held before. */
  lemma UnpackStepsLocked(tarSucceeds: bool, held: LockMode)
    ensures LockedAccesses(UnpackSteps(tarSucceeds), held)
    ensures HeldAfter(UnpackSteps(tarSucceeds), held) == if tarSucceeds then Unlocked else Shared
  {
    var tail: seq<Step> := if tarSucceeds then [Release] else [];
    LockedAccessesAppend([Acquire(Shared)], [Extract] + tail, held);
    LockedAccessesAppend([Extract], tail, Shared);
  }

  /** Packing runs under the exclusive lock and leaves it held. */
  lemma PackStepsLocked(tarSucceeds: bool, archiveAfterTar: bool)
    ensures LockedAccesses(PackSteps(tarSucceeds, archiveAfterTar), Exclusive)
    ensures HeldAfter(PackSteps(tarSucceeds, archiveAfterTar), Exclusive) == Exclusive
  {
    var removal: seq<Step> := if !tarSucceeds && archiveAfterTar then [RemoveArchive] else [];
    LockedAccessesAppend([Pack], removal, Exclusive);
  }

  /** Rebuilding packs and removes the archive only under the exclusive lock, and ends with
      nothing locked, whatever lock was held before. */
  lemma RebuildStepsLocked(packs: bool, tarSucceeds: bool, archiveAfterTar: bool, held: LockMode)
    ensures LockedAccesses(RebuildSteps(packs, tarSucceeds, archiveAfterTar), held)
    ensures HeldAfter(RebuildSteps(packs, tarSucceeds, archiveAfterTar), held) == Unlocked
  {
    var middle: seq<Step> := if packs then PackSteps(tarSucceeds, archiveAfterTar) else [];
    if packs {
      PackStepsLocked(tarSucceeds, archiveAfterTar);
    }
    LockedAccessesAppend([Acquire(Exclusive)], middle, held);
    LockedAccessesAppend([Acquire(Exclusive)] + middle, [Release], held);
  }


  /** Steps appended one after another are the concatenated run appended at once. */
  lemma AppendRuns(t: seq<Step>, a: seq<Step>, b: seq<Step>, c: seq<Step>)
    ensures t + a + b + c == t + (a + b + c)
  {
  }

  /** The aging step unlinks a stale archive before any lock is taken, so an unpack that
      starts with it keeps the locking rule only if the exclusive lock happened to be held. */
  lemma AgingRemovalUnlocked(rest: seq<Step>, held: LockMode)
    ensures LockedAccesses([RemoveArchive] + rest, held) ==> held == Exclusive
  {
    LockedAccessesAppend([RemoveArchive], rest, held);
  }

  /** A failed unpack leaves the shared lock held; a following rebuild still packs under
      the exclusive lock, because it converts the lock first. */
  lemma FailedUnpackThenRebuildLocked(packs: bool, tarSucceeds: bool, archiveAfterTar: bool)
    ensures LockedAccesses(UnpackSteps(false) + RebuildSteps(packs, tarSucceeds, archiveAfterTar), Unlocked)
  {
    UnpackStepsLocked(false, Unlocked);
    RebuildStepsLocked(packs, tarSucceeds, archiveAfterTar, Shared);
    LockedAccessesAppend(UnpackSteps(false), RebuildSteps(packs, tarSucceeds, archiveAfterTar), Unlocked);
  }

  /** The plugin's own options (`root_cache_opts`); `dir` is the already expanded cache directory. */
  datatype Options = Options(
    dir: string, compressProgram: string, extension: string, excludeDirs: seq<string>,
    ageCheck: bool, maxAgeDays: int)

  /** The parts of the build configuration the plugin reads. */
  datatype BuildConfig = BuildConfig(configsPaths: seq<string>, tmpfsEnable: bool, cacheAlterations: bool)

  /** What the outside world decides during one hook call. */
  datatype Effects = Effects(
    now: int,               // time.time(), in whole seconds
    lockContended: bool,    // the non-blocking lockf attempt raises IOError
    tarSucceeds: bool,      // the `tar -x` / `tar -c` command succeeds
    partialArchive: bool,   // a failing `tar -c` has already created or truncated the archive
    extracted: set<string>, // chroot entries `tar -x` writes (also when it then fails)
    logWritable: bool)      // cache.log can be opened and written

  // ---------------------------------------------------------------------------
  // Compression and the archive name

  datatype Compression = Compression(program: string, args: seq<string>, cacheFile: string)

  /** The compressor actually used, the tar arguments selecting it and the archive path. */
  function ChooseCompression(requested: string, pigzInstalled: bool, dir: string, extension: string): (c: Compression)
    ensures c.program == "pigz" ==> pigzInstalled
    ensures requested == "pigz" && !pigzInstalled ==> c.program == "gzip"
    ensures requested != "pigz" || pigzInstalled ==> c.program == requested
    ensures c.args == [] <==> c.program == ""
    ensures c.args != [] ==> c.args == ["--use-compress-program", c.program]
    ensures c.cacheFile == Join(dir, "cache.tar") + if c.program == "" then "" else extension
  {
    var program := if requested == "pigz" && !pigzInstalled then "gzip" else requested;
    var base := Join(dir, "cache.tar");
    if program != "" then
      Compression(program, ["--use-compress-program", program], base + extension)
    else
      Compression(program, [], base)
  }

  // ---------------------------------------------------------------------------
  // Exclude patterns

  /** The initial tar exclude list, one pattern per configured exclude directory. */
  function InitialExcludes(dirs: seq<string>): (r: seq<string>)
    ensures |r| == |dirs|
    ensures forall i :: 0 <= i < |dirs| ==> StartsWith(r[i], ExcludePrefix)
  {
    seq(|dirs|, i requires 0 <= i < |dirs| => ExcludePrefix + dirs[i])
  }

  /** The path a `--exclude=` pattern names. */
  function ExcludedPath(pattern: string): (path: string)
    requires StartsWith(pattern, ExcludePrefix)
  {
    pattern[|ExcludePrefix|..]
  }

  /** Reading the paths back out of the initial exclude list gives the configured directories. */
  lemma InitialExcludesRoundTrip(dirs: seq<string>)
    ensures var r := InitialExcludes(dirs);
      seq(|r|, i requires 0 <= i < |r| => ExcludedPath(r[i])) == dirs
  {
    var r := InitialExcludes(dirs);
    var back := seq(|r|, i requires 0 <= i < |r| => ExcludedPath(r[i]));
    forall i | 0 <= i < |dirs| ensures back[i] == dirs[i] {
      assert r[i] == ExcludePrefix + dirs[i];
    }
  }

  /** The pattern that keeps a mount point out of the archive. */
  function MountPattern(m: string): (pattern: string) {
    if StartsWith(m, "/") then ExcludePrefix + "." + m else ExcludePrefix + "./" + m
  }

  function MountPatterns(mounts: seq<string>): (patterns: seq<string>) {
    seq(|mounts|, i requires 0 <= i < |mounts| => MountPattern(mounts[i]))
  }

  /** A mount point with any leading `/` removed. */
  function Relative(m: string): (rel: string) {
    if StartsWith(m, "/") then m[1..] else m
  }

  /** Every mount pattern is rooted at the archive's top directory `./`, whether the mount
      point is given absolute or relative. */
  lemma MountPatternRooted(m: string)
    ensures MountPattern(m) == ExcludePrefix + "./" + Relative(m)
    ensures StartsWith(MountPattern(m), ExcludePrefix + "./")
  {
    var root := ExcludePrefix + "./";
    if StartsWith(m, "/") {
      assert m == "/" + m[1..];
      assert "." + m == "./" + m[1..];
      assert ExcludePrefix + "." + m == root + m[1..];
    }
    assert MountPattern(m) == root + Relative(m);
    assert (root + Relative(m))[..|root|] == root;
  }

  /** An absolute mount point and the same path written relative give the same pattern. */
  lemma AbsoluteAndRelativeMountsAgree(m: string)
    requires !StartsWith(m, "/")
    ensures MountPattern("/" + m) == MountPattern(m)
  {
    var a := "/" + m;
    assert a[..1] == "/" && a[1..] == m;
    MountPatternRooted(a);
    MountPatternRooted(m);
  }

  // ---------------------------------------------------------------------------
  // Aging

  /** `(time.time() - st_ctime) / (60 * 60 * 24) > max_age_days`, in real arithmetic. */
  predicate AgedOut(now: int, ctime: int, maxAgeDays: int) {
    (now - ctime) as real / SecondsPerDay as real > maxAgeDays as real
  }

  lemma AgedOutInSeconds(now: int, ctime: int, maxAgeDays: int)
    ensures AgedOut(now, ctime, maxAgeDays) <==> now - ctime > maxAgeDays * SecondsPerDay
  {
  }

  /** What the age check found. `Skipped`: age_check is off; `Missing`: the archive cannot be
      stat'ed; `ConfigUnreadable`: a config file cannot be stat'ed (the OSError is swallowed). */
  datatype Verdict =
    | Skipped
    | Missing
    | StaleByAge
    | StaleByConfig(config: string)
    | ConfigUnreadable(config: string)
    | Fresh

  /** The verdicts on which the archive is unlinked. */
  predicate Stale(v: Verdict) {
    v.StaleByAge? || v.StaleByConfig?
  }

  /** The config scan: stops at the first config that is missing or newer than the archive. */
  function ScanConfigs(configs: seq<string>, files: map<string, FileStat>, archiveMtime: int): (v: Verdict)
    ensures v.Fresh? || v.StaleByConfig? || v.ConfigUnreadable?
    ensures (v.StaleByConfig? || v.ConfigUnreadable?) ==> v.config in configs
    ensures v.ConfigUnreadable? ==> v.config !in files
    ensures v.StaleByConfig? ==> v.config in files && files[v.config].mtime > archiveMtime
    decreases |configs|
  {
    if configs == [] then Fresh
    else if configs[0] !in files then ConfigUnreadable(configs[0])
    else if files[configs[0]].mtime > archiveMtime then StaleByConfig(configs[0])
    else ScanConfigs(configs[1..], files, archiveMtime)
  }

  /** The config scan is consulted only when age_check is on and the archive has not aged out. */
  function CheckAge(ageCheck: bool, maxAgeDays: int, archive: string, configs: seq<string>,
                    files: map<string, FileStat>, now: int): (v: Verdict)
  {
    if !ageCheck then Skipped
    else if archive !in files then Missing
    else if AgedOut(now, files[archive].ctime, maxAgeDays) then StaleByAge
    else ScanConfigs(configs, files, files[archive].mtime)
  }

  /** Config `k` is the first one that is newer than the archive, and every earlier one was read. */
  ghost predicate FirstNewerAt(configs: seq<string>, files: map<string, FileStat>, archiveMtime: int, k: int) {
    && 0 <= k < |configs|
    && configs[k] in files && files[configs[k]].mtime > archiveMtime
    && forall j :: 0 <= j < k ==> configs[j] in files && files[configs[j]].mtime <= archiveMtime
  }

  /** The scan blames config `c` exactly when `c` is the first config newer than the archive. */
  lemma {:induction false} StaleByConfigIsFirstNewer(configs: seq<string>, files: map<string, FileStat>, m: int, c: string)
    ensures ScanConfigs(configs, files, m) == StaleByConfig(c)
            <==> exists k :: FirstNewerAt(configs, files, m, k) && configs[k] == c
    decreases |configs|
  {
    if configs == [] {
    } else if configs[0] !in files {
    } else if files[configs[0]].mtime > m {
      assert FirstNewerAt(configs, files, m, 0);
      if exists k :: FirstNewerAt(configs, files, m, k) && configs[k] == c {
        var k :| FirstNewerAt(configs, files, m, k) && configs[k] == c;
        assert k == 0;
      }
    } else {
      var rest := configs[1..];
      StaleByConfigIsFirstNewer(rest, files, m, c);
      if exists k :: FirstNewerAt(rest, files, m, k) && rest[k] == c {
        var k :| FirstNewerAt(rest, files, m, k) && rest[k] == c;
        assert FirstNewerAt(configs, files, m, k + 1);
      }
      if exists k :: FirstNewerAt(configs, files, m, k) && configs[k] == c {
        var k :| FirstNewerAt(configs, files, m, k) && configs[k] == c;
        assert k != 0;
        assert FirstNewerAt(rest, files, m, k - 1);
      }
    }
  }

  /** The scan passes exactly when every config exists and none is newer than the archive. */
  lemma {:induction false} FreshIffAllOlder(configs: seq<string>, files: map<string, FileStat>, m: int)
    ensures ScanConfigs(configs, files, m) == Fresh
            <==> forall j :: 0 <= j < |configs| ==> configs[j] in files && files[configs[j]].mtime <= m
    decreases |configs|
  {
    if configs != [] && configs[0] in files && files[configs[0]].mtime <= m {
      FreshIffAllOlder(configs[1..], files, m);
      assert forall j :: 1 <= j < |configs| ==> configs[j] == configs[1..][j - 1];
    }
  }

  /** The archive is deleted exactly when age_check is on, the archive exists, and it has
      either aged out or (not aged out and) some config is the first to be newer than it. */
  lemma CheckAgeDeletesIff(ageCheck: bool, maxAgeDays: int, archive: string, configs: seq<string>,
                           files: map<string, FileStat>, now: int)
    ensures Stale(CheckAge(ageCheck, maxAgeDays, archive, configs, files, now))
            <==> ageCheck && archive in files &&
                 (AgedOut(now, files[archive].ctime, maxAgeDays) ||
                  exists k :: FirstNewerAt(configs, files, files[archive].mtime, k))
  {
    if ageCheck && archive in files && !AgedOut(now, files[archive].ctime, maxAgeDays) {
      var m := files[archive].mtime;
      var v := ScanConfigs(configs, files, m);
      if v.StaleByConfig? {
        StaleByConfigIsFirstNewer(configs, files, m, v.config);
        var k :| FirstNewerAt(configs, files, m, k) && configs[k] == v.config;
        assert exists k :: FirstNewerAt(configs, files, m, k);
      }
      if exists k :: FirstNewerAt(configs, files, m, k) {
        var k :| FirstNewerAt(configs, files, m, k);
        StaleByConfigIsFirstNewer(configs, files, m, configs[k]);
        assert FirstNewerAt(configs, files, m, k) && configs[k] == configs[k];
        assert v == StaleByConfig(configs[k]);
      }
    }
  }

  // ---------------------------------------------------------------------------
  // The collaborators

  /** The host filesystem as far as the plugin touches it. */
  class Host {
    var files: map<string, FileStat>
    var dirs: set<string>

    constructor (files: map<string, FileStat>, dirs: set<string>)
      ensures this.files == files && this.dirs == dirs
    {
      this.files := files;
      this.dirs := dirs;
    }
  }

  /** The build root: its configuration, the chroot's entries and the state it reports. */
  class Buildroot {
    const config: BuildConfig
    var wasInitialized: bool         // chroot_was_initialized()
    var chroot: set<string>          // the entries under the chroot path
    var chrootWasCached: bool
    var mountPoints: seq<string>     // mounts.get_mountpoints()
    var stateLog: seq<StateEvent>    // state.start / state.finish calls

    constructor (config: BuildConfig, wasInitialized: bool, chroot: set<string>, mountPoints: seq<string>)
      ensures this.config == config && this.wasInitialized == wasInitialized
      ensures this.chroot == chroot && this.mountPoints == mountPoints
      ensures !chrootWasCached && stateLog == []
    {
      this.config := config;
      this.wasInitialized := wasInitialized;
      this.chroot := chroot;
      this.chrootWasCached := false;
      this.mountPoints := mountPoints;
      this.stateLog := [];
    }
  }

  /** The "creating cache" phase: started, and finished only when `tar -c` succeeded. */
  function CreatingEvents(tarSucceeds: bool): (events: seq<StateEvent>)
  {
    [Start(CreatingPhase)] + (if tarSucceeds then [Finish(CreatingPhase)] else [])
  }

  /** The "Waiting for rootcache lock" bracket reported only when the lock was contended. */
  function Waits(contended: bool): (events: seq<StateEvent>) {
    if contended then [Start(WaitingPhase), Finish(WaitingPhase)] else []
  }

  /** The registrations the plugin makes, in order. */
  const RootCacheHooks: seq<Registration> := [
    Registration(PreInit, RootCachePreInit),
    Registration(PreShell, RootCachePreShell),
    Registration(PreChroot, RootCachePreShell),
    Registration(PreYum, RootCachePreYum),
    Registration(PostInit, RootCachePostInit),
    Registration(PostShell, RootCachePostShell),
    Registration(PostChroot, RootCachePostShell),
    Registration(PostYum, RootCachePostShell)]

  /** The plugin's eight `add_hook` calls. */
  method RegisterHooks(plugins: PluginHost)
    modifies plugins
    ensures plugins.hooks == old(plugins.hooks) + RootCacheHooks
  {
    plugins.AddHook(PreInit, RootCachePreInit);
    plugins.AddHook(PreShell, RootCachePreShell);
    plugins.AddHook(PreChroot, RootCachePreShell);
    plugins.AddHook(PreYum, RootCachePreYum);
    plugins.AddHook(PostInit, RootCachePostInit);
    plugins.AddHook(PostShell, RootCachePostShell);
    plugins.AddHook(PostChroot, RootCachePostShell);
    plugins.AddHook(PostYum, RootCachePostShell);
  }

  // ---------------------------------------------------------------------------
  // The controller

  class RootCache {
    const buildroot: Buildroot
    const host: Host
    const opts: Options
    const rootSharedCachePath: string
    const rootCacheFile: string
    const lockFilePath: string
    const cacheLogPath: string
    const compressProgram: string
    const compressArgs: seq<string>
    const excludeDirs: seq<string>
    var excludeTarCmds: seq<string>
    var lockHandleOpen: bool   // rootCacheLock is not None
    ghost var lockFileOpens: nat   // how many times the lock file was opened
    var lockMode: LockMode
    ghost var trace: seq<Step>     // lock calls and archive accesses so far

    /** The exclude list only grows past its initial patterns; the lock file is opened at
        most once; a lock is held only through an open handle. */
    ghost predicate Valid()
      reads this
    {
      && |excludeDirs| <= |excludeTarCmds|
      && excludeTarCmds[..|excludeDirs|] == InitialExcludes(excludeDirs)
      && lockFileOpens <= 1
      && (lockHandleOpen <==> lockFileOpens == 1)
      && (lockMode != Unlocked ==> lockHandleOpen)
    }

    constructor (plugins: PluginHost, opts: Options, buildroot: Buildroot, host: Host)
      modifies plugins
      ensures Valid()
      ensures this.opts == opts && this.buildroot == buildroot && this.host == host
      ensures rootSharedCachePath == opts.dir
      ensures var c := ChooseCompression(opts.compressProgram, PigzPath in host.files, opts.dir, opts.extension);
              compressProgram == c.program && compressArgs == c.args && rootCacheFile == c.cacheFile
      ensures lockFilePath == Join(opts.dir, "rootcache.lock") && cacheLogPath == Join(opts.dir, "cache.log")
      ensures excludeDirs == opts.excludeDirs && excludeTarCmds == InitialExcludes(opts.excludeDirs)
      ensures !lockHandleOpen && lockFileOpens == 0 && lockMode == Unlocked && trace == []
      ensures plugins.hooks == old(plugins.hooks) + RootCacheHooks
    {
      this.buildroot := buildroot;
      this.host := host;
      this.opts := opts;
      rootSharedCachePath := opts.dir;
      var c := ChooseCompression(opts.compressProgram, PigzPath in host.files, opts.dir, opts.extension);
      compressProgram := c.program;
      compressArgs := c.args;
      rootCacheFile := c.cacheFile;
      lockFilePath := Join(opts.dir, "rootcache.lock");
      cacheLogPath := Join(opts.dir, "cache.log");
      RegisterHooks(plugins);
      excludeDirs := opts.excludeDirs;
      excludeTarCmds := InitialExcludes(opts.excludeDirs);
      lockHandleOpen := false;
      lockFileOpens := 0;
      lockMode := Unlocked;
      trace := [];
    }

    /** The age verdict on a given state of the host's files. */
    function AgeVerdict(files: map<string, FileStat>, now: int): (v: Verdict) {
      CheckAge(opts.ageCheck, opts.maxAgeDays, rootCacheFile, buildroot.config.configsPaths, files, now)
    }

    /** Take the lock: shared for unpacking, exclusive for rebuilding. A non-blocking attempt
        comes first; only when it is refused is the blocking wait bracketed by the
        "Waiting for rootcache lock" progress phase. */
    method Lock(shared: bool, contended: bool) returns (r: Outcome)
      requires Valid()
      modifies this`lockMode, this`trace, buildroot`stateLog
      ensures Valid()
      ensures r == if lockHandleOpen then Ok else Failed(NoLockHandle)
      ensures lockHandleOpen ==> lockMode == (if shared then Shared else Exclusive)
      ensures lockHandleOpen ==> buildroot.stateLog == old(buildroot.stateLog) + Waits(contended)
      ensures lockHandleOpen ==> trace == old(trace) + [Acquire(lockMode)]
      ensures !lockHandleOpen ==> unchanged(this`lockMode, this`trace, buildroot`stateLog)
    {
      if !lockHandleOpen {
        return Failed(NoLockHandle);
      }
      var mode := if shared then Shared else Exclusive;
      if contended {
        buildroot.stateLog := buildroot.stateLog + [Start(WaitingPhase)];
        lockMode := mode;
        buildroot.stateLog := buildroot.stateLog + [Finish(WaitingPhase)];
      } else {
        lockMode := mode;
      }
      trace := trace + [Acquire(mode)];
      r := Ok;
    }

    /** Release the lock; afterwards nothing is held. */
    method Unlock() returns (r: Outcome)
      requires Valid()
      modifies this`lockMode, this`trace
      ensures Valid()
      ensures r == if lockHandleOpen then Ok else Failed(NoLockHandle)
      ensures lockMode == Unlocked
      ensures trace == old(trace) + if lockHandleOpen then [Release] else []
    {
      if !lockHandleOpen {
        return Failed(NoLockHandle);
      }
      lockMode := Unlocked;
      trace := trace + [Release];
      r := Ok;
    }

    /** The aging step of unpacking: unlink the archive when the verdict says it is stale. */
    method CheckCacheAge(now: int)
      modifies host`files, this`trace
      ensures host.files == if Stale(AgeVerdict(old(host.files), now))
                            then old(host.files) - {rootCacheFile} else old(host.files)
      ensures trace == old(trace) + if Stale(AgeVerdict(old(host.files), now)) then [RemoveArchive] else []
    {
      if !opts.ageCheck {
        return;
      }
      if rootCacheFile !in host.files {
        return;
      }
      var statinfo := host.files[rootCacheFile];
      if AgedOut(now, statinfo.ctime, opts.maxAgeDays) {
        RemoveCacheFile();
        return;
      }
      var configs := buildroot.config.configsPaths;
      var i := 0;
      while i < |configs|
        invariant 0 <= i <= |configs|
        invariant host.files == old(host.files) && trace == old(trace)
        invariant ScanConfigs(configs, host.files, statinfo.mtime) == ScanConfigs(configs[i..], host.files, statinfo.mtime)
      {
        var cfg := configs[i];
        if cfg !in host.files {
          return;
        }
        if host.files[cfg].mtime > statinfo.mtime {
          RemoveCacheFile();
          return;
        }
        assert configs[i..][1..] == configs[i + 1..];
        i := i + 1;
      }
    }

    /** The lock file opened once: created (empty, stamped now) if absent, unless a handle is
        already held. */
    function WithLockFile(files: map<string, FileStat>, handleOpen: bool, now: int): (after: map<string, FileStat>) {
      if handleOpen || lockFilePath in files then files else files[lockFilePath := FileStat(now, now)]
    }

    /** What `_unpack_root_cache` does, from the state before the call to the state after. */
    twostate predicate UnpackEffect(e: Effects, r: Outcome)
      reads this, host, buildroot
    {
      var stale := Stale(AgeVerdict(old(host.files), e.now));
      var aged := if stale then old(host.files) - {rootCacheFile} else old(host.files);
      var files := WithLockFile(aged, old(lockHandleOpen), e.now);
      var unpacks := rootCacheFile in files && (!buildroot.wasInitialized || buildroot.config.tmpfsEnable);
      && host.files == files
      && host.dirs == old(host.dirs) + {rootSharedCachePath}
      && lockHandleOpen && lockFileOpens == 1
      && excludeTarCmds == old(excludeTarCmds)
      && r == (if unpacks && !e.tarSucceeds then Failed(TarFailed) else Ok)
      && lockMode == (if !unpacks then old(lockMode) else if e.tarSucceeds then Unlocked else Shared)
      && buildroot.chroot ==
           (if !unpacks then old(buildroot.chroot)
            else old(buildroot.chroot) + e.extracted + (if e.tarSucceeds then (set d | d in excludeDirs) else {}))
      && trace == old(trace) + (if stale then [RemoveArchive] else []) + (if unpacks then UnpackSteps(e.tarSucceeds) else [])
      && buildroot.chrootWasCached == (old(buildroot.chrootWasCached) || (unpacks && e.tarSucceeds))
      && buildroot.stateLog ==
           (if !unpacks then old(buildroot.stateLog)
            else old(buildroot.stateLog) + [Start(UnpackingPhase)] + Waits(e.lockContended)
                 + (if e.tarSucceeds then [Finish(UnpackingPhase)] else []))
    }

    /** Create the cache directory if absent, then open the lock file unless a handle is
        already held. */
    method OpenLockFile(now: int)
      requires Valid()
      modifies host`files, host`dirs, this`lockHandleOpen, this`lockFileOpens
      ensures Valid()
      ensures host.files == WithLockFile(old(host.files), old(lockHandleOpen), now)
      ensures host.dirs == old(host.dirs) + {rootSharedCachePath}
      ensures lockHandleOpen && lockFileOpens == 1
    {
      host.dirs := host.dirs + {rootSharedCachePath};
      if !lockHandleOpen {
        if lockFilePath !in host.files {
          host.files := host.files[lockFilePath := FileStat(now, now)];
        }
        lockHandleOpen := true;
        lockFileOpens := lockFileOpens + 1;
      }
    }

    /** `tar -x` of the archive into the chroot: the entries it writes join the chroot, also
        when it then fails. */
    method TarExtract(e: Effects) returns (ok: bool)
      modifies buildroot`chroot, this`trace
      ensures ok == e.tarSucceeds
      ensures buildroot.chroot == old(buildroot.chroot) + e.extracted
      ensures trace == old(trace) + [Extract]
    {
      buildroot.chroot := buildroot.chroot + e.extracted;
      trace := trace + [Extract];
      ok := e.tarSucceeds;
    }

    /** `tar -c` of the chroot into the archive, stamped now when it succeeds; a failing run
        may already have created or truncated the archive. */
    method TarCreate(e: Effects) returns (ok: bool)
      modifies host`files, this`trace
      ensures ok == e.tarSucceeds
      ensures host.files == if ok || e.partialArchive then old(host.files)[rootCacheFile := FileStat(e.now, e.now)] else old(host.files)
      ensures trace == old(trace) + [Pack]
    {
      if e.tarSucceeds || e.partialArchive {
        host.files := host.files[rootCacheFile := FileStat(e.now, e.now)];
      }
      trace := trace + [Pack];
      ok := e.tarSucceeds;
    }

    /** `os.remove` of the archive. */
    method RemoveCacheFile()
      modifies host`files, this`trace
      ensures host.files == old(host.files) - {rootCacheFile}
      ensures trace == old(trace) + [RemoveArchive]
    {
      host.files := host.files - {rootCacheFile};
      trace := trace + [RemoveArchive];
    }

    /** `mkdirIfAbsent` in the chroot for every exclude directory. */
    method MakeExcludeDirs()
      modifies buildroot`chroot
      ensures buildroot.chroot == old(buildroot.chroot) + (set d | d in excludeDirs)
    {
      var i := 0;
      while i < |excludeDirs|
        invariant 0 <= i <= |excludeDirs|
        invariant buildroot.chroot == old(buildroot.chroot) + (set d | d in excludeDirs[..i])
      {
        buildroot.chroot := buildroot.chroot + {excludeDirs[i]};
        assert excludeDirs[..i + 1] == excludeDirs[..i] + [excludeDirs[i]];
        i := i + 1;
      }
      assert excludeDirs[..i] == excludeDirs;
    }

    /** Under the shared lock, extract the archive into the chroot and recreate the excluded
        directories; then release the lock and mark the chroot as served from the cache. A
        failing `tar -x` propagates at once, with the lock still held. */
    method ExtractRootCache(e: Effects) returns (r: Outcome)
      requires Valid() && lockHandleOpen
      modifies this`lockMode, this`trace, buildroot`chroot, buildroot`chrootWasCached, buildroot`stateLog
      ensures Valid()
      ensures r == if e.tarSucceeds then Ok else Failed(TarFailed)
      ensures trace == old(trace) + UnpackSteps(e.tarSucceeds)
      ensures lockMode == if e.tarSucceeds then Unlocked else Shared
      ensures buildroot.chroot == old(buildroot.chroot) + e.extracted
                                  + (if e.tarSucceeds then (set d | d in excludeDirs) else {})
      ensures buildroot.chrootWasCached == (old(buildroot.chrootWasCached) || e.tarSucceeds)
      ensures buildroot.stateLog == old(buildroot.stateLog) + [Start(UnpackingPhase)] + Waits(e.lockContended)
                                    + (if e.tarSucceeds then [Finish(UnpackingPhase)] else [])
    {
      buildroot.stateLog := buildroot.stateLog + [Start(UnpackingPhase)];
      r := Lock(true, e.lockContended);
      var extracted := TarExtract(e);
      if !extracted {
        return Failed(TarFailed);
      }
      MakeExcludeDirs();
      r := Unlock();
      buildroot.chrootWasCached := true;
      buildroot.stateLog := buildroot.stateLog + [Finish(UnpackingPhase)];
    }

    /** Age the archive, open the lock file once, and unpack the archive into the chroot when
        it still exists and the chroot was not initialized already (or lives on tmpfs). */
    method UnpackRootCache(e: Effects) returns (r: Outcome)
      requires Valid()
      modifies host, this`lockHandleOpen, this`lockFileOpens, this`lockMode, this`trace
      modifies buildroot`chroot, buildroot`chrootWasCached, buildroot`stateLog
      ensures Valid()
      ensures UnpackEffect(e, r)
    {
      CheckCacheAge(e.now);
      OpenLockFile(e.now);
      r := Ok;
      if rootCacheFile in host.files {
        if !buildroot.wasInitialized || buildroot.config.tmpfsEnable {
          r := ExtractRootCache(e);
        }
      }
    }

    /** Append one exclude pattern per active mount point, keeping what is already there. */
    method HandleMounts()
      requires Valid()
      modifies this`excludeTarCmds
      ensures Valid()
      ensures excludeTarCmds == old(excludeTarCmds) + MountPatterns(buildroot.mountPoints)
    {
      var mounts := buildroot.mountPoints;
      var i := 0;
      while i < |mounts|
        modifies this`excludeTarCmds
        invariant 0 <= i <= |mounts|
        invariant excludeTarCmds == old(excludeTarCmds) + MountPatterns(mounts[..i])
      {
        var m := mounts[i];
        if StartsWith(m, "/") {
          excludeTarCmds := excludeTarCmds + [ExcludePrefix + "." + m];
        } else {
          excludeTarCmds := excludeTarCmds + [ExcludePrefix + "./" + m];
        }
        assert MountPatterns(mounts[..i + 1]) == MountPatterns(mounts[..i]) + [MountPattern(m)];
        i := i + 1;
      }
      assert mounts[..i] == mounts;
    }

    /** The host files after packing: on success the archive stamped now and `cache.log`
        when it can be written; on failure no archive at all. */
    function PackedFiles(files: map<string, FileStat>, e: Effects): (after: map<string, FileStat>)
      ensures e.tarSucceeds <==> rootCacheFile in after
    {
      if !e.tarSucceeds then files - {rootCacheFile}
      else if e.logWritable then files[rootCacheFile := FileStat(e.now, e.now)][cacheLogPath := FileStat(e.now, e.now)]
      else files[rootCacheFile := FileStat(e.now, e.now)]
    }

    /** What `_rebuild_root_cache` does, from the state before the call to the state after. */
    twostate predicate RebuildEffect(e: Effects, r: Outcome)
      reads this, host, buildroot
    {
      var locked := old(lockHandleOpen);
      var packs := locked && (!buildroot.wasInitialized || buildroot.config.cacheAlterations);
      var archiveAfterTar := rootCacheFile in old(host.files) || e.partialArchive;
      && lockMode == Unlocked
      && trace == old(trace) + (if locked then RebuildSteps(packs, e.tarSucceeds, archiveAfterTar) else [])
      && r == (if !locked then Failed(NoLockHandle) else if packs && !e.tarSucceeds then Failed(TarFailed) else Ok)
      && excludeTarCmds == old(excludeTarCmds) + (if packs then MountPatterns(buildroot.mountPoints) else [])
      && host.files == (if packs then PackedFiles(old(host.files), e) else old(host.files))
      && buildroot.stateLog ==
           old(buildroot.stateLog)
           + (if locked then Waits(e.lockContended) else [])
           + (if packs then CreatingEvents(e.tarSucceeds) else [])
    }

    /** The packing step of a rebuild, under the exclusive lock: add the mount exclusions,
        run `tar -c`, then write `cache.log` (when possible) on success, or remove the
        archive (when present) on failure. */
    method PackArchive(e: Effects) returns (r: Outcome)
      requires Valid()
      modifies this`excludeTarCmds, this`trace, host`files, buildroot`stateLog
      ensures Valid()
      ensures excludeTarCmds == old(excludeTarCmds) + MountPatterns(buildroot.mountPoints)
      ensures trace == old(trace) + PackSteps(e.tarSucceeds, rootCacheFile in old(host.files) || e.partialArchive)
      ensures r == if e.tarSucceeds then Ok else Failed(TarFailed)
      ensures host.files == PackedFiles(old(host.files), e)
      ensures buildroot.stateLog == old(buildroot.stateLog) + CreatingEvents(e.tarSucceeds)
    {
      HandleMounts();
      buildroot.stateLog := buildroot.stateLog + [Start(CreatingPhase)];
      var packed := TarCreate(e);
      if !packed {
        if rootCacheFile in host.files {
          RemoveCacheFile();
        }
        return Failed(TarFailed);
      }
      if e.logWritable {
        host.files := host.files[cacheLogPath := FileStat(e.now, e.now)];
      }
      buildroot.stateLog := buildroot.stateLog + [Finish(CreatingPhase)];
      r := Ok;
    }

    /** Re-pack the chroot into the archive under the exclusive lock, only for a chroot that
        was not initialized already or when alterations are to be cached. A failing `tar -c`
        removes the archive; the lock is released on every path. */
    method RebuildRootCache(e: Effects) returns (r: Outcome)
      requires Valid()
      modifies this`lockMode, this`trace, this`excludeTarCmds, host`files, buildroot`stateLog
      ensures Valid()
      ensures RebuildEffect(e, r)
    {
      r := Lock(false, e.lockContended);
      if r.Failed? {
        r := Unlock();
        return;
      }
      ghost var packed: seq<Step> := [];
      if !buildroot.wasInitialized || buildroot.config.cacheAlterations {
        r := PackArchive(e);
        packed := PackSteps(e.tarSucceeds, rootCacheFile in old(host.files) || e.partialArchive);
      }
      var released := Unlock();
      AppendRuns(old(trace), [Acquire(Exclusive)], packed, [Release]);
    }

    // -------------------------------------------------------------------------
    // Hooks

    method PreInitHook(e: Effects) returns (r: Outcome)
      requires Valid()
      modifies host, this`lockHandleOpen, this`lockFileOpens, this`lockMode, this`trace
      modifies buildroot`chroot, buildroot`chrootWasCached, buildroot`stateLog
      ensures Valid()
      ensures UnpackEffect(e, r)
    {
      r := UnpackRootCache(e);
    }

    /** Registered for both "preshell" and "prechroot": unpack again only on tmpfs. */
    method PreShellHook(e: Effects) returns (r: Outcome)
      requires Valid()
      modifies host, this`lockHandleOpen, this`lockFileOpens, this`lockMode, this`trace
      modifies buildroot`chroot, buildroot`chrootWasCached, buildroot`stateLog
      ensures Valid()
      ensures buildroot.config.tmpfsEnable ==> UnpackEffect(e, r)
      ensures !buildroot.config.tmpfsEnable ==> r == Ok && unchanged(this, host, buildroot)
    {
      r := Ok;
      if buildroot.config.tmpfsEnable {
        r := UnpackRootCache(e);
      }
    }

    /** Unpack before a package-manager run only on tmpfs, and only into an empty chroot
        unless alterations are cached. */
    method PreYumHook(e: Effects) returns (r: Outcome)
      requires Valid()
      modifies host, this`lockHandleOpen, this`lockFileOpens, this`lockMode, this`trace
      modifies buildroot`chroot, buildroot`chrootWasCached, buildroot`stateLog
      ensures Valid()
      ensures var go := buildroot.config.tmpfsEnable && (old(buildroot.chroot) == {} || buildroot.config.cacheAlterations);
              (go ==> UnpackEffect(e, r)) && (!go ==> r == Ok && unchanged(this, host, buildroot))
    {
      r := Ok;
      if buildroot.config.tmpfsEnable {
        if buildroot.chroot == {} || buildroot.config.cacheAlterations {
          r := UnpackRootCache(e);
        }
      }
    }

    method PostInitHook(e: Effects) returns (r: Outcome)
      requires Valid()
      modifies this`lockMode, this`trace, this`excludeTarCmds, host`files, buildroot`stateLog
      ensures Valid()
      ensures RebuildEffect(e, r)
    {
      r := RebuildRootCache(e);
    }

    /** Registered for "postshell", "postchroot" and "postyum": rebuild only on tmpfs with
        alterations cached. */
    method PostShellHook(e: Effects) returns (r: Outcome)
      requires Valid()
      modifies this`lockMode, this`trace, this`excludeTarCmds, host`files, buildroot`stateLog
      ensures Valid()
      ensures var go := buildroot.config.tmpfsEnable && buildroot.config.cacheAlterations;
              (go ==> RebuildEffect(e, r)) && (!go ==> r == Ok && unchanged(this, host, buildroot))
    {
      r := Ok;
      if buildroot.config.tmpfsEnable && buildroot.config.cacheAlterations {
        r := RebuildRootCache(e);
      }
    }
  }
}
