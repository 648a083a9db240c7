# mock's root-cache and SELinux plugins, modelled in Dafny

This project models two plugins of mock, the RPM build-root manager.

**Root cache (`RootCache`).** It keeps a prepared build root as one tar archive in a
shared cache directory. The archive can be compressed. At the start of a build the plugin
first checks the archive's age:

- it deletes an archive that has aged out;
- it deletes an archive that is older than some build configuration file.

It then unpacks the archive into the chroot under a shared lock. After a build it packs the
chroot again under an exclusive lock. Hooks on the build lifecycle (`preinit`, `preshell`,
`prechroot`, `preyum`, `postinit`, `postshell`, `postchroot`, `postyum`) decide when each
step runs.

**SELinux (`SELinux`).** It hides SELinux from the build environment in two ways:

- it writes a copy of the host's `/proc/filesystems` without the `selinuxfs` line;
- around every package-manager run it swaps the module-level runner `mockbuild.util.do` for a
  wrapper. The wrapper adds `--setopt=tsflags=nocontexts` to package-manager commands.

Layout:

- `text.dfy` (module `Text`): the Python string operations used, namely `startswith`, the
  substring test `sub in s`, and `os.path.join`.
- `plugins.dfy` (module `Plugins`): the lifecycle events, the handlers, and the plugin host's
  list of `add_hook` registrations.
- `root_cache.dfy` (module `RootCachePlugin`): the root-cache plugin.
  - Pure functions give the compression choice, the exclude patterns and the aging verdict.
  - Classes model the objects the source updates in place: `Host` (the host filesystem),
    `Buildroot` (the chroot and its progress log) and the controller `RootCache`.
  - `RootCache` has methods for the lock, for unpacking, for mount handling, for rebuilding
    and for the five hooks.
- `selinux.dfy` (module `SELinuxPlugin`): the SELinux plugin.
  - The line filter and the command rewrites are functions.
  - `SELinux` is a class whose hooks swap the runner held by the `UtilModule` object.
  - `DoYum` appends in place to a `CommandList` object.

Everything the plugins learn from outside arrives as parameters:

- On the root-cache side this is an `Effects` value: the clock, whether the lock is
  contended, whether `tar` succeeds, what it extracts, whether a failing `tar -c` has already
  created or truncated the archive, and whether `cache.log` can be written.
  Whether `/usr/bin/pigz` exists is read from the host file map.
- On the SELinux side the host's `/proc/filesystems` lines and the `--setopt` probe's answer
  are parameters.

The host filesystem is a map from path to `(ctime, mtime)` plus a set of directories. The
chroot is a set of entry names.

The model follows the code as written on these points:

- The config-freshness scan runs only when `age_check` is on and the archive has not aged
  out.
- Age is measured from `st_ctime`; freshness compares `st_mtime`.
- Unpacking has no `try/finally`. A failing `tar -x` therefore propagates with the shared
  lock still held, and without the "unpacking root cache" finish event.
- `exclude_tar_cmds` is never reset. Every rebuild that packs (the chroot was not
  initialized already, or alterations are cached) appends the mount patterns again, so
  repeated packing rebuilds accumulate duplicate patterns.
- The unpack and rebuild guards test `not chroot_was_initialized()` as written, each
  together with its own further condition (tmpfs for unpacking, cached alterations for
  re-packing). The model calls the flag `wasInitialized`.
- The aging step unlinks a stale archive before `_unpack_root_cache` takes any lock. On the
  first run it does so even before the lock file is opened.

A ghost trace on `RootCache` records the lock calls and archive accesses in order (`Step`):

- `Acquire(mode)` and `Release` come from the lock methods.
- `Extract` comes from `tar -x` and `Pack` from `tar -c`.
- `RemoveArchive` comes from either removal of the archive: the aging unlink, or the clean-up
  after a failed `tar -c`.

The predicate `LockedAccesses` states a locking rule: the archive is read under the shared
lock, and it is written or removed under the exclusive lock.

- `tar -x`, `tar -c` and the failed-pack removal keep this rule (`UnpackStepsLocked`,
  `RebuildStepsLocked`).
- The aging unlink does not keep it. It runs with no lock held, or with only a shared lock
  left over from a failed unpack. `AgingRemovalUnlocked` shows that an unpack trace starting
  with that removal keeps the rule only if the exclusive lock was already held.

## Model

| member | source | states |
|---|---|---|
| Text.Join | py/mockbuild/plugins/root_cache.py:32 | `os.path.join(dir, name)` always ends with `name` |
| Text.JoinShape | py/mockbuild/plugins/root_cache.py:32 | an absolute `name` is the whole result; otherwise the result starts with `dir`, adds at most one `/`, and adds exactly one when `dir` is non-empty and does not already end in `/` |
| Text.ContainsIffOccurs | py/mockbuild/plugins/selinux.py:64 | the substring test `sub in s` holds exactly when `sub` occurs at some index of `s` |
| Plugins.PluginHost.AddHook | py/mockbuild/plugins/root_cache.py:43 | each `add_hook` call appends one (event, handler) registration and keeps the earlier ones |
| RootCachePlugin.ChooseCompression | py/mockbuild/plugins/root_cache.py:31-42 | a requested pigz without `/usr/bin/pigz` becomes gzip, pigz is chosen only when installed, and any other request is kept; the tar arguments are empty exactly when the program is empty and otherwise are `--use-compress-program <program>`; the archive is `dir/cache.tar`, with the extension added only for a non-empty program |
| RootCachePlugin.InitialExcludes | py/mockbuild/plugins/root_cache.py:51-52 | one pattern per exclude directory, each starting with `--exclude=` |
| RootCachePlugin.InitialExcludesRoundTrip | py/mockbuild/plugins/root_cache.py:52 | stripping `--exclude=` from the initial patterns gives back the exclude directories, in order |
| RootCachePlugin.MountPatternRooted | py/mockbuild/plugins/root_cache.py:141-144 | both branches give `--exclude=./` followed by the mount point with its leading `/` removed |
| RootCachePlugin.AbsoluteAndRelativeMountsAgree | py/mockbuild/plugins/root_cache.py:141-144 | a mount point written absolute and the same path written relative give the same pattern |
| RootCachePlugin.AgedOutInSeconds | py/mockbuild/plugins/root_cache.py:85-86 | the age test in days, `(now - ctime) / 86400 > max_age_days`, is the same as `now - ctime > max_age_days * 86400` in seconds |
| RootCachePlugin.ScanConfigs | py/mockbuild/plugins/root_cache.py:90-95 | the config scan ends Fresh, or blames one configured config: one that is present and newer than the archive (stale), or one that is absent (unreadable, the `OSError` ends the scan) |
| RootCachePlugin.StaleByConfigIsFirstNewer | py/mockbuild/plugins/root_cache.py:91-95 | the scan blames config `c` if and only if `c` is the first config newer than the archive and every config before it could be read |
| RootCachePlugin.FreshIffAllOlder | py/mockbuild/plugins/root_cache.py:91-95 | the scan passes if and only if every config exists and none is newer than the archive |
| RootCachePlugin.CheckAgeDeletesIff | py/mockbuild/plugins/root_cache.py:81-99 | the archive is judged stale if and only if `age_check` is on, the archive exists, and it has aged out or (when it has not) some config is the first newer one; when `age_check` is off or the archive is missing nothing is stale |
| RootCachePlugin.HeldAfter | py/mockbuild/plugins/root_cache.py:58-71 | after a run of steps ending in a release nothing is held, and after one ending in an acquire that lock is held |
| RootCachePlugin.LockedAccessesAppend | py/mockbuild/plugins/root_cache.py:58-71 | the locking rule holds for two runs of steps in sequence exactly when it holds for the first, and for the second starting from the lock the first leaves held |
| RootCachePlugin.UnpackSteps | py/mockbuild/plugins/root_cache.py:110-123 | an unpack takes the shared lock first and then extracts |
| RootCachePlugin.UnpackStepsRelease | py/mockbuild/plugins/root_cache.py:117-123 | the unpack releases the lock only when `tar -x` succeeded; with no `try/finally`, a failure leaves it held |
| RootCachePlugin.UnpackStepsLocked | py/mockbuild/plugins/root_cache.py:111-123 | `tar -x` reads the archive under the shared lock, whatever was held before; afterwards nothing is held if `tar` succeeded, and the shared lock otherwise |
| RootCachePlugin.RebuildSteps | py/mockbuild/plugins/root_cache.py:152-191 | a rebuild starts by taking the exclusive lock and ends by releasing it; in between come the packing steps, only when it packs |
| RootCachePlugin.PackSteps | py/mockbuild/plugins/root_cache.py:172-181 | packing starts with `tar -c`; the archive removal follows only when `tar` failed and an archive exists after it |
| RootCachePlugin.PackStepsLocked | py/mockbuild/plugins/root_cache.py:172-181 | under the exclusive lock, `tar -c` and the removal keep the locking rule, and the exclusive lock is still held afterwards |
| RootCachePlugin.RebuildStepsContent | py/mockbuild/plugins/root_cache.py:167-181 | `tar -c` runs exactly when the rebuild packs; the archive is removed exactly when packing failed and an archive exists after `tar` (an old one, or the partial one `tar -cf` left) |
| RootCachePlugin.RebuildStepsLocked | py/mockbuild/plugins/root_cache.py:152-191 | packing and removal happen under the exclusive lock, whatever was held before; afterwards nothing is held |
| RootCachePlugin.FailedUnpackThenRebuildLocked | py/mockbuild/plugins/root_cache.py:111-153 | a failed unpack that leaves the shared lock held, followed by a rebuild, still packs only under the exclusive lock |
| RootCachePlugin.AgingRemovalUnlocked | py/mockbuild/plugins/root_cache.py:86-111 | a run of steps that starts with the aging unlink keeps the locking rule only if the exclusive lock was held at its start. The source unlinks at lines 88 and 94, and takes its first lock only at line 111 |
| RootCachePlugin.RegisterHooks | py/mockbuild/plugins/root_cache.py:43-50 | the eight registrations are appended in source order: preshell and prechroot share one handler, and postshell, postchroot and postyum share another |
| RootCachePlugin.RootCache.constructor | py/mockbuild/plugins/root_cache.py:26-52 | the compression fields and archive path are those of `ChooseCompression` (pigz presence read from the host), the exclude list is the initial one, no lock handle is open, nothing is locked, the trace is empty, and the hooks are registered |
| RootCachePlugin.RootCache.Lock | py/mockbuild/plugins/root_cache.py:58-67 | shared when asked and exclusive otherwise, recorded as an acquire step; the "Waiting for rootcache lock" start/finish pair is logged only when the non-blocking attempt is refused; with no open handle it fails and nothing changes |
| RootCachePlugin.RootCache.Unlock | py/mockbuild/plugins/root_cache.py:70-71 | afterwards nothing is locked, and a release step is recorded; with no open handle it fails |
| RootCachePlugin.RootCache.CheckCacheAge | py/mockbuild/plugins/root_cache.py:81-99 | the for/break loop unlinks the archive exactly when the aging verdict is stale and otherwise leaves the files alone. The unlink is recorded as a removal step, with no lock taken |
| RootCachePlugin.RootCache.OpenLockFile | py/mockbuild/plugins/root_cache.py:101-104 | the cache directory exists afterwards; the lock file is opened (created if absent) only when no handle is held, so at most once over the object's life |
| RootCachePlugin.RootCache.TarExtract | py/mockbuild/plugins/root_cache.py:117-120 | the extracted entries join the chroot, also when `tar` then fails, and an extract step is recorded |
| RootCachePlugin.RootCache.MakeExcludeDirs | py/mockbuild/plugins/root_cache.py:121-122 | every exclude directory exists in the chroot afterwards, and nothing else is added |
| RootCachePlugin.RootCache.TarCreate | py/mockbuild/plugins/root_cache.py:172-177 | on success the archive exists, stamped now. A failing run leaves a fresh partial archive when it had already created or truncated it, and otherwise leaves the files alone. A pack step is recorded either way |
| RootCachePlugin.RootCache.RemoveCacheFile | py/mockbuild/plugins/root_cache.py:179-180 | the archive is gone, and a removal step is recorded |
| RootCachePlugin.RootCache.ExtractRootCache | py/mockbuild/plugins/root_cache.py:110-125 | the steps are `UnpackSteps`: the shared lock is taken, then `tar -x` adds the extracted entries to the chroot. On success every exclude directory exists in the chroot, the lock is released, `chrootWasCached` is set and the phase is finished. On `tar` failure the error propagates with the lock held |
| RootCachePlugin.RootCache.UnpackRootCache | py/mockbuild/plugins/root_cache.py:79-125 | `UnpackEffect`: aging, then the directory and the lock file, then unpacking if and only if the archive still exists and the chroot was not initialized (or lives on tmpfs). The trace first gets a removal step when the aging verdict is stale, recorded with no lock taken. It then grows by `UnpackSteps` when the plugin unpacks, so `tar -x` runs under the shared lock. The exclude list is untouched |
| RootCachePlugin.RootCache.HandleMounts | py/mockbuild/plugins/root_cache.py:139-144 | exactly one pattern per mount point is appended, in order, after the unchanged existing patterns |
| RootCachePlugin.RootCache.PackArchive | py/mockbuild/plugins/root_cache.py:169-189 | mount exclusions are appended. `tar -c` runs, recorded as a pack step. On success the archive is stamped now, `cache.log` is written when possible and the phase is finished. On failure, whatever archive exists after `tar` is removed, recorded as a removal step, and the error propagates. That archive is an old one or the partial one `tar -cf` left. The resulting files are `PackedFiles`. |
| RootCachePlugin.RootCache.PackedFiles | py/mockbuild/plugins/root_cache.py:172-188 | after packing, the archive exists if and only if `tar -c` succeeded, because a failure removes whatever `tar` left behind |
| RootCachePlugin.RootCache.RebuildRootCache | py/mockbuild/plugins/root_cache.py:151-191 | `RebuildEffect`: with an open handle the trace grows by `RebuildSteps`, so the exclusive lock is taken first, `tar -c` and any removal happen under it, and it is released last. The lock always ends released. The archive is written only when the chroot was not initialized or alterations are cached. A `tar` failure removes whatever archive exists after `tar` and propagates. `cache.log` is written only when possible. A missing handle fails before anything changes |
| RootCachePlugin.RootCache.PreInitHook | py/mockbuild/plugins/root_cache.py:74-76 | always unpacks (`UnpackEffect`) |
| RootCachePlugin.RootCache.PreShellHook | py/mockbuild/plugins/root_cache.py:128-130 | unpacks only on tmpfs; otherwise changes nothing |
| RootCachePlugin.RootCache.PreYumHook | py/mockbuild/plugins/root_cache.py:133-136 | unpacks only on tmpfs and only into an empty chroot unless alterations are cached; otherwise changes nothing |
| RootCachePlugin.RootCache.PostInitHook | py/mockbuild/plugins/root_cache.py:147-148 | always rebuilds (`RebuildEffect`) |
| RootCachePlugin.RootCache.PostShellHook | py/mockbuild/plugins/root_cache.py:194-196 | rebuilds only on tmpfs with alterations cached; otherwise changes nothing |
| SELinuxPlugin.FauxFilesystems | py/mockbuild/plugins/selinux.py:63-65 | the faux file is never longer than the host file; a line is in it if and only if it is a host line that does not mention `selinuxfs` |
| SELinuxPlugin.FauxFilesystemsAppend | py/mockbuild/plugins/selinux.py:63-65 | filtering commutes with concatenation, so the kept lines keep their host order |
| SELinuxPlugin.FauxFilesystemsUnchangedIff | py/mockbuild/plugins/selinux.py:63-65 | the copy equals the host file if and only if no host line mentions `selinuxfs` |
| SELinuxPlugin.FauxFilesystemsIdempotent | py/mockbuild/plugins/selinux.py:63-65 | filtering the faux file again changes nothing |
| SELinuxPlugin.RewriteArgv | py/mockbuild/plugins/selinux.py:96-98 | an empty list raises; otherwise the old words stay a prefix; one word is added if and only if the first word starts with the package manager's command, and that word is the nocontexts option |
| SELinuxPlugin.RewriteText | py/mockbuild/plugins/selinux.py:99-101 | a matching command line gets exactly `" --setopt=tsflags=nocontexts"` appended; any other string is unchanged |
| SELinuxPlugin.RewriteTextAgain | py/mockbuild/plugins/selinux.py:99-101 | a rewritten line still matches, so rewriting twice appends the option twice |
| SELinuxPlugin.SELinux.constructor | py/mockbuild/plugins/selinux.py:38-55 | the faux file holds the filtered host lines; the pre/post yum hooks are registered if and only if `--setopt` is supported; no runner is saved yet |
| SELinuxPlugin.SELinux.CreateFauxFilesystems | py/mockbuild/plugins/selinux.py:58-72 | the line-by-line copy loop writes exactly `FauxFilesystems` of the host lines |
| SELinuxPlugin.SELinux.PreYumHook | py/mockbuild/plugins/selinux.py:84-86 | the current runner is saved and the wrapper installed |
| SELinuxPlugin.SELinux.PostYumHook | py/mockbuild/plugins/selinux.py:89-90 | the saved runner is put back; before any pre-yum hook there is nothing saved and the call fails |
| SELinuxPlugin.SELinux.DoYum | py/mockbuild/plugins/selinux.py:93-103 | a list command is rewritten in place, or fails when empty; a str command is replaced by its rewrite; any other command passes through; the call goes to the saved runner with the same extra arguments |
| SELinuxPlugin.SELinux.AroundPackageManager | py/mockbuild/plugins/selinux.py:84-103 | pre-yum hook, wrapped call, post-yum hook: the runner ends as it was, and the command reached that original runner rewritten |

## Left out

- Running `tar`, `sync` and the compressor is not modelled (root_cache.py:117-120,168,172-177). `tar -x` and `tar -c` are abstract steps whose success and extracted entries come from `Effects`. Archive bytes and the compression format are not modelled. `sync` is assumed to succeed.
- Cross-process `fcntl.lockf` semantics and real blocking are not modelled, because they are concurrency. Only this process's lock mode and the "Waiting for rootcache lock" bookkeeping are modelled.
- NFS detection and the `chdir` to a non-NFS directory are left out (root_cache.py:115-116). They are OS calls with no effect on the modelled state.
- `mkdirIfAbsent` on the host and in the chroot only adds a name to a set. Permission errors are not modelled.
- The `dir % opts` template expansion is taken as already done (`Options.dir`), because string formatting is outside the model.
- RootCachePlugin.AgedOut: `time.time()` is a float, but here times are whole seconds. The day count is compared in exact real arithmetic, not floating point.
- `_nuke_rpm_db` and the truncation of `/var/log/lastlog` and `/var/log/faillog` are left out (root_cache.py:155-164). They are best-effort chroot file work whose failures are swallowed.
- The content of `cache.log` is not modelled; only whether the file gets written is.
- Unlink failures are not modelled, and neither are `os.stat` errors other than a missing file.
- RootCachePlugin.RootCache.PreYumHook: "the chroot is empty" is the chroot entry set being empty. An `os.listdir` failure on a missing chroot is not modelled.
- Logging is left out: the info lines, the pigz-fallback warning, and the SELinux "does not support --setopt" warning. So are the trace decorators.
- The plugins' `init` entry points are left out. This includes the `selinuxEnabled()` test that decides whether the SELinux plugin is created at all.
- In the SELinux plugin, `tempfile.mkstemp`, `chmod`, the `atexit` cleanup `_selinuxAtExit` and the bind mount of the faux file into the chroot are left out (selinux.py:45-49,59-61,69-81). SELinuxPlugin.SELinux.filesystems holds the faux file's lines, not the temporary file's path.
- The `yum-cli` import probe `_selinuxYumIsSetoptSupported` is an input boolean of the constructor (selinux.py:106-113).
- SELinuxPlugin.SELinux.AroundPackageManager assumes that the plugin host runs the post-yum hook even when the wrapped call raises (the empty-list `IndexError`), so the runner is restored on that path too. The host's calling code is not part of this model.
- SELinuxPlugin.SELinux.DoYum returns the call it delegates (runner, command, arguments), not the runner's result, because the real runner is foreign code.
- `type(command) is list` / `is str` is modelled as a three-way choice (`Command`). Subclasses of list or str fall under `OtherCommand`, as in the source.
