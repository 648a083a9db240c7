/** The SELinux plugin: hides SELinux from the build environment. It builds a copy of the
    host's /proc/filesystems without the selinuxfs line, and, around every package-manager
    run, swaps the module-level command runner `mockbuild.util.do` for a wrapper that adds
    `--setopt=tsflags=nocontexts` to package-manager commands. */
module SELinuxPlugin {
  import opened Text
  import opened Plugins

  const NoContextsOption := "--setopt=tsflags=nocontexts"
  const SelinuxFs := "selinuxfs"

  datatype Option<T> = None | Some(value: T)

  /** Exceptions the wrapper and the hooks can raise: an IndexError on `command[0]` of an
      empty list, and an AttributeError when no runner was saved yet. */
  datatype Error = EmptyCommand | NoSavedRunner
  datatype Result<T> = Ok(value: T) | Err(error: Error)
  datatype Outcome = Done | Failed(error: Error)

  /** A Python list holding a command's words; the wrapper appends to it in place. */
  class CommandList {
    var items: seq<string>

    constructor (items: seq<string>)
      ensures this.items == items
    {
      this.items := items;
    }
  }

  /** The `command` argument of `util.do`: a list, a str, or any other object. */
  datatype Command = ListCommand(argv: CommandList) | StrCommand(text: string) | OtherCommand

  /** The remaining positional and keyword arguments, passed through untouched. */
  datatype Extra = Extra(args: seq<string>, kwargs: map<string, string>)

  /** The function `mockbuild.util.do` is bound to: the real one, or a plugin's wrapper. */
  datatype Runner = UtilDo | DoYumOf(plugin: SELinux)

  /** The call a runner makes: which runner, with which command and arguments. */
  datatype Call = Call(runner: Runner, command: Command, extra: Extra)

  /** The `mockbuild.util` module, as far as its rebindable `do` goes. */
  class UtilModule {
    var doRunner: Runner

    constructor ()
      ensures doRunner == UtilDo
    {
      doRunner := UtilDo;
    }
  }

  // ---------------------------------------------------------------------------
  // The faux /proc/filesystems

  /** The line filter: a host line is copied unless it mentions selinuxfs. */
  predicate KeepLine(line: string) {
    !Contains(line, SelinuxFs)
  }

  /** The faux file's lines: the kept host lines, in their original order. */
  function FauxFilesystems(lines: seq<string>): (kept: seq<string>)
    ensures |kept| <= |lines|
    ensures forall l :: l in kept ==> l in lines && KeepLine(l)
    ensures forall l :: l in lines && KeepLine(l) ==> l in kept
    decreases |lines|
  {
    if lines == [] then []
    else (if KeepLine(lines[0]) then [lines[0]] else []) + FauxFilesystems(lines[1..])
  }

  /** Filtering respects concatenation, so kept lines stay in host order. */
  lemma {:induction false} FauxFilesystemsAppend(a: seq<string>, b: seq<string>)
    ensures FauxFilesystems(a + b) == FauxFilesystems(a) + FauxFilesystems(b)
    decreases |a|
  {
    if a == [] {
      assert a + b == b;
    } else {
      assert (a + b)[0] == a[0] && (a + b)[1..] == a[1..] + b;
      FauxFilesystemsAppend(a[1..], b);
    }
  }

  /** A file with no selinuxfs line is copied unchanged, and only such a file. */
  lemma {:induction false} FauxFilesystemsUnchangedIff(lines: seq<string>)
    ensures FauxFilesystems(lines) == lines <==> forall i :: 0 <= i < |lines| ==> KeepLine(lines[i])
    decreases |lines|
  {
    if lines != [] {
      FauxFilesystemsUnchangedIff(lines[1..]);
      if !KeepLine(lines[0]) {
        assert |FauxFilesystems(lines)| < |lines|;
      } else {
        assert forall i :: 1 <= i < |lines| ==> lines[i] == lines[1..][i - 1];
      }
    }
  }

  /** Filtering the faux file again changes nothing. */
  lemma FauxFilesystemsIdempotent(lines: seq<string>)
    ensures FauxFilesystems(FauxFilesystems(lines)) == FauxFilesystems(lines)
  {
    var kept := FauxFilesystems(lines);
    forall i | 0 <= i < |kept| ensures KeepLine(kept[i]) {
      assert kept[i] in kept;
    }
    FauxFilesystemsUnchangedIff(kept);
  }

  // ---------------------------------------------------------------------------
  // The command rewrite

  /** The list branch: a non-empty list whose first word starts with the package manager's
      command gets the option as a new last word; `command[0]` of an empty list raises. */
  function RewriteArgv(argv: seq<string>, pkgCommand: string): (r: Result<seq<string>>)
    ensures r.Err? <==> argv == []
    ensures r.Err? ==> r.error == EmptyCommand
    ensures r.Ok? ==> |argv| <= |r.value| <= |argv| + 1 && r.value[..|argv|] == argv
    ensures r.Ok? ==> (|r.value| == |argv| + 1 <==> StartsWith(argv[0], pkgCommand))
    ensures r.Ok? && |r.value| == |argv| + 1 ==> r.value[|argv|] == NoContextsOption
  {
    if argv == [] then Err(EmptyCommand)
    else if StartsWith(argv[0], pkgCommand) then Ok(argv + [NoContextsOption])
    else Ok(argv)
  }

  /** The str branch: a command line starting with the package manager's command gets
      " --setopt=tsflags=nocontexts" appended; any other string is left alone. */
  function RewriteText(text: string, pkgCommand: string): (r: string)
    ensures StartsWith(r, text)
    ensures StartsWith(text, pkgCommand) ==> r[|text|..] == " " + NoContextsOption
    ensures !StartsWith(text, pkgCommand) ==> r == text
  {
    if StartsWith(text, pkgCommand) then text + " " + NoContextsOption else text
  }

  /** A rewritten command line still starts with the package manager's command, so a second
      rewrite appends the option a second time. */
  lemma RewriteTextAgain(text: string, pkgCommand: string)
    requires StartsWith(text, pkgCommand)
    ensures var once := RewriteText(text, pkgCommand);
            RewriteText(once, pkgCommand) == text + " " + NoContextsOption + " " + NoContextsOption
  {
    var once := RewriteText(text, pkgCommand);
    assert once[..|pkgCommand|] == text[..|pkgCommand|];
  }

  /** The hooks registered when the package manager supports `--setopt`. */
  const SelinuxHooks: seq<Registration> := [Registration(PreYum, SelinuxPreYum), Registration(PostYum, SelinuxPostYum)]

  // ---------------------------------------------------------------------------
  // The plugin object

  class SELinux {
    const util: UtilModule
    const pkgCommand: string              // buildroot.pkg_manager.command
    var filesystems: seq<string>          // the faux /proc/filesystems
    var originalUtilDo: Option<Runner>    // absent until the pre-yum hook runs

    /** Build the faux filesystems file and register the yum hooks only when `--setopt` is
        supported (otherwise the plugin only warns). */
    constructor (plugins: PluginHost, util: UtilModule, pkgCommand: string,
                 hostFilesystems: seq<string>, setoptSupported: bool)
      modifies plugins
      ensures this.util == util && this.pkgCommand == pkgCommand
      ensures filesystems == FauxFilesystems(hostFilesystems)
      ensures originalUtilDo == None
      ensures plugins.hooks == old(plugins.hooks) + (if setoptSupported then SelinuxHooks else [])
    {
      this.util := util;
      this.pkgCommand := pkgCommand;
      filesystems := [];
      originalUtilDo := None;
      new;
      filesystems := CreateFauxFilesystems(hostFilesystems);
      if setoptSupported {
        plugins.AddHook(PreYum, SelinuxPreYum);
        plugins.AddHook(PostYum, SelinuxPostYum);
      }
    }

    /** Copy the host's /proc/filesystems line by line, skipping selinuxfs lines. */
    method CreateFauxFilesystems(hostLines: seq<string>) returns (written: seq<string>)
      ensures written == FauxFilesystems(hostLines)
    {
      written := [];
      var i := 0;
      while i < |hostLines|
        invariant 0 <= i <= |hostLines|
        invariant written == FauxFilesystems(hostLines[..i])
      {
        var line := hostLines[i];
        assert hostLines[..i + 1] == hostLines[..i] + [line];
        FauxFilesystemsAppend(hostLines[..i], [line]);
        if !Contains(line, SelinuxFs) {
          written := written + [line];
        }
        i := i + 1;
      }
      assert hostLines[..i] == hostLines;
    }

    /** Save the current runner and install this plugin's wrapper. */
    method PreYumHook()
      modifies this`originalUtilDo, util`doRunner
      ensures originalUtilDo == Some(old(util.doRunner))
      ensures util.doRunner == DoYumOf(this)
    {
      originalUtilDo := Some(util.doRunner);
      util.doRunner := DoYumOf(this);
    }

    /** Put the saved runner back. */
    method PostYumHook() returns (r: Outcome)
      modifies util`doRunner
      ensures originalUtilDo.Some? ==> r == Done && util.doRunner == originalUtilDo.value
      ensures originalUtilDo.None? ==> r == Failed(NoSavedRunner) && util.doRunner == old(util.doRunner)
    {
      if originalUtilDo.None? {
        return Failed(NoSavedRunner);
      }
      util.doRunner := originalUtilDo.value;
      r := Done;
    }

    /** The wrapper: rewrite a package-manager command (a list in place, a str by building a
        new one), then delegate to the saved runner with the same extra arguments. */
    method DoYum(command: Command, extra: Extra) returns (r: Result<Call>)
      modifies if command.ListCommand? then {command.argv} else {}
      ensures command.ListCommand? && old(command.argv.items) == [] ==>
                r == Err(EmptyCommand) && command.argv.items == []
      ensures command.ListCommand? && old(command.argv.items) != [] ==>
                command.argv.items == RewriteArgv(old(command.argv.items), pkgCommand).value
      ensures var delegated := if command.StrCommand? then StrCommand(RewriteText(command.text, pkgCommand)) else command;
              !(command.ListCommand? && old(command.argv.items) == []) ==>
                r == if originalUtilDo.Some? then Ok(Call(originalUtilDo.value, delegated, extra)) else Err(NoSavedRunner)
    {
      var cmd := command;
      match command {
        case ListCommand(argv) =>
          if argv.items == [] {
            return Err(EmptyCommand);
          }
          if StartsWith(argv.items[0], pkgCommand) {
            argv.items := argv.items + [NoContextsOption];
          }
        case StrCommand(text) =>
          if StartsWith(text, pkgCommand) {
            cmd := StrCommand(text + " " + NoContextsOption);
          }
        case OtherCommand =>
      }
      if originalUtilDo.None? {
        return Err(NoSavedRunner);
      }
      r := Ok(Call(originalUtilDo.value, cmd, extra));
    }

    /** One package-manager run as the plugin host drives it: the pre-yum hook, the call to
        `util.do` (now the wrapper), the post-yum hook. The runner is back to what it was, and
        the command reached that runner rewritten. */
    method AroundPackageManager(command: Command, extra: Extra) returns (r: Result<Call>)
      modifies this`originalUtilDo, util`doRunner
      modifies if command.ListCommand? then {command.argv} else {}
      ensures util.doRunner == old(util.doRunner)
      ensures originalUtilDo == Some(old(util.doRunner))
      ensures command.ListCommand? && old(command.argv.items) == [] ==> r == Err(EmptyCommand)
      ensures command.ListCommand? && old(command.argv.items) != [] ==>
                command.argv.items == RewriteArgv(old(command.argv.items), pkgCommand).value
                && r == Ok(Call(old(util.doRunner), command, extra))
      ensures command.StrCommand? ==>
                r == Ok(Call(old(util.doRunner), StrCommand(RewriteText(command.text, pkgCommand)), extra))
      ensures command.OtherCommand? ==> r == Ok(Call(old(util.doRunner), command, extra))
    {
      PreYumHook();
      r := DoYum(command, extra);
      var restored := PostYumHook();
    }
  }
}
