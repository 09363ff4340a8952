/**
 * The git-backed state repository (pkg/git/service.go), as a command-log
 * state machine.
 *
 * A Repo holds its settings and the log of every git command it has issued.
 * Whether a command succeeds is decided by the environment: the Host's `run`
 * oracle sees the commands issued so far and the new one, and answers with
 * nothing (success) or the failure text. File processing, the "no changes"
 * classification, the ssh-key stat, directory creation and directory listing
 * are oracles too.
 */
module GitRepo {
  import opened Wrappers
  import opened Core

  const RemoteName := "origin"

  /** The author argument of every commit: commit name "riser-server", commit email "riser-server@tempuri.org". */
  const Author := "riser-server <riser-server@tempuri.org>"

  lemma RemoteBranchText(branch: string)
    ensures RemoteName + "/" + branch == "origin/" + branch
  {
    assert RemoteName + "/" == "origin/";
  }

  const HttpsWithSshKeyMessage :=
    "Cannot use both an https git url and specify an SSH key. Either use an SSH url or remove the key"

  datatype RepoSettings = RepoSettings(url: string, sshKeyPath: string, branch: string, localGitDir: string)

  /** An exec.Cmd as buildGitCmd prepares it: program, argv and working directory. */
  datatype GitCmd = GitCmd(path: string, args: seq<string>, dir: string)

  datatype RepoError =
    | HttpsUrlWithSshKey
    | SshKeyUnreadable(cause: string)
    | GitDirNotEnsured(cause: string)
    | GitDirUnreadable(cause: string)
    | GitCmdFailed(args: seq<string>, cause: string)
    | ProcessFilesFailed(cause: string)
    | NoChanges
  {
    /** The text of err.Error(); errors.Wrap renders as "<context>: <cause>". */
    function Message(): string
    {
      match this
      case HttpsUrlWithSshKey => HttpsWithSshKeyMessage
      case SshKeyUnreadable(cause) => "Error reading ssh key: " + cause
      case GitDirNotEnsured(cause) => "error ensuring git dir: " + cause
      case GitDirUnreadable(cause) => "error reading git dir: " + cause
      case GitCmdFailed(args, cause) => "git [" + Spaced(args) + "]: " + cause
      case ProcessFilesFailed(cause) => cause
      case NoChanges => "no changes to commit"
    }
  }

  /** The words of a string slice as fmt's %s prints them between the brackets. */
  function Spaced(words: seq<string>): string
    decreases |words|
  {
    if words == [] then ""
    else if |words| == 1 then words[0]
    else words[0] + " " + Spaced(words[1..])
  }

  /** The environment the repository runs in. */
  datatype Host = Host(
    run: (seq<GitCmd>, GitCmd) -> Option<string>,
    processFiles: (seq<GitCmd>, string, seq<ResourceFile>) -> Option<string>,
    isNoChangesErr: RepoError -> bool)

  // ---------------------------------------------------------------------
  // Commands

  /** buildGitCmd: run "git" with the arguments in the local git directory. */
  function BuildGitCmd(settings: RepoSettings, args: seq<string>): (cmd: GitCmd)
    ensures |cmd.args| == |args| + 1 && cmd.args[0] == "git" && cmd.args[1..] == args
    ensures cmd.dir == settings.localGitDir
  {
    GitCmd("git", ["git"] + args, settings.localGitDir)
  }

  function CloneArgs(settings: RepoSettings): seq<string>
  {
    ["clone", "--branch", settings.branch, "--single-branch", "--depth=1", settings.url, settings.localGitDir]
  }

  function FetchArgs(settings: RepoSettings): seq<string>
  {
    ["fetch", "-f", RemoteName, settings.branch]
  }

  const CleanArgs: seq<string> := ["clean", "-xdf"]

  function ResetArgs(settings: RepoSettings): seq<string>
  {
    ["reset", "--hard", RemoteName + "/" + settings.branch]
  }

  const AddAllArgs: seq<string> := ["add", "--all"]

  function CommitArgs(message: string): seq<string>
  {
    ["commit", "-m", message, "--author", Author]
  }

  const PushArgs: seq<string> := ["push"]

  /** execGitCmd: the outcome of one command, its failure wrapped with the arguments. */
  function ExecOutcome(host: Host, settings: RepoSettings, history: seq<GitCmd>, args: seq<string>): (err: Option<RepoError>)
    ensures err.None? <==> host.run(history, BuildGitCmd(settings, args)).None?
    ensures err.Some? ==> err.value == GitCmdFailed(args, host.run(history, BuildGitCmd(settings, args)).value)
  {
    match host.run(history, BuildGitCmd(settings, args))
    case None => None
    case Some(cause) => Some(GitCmdFailed(args, cause))
  }

  /** What a sequence of steps did: the commands it issued and its error, if any. */
  datatype Trace = Trace(issued: seq<GitCmd>, error: Option<RepoError>)

  /** Run commands one after the other, stopping at the first that fails. */
  function RunSteps(host: Host, settings: RepoSettings, history: seq<GitCmd>, steps: seq<seq<string>>): (t: Trace)
    ensures |t.issued| <= |steps|
    ensures forall i :: 0 <= i < |t.issued| ==> t.issued[i] == BuildGitCmd(settings, steps[i])
    ensures t.error.None? ==> |t.issued| == |steps|
    ensures t.error.Some? ==>
      && LastFailed(host, history, t.issued)
      && t.error.value == GitCmdFailed(steps[|t.issued| - 1], LastCause(host, history, t.issued))
    decreases |steps|
  {
    if steps == [] then Trace([], None)
    else
      var cmd := BuildGitCmd(settings, steps[0]);
      match ExecOutcome(host, settings, history, steps[0])
      case Some(err) =>
        assert [cmd][..0] == [] && history + [] == history;
        Trace([cmd], Some(err))
      case None =>
        var rest := RunSteps(host, settings, history + [cmd], steps[1..]);
        LastFailedCons(host, history, cmd, rest.issued);
        Trace([cmd] + rest.issued, rest.error)
  }

  /** Running a second list after a first that succeeded; a first that failed ends the run. */
  function Then(first: Trace, host: Host, settings: RepoSettings, history: seq<GitCmd>, steps: seq<seq<string>>): Trace
  {
    if first.error.Some? then first
    else
      var second := RunSteps(host, settings, history + first.issued, steps);
      Trace(first.issued + second.issued, second.error)
  }

  lemma ConcatAssoc<T>(a: seq<T>, b: seq<T>, c: seq<T>)
    ensures a + b + c == a + (b + c)
  {
  }

  lemma ConsPrefix<T>(x: T, rest: seq<T>, i: nat)
    requires 1 <= i <= |rest| + 1
    ensures ([x] + rest)[..i] == [x] + rest[..i - 1]
  {
  }

  /** Running a + b is running a, then b if a succeeded. */
  lemma {:induction false} RunStepsAppend(host: Host, settings: RepoSettings, history: seq<GitCmd>, a: seq<seq<string>>, b: seq<seq<string>>)
    ensures RunSteps(host, settings, history, a + b)
         == Then(RunSteps(host, settings, history, a), host, settings, history, b)
    decreases |a|
  {
    if a == [] {
      assert a + b == b;
      assert history + [] == history;
      assert [] + RunSteps(host, settings, history, b).issued == RunSteps(host, settings, history, b).issued;
    } else {
      var cmd := BuildGitCmd(settings, a[0]);
      assert (a + b)[0] == a[0];
      assert (a + b)[1..] == a[1..] + b;
      if ExecOutcome(host, settings, history, a[0]).None? {
        RunStepsAppend(host, settings, history + [cmd], a[1..], b);
        var rest := RunSteps(host, settings, history + [cmd], a[1..]);
        ConcatAssoc(history, [cmd], rest.issued);
        if rest.error.None? {
          var second := RunSteps(host, settings, history + [cmd] + rest.issued, b);
          ConcatAssoc([cmd], rest.issued, second.issued);
        }
      }
    }
  }

  /** Every command a run issued before its last one succeeded. */
  lemma {:induction false} EarlierStepsSucceeded(host: Host, settings: RepoSettings, history: seq<GitCmd>, steps: seq<seq<string>>)
    ensures forall i :: 0 <= i < |RunSteps(host, settings, history, steps).issued| - 1 ==>
      host.run(history + RunSteps(host, settings, history, steps).issued[..i], RunSteps(host, settings, history, steps).issued[i]).None?
    decreases |steps|
  {
    if steps != [] {
      var t := RunSteps(host, settings, history, steps);
      var cmd := BuildGitCmd(settings, steps[0]);
      if ExecOutcome(host, settings, history, steps[0]).None? {
        var later := history + [cmd];
        EarlierStepsSucceeded(host, settings, later, steps[1..]);
        var rest := RunSteps(host, settings, later, steps[1..]);
        forall i | 0 <= i < |t.issued| - 1
          ensures host.run(history + t.issued[..i], t.issued[i]).None?
        {
          assert t.issued == [cmd] + rest.issued;
          if i > 0 {
            assert t.issued[i] == rest.issued[i - 1];
            ConsPrefix(cmd, rest.issued, i);
            ConcatAssoc(history, [cmd], rest.issued[..i - 1]);
          } else {
            assert history + t.issued[..0] == history;
          }
        }
      }
    }
  }

  /** The last of the issued commands failed, against the history before it. */
  predicate LastFailed(host: Host, history: seq<GitCmd>, issued: seq<GitCmd>)
  {
    0 < |issued| && host.run(history + issued[..|issued| - 1], issued[|issued| - 1]).Some?
  }

  /** The cause the host gave for the failure of the last issued command. */
  function LastCause(host: Host, history: seq<GitCmd>, issued: seq<GitCmd>): string
    requires LastFailed(host, history, issued)
  {
    host.run(history + issued[..|issued| - 1], issued[|issued| - 1]).value
  }

  lemma LastFailedCons(host: Host, history: seq<GitCmd>, cmd: GitCmd, rest: seq<GitCmd>)
    requires host.run(history, cmd).None?
    ensures LastFailed(host, history, [cmd] + rest) <==> LastFailed(host, history + [cmd], rest)
    ensures LastFailed(host, history + [cmd], rest) ==>
      LastCause(host, history, [cmd] + rest) == LastCause(host, history + [cmd], rest)
  {
    var issued := [cmd] + rest;
    if rest == [] {
      assert issued[..0] == [] && history + [] == history;
    } else {
      var m := |rest| - 1;
      ConsPrefix(cmd, rest, m + 1);
      ConcatAssoc(history, [cmd], rest[..m]);
      var before := history + issued[..|issued| - 1];
      assert before == history + [cmd] + rest[..m];
      assert issued[|issued| - 1] == rest[m];
    }
  }

  /** A run failed exactly when the last command it issued failed. */
  lemma {:induction false} FailedAtLastStep(host: Host, settings: RepoSettings, history: seq<GitCmd>, steps: seq<seq<string>>)
    ensures RunSteps(host, settings, history, steps).error.Some?
        <==> LastFailed(host, history, RunSteps(host, settings, history, steps).issued)
    decreases |steps|
  {
    if steps != [] {
      var cmd := BuildGitCmd(settings, steps[0]);
      if ExecOutcome(host, settings, history, steps[0]).None? {
        FailedAtLastStep(host, settings, history + [cmd], steps[1..]);
        LastFailedCons(host, history, cmd, RunSteps(host, settings, history + [cmd], steps[1..]).issued);
      } else {
        assert [cmd][..0] == [] && history + [] == history;
      }
    }
  }

  // ---------------------------------------------------------------------
  // The settings checks and the operations, as traces

  predicate HasPrefix(s: string, prefix: string)
  {
    |prefix| <= |s| && s[..|prefix|] == prefix
  }

  /**
   * The checks NewRepo makes before touching the repository, in order: an ssh
   * key with an https URL, then a key file that cannot be read. sshKeyStat is
   * the outcome of stat'ing the key file.
   */
  function SettingsError(settings: RepoSettings, sshKeyStat: Option<string>): (err: Option<RepoError>)
    ensures settings.sshKeyPath == "" ==> err.None?
    ensures settings.sshKeyPath != "" && HasPrefix(settings.url, "https://") ==> err == Some(HttpsUrlWithSshKey)
    ensures settings.sshKeyPath != "" && !HasPrefix(settings.url, "https://") ==>
      (err.None? <==> sshKeyStat.None?) && (sshKeyStat.Some? ==> err == Some(SshKeyUnreadable(sshKeyStat.value)))
  {
    if settings.sshKeyPath == "" then None
    else if HasPrefix(settings.url, "https://") then Some(HttpsUrlWithSshKey)
    else if sshKeyStat.Some? then Some(SshKeyUnreadable(sshKeyStat.value))
    else None
  }

  /** ResetHardRemote: fetch, then reset hard to the remote branch. */
  function ResetTrace(host: Host, settings: RepoSettings, history: seq<GitCmd>): Trace
  {
    RunSteps(host, settings, history, [FetchArgs(settings), ResetArgs(settings)])
  }

  /** The steps init runs on a directory that already holds a checkout. */
  function RefreshSteps(settings: RepoSettings): seq<seq<string>>
  {
    [FetchArgs(settings), CleanArgs, FetchArgs(settings), ResetArgs(settings)]
  }

  /**
   * init: ensure and list the local directory (oracles ensureDirErr and
   * dirEntries, the number of entries), then clone into an empty directory or
   * fetch, clean and reset a populated one.
   */
  function InitTrace(host: Host, settings: RepoSettings, history: seq<GitCmd>, ensureDirErr: Option<string>,
                     dirEntries: Result<nat, string>): Trace
  {
    if ensureDirErr.Some? then Trace([], Some(GitDirNotEnsured(ensureDirErr.value)))
    else if dirEntries.Failure? then Trace([], Some(GitDirUnreadable(dirEntries.error)))
    else if dirEntries.value == 0 then RunSteps(host, settings, history, [CloneArgs(settings)])
    else RunSteps(host, settings, history, RefreshSteps(settings))
  }

  /**
   * Commit: write the files, stage everything, commit; stop at the first
   * failure, and report a commit that failed for want of changes as NoChanges.
   */
  function CommitTrace(host: Host, settings: RepoSettings, history: seq<GitCmd>, message: string,
                       files: seq<ResourceFile>): Trace
  {
    match host.processFiles(history, settings.localGitDir, files)
    case Some(cause) => Trace([], Some(ProcessFilesFailed(cause)))
    case None =>
      var add := BuildGitCmd(settings, AddAllArgs);
      match ExecOutcome(host, settings, history, AddAllArgs)
      case Some(err) => Trace([add], Some(err))
      case None =>
        var commit := BuildGitCmd(settings, CommitArgs(message));
        match ExecOutcome(host, settings, history + [add], CommitArgs(message))
        case None => Trace([add, commit], None)
        case Some(err) => Trace([add, commit], if host.isNoChangesErr(err) then Some(NoChanges) else Some(err))
  }

  // ---------------------------------------------------------------------
  // Properties of the traces

  /** An ssh key with an https URL is refused whatever the key file's state. */
  lemma HttpsCheckedBeforeKeyFile(settings: RepoSettings, stat1: Option<string>, stat2: Option<string>)
    requires settings.sshKeyPath != "" && HasPrefix(settings.url, "https://")
    ensures SettingsError(settings, stat1) == SettingsError(settings, stat2) == Some(HttpsUrlWithSshKey)
    ensures SettingsError(settings, stat1).value.Message() == HttpsWithSshKeyMessage
  {
  }

  /** An https URL with a key, as the package's test expects it. */
  lemma HttpsWithKeyExample(stat: Option<string>)
    ensures var httpsUrl := RepoSettings("https://not-ssh.org", "/bogus/path", "", "");
      SettingsError(httpsUrl, stat).value.Message()
        == "Cannot use both an https git url and specify an SSH key. Either use an SSH url or remove the key"
  {
    var httpsUrl := RepoSettings("https://not-ssh.org", "/bogus/path", "", "");
    assert HasPrefix(httpsUrl.url, "https://") by {
      assert httpsUrl.url[..8] == "https://";
    }
  }

  /** buildGitCmd with "status" in /tmp/git yields argv ["git", "status"] in /tmp/git. */
  lemma BuildGitCmdExample()
    ensures var cmd := BuildGitCmd(RepoSettings("", "", "", "/tmp/git"), ["status"]);
      cmd.args == ["git", "status"] && cmd.dir == "/tmp/git"
  {
  }

  /** A failed command's error names its arguments the way fmt prints a string slice. */
  lemma GitErrorMessageExample(cause: string)
    ensures GitCmdFailed(AddAllArgs, cause).Message() == "git [add --all]: " + cause
  {
    assert Spaced(["--all"]) == "--all";
  }

  /** ResetHardRemote fetches first; a failed fetch issues no reset. */
  lemma ResetFetchesFirst(host: Host, settings: RepoSettings, history: seq<GitCmd>)
    ensures var t := ResetTrace(host, settings, history);
      && 0 < |t.issued|
      && t.issued[0] == BuildGitCmd(settings, ["fetch", "-f", "origin", settings.branch])
      && (host.run(history, t.issued[0]).Some? <==> |t.issued| == 1)
      && (|t.issued| == 2 ==> t.issued[1] == BuildGitCmd(settings, ["reset", "--hard", "origin/" + settings.branch]))
  {
    var t := ResetTrace(host, settings, history);
    var fetch := BuildGitCmd(settings, FetchArgs(settings));
    RemoteBranchText(settings.branch);
    if host.run(history, fetch).None? {
      assert [FetchArgs(settings), ResetArgs(settings)][1..] == [ResetArgs(settings)];
    }
  }

  /** With no directory or no listing, init issues no command. */
  lemma InitFailsBeforeGit(host: Host, settings: RepoSettings, history: seq<GitCmd>, ensureDirErr: Option<string>,
                           dirEntries: Result<nat, string>)
    requires ensureDirErr.Some? || dirEntries.Failure?
    ensures InitTrace(host, settings, history, ensureDirErr, dirEntries).issued == []
    ensures ensureDirErr.Some? ==>
      InitTrace(host, settings, history, ensureDirErr, dirEntries).error.value.Message() == "error ensuring git dir: " + ensureDirErr.value
    ensures ensureDirErr.None? ==>
      InitTrace(host, settings, history, ensureDirErr, dirEntries).error.value.Message() == "error reading git dir: " + dirEntries.error
  {
  }

  /** An empty directory is cloned with exactly one command. */
  lemma InitEmptyDirClones(host: Host, settings: RepoSettings, history: seq<GitCmd>)
    ensures var t := InitTrace(host, settings, history, None, Success(0));
      && t.issued == [BuildGitCmd(settings, ["clone", "--branch", settings.branch, "--single-branch", "--depth=1",
                                              settings.url, settings.localGitDir])]
      && (t.error.None? <==> host.run(history, t.issued[0]).None?)
  {
    var t := InitTrace(host, settings, history, None, Success(0));
    assert |t.issued| == 1;
  }

  /**
   * A populated directory is refreshed: fetch, clean, fetch, reset, in that
   * order, as far as the first failure.
   */
  lemma InitPopulatedDirRefreshes(host: Host, settings: RepoSettings, history: seq<GitCmd>, entries: nat)
    requires entries > 0
    ensures var t := InitTrace(host, settings, history, None, Success(entries));
      var expected := [BuildGitCmd(settings, ["fetch", "-f", "origin", settings.branch]),
                       BuildGitCmd(settings, ["clean", "-xdf"]),
                       BuildGitCmd(settings, ["fetch", "-f", "origin", settings.branch]),
                       BuildGitCmd(settings, ["reset", "--hard", "origin/" + settings.branch])];
      && 0 < |t.issued| <= 4
      && t.issued == expected[..|t.issued|]
      && (t.error.None? <==> |t.issued| == 4 && host.run(history + t.issued[..3], t.issued[3]).None?)
  {
    var t := InitTrace(host, settings, history, None, Success(entries));
    var steps := RefreshSteps(settings);
    assert t == RunSteps(host, settings, history, steps);
    RemoteBranchText(settings.branch);
    FailedAtLastStep(host, settings, history, steps);
  }

  /** The commit command: the message and the fixed riser-server author. */
  lemma CommitArgsShape(message: string)
    ensures BuildGitCmd(RepoSettings("", "", "", ""), CommitArgs(message)).args
         == ["git", "commit", "-m", message, "--author", "riser-server <riser-server@tempuri.org>"]
  {
  }

  /**
   * Commit runs processFiles, "add --all" and the commit in order, stopping at
   * the first failure; only the commit step's failure can become NoChanges,
   * and it does exactly when the host classifies it as "no changes".
   */
  lemma CommitStopsAtFirstFailure(host: Host, settings: RepoSettings, history: seq<GitCmd>, message: string,
                                  files: seq<ResourceFile>)
    ensures var t := CommitTrace(host, settings, history, message, files);
      var add := BuildGitCmd(settings, ["add", "--all"]);
      var commit := BuildGitCmd(settings, CommitArgs(message));
      && (host.processFiles(history, settings.localGitDir, files).Some? <==> t.issued == [])
      && (t.issued == [] ==> t.error == Some(ProcessFilesFailed(host.processFiles(history, settings.localGitDir, files).value)))
      && (t.issued == [add] <==> t.issued != [] && host.run(history, add).Some?)
      && (t.issued == [add] ==> t.error == Some(GitCmdFailed(["add", "--all"], host.run(history, add).value)))
      && (t.issued == [add, commit] <==> t.issued != [] && host.run(history, add).None?)
      && (t.error.None? <==> t.issued == [add, commit] && host.run(history + [add], commit).None?)
      && (t.error == Some(NoChanges) <==>
            && t.issued == [add, commit]
            && host.run(history + [add], commit).Some?
            && host.isNoChangesErr(GitCmdFailed(CommitArgs(message), host.run(history + [add], commit).value)))
      && (t.issued == [add, commit] && host.run(history + [add], commit).Some?
          && !host.isNoChangesErr(GitCmdFailed(CommitArgs(message), host.run(history + [add], commit).value)) ==>
            t.error == Some(GitCmdFailed(CommitArgs(message), host.run(history + [add], commit).value)))
  {
    var add := BuildGitCmd(settings, ["add", "--all"]);
    var commit := BuildGitCmd(settings, CommitArgs(message));
    assert [add] != [add, commit];
  }

  // ---------------------------------------------------------------------
  // The repository object

  class Repo {
    const settings: RepoSettings
    const host: Host
    /** Every git command issued so far, oldest first. */
    var log: seq<GitCmd>

    constructor(settings: RepoSettings, host: Host)
      ensures this.settings == settings && this.host == host && log == []
    {
      this.settings := settings;
      this.host := host;
      log := [];
    }

    /** execGitCmd: issue one command and report its outcome. */
    method ExecGitCmd(args: seq<string>) returns (err: Option<RepoError>)
      modifies this
      ensures log == old(log) + [BuildGitCmd(settings, args)]
      ensures err == ExecOutcome(host, settings, old(log), args)
    {
      var cmd := BuildGitCmd(settings, args);
      var outcome := host.run(log, cmd);
      log := log + [cmd];
      if outcome.Some? {
        return Some(GitCmdFailed(args, outcome.value));
      }
      return None;
    }

    /** Issue one command as a one-step run. */
    method Step(args: seq<string>) returns (err: Option<RepoError>)
      modifies this
      ensures var t := RunSteps(host, settings, old(log), [args]);
        log == old(log) + t.issued && err == t.error
    {
      err := ExecGitCmd(args);
      assert [args][1..] == [];
    }

    method Clone() returns (err: Option<RepoError>)
      modifies this
      ensures var t := RunSteps(host, settings, old(log), [CloneArgs(settings)]);
        log == old(log) + t.issued && err == t.error
    {
      err := Step(CloneArgs(settings));
    }

    method Fetch() returns (err: Option<RepoError>)
      modifies this
      ensures var t := RunSteps(host, settings, old(log), [FetchArgs(settings)]);
        log == old(log) + t.issued && err == t.error
    {
      err := Step(FetchArgs(settings));
    }

    method Clean() returns (err: Option<RepoError>)
      modifies this
      ensures var t := RunSteps(host, settings, old(log), [CleanArgs]);
        log == old(log) + t.issued && err == t.error
    {
      err := Step(CleanArgs);
    }

    method AddAll() returns (err: Option<RepoError>)
      modifies this
      ensures log == old(log) + [BuildGitCmd(settings, AddAllArgs)]
      ensures err == ExecOutcome(host, settings, old(log), AddAllArgs)
    {
      err := ExecGitCmd(AddAllArgs);
    }

    method Push() returns (err: Option<RepoError>)
      modifies this
      ensures log == old(log) + [BuildGitCmd(settings, PushArgs)]
      ensures err == ExecOutcome(host, settings, old(log), PushArgs)
    {
      err := ExecGitCmd(PushArgs);
    }

    /** ResetHardRemote: fetch, and reset to the remote branch only if the fetch succeeded. */
    method ResetHardRemote() returns (err: Option<RepoError>)
      modifies this
      ensures var t := ResetTrace(host, settings, old(log));
        log == old(log) + t.issued && err == t.error
    {
      ghost var start := log;
      err := Fetch();
      RunStepsAppend(host, settings, start, [FetchArgs(settings)], [ResetArgs(settings)]);
      assert [FetchArgs(settings)] + [ResetArgs(settings)] == [FetchArgs(settings), ResetArgs(settings)];
      if err.Some? {
        return;
      }
      ghost var mid := log;
      err := Step(ResetArgs(settings));
      assert log == start + (mid[|start|..] + log[|mid|..]);
    }

    /** Commit: process the files, stage everything, commit. */
    method Commit(message: string, files: seq<ResourceFile>) returns (err: Option<RepoError>)
      modifies this
      ensures var t := CommitTrace(host, settings, old(log), message, files);
        log == old(log) + t.issued && err == t.error
    {
      var processed := host.processFiles(log, settings.localGitDir, files);
      if processed.Some? {
        assert log == old(log) + [];
        return Some(ProcessFilesFailed(processed.value));
      }
      err := AddAll();
      if err.Some? {
        return;
      }
      err := ExecGitCmd(CommitArgs(message));
      if err.Some? && host.isNoChangesErr(err.value) {
        err := Some(NoChanges);
      }
    }

    /** init: clone an empty checkout directory, or refresh a populated one. */
    method Init(ensureDirErr: Option<string>, dirEntries: Result<nat, string>) returns (err: Option<RepoError>)
      modifies this
      ensures var t := InitTrace(host, settings, old(log), ensureDirErr, dirEntries);
        log == old(log) + t.issued && err == t.error
    {
      if ensureDirErr.Some? {
        assert log == old(log) + [];
        return Some(GitDirNotEnsured(ensureDirErr.value));
      }
      if dirEntries.Failure? {
        assert log == old(log) + [];
        return Some(GitDirUnreadable(dirEntries.error));
      }
      if dirEntries.value == 0 {
        err := Clone();
        return;
      }
      err := Refresh();
    }

    /** The populated-directory branch of init: fetch, clean, then ResetHardRemote. */
    method Refresh() returns (err: Option<RepoError>)
      modifies this
      ensures var t := RunSteps(host, settings, old(log), RefreshSteps(settings));
        log == old(log) + t.issued && err == t.error
    {
      ghost var start := log;
      var fetch, clean, reset := [FetchArgs(settings)], [CleanArgs], [FetchArgs(settings), ResetArgs(settings)];
      assert RefreshSteps(settings) == fetch + (clean + reset);
      RunStepsAppend(host, settings, start, fetch, clean + reset);
      ghost var t1 := RunSteps(host, settings, start, fetch);
      err := Fetch();
      if err.Some? {
        return;
      }
      ghost var afterFetch := log;
      RunStepsAppend(host, settings, afterFetch, clean, reset);
      ghost var t3 := RunSteps(host, settings, afterFetch, clean);
      err := Clean();
      if err.Some? {
        ConcatAssoc(start, t1.issued, t3.issued);
        return;
      }
      ghost var afterClean := log;
      err := ResetHardRemote();
      ghost var t4 := ResetTrace(host, settings, afterClean);
      ConcatAssoc(start, t1.issued, t3.issued);
      ConcatAssoc(start + t1.issued, t3.issued, t4.issued);
      ConcatAssoc(start, t1.issued, t3.issued + t4.issued);
    }
  }

  /**
   * NewRepo: check the settings, then initialise. On any failure there is no
   * repository; the settings checks fail before any git command.
   */
  method NewRepo(settings: RepoSettings, host: Host, sshKeyStat: Option<string>, ensureDirErr: Option<string>,
                 dirEntries: Result<nat, string>)
    returns (repo: Repo?, err: Option<RepoError>, issued: seq<GitCmd>)
    ensures SettingsError(settings, sshKeyStat).Some? ==>
      repo == null && err == SettingsError(settings, sshKeyStat) && issued == []
    ensures SettingsError(settings, sshKeyStat).None? ==>
      var t := InitTrace(host, settings, [], ensureDirErr, dirEntries);
      && issued == t.issued && err == t.error
      && (err.Some? <==> repo == null)
      && (repo != null ==> fresh(repo) && repo.settings == settings && repo.log == issued)
  {
    var check := SettingsError(settings, sshKeyStat);
    if check.Some? {
      return null, check, [];
    }
    var r := new Repo(settings, host);
    err := r.Init(ensureDirErr, dirEntries);
    issued := r.log;
    if err.Some? {
      return null, err, issued;
    }
    return r, None, issued;
  }
}
