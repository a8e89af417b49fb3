/** The `furo2` command (`run`, `command_exec`, `command_history`, `command_version`,
    `command_help`; furo2.py:83-236): what each invocation does to the process
    environment, the working directory, the files, the streams and the logs
    repository's git, and how it ends. */
module Cli {

  import opened Wrappers
  import opened Failures
  import opened Text
  import opened Paths
  import opened Project
  import opened Shell
  import opened Script
  import opened Record
  import opened Sync

  // ---------------------------------------------------------------------------
  // Dispatch

  /** What the first word of the command line selects (`run`, furo2.py:221-236). */
  datatype Action = Help | Exec(command: seq<string>) | History(args: seq<string>) | Version

  function Dispatch(argv: seq<string>): Action
  {
    if argv == [] then Help
    else if argv[0] == "exec" then Exec(argv[1..])
    else if argv[0] == "history" then History(argv[1..])
    else if argv[0] == "version" then Version
    else Help
  }

  /** The subcommands of `history` (furo2.py:165-201). */
  datatype HistoryCommand = Show(args: seq<string>) | PullLogs | Fix | Git(args: seq<string>) | Log(args: seq<string>)

  /** `cmd, *args = args`, then the chain of `if cmd == …`: a word that is no
      subcommand is dropped, and the rest goes to `git log`. */
  function ParseHistory(args: seq<string>): HistoryCommand
  {
    if args == [] then Log([])
    else if args[0] == "show" then Show(args[1..])
    else if args[0] == "pull" then PullLogs
    else if args[0] == "fix" then Fix
    else if args[0] == "git" then Git(args[1..])
    else Log(args[1..])
  }

  /** The invocations that end in the usage message: no arguments, an unknown command,
      or `exec` with nothing to run. */
  predicate IsUsageError(argv: seq<string>) {
    argv == [] || (argv[0] != "exec" && argv[0] != "history" && argv[0] != "version") || argv == ["exec"]
  }

  const UsageText := "furo2 exec COMMAND [ARGS...]\nfuro2 history [pull | show COMMIT | fix]\nfuro2 version"
  const UsageExitCode := 129

  // ---------------------------------------------------------------------------
  // The world a run sees

  /** Everything a run reads but does not decide: the platform, the environment
      (`FURO_LOGS_DIR`, `FURO_LOGS_REPOSITORY`, the home directory), the invoking
      repository's git answers and project.yml's `project` value, the clock, the user
      name, furo2's version, the encoder `json.dumps`, the temporary file's name, the
      wrapped command's exit status and transcript, whether the project's logs
      directory exists, and the answer typed to `fix`'s prompt. */
  datatype World = World(platform: string, logsDirEnv: Option<string>, logsRepoEnv: Option<string>,
                         home: string, src: SourceRepo, config: Option<string>, now: Timestamp,
                         user: string, version: string, json: seq<string> -> string,
                         tempFile: string, returnCode: int, transcript: seq<byte>,
                         logsDirExists: bool, answer: string)

  /** How a run ends: `sys.exit(code)` (or returning, code 0), or an uncaught exception. */
  datatype Outcome = Exited(code: int) | Raised(failure: Failure)

  /** The process's exit status: the low eight bits of the code, and 1 for an uncaught
      exception. */
  function ExitStatus(o: Outcome): (s: int)
    ensures 0 <= s < 256
    ensures o.Raised? ==> s == 1
    ensures o.Exited? && 0 <= o.code < 256 ==> s == o.code
    ensures o.Exited? ==> s == o.code % 256
  {
    match o
    case Exited(c) => c % 256
    case Raised(_) => 1
  }

  /** What a run does besides ending: variables it sets in `os.environ`, the `script`
      argvs it runs, the log record it writes (file name and header), the directories it
      removes, the directory it moves to, what it prints, and the git commands it issues
      in the logs directory. */
  datatype Effects = Effects(outcome: Outcome, env: map<string, string>, launched: seq<seq<string>>,
                             record: Option<(string, Header)>, removed: seq<string>, cwd: Option<string>,
                             out: string, err: string, git: seq<Argv>)

  function Only(o: Outcome): Effects {
    Effects(o, map[], [], None, [], None, "", "", [])
  }

  // ---------------------------------------------------------------------------
  // exec

  const RevParseHead: Argv := ["rev-parse", "HEAD"]

  /** The header `command_exec` writes for `command`. */
  function ExecHeader(command: seq<string>, w: World, id: ProjectIdentity, head: string): Header
  {
    Header(w.json(command), w.user, id.repoPath, id.projectPath, Strip(head), w.version, w.returnCode)
  }

  /** `command_exec(command)` (furo2.py:83-159). `status` and `originUrl` are the logs
      directory's git answers. */
  function ExecEffects(command: seq<string>, w: World, status: Argv -> int, originUrl: string): Effects
    requires Valid(w.now)
  {
    if command == [] then Only(Raised(UsageError))
    else match Locate(w)
      case Err(f) => Only(Raised(f))
      case Ok(id) =>
        match w.src.head
        case Failed(code) => Only(Raised(CalledProcessError(RevParseHead, code)))
        case Output(head) => LaunchEffects(command, w, id, head, status, originUrl)
  }

  /** The part of `command_exec` from setting `FURO` on: run the command under
      `script`, which needs a supported platform, and record it. */
  function LaunchEffects(command: seq<string>, w: World, id: ProjectIdentity, head: string,
                  status: Argv -> int, originUrl: string): Effects
    requires Valid(w.now)
  {
    match ForPlatform(w.platform, w.tempFile, command)
    case Err(f) => Effects(Raised(f), map["FURO" := "1"], [], None, [], None, "", "", [])
    case Ok(wrapper) => Recorded(command, w, id, head, wrapper, status, originUrl)
  }

  /** The part of `command_exec` after the command ran: write its record, move to the
      logs directory, upload, and exit with the command's code. */
  function Recorded(command: seq<string>, w: World, id: ProjectIdentity, head: string, wrapper: seq<string>,
                    status: Argv -> int, originUrl: string): Effects
    requires Valid(w.now)
  {
    var logFile := Render(LogFile(id.logsDir, w.now));
    var (cmds, f) := Upload(status, originUrl, LogsRepository(w.logsRepoEnv), id.projectPath,
                            logFile, Headline(command, w.returnCode));
    Effects(if f.Some? then Raised(f.value) else Exited(w.returnCode),
            map["FURO" := "1"], [wrapper], Some((logFile, ExecHeader(command, w, id, head))),
            [], Some(Render(id.logsDir)), "", "", cmds)
  }

  // ---------------------------------------------------------------------------
  // history

  const ExternalDiff := "sh -c \"cat $5\""
  const LogFormat := "--pretty=%h [%ad] (%an) %s"

  function Clone(repo: string, project: string, dir: string): Argv {
    ["clone", repo, "-b", project, dir]
  }

  /** One checked git command (`check_call`): a non-zero status raises. */
  function Checked(a: Argv, status: Argv -> int, env: map<string, string>, cwd: Option<string>): Effects
  {
    Effects(if status(a) == 0 then Exited(0) else Raised(CalledProcessError(a, status(a))),
            env, [], None, [], cwd, "", "", [a])
  }

  /** `command_history(args)` (furo2.py:162-201): locate the project, then run the
      subcommand. */
  function HistoryEffects(args: seq<string>, w: World, status: Argv -> int): Effects
  {
    match Locate(w)
    case Err(f) => Only(Raised(f))
    case Ok(id) => SubcommandEffects(ParseHistory(args), id, w, status)
  }

  /** `_init_project()` in the world `w`. */
  function Locate(w: World): (r: Result<ProjectIdentity, Failure>)
    ensures r.Ok? <==> w.src.toplevel.Output? && w.src.originUrl.Output?
  {
    InitProject(w.src, w.config, LogsRoot(w.logsDirEnv, w.home))
  }

  function SubcommandEffects(c: HistoryCommand, id: ProjectIdentity, w: World, status: Argv -> int): Effects
  {
    var dir := Render(id.logsDir);
    match c
    case Show(rest) =>
      Checked(["show", "--pretty=format:", "--ext-diff"] + rest, status,
              map["GIT_EXTERNAL_DIFF" := ExternalDiff], Some(dir))
    case PullLogs =>
      if w.logsDirExists then Checked(["pull", "origin", id.projectPath], status, map[], Some(dir))
      else
        (match LogsRepository(w.logsRepoEnv)
         case Err(f) => Only(Raised(f))
         case Ok(repo) => Checked(Clone(repo, id.projectPath, dir), status, map[], None))
    case Fix =>
      (match LogsRepository(w.logsRepoEnv)
       case Err(f) => Only(Raised(f))
       case Ok(repo) => Confirmed(dir, Render(Parent(id.logsDir)), Clone(repo, id.projectPath, dir), w.answer == "y"))
    case Git(rest) => Checked(rest, status, map[], Some(dir))
    case Log(rest) => Checked(["log", "--no-decorate", LogFormat] + rest, status, map[], Some(dir))
  }

  /** `history fix` once the logs repository is known: the prompt naming `dir`, issued
      from `parent`, then for a `y` the removal of `dir` and `clone`. */
  function Confirmed(dir: string, parent: string, clone: Argv, yes: bool): Effects
  {
    var prompt := "rm -rf " + dir + " [y/N]: ";
    if yes then Effects(Exited(0), map[], [], None, [dir], Some(parent), prompt, "", [clone])
    else Effects(Exited(0), map[], [], None, [], Some(parent), prompt, "", [])
  }

  // ---------------------------------------------------------------------------
  // run

  /** `run()`: the selected command, with a `UsageError` turned into the usage message
      on standard error and exit code 129. */
  function RunEffects(argv: seq<string>, w: World, status: Argv -> int, originUrl: string): Effects
    requires Valid(w.now)
  {
    ActionEffects(Dispatch(argv), w, status, originUrl)
  }

  /** `except UsageError: command_help()`. */
  function Caught(e: Effects): Effects {
    if e.outcome == Raised(UsageError) then e.(outcome := Exited(UsageExitCode), err := e.err + (UsageText + "\n"))
    else e
  }

  function ActionEffects(a: Action, w: World, status: Argv -> int, originUrl: string): Effects
    requires Valid(w.now)
  {
    match a
    case Help => UsageEffects
    case Exec(command) => if command == [] then UsageEffects else ExecEffects(command, w, status, originUrl)
    case History(args) => HistoryEffects(args, w, status)
    case Version => Effects(Exited(0), map[], [], None, [], None, "furoshiki2 version " + w.version + "\n", "", [])
  }

  // ---------------------------------------------------------------------------
  // Properties

  const UsageEffects := Effects(Exited(UsageExitCode), map[], [], None, [], None, "", UsageText + "\n", [])

  /** The usage message is printed, with exit code 129 and nothing else done, exactly
      for the invocations that are usage errors; every other invocation writes nothing
      of furo2's own to standard error. */
  lemma UsageExactly(argv: seq<string>, w: World, status: Argv -> int, originUrl: string)
    requires Valid(w.now)
    ensures IsUsageError(argv) ==> RunEffects(argv, w, status, originUrl) == UsageEffects
    ensures !IsUsageError(argv) ==> RunEffects(argv, w, status, originUrl).err == ""
  {
    match Dispatch(argv)
    case Help =>
    case Exec(command) =>
      assert command == argv[1..];
      if argv == ["exec"] {
        assert command == [];
        assert ExecEffects(command, w, status, originUrl) == Only(Raised(UsageError));
      } else {
        assert command != [];
        ExecNeverUsage(command, w, status, originUrl);
      }
    case History(args) =>
      HistoryQuiet(args, w, status);
    case Version =>
  }

  /** `run()` turns exactly `exec`'s `UsageError`, raised for an empty command, into the
      usage message: the effects of `exec` are those of `command_exec` with that
      exception caught. */
  lemma ExecCaught(command: seq<string>, w: World, status: Argv -> int, originUrl: string)
    requires Valid(w.now)
    ensures ActionEffects(Action.Exec(command), w, status, originUrl) == Caught(ExecEffects(command, w, status, originUrl))
  {
    if command != [] {
      ExecNeverUsage(command, w, status, originUrl);
    }
  }

  lemma ExecNeverUsage(command: seq<string>, w: World, status: Argv -> int, originUrl: string)
    requires Valid(w.now) && command != []
    ensures ExecEffects(command, w, status, originUrl).outcome != Raised(UsageError)
    ensures ExecEffects(command, w, status, originUrl).err == ""
  {
    match Locate(w)
    case Err(f) =>
    case Ok(id) =>
      match w.src.head
      case Failed(code) =>
      case Output(head) =>
        match ForPlatform(w.platform, w.tempFile, command)
        case Err(f) =>
        case Ok(wrapper) =>
          var logFile := Render(LogFile(id.logsDir, w.now));
          UploadFailures(status, originUrl, LogsRepository(w.logsRepoEnv), id.projectPath,
                         logFile, Headline(command, w.returnCode));
  }

  lemma HistoryQuiet(args: seq<string>, w: World, status: Argv -> int)
    ensures HistoryEffects(args, w, status).err == ""
  {
    match Locate(w)
    case Err(f) =>
    case Ok(id) =>
      match ParseHistory(args)
      case Show(rest) =>
      case PullLogs =>
      case Fix =>
      case Git(rest) =>
      case Log(rest) =>
  }

  /** An upload only ever fails with a git error or the missing logs repository. */
  lemma UploadFailures(status: Argv -> int, originUrl: string, logsRepo: Result<string, Failure>,
                       project: string, logFile: string, headline: string)
    requires logsRepo.Err? ==> logsRepo.error == LogsRepositoryNotSet
    ensures var r := Upload(status, originUrl, logsRepo, project, logFile, headline);
      r.1.Some? ==> r.1.value.CalledProcessError? || r.1.value == LogsRepositoryNotSet
  {
    ExecuteFailures(Setup(HasRemote(status, originUrl), logsRepo)
                    + Publish(project, logFile, headline, HasBranch(status, project)), status);
  }

  lemma {:induction false} ExecuteFailures(plan: seq<Step>, status: Argv -> int)
    requires forall i :: 0 <= i < |plan| && plan[i].Raise? ==> plan[i].failure == LogsRepositoryNotSet
    ensures var r := Execute(plan, status);
      r.1.Some? ==> r.1.value.CalledProcessError? || r.1.value == LogsRepositoryNotSet
  {
    if plan != [] {
      assert plan[0].Raise? ==> plan[0].failure == LogsRepositoryNotSet;
      ExecuteFailures(plan[1..], status);
    }
  }

  /** `history` with a word that is no subcommand drops the word and runs `git log`
      with the rest, in the logs directory. */
  lemma HistoryUnknownIsLog(args: seq<string>, w: World, status: Argv -> int)
    requires args != [] && args[0] != "show" && args[0] != "pull" && args[0] != "fix" && args[0] != "git"
    requires Locate(w).Ok?
    ensures ParseHistory(args) == Log(args[1..])
    ensures var e := HistoryEffects(args, w, status);
      var id := Locate(w).value;
      e.git == [["log", "--no-decorate", LogFormat] + args[1..]] && e.cwd == Some(Render(id.logsDir))
  {
  }

  /** `exec` in a repository git answers for, on a supported platform, after the command
      ran: its record goes to the timestamped file under the logs directory, with the
      command's exit code in the header, `FURO` is set, the platform's `script` argv is
      launched, and the git commands are the upload's. When the upload goes through,
      `exec` exits with the command's code, and the commands are the whole upload,
      whose `add` names the record and whose commit message is the headline. */
  lemma ExecSucceeds(command: seq<string>, w: World, status: Argv -> int, originUrl: string)
    requires Valid(w.now) && command != []
    requires w.platform == "linux" || w.platform == "darwin"
    requires w.src.toplevel.Output? && w.src.originUrl.Output? && w.src.head.Output?
    ensures var id := Locate(w).value;
      var logFile := Render(LogFile(id.logsDir, w.now));
      var logsRepo := LogsRepository(w.logsRepoEnv);
      var headline := Headline(command, w.returnCode);
      var r := Upload(status, originUrl, logsRepo, id.projectPath, logFile, headline);
      var e := ExecEffects(command, w, status, originUrl);
      e.record == Some((logFile, ExecHeader(command, w, id, w.src.head.text)))
      && e.record.value.1.exitCode == w.returnCode
      && e.env == map["FURO" := "1"]
      && e.launched == [if w.platform == "linux" then Linux(w.tempFile, command) else Darwin(w.tempFile, command)]
      && e.cwd == Some(Render(id.logsDir))
      && e.git == r.0
      && (r.1 == None ==>
            e.outcome == Exited(w.returnCode)
            && ExitStatus(e.outcome) == w.returnCode % 256
            && r.0 == SuccessTrace(HasRemote(status, originUrl), if logsRepo.Ok? then logsRepo.value else "",
                                   id.projectPath, logFile, headline, HasBranch(status, id.projectPath)))
  {
    var id := Locate(w).value;
    var wrapper := ForPlatform(w.platform, w.tempFile, command).value;
    assert ExecEffects(command, w, status, originUrl) == Recorded(command, w, id, w.src.head.text, wrapper, status, originUrl);
    var logFile := Render(LogFile(id.logsDir, w.now));
    UploadSucceeds(status, originUrl, LogsRepository(w.logsRepoEnv), id.projectPath, logFile, Headline(command, w.returnCode));
  }

  /** A failing git command of the upload ends `exec` with that exception, so the
      process exits with status 1 whatever the wrapped command returned; the record has
      been written by then. */
  lemma ExecUploadFailure(command: seq<string>, w: World, status: Argv -> int, originUrl: string)
    requires Valid(w.now) && command != []
    requires w.platform == "linux" || w.platform == "darwin"
    requires w.src.toplevel.Output? && w.src.originUrl.Output? && w.src.head.Output?
    ensures var id := Locate(w).value;
      var logFile := Render(LogFile(id.logsDir, w.now));
      var r := Upload(status, originUrl, LogsRepository(w.logsRepoEnv), id.projectPath, logFile, Headline(command, w.returnCode));
      var e := ExecEffects(command, w, status, originUrl);
      r.1.Some? ==> e.outcome == Raised(r.1.value) && ExitStatus(e.outcome) == 1 && e.record.Some?
  {
    var id := Locate(w).value;
    var wrapper := ForPlatform(w.platform, w.tempFile, command).value;
    assert ExecEffects(command, w, status, originUrl) == Recorded(command, w, id, w.src.head.text, wrapper, status, originUrl);
  }

  /** Without a supported platform nothing is run or written, but `FURO` is already set. */
  lemma ExecUnsupportedPlatform(command: seq<string>, w: World, status: Argv -> int, originUrl: string)
    requires Valid(w.now) && command != []
    requires w.platform != "linux" && w.platform != "darwin"
    requires w.src.toplevel.Output? && w.src.originUrl.Output? && w.src.head.Output?
    ensures ExecEffects(command, w, status, originUrl) ==
      Effects(Raised(UnsupportedPlatform(w.platform)), map["FURO" := "1"], [], None, [], None, "", "", [])
  {
  }

  /** `history fix` answered `y` removes the project's logs directory and clones it
      afresh from the logs repository, from the parent directory; a failing clone is
      ignored. Any other answer leaves everything in place. */
  lemma FixReclones(args: seq<string>, w: World, status: Argv -> int)
    requires args != [] && args[0] == "fix"
    requires Locate(w).Ok?
    requires LogsRepository(w.logsRepoEnv).Ok?
    ensures var id := Locate(w).value;
      var dir := Render(id.logsDir);
      var e := HistoryEffects(args, w, status);
      e.outcome == Exited(0) && e.cwd == Some(Render(Parent(id.logsDir)))
      && e.out == "rm -rf " + dir + " [y/N]: "
      && (w.answer == "y" ==> e.removed == [dir] && e.git == [Clone(w.logsRepoEnv.value, id.projectPath, dir)])
      && (w.answer != "y" ==> e.removed == [] && e.git == [])
  {
  }

  // ---------------------------------------------------------------------------
  // The process

  /** Where a run's file operations land, each path looked up at the directory current
      when it is used: `exec` writes its record before it moves to the logs directory,
      and `fix` removes the logs directory after it has moved to its parent. */
  function RecordTarget(e: Effects, before: string): string
    requires e.record.Some?
  {
    Resolve(before, e.record.value.0)
  }

  function RemovalTarget(e: Effects, before: string): string
    requires e.removed != []
  {
    Resolve(if e.cwd.Some? then Resolve(before, e.cwd.value) else before, e.removed[0])
  }

  /** The files after a run that started in the directory `before`: the removed
      directory pruned, then the record written. */
  function FilesAfter(files: map<string, seq<byte>>, e: Effects, transcript: seq<byte>, before: string): map<string, seq<byte>>
  {
    var pruned := if e.removed == [] then files else Pruned(files, RemovalTarget(e, before));
    if e.record.Some? then pruned[RecordTarget(e, before) := RecordBytes(e.record.value.1, transcript)] else pruned
  }

  function EventsOf(e: Effects, transcript: seq<byte>, before: string): seq<FileEvent>
  {
    (if e.removed == [] then [] else [RemovedTree(RemovalTarget(e, before))])
    + (if e.record.Some? then [Wrote(RecordTarget(e, before), Utf8(HeaderText(e.record.value.1))),
                               Appended(RecordTarget(e, before), transcript)] else [])
  }

  /** Where `history fix` answered `y` removes: `shutil.rmtree(str(logs_dir))` runs after
      the move to `str(logs_dir.parent)`. With an absolute logs directory that is the logs
      directory; with a relative one it is the logs directory looked up below its own
      parent, which for a logs directory of two or more parts is a longer path than the
      logs directory named from where furo2 started. */
  lemma FixRemovalTarget(args: seq<string>, w: World, status: Argv -> int, before: string)
    requires args != [] && args[0] == "fix"
    requires Locate(w).Ok?
    requires LogsRepository(w.logsRepoEnv).Ok?
    requires w.answer == "y"
    ensures var id := Locate(w).value;
      var e := HistoryEffects(args, w, status);
      var dir := Render(id.logsDir);
      e.removed != []
      && (id.logsDir.absolute ==> RemovalTarget(e, before) == dir)
      && (!id.logsDir.absolute ==>
            RemovalTarget(e, before) == before + "/" + Render(Parent(id.logsDir)) + "/" + dir)
      && (!id.logsDir.absolute && |id.logsDir.parts| >= 2 ==>
            |RemovalTarget(e, before)| > |Resolve(before, dir)|)
  {
    var id := Locate(w).value;
    FixReclones(args, w, status);
    LogsDirUnderRoot(w.src, w.config, LogsRoot(w.logsDirEnv, w.home));
    ResolveFromParent(before, id.logsDir);
  }

  /** One furo2 process: its environment, working directory, the `script` runs it
      launches, its output streams, the git client of the logs directory and the files. */
  class Furo {
    var environ: map<string, string>
    var cwd: string
    var launched: seq<seq<string>>
    var stdout: string
    var stderr: string
    const git: GitClient
    const files: FileStore
    const world: World

    constructor (world: World, environ: map<string, string>, cwd: string, git: GitClient, files: FileStore)
      ensures this.world == world && this.environ == environ && this.cwd == cwd
      ensures this.git == git && this.files == files
      ensures launched == [] && stdout == "" && stderr == ""
    {
      this.world := world;
      this.environ := environ;
      this.cwd := cwd;
      this.git := git;
      this.files := files;
      launched := [];
      stdout := "";
      stderr := "";
    }

    /** The process state went from `old` to now exactly as `e` says. */
    twostate predicate Applied(e: Effects)
      reads this, git, files
    {
      environ == old(environ) + e.env
      && cwd == (if e.cwd.Some? then Resolve(old(cwd), e.cwd.value) else old(cwd))
      && launched == old(launched) + e.launched
      && stdout == old(stdout) + e.out
      && stderr == old(stderr) + e.err
      && git.issued == old(git.issued) + e.git
      && files.files == FilesAfter(old(files.files), e, world.transcript, old(cwd))
      && files.events == old(files.events) + EventsOf(e, world.transcript, old(cwd))
    }

    /** `run()`. */
    method Run(argv: seq<string>) returns (outcome: Outcome)
      requires Valid(world.now)
      modifies this, git, files
      ensures Applied(RunEffects(argv, world, git.status, git.originUrl))
      ensures outcome == RunEffects(argv, world, git.status, git.originUrl).outcome
    {
      outcome := Perform(Dispatch(argv));
    }

    /** The command `run()` selected. */
    method Perform(a: Action) returns (outcome: Outcome)
      requires Valid(world.now)
      modifies this, git, files
      ensures Applied(ActionEffects(a, world, git.status, git.originUrl))
      ensures outcome == ActionEffects(a, world, git.status, git.originUrl).outcome
    {
      match a
      case Help =>
        stderr := stderr + (UsageText + "\n");
        outcome := Exited(UsageExitCode);
      case Exec(command) =>
        outcome := ExecOrUsage(command);
      case History(args) =>
        outcome := History(args);
      case Version =>
        stdout := stdout + ("furoshiki2 version " + world.version + "\n");
        outcome := Exited(0);
    }

    /** `command_exec(command)`, whose `UsageError` `run()` turns into the usage message. */
    method ExecOrUsage(command: seq<string>) returns (outcome: Outcome)
      requires Valid(world.now)
      modifies this, git, files
      ensures Applied(ActionEffects(Action.Exec(command), world, git.status, git.originUrl))
      ensures outcome == ActionEffects(Action.Exec(command), world, git.status, git.originUrl).outcome
    {
      if command != [] {
        ExecNeverUsage(command, world, git.status, git.originUrl);
      }
      outcome := Exec(command);
      if outcome == Raised(UsageError) {
        stderr := stderr + (UsageText + "\n");
        outcome := Exited(UsageExitCode);
      }
    }

    /** `command_exec(command)`. */
    method Exec(command: seq<string>) returns (outcome: Outcome)
      requires Valid(world.now)
      modifies this, git, files
      ensures Applied(ExecEffects(command, world, git.status, git.originUrl))
      ensures outcome == ExecEffects(command, world, git.status, git.originUrl).outcome
    {
      if command == [] {
        return Raised(UsageError);
      }
      var project := Locate(world);
      if project.Err? {
        return Raised(project.error);
      }
      if world.src.head.Failed? {
        return Raised(CalledProcessError(RevParseHead, world.src.head.status));
      }
      assert ExecEffects(command, world, git.status, git.originUrl)
        == LaunchEffects(command, world, project.value, world.src.head.text, git.status, git.originUrl);
      outcome := Launch(command, project.value, world.src.head.text);
    }

    method Launch(command: seq<string>, id: ProjectIdentity, head: string) returns (outcome: Outcome)
      requires Valid(world.now)
      modifies this, git, files
      ensures Applied(LaunchEffects(command, world, id, head, git.status, git.originUrl))
      ensures outcome == LaunchEffects(command, world, id, head, git.status, git.originUrl).outcome
    {
      environ := environ + map["FURO" := "1"];
      var wrapper := ForPlatform(world.platform, world.tempFile, command);
      if wrapper.Err? {
        return Raised(wrapper.error);
      }
      launched := launched + [wrapper.value];
      outcome := Record(command, id, head, wrapper.value);
    }

    /** Write the record, move to the logs directory and upload. */
    method Record(command: seq<string>, id: ProjectIdentity, head: string, wrapper: seq<string>)
      returns (outcome: Outcome)
      requires Valid(world.now)
      modifies this, git, files
      ensures var e := Recorded(command, world, id, head, wrapper, git.status, git.originUrl);
        environ == old(environ) && launched == old(launched)
        && stdout == old(stdout) && stderr == old(stderr) && cwd == Resolve(old(cwd), e.cwd.value)
        && git.issued == old(git.issued) + e.git
        && files.files == FilesAfter(old(files.files), e, world.transcript, old(cwd))
        && files.events == old(files.events) + EventsOf(e, world.transcript, old(cwd))
        && outcome == e.outcome
    {
      var logFile := Render(LogFile(id.logsDir, world.now));
      var header := ExecHeader(command, world, id, head);
      ghost var e := Recorded(command, world, id, head, wrapper, git.status, git.originUrl);
      ghost var before := cwd;
      var target := Resolve(cwd, logFile);
      assert e.record == Some((logFile, header)) && e.removed == [] && e.cwd == Some(Render(id.logsDir));
      assert EventsOf(e, world.transcript, before)
        == [Wrote(target, Utf8(HeaderText(header))), Appended(target, world.transcript)];
      files.WriteRecord(target, header, world.transcript);
      cwd := Resolve(cwd, Render(id.logsDir));
      var failure := Synchronise(git, LogsRepository(world.logsRepoEnv), id.projectPath,
                                 logFile, Headline(command, world.returnCode));
      outcome := if failure.Some? then Raised(failure.value) else Exited(world.returnCode);
    }

    /** A checked git command: a non-zero status raises. */
    method Check(args: Argv) returns (outcome: Outcome)
      modifies git
      ensures git.issued == old(git.issued) + [args]
      ensures outcome == (if git.status(args) == 0 then Exited(0) else Raised(CalledProcessError(args, git.status(args))))
    {
      var rc := git.Call(args);
      outcome := if rc == 0 then Exited(0) else Raised(CalledProcessError(args, rc));
    }

    /** `command_history(args)`. */
    method History(args: seq<string>) returns (outcome: Outcome)
      modifies this, git, files
      ensures Applied(HistoryEffects(args, world, git.status))
      ensures outcome == HistoryEffects(args, world, git.status).outcome
    {
      var project := Locate(world);
      if project.Err? {
        return Raised(project.error);
      }
      outcome := Subcommand(ParseHistory(args), project.value);
    }

    /** `history pull`: pull into the logs directory, or clone it when it is missing. */
    method Pull(id: ProjectIdentity) returns (outcome: Outcome)
      modifies this, git, files
      ensures Applied(SubcommandEffects(HistoryCommand.PullLogs, id, world, git.status))
      ensures outcome == SubcommandEffects(HistoryCommand.PullLogs, id, world, git.status).outcome
    {
      var dir := Render(id.logsDir);
      if world.logsDirExists {
        cwd := Resolve(cwd, dir);
        outcome := Check(["pull", "origin", id.projectPath]);
      } else {
        var logsRepo := LogsRepository(world.logsRepoEnv);
        if logsRepo.Err? {
          return Raised(logsRepo.error);
        }
        outcome := Check(Clone(logsRepo.value, id.projectPath, dir));
      }
    }

    /** `history fix`: after a `y`, remove the logs directory and clone it afresh. */
    method Reclone(id: ProjectIdentity) returns (outcome: Outcome)
      modifies this, git, files
      ensures Applied(SubcommandEffects(HistoryCommand.Fix, id, world, git.status))
      ensures outcome == SubcommandEffects(HistoryCommand.Fix, id, world, git.status).outcome
    {
      var logsRepo := LogsRepository(world.logsRepoEnv);
      if logsRepo.Err? {
        return Raised(logsRepo.error);
      }
      var dir := Render(id.logsDir);
      outcome := Confirm(dir, Render(Parent(id.logsDir)), Clone(logsRepo.value, id.projectPath, dir));
    }

    /** The prompt from `parent`, and what a `y` sets off. */
    method Confirm(dir: string, parent: string, clone: Argv) returns (outcome: Outcome)
      modifies this, git, files
      ensures Applied(Confirmed(dir, parent, clone, world.answer == "y"))
      ensures outcome == Exited(0)
    {
      cwd := Resolve(cwd, parent);
      stdout := stdout + ("rm -rf " + dir + " [y/N]: ");
      if world.answer == "y" {
        files.RemoveTree(Resolve(cwd, dir));
        var _ := git.Call(clone);
      }
      outcome := Exited(0);
    }

    method Subcommand(c: HistoryCommand, id: ProjectIdentity) returns (outcome: Outcome)
      modifies this, git, files
      ensures Applied(SubcommandEffects(c, id, world, git.status))
      ensures outcome == SubcommandEffects(c, id, world, git.status).outcome
    {
      var dir := Render(id.logsDir);
      match c
      case Show(rest) =>
        var args := ["show", "--pretty=format:", "--ext-diff"] + rest;
        var diff := map["GIT_EXTERNAL_DIFF" := ExternalDiff];
        assert SubcommandEffects(c, id, world, git.status) == Checked(args, git.status, diff, Some(dir));
        cwd := Resolve(cwd, dir);
        environ := environ + diff;
        outcome := Check(args);
      case PullLogs =>
        outcome := Pull(id);
      case Fix =>
        outcome := Reclone(id);
      case Git(rest) =>
        assert SubcommandEffects(c, id, world, git.status) == Checked(rest, git.status, map[], Some(dir));
        cwd := Resolve(cwd, dir);
        outcome := Check(rest);
      case Log(rest) =>
        var args := ["log", "--no-decorate", LogFormat] + rest;
        assert SubcommandEffects(c, id, world, git.status) == Checked(args, git.status, map[], Some(dir));
        cwd := Resolve(cwd, dir);
        outcome := Check(args);
    }
  }
}
