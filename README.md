# furoshiki2 (`furo2`), modelled in Dafny

`furo2` runs a command under `script(1)` and records the terminal session. It writes the
session as a log file in a per-project logs directory, with a header saying what ran,
where and how it ended. It then commits and pushes that file to the project's branch of a
shared git "logs repository". `furo2 history` shows, pulls and repairs these logs.

All logic is in `furo2/furo2.py`. The model mirrors its structure, one module per concern:

- `Text`, `Paths` and `Wrappers`: the parts of Python's `str` and `pathlib.PurePosixPath` behaviour furo2 relies on. `Text` covers `strip`, `split`, `join` and UTF-8 encoding.
- `Project` (`_init_project`):
  - the logs root from `FURO_LOGS_DIR` or `~/.furo2/logs`;
  - the logs repository from `FURO_LOGS_REPOSITORY`;
  - the rewrite of the `origin` URL into a repository path;
  - the choice of the project path from `project.yml`;
  - the project's logs directory.
- `Shell`: `shlex.quote`, and a reader for the POSIX shell word syntax its output uses.
- `Script`: the `script(1)` argv for Linux and for Darwin, and what a shell makes of the Linux command line.
- `Record`: the timestamped log path, the seven-line header, the `---` separator and the appended transcript, the commit headline, and the files as a class updated by writes, appends and `rmtree`.
- `Sync`: the upload to the logs repository. It is a plan of git commands run fail-fast by a git client class. The client keeps a trace of the commands it was given and answers each with an exit status taken from a fixed function.
- `Cli`:
  - `run`, `command_exec`, `command_history`, `command_version` and `command_help`;
  - each invocation's effect on the environment, the working directory, the files, the output streams and the git trace;
  - how each invocation ends, and the process exit status.

What the program reads from outside is passed in as a `World` value:
- the platform and environment variables;
- the invoking repository's git answers;
- `project.yml`'s `project` value;
- the clock and the user name;
- furo2's version and the JSON encoder;
- the temporary file's name;
- the wrapped command's exit status and transcript;
- the answer typed at `fix`'s prompt.

What git answers in the logs directory comes from the `GitClient`.

## Model

| member | source | states |
|---|---|---|
| Project.ExpandUserRule | furo2/furo2.py:78 | `expanduser` changes only a leading `~`. Another path is kept as it is. `~/rest` becomes the home directory, without its trailing slashes, followed by `/rest`. A bare `~` becomes that directory, or `/` when nothing of it is left. |
| Project.LogsDirSetting | furo2/furo2.py:18 | The logs root setting is `FURO_LOGS_DIR` when it is set and non-empty, otherwise `~/.furo2/logs`. |
| Project.LogsRepository | furo2/furo2.py:21-25 | The logs repository is found exactly when `FURO_LOGS_REPOSITORY` is set and non-empty, and is then that value; otherwise the error is "not set". |
| Project.ProjectPath | furo2/furo2.py:68-76 | The project path is the configured `project` value when it is non-empty, else the repository path. |
| Project.InitProject | furo2/furo2.py:59-80 | A failing `rev-parse --show-toplevel` raises first. Next, a failing `config remote.origin.url` raises. Otherwise a project identity results, exactly when both git queries answered. |
| Project.RepoPathOfHttp | furo2/furo2.py:63-64 | `http(s)://p.git` becomes `p` when `p` has no `@`. |
| Project.RepoPathOfSsh | furo2/furo2.py:63-66 | `user@host:path.git` becomes `host/path`. |
| Project.SshAndHttpsAgree | furo2/furo2.py:63-66 | The SSH and HTTPS URLs of the same repository give the same repository path, e.g. `git@github.com:a/b.git` and `https://github.com/a/b.git` both give `github.com/a/b`. |
| Project.RepoPathSchemeThenSsh | furo2/furo2.py:64-66 | The scheme and `.git` are stripped before the SSH rewrite, so `https://user@host:path.git` also becomes `host/path`. |
| Project.RepoPathUnchanged | furo2/furo2.py:63-66 | Only a leading `http://` or `https://`, a final `.git` and the SSH form's `user@host:` are rewritten. A remote with no scheme, no final `.git` and no `@` anywhere is its own repository path, whatever `.git` it holds elsewhere. |
| Project.SshRewriteNeedsAt | furo2/furo2.py:65-66 | Without an `@` the SSH rewrite changes nothing. |
| Project.LogsDirUnderRoot | furo2/furo2.py:78 | The project's logs directory is the logs root extended by the project path's parts. An absolute project path replaces the root instead. |
| Paths.JoinPath | furo2/furo2.py:78 | `base / s` appends the parts of a relative `s` to `base`. An absolute `s` replaces `base`. |
| Paths.ParseRender | furo2/furo2.py:78 | Rendering a path with `str` and parsing the result gives the same path back. |
| Paths.ResolveFromParent | furo2/furo2.py:188-190 | After a move to `str(p.parent)`, looking up `str(p)` gives `p` itself when `p` is absolute. A relative `p` is looked up below its parent: for one part that is `./p`, the same place; for more parts it is a longer path than `p` named from the starting directory. |
| Text.StripTrims | furo2/furo2.py:60-63 | `strip()` gives a slice of the string with only whitespace before and after it, so nothing inside is removed. The result neither starts nor ends on whitespace, and an already trimmed string is unchanged. |
| Shell.Quote | furo2/furo2.py:38 | A quoted argument is non-empty. It is either the argument itself made of safe characters, or it is wrapped in single quotes. |
| Shell.QuoteAll | furo2/furo2.py:38 | There is one quoted word per argument, in order. |
| Shell.WordsOfQuoted | furo2/furo2.py:38-40 | For every argv, a shell splits the space-joined quoted arguments back into exactly those arguments. |
| Script.Linux | furo2/furo2.py:37-40 | The Linux argv has exactly five elements: `script`, `--quiet`, `--command`, then `sh -c "…"` around the joined quoted arguments, and the output file last. |
| Script.Darwin | furo2/furo2.py:43-44 | The Darwin argv is exactly `script -q out` followed by the command. |
| Script.ForPlatform | furo2/furo2.py:28-34 | `darwin` and `linux` choose their argv. Any other platform is an error naming it. |
| Script.QuotedArgumentShape | furo2/furo2.py:38 | Each quoted argument consists of safe characters only, or starts and ends with a single quote. |
| Script.DarwinInjective | furo2/furo2.py:43-44 | Different commands or output files give different Darwin argvs. |
| Script.LinuxRoundTrip | furo2/furo2.py:37-40 | Suppose no argument contains `'`, `"`, `$`, a backquote or a backslash. Then the Linux command line is read as `sh`, `-c` and the joined quoted arguments, and those are read back as exactly the command. |
| Script.LinuxSingleQuoteBreaks | furo2/furo2.py:37-40 | Without that condition the round trip fails. `echo it's` quotes its second word to `'it'"'"'s'`, whose first `"` ends the double quotes around the `sh -c` command. The command line `script` hands its shell then ends inside a single quote that never closes, so the shell reads no words from it at all. |
| Record.TimestampFile | furo2/furo2.py:90 | The file name `%H%M%S.%f.log` is always 17 characters. |
| Record.TimestampPathSplit | furo2/furo2.py:89-90 | The timestamp path splits at `/` into the zero-padded 4-digit year, 2-digit month, 2-digit day and the file name. |
| Record.TimestampPathRoundTrip | furo2/furo2.py:89-90 | Reading the fixed-width fields of the path back gives the timestamp, to the microsecond. |
| Record.TimestampPathInjective | furo2/furo2.py:89-90 | Distinct timestamps give distinct log paths. |
| Record.LogFileLocation | furo2/furo2.py:89-90 | The log file lies in the project's logs directory, below the year, month and day directories, which make up its parent. |
| Record.HeaderLines | furo2/furo2.py:106-113 | The header has exactly seven lines: `command`, `user`, `repoPath`, `projectPath`, `gitRevision`, `furoVersion`, `exitCode`. Each is its label followed by its value. |
| Record.HeaderRoundTrip | furo2/furo2.py:106-114 | When no value holds a newline, the header text, ending in its `---` line, is read back as the same header, exit code included. |
| Record.RecordRoundTrip | furo2/furo2.py:106-116 | When no header value holds a newline, splitting the log file after its `---` line gives exactly the header's bytes and the transcript, whatever the transcript's bytes. |
| Record.FileStore.WriteRecord | furo2/furo2.py:106-116 | The header is written and closed, then the transcript is appended. The file then holds exactly the header's text and the transcript, and no other file changes. |
| Record.Pruned | furo2/furo2.py:190 | After `rmtree(dir)` exactly the files not under `dir` remain, with unchanged contents. |
| Record.FileStore.RemoveTree | furo2/furo2.py:190 | Removing a directory leaves the pruned files, and records the removal. |
| Record.HeadlineSummary | furo2/furo2.py:135 | The headline is the command's words joined by single spaces, prefixed with `[failed] ` exactly when the exit code is not 0. This holds as long as the command line does not itself start with that marker. |
| Record.HeadlineAmbiguous | furo2/furo2.py:135 | A command line that does start with the marker gives the same headline as a failed command. |
| Sync.GitClient.Call | furo2/furo2.py:47-50 | A git call adds its argv to the trace and returns the exit status git answers. |
| Sync.Tolerances | furo2/furo2.py:124-154 | The remote query may fail. `ls-remote` passes with status 0 or 2. Every other command of the upload passes only with status 0. |
| Sync.ExecuteCompletes | furo2/furo2.py:124-154 | A fail-fast run of commands ends without an exception exactly when every step passes, and has then issued all its commands. |
| Sync.UploadSucceeds | furo2/furo2.py:124-154 | An upload goes through exactly when each command passes. It then issues, in order: the remote query; `init` and `remote add origin <logs repo>` when there was no remote; `checkout -B`, `ls-remote`, `add`, `commit`; `pull --rebase` when the branch exists; `push`. |
| Sync.InitIffNoRemote | furo2/furo2.py:124-133 | `init` follows the remote query exactly when the logs directory had no remote. A missing logs repository then stops the upload right after `init`. |
| Sync.LsRemoteFailureStops | furo2/furo2.py:139-146 | An `ls-remote` status other than 0 or 2 is raised. It is the last command issued, and no `add`, `commit`, `pull` or `push` follows. |
| Sync.PullOnlyAfterCommit | furo2/furo2.py:151-152 | `pull --rebase` is issued exactly when the branch exists and everything up to `commit` passed. When issued, it comes right after `commit`. |
| Sync.PushOnlyLast | furo2/furo2.py:154 | `push` is only ever the last command of an upload. |
| Sync.Synchronise | furo2/furo2.py:124-154 | The upload, one git call at a time, issues exactly the upload plan's commands and ends with its exception. |
| Cli.Locate | furo2/furo2.py:87 | Locating the project succeeds exactly when the invoking repository answers both git queries. |
| Cli.ExitStatus | furo2/furo2.py:159 | The exit status is `sys.exit`'s code modulo 256, always in 0..255 and so the non-negative remainder for a negative code too, and 1 for an uncaught exception. |
| Cli.UsageExactly | furo2/furo2.py:208-236 | No arguments, an unknown command, or `exec` with nothing to run print exactly the usage text to standard error and exit 129, doing nothing else. Every other invocation writes nothing of furo2's own to standard error. |
| Cli.ExecCaught | furo2/furo2.py:225-236 | `run()` gives `exec` the effects of `command_exec`, with a `UsageError` turned into the usage message and exit code 129. |
| Cli.ExecNeverUsage | furo2/furo2.py:83-85 | `command_exec` raises `UsageError` only for an empty command, and writes nothing to standard error. |
| Cli.HistoryQuiet | furo2/furo2.py:162-201 | `history` writes nothing to standard error. |
| Cli.UploadFailures | furo2/furo2.py:124-154 | An upload fails only with a git error or the missing logs repository. |
| Cli.HistoryUnknownIsLog | furo2/furo2.py:165-201 | `history` with a word that is no subcommand drops the word. It runs `git log --no-decorate` with the rest, in the logs directory. |
| Cli.ExecSucceeds | furo2/furo2.py:83-159 | A normal `exec` does the following: <br>• it writes the record to the timestamped file, with the command's exit code in the header; <br>• it sets `FURO=1` and launches the platform's `script` argv; <br>• it moves to the logs directory and issues the upload's git commands. <br>When the upload goes through, it exits with the command's exit code (as status modulo 256) after the full upload trace. |
| Cli.ExecUploadFailure | furo2/furo2.py:106-159 | A failing upload ends `exec` with that exception, so the process exits 1 whatever the command returned. The record has been written by then. |
| Cli.ExecUnsupportedPlatform | furo2/furo2.py:28-34 | On an unsupported platform the error is raised after `FURO` is set, and nothing is launched, written or committed. |
| Cli.FixReclones | furo2/furo2.py:186-195 | `history fix` moves to the parent directory and prompts on standard output. On `y` it removes the logs directory and clones it afresh, ignoring a failing clone and exiting 0. Any other answer changes nothing else. |
| Cli.FixRemovalTarget | furo2/furo2.py:188-190 | The directory `fix` removes on `y` is looked up after the move to the parent. With an absolute logs directory it is exactly the logs directory. With a relative one it is the parent's path joined with the logs path, which for two or more parts is longer than the logs directory's own path from the starting directory. |
| Cli.Furo.Run | furo2/furo2.py:221-236 | A run of the process changes its environment, directory, launches, streams, git trace and files exactly as the run's effects say, and ends with their outcome. Each directory move and each file written or removed is looked up from the working directory current at that step. |
| Cli.Furo.Perform | furo2/furo2.py:221-236 | Each top-level command applies its effects: help, exec, history and version. |
| Cli.Furo.ExecOrUsage | furo2/furo2.py:225-236 | `exec` applies `command_exec`'s effects, with the usage message instead of `UsageError`. |
| Cli.Furo.Exec | furo2/furo2.py:83-92 | `command_exec` in order: the empty-command guard, then locating the project, then `rev-parse HEAD`, then the launch. |
| Cli.Furo.Launch | furo2/furo2.py:94-101 | Sets `FURO`, then builds and launches the wrapper argv, or raises for an unsupported platform. |
| Cli.Furo.Record | furo2/furo2.py:103-159 | Writes the header and transcript to the log path looked up from the starting directory, then moves to the logs directory, uploads, and ends with the command's exit code or the upload's exception. Nothing else changes. |
| Cli.Furo.Check | furo2/furo2.py:47-50 | `check_call`: one git command issued, and a non-zero status raised. |
| Cli.Furo.History | furo2/furo2.py:162-168 | Locates the project, then runs the chosen subcommand. |
| Cli.Furo.Subcommand | furo2/furo2.py:170-201 | `show` sets `GIT_EXTERNAL_DIFF` and runs `git show --ext-diff` in the logs directory. `git` passes its arguments through, and `log` is the default. |
| Cli.Furo.Pull | furo2/furo2.py:174-185 | `history pull` pulls the project's branch in the logs directory, or clones it there when the directory is missing. |
| Cli.Furo.Reclone | furo2/furo2.py:186-195 | `history fix` needs the logs repository before anything else changes, then confirms. |
| Cli.Furo.Confirm | furo2/furo2.py:188-195 | Moves to the logs directory's parent and prompts. On `y` it removes the logs path as looked up from there, then issues the clone. It exits 0 whatever the clone answers. |

## Left out

- Processes, files and the terminal are not run. The model leaves out:
  - `subprocess`, `script(1)` and the `git` binary. Git's exit statuses and the output of `config remote.origin.url` are fixed functions of the `GitClient`. The invoking repository's git answers are part of the `World`.
  - `mkdir` of the log's parent directory, and the `mkdir` of the project logs directory's parent by `history pull`.
  - The temporary file itself and its `unlink`. Its name and its contents, the transcript, are `World` values.
  - `os.chdir` into a directory that does not exist, and `shutil.rmtree` of a missing directory. The `FileNotFoundError` either raises is not modelled. With a relative logs root, `fix` removes a path below the parent (Cli.FixRemovalTarget). The directory is usually not there, and the real `rmtree` would raise and exit 1, where the model prunes whatever lies under that path, usually nothing, and goes on to the clone.
  - The `git add` of a relative log path after the move into the logs directory. Git's answer comes from the `GitClient`'s status function, which is not derived from the files, so the model does not show that the path names nothing there.
- `FURO_DEBUG`: the `>>> RUN` lines written to standard error are not modelled. `err` holds only what furo2 writes in the model: the usage message.
- The interpreter's traceback for an uncaught exception is not part of `err`. An uncaught exception is the outcome `Raised`, with exit status 1.
- Cli.ExecHeader: `json.dumps` is a `World` parameter, so nothing is proved about the JSON encoding of the command.
- The value of `furo2.version`: furo2/__init__.py is not part of this model, so the version is a `World` string.
- Project.ProjectPath: `project.yml` is not parsed. Its `project` value is an optional string, and non-string YAML values are not modelled.
- Paths.Parse: a leading `//` is collapsed to `/`, whereas `PurePosixPath` keeps exactly two leading slashes. `..` parts are kept as they are, as `PurePosixPath` does.
- Paths.Resolve: a relative name is looked up by textual joining below the working directory. `.`, `..` and symbolic links are not resolved, so two strings naming one directory count as two paths.
- Project.LogsRoot: `~user/...` expansion for other users is not modelled. Only a leading `~` or `~/` uses the home directory.
- Text.Utf8: the header is written with UTF-8. A locale with another text encoding is not modelled.
- Record.TimestampFile: the year is always padded to four digits. CPython's `%Y` for years below 1000 depends on the platform.
- Script.LinuxRoundTrip: the round trip holds only for arguments without `'`, `"`, `$`, backquote or backslash. The arguments' single quotes sit inside the double quotes of `sh -c "…"`, and Script.LinuxSingleQuoteBreaks gives an input where it fails. The shell reader also stops at `$`, backquote and backslash inside double quotes instead of expanding them. `script --command` runs its line with the user's `$SHELL`. The model reads that line with POSIX `sh` word rules, which a non-POSIX shell need not follow.
- Record.HeaderRoundTrip: holds only when no header value contains a newline. A user name, path or revision with one would break the line layout.
- Record.RecordRoundTrip: holds only when no header value contains a newline. The source writes such values unchanged, for instance a multi-line `project` value from `project.yml`. A value line that reads `---` then ends the header early when the file is split.
- The answer at `fix`'s prompt is always a string. `input()` on a closed standard input raises `EOFError`, which would exit 1, and that is not modelled.
- The unsupported-platform branch raises a string, which Python 3 turns into a `TypeError`. The model has only the error outcome `UnsupportedPlatform`.
- The exit status of a failing upload: the wrapped command's exit code does not survive a failed upload. In the code, the git error raises out of `command_exec` before `sys.exit`, so the model exits 1 (Cli.ExecUploadFailure).
- setup.py: packaging metadata, no behaviour.
