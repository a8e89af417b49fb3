/** Project resolution (`_init_project`, furo2.py:59-80, and the settings read at
    furo2.py:18-25): the repository path derived from the origin URL, the project
    path, and the directory the project's logs live in. */
module Project {

  import opened Wrappers
  import opened Failures
  import opened Text
  import opened Paths

  // ---------------------------------------------------------------------------
  // Settings from the environment

  const DefaultLogsDir := "~/.furo2/logs"

  /** `os.getenv('FURO_LOGS_DIR') or '~/.furo2/logs'`: unset and empty both fall back. */
  function LogsDirSetting(env: Option<string>): (r: string)
    ensures (env.Some? && env.value != "") ==> r == env.value
    ensures (env.None? || env.value == "") ==> r == DefaultLogsDir
  {
    match env
    case Some(v) => if v != "" then v else DefaultLogsDir
    case None => DefaultLogsDir
  }

  /** `home.rstrip('/')`. */
  function StripTrailingSlashes(home: string): (r: string)
    ensures HasPrefix(home, r)
    ensures r == [] || r[|r| - 1] != '/'
    ensures forall i :: |r| <= i < |home| ==> home[i] == '/'
  {
    if home != [] && home[|home| - 1] == '/' then StripTrailingSlashes(home[..|home| - 1]) else home
  }

  /** `os.path.expanduser(path)` with `home` for the current user's home directory:
      a leading `~` (alone or before a slash) becomes the home directory without its
      trailing slashes, and an empty result becomes `/`. */
  function ExpandUser(path: string, home: string): string
  {
    if HasPrefix(path, "~") && (|path| == 1 || path[1] == '/') then
      var r := StripTrailingSlashes(home) + path[1..];
      if r == "" then "/" else r
    else path
  }

  /** `expanduser` touches only a leading `~` standing for the current user: another
      path is kept, `~/rest` becomes the home directory without its trailing slashes
      followed by `/rest`, and a bare `~` becomes that directory, or `/` when nothing
      of it remains (a home directory of `/`). */
  lemma ExpandUserRule(path: string, home: string)
    ensures !HasPrefix(path, "~") ==> ExpandUser(path, home) == path
    ensures ExpandUser("~/" + path, home) == StripTrailingSlashes(home) + "/" + path
    ensures StripTrailingSlashes(home) != "" ==> ExpandUser("~", home) == StripTrailingSlashes(home)
    ensures StripTrailingSlashes(home) == "" ==> ExpandUser("~", home) == "/"
  {
    var t := "~/" + path;
    assert HasPrefix(t, "~") && t[1] == '/' && t[1..] == "/" + path;
    assert HasPrefix("~", "~");
  }

  /** `Path(os.path.expanduser(logs_dir))`, the root under which every project's logs live. */
  function LogsRoot(env: Option<string>, home: string): PosixPath
  {
    Parse(ExpandUser(LogsDirSetting(env), home))
  }

  /** `get_logs_repo()`: the shared logs repository, which must be set and not empty. */
  function LogsRepository(env: Option<string>): (r: Result<string, Failure>)
    ensures r.Ok? <==> env.Some? && env.value != ""
    ensures r.Ok? ==> r.value == env.value
    ensures r.Err? ==> r.error == LogsRepositoryNotSet
  {
    match env
    case Some(v) => if v != "" then Ok(v) else Err(LogsRepositoryNotSet)
    case None => Err(LogsRepositoryNotSet)
  }

  // ---------------------------------------------------------------------------
  // The origin URL as a path

  /** `re.sub(r'^https?://|\.git$', '', url)`, first half: the scheme, matched only at
      the very start. */
  function DropScheme(url: string): string
  {
    if HasPrefix(url, "https://") then url[8..]
    else if HasPrefix(url, "http://") then url[7..]
    else url
  }

  /** Second half: a `.git` at the end. Python's `$` also matches just before a final
      newline, which is then kept. The `.git` cannot overlap the scheme, so the two
      alternatives are removed independently. */
  function DropGitSuffix(s: string): string
  {
    if HasSuffix(s, ".git") then s[..|s| - 4]
    else if HasSuffix(s, ".git\n") then s[..|s| - 5] + "\n"
    else s
  }

  /** `[a-zA-Z0-9_]` */
  predicate IsUserChar(c: char) {
    ('a' <= c <= 'z') || ('A' <= c <= 'Z') || ('0' <= c <= '9') || c == '_'
  }

  /** `[a-zA-Z0-9._-]` */
  predicate IsHostChar(c: char) {
    IsUserChar(c) || c == '.' || c == '-'
  }

  predicate AllUserChars(s: string) {
    forall i :: 0 <= i < |s| ==> IsUserChar(s[i])
  }

  predicate AllHostChars(s: string) {
    forall i :: 0 <= i < |s| ==> IsHostChar(s[i])
  }

  /** `re.sub(r'^[a-zA-Z0-9_]+@([a-zA-Z0-9._-]+):(.*)$', r'\1/\2', s)`. The user part
      is everything before the first `@` and the host everything between it and the
      next `:` (neither class contains its terminator, so the regular expression has
      no other way to match); `.*` cannot cross a newline, and `$` holds at the end
      or before a final newline. */
  function SshRewrite(s: string): string
  {
    var at := IndexOf(s, '@');
    if at == 0 || at == |s| || !AllUserChars(s[..at]) then s
    else
      var t := s[at + 1..];
      var colon := IndexOf(t, ':');
      if colon == 0 || colon == |t| || !AllHostChars(t[..colon]) then s
      else
        var path := t[colon + 1..];
        if IndexOf(path, '\n') + 1 < |path| then s
        else t[..colon] + "/" + path
  }

  /** `repo_path` (furo2.py:64-66): scheme and `.git` removed first, then the SSH form rewritten. */
  function RepoPath(url: string): string
  {
    SshRewrite(DropGitSuffix(DropScheme(url)))
  }

  /** `project_path` (furo2.py:68-76): the `project` value of project.yml when it is a
      non-empty string, the repository path otherwise. `config` is `None` when there is
      no project.yml or no `project` key in it. */
  function ProjectPath(config: Option<string>, repoPath: string): (r: string)
    ensures (config == Some(r) && r != "") || ((config.None? || config.value == "") && r == repoPath)
  {
    match config
    case Some(p) => if p != "" then p else repoPath
    case None => repoPath
  }

  // ---------------------------------------------------------------------------
  // _init_project

  /** What a git query in the invoking repository gave: its output, or its non-zero exit status. */
  datatype GitOutput = Output(text: string) | Failed(status: int)

  /** The invoking repository's answers to `rev-parse --show-toplevel`,
      `config remote.origin.url` and `rev-parse HEAD`. */
  datatype SourceRepo = SourceRepo(toplevel: GitOutput, originUrl: GitOutput, head: GitOutput)

  datatype ProjectIdentity = ProjectIdentity(repoPath: string, projectPath: string, logsDir: PosixPath)

  /** `_init_project()`: either git query failing raises its CalledProcessError; the
      top-level directory only locates project.yml, whose `project` value is `config`. */
  function InitProject(src: SourceRepo, config: Option<string>, root: PosixPath): (r: Result<ProjectIdentity, Failure>)
    ensures src.toplevel.Failed? ==> r == Err(CalledProcessError(["rev-parse", "--show-toplevel"], src.toplevel.status))
    ensures src.toplevel.Output? && src.originUrl.Failed? ==> r == Err(CalledProcessError(["config", "remote.origin.url"], src.originUrl.status))
    ensures r.Ok? <==> src.toplevel.Output? && src.originUrl.Output?
  {
    match src.toplevel
    case Failed(code) => Err(CalledProcessError(["rev-parse", "--show-toplevel"], code))
    case Output(_) =>
      match src.originUrl
      case Failed(code) => Err(CalledProcessError(["config", "remote.origin.url"], code))
      case Output(url) =>
        var repoPath := RepoPath(Strip(url));
        var projectPath := ProjectPath(config, repoPath);
        Ok(ProjectIdentity(repoPath, projectPath, JoinPath(root, projectPath)))
  }

  // ---------------------------------------------------------------------------
  // Properties

  lemma NotUserChar(s: string, c: char)
    requires AllUserChars(s) && !IsUserChar(c)
    ensures c !in s
  {
  }

  lemma NotHostChar(s: string, c: char)
    requires AllHostChars(s) && !IsHostChar(c)
    ensures c !in s
  {
  }

  /** The SSH form `user@host:path` is rewritten to `host/path`. */
  lemma SshRewriteOf(user: string, host: string, path: string)
    requires user != "" && AllUserChars(user)
    requires host != "" && AllHostChars(host)
    requires '\n' !in path
    ensures SshRewrite(user + "@" + host + ":" + path) == host + "/" + path
  {
    var t := host + ":" + path;
    var s := user + "@" + host + ":" + path;
    assert s == user + ['@'] + t;
    NotUserChar(user, '@');
    IndexOfAfter(user, '@', t);
    assert s[..|user|] == user;
    assert s[|user| + 1..] == t;
    NotHostChar(host, ':');
    assert t == host + [':'] + path;
    IndexOfAfter(host, ':', path);
    assert t[..|host|] == host;
    assert t[|host| + 1..] == path;
  }

  /** Without an `@` the SSH rewrite leaves its input alone. */
  lemma SshRewriteNeedsAt(s: string)
    requires '@' !in s
    ensures SshRewrite(s) == s
  {
  }

  lemma DropGitSuffixOf(s: string)
    ensures DropGitSuffix(s + ".git") == s
  {
    assert (s + ".git")[..|s|] == s;
  }

  lemma DropSchemeOf(s: string)
    ensures DropScheme("https://" + s) == s
    ensures DropScheme("http://" + s) == s
  {
    var a := "https://" + s;
    assert a[..8] == "https://" && a[8..] == s;
    var b := "http://" + s;
    assert b[4] == ':';
    assert b[..7] == "http://" && b[7..] == s;
  }

  /** A URL over HTTP or HTTPS loses its scheme and its `.git`. */
  lemma RepoPathOfHttp(p: string)
    requires '@' !in p
    ensures RepoPath("https://" + p + ".git") == p
    ensures RepoPath("http://" + p + ".git") == p
  {
    DropSchemeOf(p + ".git");
    assert "https://" + p + ".git" == "https://" + (p + ".git");
    assert "http://" + p + ".git" == "http://" + (p + ".git");
    DropGitSuffixOf(p);
  }

  /** A string that starts with user characters and an `@` has no `http://` or `https://` prefix. */
  lemma NoSchemeBeforeAt(user: string, rest: string)
    requires AllUserChars(user)
    ensures DropScheme(user + "@" + rest) == user + "@" + rest
  {
    var s := user + "@" + rest;
    assert s[|user|] == '@';
    if |user| > 4 {
      assert s[4] == user[4] && IsUserChar(user[4]);
    }
    if |user| > 5 {
      assert s[5] == user[5] && IsUserChar(user[5]);
    }
    assert !HasPrefix(s, "http://") && !HasPrefix(s, "https://");
  }

  /** An SSH remote `user@host:path.git` gives `host/path`: the `.git` strip runs before the rewrite. */
  lemma RepoPathOfSsh(user: string, host: string, path: string)
    requires user != "" && AllUserChars(user)
    requires host != "" && AllHostChars(host)
    requires '\n' !in path
    ensures RepoPath(user + "@" + host + ":" + path + ".git") == host + "/" + path
  {
    var core := user + "@" + host + ":" + path;
    assert core + ".git" == user + "@" + (host + ":" + path + ".git");
    NoSchemeBeforeAt(user, host + ":" + path + ".git");
    DropGitSuffixOf(core);
    SshRewriteOf(user, host, path);
  }

  /** The scheme is removed before the SSH rewrite, so an SSH form behind a scheme is rewritten too. */
  lemma RepoPathSchemeThenSsh(user: string, host: string, path: string)
    requires user != "" && AllUserChars(user)
    requires host != "" && AllHostChars(host)
    requires '\n' !in path
    ensures RepoPath("https://" + user + "@" + host + ":" + path + ".git") == host + "/" + path
  {
    var core := user + "@" + host + ":" + path;
    assert "https://" + user + "@" + host + ":" + path + ".git" == "https://" + (core + ".git");
    DropSchemeOf(core + ".git");
    DropGitSuffixOf(core);
    SshRewriteOf(user, host, path);
  }

  /** Only a leading `http://` or `https://` and a final `.git` are removed: a remote
      with neither, and without the `@` of the SSH form, is its own repository path,
      whatever `.git` it holds elsewhere (`github.com/a.git/b` stays as it is). */
  lemma RepoPathUnchanged(s: string)
    requires '@' !in s
    requires !HasPrefix(s, "http://") && !HasPrefix(s, "https://")
    requires !HasSuffix(s, ".git") && !HasSuffix(s, ".git\n")
    ensures RepoPath(s) == s
  {
    SshRewriteNeedsAt(s);
  }

  /** The SSH remote `user@host:path.git` and the HTTPS remote `https://host/path.git`
      of one repository give the same path, `host/path` (`git@github.com:a/b.git` and
      `https://github.com/a/b.git` both give `github.com/a/b`). */
  lemma SshAndHttpsAgree(user: string, host: string, path: string)
    requires user != "" && AllUserChars(user)
    requires host != "" && AllHostChars(host)
    requires '\n' !in path && '@' !in path
    ensures RepoPath(user + "@" + host + ":" + path + ".git") == host + "/" + path
    ensures RepoPath("https://" + host + "/" + path + ".git") == host + "/" + path
  {
    RepoPathOfSsh(user, host, path);
    HttpsOfHostPath(host, path);
  }

  lemma HttpsOfHostPath(host: string, path: string)
    requires AllHostChars(host) && '@' !in path
    ensures RepoPath("https://" + host + "/" + path + ".git") == host + "/" + path
  {
    NotHostChar(host, '@');
    var p := host + "/" + path;
    assert '@' !in p by {
      forall i | 0 <= i < |p| ensures p[i] != '@' {
        if i < |host| { assert p[i] == host[i]; }
        else if i > |host| { assert p[i] == path[i - |host| - 1]; }
      }
    }
    assert "https://" + host + "/" + path + ".git" == "https://" + p + ".git";
    RepoPathOfHttp(p);
  }

  /** The logs directory is the logs root followed by the project path; an absolute
      project path from project.yml replaces the root altogether. */
  lemma LogsDirUnderRoot(src: SourceRepo, config: Option<string>, root: PosixPath)
    requires InitProject(src, config, root).Ok?
    ensures var id := InitProject(src, config, root).value;
      && (!HasPrefix(id.projectPath, "/") ==> id.logsDir.absolute == root.absolute && id.logsDir.parts == root.parts + Parse(id.projectPath).parts)
      && (HasPrefix(id.projectPath, "/") ==> id.logsDir == Parse(id.projectPath))
  {
  }
}
