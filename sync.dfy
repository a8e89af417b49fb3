/** Uploading a log to the logs repository (furo2.py:124-154): the git commands
    `command_exec` issues in the project's logs directory, in order, and where a
    failing one stops it. */
module Sync {

  import opened Wrappers
  import opened Failures
  import opened Text

  /** The arguments of one git invocation, without the leading `git`. */
  type Argv = seq<string>

  const ConfigOriginUrl: Argv := ["config", "remote.origin.url"]
  const Init: Argv := ["init", "--quiet"]

  function RemoteAdd(repo: string): Argv { ["remote", "add", "origin", repo] }
  function Checkout(project: string): Argv { ["checkout", "--quiet", "-B", project] }
  function LsRemote(project: string): Argv { ["ls-remote", "--exit-code", "origin", project] }
  function Add(logFile: string): Argv { ["add", "--force", logFile] }
  function Commit(headline: string): Argv { ["commit", "--quiet", "--message", headline] }
  function Pull(project: string): Argv { ["pull", "--quiet", "--rebase", "origin", project] }
  function Push(project: string): Argv { ["push", "--quiet", "origin", project] }

  /** The git of the logs directory: the commands issued to it so far, and what it
      answers. Git is not run; its exit status for each command and the output of
      `config remote.origin.url` are fixed when the client is made. */
  class GitClient {
    var issued: seq<Argv>
    const status: Argv -> int
    const originUrl: string

    constructor (status: Argv -> int, originUrl: string)
      ensures this.issued == [] && this.status == status && this.originUrl == originUrl
    {
      this.issued := [];
      this.status := status;
      this.originUrl := originUrl;
    }

    /** Runs `git args` and reports its exit status. */
    method Call(args: Argv) returns (rc: int)
      modifies this
      ensures issued == old(issued) + [args]
      ensures rc == status(args)
    {
      issued := issued + [args];
      rc := status(args);
    }
  }

  // ---------------------------------------------------------------------------
  // The protocol as a plan of steps

  /** A step of the protocol: a git command, or an exception raised without one. */
  datatype Step = Issue(args: Argv) | Raise(failure: Failure)

  /** Whether an exit status lets the protocol go on: the remote query is inside
      `try … except CalledProcessError: pass`, `ls-remote --exit-code` also passes with
      2 (no such branch), and every other command is a `check_call`. */
  predicate Tolerated(args: Argv, rc: int) {
    if args == ConfigOriginUrl then true
    else if |args| >= 1 && args[0] == "ls-remote" then rc == 0 || rc == 2
    else rc == 0
  }

  /** Runs a plan until it ends or a step fails: the commands issued, and the exception
      that ends it, if any. */
  function Execute(plan: seq<Step>, status: Argv -> int): (r: (seq<Argv>, Option<Failure>))
    ensures |r.0| <= |plan|
  {
    if plan == [] then ([], None)
    else match plan[0]
      case Raise(f) => ([], Some(f))
      case Issue(args) =>
        if Tolerated(args, status(args)) then
          var rest := Execute(plan[1..], status);
          ([args] + rest.0, rest.1)
        else ([args], Some(CalledProcessError(args, status(args))))
  }

  /** The commands of a plan with no `Raise` step. */
  function Commands(plan: seq<Step>): seq<Argv>
  {
    if plan == [] then []
    else (if plan[0].Issue? then [plan[0].args] else []) + Commands(plan[1..])
  }

  /** A plan runs to its end exactly when it raises nothing and every command passes,
      and then it has issued all its commands. */
  lemma {:induction false} ExecuteCompletes(plan: seq<Step>, status: Argv -> int)
    ensures Execute(plan, status).1 == None
      <==> forall i :: 0 <= i < |plan| ==> plan[i].Issue? && Tolerated(plan[i].args, status(plan[i].args))
    ensures Execute(plan, status).1 == None ==> Execute(plan, status).0 == Commands(plan)
  {
    if plan != [] {
      ExecuteCompletes(plan[1..], status);
      if plan[0].Issue? && Tolerated(plan[0].args, status(plan[0].args)) {
        forall i | 1 <= i < |plan| ensures plan[i] == plan[1..][i - 1] { }
      }
    }
  }

  /** Running one plan after another is running the second only if the first ends
      without an exception. */
  lemma {:induction false} ExecuteAppend(p: seq<Step>, q: seq<Step>, status: Argv -> int)
    ensures Execute(p + q, status) ==
      (if Execute(p, status).1 == None
       then (Execute(p, status).0 + Execute(q, status).0, Execute(q, status).1)
       else Execute(p, status))
  {
    if p == [] {
      assert p + q == q;
      assert [] + Execute(q, status).0 == Execute(q, status).0;
    } else {
      assert (p + q)[0] == p[0] && (p + q)[1..] == p[1..] + q;
      ExecuteAppend(p[1..], q, status);
      if p[0].Issue? && Tolerated(p[0].args, status(p[0].args)) {
        var a := Execute(p[1..], status);
        if a.1 == None {
          assert [p[0].args] + (a.0 + Execute(q, status).0) == ([p[0].args] + a.0) + Execute(q, status).0;
        }
      }
    }
  }

  /** A failing step ends the run with it: the failing command is the last one issued,
      and the following steps issue nothing. */
  lemma {:induction false} ExecuteStops(p: seq<Step>, s: Step, q: seq<Step>, status: Argv -> int)
    requires Execute(p, status).1 == None
    requires s.Raise? || !Tolerated(s.args, status(s.args))
    ensures Execute(p + [s] + q, status) ==
      (if s.Raise? then (Execute(p, status).0, Some(s.failure))
       else (Execute(p, status).0 + [s.args], Some(CalledProcessError(s.args, status(s.args)))))
  {
    ExecuteAppend(p, [s] + q, status);
    assert p + [s] + q == p + ([s] + q);
    assert ([s] + q)[0] == s;
    if s.Raise? {
      assert Execute(p, status).0 + [] == Execute(p, status).0;
    }
  }

  /** One step of a run. */
  lemma ExecuteIssue(a: Argv, rest: seq<Step>, status: Argv -> int)
    ensures Execute([Issue(a)] + rest, status) ==
      (if Tolerated(a, status(a)) then ([a] + Execute(rest, status).0, Execute(rest, status).1)
       else ([a], Some(CalledProcessError(a, status(a)))))
  {
    assert ([Issue(a)] + rest)[0] == Issue(a);
    assert ([Issue(a)] + rest)[1..] == rest;
  }

  /** A run that has issued `done` and has `rest` still to go. */
  function Resume(done: seq<Argv>, rest: seq<Step>, status: Argv -> int): (seq<Argv>, Option<Failure>)
  {
    (done + Execute(rest, status).0, Execute(rest, status).1)
  }

  lemma Advance(done: seq<Argv>, a: Argv, rest: seq<Step>, status: Argv -> int)
    ensures Resume(done, [Issue(a)] + rest, status) ==
      (if Tolerated(a, status(a)) then Resume(done + [a], rest, status)
       else (done + [a], Some(CalledProcessError(a, status(a)))))
  {
    ExecuteIssue(a, rest, status);
    if Tolerated(a, status(a)) {
      assert done + ([a] + Execute(rest, status).0) == (done + [a]) + Execute(rest, status).0;
    }
  }

  /** A command other than the remote query and `ls-remote` passes only with status 0. */
  lemma Strict(a: Argv, rc: int)
    requires |a| != 2 && |a| >= 1 && |a[0]| != |"ls-remote"|
    ensures Tolerated(a, rc) <==> rc == 0
  {
  }

  /** Which exit statuses each command of the protocol lets pass. */
  lemma Tolerances(repo: string, project: string, logFile: string, headline: string, rc: int)
    ensures Tolerated(ConfigOriginUrl, rc)
    ensures Tolerated(Init, rc) <==> rc == 0
    ensures Tolerated(RemoteAdd(repo), rc) <==> rc == 0
    ensures Tolerated(Checkout(project), rc) <==> rc == 0
    ensures Tolerated(LsRemote(project), rc) <==> rc == 0 || rc == 2
    ensures Tolerated(Add(logFile), rc) <==> rc == 0
    ensures Tolerated(Commit(headline), rc) <==> rc == 0
    ensures Tolerated(Pull(project), rc) <==> rc == 0
    ensures Tolerated(Push(project), rc) <==> rc == 0
  {
    assert Init != ConfigOriginUrl by { assert Init[0] != ConfigOriginUrl[0] by { assert |Init[0]| != |ConfigOriginUrl[0]|; } }
    assert Push(project) != ConfigOriginUrl by { assert |Push(project)| != |ConfigOriginUrl|; }
    assert Checkout(project) != ConfigOriginUrl by { assert |Checkout(project)| != |ConfigOriginUrl|; }
    assert Commit(headline) != ConfigOriginUrl by { assert |Commit(headline)| != |ConfigOriginUrl|; }
    assert Pull(project) != ConfigOriginUrl by { assert |Pull(project)| != |ConfigOriginUrl|; }
    assert Add(logFile) != ConfigOriginUrl by { assert |Add(logFile)| != |ConfigOriginUrl|; }
    assert RemoteAdd(repo) != ConfigOriginUrl by { assert |RemoteAdd(repo)| != |ConfigOriginUrl|; }
    assert LsRemote(project) != ConfigOriginUrl by { assert |LsRemote(project)| != |ConfigOriginUrl|; }
    assert "init" != "ls-remote" && "remote" != "ls-remote" && "checkout" != "ls-remote";
    assert "add" != "ls-remote" && "commit" != "ls-remote" && "pull" != "ls-remote" && "push" != "ls-remote";
  }

  /** The steps before `checkout`: the remote query, and, if the logs directory has no
      remote yet, `init` and `remote add origin` with the logs repository (whose absence
      raises between the two). */
  function Setup(hasRemote: bool, logsRepo: Result<string, Failure>): seq<Step>
  {
    [Issue(ConfigOriginUrl)] + (if hasRemote then [] else InitSteps(logsRepo))
  }

  function InitSteps(logsRepo: Result<string, Failure>): seq<Step>
  {
    [Issue(Init)] + (if logsRepo.Ok? then [Issue(RemoteAdd(logsRepo.value))] else [Raise(logsRepo.error)])
  }

  /** The steps from `checkout` on: switch to the project's branch, ask whether the
      remote has it, commit the log, rebase onto the remote branch when there is one,
      and push. */
  function Publish(project: string, logFile: string, headline: string, hasBranch: bool): seq<Step>
  {
    CommitSteps(project, logFile, headline) + PushSteps(project, hasBranch)
  }

  function CommitSteps(project: string, logFile: string, headline: string): seq<Step>
  {
    [Issue(Checkout(project)), Issue(LsRemote(project)), Issue(Add(logFile)), Issue(Commit(headline))]
  }

  function PushSteps(project: string, hasBranch: bool): seq<Step>
  {
    (if hasBranch then [Issue(Pull(project))] else []) + [Issue(Push(project))]
  }

  /** Whether the logs directory already has a remote: `config remote.origin.url`
      succeeded with output that is not blank. */
  function HasRemote(status: Argv -> int, originUrl: string): bool {
    status(ConfigOriginUrl) == 0 && Strip(originUrl) != ""
  }

  /** `ls-remote --exit-code` found the project's branch. */
  function HasBranch(status: Argv -> int, project: string): bool {
    status(LsRemote(project)) == 0
  }

  /** What uploading a log does: the commands issued and the exception it ends with. */
  function Upload(status: Argv -> int, originUrl: string, logsRepo: Result<string, Failure>,
                  project: string, logFile: string, headline: string): (seq<Argv>, Option<Failure>)
  {
    Execute(Setup(HasRemote(status, originUrl), logsRepo)
            + Publish(project, logFile, headline, HasBranch(status, project)), status)
  }

  // ---------------------------------------------------------------------------
  // What an upload issues

  /** The commands of an upload that goes through. */
  function SuccessTrace(hasRemote: bool, repo: string, project: string, logFile: string,
                        headline: string, hasBranch: bool): seq<Argv>
  {
    [ConfigOriginUrl] + (if hasRemote then [] else [Init, RemoteAdd(repo)])
    + [Checkout(project), LsRemote(project), Add(logFile), Commit(headline)]
    + (if hasBranch then [Pull(project)] else []) + [Push(project)]
  }

  lemma SetupRuns(hasRemote: bool, logsRepo: Result<string, Failure>, status: Argv -> int)
    ensures var r := Execute(Setup(hasRemote, logsRepo), status);
      (r.1 == None <==> hasRemote || (logsRepo.Ok? && status(Init) == 0 && status(RemoteAdd(logsRepo.value)) == 0))
      && (r.1 == None ==> r.0 == [ConfigOriginUrl] + (if hasRemote then [] else [Init, RemoteAdd(logsRepo.value)]))
      && (!hasRemote ==> |r.0| >= 2 && r.0[..2] == [ConfigOriginUrl, Init])
      && (hasRemote ==> r.0 == [ConfigOriginUrl])
      && (!hasRemote && status(Init) == 0 && logsRepo.Err? ==> r == ([ConfigOriginUrl, Init], Some(logsRepo.error)))
      && (forall i :: 0 <= i < |r.0| ==>
            (r.0[i] == ConfigOriginUrl || r.0[i] == Init || (logsRepo.Ok? && r.0[i] == RemoteAdd(logsRepo.value))))
  {
    var repo := if logsRepo.Ok? then logsRepo.value else "";
    Tolerances(repo, "", "", "", status(ConfigOriginUrl));
    Tolerances(repo, "", "", "", status(Init));
    Tolerances(repo, "", "", "", status(RemoteAdd(repo)));
    var last := if logsRepo.Ok? then [Issue(RemoteAdd(logsRepo.value))] else [Raise(logsRepo.error)];
    var tail := if hasRemote then [] else [Issue(Init)] + last;
    assert Setup(hasRemote, logsRepo) == [Issue(ConfigOriginUrl)] + tail;
    ExecuteIssue(ConfigOriginUrl, tail, status);
    if !hasRemote {
      ExecuteIssue(Init, last, status);
      if logsRepo.Ok? {
        ExecuteIssue(RemoteAdd(repo), [], status);
      } else {
        assert last[0] == Raise(logsRepo.error);
        assert Execute(last, status) == ([], Some(logsRepo.error));
        assert [Init] + [] == [Init];
        assert [ConfigOriginUrl] + [Init] == [ConfigOriginUrl, Init];
      }
    }
  }

  lemma CommitStepsRun(project: string, logFile: string, headline: string, status: Argv -> int)
    ensures var r := Execute(CommitSteps(project, logFile, headline), status);
      (r.1 == None <==>
         (status(Checkout(project)) == 0
          && (status(LsRemote(project)) == 0 || status(LsRemote(project)) == 2)
          && status(Add(logFile)) == 0 && status(Commit(headline)) == 0))
      && (r.1 == None ==> r.0 == [Checkout(project), LsRemote(project), Add(logFile), Commit(headline)])
      && (status(Checkout(project)) == 0 && status(LsRemote(project)) != 0 && status(LsRemote(project)) != 2 ==>
            r == ([Checkout(project), LsRemote(project)],
                  Some(CalledProcessError(LsRemote(project), status(LsRemote(project))))))
  {
    Strict(Checkout(project), status(Checkout(project)));
    Tolerances("", project, logFile, headline, status(LsRemote(project)));
    Strict(Add(logFile), status(Add(logFile)));
    Strict(Commit(headline), status(Commit(headline)));
    var s3 := [Issue(Commit(headline))];
    var s2 := [Issue(Add(logFile))] + s3;
    var s1 := [Issue(LsRemote(project))] + s2;
    assert CommitSteps(project, logFile, headline) == [Issue(Checkout(project))] + s1;
    ExecuteIssue(Checkout(project), s1, status);
    ExecuteIssue(LsRemote(project), s2, status);
    ExecuteIssue(Add(logFile), s3, status);
    ExecuteIssue(Commit(headline), [], status);
    assert [Checkout(project)] + [LsRemote(project)] == [Checkout(project), LsRemote(project)];
  }

  lemma PushStepsRun(project: string, hasBranch: bool, status: Argv -> int)
    ensures var r := Execute(PushSteps(project, hasBranch), status);
      (r.1 == None <==> (hasBranch ==> status(Pull(project)) == 0) && status(Push(project)) == 0)
      && (r.1 == None ==> r.0 == (if hasBranch then [Pull(project)] else []) + [Push(project)])
      && (Push(project) in r.0 ==> r.0[|r.0| - 1] == Push(project))
  {
    Strict(Pull(project), status(Pull(project)));
    Strict(Push(project), status(Push(project)));
    ExecuteIssue(Push(project), [], status);
    if hasBranch {
      assert PushSteps(project, hasBranch) == [Issue(Pull(project))] + [Issue(Push(project))];
      ExecuteIssue(Pull(project), [Issue(Push(project))], status);
      assert Pull(project) != Push(project) by { assert "pull" != "push" by { assert "pull"[2] != "push"[2]; } }
    } else {
      assert PushSteps(project, hasBranch) == [Issue(Push(project))];
    }
  }

  /** An upload goes through exactly when every command of it passes, and then it has
      issued, in this order: the remote query, `init` and `remote add` when there was no
      remote, `checkout`, `ls-remote`, `add`, `commit`, `pull --rebase` when the branch
      exists, and `push`. */
  lemma UploadSucceeds(status: Argv -> int, originUrl: string, logsRepo: Result<string, Failure>,
                       project: string, logFile: string, headline: string)
    ensures var r := Upload(status, originUrl, logsRepo, project, logFile, headline);
      var hasRemote := HasRemote(status, originUrl);
      var hasBranch := HasBranch(status, project);
      (r.1 == None <==>
        (hasRemote || (logsRepo.Ok? && status(Init) == 0 && status(RemoteAdd(logsRepo.value)) == 0))
        && status(Checkout(project)) == 0 && (status(LsRemote(project)) == 0 || status(LsRemote(project)) == 2)
        && status(Add(logFile)) == 0 && status(Commit(headline)) == 0
        && (hasBranch ==> status(Pull(project)) == 0) && status(Push(project)) == 0)
      && (r.1 == None ==>
            r.0 == SuccessTrace(hasRemote, if hasRemote then "" else logsRepo.value, project, logFile, headline, hasBranch))
  {
    var hasRemote := HasRemote(status, originUrl);
    var hasBranch := HasBranch(status, project);
    ExecuteAppend(Setup(hasRemote, logsRepo), Publish(project, logFile, headline, hasBranch), status);
    ExecuteAppend(CommitSteps(project, logFile, headline), PushSteps(project, hasBranch), status);
    SetupRuns(hasRemote, logsRepo, status);
    CommitStepsRun(project, logFile, headline, status);
    PushStepsRun(project, hasBranch, status);
  }

  /** `init` is issued exactly when the logs directory had no remote, and a missing logs
      repository then ends the upload right after it. */
  lemma InitIffNoRemote(status: Argv -> int, originUrl: string, logsRepo: Result<string, Failure>,
                        project: string, logFile: string, headline: string)
    ensures var r := Upload(status, originUrl, logsRepo, project, logFile, headline);
      |r.0| >= 2 && r.0[0] == ConfigOriginUrl
      && (r.0[1] == Init <==> !HasRemote(status, originUrl))
      && (!HasRemote(status, originUrl) && status(Init) == 0 && logsRepo.Err? ==>
            r == ([ConfigOriginUrl, Init], Some(logsRepo.error)))
  {
    var hasRemote := HasRemote(status, originUrl);
    var hasBranch := HasBranch(status, project);
    ExecuteAppend(Setup(hasRemote, logsRepo), Publish(project, logFile, headline, hasBranch), status);
    ExecuteAppend(CommitSteps(project, logFile, headline), PushSteps(project, hasBranch), status);
    SetupRuns(hasRemote, logsRepo, status);
    CommitStepsRun(project, logFile, headline, status);
    var s := Execute(Setup(hasRemote, logsRepo), status);
    if hasRemote {
      assert s.1 == None;
      var c := Execute(CommitSteps(project, logFile, headline), status);
      assert c.0[0] == Checkout(project) by {
        var rest := CommitSteps(project, logFile, headline)[1..];
        ExecuteIssue(Checkout(project), rest, status);
        assert CommitSteps(project, logFile, headline) == [Issue(Checkout(project))] + rest;
      }
      assert Checkout(project) != Init by { assert |Checkout(project)| != |Init|; }
    }
  }

  /** When `ls-remote` fails with anything but 2, the upload ends there: nothing is added,
      committed, pulled or pushed. */
  lemma LsRemoteFailureStops(status: Argv -> int, originUrl: string, logsRepo: Result<string, Failure>,
                             project: string, logFile: string, headline: string)
    requires Execute(Setup(HasRemote(status, originUrl), logsRepo), status).1 == None
    requires status(Checkout(project)) == 0
    requires status(LsRemote(project)) != 0 && status(LsRemote(project)) != 2
    ensures var r := Upload(status, originUrl, logsRepo, project, logFile, headline);
      r.1 == Some(CalledProcessError(LsRemote(project), status(LsRemote(project))))
      && r.0[|r.0| - 1] == LsRemote(project)
      && Add(logFile) !in r.0 && Commit(headline) !in r.0 && Pull(project) !in r.0 && Push(project) !in r.0
  {
    var hasRemote := HasRemote(status, originUrl);
    var hasBranch := HasBranch(status, project);
    ExecuteAppend(Setup(hasRemote, logsRepo), Publish(project, logFile, headline, hasBranch), status);
    ExecuteAppend(CommitSteps(project, logFile, headline), PushSteps(project, hasBranch), status);
    SetupRuns(hasRemote, logsRepo, status);
    CommitStepsRun(project, logFile, headline, status);
    var r := Upload(status, originUrl, logsRepo, project, logFile, headline);
    var s := Execute(Setup(hasRemote, logsRepo), status).0;
    assert r.0 == s + [Checkout(project), LsRemote(project)];
    forall i | 0 <= i < |r.0|
      ensures r.0[i] != Add(logFile) && r.0[i] != Commit(headline) && r.0[i] != Pull(project) && r.0[i] != Push(project)
    {
      if i < |s| {
        assert r.0[i] == s[i];
      }
      Different(if logsRepo.Ok? then logsRepo.value else "", project, logFile, headline, r.0[i]);
    }
  }

  /** The commands that come before `add` differ from `add`, `commit`, `pull` and `push`:
      their first words differ. */
  lemma Different(repo: string, project: string, logFile: string, headline: string, a: Argv)
    requires a == ConfigOriginUrl || a == Init || a == RemoteAdd(repo) || a == Checkout(project) || a == LsRemote(project)
    ensures a != Add(logFile) && a != Commit(headline) && a != Pull(project) && a != Push(project)
  {
    var late := {"add", "commit", "pull", "push"};
    assert a[0] in {"config", "init", "remote", "checkout", "ls-remote"};
    assert "config" !in late && "init" !in late && "remote" !in late && "checkout" !in late && "ls-remote" !in late;
    assert Add(logFile)[0] in late && Commit(headline)[0] in late && Pull(project)[0] in late && Push(project)[0] in late;
  }

  lemma NoPushBeforePushSteps(hasRemote: bool, logsRepo: Result<string, Failure>,
                              project: string, logFile: string, headline: string, status: Argv -> int)
    ensures Push(project) !in Execute(Setup(hasRemote, logsRepo), status).0
    ensures Push(project) !in Execute(CommitSteps(project, logFile, headline), status).0
  {
    var repo := if logsRepo.Ok? then logsRepo.value else "";
    SetupRuns(hasRemote, logsRepo, status);
    var s := Execute(Setup(hasRemote, logsRepo), status).0;
    forall i | 0 <= i < |s| ensures s[i] != Push(project) {
      Different(repo, project, logFile, headline, s[i]);
    }
    var c := Execute(CommitSteps(project, logFile, headline), status).0;
    var s3 := [Issue(Commit(headline))];
    var s2 := [Issue(Add(logFile))] + s3;
    var s1 := [Issue(LsRemote(project))] + s2;
    assert CommitSteps(project, logFile, headline) == [Issue(Checkout(project))] + s1;
    ExecuteIssue(Checkout(project), s1, status);
    ExecuteIssue(LsRemote(project), s2, status);
    ExecuteIssue(Add(logFile), s3, status);
    ExecuteIssue(Commit(headline), [], status);
    assert c <= [Checkout(project), LsRemote(project), Add(logFile), Commit(headline)];
    Different(repo, project, logFile, headline, Checkout(project));
    Different(repo, project, logFile, headline, LsRemote(project));
    assert Push(project) != Add(logFile) by { assert |Push(project)| != |Add(logFile)|; }
    assert Push(project) != Commit(headline) by {
      assert Push(project)[0] != Commit(headline)[0] by { assert |"push"| != |"commit"|; }
    }
  }

  /** `push` is issued only as the last command of an upload. */
  lemma PushOnlyLast(status: Argv -> int, originUrl: string, logsRepo: Result<string, Failure>,
                     project: string, logFile: string, headline: string)
    ensures var r := Upload(status, originUrl, logsRepo, project, logFile, headline);
      Push(project) in r.0 ==> r.0[|r.0| - 1] == Push(project)
  {
    var hasRemote := HasRemote(status, originUrl);
    var hasBranch := HasBranch(status, project);
    ExecuteAppend(Setup(hasRemote, logsRepo), Publish(project, logFile, headline, hasBranch), status);
    ExecuteAppend(CommitSteps(project, logFile, headline), PushSteps(project, hasBranch), status);
    NoPushBeforePushSteps(hasRemote, logsRepo, project, logFile, headline, status);
    PushStepsRun(project, hasBranch, status);
  }

  lemma NoPullInSetup(hasRemote: bool, logsRepo: Result<string, Failure>, project: string, status: Argv -> int)
    ensures Pull(project) !in Execute(Setup(hasRemote, logsRepo), status).0
  {
    var repo := if logsRepo.Ok? then logsRepo.value else "";
    var s := Execute(Setup(hasRemote, logsRepo), status).0;
    SetupRuns(hasRemote, logsRepo, status);
    forall i | 0 <= i < |s| ensures s[i] != Pull(project) {
      Different(repo, project, "", "", s[i]);
    }
  }

  lemma NoPullInCommitSteps(project: string, logFile: string, headline: string, status: Argv -> int)
    ensures Pull(project) !in Execute(CommitSteps(project, logFile, headline), status).0
  {
    var c := Execute(CommitSteps(project, logFile, headline), status).0;
    var s3 := [Issue(Commit(headline))];
    var s2 := [Issue(Add(logFile))] + s3;
    var s1 := [Issue(LsRemote(project))] + s2;
    assert CommitSteps(project, logFile, headline) == [Issue(Checkout(project))] + s1;
    ExecuteIssue(Checkout(project), s1, status);
    ExecuteIssue(LsRemote(project), s2, status);
    ExecuteIssue(Add(logFile), s3, status);
    ExecuteIssue(Commit(headline), [], status);
    assert c <= [Checkout(project), LsRemote(project), Add(logFile), Commit(headline)];
    Different("", project, logFile, headline, Checkout(project));
    Different("", project, logFile, headline, LsRemote(project));
    assert Pull(project) != Add(logFile) by { assert |Pull(project)| != |Add(logFile)|; }
    assert Pull(project) != Commit(headline) by { assert |Pull(project)| != |Commit(headline)|; }
  }

  /** `pull --rebase` is issued exactly when the remote has the project's branch and
      everything up to `commit` passed, and then right after `commit`. */
  lemma PullOnlyAfterCommit(status: Argv -> int, originUrl: string, logsRepo: Result<string, Failure>,
                            project: string, logFile: string, headline: string)
    ensures var r := Upload(status, originUrl, logsRepo, project, logFile, headline);
      var before := Execute(Setup(HasRemote(status, originUrl), logsRepo) + CommitSteps(project, logFile, headline), status);
      (Pull(project) in r.0 <==> before.1 == None && HasBranch(status, project))
      && (Pull(project) in r.0 ==>
            |before.0| < |r.0| && r.0[..|before.0|] == before.0 && r.0[|before.0|] == Pull(project)
            && before.0 != [] && before.0[|before.0| - 1] == Commit(headline))
  {
    var hasRemote := HasRemote(status, originUrl);
    var hasBranch := HasBranch(status, project);
    var s := Setup(hasRemote, logsRepo);
    var c := CommitSteps(project, logFile, headline);
    var p := PushSteps(project, hasBranch);
    assert s + Publish(project, logFile, headline, hasBranch) == (s + c) + p;
    ExecuteAppend(s + c, p, status);
    ExecuteAppend(s, c, status);
    NoPullInSetup(hasRemote, logsRepo, project, status);
    NoPullInCommitSteps(project, logFile, headline, status);
    var before := Execute(s + c, status);
    if before.1 == None {
      SetupRuns(hasRemote, logsRepo, status);
      CommitStepsRun(project, logFile, headline, status);
      ExecuteIssue(Push(project), [], status);
      if hasBranch {
        assert p == [Issue(Pull(project))] + [Issue(Push(project))];
        ExecuteIssue(Pull(project), [Issue(Push(project))], status);
      } else {
        assert p == [Issue(Push(project))];
        assert Pull(project) != Push(project) by { assert Pull(project)[2] != Push(project)[2]; }
      }
    }
  }

  /** The upload as the source performs it, one git command at a time. */
  method Synchronise(git: GitClient, logsRepo: Result<string, Failure>,
                     project: string, logFile: string, headline: string)
    returns (failure: Option<Failure>)
    modifies git
    ensures var (cmds, f) := Upload(git.status, git.originUrl, logsRepo, project, logFile, headline);
      git.issued == old(git.issued) + cmds && failure == f
  {
    ExecuteAppend(Setup(HasRemote(git.status, git.originUrl), logsRepo),
                  Publish(project, logFile, headline, HasBranch(git.status, project)), git.status);
    failure := ConnectRemote(git, logsRepo);
    if failure.Some? {
      return;
    }
    ghost var mid := git.issued;
    failure := CommitAndPush(git, project, logFile, headline);
    assert git.issued == old(git.issued) + (mid[|old(git.issued)|..] + git.issued[|mid|..]);
  }

  /** The part of `Synchronise` up to `checkout`: make sure the logs directory is a
      repository with a remote. */
  method ConnectRemote(git: GitClient, logsRepo: Result<string, Failure>)
    returns (failure: Option<Failure>)
    modifies git
    ensures var (cmds, f) := Execute(Setup(HasRemote(git.status, git.originUrl), logsRepo), git.status);
      git.issued == old(git.issued) + cmds && failure == f
  {
    ghost var st := git.status;
    ghost var tail := if HasRemote(st, git.originUrl) then [] else InitSteps(logsRepo);
    assert Setup(HasRemote(st, git.originUrl), logsRepo) == [Issue(ConfigOriginUrl)] + tail;
    ExecuteIssue(ConfigOriginUrl, tail, st);
    Tolerances("", "", "", "", st(ConfigOriginUrl));

    var rc := git.Call(ConfigOriginUrl);
    var currentRemote := "";
    if rc == 0 {
      currentRemote := Strip(git.originUrl);
    }
    if currentRemote == "" {
      ghost var mid := git.issued;
      failure := InitRemote(git, logsRepo);
      assert git.issued == old(git.issued) + ([ConfigOriginUrl] + git.issued[|mid|..]);
    } else {
      failure := None;
    }
  }

  /** `init`, then `remote add origin` with the logs repository, which must be set. */
  method InitRemote(git: GitClient, logsRepo: Result<string, Failure>) returns (failure: Option<Failure>)
    modifies git
    ensures var (cmds, f) := Execute(InitSteps(logsRepo), git.status);
      git.issued == old(git.issued) + cmds && failure == f
  {
    ghost var st := git.status;
    ghost var last := if logsRepo.Ok? then [Issue(RemoteAdd(logsRepo.value))] else [Raise(logsRepo.error)];
    ExecuteIssue(Init, last, st);
    Tolerances("", "", "", "", st(Init));
    var rc := git.Call(Init);
    if rc != 0 {
      failure := Some(CalledProcessError(Init, rc));
      return;
    }
    if logsRepo.Err? {
      assert last[0] == Raise(logsRepo.error);
      assert [Init] + [] == [Init];
      failure := Some(logsRepo.error);
      return;
    }
    var repo := logsRepo.value;
    ExecuteIssue(RemoteAdd(repo), [], st);
    Tolerances(repo, "", "", "", st(RemoteAdd(repo)));
    rc := git.Call(RemoteAdd(repo));
    if rc != 0 {
      failure := Some(CalledProcessError(RemoteAdd(repo), rc));
      return;
    }
    assert [Init] + [RemoteAdd(repo)] == [Init, RemoteAdd(repo)];
    failure := None;
  }

  /** The part of `Synchronise` from `checkout` on. */
  method CommitAndPush(git: GitClient, project: string, logFile: string, headline: string)
    returns (failure: Option<Failure>)
    modifies git
    ensures var (cmds, f) := Execute(Publish(project, logFile, headline, HasBranch(git.status, project)), git.status);
      git.issued == old(git.issued) + cmds && failure == f
  {
    ExecuteAppend(CommitSteps(project, logFile, headline), PushSteps(project, HasBranch(git.status, project)), git.status);
    var hasBranch;
    hasBranch, failure := CommitLog(git, project, logFile, headline);
    if failure.Some? {
      return;
    }
    ghost var mid := git.issued;
    failure := PushLog(git, project, hasBranch);
    assert git.issued == old(git.issued) + (mid[|old(git.issued)|..] + git.issued[|mid|..]);
  }

  /** `checkout`, `ls-remote`, `add` and `commit`; whether the remote has the branch. */
  method CommitLog(git: GitClient, project: string, logFile: string, headline: string)
    returns (hasBranch: bool, failure: Option<Failure>)
    modifies git
    ensures var (cmds, f) := Execute(CommitSteps(project, logFile, headline), git.status);
      git.issued == old(git.issued) + cmds && failure == f
    ensures failure.None? ==> hasBranch == HasBranch(git.status, project)
  {
    ghost var query := [Issue(Checkout(project)), Issue(LsRemote(project))];
    ghost var record := [Issue(Add(logFile)), Issue(Commit(headline))];
    assert CommitSteps(project, logFile, headline) == query + record;
    ExecuteAppend(query, record, git.status);
    hasBranch, failure := QueryBranch(git, project);
    if failure.Some? {
      return;
    }
    ghost var mid := git.issued;
    failure := AddAndCommit(git, logFile, headline);
    assert git.issued == old(git.issued) + (mid[|old(git.issued)|..] + git.issued[|mid|..]);
  }

  /** `checkout` and `ls-remote`, whose status 2 only means the branch is missing. */
  method QueryBranch(git: GitClient, project: string) returns (hasBranch: bool, failure: Option<Failure>)
    modifies git
    ensures var (cmds, f) := Execute([Issue(Checkout(project)), Issue(LsRemote(project))], git.status);
      git.issued == old(git.issued) + cmds && failure == f
    ensures failure.None? ==> hasBranch == HasBranch(git.status, project)
  {
    ghost var st := git.status;
    ghost var afterCheckout := [Issue(LsRemote(project))];
    ghost var goal := Resume([], [Issue(Checkout(project))] + afterCheckout, st);
    assert [Issue(Checkout(project)), Issue(LsRemote(project))] == [Issue(Checkout(project))] + afterCheckout;
    assert [] + Execute([Issue(Checkout(project))] + afterCheckout, st).0
      == Execute([Issue(Checkout(project))] + afterCheckout, st).0;
    hasBranch := false;

    Advance([], Checkout(project), afterCheckout, st);
    Strict(Checkout(project), st(Checkout(project)));
    var rc := git.Call(Checkout(project));
    if rc != 0 {
      failure := Some(CalledProcessError(Checkout(project), rc));
      return;
    }
    ghost var done := [Checkout(project)];
    assert goal == Resume(done, afterCheckout, st);

    Advance(done, LsRemote(project), [], st);
    Tolerances("", project, "", "", st(LsRemote(project)));
    rc := git.Call(LsRemote(project));
    if rc == 0 {
      hasBranch := true;
    } else if rc != 2 {
      failure := Some(CalledProcessError(LsRemote(project), rc));
      return;
    }
    done := done + [LsRemote(project)];
    assert done + [] == done;
    failure := None;
  }

  /** `add --force` of the log file, then `commit` with the headline. */
  method AddAndCommit(git: GitClient, logFile: string, headline: string) returns (failure: Option<Failure>)
    modifies git
    ensures var (cmds, f) := Execute([Issue(Add(logFile)), Issue(Commit(headline))], git.status);
      git.issued == old(git.issued) + cmds && failure == f
  {
    ghost var st := git.status;
    ghost var afterAdd := [Issue(Commit(headline))];
    ghost var goal := Resume([], [Issue(Add(logFile))] + afterAdd, st);
    assert [Issue(Add(logFile)), Issue(Commit(headline))] == [Issue(Add(logFile))] + afterAdd;
    assert [] + Execute([Issue(Add(logFile))] + afterAdd, st).0
      == Execute([Issue(Add(logFile))] + afterAdd, st).0;

    Advance([], Add(logFile), afterAdd, st);
    Strict(Add(logFile), st(Add(logFile)));
    var rc := git.Call(Add(logFile));
    if rc != 0 {
      failure := Some(CalledProcessError(Add(logFile), rc));
      return;
    }
    ghost var done := [Add(logFile)];
    assert goal == Resume(done, afterAdd, st);

    Advance(done, Commit(headline), [], st);
    Strict(Commit(headline), st(Commit(headline)));
    rc := git.Call(Commit(headline));
    if rc != 0 {
      failure := Some(CalledProcessError(Commit(headline), rc));
      return;
    }
    done := done + [Commit(headline)];
    assert done + [] == done;
    failure := None;
  }

  /** `pull --rebase` when the remote has the branch, then `push`. */
  method PushLog(git: GitClient, project: string, hasBranch: bool)
    returns (failure: Option<Failure>)
    modifies git
    ensures var (cmds, f) := Execute(PushSteps(project, hasBranch), git.status);
      git.issued == old(git.issued) + cmds && failure == f
  {
    ghost var st := git.status;
    ghost var push := [Issue(Push(project))];
    ghost var goal := Resume([], PushSteps(project, hasBranch), st);
    assert [] + Execute(PushSteps(project, hasBranch), st).0 == Execute(PushSteps(project, hasBranch), st).0;
    assert goal == Execute(PushSteps(project, hasBranch), st);
    ghost var done: seq<Argv> := [];
    if hasBranch {
      assert PushSteps(project, hasBranch) == [Issue(Pull(project))] + push;
      Advance(done, Pull(project), push, st);
      Strict(Pull(project), st(Pull(project)));
      var rc := git.Call(Pull(project));
      if rc != 0 {
        failure := Some(CalledProcessError(Pull(project), rc));
        return;
      }
      done := done + [Pull(project)];
    } else {
      assert PushSteps(project, hasBranch) == push;
    }
    assert goal == Resume(done, push, st);

    Advance(done, Push(project), [], st);
    Strict(Push(project), st(Push(project)));
    var rc := git.Call(Push(project));
    if rc != 0 {
      failure := Some(CalledProcessError(Push(project), rc));
      return;
    }
    done := done + [Push(project)];
    assert done + [] == done;
    failure := None;
  }
}
