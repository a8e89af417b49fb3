/** The exceptions furo2 can raise, as values. */
module Failures {

  /** `UsageError` (furo2.py:217), `subprocess.CalledProcessError` from `check_call` and
      `check_output` (the git arguments and the exit status), the bare `Exception` that
      `get_logs_repo` raises when FURO_LOGS_REPOSITORY is unset or empty, and the
      error `script_command` raises on a platform other than darwin and linux. */
  datatype Failure =
    | UsageError
    | CalledProcessError(args: seq<string>, status: int)
    | LogsRepositoryNotSet
    | UnsupportedPlatform(platform: string)
}
