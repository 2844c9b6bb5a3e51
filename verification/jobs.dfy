/**
  Job status classification and the credential-refresh retry loop of the
  worker: `handleError` and the specification of `runJob`
  (src/kio_onedrive.cpp:98-137, 664-684).

  A job is run, the worker waits until it finishes, and `handleError` turns the
  status it finished with into Success, Fail or Restart. On Restart the job is
  bound again to the account manager's current account and run once more.
  What the backend answers to each run is given as a finite sequence of
  replies; the loop's results are stated relative to that sequence.
 */
module Jobs {
  import opened Wrappers

  /** The status codes a job finishes with; `OtherStatus` stands for every code
      the switch in `handleError` does not name. */
  datatype Status =
    | OK | NoError | AuthCancelled | AuthError | Unauthorized
    | Forbidden | NotFound | NoContent | QuotaExceeded
    | OtherStatus(code: int)

  /** What one run of a job finished with: `job.error()` and `job.errorString()`. */
  datatype Reply = Reply(status: Status, message: string)

  datatype Account = Account(name: string, accessToken: string)

  /** The account manager: `account(name)` and `refreshAccount(account)`, whose
      result is absent when the credentials could not be refreshed. */
  datatype AccountManager = AccountManager(
    account: string -> Account,
    refreshAccount: Account -> Option<Account>)

  /** `KIOOneDrive::Action`. */
  datatype Action = Success | Fail | Restart

  /** The KIO error codes the worker reports. */
  datatype KioError =
    | ErrCannotLogin | ErrAccessDenied | ErrDoesNotExist
    | ErrNoContent | ErrDiskFull | ErrSlaveDefined

  datatype Url = Url(scheme: string, path: string)

  /** The empty `QUrl` that `rootFolderId` runs its job with. */
  const NoUrl: Url := Url("", "")

  /** The text passed with an error: the URL it concerns, or a message. */
  datatype Subject = AtUrl(url: Url) | Text(text: string)

  /** One call of the worker's `error(code, text)`. */
  datatype ErrorReport = ErrorReport(code: KioError, subject: Subject)

  /** What `handleError` decides, and the error it reports on the way. */
  datatype Verdict = Verdict(action: Action, report: Option<ErrorReport>)

  predicate Succeeded(status: Status) {
    status == OK || status == NoError
  }

  /** `handleError` (src/kio_onedrive.cpp:98-137): `account` is the account the
      job ran with, which is what the refresh is asked about. */
  function HandleError(reply: Reply, account: Account, url: Url, mgr: AccountManager): (v: Verdict)
    ensures v.action == Success <==> Succeeded(reply.status)
    ensures v.action == Restart <==> reply.status == Unauthorized && mgr.refreshAccount(account).Some?
    ensures v.report.Some? <==> v.action == Fail
    ensures v.report == Some(ErrorReport(ErrCannotLogin, AtUrl(url))) <==>
              reply.status in {AuthCancelled, AuthError}
              || (reply.status == Unauthorized && mgr.refreshAccount(account).None?)
    ensures v.report == Some(ErrorReport(ErrAccessDenied, AtUrl(url))) <==> reply.status == Forbidden
    ensures v.report == Some(ErrorReport(ErrDoesNotExist, AtUrl(url))) <==> reply.status == NotFound
    ensures v.report == Some(ErrorReport(ErrNoContent, AtUrl(url))) <==> reply.status == NoContent
    ensures v.report == Some(ErrorReport(ErrDiskFull, AtUrl(url))) <==> reply.status == QuotaExceeded
    ensures v.report == Some(ErrorReport(ErrSlaveDefined, Text(reply.message))) <==> reply.status.OtherStatus?
  {
    match reply.status
    case OK | NoError => Verdict(Success, None)
    case AuthCancelled | AuthError => Verdict(Fail, Some(ErrorReport(ErrCannotLogin, AtUrl(url))))
    case Unauthorized =>
      if mgr.refreshAccount(account).None? then Verdict(Fail, Some(ErrorReport(ErrCannotLogin, AtUrl(url))))
      else Verdict(Restart, None)
    case Forbidden => Verdict(Fail, Some(ErrorReport(ErrAccessDenied, AtUrl(url))))
    case NotFound => Verdict(Fail, Some(ErrorReport(ErrDoesNotExist, AtUrl(url))))
    case NoContent => Verdict(Fail, Some(ErrorReport(ErrNoContent, AtUrl(url))))
    case QuotaExceeded => Verdict(Fail, Some(ErrorReport(ErrDiskFull, AtUrl(url))))
    case OtherStatus(_) => Verdict(Fail, Some(ErrorReport(ErrSlaveDefined, Text(reply.message))))
  }

  /** The account run `i` of a job is bound to: the one the job was created
      with, and after any restart the account manager's account for
      `accountId`. */
  function AccountAt(i: nat, first: Account, accountId: string, mgr: AccountManager): Account {
    if i == 0 then first else mgr.account(accountId)
  }

  /** Whether `handleError` answers this reply with Restart. */
  predicate Restarts(reply: Reply, account: Account, mgr: AccountManager) {
    reply.status == Unauthorized && mgr.refreshAccount(account).Some?
  }

  /** The supplied replies end the loop: the first run is not restarted
      after, or it is and the remaining replies, run with the account
      manager's account for `accountId`, end it. */
  predicate Settles(replies: seq<Reply>, first: Account, accountId: string, mgr: AccountManager)
    decreases |replies|
  {
    |replies| > 0
    && (Restarts(replies[0], first, mgr) ==> Settles(replies[1..], mgr.account(accountId), accountId, mgr))
  }

  /** How `runJob` ends: whether it succeeded, how many runs it took, the
      account the job is bound to at the end, and the error it reported. */
  datatype RunResult = RunResult(ok: bool, runs: nat, account: Account, report: Option<ErrorReport>)

  function Reported(report: Option<ErrorReport>): seq<ErrorReport> {
    if report.Some? then [report.value] else []
  }

  /** `runJob` (src/kio_onedrive.cpp:664-684) on the replies to its runs: run
      the job, and run it again bound to the account manager's account for
      `accountId` while `handleError` answers Restart. */
  function RunSpec(replies: seq<Reply>, first: Account, url: Url, accountId: string, mgr: AccountManager): (r: RunResult)
    requires Settles(replies, first, accountId, mgr)
    ensures 1 <= r.runs <= |replies|
    decreases |replies|
  {
    var v := HandleError(replies[0], first, url, mgr);
    if v.action != Restart then RunResult(v.action == Success, 1, first, v.report)
    else
      var r := RunSpec(replies[1..], mgr.account(accountId), url, accountId, mgr);
      r.(runs := r.runs + 1)
  }

  /** `runJob` stops at the first run `handleError` does not restart after,
      every run before it having been restarted after; it succeeds exactly
      when that run succeeded and reports what `handleError` reported for it. */
  lemma {:induction false} RunSpecStopsAtFirstSettledRun(replies: seq<Reply>, first: Account, url: Url, accountId: string, mgr: AccountManager)
    requires Settles(replies, first, accountId, mgr)
    ensures var r := RunSpec(replies, first, url, accountId, mgr);
      && (forall i :: 0 <= i < r.runs - 1 ==> Restarts(replies[i], AccountAt(i, first, accountId, mgr), mgr))
      && r.account == AccountAt(r.runs - 1, first, accountId, mgr)
      && !Restarts(replies[r.runs - 1], r.account, mgr)
      && (r.ok <==> Succeeded(replies[r.runs - 1].status))
      && r.report == HandleError(replies[r.runs - 1], r.account, url, mgr).report
    decreases |replies|
  {
    if Restarts(replies[0], first, mgr) {
      var next := mgr.account(accountId);
      RunSpecStopsAtFirstSettledRun(replies[1..], next, url, accountId, mgr);
      assert forall i :: 1 <= i < |replies| ==>
        replies[i] == replies[1..][i - 1]
        && AccountAt(i, first, accountId, mgr) == AccountAt(i - 1, next, accountId, mgr);
    }
  }

  /** One run of the loop: a run that is not restarted after ends it; a
      restart leaves the rest of the loop to the remaining replies. */
  lemma RunSpecStep(replies: seq<Reply>, first: Account, url: Url, accountId: string, mgr: AccountManager)
    requires Settles(replies, first, accountId, mgr)
    ensures var v := HandleError(replies[0], first, url, mgr);
      && (v.action != Restart ==> RunSpec(replies, first, url, accountId, mgr) == RunResult(v.action == Success, 1, first, v.report))
      && (v.action == Restart ==>
            && Settles(replies[1..], mgr.account(accountId), accountId, mgr)
            && var r := RunSpec(replies[1..], mgr.account(accountId), url, accountId, mgr);
               RunSpec(replies, first, url, accountId, mgr) == r.(runs := r.runs + 1))
  {
  }

  /** Only an Unauthorized reply whose account could be refreshed makes
      `runJob` run the job again; every other reply ends it. */
  lemma {:induction false} RerunOnlyAfterRefresh(replies: seq<Reply>, first: Account, url: Url, accountId: string, mgr: AccountManager)
    requires Settles(replies, first, accountId, mgr)
    ensures var r := RunSpec(replies, first, url, accountId, mgr);
      forall i :: 0 <= i < r.runs - 1 ==>
        replies[i].status == Unauthorized
        && mgr.refreshAccount(AccountAt(i, first, accountId, mgr)).Some?
    ensures var r := RunSpec(replies, first, url, accountId, mgr);
      r.ok <==> (forall i :: 0 <= i < r.runs - 1 ==> !Succeeded(replies[i].status)) && Succeeded(replies[r.runs - 1].status)
  {
    RunSpecStopsAtFirstSettledRun(replies, first, url, accountId, mgr);
  }

  /** Unauthorized, a successful refresh, then success: `runJob` succeeds after
      exactly two runs, the second bound to the account manager's account for
      `accountId` and not to the account the refresh returned. */
  lemma RetryAfterRefresh(first: Account, refreshed: Account, url: Url, accountId: string, mgr: AccountManager, m0: string, m1: string)
    requires mgr.refreshAccount(first) == Some(refreshed)
    ensures var replies := [Reply(Unauthorized, m0), Reply(OK, m1)];
      Settles(replies, first, accountId, mgr)
      && RunSpec(replies, first, url, accountId, mgr) == RunResult(true, 2, mgr.account(accountId), None)
  {
    var replies := [Reply(Unauthorized, m0), Reply(OK, m1)];
    assert !Restarts(replies[1], AccountAt(1, first, accountId, mgr), mgr);
  }

  /** Unauthorized and a failed refresh: `runJob` fails after one run and
      reports that it cannot log in. */
  lemma FailedRefreshIsLoginFailure(replies: seq<Reply>, first: Account, url: Url, accountId: string, mgr: AccountManager)
    requires |replies| > 0 && replies[0].status == Unauthorized
    requires mgr.refreshAccount(first).None?
    ensures Settles(replies, first, accountId, mgr)
    ensures RunSpec(replies, first, url, accountId, mgr)
      == RunResult(false, 1, first, Some(ErrorReport(ErrCannotLogin, AtUrl(url))))
  {
    assert !Restarts(replies[0], AccountAt(0, first, accountId, mgr), mgr);
  }
}
