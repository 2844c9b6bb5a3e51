/**
  The worker object of the OneDrive KIO worker (`KIOOneDrive`,
  src/kio_onedrive.h:106-108, src/kio_onedrive.cpp): its path cache, its
  memo of account root IDs and the errors it has reported, changed in place
  by `runJob`, `rootFolderId`, `resolveFileIdFromPath`, `listDir` and `del`.

  `RunJob` is proved to end as `Jobs.RunSpec` says for the replies still
  ahead of the job; `RootFolderId`, `ResolveFileIdFromPath`, `SearchChild`,
  `ListDir`, `ListChildren` and `CacheListed` are proved to end in exactly
  the state the matching function of the `Resolution` module computes from
  the state they started in, so every property proved there holds of the
  worker. `RemovePath` and `NewJob` state their new state directly.
 */
module Worker {
  import opened UrlHelper
  import opened Jobs
  import opened Resolution

  /** A backend job (`KMGraph2::Job`): the replies its runs finish with, the
      account it is bound to, and how many times it has run. */
  class Job {
    const replies: seq<Reply>
    var account: Account
    var runs: nat

    constructor (replies: seq<Reply>, account: Account)
      ensures this.replies == replies && this.account == account && runs == 0
    {
      this.replies := replies;
      this.account := account;
      runs := 0;
    }

    /** Runs the job until it finishes and answers the reply of that run. */
    method Exec() returns (reply: Reply)
      requires runs < |replies|
      modifies this`runs
      ensures reply == replies[old(runs)] && runs == old(runs) + 1
    {
      reply := replies[runs];
      runs := runs + 1;
    }

    /** `setAccount` followed by `restart`. */
    method Rebind(account: Account)
      modifies this`account
      ensures this.account == account
    {
      this.account := account;
    }
  }

  class OneDriveWorker {
    /** The account manager and the backend the worker talks to. */
    const env: Env
    /** `m_cache`: path to object ID. */
    var cache: map<string, string>
    /** `m_rootIds`: account name to the ID of its root folder. */
    var rootIds: map<string, string>
    /** The `error(code, text)` calls made so far. */
    var errors: seq<ErrorReport>
    /** The jobs issued so far, one entry per job created. */
    ghost var requests: seq<Request>

    ghost function Snapshot(): Session
      reads this
    {
      Session(cache, rootIds, errors, requests)
    }

    constructor (env: Env)
      ensures this.env == env
      ensures Snapshot() == Session(map[], map[], [], [])
    {
      this.env := env;
      cache := map[];
      rootIds := map[];
      errors := [];
      requests := [];
    }

    /** `runJob` (src/kio_onedrive.cpp:664-684): runs `job` until
        `handleError` answers Success or Fail, rebinding it to the account
        manager's account for `accountId` after every Restart. The replies
        still ahead of the job must settle: the source has no retry cap. */
    method RunJob(job: Job, url: Url, accountId: string) returns (ok: bool)
      requires job.runs <= |job.replies|
      requires Settles(job.replies[job.runs..], job.account, accountId, env.accounts)
      modifies this`errors, job
      ensures var r := RunSpec(old(job.replies[job.runs..]), old(job.account), url, accountId, env.accounts);
        && ok == r.ok
        && job.runs == old(job.runs) + r.runs
        && job.account == r.account
        && errors == old(errors) + Reported(r.report)
    {
      ghost var spec := RunSpec(job.replies[job.runs..], job.account, url, accountId, env.accounts);
      ghost var start := job.runs;
      while true
        invariant start <= job.runs <= |job.replies|
        invariant Settles(job.replies[job.runs..], job.account, accountId, env.accounts)
        invariant errors == old(errors)
        invariant var r := RunSpec(job.replies[job.runs..], job.account, url, accountId, env.accounts);
          spec == r.(runs := r.runs + (job.runs - start))
        decreases |job.replies| - job.runs
      {
        ghost var rest := job.replies[job.runs..];
        RunSpecStep(rest, job.account, url, accountId, env.accounts);
        var reply := job.Exec();
        var verdict := HandleError(reply, job.account, url, env.accounts);
        errors := errors + Reported(verdict.report);
        if verdict.action == Success {
          return true;
        } else if verdict.action == Fail {
          return false;
        }
        assert rest[1..] == job.replies[job.runs..];
        job.Rebind(env.accounts.account(accountId));
      }
    }

    /** Creates a job answered by `replies`, bound to the account manager's
        account for `accountId`, and records `request` as issued. */
    method NewJob(request: Request, replies: seq<Reply>, accountId: string) returns (job: Job)
      modifies this`requests
      ensures fresh(job)
      ensures job.replies == replies && job.account == env.accounts.account(accountId) && job.runs == 0
      ensures requests == old(requests) + [request]
    {
      job := new Job(replies, env.accounts.account(accountId));
      requests := requests + [request];
    }

    /** `rootFolderId` (src/kio_onedrive.cpp:388-409). */
    method RootFolderId(accountId: string) returns (id: string)
      requires env.Responsive()
      modifies this
      ensures (id, Snapshot()) == RootFolderIdSpec(env, old(Snapshot()), accountId)
    {
      if accountId in rootIds {
        return rootIds[accountId];
      }
      var response := env.backend.about(accountId);
      var job := NewJob(About(accountId), response.replies, accountId);
      assert job.replies[job.runs..] == response.replies;
      var ok := RunJob(job, NoUrl, accountId);
      if !ok {
        return "";
      }
      if response.rootFolderId.None? || response.rootFolderId.value == "" {
        return "";
      }
      rootIds := rootIds[accountId := response.rootFolderId.value];
      id := response.rootFolderId.value;
    }

    /** `resolveFileIdFromPath` (src/kio_onedrive.cpp:322-386). */
    method ResolveFileIdFromPath(path: string, flags: PathFlags) returns (id: string)
      requires env.Responsive()
      modifies this
      ensures (id, Snapshot()) == ResolveSpec(env, old(Snapshot()), path, flags)
      decreases |UrlPathComponents(path)|
    {
      if path == "" {
        return "";
      }
      id := IdForPath(cache, path);
      if id != "" {
        return;
      }
      var components := UrlPathComponents(path);
      if components == [] {
        return "";
      }
      if |components| == 1 || (|components| == 2 && components[1] == TrashName) {
        id := RootFolderId(components[0]);
        return;
      }
      ParentPathComponents(path);
      ResolveBySearch(env, old(Snapshot()), path, flags);
      var parentId := ResolveFileIdFromPath(ParentPath(path), PathIsFolder);
      if parentId == "" {
        return "";
      }
      id := SearchChild(path, components, parentId, flags);
    }

    /** The search step of `resolveFileIdFromPath` once the parent folder is
        known (src/kio_onedrive.cpp:356-385). */
    method SearchChild(path: string, components: seq<string>, parentId: string, flags: PathFlags) returns (id: string)
      requires env.Responsive()
      requires |components| >= 2 && components == UrlPathComponents(path)
      modifies this
      ensures (id, Snapshot()) == Resolution.SearchChild(env, old(Snapshot()), path, components, parentId, flags)
    {
      var query := SearchFilter(components, parentId, flags);
      var accountId := AccountFromPath(path);
      var response := env.backend.search(accountId, query);
      var job := NewJob(Search(accountId, query), response.replies, accountId);
      assert job.replies[job.runs..] == response.replies;
      var ok := RunJob(job, Url(Scheme, path), accountId);
      if !ok || response.items == [] {
        return "";
      }
      id := response.items[0].id;
      cache := cache[path := id];
    }

    /** `listDir` (src/kio_onedrive.cpp:411-467): finds the folder's ID, lists
        its children and caches each of them under the listed path. */
    method ListDir(url: Url) returns (outcome: ListOutcome)
      requires env.Responsive()
      modifies this
      ensures (outcome, Snapshot()) == ListDirSpec(env, old(Snapshot()), url)
    {
      var accountId := AccountFromPath(url.path);
      if accountId == "new-account" {
        return CreatingAccount;
      }
      var folderId: string;
      if IsRoot(url.path) {
        return ListingAccounts;
      } else if IsAccountRoot(url.path) {
        folderId := RootFolderId(accountId);
      } else {
        folderId := IdForPath(cache, url.path);
        if folderId == "" {
          folderId := ResolveFileIdFromPath(StripTrailingSlash(url.path), PathIsFolder);
        }
        if folderId == "" {
          errors := errors + [ErrorReport(ErrDoesNotExist, Text(url.path))];
          return FolderNotFound;
        }
      }
      assert (folderId, Snapshot()) == ListedFolderId(env, old(Snapshot()), url);
      outcome := ListChildren(url, folderId);
    }

    /** The listing step of `listDir` (src/kio_onedrive.cpp:440-459). */
    method ListChildren(url: Url, folderId: string) returns (outcome: ListOutcome)
      requires env.Responsive()
      modifies this
      ensures (outcome, Snapshot()) == Resolution.ListChildren(env, old(Snapshot()), url, folderId)
    {
      var accountId := AccountFromPath(url.path);
      var query := ListingQuery(folderId);
      var response := env.backend.search(accountId, query);
      var job := NewJob(Search(accountId, query), response.replies, accountId);
      assert job.replies[job.runs..] == response.replies;
      var _ := RunJob(job, url, accountId);
      CacheListed(url.path, response.items);
      return Listed(response.items);
    }

    /** The loop of `listDir` that caches every listed child under the listed
        path (src/kio_onedrive.cpp:450-459). */
    method CacheListed(dir: string, items: seq<RemoteFile>)
      modifies this`cache
      ensures cache == CacheChildren(old(cache), dir, items)
    {
      var i := 0;
      while i < |items|
        invariant 0 <= i <= |items|
        invariant cache == CacheChildren(old(cache), dir, items[..i])
      {
        var prefix := if dir != [] && dir[|dir| - 1] == Separator then dir else dir + [Separator];
        cache := cache[prefix + items[i].title := items[i].id];
        assert items[..i + 1][..i] == items[..i];
        i := i + 1;
      }
      assert items[..i] == items;
    }

    /** `m_cache.removePath(url.path())` in `del` (src/kio_onedrive.cpp:952). */
    method RemovePath(path: string)
      modifies this`cache
      ensures cache == old(cache) - {path}
    {
      cache := cache - {path};
    }
  }

  /** Two lookups of the same path through the worker: once the first has
      found an ID, the second answers it without issuing a job and without
      changing the worker. */
  method ResolveTwice(worker: OneDriveWorker, path: string) returns (first: string, second: string)
    requires worker.env.Responsive()
    modifies worker
    ensures first != "" ==> second == first
    ensures first != "" ==> worker.requests == ResolveSpec(worker.env, old(worker.Snapshot()), path, PathIsFolder).1.requests
  {
    first := worker.ResolveFileIdFromPath(path, PathIsFolder);
    ResolveIsIdempotent(worker.env, old(worker.Snapshot()), path, PathIsFolder, PathIsFile);
    second := worker.ResolveFileIdFromPath(path, PathIsFile);
  }
}
