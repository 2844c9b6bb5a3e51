# OneDrive KIO worker: path addressing, job retry and path-to-ID resolution

This project models the core of the OneDrive KIO worker (`KIOOneDrive`) and proves properties of that model. The worker serves `onedrive:` URLs in KDE's file dialogs. A URL's path names an account and then folders and files inside it. The worker maps each path to the ID of the remote object behind it, and it keeps the answers in a path cache and in a memo of each account's root folder ID.

The model is in six modules:

- `Wrappers` (`wrappers.dfy`) holds `Option`.
- `UrlHelper` (`urlhelper.dfy`) models `src/urlhelper.cpp`: path components, account, root and account-root tests, and the parent path the URL tests pin down. The functions are pure, and the lemmas prove the split/join round trip and that the classification is exhaustive. The rows of `autotests/urltest.cpp` are lemmas here.
- `Jobs` (`jobs.dfy`) models two things:
  - `handleError`, as a function from a job's status to Success, Fail or Restart plus the error it reports;
  - `runJob`, specified as a function over the replies that the job's successive runs finish with.
- `Resolution` (`resolution.dfy`) holds the search queries and the session state: path cache, root IDs, reported errors and issued requests. It states `rootFolderId`, `resolveFileIdFromPath` and the cache part of `listDir` as functions of that state. The lemmas prove the following properties:
  - memoisation, idempotence and cache frames;
  - failure propagation from a parent to its children;
  - what a listing leaves in the cache.
- `Worker` (`worker.dfy`) holds the worker as a class whose fields change in place:
  - the `runJob` loop is proved to end as `Jobs.RunSpec` says;
  - `rootFolderId`, the recursive `resolveFileIdFromPath`, and `listDir` with its caching loop are each proved to end in exactly the state their `Resolution` function computes;
  - `del`'s cache removal (`RemovePath`) states its new cache directly, as the old cache without the deleted path;
  - `NewJob`, which creates a job and records its request, also states its result directly.
- `ParentRefs` (`parentrefs.dfy`) models `rename`'s loop, which swaps the source folder's parent reference for the destination folder's.

The remote backend and the account manager are parameters (`Env`). For each request the backend gives:

- the finite sequence of replies the job's runs finish with;
- the data the job fetched.

The source's `runJob` has no retry cap. It ends only when a run is not answered with Restart, so the model's contracts assume that the supplied replies reach such a run (`Settles`, `Env.Responsive`). Two lemmas also assume that the backend answers a search only with objects its query selects (`Env.SearchesMatch`). Under that assumption they tie what a resolution or a listing answers to the query's meaning.

In two places that are easy to misread, the model follows the code and its tests:

- The parent path of an account root is `/`, as `autotests/urltest.cpp:48-52` pins it. The empty string is the parent path only of the root.
- A second Unauthorized in a row is not a hard failure. `runJob` restarts after every Unauthorized whose account refresh succeeds, with no cap (`src/kio_onedrive.cpp:664-684`).

## Model

| member | source | states |
|---|---|---|
| UrlHelper.Split | src/urlhelper.cpp:32-35 | every part of a split path is a non-empty run of characters without a separator |
| UrlHelper.PathComponents | src/urlhelper.cpp:32-35 | `Split` of the path; its properties are stated by `Split`, `SplitAround`, `SplitComponent`, `SplitJoin` and `SplitEmptyIff` |
| UrlHelper.StripTrailingSlash | src/urlhelper.cpp:37-40 | the result is a prefix of the path, only separators were dropped, it ends in a separator only when it is the single `/`, and it is empty only for the empty path |
| UrlHelper.UrlPathComponents | src/urlhelper.cpp:37-40 | the components after stripping trailing separators; `StripKeepsComponents` proves they equal those of the unstripped path |
| UrlHelper.IsRoot | src/urlhelper.cpp:42-45 | no component; `Classification` proves this holds exactly for the all-separator paths |
| UrlHelper.IsAccountRoot | src/urlhelper.cpp:47-50 | exactly one component; `Classification` proves it excludes the root and that the component is the account |
| UrlHelper.ParentPath | autotests/urltest.cpp:42-75 | "" for the root, otherwise `/` and every component but the last joined with `/`; `ParentPathComponents` and `RootedJoinComponents` state its components and normal form |
| UrlHelper.AccountFromPath | src/urlhelper.cpp:23-30 | the account is empty exactly when the path has no component, and otherwise it is the first component |
| UrlHelper.SplitAround | src/urlhelper.cpp:32-35 | a separator splits a path into two halves whose components are concatenated |
| UrlHelper.SplitComponent | src/urlhelper.cpp:32-35 | a single component splits into itself |
| UrlHelper.SplitJoin | src/urlhelper.cpp:32-35 | splitting the `/`-join of a component list gives the list back |
| UrlHelper.RootedRoundTrip | src/urlhelper.cpp:32-35 | splitting `/` followed by the `/`-join of a component list gives the list back |
| UrlHelper.SeparatorsInsignificant | src/urlhelper.cpp:32-35 | leading, trailing and doubled separators do not change the components |
| UrlHelper.SplitEmptyIff | src/urlhelper.cpp:32-35 | a path has no component exactly when it consists only of separators |
| UrlHelper.StripKeepsComponents | src/urlhelper.cpp:32-40 | both overloads of `pathComponents` give the same components: stripping trailing separators changes none |
| UrlHelper.Classification | src/urlhelper.cpp:23-50 | root and account root exclude each other; every path is root, account root or has at least two components; root holds exactly the all-separator paths; an account root's only component is its account |
| UrlHelper.ParentPathComponents | autotests/urltest.cpp:42-75 | the parent path has every component but the last, is empty exactly for the root, and has no trailing separator |
| UrlHelper.RootedJoinNoTrailingSeparator | autotests/urltest.cpp:42-75 | a normalised path is left unchanged by stripping trailing separators |
| UrlHelper.JoinLastChar | autotests/urltest.cpp:42-75 | the `/`-join of a non-empty component list does not end in a separator |
| UrlHelper.RootedJoinComponents | autotests/urltest.cpp:42-75 | the normalised path of a component list has those components, the first as its account, and the list without its last element as its parent |
| UrlHelper.RootedJoinPair | autotests/urltest.cpp:54-64 | the path `/a/b` has components `[a, b]`, account `a` and parent `/a` |
| UrlHelper.RootedJoinTriple | autotests/urltest.cpp:71-75 | the path `/a/b/c` has components `[a, b, c]`, account `a` and parent `/a/b` |
| UrlHelper.StripOneSeparator | autotests/urltest.cpp:65-69 | one trailing separator after a path that ends in none is stripped |
| UrlHelper.TestNamesAreComponents | autotests/urltest.cpp:42-75 | the account, folder and file names of the test rows are components |
| UrlHelper.UrlTestRoot | autotests/urltest.cpp:42-46 | the root URL has no components, an empty account and an empty parent, and is the root |
| UrlHelper.UrlTestAccountRoot | autotests/urltest.cpp:48-52 | `/foo@outlook.com` has one component, is an account root, names that account and has parent `/` |
| UrlHelper.UrlTestFileInAccountRoot | autotests/urltest.cpp:54-58 | `/foo@outlook.com/bar.txt` has the account and file as components and parent `/foo@outlook.com` |
| UrlHelper.UrlTestFolderInAccountRoot | autotests/urltest.cpp:60-69 | `/foo@outlook.com/bar` has the same components and parent with and without a trailing separator |
| UrlHelper.UrlTestFileInSubfolder | autotests/urltest.cpp:71-75 | `/foo@outlook.com/bar/baz.txt` has three components, the account, and parent `/foo@outlook.com/bar` |
| Jobs.HandleError | src/kio_onedrive.cpp:98-137 | Success exactly for OK and NoError; Restart exactly for Unauthorized with a successful refresh; an error exactly on Fail; and, in both directions, which status yields which KIO error code and text |
| Jobs.RunSpec | src/kio_onedrive.cpp:664-684 | the loop takes at least one run and no more runs than there are replies |
| Jobs.RunSpecStopsAtFirstSettledRun | src/kio_onedrive.cpp:664-684 | the loop ends at the first run not answered with Restart, every earlier run was, runs after the first are bound to the account manager's account, and success and the reported error are those of the last run |
| Jobs.RerunOnlyAfterRefresh | src/kio_onedrive.cpp:110-117 | every run that is repeated ended Unauthorized with a successful refresh; the loop succeeds exactly when no earlier run succeeded and the last one did |
| Jobs.RetryAfterRefresh | src/kio_onedrive.cpp:664-684 | Unauthorized with a successful refresh and then OK succeeds after two runs, bound to the account manager's account |
| Jobs.FailedRefreshIsLoginFailure | src/kio_onedrive.cpp:110-116 | Unauthorized with a failed refresh fails after one run and reports that login is impossible |
| Resolution.SearchFilter | src/kio_onedrive.cpp:356-364 | the query has a type condition exactly when a flag is given, and an object matches exactly when its title, parent, trash state and folder-or-not type are the ones asked for |
| Resolution.MimeTypeTest | src/kio_onedrive.cpp:357-361 | with no flag there is no condition; a folder flag selects the folder MIME type and a file flag selects every other type |
| Resolution.LocationTest | src/kio_onedrive.cpp:362-364 | an object matches exactly when it has the title, lists the parent and has the trash state |
| Resolution.MatchesConcat | src/kio_onedrive.cpp:356-364 | adding query conditions selects the objects that satisfy both parts |
| Resolution.ListingQuery | src/kio_onedrive.cpp:440-442 | an object matches exactly when it is not trashed and lists the folder as a parent |
| Resolution.IdForPath | src/kio_onedrive.cpp:330 | the cached ID of the path, or "" when the path is not cached |
| Resolution.RootFolderIdSpec | src/kio_onedrive.cpp:388-409 | `rootFolderId` on the session; its properties are stated by `RootFolderIdFrame` and `RootFolderIdMemoises` |
| Resolution.RootFolderIdFrame | src/kio_onedrive.cpp:388-409 | the cache is untouched; a non-empty answer is memoised, other memos are kept and only non-empty IDs are added; a memo hit changes nothing; a miss issues exactly one "about" request, reports the job's error, and answers the fetched root ID when the job succeeded and "" when it failed or fetched none |
| Resolution.RootFolderIdMemoises | src/kio_onedrive.cpp:388-409 | once a root ID has been answered, asking again answers it with no request and no change |
| Resolution.ResolveSpec | src/kio_onedrive.cpp:322-386 | `resolveFileIdFromPath` on the session; its properties are stated by `ResolveRequests`, `ResolveCacheFrame`, `ResolveRootIds`, `ResolveIsIdempotent`, `CacheHitIssuesNoRequest`, `AccountRootResolvesToRootId`, `FailedParentPoisonsChild`, `MissingPathIsSearched` and `SearchAnswersMatchingObject` |
| Resolution.SearchChild | src/kio_onedrive.cpp:356-385 | the search step on the session; its properties are stated by `SearchChildFrame` |
| Resolution.SearchChildFrame | src/kio_onedrive.cpp:356-385 | the search step issues exactly one search for the last component under the parent, keeps the root IDs, and reports the job's error; it answers the first object's ID and caches it under the path when the job succeeded and found something, and otherwise answers "" and leaves the cache unchanged |
| Resolution.ResolveRequests | src/kio_onedrive.cpp:322-386 | a resolution only appends requests, at most one per path component |
| Resolution.ResolveCacheFrame | src/kio_onedrive.cpp:322-386 | cached IDs are never dropped or changed; the keys written are the path and its ancestors below the account root; an account root writes none; a failed path holds no ID afterwards |
| Resolution.CacheOneMore | src/kio_onedrive.cpp:382 | caching the path after its ancestors keeps the earlier IDs and changes only lineage keys |
| Resolution.ResolveRootIds | src/kio_onedrive.cpp:322-386 | a resolution keeps every memoised root ID and adds only non-empty ones |
| Resolution.LineageOfParent | src/kio_onedrive.cpp:350 | the ancestors of the parent path are ancestors of the path, and the path is not among them |
| Resolution.ResolveIsIdempotent | src/kio_onedrive.cpp:326-334 | after a successful resolution, resolving the same path again with any flag answers the same ID and changes nothing |
| Resolution.EmptyPathResolvesToNothing | src/kio_onedrive.cpp:326-328 | the empty path resolves to "" and leaves the session, requests included, unchanged |
| Resolution.CacheHitIssuesNoRequest | src/kio_onedrive.cpp:330-334 | a cache hit answers the cached ID and leaves the session as it was |
| Resolution.AccountRootResolvesToRootId | src/kio_onedrive.cpp:343-346 | an account root or an account's trash resolves as `rootFolderId` of the account and caches nothing |
| Resolution.FailedParentPoisonsChild | src/kio_onedrive.cpp:350-354 | when the parent fails to resolve, the child fails with the parent's outcome and issues no search of its own |
| Resolution.MissingPathIsSearched | src/kio_onedrive.cpp:356-385 | an uncached path under a resolved parent issues exactly one search; it answers the ID of the search's first object when the job succeeded and found something, and "" otherwise; the answer is cached under the path, and a failed or empty search leaves the cache unchanged |
| Resolution.SearchAnswersMatchingObject | src/kio_onedrive.cpp:356-385 | when the backend returns only matching objects, an ID found by search belongs to an object titled with the last component, with the parent folder among its parents, trashed exactly when the path is in the trash, and of the flagged type |
| Resolution.ChildPath | src/kio_onedrive.cpp:457-458 | the listed path and the title joined by exactly one separator; `ChildPathComponents`, `ChildPathNormalised` and `ChildPathInjective` state its properties |
| Resolution.ChildPathComponents | src/kio_onedrive.cpp:457-458 | the key of a listed child has the folder's components plus the title |
| Resolution.ChildPathNormalised | src/kio_onedrive.cpp:457-458 | for a normalised folder path the key of a listed child is the child's normalised path |
| Resolution.ChildPathTrailingSeparator | src/kio_onedrive.cpp:457-458 | a folder path written with a trailing separator gets no second one: the child key is still the child's normalised path |
| Resolution.JoinAppend | src/kio_onedrive.cpp:457 | joining one more component appends a separator and the component |
| Resolution.CacheChildren | src/kio_onedrive.cpp:450-459 | the cache after inserting every listed child in order; `CacheChildrenContents` states what it holds |
| Resolution.CacheChildrenContents | src/kio_onedrive.cpp:450-459 | after the listing loop every listed child's key holds the ID of the last listed item with that title, and every other key is as before |
| Resolution.ChildPathInjective | src/kio_onedrive.cpp:457-458 | different titles get different keys in the same folder |
| Resolution.ListedFolderId | src/kio_onedrive.cpp:425-437 | the root ID for an account root; otherwise the path's cached ID, or else the stripped path resolved as a folder |
| Resolution.ListChildren | src/kio_onedrive.cpp:440-459 | one listing job whose result is not checked, followed by caching every child it fetched |
| Resolution.ListDirSpec | src/kio_onedrive.cpp:411-467 | `listDir` on the session; its properties are stated by `ListDirCachesChildren` and `ListedChildrenAreInFolder` |
| Resolution.ListDirCachesChildren | src/kio_onedrive.cpp:411-467 | after a listing every listed child's key holds its ID; a folder not found caches nothing beyond its resolution and ends by reporting DOES_NOT_EXIST for the path |
| Resolution.ListedChildrenAreInFolder | src/kio_onedrive.cpp:440-450 | the root is never listed; when the backend returns only matching objects, every listed child is untrashed and lists the resolved folder as a parent |
| Resolution.RemovePathKeepsOthers | src/kio_onedrive.cpp:952 | after `del` the deleted path holds no ID and every other cached key keeps its own |
| Worker.Job.constructor | src/kio_onedrive.cpp:367 | a new job holds its replies and account and has not run |
| Worker.Job.Exec | src/kio_onedrive.cpp:669-672 | running the job yields the reply of the current run and counts the run |
| Worker.Job.Rebind | src/kio_onedrive.cpp:679-680 | the job is bound to the given account |
| Worker.OneDriveWorker.constructor | src/kio_onedrive.h:106-108 | a new worker has an empty cache, no root IDs, no errors and no requests |
| Worker.OneDriveWorker.RunJob | src/kio_onedrive.cpp:664-684 | the loop ends with the success, the number of runs, the bound account and the reported error that `RunSpec` gives for the replies still ahead |
| Worker.OneDriveWorker.NewJob | src/kio_onedrive.cpp:392 | the new job is bound to the account manager's account and its request is recorded |
| Worker.OneDriveWorker.RootFolderId | src/kio_onedrive.cpp:388-409 | the answer and the new state are those of `RootFolderIdSpec` |
| Worker.OneDriveWorker.ResolveFileIdFromPath | src/kio_onedrive.cpp:322-386 | the answer and the new state are those of `ResolveSpec` |
| Worker.OneDriveWorker.SearchChild | src/kio_onedrive.cpp:356-385 | the answer and the new state are those of `Resolution.SearchChild` |
| Worker.OneDriveWorker.ListDir | src/kio_onedrive.cpp:411-467 | the outcome and the new state are those of `ListDirSpec` |
| Worker.OneDriveWorker.ListChildren | src/kio_onedrive.cpp:440-459 | the outcome and the new state are those of `Resolution.ListChildren` |
| Worker.OneDriveWorker.CacheListed | src/kio_onedrive.cpp:450-459 | the cache after the loop is the old cache with every listed child inserted in order |
| Worker.OneDriveWorker.RemovePath | src/kio_onedrive.cpp:952 | the cache loses exactly the deleted path's key |
| Worker.ResolveTwice | src/kio_onedrive.cpp:326-334 | after a successful resolution, a second one through the worker answers the same ID and issues no further request |
| ParentRefs.FirstRef | src/kio_onedrive.cpp:1022-1032 | the position found references the folder, and no earlier reference does |
| ParentRefs.FirstRefFindsFirstMatch | src/kio_onedrive.cpp:1022-1032 | a reference with no earlier match is the one found |
| ParentRefs.EraseOne | src/kio_onedrive.cpp:1027 | erasing one position takes exactly one copy of its element out of the list |
| ParentRefs.ReplaceParent | src/kio_onedrive.cpp:1022-1040 | DOES_NOT_EXIST for the source path exactly when no reference is to the source folder; otherwise the first such reference is removed, the rest keep their order, and the destination folder is appended |

## Left out

- The event loop, the network and the remote API are left out. Each job's outcome comes from `Env`, as the replies to its runs plus the fetched data.
- Jobs.RunSpec, Worker.OneDriveWorker.RunJob: the source loops forever when every refresh succeeds and the backend keeps answering Unauthorized. The model requires that the supplied replies settle, so that never-ending case is not described.
- `kdemain`, the worker's constructor arguments, `openConnection`, `fileSystemFreeSpace`, content transfer (`get`, `put`, `putUpdate`, `putCreate`), `stat`, `mimetype`, `mkdir`, `copy`, the UDS entries and the rest of `del` and `rename` are not part of this model. Of `del` only the cache removal is modelled, and of `rename` only the parent-reference swap.
- `createAccount` and `listAccounts` are not part of this model. `listDir` ends with `CreatingAccount` or `ListingAccounts` where it calls them.
- `PathCache`, `OneDriveUrl`, the account manager and `OneDriveHelper` are not part of this model:
  - The cache is a map whose lookup yields "" on a miss, and `removePath` removes exactly the given key.
  - `OneDriveUrl::parentPath` is defined from the URL tests.
  - `folderMimeType` is a fixed constant.
- The account manager is stateless in the model. `refreshAccount` only says whether a refresh succeeded and does not change what `account(name)` answers later. So inside one `Env` every restarted run of a job is bound to the same account. The source relies on the refresh updating the account that `getAccount` returns (`src/kio_onedrive.cpp:112`, `679`). What that updated account is, and how its token changes, is not modelled.
- QUrl is modelled by its path only. `StripTrailingSlash` chops trailing `/` while more than one character remains.
- Resolution.ResolveSpec: the `Q_ASSERT(!isRoot())` only fires in debug builds. For the root the model does what a release build does and answers "".
- Only the first object of a search result is used and cached, as in the source. A cast to `File` that fails on an object of another type is not modelled.
