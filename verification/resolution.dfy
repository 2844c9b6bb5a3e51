/**
  Path-to-ID resolution of the OneDrive worker (src/kio_onedrive.cpp:322-409,
  411-470, 952), stated as functions of the worker's session state.

  The session holds the path cache (`m_cache`, a map whose lookup yields "" on a
  miss), the per-account root IDs (`m_rootIds`), the errors reported so far and
  the remote requests issued so far. The backend is an oracle: for a search
  query or an "about" request it gives the replies to the job's successive runs
  and the data the job fetched.
 */
module Resolution {
  import opened Wrappers
  import opened UrlHelper
  import opened Jobs

  /** `KIOOneDrive::PathFlags`; `NoFlags` is the source's `None`. */
  datatype PathFlags = NoFlags | PathIsFolder | PathIsFile

  datatype Op = Equals | NotEquals | In

  /** One condition of a `FileSearchQuery`. */
  datatype Term =
    | MimeType(op: Op, mimeType: string)
    | Title(op: Op, title: string)
    | Parents(op: Op, parentId: string)
    | Trashed(op: Op, trashed: bool)

  type SearchQuery = seq<Term>

  /** The folder MIME type `OneDriveHelper::folderMimeType()` returns; that
      helper is not part of this model, only that the value is fixed matters. */
  const FolderMimeType: string := "inode/directory"

  const Scheme: string := "onedrive"

  const TrashName: string := "trash"

  /** A remote object as a search sees and returns it. */
  datatype RemoteFile = RemoteFile(id: string, title: string, mimeType: string, parents: seq<string>, trashed: bool)

  predicate Compare(op: Op, equal: bool) {
    if op == NotEquals then !equal else equal
  }

  /** Whether a remote object satisfies one search condition. */
  predicate Holds(t: Term, f: RemoteFile) {
    match t
    case MimeType(op, m) => Compare(op, f.mimeType == m)
    case Title(op, title) => Compare(op, f.title == title)
    case Parents(_, id) => id in f.parents
    case Trashed(op, b) => Compare(op, f.trashed == b)
  }

  /** Whether a remote object is selected by a query: it satisfies every condition. */
  predicate Matches(q: SearchQuery, f: RemoteFile) {
    forall i :: 0 <= i < |q| ==> Holds(q[i], f)
  }

  /** The query `resolveFileIdFromPath` builds for a path with `components`
      under the folder `parentId` (src/kio_onedrive.cpp:356-364). */
  function SearchFilter(components: seq<string>, parentId: string, flags: PathFlags): (q: SearchQuery)
    requires |components| >= 2
    ensures (exists i :: 0 <= i < |q| && q[i].MimeType?) <==> flags != NoFlags
    ensures forall f :: Matches(q, f) <==>
      && f.title == components[|components| - 1]
      && parentId in f.parents
      && f.trashed == (components[1] == TrashName)
      && (flags == PathIsFolder ==> f.mimeType == FolderMimeType)
      && (flags == PathIsFile ==> f.mimeType != FolderMimeType)
  {
    var typeTest := MimeTypeTest(flags);
    var location := LocationTest(components[|components| - 1], parentId, components[1] == TrashName);
    MatchesConcat(typeTest, location);
    if flags != NoFlags then
      assert (typeTest + location)[0] == typeTest[0];
      typeTest + location
    else
      assert typeTest + location == location;
      typeTest + location
  }

  /** The type condition of that query: none without a flag, otherwise the
      folder MIME type compared for equality or inequality. */
  function MimeTypeTest(flags: PathFlags): (q: SearchQuery)
    ensures (q != [] <==> flags != NoFlags) && forall i :: 0 <= i < |q| ==> q[i].MimeType?
    ensures forall f :: Matches(q, f) <==>
      && (flags == PathIsFolder ==> f.mimeType == FolderMimeType)
      && (flags == PathIsFile ==> f.mimeType != FolderMimeType)
  {
    if flags == NoFlags then []
    else
      var q := [MimeType(if flags == PathIsFolder then Equals else NotEquals, FolderMimeType)];
      assert forall f :: Matches(q, f) <==> Holds(q[0], f);
      q
  }

  /** The title, parent and trash conditions of that query. */
  function LocationTest(title: string, parentId: string, trashed: bool): (q: SearchQuery)
    ensures forall i :: 0 <= i < |q| ==> !q[i].MimeType?
    ensures forall f :: Matches(q, f) <==> f.title == title && parentId in f.parents && f.trashed == trashed
  {
    var q := [Title(Equals, title), Parents(In, parentId), Trashed(Equals, trashed)];
    assert forall f :: Matches(q, f) <==> Holds(q[0], f) && Holds(q[1], f) && Holds(q[2], f);
    q
  }

  lemma MatchesConcat(a: SearchQuery, b: SearchQuery)
    ensures forall f :: Matches(a + b, f) <==> Matches(a, f) && Matches(b, f)
  {
    forall f ensures Matches(a + b, f) <==> Matches(a, f) && Matches(b, f) {
      if Matches(a, f) && Matches(b, f) {
        forall i | 0 <= i < |a + b| ensures Holds((a + b)[i], f) {
          if i >= |a| {
            assert (a + b)[i] == b[i - |a|];
          }
        }
      }
      if Matches(a + b, f) {
        forall i | 0 <= i < |a| ensures Holds(a[i], f) {
          assert (a + b)[i] == a[i];
        }
        forall i | 0 <= i < |b| ensures Holds(b[i], f) {
          assert (a + b)[|a| + i] == b[i];
        }
      }
    }
  }

  /** The query `listDir` lists a folder with (src/kio_onedrive.cpp:440-442). */
  function ListingQuery(folderId: string): (q: SearchQuery)
    ensures forall f :: Matches(q, f) <==> !f.trashed && folderId in f.parents
  {
    var q := [Trashed(Equals, false), Parents(In, folderId)];
    assert forall f :: Matches(q, f) <==> Holds(q[0], f) && Holds(q[1], f);
    q
  }

  /** A remote request, as the worker issues it for an account. */
  datatype Request = Search(accountId: string, query: SearchQuery) | About(accountId: string)

  /** The replies to the runs of a search job and the objects it fetched. */
  datatype SearchResponse = SearchResponse(replies: seq<Reply>, items: seq<RemoteFile>)

  /** The replies to the runs of an "about" job and the root folder ID it
      fetched; `None` when the job produced no `About` object. */
  datatype AboutResponse = AboutResponse(replies: seq<Reply>, rootFolderId: Option<string>)

  datatype Backend = Backend(search: (string, SearchQuery) -> SearchResponse, about: string -> AboutResponse)

  /** The collaborators of the worker: the account manager and the backend. */
  datatype Env = Env(accounts: AccountManager, backend: Backend) {

    /** Every job the backend answers settles: the retry loop ends within the
        supplied replies. */
    ghost predicate Responsive() {
      && (forall a, q :: Settles(backend.search(a, q).replies, accounts.account(a), a, accounts))
      && (forall a :: Settles(backend.about(a).replies, accounts.account(a), a, accounts))
    }

    /** The backend answers a search only with objects its query selects. */
    ghost predicate SearchesMatch() {
      forall a, q, i :: 0 <= i < |backend.search(a, q).items| ==> Matches(q, backend.search(a, q).items[i])
    }

    /** `runJob` on a job created with `getAccount(accountId)`. */
    function Run(replies: seq<Reply>, accountId: string, url: Url): RunResult
      requires Settles(replies, accounts.account(accountId), accountId, accounts)
    {
      RunSpec(replies, accounts.account(accountId), url, accountId, accounts)
    }
  }

  /** The worker's state as far as path resolution is concerned. */
  datatype Session = Session(
    cache: map<string, string>,
    rootIds: map<string, string>,
    errors: seq<ErrorReport>,
    requests: seq<Request>)
  {
    /** The session after a job for `request` ran to `run`. */
    function AfterJob(request: Request, run: RunResult): Session {
      this.(requests := requests + [request], errors := errors + Reported(run.report))
    }
  }

  /** `PathCache::idForPath`: the cached ID, or "" on a miss. */
  function IdForPath(cache: map<string, string>, path: string): string {
    if path in cache then cache[path] else ""
  }

  /** Stored root IDs are never empty. */
  predicate RootIdsValid(rootIds: map<string, string>) {
    forall a :: a in rootIds ==> rootIds[a] != ""
  }

  /** Entries of `after` that are new or differ from `before`. */
  predicate Changed(before: map<string, string>, after: map<string, string>, k: string) {
    k in after && (k !in before || after[k] != before[k])
  }

  /** Cached IDs survive: an entry with an ID keeps it. */
  predicate KeepsCachedIds(before: map<string, string>, after: map<string, string>) {
    forall k :: k in before && before[k] != "" ==> k in after && after[k] == before[k]
  }

  /** `path` itself or one of its ancestors below the account root, written as
      `resolveFileIdFromPath` asks for them. */
  predicate OnLineage(k: string, path: string) {
    var c := UrlPathComponents(path);
    k == path || exists m :: 2 <= m < |c| && k == RootedJoin(c[..m])
  }

  /** `rootFolderId` (src/kio_onedrive.cpp:388-409): the memoised root ID, or
      else one "about" job whose non-empty root ID is memoised and answered. */
  function RootFolderIdSpec(env: Env, s: Session, accountId: string): (res: (string, Session))
    requires env.Responsive()
  {
    if accountId in s.rootIds then (s.rootIds[accountId], s)
    else
      var response := env.backend.about(accountId);
      var run := env.Run(response.replies, accountId, NoUrl);
      var s1 := s.AfterJob(About(accountId), run);
      if !run.ok then ("", s1)
      else if response.rootFolderId.None? || response.rootFolderId.value == "" then ("", s1)
      else (response.rootFolderId.value, s1.(rootIds := s1.rootIds[accountId := response.rootFolderId.value]))
  }

  /** `rootFolderId` leaves the cache alone, memoises every ID it answers and
      only ever adds non-empty root IDs; a memo hit issues no request, and a
      miss issues exactly one "about" request and answers the root ID the
      job fetched when it succeeded, "" when it failed or fetched none. */
  lemma RootFolderIdFrame(env: Env, s: Session, accountId: string)
    requires env.Responsive()
    ensures var res := RootFolderIdSpec(env, s, accountId);
      && res.1.cache == s.cache
      && (res.0 == "" ==> res.1.rootIds == s.rootIds)
      && (res.0 != "" ==> accountId in res.1.rootIds && res.1.rootIds[accountId] == res.0)
      && (forall a :: a in s.rootIds ==> a in res.1.rootIds && res.1.rootIds[a] == s.rootIds[a])
      && (RootIdsValid(s.rootIds) ==> RootIdsValid(res.1.rootIds))
      && (accountId in s.rootIds ==> res == (s.rootIds[accountId], s))
      && (accountId !in s.rootIds ==> res.1.requests == s.requests + [About(accountId)])
    ensures accountId !in s.rootIds ==>
      var about := env.backend.about(accountId);
      var run := env.Run(about.replies, accountId, NoUrl);
      var res := RootFolderIdSpec(env, s, accountId);
      && res.0 == (if run.ok && about.rootFolderId.Some? then about.rootFolderId.value else "")
      && res.1.errors == s.errors + Reported(run.report)
      && (res.0 != "" ==> res.1.rootIds == s.rootIds[accountId := res.0])
  {
  }

  /** `resolveFileIdFromPath` (src/kio_onedrive.cpp:322-386). For the root the
      source only asserts in debug builds; what it then does, resolving the
      empty parent path, yields "" as well. What it guarantees is stated by
      `ResolveRequests`, `ResolveCacheFrame`, `ResolveRootIds` and the
      lemmas after them. */
  function ResolveSpec(env: Env, s: Session, path: string, flags: PathFlags): (res: (string, Session))
    requires env.Responsive()
    decreases |UrlPathComponents(path)|
  {
    if path == "" then ("", s)
    else if IdForPath(s.cache, path) != "" then (IdForPath(s.cache, path), s)
    else
      var components := UrlPathComponents(path);
      if components == [] then ("", s)
      else if |components| == 1 || (|components| == 2 && components[1] == TrashName) then
        RootFolderIdSpec(env, s, components[0])
      else
        ParentPathComponents(path);
        var parent := ResolveSpec(env, s, ParentPath(path), PathIsFolder);
        if parent.0 == "" then parent
        else SearchChild(env, parent.1, path, components, parent.0, flags)
  }

  /** The search step of `resolveFileIdFromPath` once the parent folder is
      known (src/kio_onedrive.cpp:356-385): one search job; the first object it
      finds is cached under `path` and answered. */
  function SearchChild(env: Env, s: Session, path: string, components: seq<string>, parentId: string, flags: PathFlags): (res: (string, Session))
    requires env.Responsive()
    requires |components| >= 2
  {
    var accountId := components[0];
    var query := SearchFilter(components, parentId, flags);
    var response := env.backend.search(accountId, query);
    var run := env.Run(response.replies, accountId, Url(Scheme, path));
    var s1 := s.AfterJob(Search(accountId, query), run);
    if !run.ok || response.items == [] then ("", s1)
    else (response.items[0].id, s1.(cache := s1.cache[path := response.items[0].id]))
  }

  /** The search step issues exactly one search, for the last component
      under the parent, leaves the root IDs alone and writes at most the key
      of the path, with the ID it answers: that of the first object found
      when the job succeeded, and otherwise "" with the cache unchanged. */
  lemma SearchChildFrame(env: Env, s: Session, path: string, components: seq<string>, parentId: string, flags: PathFlags)
    requires env.Responsive()
    requires |components| >= 2
    ensures var res := SearchChild(env, s, path, components, parentId, flags);
      && res.1.requests == s.requests + [Search(components[0], SearchFilter(components, parentId, flags))]
      && res.1.rootIds == s.rootIds
      && (res.1.cache == s.cache || res.1.cache == s.cache[path := res.0])
      && (res.0 != "" ==> res.1.cache == s.cache[path := res.0])
    ensures var query := SearchFilter(components, parentId, flags);
      var response := env.backend.search(components[0], query);
      var run := env.Run(response.replies, components[0], Url(Scheme, path));
      var res := SearchChild(env, s, path, components, parentId, flags);
      && res.0 == (if run.ok && response.items != [] then response.items[0].id else "")
      && ((!run.ok || response.items == []) ==> res.1.cache == s.cache)
      && res.1.errors == s.errors + Reported(run.report)
  {
  }

  /** A resolution only appends requests, at most one per component of the path. */
  lemma {:induction false} ResolveRequests(env: Env, s: Session, path: string, flags: PathFlags)
    requires env.Responsive()
    ensures var res := ResolveSpec(env, s, path, flags);
      s.requests <= res.1.requests && |res.1.requests| <= |s.requests| + |UrlPathComponents(path)|
    decreases |UrlPathComponents(path)|
  {
    if path != "" && IdForPath(s.cache, path) == "" {
      var components := UrlPathComponents(path);
      if |components| > 2 || (|components| == 2 && components[1] != TrashName) {
        ParentPathComponents(path);
        ResolveRequests(env, s, ParentPath(path), PathIsFolder);
        var parent := ResolveSpec(env, s, ParentPath(path), PathIsFolder);
        if parent.0 != "" {
          SearchChildFrame(env, parent.1, path, components, parent.0, flags);
        }
      } else if components != [] {
        RootFolderIdFrame(env, s, components[0]);
      }
    }
  }

  /** A resolution never drops or alters a cached ID; the keys it writes are
      the path and its ancestors below the account root; an account root
      writes no key; and a path it fails on holds no ID afterwards. */
  lemma {:induction false} ResolveCacheFrame(env: Env, s: Session, path: string, flags: PathFlags)
    requires env.Responsive()
    ensures var res := ResolveSpec(env, s, path, flags);
      && KeepsCachedIds(s.cache, res.1.cache)
      && (forall k :: Changed(s.cache, res.1.cache, k) ==> OnLineage(k, path))
      && (|UrlPathComponents(path)| <= 1 ==> res.1.cache == s.cache)
      && (path != "" && res.0 == "" && IdForPath(s.cache, path) == "" ==> IdForPath(res.1.cache, path) == "")
    decreases |UrlPathComponents(path)|
  {
    if path != "" && IdForPath(s.cache, path) == "" {
      var components := UrlPathComponents(path);
      if |components| > 2 || (|components| == 2 && components[1] != TrashName) {
        ParentPathComponents(path);
        var parentPath := ParentPath(path);
        ResolveCacheFrame(env, s, parentPath, PathIsFolder);
        LineageOfParent(path);
        var parent := ResolveSpec(env, s, parentPath, PathIsFolder);
        assert forall k :: Changed(s.cache, parent.1.cache, k) ==> OnLineage(k, path);
        assert !Changed(s.cache, parent.1.cache, path);
        if parent.0 != "" {
          var res := SearchChild(env, parent.1, path, components, parent.0, flags);
          SearchChildFrame(env, parent.1, path, components, parent.0, flags);
          CacheOneMore(s.cache, parent.1.cache, res.1.cache, path, res.0);
        }
      } else if components != [] {
        RootFolderIdFrame(env, s, components[0]);
      }
    }
  }

  /** Writing one more key that held no ID keeps the IDs of `before` and
      changes only that key beyond what was changed already. */
  lemma CacheOneMore(before: map<string, string>, mid: map<string, string>, after: map<string, string>, path: string, id: string)
    requires KeepsCachedIds(before, mid)
    requires forall k :: Changed(before, mid, k) ==> OnLineage(k, path)
    requires IdForPath(before, path) == "" && !Changed(before, mid, path)
    requires after == mid || after == mid[path := id]
    ensures KeepsCachedIds(before, after)
    ensures forall k :: Changed(before, after, k) ==> OnLineage(k, path)
    ensures id == "" ==> IdForPath(after, path) == ""
  {
    assert IdForPath(mid, path) == "";
    forall k | Changed(before, after, k) ensures OnLineage(k, path) {
      if k != path {
        assert Changed(before, mid, k);
      }
    }
  }

  /** A resolution only adds root IDs, and only non-empty ones. */
  lemma {:induction false} ResolveRootIds(env: Env, s: Session, path: string, flags: PathFlags)
    requires env.Responsive()
    ensures var res := ResolveSpec(env, s, path, flags);
      && (forall a :: a in s.rootIds ==> a in res.1.rootIds && res.1.rootIds[a] == s.rootIds[a])
      && (RootIdsValid(s.rootIds) ==> RootIdsValid(res.1.rootIds))
    decreases |UrlPathComponents(path)|
  {
    if path != "" && IdForPath(s.cache, path) == "" {
      var components := UrlPathComponents(path);
      if |components| > 2 || (|components| == 2 && components[1] != TrashName) {
        ParentPathComponents(path);
        ResolveRootIds(env, s, ParentPath(path), PathIsFolder);
        var parent := ResolveSpec(env, s, ParentPath(path), PathIsFolder);
        if parent.0 != "" {
          SearchChildFrame(env, parent.1, path, components, parent.0, flags);
        }
      } else if components != [] {
        RootFolderIdFrame(env, s, components[0]);
      }
    }
  }

  /** The case of `ResolveSpec` that resolves the parent and then searches. */
  lemma ResolveBySearch(env: Env, s: Session, path: string, flags: PathFlags)
    requires env.Responsive()
    requires path != "" && IdForPath(s.cache, path) == ""
    requires var c := UrlPathComponents(path); |c| > 2 || (|c| == 2 && c[1] != TrashName)
    ensures var parent := ResolveSpec(env, s, ParentPath(path), PathIsFolder);
      && (parent.0 == "" ==> ResolveSpec(env, s, path, flags) == parent)
      && (parent.0 != "" ==> ResolveSpec(env, s, path, flags) == SearchChild(env, parent.1, path, UrlPathComponents(path), parent.0, flags))
  {
  }

  /** The ancestors of the parent path are ancestors of the path, and the path
      itself is none of them. */
  lemma LineageOfParent(path: string)
    requires |UrlPathComponents(path)| >= 2
    ensures forall k :: OnLineage(k, ParentPath(path)) && |UrlPathComponents(ParentPath(path))| >= 2 ==> OnLineage(k, path)
    ensures !OnLineage(path, ParentPath(path))
  {
    var c := UrlPathComponents(path);
    var n := |c|;
    ParentPathComponents(path);
    var parent := ParentPath(path);
    assert UrlPathComponents(parent) == c[..n - 1];
    forall k | OnLineage(k, parent) && n - 1 >= 2
      ensures OnLineage(k, path)
    {
      if k == parent {
        assert k == RootedJoin(c[..n - 1]);
      } else {
        var m :| 2 <= m < n - 1 && k == RootedJoin(c[..n - 1][..m]);
        assert c[..n - 1][..m] == c[..m];
      }
    }
    if OnLineage(path, parent) {
      if path == parent {
        assert false;
      } else {
        var m :| 2 <= m < n - 1 && path == RootedJoin(c[..n - 1][..m]);
        var front := c[..n - 1][..m];
        assert AllComponents(front) by {
          assert forall i :: 0 <= i < |front| ==> front[i] == c[i];
        }
        RootedJoinComponents(front);
        assert false;
      }
    }
  }

  // ---------------------------------------------------------------------------
  // Properties of resolution

  /** `rootFolderId` memoises: once it has answered with an ID, asking again
      answers the same with no request and no change. */
  lemma RootFolderIdMemoises(env: Env, s: Session, accountId: string)
    requires env.Responsive()
    ensures var (id, s1) := RootFolderIdSpec(env, s, accountId);
      id != "" ==> RootFolderIdSpec(env, s1, accountId) == (id, s1)
  {
  }

  /** Resolving a path a second time, with any type hint and no invalidation in
      between, gives the same ID and issues no request. */
  lemma ResolveIsIdempotent(env: Env, s: Session, path: string, flags: PathFlags, flags': PathFlags)
    requires env.Responsive()
    ensures var (id, s1) := ResolveSpec(env, s, path, flags);
      id != "" ==> ResolveSpec(env, s1, path, flags') == (id, s1)
  {
    var (id, s1) := ResolveSpec(env, s, path, flags);
    if id != "" && path != "" && IdForPath(s.cache, path) == "" {
      var components := UrlPathComponents(path);
      if |components| == 1 || (|components| == 2 && components[1] == TrashName) {
        RootFolderIdFrame(env, s, components[0]);
        RootFolderIdMemoises(env, s, components[0]);
      } else {
        ResolveBySearch(env, s, path, flags);
        var parent := ResolveSpec(env, s, ParentPath(path), PathIsFolder);
        SearchChildFrame(env, parent.1, path, components, parent.0, flags);
        assert IdForPath(s1.cache, path) == id;
      }
    }
  }

  /** The empty path resolves to "" with no request and no change. */
  lemma EmptyPathResolvesToNothing(env: Env, s: Session, flags: PathFlags)
    requires env.Responsive()
    ensures ResolveSpec(env, s, "", flags) == ("", s)
  {
  }

  /** A cache hit answers the cached ID and issues no request. */
  lemma CacheHitIssuesNoRequest(env: Env, s: Session, path: string, flags: PathFlags)
    requires env.Responsive()
    requires path != "" && IdForPath(s.cache, path) != ""
    ensures ResolveSpec(env, s, path, flags) == (s.cache[path], s)
  {
  }

  /** An account root, or the trash folder of an account, resolves to the
      account's root ID and caches nothing under the path. */
  lemma AccountRootResolvesToRootId(env: Env, s: Session, path: string, flags: PathFlags)
    requires env.Responsive()
    requires IdForPath(s.cache, path) == ""
    requires var c := UrlPathComponents(path); |c| == 1 || (|c| == 2 && c[1] == TrashName)
    ensures ResolveSpec(env, s, path, flags) == RootFolderIdSpec(env, s, UrlPathComponents(path)[0])
    ensures ResolveSpec(env, s, path, flags).1.cache == s.cache
  {
    StripKeepsComponents(path);
  }

  /** A failed parent makes the child fail, with no search issued for the child. */
  lemma FailedParentPoisonsChild(env: Env, s: Session, path: string, flags: PathFlags)
    requires env.Responsive()
    requires IdForPath(s.cache, path) == ""
    requires var c := UrlPathComponents(path); |c| > 2 || (|c| == 2 && c[1] != TrashName)
    ensures ResolveSpec(env, s, ParentPath(path), PathIsFolder).0 == "" ==>
      ResolveSpec(env, s, path, flags) == ResolveSpec(env, s, ParentPath(path), PathIsFolder)
  {
    StripKeepsComponents(path);
  }

  /** Once the parent resolves, a path missing from the cache, such as one just
      removed from it, is looked up with exactly one fresh search for its last
      component under the parent, and is cached when the search finds it. */
  lemma MissingPathIsSearched(env: Env, s: Session, path: string, flags: PathFlags)
    requires env.Responsive()
    requires IdForPath(s.cache, path) == ""
    requires var c := UrlPathComponents(path); |c| > 2 || (|c| == 2 && c[1] != TrashName)
    ensures var c := UrlPathComponents(path);
      var (parentId, s1) := ResolveSpec(env, s, ParentPath(path), PathIsFolder);
      var (id, s2) := ResolveSpec(env, s, path, flags);
      var response := env.backend.search(c[0], SearchFilter(c, parentId, flags));
      var run := env.Run(response.replies, c[0], Url(Scheme, path));
      parentId != "" ==>
        && s2.requests == s1.requests + [Search(c[0], SearchFilter(c, parentId, flags))]
        && id == (if run.ok && response.items != [] then response.items[0].id else "")
        && (id != "" ==> s2.cache == s1.cache[path := id])
        && ((!run.ok || response.items == []) ==> s2.cache == s1.cache)
  {
    var c := UrlPathComponents(path);
    var parent := ResolveSpec(env, s, ParentPath(path), PathIsFolder);
    if parent.0 != "" {
      assert ResolveSpec(env, s, path, flags) == SearchChild(env, parent.1, path, c, parent.0, flags) by {
        assert path != "";
        ResolveBySearch(env, s, path, flags);
      }
      SearchChildFrame(env, parent.1, path, c, parent.0, flags);
    }
  }

  /** With a backend that answers searches only with objects the query
      selects, a path found by search resolves to the ID of an object titled
      with the path's last component, listing the parent folder as a parent,
      trashed exactly when the path lies in the account's trash, and of the
      type the flag asks for. */
  lemma SearchAnswersMatchingObject(env: Env, s: Session, path: string, flags: PathFlags)
    requires env.Responsive() && env.SearchesMatch()
    requires IdForPath(s.cache, path) == ""
    requires var c := UrlPathComponents(path); |c| > 2 || (|c| == 2 && c[1] != TrashName)
    ensures var c := UrlPathComponents(path);
      var parentId := ResolveSpec(env, s, ParentPath(path), PathIsFolder).0;
      var id := ResolveSpec(env, s, path, flags).0;
      var items := env.backend.search(c[0], SearchFilter(c, parentId, flags)).items;
      id != "" ==>
        && parentId != "" && items != [] && items[0].id == id
        && items[0].title == c[|c| - 1]
        && parentId in items[0].parents
        && items[0].trashed == (c[1] == TrashName)
        && (flags == PathIsFolder ==> items[0].mimeType == FolderMimeType)
        && (flags == PathIsFile ==> items[0].mimeType != FolderMimeType)
  {
    var c := UrlPathComponents(path);
    var parentId := ResolveSpec(env, s, ParentPath(path), PathIsFolder).0;
    if parentId == "" {
      FailedParentPoisonsChild(env, s, path, flags);
    } else {
      MissingPathIsSearched(env, s, path, flags);
      var query := SearchFilter(c, parentId, flags);
      var items := env.backend.search(c[0], query).items;
      if items != [] {
        assert Matches(query, items[0]);
      }
    }
  }

  // ---------------------------------------------------------------------------
  // listDir (src/kio_onedrive.cpp:411-467)

  /** The key `listDir` caches a listed child under: the listed path and the
      title joined by exactly one separator (src/kio_onedrive.cpp:457). */
  function ChildPath(dir: string, title: string): string {
    if |dir| > 0 && dir[|dir| - 1] == Separator then dir + title else dir + [Separator] + title
  }

  /** The child key names the title as one more component after the folder's. */
  lemma ChildPathComponents(dir: string, title: string)
    requires IsComponent(title)
    ensures PathComponents(ChildPath(dir, title)) == PathComponents(dir) + [title]
  {
    SplitComponent(title);
    if |dir| > 0 && dir[|dir| - 1] == Separator {
      var front := dir[..|dir| - 1];
      assert dir == front + [Separator] + [];
      assert ChildPath(dir, title) == front + [Separator] + title;
      SplitAround(front, title);
      SplitAround(front, []);
    } else {
      SplitAround(dir, title);
    }
  }

  /** For a normalised folder path the child key is the child's normalised
      path. */
  lemma ChildPathNormalised(parts: seq<string>, title: string)
    requires parts != [] && AllComponents(parts)
    ensures ChildPath(RootedJoin(parts), title) == RootedJoin(parts + [title])
  {
    JoinLastChar(parts);
    JoinAppend(parts, title);
  }

  /** A folder path written with a trailing separator gets no second one:
      its child key is still the child's normalised path. */
  lemma ChildPathTrailingSeparator(parts: seq<string>, title: string)
    requires parts != [] && AllComponents(parts)
    ensures ChildPath(RootedJoin(parts) + [Separator], title) == RootedJoin(parts + [title])
  {
    ChildPathNormalised(parts, title);
    JoinLastChar(parts);
  }

  lemma {:induction false} JoinAppend(parts: seq<string>, last: string)
    requires parts != []
    ensures Join(parts + [last]) == Join(parts) + [Separator] + last
  {
    if |parts| == 1 {
      assert parts + [last] == [parts[0], last];
    } else {
      assert (parts + [last])[1..] == parts[1..] + [last];
      JoinAppend(parts[1..], last);
    }
  }

  /** The cache after `listDir` has inserted its listed children in order. */
  function CacheChildren(cache: map<string, string>, dir: string, items: seq<RemoteFile>): map<string, string>
    decreases |items|
  {
    if items == [] then cache
    else
      var last := items[|items| - 1];
      CacheChildren(cache, dir, items[..|items| - 1])[ChildPath(dir, last.title) := last.id]
  }

  /** Whether no later listed item has the same title as item `i`. */
  predicate LastWithTitle(items: seq<RemoteFile>, i: int) {
    0 <= i < |items| && forall j :: i < j < |items| ==> items[j].title != items[i].title
  }

  /** After a listing, the key of every listed child holds the ID of the last
      listed item with that title, and every other key is as it was. */
  lemma {:induction false} CacheChildrenContents(cache: map<string, string>, dir: string, items: seq<RemoteFile>)
    ensures var after := CacheChildren(cache, dir, items);
      && (forall i :: LastWithTitle(items, i) ==>
            ChildPath(dir, items[i].title) in after && after[ChildPath(dir, items[i].title)] == items[i].id)
      && (forall k :: (forall i :: 0 <= i < |items| ==> k != ChildPath(dir, items[i].title)) ==>
            (k in after <==> k in cache) && (k in cache ==> after[k] == cache[k]))
    decreases |items|
  {
    if items != [] {
      var front := items[..|items| - 1];
      var last := items[|items| - 1];
      CacheChildrenContents(cache, dir, front);
      forall i | LastWithTitle(items, i) && i < |items| - 1
        ensures LastWithTitle(front, i)
      {
        assert forall j :: i < j < |front| ==> front[j] == items[j];
      }
      forall i | LastWithTitle(items, i) && i < |items| - 1
        ensures ChildPath(dir, items[i].title) != ChildPath(dir, last.title)
      {
        if ChildPath(dir, items[i].title) == ChildPath(dir, last.title) {
          ChildPathInjective(dir, items[i].title, last.title);
        }
      }
    }
  }

  lemma ChildPathInjective(dir: string, t1: string, t2: string)
    requires ChildPath(dir, t1) == ChildPath(dir, t2)
    ensures t1 == t2
  {
    var p := if |dir| > 0 && dir[|dir| - 1] == Separator then dir else dir + [Separator];
    assert ChildPath(dir, t1) == p + t1 && ChildPath(dir, t2) == p + t2;
    assert t1 == (p + t1)[|p|..];
    assert t2 == (p + t2)[|p|..];
  }

  /** What `listDir` ends with. */
  datatype ListOutcome =
    | CreatingAccount        // the `new-account` pseudo account; `createAccount` is not part of this model
    | ListingAccounts        // the root; `listAccounts` is not part of this model
    | FolderNotFound         // the folder could not be resolved
    | Listed(items: seq<RemoteFile>)

  /** The folder ID `listDir` lists (src/kio_onedrive.cpp:425-437): the root ID
      for an account root; otherwise the cached ID of the path as given, or
      failing that the path resolved as a folder. */
  function ListedFolderId(env: Env, s: Session, url: Url): (res: (string, Session))
    requires env.Responsive()
    requires |UrlPathComponents(url.path)| >= 1
  {
    if IsAccountRoot(url.path) then RootFolderIdSpec(env, s, AccountFromPath(url.path))
    else if IdForPath(s.cache, url.path) != "" then (IdForPath(s.cache, url.path), s)
    else ResolveSpec(env, s, StripTrailingSlash(url.path), PathIsFolder)
  }

  /** `listDir` as far as resolution and the cache are concerned
      (src/kio_onedrive.cpp:411-467). */
  function ListDirSpec(env: Env, s: Session, url: Url): (res: (ListOutcome, Session))
    requires env.Responsive()
  {
    var accountId := AccountFromPath(url.path);
    if accountId == "new-account" then (CreatingAccount, s)
    else if IsRoot(url.path) then (ListingAccounts, s)
    else
      var (folderId, s1) := ListedFolderId(env, s, url);
      if !IsAccountRoot(url.path) && folderId == "" then
        (FolderNotFound, s1.(errors := s1.errors + [ErrorReport(ErrDoesNotExist, Text(url.path))]))
      else ListChildren(env, s1, url, folderId)
  }

  /** The listing step of `listDir` (src/kio_onedrive.cpp:440-459): one search
      job for the children of `folderId`, whose outcome is not checked; each
      child fetched is cached under the listed path. */
  function ListChildren(env: Env, s: Session, url: Url, folderId: string): (res: (ListOutcome, Session))
    requires env.Responsive()
  {
    var accountId := AccountFromPath(url.path);
    var query := ListingQuery(folderId);
    var response := env.backend.search(accountId, query);
    var run := env.Run(response.replies, accountId, url);
    var s2 := s.AfterJob(Search(accountId, query), run);
    (Listed(response.items), s2.(cache := CacheChildren(s2.cache, url.path, response.items)))
  }

  /** After `listDir` has listed a folder, the key of every listed child holds
      that child's ID (the last of equal titles wins); nothing is cached when
      the folder is not found. */
  lemma ListDirCachesChildren(env: Env, s: Session, url: Url, i: int)
    requires env.Responsive()
    ensures var (outcome, s1) := ListDirSpec(env, s, url);
      && (outcome.Listed? && LastWithTitle(outcome.items, i) ==>
            IdForPath(s1.cache, ChildPath(url.path, outcome.items[i].title)) == outcome.items[i].id)
      && (outcome.FolderNotFound? ==>
            s1.cache == ListedFolderId(env, s, url).1.cache
            && s1.errors[|s1.errors| - 1] == ErrorReport(ErrDoesNotExist, Text(url.path)))
  {
    var (outcome, s1) := ListDirSpec(env, s, url);
    if outcome.Listed? {
      var (folderId, s0) := ListedFolderId(env, s, url);
      var accountId := AccountFromPath(url.path);
      var response := env.backend.search(accountId, ListingQuery(folderId));
      CacheChildrenContents(s0.cache, url.path, response.items);
    }
  }

  /** With a backend that answers searches only with objects the query
      selects, every child `listDir` lists is untrashed and lists the folder
      it resolved as a parent. */
  lemma ListedChildrenAreInFolder(env: Env, s: Session, url: Url)
    requires env.Responsive() && env.SearchesMatch()
    ensures ListDirSpec(env, s, url).0.Listed? ==> !IsRoot(url.path)
    ensures var outcome := ListDirSpec(env, s, url).0;
      outcome.Listed? ==>
        var folderId := ListedFolderId(env, s, url).0;
        forall i :: 0 <= i < |outcome.items| ==> !outcome.items[i].trashed && folderId in outcome.items[i].parents
  {
    var outcome := ListDirSpec(env, s, url).0;
    if outcome.Listed? {
      var folderId := ListedFolderId(env, s, url).0;
      var query := ListingQuery(folderId);
      var items := env.backend.search(AccountFromPath(url.path), query).items;
      assert outcome.items == items;
      forall i | 0 <= i < |items| ensures !items[i].trashed && folderId in items[i].parents {
        assert Matches(query, items[i]);
      }
    }
  }

  /** `del` removes exactly the deleted path's key; entries for its descendants
      stay (src/kio_onedrive.cpp:952). */
  lemma RemovePathKeepsOthers(cache: map<string, string>, path: string, child: string)
    requires child in cache && child != path
    ensures IdForPath(cache - {path}, path) == ""
    ensures IdForPath(cache - {path}, child) == cache[child]
  {
  }
}
