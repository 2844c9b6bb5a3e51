/**
  Path addressing of the OneDrive KIO worker (src/urlhelper.cpp).

  A `onedrive:` URL matters to the worker only through its path, so a URL is
  represented here by that path: `onedrive://` has the empty path,
  `onedrive:///foo@outlook.com/bar` has the path `/foo@outlook.com/bar`.
  The first path component names the account; the root has no component and an
  account root exactly one.
 */
module UrlHelper {

  const Separator: char := '/'

  /** What a path component is: a non-empty run of characters without a separator. */
  predicate IsComponent(c: string) {
    c != [] && Separator !in c
  }

  predicate AllComponents(parts: seq<string>) {
    forall i :: 0 <= i < |parts| ==> IsComponent(parts[i])
  }

  /** The index of the first separator in `s`, or `|s|` when there is none. */
  function SegmentEnd(s: string): (n: nat)
    ensures n <= |s|
    ensures forall i :: 0 <= i < n ==> s[i] != Separator
    ensures n < |s| ==> s[n] == Separator
  {
    if s == [] || s[0] == Separator then 0 else 1 + SegmentEnd(s[1..])
  }

  /** `QString::split('/', QString::SkipEmptyParts)`: the maximal separator-free
      runs of `s`, in order. */
  function Split(s: string): (parts: seq<string>)
    ensures AllComponents(parts)
    decreases |s|
  {
    if s == [] then []
    else if s[0] == Separator then Split(s[1..])
    else
      var n := SegmentEnd(s);
      assert forall i :: 0 <= i < n ==> s[..n][i] != Separator;
      [s[..n]] + Split(s[n..])
  }

  /** The components separated by single separators, with none in front. */
  function Join(parts: seq<string>): string {
    if parts == [] then ""
    else if |parts| == 1 then parts[0]
    else parts[0] + [Separator] + Join(parts[1..])
  }

  /** The normalised absolute path of a component list: `/` followed by the
      components joined with `/`. */
  function RootedJoin(parts: seq<string>): string {
    [Separator] + Join(parts)
  }

  /** `pathComponents(const QString &)` (urlhelper.cpp:32-35). */
  function PathComponents(path: string): seq<string> {
    Split(path)
  }

  /** `QUrl::adjusted(QUrl::StripTrailingSlash).path()`: trailing separators are
      chopped while more than one character remains. */
  function StripTrailingSlash(path: string): (r: string)
    ensures r <= path
    ensures forall i :: |r| <= i < |path| ==> path[i] == Separator
    ensures |r| <= 1 || r[|r| - 1] != Separator
    ensures |path| <= 1 ==> r == path
    ensures path != [] ==> r != []
    decreases |path|
  {
    if |path| > 1 && path[|path| - 1] == Separator then StripTrailingSlash(path[..|path| - 1])
    else path
  }

  /** `pathComponents(const QUrl &)` (urlhelper.cpp:37-40). */
  function UrlPathComponents(urlPath: string): seq<string> {
    PathComponents(StripTrailingSlash(urlPath))
  }

  /** `accountFromPath` (urlhelper.cpp:23-30). */
  function AccountFromPath(urlPath: string): (account: string)
    ensures account == "" <==> UrlPathComponents(urlPath) == []
    ensures UrlPathComponents(urlPath) != [] ==> account == UrlPathComponents(urlPath)[0]
  {
    var components := UrlPathComponents(urlPath);
    if components == [] then "" else components[0]
  }

  /** `isRoot` (urlhelper.cpp:42-45). */
  predicate IsRoot(urlPath: string) {
    |UrlPathComponents(urlPath)| == 0
  }

  /** `isAccountRoot` (urlhelper.cpp:47-50). */
  predicate IsAccountRoot(urlPath: string) {
    |UrlPathComponents(urlPath)| == 1
  }

  /** `OneDriveUrl::parentPath()`: empty for the root, `/` for an account root,
      otherwise `/` and every component but the last, joined with `/`. */
  function ParentPath(urlPath: string): string {
    var components := UrlPathComponents(urlPath);
    if components == [] then "" else RootedJoin(components[..|components| - 1])
  }

  // ---------------------------------------------------------------------------
  // Splitting and joining

  lemma SegmentEndAround(a: string, b: string)
    ensures SegmentEnd(a + [Separator] + b) == SegmentEnd(a)
  {
    var s := a + [Separator] + b;
    var m, n := SegmentEnd(a), SegmentEnd(s);
    assert s[m] == Separator;
  }

  /** A separator splits a path into two independent halves. */
  lemma {:induction false} SplitAround(a: string, b: string)
    ensures Split(a + [Separator] + b) == Split(a) + Split(b)
    decreases |a|, 1
  {
    var s := a + [Separator] + b;
    if a == [] {
      assert s[1..] == b;
    } else if a[0] == Separator {
      assert s[1..] == a[1..] + [Separator] + b;
      SplitAround(a[1..], b);
    } else {
      SplitAroundSegment(a, b);
    }
  }

  /** The case of `SplitAround` where `a` starts with a component. */
  lemma {:induction false} SplitAroundSegment(a: string, b: string)
    requires a != [] && a[0] != Separator
    ensures Split(a + [Separator] + b) == Split(a) + Split(b)
    decreases |a|, 0
  {
    var s := a + [Separator] + b;
    var n := SegmentEnd(a);
    assert Split(a) == [a[..n]] + Split(a[n..]);
    assert Split(s) == [a[..n]] + Split(a[n..] + [Separator] + b) by {
      SegmentEndAround(a, b);
      assert s[..n] == a[..n];
      assert s[n..] == a[n..] + [Separator] + b;
    }
    SplitAround(a[n..], b);
  }

  /** A component is its own only part. */
  lemma SplitComponent(c: string)
    requires IsComponent(c)
    ensures Split(c) == [c]
  {
    assert forall i :: 0 <= i < |c| ==> c[i] in c;
    assert SegmentEnd(c) == |c|;
    assert c[..|c|] == c;
  }

  /** Splitting a joined component list gives the list back. */
  lemma {:induction false} SplitJoin(parts: seq<string>)
    requires AllComponents(parts)
    ensures Split(Join(parts)) == parts
  {
    if parts == [] {
    } else if |parts| == 1 {
      SplitComponent(parts[0]);
    } else {
      SplitAround(parts[0], Join(parts[1..]));
      SplitComponent(parts[0]);
      SplitJoin(parts[1..]);
    }
  }

  /** Joining with `/`, prefixing `/` and splitting again is the identity on
      component lists (urlhelper.cpp:34). */
  lemma RootedRoundTrip(parts: seq<string>)
    requires AllComponents(parts)
    ensures Split(RootedJoin(parts)) == parts
  {
    assert RootedJoin(parts) == [] + [Separator] + Join(parts);
    SplitAround([], Join(parts));
    SplitJoin(parts);
  }

  /** Leading, trailing and repeated separators do not change the components
      (urlhelper.cpp:34). */
  lemma SeparatorsInsignificant(a: string, b: string)
    ensures Split([Separator] + a) == Split(a)
    ensures Split(a + [Separator]) == Split(a)
    ensures Split(a + [Separator, Separator] + b) == Split(a + [Separator] + b)
  {
    SplitAround([], a);
    assert [] + [Separator] + a == [Separator] + a;
    SplitAround(a, []);
    assert a + [Separator] + [] == a + [Separator];
    SplitAround(a, [Separator] + b);
    assert a + [Separator] + ([Separator] + b) == a + [Separator, Separator] + b;
    SplitAround([], b);
    assert [] + [Separator] + b == [Separator] + b;
    SplitAround(a, b);
  }

  /** A path has no component exactly when it holds nothing but separators. */
  lemma {:induction false} SplitEmptyIff(s: string)
    ensures Split(s) == [] <==> forall i :: 0 <= i < |s| ==> s[i] == Separator
    decreases |s|
  {
    if s != [] && s[0] == Separator {
      SplitEmptyIff(s[1..]);
      assert forall i :: 1 <= i < |s| ==> s[i] == s[1..][i - 1];
    }
  }

  /** Stripping trailing separators never changes the components, so both
      overloads of `pathComponents` agree (urlhelper.cpp:32-40). */
  lemma {:induction false} StripKeepsComponents(path: string)
    ensures UrlPathComponents(path) == PathComponents(path)
    decreases |path|
  {
    if |path| > 1 && path[|path| - 1] == Separator {
      var front := path[..|path| - 1];
      assert StripTrailingSlash(path) == StripTrailingSlash(front);
      StripKeepsComponents(front);
      assert Split(path) == Split(front) by {
        assert front + [Separator] + [] == path;
        SplitAround(front, []);
      }
    }
  }

  // ---------------------------------------------------------------------------
  // Classification and parent path

  /** Root, account root and "a path inside an account" are mutually exclusive
      and exhaustive; an account root names its account (urlhelper.cpp:23-50). */
  lemma Classification(urlPath: string)
    ensures IsRoot(urlPath) ==> !IsAccountRoot(urlPath)
    ensures IsRoot(urlPath) || IsAccountRoot(urlPath) || |UrlPathComponents(urlPath)| >= 2
    ensures IsRoot(urlPath) <==> forall i :: 0 <= i < |urlPath| ==> urlPath[i] == Separator
    ensures IsAccountRoot(urlPath) ==> UrlPathComponents(urlPath) == [AccountFromPath(urlPath)]
  {
    StripKeepsComponents(urlPath);
    SplitEmptyIff(urlPath);
  }

  /** The parent path holds every component but the last, is written with no
      trailing separator, and is empty only for the root. */
  lemma ParentPathComponents(urlPath: string)
    ensures var components := UrlPathComponents(urlPath);
      components != [] ==> UrlPathComponents(ParentPath(urlPath)) == components[..|components| - 1]
    ensures ParentPath(urlPath) == "" <==> IsRoot(urlPath)
    ensures StripTrailingSlash(ParentPath(urlPath)) == ParentPath(urlPath)
  {
    var components := UrlPathComponents(urlPath);
    if components != [] {
      var front := components[..|components| - 1];
      assert AllComponents(front) by {
        assert forall i :: 0 <= i < |front| ==> front[i] == components[i];
      }
      RootedRoundTrip(front);
      StripKeepsComponents(ParentPath(urlPath));
      RootedJoinNoTrailingSeparator(front);
    }
  }

  lemma RootedJoinNoTrailingSeparator(parts: seq<string>)
    requires AllComponents(parts)
    ensures StripTrailingSlash(RootedJoin(parts)) == RootedJoin(parts)
  {
    var p := RootedJoin(parts);
    if |p| > 1 {
      JoinLastChar(parts);
    }
  }

  lemma {:induction false} JoinLastChar(parts: seq<string>)
    requires AllComponents(parts) && parts != []
    ensures |Join(parts)| > 0 && Join(parts)[|Join(parts)| - 1] != Separator
  {
    if |parts| == 1 {
      assert parts[0][|parts[0]| - 1] in parts[0];
    } else {
      JoinLastChar(parts[1..]);
    }
  }

  // ---------------------------------------------------------------------------
  // The rows of the URL test (autotests/urltest.cpp:42-75)

  lemma UrlTestRoot()
    ensures UrlPathComponents("") == []
    ensures AccountFromPath("") == "" && ParentPath("") == "" && IsRoot("")
  {
  }

  /** The account, folder and file names the test rows use. */
  const TestAccount := "foo@outlook.com"
  const TestFolder := "bar"

  lemma UrlTestAccountRoot()
    ensures UrlPathComponents("/" + TestAccount) == [TestAccount]
    ensures AccountFromPath("/" + TestAccount) == TestAccount
    ensures ParentPath("/" + TestAccount) == "/"
    ensures IsAccountRoot("/" + TestAccount)
  {
    TestNamesAreComponents();
    RootedJoinComponents([TestAccount]);
  }

  lemma UrlTestFileInAccountRoot()
    ensures UrlPathComponents("/" + TestAccount + "/" + "bar.txt") == [TestAccount, "bar.txt"]
    ensures AccountFromPath("/" + TestAccount + "/" + "bar.txt") == TestAccount
    ensures ParentPath("/" + TestAccount + "/" + "bar.txt") == "/" + TestAccount
  {
    TestNamesAreComponents();
    RootedJoinPair(TestAccount, "bar.txt");
  }

  lemma UrlTestFolderInAccountRoot()
    ensures UrlPathComponents("/" + TestAccount + "/" + TestFolder) == [TestAccount, TestFolder]
    ensures UrlPathComponents("/" + TestAccount + "/" + TestFolder + "/") == [TestAccount, TestFolder]
    ensures ParentPath("/" + TestAccount + "/" + TestFolder) == "/" + TestAccount
    ensures ParentPath("/" + TestAccount + "/" + TestFolder + "/") == "/" + TestAccount
  {
    TestNamesAreComponents();
    RootedJoinPair(TestAccount, TestFolder);
    StripOneSeparator("/" + TestAccount + "/" + TestFolder);
  }

  lemma UrlTestFileInSubfolder()
    ensures UrlPathComponents("/" + TestAccount + "/" + TestFolder + "/" + "baz.txt") == [TestAccount, TestFolder, "baz.txt"]
    ensures AccountFromPath("/" + TestAccount + "/" + TestFolder + "/" + "baz.txt") == TestAccount
    ensures ParentPath("/" + TestAccount + "/" + TestFolder + "/" + "baz.txt") == "/" + TestAccount + "/" + TestFolder
  {
    TestNamesAreComponents();
    RootedJoinTriple(TestAccount, TestFolder, "baz.txt");
  }

  lemma TestNamesAreComponents()
    ensures IsComponent(TestAccount) && IsComponent(TestFolder)
    ensures IsComponent("bar.txt") && IsComponent("baz.txt")
  {
  }

  /** A path of two components, written out. */
  lemma RootedJoinPair(a: string, b: string)
    requires IsComponent(a) && IsComponent(b)
    ensures var p := [Separator] + a + [Separator] + b;
      && UrlPathComponents(p) == [a, b]
      && AccountFromPath(p) == a
      && ParentPath(p) == [Separator] + a
      && p == RootedJoin([a, b])
  {
    var parts := [a, b];
    RootedJoinComponents(parts);
    assert parts[..1] == [a];
    assert Join(parts) == a + [Separator] + b;
    assert [Separator] + a + [Separator] + b == RootedJoin(parts);
  }

  /** A path of three components, written out. */
  lemma RootedJoinTriple(a: string, b: string, c: string)
    requires IsComponent(a) && IsComponent(b) && IsComponent(c)
    ensures var p := [Separator] + a + [Separator] + b + [Separator] + c;
      && UrlPathComponents(p) == [a, b, c]
      && AccountFromPath(p) == a
      && ParentPath(p) == [Separator] + a + [Separator] + b
  {
    var front := [Separator] + a + [Separator] + b;
    var p := front + [Separator] + c;
    RootedJoinPair(a, b);
    RootedJoinNoTrailingSeparator([a, b]);
    assert p[|p| - 1] == c[|c| - 1] != Separator;
    SplitAround(front, c);
    SplitComponent(c);
    assert UrlPathComponents(p) == [a, b, c];
    assert [a, b, c][..2] == [a, b];
  }

  /** One trailing separator after a path that has none is stripped. */
  lemma StripOneSeparator(p: string)
    requires |p| > 1 && p[|p| - 1] != Separator
    ensures StripTrailingSlash(p + [Separator]) == p
  {
    assert (p + [Separator])[..|p|] == p;
  }

  /** The normalised path of a component list has exactly those components,
      its first component as account, and the list without its last element
      as parent. */
  lemma RootedJoinComponents(parts: seq<string>)
    requires AllComponents(parts) && parts != []
    ensures UrlPathComponents(RootedJoin(parts)) == parts
    ensures AccountFromPath(RootedJoin(parts)) == parts[0]
    ensures ParentPath(RootedJoin(parts)) == RootedJoin(parts[..|parts| - 1])
  {
    RootedRoundTrip(parts);
    RootedJoinNoTrailingSeparator(parts);
  }
}
