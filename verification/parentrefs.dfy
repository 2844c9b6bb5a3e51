/**
  The parent-reference edit of `rename` (src/kio_onedrive.cpp:1022-1040): when
  an object moves from one folder to another, the reference to the folder it
  leaves is taken out of its list of parents and a reference to the folder it
  enters is appended.
 */
module ParentRefs {
  import opened Jobs

  /** A reference from an object to one of its parent folders. */
  datatype ParentReference = ParentReference(id: string)

  /** What the edit ends with: the new list of parents to send with the
      modify job, or the error reported instead of any job. */
  datatype Reparenting = Reparented(parents: seq<ParentReference>) | NotAParent(report: ErrorReport)

  /** The position of the first reference to `dirId`, or `|parents|` when
      there is none. */
  function FirstRef(parents: seq<ParentReference>, dirId: string): (i: nat)
    ensures i <= |parents|
    ensures forall j :: 0 <= j < i ==> parents[j].id != dirId
    ensures i < |parents| ==> parents[i].id == dirId
    decreases |parents|
  {
    if parents == [] then 0
    else if parents[0].id == dirId then 0
    else 1 + FirstRef(parents[1..], dirId)
  }

  /** The loop of `rename` that erases the first reference to the source
      folder, followed by the append of the destination folder; with no
      reference to the source folder it reports DOES_NOT_EXIST for the source
      path instead. */
  method ReplaceParent(parents: seq<ParentReference>, srcDirId: string, destDirId: string, srcPath: string)
    returns (r: Reparenting)
    ensures r.NotAParent? <==> forall j :: 0 <= j < |parents| ==> parents[j].id != srcDirId
    ensures r.NotAParent? ==> r.report == ErrorReport(ErrDoesNotExist, Text(srcPath))
    ensures r.Reparented? ==>
      var i := FirstRef(parents, srcDirId);
      r.parents == parents[..i] + parents[i + 1..] + [ParentReference(destDirId)]
    ensures r.Reparented? ==>
      multiset(r.parents) == multiset(parents) - multiset{ParentReference(srcDirId)} + multiset{ParentReference(destDirId)}
  {
    var refs := parents;
    var removed := false;
    var k := 0;
    while k < |refs|
      invariant 0 <= k <= |refs|
      invariant !removed && refs == parents
      invariant forall j :: 0 <= j < k ==> parents[j].id != srcDirId
    {
      if refs[k].id == srcDirId {
        refs := refs[..k] + refs[k + 1..];
        removed := true;
        break;
      }
      k := k + 1;
    }
    if !removed {
      return NotAParent(ErrorReport(ErrDoesNotExist, Text(srcPath)));
    }
    FirstRefFindsFirstMatch(parents, srcDirId, k);
    EraseOne(parents, k);
    refs := refs + [ParentReference(destDirId)];
    return Reparented(refs);
  }

  /** Erasing the element at `k` takes exactly one copy of it out of the
      list. */
  lemma EraseOne(s: seq<ParentReference>, k: nat)
    requires k < |s|
    ensures multiset(s[..k] + s[k + 1..]) == multiset(s) - multiset{s[k]}
  {
    assert s == s[..k] + [s[k]] + s[k + 1..];
  }

  /** The first reference to a folder is found wherever it sits, and one
      found is the first: the search and the predicate agree. */
  lemma {:induction false} FirstRefFindsFirstMatch(parents: seq<ParentReference>, dirId: string, i: nat)
    requires i < |parents| && parents[i].id == dirId
    requires forall j :: 0 <= j < i ==> parents[j].id != dirId
    ensures FirstRef(parents, dirId) == i
    decreases i
  {
    if i > 0 {
      assert parents[1..][i - 1] == parents[i];
      forall j | 0 <= j < i - 1 ensures parents[1..][j].id != dirId {
        assert parents[1..][j] == parents[j + 1];
      }
      FirstRefFindsFirstMatch(parents[1..], dirId, i - 1);
    }
  }
}
