/** Builders for the revision endpoints (src/Api/Revisions.php). */
module Revisions {
  import opened Php
  import opened Http

  // The messages of the \InvalidArgumentException the endpoints raise.
  const FileidPathRequired := "Parameter 'fileid' or 'path' is required."
  const FileidPathRevisionidRequired := "Parameter 'fileid' or 'path' and 'revisionid' are required."

  /** The keys listrevisions may send, in the order its code assigns them. */
  const ListRevisionsKeys: Names := ["fileid", "path"]

  /** What listrevisions sends under each of its keys, in the same order (None: the key is left out). */
  function ListRevisionsValues(fileid: Option<int>, path: Option<string>): seq<Option<Value>>
  {
    [Int(fileid),
     Otherwise(Int(fileid), Str(path))]
  }

  /** listrevisions: the revisions of a file by id, or else by path. */
  method ListRevisions(fileid: Option<int>, path: Option<string>)
    returns (r: Result<Request>)
    ensures r.Failure? <==> fileid.None? && path.None?
    ensures r.Failure? ==> r.error == InvalidArgument(FileidPathRequired)
    ensures r.Success? ==> r.value == JsonGet("listrevisions", Query(ListRevisionsKeys, ListRevisionsValues(fileid, path)))
  {
    if fileid.None? && path.None? {
      return Failure(InvalidArgument(FileidPathRequired));
    }
    var ks, vs := ListRevisionsKeys, ListRevisionsValues(fileid, path);
    assert |ks| == |vs| == 2;
    var query: PArray := [];
    query := Assign(query, ks, vs, 0);  // fileid
    query := Assign(query, ks, vs, 1);  // path, only without fileid
    r := Success(JsonGet("listrevisions", query));
  }

  /** The keys revertrevision may send, in the order its code assigns them. */
  const RevertRevisionKeys: Names := ["revisionid", "fileid", "path"]

  /** What revertrevision sends under each of its keys, in the same order (None: the key is left out). */
  function RevertRevisionValues(fileid: Option<int>, path: Option<string>, revisionid: int): seq<Option<Value>>
  {
    [Some(I(revisionid)),
     Int(fileid),
     Otherwise(Int(fileid), Str(path))]
  }

  /** revertrevision: makes a revision the current contents of a file. */
  method RevertRevision(fileid: Option<int>, path: Option<string>, revisionid: int)
    returns (r: Result<Request>)
    ensures r.Failure? <==> (fileid.None? && path.None?) || EmptyInt(revisionid)
    ensures r.Failure? ==> r.error == InvalidArgument(FileidPathRevisionidRequired)
    ensures r.Success? ==> r.value == JsonGet("revertrevision", Query(RevertRevisionKeys, RevertRevisionValues(fileid, path, revisionid)))
  {
    if (fileid.None? && path.None?) || EmptyInt(revisionid) {
      return Failure(InvalidArgument(FileidPathRevisionidRequired));
    }
    var ks, vs := RevertRevisionKeys, RevertRevisionValues(fileid, path, revisionid);
    assert |ks| == |vs| == 3;
    var query: PArray := [(Name(ks[0]), I(revisionid))];
    SeededCompose(query, ks, vs);
    query := Assign(query, ks, vs, 1);  // fileid
    query := Assign(query, ks, vs, 2);  // path, only without fileid
    r := Success(JsonGet("revertrevision", query));
  }
}
