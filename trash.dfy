/** Builders for the trash endpoints (src/Api/Trash.php). */
module Trash {
  import opened Php
  import opened Http

  // The messages of the \InvalidArgumentException the endpoints raise.
  const FileidFolderidRequired := "Parameter 'fileid' or 'folderid' is required."

  /** The keys trash_list may send, in the order its code assigns them. */
  const ListKeys: Names := ["folderid", "nofiles", "recursive"]

  /** What trash_list sends under each of its keys, in the same order (None: the key is left out). */
  function ListValues(folderid: int, nofiles: bool, recursive: bool): seq<Option<Value>>
  {
    [Some(I(folderid)),
     Bit(nofiles),
     Bit(recursive)]
  }

  /** trash_list: the contents of the trash of a folder (the source defaults `folderid` to 0); never rejected locally. */
  method List(folderid: int, nofiles: bool, recursive: bool)
    returns (r: Result<Request>)
    ensures r.Success?
    ensures r.Success? ==> r.value == JsonGet("trash_list", Query(ListKeys, ListValues(folderid, nofiles, recursive)))
  {
    var ks, vs := ListKeys, ListValues(folderid, nofiles, recursive);
    assert |ks| == |vs| == 3;
    var query: PArray := [(Name(ks[0]), I(folderid))];
    SeededCompose(query, ks, vs);
    query := Assign(query, ks, vs, 1);  // nofiles
    query := Assign(query, ks, vs, 2);  // recursive
    r := Success(JsonGet("trash_list", query));
  }

  /** The keys trash_restorepath may send, in the order its code assigns them. */
  const RestorePathKeys: Names := ["fileid", "folderid"]

  /** What trash_restorepath sends under each of its keys, in the same order (None: the key is left out). */
  function RestorePathValues(fileid: Option<int>, folderid: Option<int>): seq<Option<Value>>
  {
    [Int(fileid),
     Otherwise(Int(fileid), Int(folderid))]
  }

  /** trash_restorepath: where a trashed item would be restored. */
  method RestorePath(fileid: Option<int>, folderid: Option<int>)
    returns (r: Result<Request>)
    ensures r.Failure? <==> fileid.None? && folderid.None?
    ensures r.Failure? ==> r.error == InvalidArgument(FileidFolderidRequired)
    ensures r.Success? ==> r.value == JsonGet("trash_restorepath", Query(RestorePathKeys, RestorePathValues(fileid, folderid)))
  {
    if fileid.None? && folderid.None? {
      return Failure(InvalidArgument(FileidFolderidRequired));
    }
    var ks, vs := RestorePathKeys, RestorePathValues(fileid, folderid);
    assert |ks| == |vs| == 2;
    var query: PArray := [];
    query := Assign(query, ks, vs, 0);  // fileid
    query := Assign(query, ks, vs, 1);  // folderid, only without fileid
    r := Success(JsonGet("trash_restorepath", query));
  }

  /** The keys trash_restore may send, in the order its code assigns them. */
  const RestoreKeys: Names := ["fileid", "folderid", "restoreto", "metadata"]

  /** What trash_restore sends under each of its keys, in the same order (None: the key is left out). */
  function RestoreValues(fileid: Option<int>, folderid: Option<int>, restoreto: Option<int>, metadata: bool): seq<Option<Value>>
  {
    [Int(fileid),
     Otherwise(Int(fileid), Int(folderid)),
     Int(restoreto),
     Bit(metadata)]
  }

  /** trash_restore: restores a trashed file, or else folder. */
  method Restore(fileid: Option<int>, folderid: Option<int>, restoreto: Option<int>, metadata: bool)
    returns (r: Result<Request>)
    ensures r.Failure? <==> fileid.None? && folderid.None?
    ensures r.Failure? ==> r.error == InvalidArgument(FileidFolderidRequired)
    ensures r.Success? ==> r.value == JsonGet("trash_restore", Query(RestoreKeys, RestoreValues(fileid, folderid, restoreto, metadata)))
  {
    if fileid.None? && folderid.None? {
      return Failure(InvalidArgument(FileidFolderidRequired));
    }
    var ks, vs := RestoreKeys, RestoreValues(fileid, folderid, restoreto, metadata);
    assert |ks| == |vs| == 4;
    var query: PArray := [];
    query := Assign(query, ks, vs, 0);  // fileid
    query := Assign(query, ks, vs, 1);  // folderid, only without fileid
    query := Assign(query, ks, vs, 2);  // restoreto
    query := Assign(query, ks, vs, 3);  // metadata
    r := Success(JsonGet("trash_restore", query));
  }

  /** The keys trash_clear may send, in the order its code assigns them. */
  const ClearKeys: Names := ["fileid", "folderid"]

  /** What trash_clear sends under each of its keys, in the same order (None: the key is left out). */
  function ClearValues(fileid: Option<int>, folderid: Option<int>): seq<Option<Value>>
  {
    [Int(fileid),
     Otherwise(Int(fileid), Int(folderid))]
  }

  /** trash_clear: deletes a trashed item for good. */
  method Clear(fileid: Option<int>, folderid: Option<int>)
    returns (r: Result<Request>)
    ensures r.Failure? <==> fileid.None? && folderid.None?
    ensures r.Failure? ==> r.error == InvalidArgument(FileidFolderidRequired)
    ensures r.Success? ==> r.value == JsonGet("trash_clear", Query(ClearKeys, ClearValues(fileid, folderid)))
  {
    if fileid.None? && folderid.None? {
      return Failure(InvalidArgument(FileidFolderidRequired));
    }
    var ks, vs := ClearKeys, ClearValues(fileid, folderid);
    assert |ks| == |vs| == 2;
    var query: PArray := [];
    query := Assign(query, ks, vs, 0);  // fileid
    query := Assign(query, ks, vs, 1);  // folderid, only without fileid
    r := Success(JsonGet("trash_clear", query));
  }
}
