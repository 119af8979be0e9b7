/** Builders for the sharing endpoints (src/Api/Sharing.php). */
module Sharing {
  import opened Php
  import opened Http

  /** listshares: the caller's parameters are passed on as the query, unchanged and unchecked. */
  function ListShares(params: PArray): (r: Result<Request>)
    ensures r.Success? && r.value.verb == GET && r.value.endpoint == "listshares"
    ensures r.value.query == params && r.value.multipart.None? && r.value.decoding == Json
  {
    Success(JsonGet("listshares", params))
  }

  // The messages of the \InvalidArgumentException the endpoints raise.
  const FolderidPathMissing := "Either 'folderid' or 'path' must be provided."
  const CodeRequired := "Parameter 'code' is required."
  const SharerequestidRequired := "Parameter 'sharerequestid' is required."
  const SharerequestidCodeMissing := "Either 'sharerequestid' or 'code' must be provided."
  const ShareidRequired := "Parameter 'shareid' is required."

  /** The keys sharefolder may send, in the order its code assigns them. */
  const ShareFolderKeys: Names := ["mail", "permissions", "folderid", "path", "name", "message"]

  /** What sharefolder sends under each of its keys, in the same order (None: the key is left out). */
  function ShareFolderValues(folderid: Option<int>, path: Option<string>, mail: string, permissions: int, name: Option<string>, message: Option<string>): seq<Option<Value>>
  {
    [Some(S(mail)),
     Some(I(permissions)),
     Int(folderid),
     Otherwise(Int(folderid), Str(path)),
     Str(name),
     Str(message)]
  }

  /** sharefolder: shares a folder, by id or else by path, with `mail`; neither `mail` nor `permissions` is checked locally. */
  method ShareFolder(folderid: Option<int>, path: Option<string>, mail: string, permissions: int, name: Option<string>, message: Option<string>)
    returns (r: Result<Request>)
    ensures r.Failure? <==> folderid.None? && path.None?
    ensures r.Failure? ==> r.error == InvalidArgument(FolderidPathMissing)
    ensures r.Success? ==> r.value == JsonGet("sharefolder", Query(ShareFolderKeys, ShareFolderValues(folderid, path, mail, permissions, name, message)))
  {
    var ks, vs := ShareFolderKeys, ShareFolderValues(folderid, path, mail, permissions, name, message);
    assert |ks| == |vs| == 6;
    var query: PArray := [(Name(ks[0]), S(mail)), (Name(ks[1]), I(permissions))];
    SeededCompose(query, ks, vs);
    if folderid.None? && path.None? {
      return Failure(InvalidArgument(FolderidPathMissing));
    }
    query := Assign(query, ks, vs, 2);  // folderid
    query := Assign(query, ks, vs, 3);  // path, only without folderid
    query := Assign(query, ks, vs, 4);  // name
    query := Assign(query, ks, vs, 5);  // message
    r := Success(JsonGet("sharefolder", query));
  }

  /** sharerequestinfo: the details of a share request. */
  function ShareRequestInfo(code: string): (r: Result<Request>)
    ensures r.Failure? <==> EmptyStr(code)
    ensures r.Failure? ==> r.error == InvalidArgument(CodeRequired)
    ensures r.Success? ==> r.value == JsonGet("sharerequestinfo", [(Name("code"), S(code))])
  {
    if EmptyStr(code) then Failure(InvalidArgument(CodeRequired))
    else Success(JsonGet("sharerequestinfo", [(Name("code"), S(code))]))
  }

  /** cancelsharerequest: withdraws a share request the user sent. */
  function CancelShareRequest(sharerequestid: int): (r: Result<Request>)
    ensures r.Failure? <==> EmptyInt(sharerequestid)
    ensures r.Failure? ==> r.error == InvalidArgument(SharerequestidRequired)
    ensures r.Success? ==> r.value == JsonGet("cancelsharerequest", [(Name("sharerequestid"), I(sharerequestid))])
  {
    if EmptyInt(sharerequestid) then Failure(InvalidArgument(SharerequestidRequired))
    else Success(JsonGet("cancelsharerequest", [(Name("sharerequestid"), I(sharerequestid))]))
  }

  /** The keys acceptshare may send, in the order its code assigns them. */
  const AcceptShareKeys: Names := ["sharerequestid", "code", "name", "folderid", "path", "always"]

  /** What acceptshare sends under each of its keys, in the same order (None: the key is left out). */
  function AcceptShareValues(sharerequestid: Option<int>, code: Option<string>, name: Option<string>, folderid: Option<int>, path: Option<string>, always: bool): seq<Option<Value>>
  {
    [Int(sharerequestid),
     Otherwise(Int(sharerequestid), Str(code)),
     Str(name),
     Int(folderid),
     Str(path),
     Bit(always)]
  }

  /** acceptshare: accepts a share request named by id, or else by code; `folderid` and `path` are each sent when given. */
  method AcceptShare(sharerequestid: Option<int>, code: Option<string>, name: Option<string>, folderid: Option<int>, path: Option<string>, always: bool)
    returns (r: Result<Request>)
    ensures r.Failure? <==> sharerequestid.None? && code.None?
    ensures r.Failure? ==> r.error == InvalidArgument(SharerequestidCodeMissing)
    ensures r.Success? ==> r.value == JsonGet("acceptshare", Query(AcceptShareKeys, AcceptShareValues(sharerequestid, code, name, folderid, path, always)))
  {
    var ks, vs := AcceptShareKeys, AcceptShareValues(sharerequestid, code, name, folderid, path, always);
    assert |ks| == |vs| == 6;
    if sharerequestid.None? && code.None? {
      return Failure(InvalidArgument(SharerequestidCodeMissing));
    }
    var query: PArray := [];
    query := Assign(query, ks, vs, 0);  // sharerequestid
    query := Assign(query, ks, vs, 1);  // code, only without sharerequestid
    query := Assign(query, ks, vs, 2);  // name
    query := Assign(query, ks, vs, 3);  // folderid
    query := Assign(query, ks, vs, 4);  // path
    query := Assign(query, ks, vs, 5);  // always
    r := Success(JsonGet("acceptshare", query));
  }

  /** The keys declineshare may send, in the order its code assigns them. */
  const DeclineShareKeys: Names := ["sharerequestid", "code", "block"]

  /** What declineshare sends under each of its keys, in the same order (None: the key is left out). */
  function DeclineShareValues(sharerequestid: Option<int>, code: Option<string>, block: bool): seq<Option<Value>>
  {
    [Int(sharerequestid),
     Otherwise(Int(sharerequestid), Str(code)),
     Bit(block)]
  }

  /** declineshare: declines a share request named by id, or else by code. */
  method DeclineShare(sharerequestid: Option<int>, code: Option<string>, block: bool)
    returns (r: Result<Request>)
    ensures r.Failure? <==> sharerequestid.None? && code.None?
    ensures r.Failure? ==> r.error == InvalidArgument(SharerequestidCodeMissing)
    ensures r.Success? ==> r.value == JsonGet("declineshare", Query(DeclineShareKeys, DeclineShareValues(sharerequestid, code, block)))
  {
    var ks, vs := DeclineShareKeys, DeclineShareValues(sharerequestid, code, block);
    assert |ks| == |vs| == 3;
    if sharerequestid.None? && code.None? {
      return Failure(InvalidArgument(SharerequestidCodeMissing));
    }
    var query: PArray := [];
    query := Assign(query, ks, vs, 0);  // sharerequestid
    query := Assign(query, ks, vs, 1);  // code, only without sharerequestid
    query := Assign(query, ks, vs, 2);  // block
    r := Success(JsonGet("declineshare", query));
  }

  /** removeshare: removes an active share. */
  function RemoveShare(shareid: int): (r: Result<Request>)
    ensures r.Failure? <==> EmptyInt(shareid)
    ensures r.Failure? ==> r.error == InvalidArgument(ShareidRequired)
    ensures r.Success? ==> r.value == JsonGet("removeshare", [(Name("shareid"), I(shareid))])
  {
    if EmptyInt(shareid) then Failure(InvalidArgument(ShareidRequired))
    else Success(JsonGet("removeshare", [(Name("shareid"), I(shareid))]))
  }

  /** changeshare: changes the permissions of a share; the source's `isset($permissions)` test holds for every int, so only `shareid` is checked. */
  function ChangeShare(shareid: int, permissions: int): (r: Result<Request>)
    ensures r.Failure? <==> EmptyInt(shareid)
    ensures r.Failure? ==> r.error == InvalidArgument(ShareidRequired)
    ensures r.Success? ==> r.value == JsonGet("changeshare", [(Name("shareid"), I(shareid)), (Name("permissions"), I(permissions))])
  {
    if EmptyInt(shareid) then Failure(InvalidArgument(ShareidRequired))
    else Success(JsonGet("changeshare", [(Name("shareid"), I(shareid)), (Name("permissions"), I(permissions))]))
  }

  /** acceptshare names the request by id when given, else by code, and sends
      `folderid` and `path` independently of each other. */
  lemma AcceptShareTargets(sharerequestid: Option<int>, code: Option<string>, name: Option<string>, folderid: Option<int>, path: Option<string>, always: bool)
    ensures var q := Query(AcceptShareKeys, AcceptShareValues(sharerequestid, code, name, folderid, path, always));
      && (sharerequestid.Some? ==> Lookup(q, Name("sharerequestid")) == Some(I(sharerequestid.value)) && Lookup(q, Name("code")).None?)
      && (sharerequestid.None? ==> Lookup(q, Name("code")) == Str(code))
      && Lookup(q, Name("folderid")) == Int(folderid)
      && Lookup(q, Name("path")) == Str(path)
  {
    var ks := AcceptShareKeys;
    var vs := AcceptShareValues(sharerequestid, code, name, folderid, path, always);
    QueryContents(ks, vs);
    assert ks[0] == "sharerequestid" && ks[1] == "code" && ks[3] == "folderid" && ks[4] == "path";
  }
}
