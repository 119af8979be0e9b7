/** Builders for the upload-link endpoints (src/Api/UploadLinks.php). */
module UploadLinks {
  import opened Php
  import opened Http
  import opened Multipart

  // The messages of the \InvalidArgumentException the endpoints raise.
  const FolderidPathRequired := "Parameter 'folderid' or 'path' is required."
  const CommentRequired := "Parameter 'comment' is required."
  const UploadlinkidRequired := "Parameter 'uploadlinkid' is required."
  const CodeFilesRequired := "Parameters 'code' and 'files' are required."
  const CodeProgresshashRequired := "Parameters 'code' and 'progresshash' are required."
  const CodeFileidPathRequired := "Parameter 'code' and ('fileid' or 'path') are required."

  /** The keys createuploadlink may send, in the order its code assigns them. */
  const CreateUploadLinkKeys: Names := ["comment", "folderid", "path", "expire", "maxspace", "maxfiles"]

  /** What createuploadlink sends under each of its keys, in the same order (None: the key is left out). */
  function CreateUploadLinkValues(folderid: Option<int>, path: Option<string>, comment: string, expire: Option<string>, maxspace: Option<int>, maxfiles: Option<int>): seq<Option<Value>>
  {
    [Some(S(comment)),
     Int(folderid),
     Otherwise(Int(folderid), Str(path)),
     Str(expire),
     Int(maxspace),
     Int(maxfiles)]
  }

  /** createuploadlink: an upload link into a folder given by id, or else by path, with a mandatory comment. */
  method CreateUploadLink(folderid: Option<int>, path: Option<string>, comment: string, expire: Option<string>, maxspace: Option<int>, maxfiles: Option<int>)
    returns (r: Result<Request>)
    ensures r.Failure? <==> (folderid.None? && path.None?) || EmptyStr(comment)
    ensures r.Failure? ==> r.error == InvalidArgument(if folderid.None? && path.None? then FolderidPathRequired else CommentRequired)
    ensures r.Success? ==> r.value == JsonGet("createuploadlink", Query(CreateUploadLinkKeys, CreateUploadLinkValues(folderid, path, comment, expire, maxspace, maxfiles)))
  {
    if folderid.None? && path.None? {
      return Failure(InvalidArgument(FolderidPathRequired));
    }
    if EmptyStr(comment) {
      return Failure(InvalidArgument(CommentRequired));
    }
    var ks, vs := CreateUploadLinkKeys, CreateUploadLinkValues(folderid, path, comment, expire, maxspace, maxfiles);
    assert |ks| == |vs| == 6;
    var query: PArray := [(Name(ks[0]), S(comment))];
    SeededCompose(query, ks, vs);
    query := Assign(query, ks, vs, 1);  // folderid
    query := Assign(query, ks, vs, 2);  // path, only without folderid
    query := Assign(query, ks, vs, 3);  // expire
    query := Assign(query, ks, vs, 4);  // maxspace
    query := Assign(query, ks, vs, 5);  // maxfiles
    r := Success(JsonGet("createuploadlink", query));
  }

  /** listuploadlinks: the upload links of the user; no query. */
  function ListUploadLinks(): (r: Result<Request>)
    ensures r.Success?
    ensures r.Success? ==> r.value == JsonGet("listuploadlinks", [])
  {
    Success(JsonGet("listuploadlinks", []))
  }

  /** deleteuploadlink: deletes an upload link. */
  function DeleteUploadLink(uploadlinkid: int): (r: Result<Request>)
    ensures r.Failure? <==> EmptyInt(uploadlinkid)
    ensures r.Failure? ==> r.error == InvalidArgument(UploadlinkidRequired)
    ensures r.Success? ==> r.value == JsonGet("deleteuploadlink", [(Name("uploadlinkid"), I(uploadlinkid))])
  {
    if EmptyInt(uploadlinkid) then Failure(InvalidArgument(UploadlinkidRequired))
    else Success(JsonGet("deleteuploadlink", [(Name("uploadlinkid"), I(uploadlinkid))]))
  }

  /** showuploadlink: the details of an upload link. */
  function ShowUploadLink(uploadlinkid: int): (r: Result<Request>)
    ensures r.Failure? <==> EmptyInt(uploadlinkid)
    ensures r.Failure? ==> r.error == InvalidArgument(UploadlinkidRequired)
    ensures r.Success? ==> r.value == JsonGet("showuploadlink", [(Name("uploadlinkid"), I(uploadlinkid))])
  {
    if EmptyInt(uploadlinkid) then Failure(InvalidArgument(UploadlinkidRequired))
    else Success(JsonGet("showuploadlink", [(Name("uploadlinkid"), I(uploadlinkid))]))
  }

  /** The keys uploadtolink may send, in the order its code assigns them. */
  const UploadToLinkKeys: Names := ["code", "nopartial", "progresshash"]

  /** What uploadtolink sends under each of its keys, in the same order (None: the key is left out). */
  function UploadToLinkValues(code: string, nopartial: bool, progresshash: Option<string>): seq<Option<Value>>
  {
    [Some(S(code)),
     Bit(nopartial),
     Str(progresshash)]
  }

  /** uploadtolink: uploads the files of `files` to the upload link `code`. */
  method UploadToLink(code: string, files: seq<(Key, FileEntry)>, nopartial: bool, progresshash: Option<string>)
    returns (r: Result<Request>)
    ensures r.Failure? <==> (EmptyStr(code) || files == []) || (exists i :: 0 <= i < |files| && Rejects(ToLink, files[i].1))
    ensures r.Failure? ==> r.error == (if EmptyStr(code) || files == [] then InvalidArgument(CodeFilesRequired) else FopenArray)
    ensures r.Success? ==>
      && Parts(ToLink, files).Success?
      && r.value == MultipartPost("uploadtolink", Query(UploadToLinkKeys, UploadToLinkValues(code, nopartial, progresshash)), Parts(ToLink, files).value)
  {
    if EmptyStr(code) || files == [] {
      return Failure(InvalidArgument(CodeFilesRequired));
    }
    var parts := CollectParts(ToLink, files);
    PartsFailure(ToLink, files);
    if parts.Failure? {
      return Failure(parts.error);
    }
    var ks, vs := UploadToLinkKeys, UploadToLinkValues(code, nopartial, progresshash);
    assert |ks| == |vs| == 3;
    var query: PArray := [(Name(ks[0]), S(code))];
    SeededCompose(query, ks, vs);
    query := Assign(query, ks, vs, 1);  // nopartial
    query := Assign(query, ks, vs, 2);  // progresshash
    r := Success(MultipartPost("uploadtolink", query, parts.value));
  }

  /** uploadlinkprogress: the progress of an upload to the link `code`. */
  function UploadLinkProgress(code: string, progresshash: string): (r: Result<Request>)
    ensures r.Failure? <==> EmptyStr(code) || EmptyStr(progresshash)
    ensures r.Failure? ==> r.error == InvalidArgument(CodeProgresshashRequired)
    ensures r.Success? ==> r.value == JsonGet("uploadlinkprogress", [(Name("code"), S(code)), (Name("progresshash"), S(progresshash))])
  {
    if EmptyStr(code) || EmptyStr(progresshash) then Failure(InvalidArgument(CodeProgresshashRequired))
    else Success(JsonGet("uploadlinkprogress", [(Name("code"), S(code)), (Name("progresshash"), S(progresshash))]))
  }

  /** The keys copytolink may send, in the order its code assigns them. */
  const CopyToLinkKeys: Names := ["code", "fileid", "path", "toname"]

  /** What copytolink sends under each of its keys, in the same order (None: the key is left out). */
  function CopyToLinkValues(code: string, fileid: Option<int>, path: Option<string>, toname: Option<string>): seq<Option<Value>>
  {
    [Some(S(code)),
     Int(fileid),
     Otherwise(Int(fileid), Str(path)),
     Str(toname)]
  }

  /** copytolink: copies one of the user's files, by id or else by path, to the upload link `code`. */
  method CopyToLink(code: string, fileid: Option<int>, path: Option<string>, toname: Option<string>)
    returns (r: Result<Request>)
    ensures r.Failure? <==> EmptyStr(code) || (fileid.None? && path.None?)
    ensures r.Failure? ==> r.error == InvalidArgument(CodeFileidPathRequired)
    ensures r.Success? ==> r.value == JsonGet("copytolink", Query(CopyToLinkKeys, CopyToLinkValues(code, fileid, path, toname)))
  {
    if EmptyStr(code) || (fileid.None? && path.None?) {
      return Failure(InvalidArgument(CodeFileidPathRequired));
    }
    var ks, vs := CopyToLinkKeys, CopyToLinkValues(code, fileid, path, toname);
    assert |ks| == |vs| == 4;
    var query: PArray := [(Name(ks[0]), S(code))];
    SeededCompose(query, ks, vs);
    query := Assign(query, ks, vs, 1);  // fileid
    query := Assign(query, ks, vs, 2);  // path, only without fileid
    query := Assign(query, ks, vs, 3);  // toname
    r := Success(JsonGet("copytolink", query));
  }

  const OptionMissing := "At least one option parameter must be specified."

  /** changeuploadlink: `array_merge(['uploadlinkid' => uploadlinkid], options)`, after
      rejecting a zero id and then an empty options array. */
  function ChangeUploadLink(uploadlinkid: int, options: PArray): (r: Result<Request>)
    ensures r.Failure? <==> EmptyInt(uploadlinkid) || options == []
    ensures r.Failure? ==> r.error == InvalidArgument(if EmptyInt(uploadlinkid) then UploadlinkidRequired else OptionMissing)
    ensures r.Success? ==> r.value == JsonGet("changeuploadlink", Merge([(Name("uploadlinkid"), I(uploadlinkid))], options))
  {
    if EmptyInt(uploadlinkid) then Failure(InvalidArgument(UploadlinkidRequired))
    else if options == [] then Failure(InvalidArgument(OptionMissing))
    else Success(JsonGet("changeuploadlink", Merge([(Name("uploadlinkid"), I(uploadlinkid))], options)))
  }

  /** What changeuploadlink sends: `uploadlinkid` first, under the options' value for it when
      they carry one (array_merge lets a later string key win), every other string
      key of the options with the options' value, and no key twice. */
  lemma ChangeUploadLinkMerge(uploadlinkid: int, options: PArray)
    requires !EmptyInt(uploadlinkid) && options != [] && Distinct(options)
    ensures ChangeUploadLink(uploadlinkid, options).Success?
    ensures var q := ChangeUploadLink(uploadlinkid, options).value.query;
      && |q| >= 1 && q[0].0 == Name("uploadlinkid")
      && Lookup(q, Name("uploadlinkid")) == Some(Lookup(options, Name("uploadlinkid")).GetOr(I(uploadlinkid)))
      && (forall j: Key :: j.Name? && j != Name("uploadlinkid") ==> Lookup(q, j) == Lookup(options, j))
      && Distinct(q)
  {
    MergeAfterHead(Name("uploadlinkid"), I(uploadlinkid), options);
  }
}
