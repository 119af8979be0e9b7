/** Builders for the thumbnail endpoints (src/Api/Thumbnails.php). */
module Thumbnails {
  import opened Php
  import opened Http

  // The messages of the \InvalidArgumentException the endpoints raise.
  const FileidPathSizeRequired := "Parameter 'fileid' or 'path' and 'size' are required."
  const FileidsSizeRequired := "Parameters 'fileids' and 'size' are required."
  const TopathTofolderidTonameMissing := "Either 'topath' or both 'tofolderid' and 'toname' must be provided."

  /** The keys getthumblink may send, in the order its code assigns them. */
  const GetThumbLinkKeys: Names := ["size", "fileid", "path", "crop", "type"]

  /** What getthumblink sends under each of its keys, in the same order (None: the key is left out). */
  function GetThumbLinkValues(fileid: Option<int>, path: Option<string>, size: string, crop: bool, thumbtype: Option<string>): seq<Option<Value>>
  {
    [Some(S(size)),
     Int(fileid),
     Otherwise(Int(fileid), Str(path)),
     Bit(crop),
     Str(thumbtype)]
  }

  /** getthumblink: a link to a thumbnail of a file by id, or else by path (`thumbtype` is the `type` argument). */
  method GetThumbLink(fileid: Option<int>, path: Option<string>, size: string, crop: bool, thumbtype: Option<string>)
    returns (r: Result<Request>)
    ensures r.Failure? <==> (fileid.None? && path.None?) || EmptyStr(size)
    ensures r.Failure? ==> r.error == InvalidArgument(FileidPathSizeRequired)
    ensures r.Success? ==> r.value == JsonGet("getthumblink", Query(GetThumbLinkKeys, GetThumbLinkValues(fileid, path, size, crop, thumbtype)))
  {
    if (fileid.None? && path.None?) || EmptyStr(size) {
      return Failure(InvalidArgument(FileidPathSizeRequired));
    }
    var ks, vs := GetThumbLinkKeys, GetThumbLinkValues(fileid, path, size, crop, thumbtype);
    assert |ks| == |vs| == 5;
    var query: PArray := [(Name(ks[0]), S(size))];
    SeededCompose(query, ks, vs);
    query := Assign(query, ks, vs, 1);  // fileid
    query := Assign(query, ks, vs, 2);  // path, only without fileid
    query := Assign(query, ks, vs, 3);  // crop
    query := Assign(query, ks, vs, 4);  // type
    r := Success(JsonGet("getthumblink", query));
  }

  /** The keys getthumbslinks may send, in the order its code assigns them. */
  const GetThumbsLinksKeys: Names := ["fileids", "size", "crop", "type"]

  /** What getthumbslinks sends under each of its keys, in the same order (None: the key is left out). */
  function GetThumbsLinksValues(fileids: string, size: string, crop: bool, thumbtype: Option<string>): seq<Option<Value>>
  {
    [Some(S(fileids)),
     Some(S(size)),
     Bit(crop),
     Str(thumbtype)]
  }

  /** getthumbslinks: links to thumbnails of several files. */
  method GetThumbsLinks(fileids: string, size: string, crop: bool, thumbtype: Option<string>)
    returns (r: Result<Request>)
    ensures r.Failure? <==> EmptyStr(fileids) || EmptyStr(size)
    ensures r.Failure? ==> r.error == InvalidArgument(FileidsSizeRequired)
    ensures r.Success? ==> r.value == JsonGet("getthumbslinks", Query(GetThumbsLinksKeys, GetThumbsLinksValues(fileids, size, crop, thumbtype)))
  {
    if EmptyStr(fileids) || EmptyStr(size) {
      return Failure(InvalidArgument(FileidsSizeRequired));
    }
    var ks, vs := GetThumbsLinksKeys, GetThumbsLinksValues(fileids, size, crop, thumbtype);
    assert |ks| == |vs| == 4;
    var query: PArray := [(Name(ks[0]), S(fileids)), (Name(ks[1]), S(size))];
    SeededCompose(query, ks, vs);
    query := Assign(query, ks, vs, 2);  // crop
    query := Assign(query, ks, vs, 3);  // type
    r := Success(JsonGet("getthumbslinks", query));
  }

  /** The keys getthumb may send, in the order its code assigns them. */
  const GetThumbKeys: Names := ["size", "fileid", "path", "crop", "type"]

  /** What getthumb sends under each of its keys, in the same order (None: the key is left out). */
  function GetThumbValues(fileid: Option<int>, path: Option<string>, size: string, crop: bool, thumbtype: Option<string>): seq<Option<Value>>
  {
    [Some(S(size)),
     Int(fileid),
     Otherwise(Int(fileid), Str(path)),
     Bit(crop),
     Str(thumbtype)]
  }

  /** getthumb: a thumbnail of a file, returned as raw bytes. */
  method GetThumb(fileid: Option<int>, path: Option<string>, size: string, crop: bool, thumbtype: Option<string>)
    returns (r: Result<Request>)
    ensures r.Failure? <==> (fileid.None? && path.None?) || EmptyStr(size)
    ensures r.Failure? ==> r.error == InvalidArgument(FileidPathSizeRequired)
    ensures r.Success? ==> r.value == RawGet("getthumb", Query(GetThumbKeys, GetThumbValues(fileid, path, size, crop, thumbtype)))
  {
    if (fileid.None? && path.None?) || EmptyStr(size) {
      return Failure(InvalidArgument(FileidPathSizeRequired));
    }
    var ks, vs := GetThumbKeys, GetThumbValues(fileid, path, size, crop, thumbtype);
    assert |ks| == |vs| == 5;
    var query: PArray := [(Name(ks[0]), S(size))];
    SeededCompose(query, ks, vs);
    query := Assign(query, ks, vs, 1);  // fileid
    query := Assign(query, ks, vs, 2);  // path, only without fileid
    query := Assign(query, ks, vs, 3);  // crop
    query := Assign(query, ks, vs, 4);  // type
    r := Success(RawGet("getthumb", query));
  }

  /** The keys savethumb may send, in the order its code assigns them. */
  const SaveThumbKeys: Names := ["size", "fileid", "path", "topath", "tofolderid", "toname", "crop", "type", "noover"]

  /** What savethumb sends under each of its keys, in the same order (None: the key is left out). */
  function SaveThumbValues(fileid: Option<int>, path: Option<string>, size: string, topath: Option<string>, tofolderid: Option<int>, toname: Option<string>, crop: bool, thumbtype: Option<string>, noover: bool): seq<Option<Value>>
  {
    [Some(S(size)),
     Int(fileid),
     Otherwise(Int(fileid), Str(path)),
     Str(topath),
     Int(tofolderid),
     Str(toname),
     Bit(crop),
     Str(thumbtype),
     Bit(noover)]
  }

  /** savethumb: saves a thumbnail of a file into the user's filesystem. */
  method SaveThumb(fileid: Option<int>, path: Option<string>, size: string, topath: Option<string>, tofolderid: Option<int>, toname: Option<string>, crop: bool, thumbtype: Option<string>, noover: bool)
    returns (r: Result<Request>)
    ensures r.Failure? <==> ((fileid.None? && path.None?) || EmptyStr(size)) || (topath.None? && (tofolderid.None? || toname.None?))
    ensures r.Failure? ==> r.error == InvalidArgument(if (fileid.None? && path.None?) || EmptyStr(size) then FileidPathSizeRequired else TopathTofolderidTonameMissing)
    ensures r.Success? ==> r.value == JsonGet("savethumb", Query(SaveThumbKeys, SaveThumbValues(fileid, path, size, topath, tofolderid, toname, crop, thumbtype, noover)))
  {
    if (fileid.None? && path.None?) || EmptyStr(size) {
      return Failure(InvalidArgument(FileidPathSizeRequired));
    }
    if topath.None? && (tofolderid.None? || toname.None?) {
      return Failure(InvalidArgument(TopathTofolderidTonameMissing));
    }
    var ks, vs := SaveThumbKeys, SaveThumbValues(fileid, path, size, topath, tofolderid, toname, crop, thumbtype, noover);
    assert |ks| == |vs| == 9;
    var query: PArray := [(Name(ks[0]), S(size))];
    SeededCompose(query, ks, vs);
    query := Assign(query, ks, vs, 1);  // fileid
    query := Assign(query, ks, vs, 2);  // path, only without fileid
    query := Assign(query, ks, vs, 3);  // topath
    query := Assign(query, ks, vs, 4);  // tofolderid
    query := Assign(query, ks, vs, 5);  // toname
    query := Assign(query, ks, vs, 6);  // crop
    query := Assign(query, ks, vs, 7);  // type
    query := Assign(query, ks, vs, 8);  // noover
    r := Success(JsonGet("savethumb", query));
  }
}
