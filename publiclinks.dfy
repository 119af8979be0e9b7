/** Builders for the public-link endpoints (src/Api/PublicLinks.php). */
module PublicLinks {
  import opened Php
  import opened Http

  // The messages of the \InvalidArgumentException the endpoints raise.
  const FileidPathMissing := "Either 'fileid' or 'path' must be provided."
  const FolderidPathMissing := "Either 'folderid' or 'path' must be provided."
  const NameRequired := "Parameter 'name' is required."
  const CodeRequired := "Parameter 'code' is required."
  const LinkidRequired := "Parameter 'linkid' is required."
  const CodeFileidSizeRequired := "Parameters 'code', 'fileid', and 'size' are required."
  const TopathTofolderidTonameMissing := "Either 'topath' or both 'tofolderid' and 'toname' must be provided."
  const CollectionidRequired := "Parameter 'collectionid' is required."

  /** The keys getfilepublink may send, in the order its code assigns them. */
  const GetFilePubLinkKeys: Names := ["fileid", "path", "expire", "maxdownloads", "maxtraffic", "shortlink", "linkpassword"]

  /** What getfilepublink sends under each of its keys, in the same order (None: the key is left out). */
  function GetFilePubLinkValues(fileid: Option<int>, path: Option<string>, expire: Option<string>, maxdownloads: Option<int>, maxtraffic: Option<int>, shortlink: bool, linkpassword: Option<string>): seq<Option<Value>>
  {
    [Int(fileid),
     Otherwise(Int(fileid), Str(path)),
     Str(expire),
     Int(maxdownloads),
     Int(maxtraffic),
     Bit(shortlink),
     Str(linkpassword)]
  }

  /** getfilepublink: the file by id, or else by path; then the link options that are given. */
  method GetFilePubLink(fileid: Option<int>, path: Option<string>, expire: Option<string>, maxdownloads: Option<int>, maxtraffic: Option<int>, shortlink: bool, linkpassword: Option<string>)
    returns (r: Result<Request>)
    ensures r.Failure? <==> fileid.None? && path.None?
    ensures r.Failure? ==> r.error == InvalidArgument(FileidPathMissing)
    ensures r.Success? ==> r.value == JsonGet("getfilepublink", Query(GetFilePubLinkKeys, GetFilePubLinkValues(fileid, path, expire, maxdownloads, maxtraffic, shortlink, linkpassword)))
  {
    var ks, vs := GetFilePubLinkKeys, GetFilePubLinkValues(fileid, path, expire, maxdownloads, maxtraffic, shortlink, linkpassword);
    assert |ks| == |vs| == 7;
    if fileid.None? && path.None? {
      return Failure(InvalidArgument(FileidPathMissing));
    }
    var query: PArray := [];
    query := Assign(query, ks, vs, 0);  // fileid
    query := Assign(query, ks, vs, 1);  // path, only without fileid
    query := Assign(query, ks, vs, 2);  // expire
    query := Assign(query, ks, vs, 3);  // maxdownloads
    query := Assign(query, ks, vs, 4);  // maxtraffic
    query := Assign(query, ks, vs, 5);  // shortlink
    query := Assign(query, ks, vs, 6);  // linkpassword
    r := Success(JsonGet("getfilepublink", query));
  }

  /** The keys getfolderpublink may send, in the order its code assigns them. */
  const GetFolderPubLinkKeys: Names := ["folderid", "path", "expire", "maxdownloads", "maxtraffic", "shortlink", "linkpassword"]

  /** What getfolderpublink sends under each of its keys, in the same order (None: the key is left out). */
  function GetFolderPubLinkValues(folderid: Option<int>, path: Option<string>, expire: Option<string>, maxdownloads: Option<int>, maxtraffic: Option<int>, shortlink: bool, linkpassword: Option<string>): seq<Option<Value>>
  {
    [Int(folderid),
     Otherwise(Int(folderid), Str(path)),
     Str(expire),
     Int(maxdownloads),
     Int(maxtraffic),
     Bit(shortlink),
     Str(linkpassword)]
  }

  /** getfolderpublink: the folder by id, or else by path; then the link options that are given. */
  method GetFolderPubLink(folderid: Option<int>, path: Option<string>, expire: Option<string>, maxdownloads: Option<int>, maxtraffic: Option<int>, shortlink: bool, linkpassword: Option<string>)
    returns (r: Result<Request>)
    ensures r.Failure? <==> folderid.None? && path.None?
    ensures r.Failure? ==> r.error == InvalidArgument(FolderidPathMissing)
    ensures r.Success? ==> r.value == JsonGet("getfolderpublink", Query(GetFolderPubLinkKeys, GetFolderPubLinkValues(folderid, path, expire, maxdownloads, maxtraffic, shortlink, linkpassword)))
  {
    var ks, vs := GetFolderPubLinkKeys, GetFolderPubLinkValues(folderid, path, expire, maxdownloads, maxtraffic, shortlink, linkpassword);
    assert |ks| == |vs| == 7;
    if folderid.None? && path.None? {
      return Failure(InvalidArgument(FolderidPathMissing));
    }
    var query: PArray := [];
    query := Assign(query, ks, vs, 0);  // folderid
    query := Assign(query, ks, vs, 1);  // path, only without folderid
    query := Assign(query, ks, vs, 2);  // expire
    query := Assign(query, ks, vs, 3);  // maxdownloads
    query := Assign(query, ks, vs, 4);  // maxtraffic
    query := Assign(query, ks, vs, 5);  // shortlink
    query := Assign(query, ks, vs, 6);  // linkpassword
    r := Success(JsonGet("getfolderpublink", query));
  }

  /** The keys gettreepublink may send, in the order its code assigns them. */
  const GetTreePubLinkKeys: Names := ["name", "fileids", "folderids", "folderid", "expire", "maxdownloads", "maxtraffic", "shortlink", "linkpassword"]

  /** What gettreepublink sends under each of its keys, in the same order (None: the key is left out). */
  function GetTreePubLinkValues(name: string, fileids: Option<string>, folderids: Option<string>, folderid: Option<int>, expire: Option<string>, maxdownloads: Option<int>, maxtraffic: Option<int>, shortlink: bool, linkpassword: Option<string>): seq<Option<Value>>
  {
    [Some(S(name)),
     Str(fileids),
     Str(folderids),
     Int(folderid),
     Str(expire),
     Int(maxdownloads),
     Int(maxtraffic),
     Bit(shortlink),
     Str(linkpassword)]
  }

  /** gettreepublink: a link to a set of files and folders, named `name`. */
  method GetTreePubLink(name: string, fileids: Option<string>, folderids: Option<string>, folderid: Option<int>, expire: Option<string>, maxdownloads: Option<int>, maxtraffic: Option<int>, shortlink: bool, linkpassword: Option<string>)
    returns (r: Result<Request>)
    ensures r.Failure? <==> EmptyStr(name)
    ensures r.Failure? ==> r.error == InvalidArgument(NameRequired)
    ensures r.Success? ==> r.value == JsonGet("gettreepublink", Query(GetTreePubLinkKeys, GetTreePubLinkValues(name, fileids, folderids, folderid, expire, maxdownloads, maxtraffic, shortlink, linkpassword)))
  {
    if EmptyStr(name) {
      return Failure(InvalidArgument(NameRequired));
    }
    var ks, vs := GetTreePubLinkKeys, GetTreePubLinkValues(name, fileids, folderids, folderid, expire, maxdownloads, maxtraffic, shortlink, linkpassword);
    assert |ks| == |vs| == 9;
    var query: PArray := [(Name(ks[0]), S(name))];
    SeededCompose(query, ks, vs);
    query := Assign(query, ks, vs, 1);  // fileids
    query := Assign(query, ks, vs, 2);  // folderids
    query := Assign(query, ks, vs, 3);  // folderid
    query := Assign(query, ks, vs, 4);  // expire
    query := Assign(query, ks, vs, 5);  // maxdownloads
    query := Assign(query, ks, vs, 6);  // maxtraffic
    query := Assign(query, ks, vs, 7);  // shortlink
    query := Assign(query, ks, vs, 8);  // linkpassword
    r := Success(JsonGet("gettreepublink", query));
  }

  /** showpublink: the contents of a public link. */
  function ShowPubLink(code: string): (r: Result<Request>)
    ensures r.Failure? <==> EmptyStr(code)
    ensures r.Failure? ==> r.error == InvalidArgument(CodeRequired)
    ensures r.Success? ==> r.value == JsonGet("showpublink", [(Name("code"), S(code))])
  {
    if EmptyStr(code) then Failure(InvalidArgument(CodeRequired))
    else Success(JsonGet("showpublink", [(Name("code"), S(code))]))
  }

  /** The keys getpublinkdownload may send, in the order its code assigns them. */
  const GetPubLinkDownloadKeys: Names := ["code", "fileid", "forcedownload", "contenttype", "maxspeed", "skipfilename"]

  /** What getpublinkdownload sends under each of its keys, in the same order (None: the key is left out). */
  function GetPubLinkDownloadValues(code: string, fileid: Option<int>, forcedownload: bool, contenttype: Option<string>, maxspeed: Option<int>, skipfilename: bool): seq<Option<Value>>
  {
    [Some(S(code)),
     Int(fileid),
     Bit(forcedownload),
     Str(contenttype),
     Int(maxspeed),
     Bit(skipfilename)]
  }

  /** getpublinkdownload: a download link for a file in a public link. */
  method GetPubLinkDownload(code: string, fileid: Option<int>, forcedownload: bool, contenttype: Option<string>, maxspeed: Option<int>, skipfilename: bool)
    returns (r: Result<Request>)
    ensures r.Failure? <==> EmptyStr(code)
    ensures r.Failure? ==> r.error == InvalidArgument(CodeRequired)
    ensures r.Success? ==> r.value == JsonGet("getpublinkdownload", Query(GetPubLinkDownloadKeys, GetPubLinkDownloadValues(code, fileid, forcedownload, contenttype, maxspeed, skipfilename)))
  {
    if EmptyStr(code) {
      return Failure(InvalidArgument(CodeRequired));
    }
    var ks, vs := GetPubLinkDownloadKeys, GetPubLinkDownloadValues(code, fileid, forcedownload, contenttype, maxspeed, skipfilename);
    assert |ks| == |vs| == 6;
    var query: PArray := [(Name(ks[0]), S(code))];
    SeededCompose(query, ks, vs);
    query := Assign(query, ks, vs, 1);  // fileid
    query := Assign(query, ks, vs, 2);  // forcedownload
    query := Assign(query, ks, vs, 3);  // contenttype
    query := Assign(query, ks, vs, 4);  // maxspeed
    query := Assign(query, ks, vs, 5);  // skipfilename
    r := Success(JsonGet("getpublinkdownload", query));
  }

  /** The keys copypubfile may send, in the order its code assigns them. */
  const CopyPubFileKeys: Names := ["code", "fileid", "topath", "tofolderid", "toname", "noover"]

  /** What copypubfile sends under each of its keys, in the same order (None: the key is left out). */
  function CopyPubFileValues(code: string, fileid: Option<int>, topath: Option<string>, tofolderid: Option<int>, toname: Option<string>, noover: bool): seq<Option<Value>>
  {
    [Some(S(code)),
     Int(fileid),
     Str(topath),
     Int(tofolderid),
     Str(toname),
     Bit(noover)]
  }

  /** copypubfile: copies a file of a public link into the account. */
  method CopyPubFile(code: string, fileid: Option<int>, topath: Option<string>, tofolderid: Option<int>, toname: Option<string>, noover: bool)
    returns (r: Result<Request>)
    ensures r.Failure? <==> EmptyStr(code)
    ensures r.Failure? ==> r.error == InvalidArgument(CodeRequired)
    ensures r.Success? ==> r.value == JsonGet("copypubfile", Query(CopyPubFileKeys, CopyPubFileValues(code, fileid, topath, tofolderid, toname, noover)))
  {
    if EmptyStr(code) {
      return Failure(InvalidArgument(CodeRequired));
    }
    var ks, vs := CopyPubFileKeys, CopyPubFileValues(code, fileid, topath, tofolderid, toname, noover);
    assert |ks| == |vs| == 6;
    var query: PArray := [(Name(ks[0]), S(code))];
    SeededCompose(query, ks, vs);
    query := Assign(query, ks, vs, 1);  // fileid
    query := Assign(query, ks, vs, 2);  // topath
    query := Assign(query, ks, vs, 3);  // tofolderid
    query := Assign(query, ks, vs, 4);  // toname
    query := Assign(query, ks, vs, 5);  // noover
    r := Success(JsonGet("copypubfile", query));
  }

  /** listpublinks: sent without a query. */
  function ListPubLinks(): (r: Result<Request>)
    ensures r.Success?
    ensures r.Success? ==> r.value == JsonGet("listpublinks", [])
  {
    Success(JsonGet("listpublinks", []))
  }

  /** listplshort: sent without a query. */
  function ListPlShort(): (r: Result<Request>)
    ensures r.Success?
    ensures r.Success? ==> r.value == JsonGet("listplshort", [])
  {
    Success(JsonGet("listplshort", []))
  }

  /** deletepublink: deletes the link `linkid`. */
  function DeletePubLink(linkid: int): (r: Result<Request>)
    ensures r.Failure? <==> EmptyInt(linkid)
    ensures r.Failure? ==> r.error == InvalidArgument(LinkidRequired)
    ensures r.Success? ==> r.value == JsonGet("deletepublink", [(Name("linkid"), I(linkid))])
  {
    if EmptyInt(linkid) then Failure(InvalidArgument(LinkidRequired))
    else Success(JsonGet("deletepublink", [(Name("linkid"), I(linkid))]))
  }

  /** The keys getpubthumb may send, in the order its code assigns them. */
  const GetPubThumbKeys: Names := ["code", "fileid", "size", "crop", "type"]

  /** What getpubthumb sends under each of its keys, in the same order (None: the key is left out). */
  function GetPubThumbValues(code: string, fileid: int, size: string, crop: bool, thumbtype: Option<string>): seq<Option<Value>>
  {
    [Some(S(code)),
     Some(I(fileid)),
     Some(S(size)),
     Bit(crop),
     Str(thumbtype)]
  }

  /** getpubthumb: a thumbnail of a file in a public link, returned as raw bytes. */
  method GetPubThumb(code: string, fileid: int, size: string, crop: bool, thumbtype: Option<string>)
    returns (r: Result<Request>)
    ensures r.Failure? <==> EmptyStr(code) || EmptyInt(fileid) || EmptyStr(size)
    ensures r.Failure? ==> r.error == InvalidArgument(CodeFileidSizeRequired)
    ensures r.Success? ==> r.value == RawGet("getpubthumb", Query(GetPubThumbKeys, GetPubThumbValues(code, fileid, size, crop, thumbtype)))
  {
    if EmptyStr(code) || EmptyInt(fileid) || EmptyStr(size) {
      return Failure(InvalidArgument(CodeFileidSizeRequired));
    }
    var ks, vs := GetPubThumbKeys, GetPubThumbValues(code, fileid, size, crop, thumbtype);
    assert |ks| == |vs| == 5;
    var query: PArray := [(Name(ks[0]), S(code)), (Name(ks[1]), I(fileid)), (Name(ks[2]), S(size))];
    SeededCompose(query, ks, vs);
    query := Assign(query, ks, vs, 3);  // crop
    query := Assign(query, ks, vs, 4);  // type
    r := Success(RawGet("getpubthumb", query));
  }

  /** The keys getpubthumblink may send, in the order its code assigns them. */
  const GetPubThumbLinkKeys: Names := ["code", "fileid", "size", "crop", "type"]

  /** What getpubthumblink sends under each of its keys, in the same order (None: the key is left out). */
  function GetPubThumbLinkValues(code: string, fileid: int, size: string, crop: bool, thumbtype: Option<string>): seq<Option<Value>>
  {
    [Some(S(code)),
     Some(I(fileid)),
     Some(S(size)),
     Bit(crop),
     Str(thumbtype)]
  }

  /** getpubthumblink: a thumbnail of a file in a public link. */
  method GetPubThumbLink(code: string, fileid: int, size: string, crop: bool, thumbtype: Option<string>)
    returns (r: Result<Request>)
    ensures r.Failure? <==> EmptyStr(code) || EmptyInt(fileid) || EmptyStr(size)
    ensures r.Failure? ==> r.error == InvalidArgument(CodeFileidSizeRequired)
    ensures r.Success? ==> r.value == JsonGet("getpubthumblink", Query(GetPubThumbLinkKeys, GetPubThumbLinkValues(code, fileid, size, crop, thumbtype)))
  {
    if EmptyStr(code) || EmptyInt(fileid) || EmptyStr(size) {
      return Failure(InvalidArgument(CodeFileidSizeRequired));
    }
    var ks, vs := GetPubThumbLinkKeys, GetPubThumbLinkValues(code, fileid, size, crop, thumbtype);
    assert |ks| == |vs| == 5;
    var query: PArray := [(Name(ks[0]), S(code)), (Name(ks[1]), I(fileid)), (Name(ks[2]), S(size))];
    SeededCompose(query, ks, vs);
    query := Assign(query, ks, vs, 3);  // crop
    query := Assign(query, ks, vs, 4);  // type
    r := Success(JsonGet("getpubthumblink", query));
  }

  /** The keys getpubthumbslinks may send, in the order its code assigns them. */
  const GetPubThumbsLinksKeys: Names := ["code", "fileid", "size", "crop", "type"]

  /** What getpubthumbslinks sends under each of its keys, in the same order (None: the key is left out). */
  function GetPubThumbsLinksValues(code: string, fileid: int, size: string, crop: bool, thumbtype: Option<string>): seq<Option<Value>>
  {
    [Some(S(code)),
     Some(I(fileid)),
     Some(S(size)),
     Bit(crop),
     Str(thumbtype)]
  }

  /** getpubthumbslinks: a thumbnail of a file in a public link. */
  method GetPubThumbsLinks(code: string, fileid: int, size: string, crop: bool, thumbtype: Option<string>)
    returns (r: Result<Request>)
    ensures r.Failure? <==> EmptyStr(code) || EmptyInt(fileid) || EmptyStr(size)
    ensures r.Failure? ==> r.error == InvalidArgument(CodeFileidSizeRequired)
    ensures r.Success? ==> r.value == JsonGet("getpubthumbslinks", Query(GetPubThumbsLinksKeys, GetPubThumbsLinksValues(code, fileid, size, crop, thumbtype)))
  {
    if EmptyStr(code) || EmptyInt(fileid) || EmptyStr(size) {
      return Failure(InvalidArgument(CodeFileidSizeRequired));
    }
    var ks, vs := GetPubThumbsLinksKeys, GetPubThumbsLinksValues(code, fileid, size, crop, thumbtype);
    assert |ks| == |vs| == 5;
    var query: PArray := [(Name(ks[0]), S(code)), (Name(ks[1]), I(fileid)), (Name(ks[2]), S(size))];
    SeededCompose(query, ks, vs);
    query := Assign(query, ks, vs, 3);  // crop
    query := Assign(query, ks, vs, 4);  // type
    r := Success(JsonGet("getpubthumbslinks", query));
  }

  /** The keys savepubthumb may send, in the order its code assigns them. */
  const SavePubThumbKeys: Names := ["code", "fileid", "size", "topath", "tofolderid", "toname", "crop", "type", "noover"]

  /** What savepubthumb sends under each of its keys, in the same order (None: the key is left out). */
  function SavePubThumbValues(code: string, fileid: int, size: string, topath: Option<string>, tofolderid: Option<int>, toname: Option<string>, crop: bool, thumbtype: Option<string>, noover: bool): seq<Option<Value>>
  {
    [Some(S(code)),
     Some(I(fileid)),
     Some(S(size)),
     Str(topath),
     Int(tofolderid),
     Str(toname),
     Bit(crop),
     Str(thumbtype),
     Bit(noover)]
  }

  /** savepubthumb: saves a thumbnail of a public-link file into the account. */
  method SavePubThumb(code: string, fileid: int, size: string, topath: Option<string>, tofolderid: Option<int>, toname: Option<string>, crop: bool, thumbtype: Option<string>, noover: bool)
    returns (r: Result<Request>)
    ensures r.Failure? <==> (EmptyStr(code) || EmptyInt(fileid) || EmptyStr(size)) || (topath.None? && (tofolderid.None? || toname.None?))
    ensures r.Failure? ==> r.error == InvalidArgument(if EmptyStr(code) || EmptyInt(fileid) || EmptyStr(size) then CodeFileidSizeRequired else TopathTofolderidTonameMissing)
    ensures r.Success? ==> r.value == JsonGet("savepubthumb", Query(SavePubThumbKeys, SavePubThumbValues(code, fileid, size, topath, tofolderid, toname, crop, thumbtype, noover)))
  {
    if EmptyStr(code) || EmptyInt(fileid) || EmptyStr(size) {
      return Failure(InvalidArgument(CodeFileidSizeRequired));
    }
    if topath.None? && (tofolderid.None? || toname.None?) {
      return Failure(InvalidArgument(TopathTofolderidTonameMissing));
    }
    var ks, vs := SavePubThumbKeys, SavePubThumbValues(code, fileid, size, topath, tofolderid, toname, crop, thumbtype, noover);
    assert |ks| == |vs| == 9;
    var query: PArray := [(Name(ks[0]), S(code)), (Name(ks[1]), I(fileid)), (Name(ks[2]), S(size))];
    SeededCompose(query, ks, vs);
    query := Assign(query, ks, vs, 3);  // topath
    query := Assign(query, ks, vs, 4);  // tofolderid
    query := Assign(query, ks, vs, 5);  // toname
    query := Assign(query, ks, vs, 6);  // crop
    query := Assign(query, ks, vs, 7);  // type
    query := Assign(query, ks, vs, 8);  // noover
    r := Success(JsonGet("savepubthumb", query));
  }

  /** The keys getpubzip may send, in the order its code assigns them. */
  const GetPubZipKeys: Names := ["code", "forcedownload", "filename", "timeoffset"]

  /** What getpubzip sends under each of its keys, in the same order (None: the key is left out). */
  function GetPubZipValues(code: string, forcedownload: bool, filename: Option<string>, timeoffset: Option<string>): seq<Option<Value>>
  {
    [Some(S(code)),
     Bit(forcedownload),
     Str(filename),
     Str(timeoffset)]
  }

  /** getpubzip: a public link archived as a zip, returned as raw bytes. */
  method GetPubZip(code: string, forcedownload: bool, filename: Option<string>, timeoffset: Option<string>)
    returns (r: Result<Request>)
    ensures r.Failure? <==> EmptyStr(code)
    ensures r.Failure? ==> r.error == InvalidArgument(CodeRequired)
    ensures r.Success? ==> r.value == RawGet("getpubzip", Query(GetPubZipKeys, GetPubZipValues(code, forcedownload, filename, timeoffset)))
  {
    if EmptyStr(code) {
      return Failure(InvalidArgument(CodeRequired));
    }
    var ks, vs := GetPubZipKeys, GetPubZipValues(code, forcedownload, filename, timeoffset);
    assert |ks| == |vs| == 4;
    var query: PArray := [(Name(ks[0]), S(code))];
    SeededCompose(query, ks, vs);
    query := Assign(query, ks, vs, 1);  // forcedownload
    query := Assign(query, ks, vs, 2);  // filename
    query := Assign(query, ks, vs, 3);  // timeoffset
    r := Success(RawGet("getpubzip", query));
  }

  /** The keys getpubziplink may send, in the order its code assigns them. */
  const GetPubZipLinkKeys: Names := ["code", "forcedownload", "filename", "timeoffset"]

  /** What getpubziplink sends under each of its keys, in the same order (None: the key is left out). */
  function GetPubZipLinkValues(code: string, forcedownload: bool, filename: Option<string>, timeoffset: Option<string>): seq<Option<Value>>
  {
    [Some(S(code)),
     Bit(forcedownload),
     Str(filename),
     Str(timeoffset)]
  }

  /** getpubziplink: a download link for a public link archived as a zip. */
  method GetPubZipLink(code: string, forcedownload: bool, filename: Option<string>, timeoffset: Option<string>)
    returns (r: Result<Request>)
    ensures r.Failure? <==> EmptyStr(code)
    ensures r.Failure? ==> r.error == InvalidArgument(CodeRequired)
    ensures r.Success? ==> r.value == JsonGet("getpubziplink", Query(GetPubZipLinkKeys, GetPubZipLinkValues(code, forcedownload, filename, timeoffset)))
  {
    if EmptyStr(code) {
      return Failure(InvalidArgument(CodeRequired));
    }
    var ks, vs := GetPubZipLinkKeys, GetPubZipLinkValues(code, forcedownload, filename, timeoffset);
    assert |ks| == |vs| == 4;
    var query: PArray := [(Name(ks[0]), S(code))];
    SeededCompose(query, ks, vs);
    query := Assign(query, ks, vs, 1);  // forcedownload
    query := Assign(query, ks, vs, 2);  // filename
    query := Assign(query, ks, vs, 3);  // timeoffset
    r := Success(JsonGet("getpubziplink", query));
  }

  /** The keys savepubzip may send, in the order its code assigns them. */
  const SavePubZipKeys: Names := ["code", "timeoffset", "topath", "tofolderid", "toname"]

  /** What savepubzip sends under each of its keys, in the same order (None: the key is left out). */
  function SavePubZipValues(code: string, timeoffset: Option<string>, topath: Option<string>, tofolderid: Option<int>, toname: Option<string>): seq<Option<Value>>
  {
    [Some(S(code)),
     Str(timeoffset),
     Str(topath),
     Int(tofolderid),
     Str(toname)]
  }

  /** savepubzip: saves a public link archived as a zip into the account. */
  method SavePubZip(code: string, timeoffset: Option<string>, topath: Option<string>, tofolderid: Option<int>, toname: Option<string>)
    returns (r: Result<Request>)
    ensures r.Failure? <==> EmptyStr(code) || (topath.None? && (tofolderid.None? || toname.None?))
    ensures r.Failure? ==> r.error == InvalidArgument(if EmptyStr(code) then CodeRequired else TopathTofolderidTonameMissing)
    ensures r.Success? ==> r.value == JsonGet("savepubzip", Query(SavePubZipKeys, SavePubZipValues(code, timeoffset, topath, tofolderid, toname)))
  {
    if EmptyStr(code) {
      return Failure(InvalidArgument(CodeRequired));
    }
    if topath.None? && (tofolderid.None? || toname.None?) {
      return Failure(InvalidArgument(TopathTofolderidTonameMissing));
    }
    var ks, vs := SavePubZipKeys, SavePubZipValues(code, timeoffset, topath, tofolderid, toname);
    assert |ks| == |vs| == 5;
    var query: PArray := [(Name(ks[0]), S(code))];
    SeededCompose(query, ks, vs);
    query := Assign(query, ks, vs, 1);  // timeoffset
    query := Assign(query, ks, vs, 2);  // topath
    query := Assign(query, ks, vs, 3);  // tofolderid
    query := Assign(query, ks, vs, 4);  // toname
    r := Success(JsonGet("savepubzip", query));
  }

  /** The keys getpubvideolinks may send, in the order its code assigns them. */
  const GetPubVideoLinksKeys: Names := ["code", "fileid", "forcedownload", "contenttype", "maxspeed", "skipfilename"]

  /** What getpubvideolinks sends under each of its keys, in the same order (None: the key is left out). */
  function GetPubVideoLinksValues(code: string, fileid: Option<int>, forcedownload: bool, contenttype: Option<string>, maxspeed: Option<int>, skipfilename: bool): seq<Option<Value>>
  {
    [Some(S(code)),
     Int(fileid),
     Bit(forcedownload),
     Str(contenttype),
     Int(maxspeed),
     Bit(skipfilename)]
  }

  /** getpubvideolinks: the video variants of a file in a public link. */
  method GetPubVideoLinks(code: string, fileid: Option<int>, forcedownload: bool, contenttype: Option<string>, maxspeed: Option<int>, skipfilename: bool)
    returns (r: Result<Request>)
    ensures r.Failure? <==> EmptyStr(code)
    ensures r.Failure? ==> r.error == InvalidArgument(CodeRequired)
    ensures r.Success? ==> r.value == JsonGet("getpubvideolinks", Query(GetPubVideoLinksKeys, GetPubVideoLinksValues(code, fileid, forcedownload, contenttype, maxspeed, skipfilename)))
  {
    if EmptyStr(code) {
      return Failure(InvalidArgument(CodeRequired));
    }
    var ks, vs := GetPubVideoLinksKeys, GetPubVideoLinksValues(code, fileid, forcedownload, contenttype, maxspeed, skipfilename);
    assert |ks| == |vs| == 6;
    var query: PArray := [(Name(ks[0]), S(code))];
    SeededCompose(query, ks, vs);
    query := Assign(query, ks, vs, 1);  // fileid
    query := Assign(query, ks, vs, 2);  // forcedownload
    query := Assign(query, ks, vs, 3);  // contenttype
    query := Assign(query, ks, vs, 4);  // maxspeed
    query := Assign(query, ks, vs, 5);  // skipfilename
    r := Success(JsonGet("getpubvideolinks", query));
  }

  /** The keys getpubaudiolink may send, in the order its code assigns them. */
  const GetPubAudioLinkKeys: Names := ["code", "fileid", "forcedownload", "contenttype", "abitrate"]

  /** What getpubaudiolink sends under each of its keys, in the same order (None: the key is left out). */
  function GetPubAudioLinkValues(code: string, fileid: Option<int>, forcedownload: bool, contenttype: Option<string>, abitrate: Option<int>): seq<Option<Value>>
  {
    [Some(S(code)),
     Int(fileid),
     Bit(forcedownload),
     Str(contenttype),
     Int(abitrate)]
  }

  /** getpubaudiolink: an audio stream of a file in a public link. */
  method GetPubAudioLink(code: string, fileid: Option<int>, forcedownload: bool, contenttype: Option<string>, abitrate: Option<int>)
    returns (r: Result<Request>)
    ensures r.Failure? <==> EmptyStr(code)
    ensures r.Failure? ==> r.error == InvalidArgument(CodeRequired)
    ensures r.Success? ==> r.value == JsonGet("getpubaudiolink", Query(GetPubAudioLinkKeys, GetPubAudioLinkValues(code, fileid, forcedownload, contenttype, abitrate)))
  {
    if EmptyStr(code) {
      return Failure(InvalidArgument(CodeRequired));
    }
    var ks, vs := GetPubAudioLinkKeys, GetPubAudioLinkValues(code, fileid, forcedownload, contenttype, abitrate);
    assert |ks| == |vs| == 5;
    var query: PArray := [(Name(ks[0]), S(code))];
    SeededCompose(query, ks, vs);
    query := Assign(query, ks, vs, 1);  // fileid
    query := Assign(query, ks, vs, 2);  // forcedownload
    query := Assign(query, ks, vs, 3);  // contenttype
    query := Assign(query, ks, vs, 4);  // abitrate
    r := Success(JsonGet("getpubaudiolink", query));
  }

  /** The keys getpubtextfile may send, in the order its code assigns them. */
  const GetPubTextFileKeys: Names := ["code", "fileid", "fromencoding", "toencoding", "forcedownload", "contenttype"]

  /** What getpubtextfile sends under each of its keys, in the same order (None: the key is left out). */
  function GetPubTextFileValues(code: string, fileid: Option<int>, fromencoding: Option<string>, toencoding: Option<string>, forcedownload: bool, contenttype: Option<string>): seq<Option<Value>>
  {
    [Some(S(code)),
     Int(fileid),
     Str(fromencoding),
     Str(toencoding),
     Bit(forcedownload),
     Str(contenttype)]
  }

  /** getpubtextfile: a text file of a public link, returned as raw bytes. */
  method GetPubTextFile(code: string, fileid: Option<int>, fromencoding: Option<string>, toencoding: Option<string>, forcedownload: bool, contenttype: Option<string>)
    returns (r: Result<Request>)
    ensures r.Failure? <==> EmptyStr(code)
    ensures r.Failure? ==> r.error == InvalidArgument(CodeRequired)
    ensures r.Success? ==> r.value == RawGet("getpubtextfile", Query(GetPubTextFileKeys, GetPubTextFileValues(code, fileid, fromencoding, toencoding, forcedownload, contenttype)))
  {
    if EmptyStr(code) {
      return Failure(InvalidArgument(CodeRequired));
    }
    var ks, vs := GetPubTextFileKeys, GetPubTextFileValues(code, fileid, fromencoding, toencoding, forcedownload, contenttype);
    assert |ks| == |vs| == 6;
    var query: PArray := [(Name(ks[0]), S(code))];
    SeededCompose(query, ks, vs);
    query := Assign(query, ks, vs, 1);  // fileid
    query := Assign(query, ks, vs, 2);  // fromencoding
    query := Assign(query, ks, vs, 3);  // toencoding
    query := Assign(query, ks, vs, 4);  // forcedownload
    query := Assign(query, ks, vs, 5);  // contenttype
    r := Success(RawGet("getpubtextfile", query));
  }

  /** The keys getcollectionpublink may send, in the order its code assigns them. */
  const GetCollectionPubLinkKeys: Names := ["collectionid", "expire", "maxdownloads", "maxtraffic", "shortlink"]

  /** What getcollectionpublink sends under each of its keys, in the same order (None: the key is left out). */
  function GetCollectionPubLinkValues(collectionid: int, expire: Option<string>, maxdownloads: Option<int>, maxtraffic: Option<int>, shortlink: bool): seq<Option<Value>>
  {
    [Some(I(collectionid)),
     Str(expire),
     Int(maxdownloads),
     Int(maxtraffic),
     Bit(shortlink)]
  }

  /** getcollectionpublink: a public link to a collection. */
  method GetCollectionPubLink(collectionid: int, expire: Option<string>, maxdownloads: Option<int>, maxtraffic: Option<int>, shortlink: bool)
    returns (r: Result<Request>)
    ensures r.Failure? <==> EmptyInt(collectionid)
    ensures r.Failure? ==> r.error == InvalidArgument(CollectionidRequired)
    ensures r.Success? ==> r.value == JsonGet("getcollectionpublink", Query(GetCollectionPubLinkKeys, GetCollectionPubLinkValues(collectionid, expire, maxdownloads, maxtraffic, shortlink)))
  {
    if EmptyInt(collectionid) {
      return Failure(InvalidArgument(CollectionidRequired));
    }
    var ks, vs := GetCollectionPubLinkKeys, GetCollectionPubLinkValues(collectionid, expire, maxdownloads, maxtraffic, shortlink);
    assert |ks| == |vs| == 5;
    var query: PArray := [(Name(ks[0]), I(collectionid))];
    SeededCompose(query, ks, vs);
    query := Assign(query, ks, vs, 1);  // expire
    query := Assign(query, ks, vs, 2);  // maxdownloads
    query := Assign(query, ks, vs, 3);  // maxtraffic
    query := Assign(query, ks, vs, 4);  // shortlink
    r := Success(JsonGet("getcollectionpublink", query));
  }

  const OptionMissing := "At least one option parameter must be specified."

  /** changepublink: `array_merge(['linkid' => linkid], options)`, after rejecting a
      zero id and then an empty options array. */
  function ChangePubLink(linkid: int, options: PArray): (r: Result<Request>)
    ensures r.Failure? <==> EmptyInt(linkid) || options == []
    ensures r.Failure? ==> r.error == InvalidArgument(if EmptyInt(linkid) then LinkidRequired else OptionMissing)
    ensures r.Success? ==> r.value == JsonGet("changepublink", Merge([(Name("linkid"), I(linkid))], options))
  {
    if EmptyInt(linkid) then Failure(InvalidArgument(LinkidRequired))
    else if options == [] then Failure(InvalidArgument(OptionMissing))
    else Success(JsonGet("changepublink", Merge([(Name("linkid"), I(linkid))], options)))
  }

  /** What changepublink sends: `linkid` first, under the options' value for it when
      they carry one (array_merge lets a later string key win), every other string
      key of the options with the options' value, and no key twice. */
  lemma ChangePubLinkMerge(linkid: int, options: PArray)
    requires !EmptyInt(linkid) && options != [] && Distinct(options)
    ensures ChangePubLink(linkid, options).Success?
    ensures var q := ChangePubLink(linkid, options).value.query;
      && |q| >= 1 && q[0].0 == Name("linkid")
      && Lookup(q, Name("linkid")) == Some(Lookup(options, Name("linkid")).GetOr(I(linkid)))
      && (forall j: Key :: j.Name? && j != Name("linkid") ==> Lookup(q, j) == Lookup(options, j))
      && Distinct(q)
  {
    MergeAfterHead(Name("linkid"), I(linkid), options);
  }

  /** getfilepublink sends one locator: `fileid` when given, even alongside `path`,
      and `path` only without it. */
  lemma GetFilePubLinkLocator(fileid: Option<int>, path: Option<string>, expire: Option<string>, maxdownloads: Option<int>, maxtraffic: Option<int>, shortlink: bool, linkpassword: Option<string>)
    ensures var q := Query(GetFilePubLinkKeys, GetFilePubLinkValues(fileid, path, expire, maxdownloads, maxtraffic, shortlink, linkpassword));
      && (fileid.Some? ==> Lookup(q, Name("fileid")) == Some(I(fileid.value)) && Lookup(q, Name("path")).None?)
      && (fileid.None? ==> Lookup(q, Name("fileid")).None? && Lookup(q, Name("path")) == Str(path))
      && Lookup(q, Name("shortlink")) == (if shortlink then Some(I(1)) else None)
  {
    var ks := GetFilePubLinkKeys;
    var vs := GetFilePubLinkValues(fileid, path, expire, maxdownloads, maxtraffic, shortlink, linkpassword);
    QueryContents(ks, vs);
    assert ks[0] == "fileid" && ks[1] == "path" && ks[5] == "shortlink";
  }
}
