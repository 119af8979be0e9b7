/** Builders for the archiving endpoints (src/Api/Archiving.php). */
module Archiving {
  import opened Php
  import opened Http

  // The messages of the \InvalidArgumentException the endpoints raise.
  const TopathTofolderidTonameMissing := "Either 'topath' or both 'tofolderid' and 'toname' must be provided."
  const FileidPathMissing := "Either 'fileid' or 'path' must be provided."
  const TofolderidTopathMissing := "Either 'tofolderid' or 'topath' must be provided."
  const ProgresshashRequired := "Parameter 'progresshash' is required."

  /** The keys getzip may send, in the order its code assigns them. */
  const GetZipKeys: Names := ["tree", "forcedownload", "filename", "timeoffset"]

  /** What getzip sends under each of its keys, in the same order (None: the key is left out). */
  function GetZipValues(tree: string, forcedownload: bool, filename: Option<string>, timeoffset: Option<string>): seq<Option<Value>>
  {
    [Some(S(tree)),
     Bit(forcedownload),
     Str(filename),
     Str(timeoffset)]
  }

  /** getzip: a zip archive of `tree` (the text `json_encode($tree)` makes), returned as raw bytes. */
  method GetZip(tree: string, forcedownload: bool, filename: Option<string>, timeoffset: Option<string>)
    returns (r: Result<Request>)
    ensures r.Success?
    ensures r.Success? ==> r.value == RawGet("getzip", Query(GetZipKeys, GetZipValues(tree, forcedownload, filename, timeoffset)))
  {
    var ks, vs := GetZipKeys, GetZipValues(tree, forcedownload, filename, timeoffset);
    assert |ks| == |vs| == 4;
    var query: PArray := [(Name(ks[0]), S(tree))];
    SeededCompose(query, ks, vs);
    query := Assign(query, ks, vs, 1);  // forcedownload
    query := Assign(query, ks, vs, 2);  // filename
    query := Assign(query, ks, vs, 3);  // timeoffset
    r := Success(RawGet("getzip", query));
  }

  /** The keys getziplink may send, in the order its code assigns them. */
  const GetZipLinkKeys: Names := ["tree", "maxspeed", "forcedownload", "filename", "timeoffset"]

  /** What getziplink sends under each of its keys, in the same order (None: the key is left out). */
  function GetZipLinkValues(tree: string, maxspeed: Option<int>, forcedownload: bool, filename: Option<string>, timeoffset: Option<string>): seq<Option<Value>>
  {
    [Some(S(tree)),
     Int(maxspeed),
     Bit(forcedownload),
     Str(filename),
     Str(timeoffset)]
  }

  /** getziplink: a download link for a zip archive of `tree` (the text `json_encode($tree)` makes). */
  method GetZipLink(tree: string, maxspeed: Option<int>, forcedownload: bool, filename: Option<string>, timeoffset: Option<string>)
    returns (r: Result<Request>)
    ensures r.Success?
    ensures r.Success? ==> r.value == JsonGet("getziplink", Query(GetZipLinkKeys, GetZipLinkValues(tree, maxspeed, forcedownload, filename, timeoffset)))
  {
    var ks, vs := GetZipLinkKeys, GetZipLinkValues(tree, maxspeed, forcedownload, filename, timeoffset);
    assert |ks| == |vs| == 5;
    var query: PArray := [(Name(ks[0]), S(tree))];
    SeededCompose(query, ks, vs);
    query := Assign(query, ks, vs, 1);  // maxspeed
    query := Assign(query, ks, vs, 2);  // forcedownload
    query := Assign(query, ks, vs, 3);  // filename
    query := Assign(query, ks, vs, 4);  // timeoffset
    r := Success(JsonGet("getziplink", query));
  }

  /** The keys savezip may send, in the order its code assigns them. */
  const SaveZipKeys: Names := ["tree", "timeoffset", "topath", "tofolderid", "toname", "progresshash"]

  /** What savezip sends under each of its keys, in the same order (None: the key is left out). */
  function SaveZipValues(tree: string, timeoffset: Option<string>, topath: Option<string>, tofolderid: Option<int>, toname: Option<string>, progresshash: Option<string>): seq<Option<Value>>
  {
    [Some(S(tree)),
     Str(timeoffset),
     Str(topath),
     Int(tofolderid),
     Str(toname),
     Str(progresshash)]
  }

  /** savezip: saves a zip archive of `tree` into the user's filesystem; the destination is checked only after the query is built. */
  method SaveZip(tree: string, timeoffset: Option<string>, topath: Option<string>, tofolderid: Option<int>, toname: Option<string>, progresshash: Option<string>)
    returns (r: Result<Request>)
    ensures r.Failure? <==> topath.None? && (tofolderid.None? || toname.None?)
    ensures r.Failure? ==> r.error == InvalidArgument(TopathTofolderidTonameMissing)
    ensures r.Success? ==> r.value == JsonGet("savezip", Query(SaveZipKeys, SaveZipValues(tree, timeoffset, topath, tofolderid, toname, progresshash)))
  {
    var ks, vs := SaveZipKeys, SaveZipValues(tree, timeoffset, topath, tofolderid, toname, progresshash);
    assert |ks| == |vs| == 6;
    var query: PArray := [(Name(ks[0]), S(tree))];
    SeededCompose(query, ks, vs);
    query := Assign(query, ks, vs, 1);  // timeoffset
    query := Assign(query, ks, vs, 2);  // topath
    query := Assign(query, ks, vs, 3);  // tofolderid
    query := Assign(query, ks, vs, 4);  // toname
    query := Assign(query, ks, vs, 5);  // progresshash
    if topath.None? && (tofolderid.None? || toname.None?) {
      return Failure(InvalidArgument(TopathTofolderidTonameMissing));
    }
    r := Success(JsonGet("savezip", query));
  }

  /** The keys extractarchive may send, in the order its code assigns them. */
  const ExtractArchiveKeys: Names := ["fileid", "path", "tofolderid", "topath", "password", "overwrite", "nooutput"]

  /** What extractarchive sends under each of its keys, in the same order (None: the key is left out). */
  function ExtractArchiveValues(fileid: Option<int>, path: Option<string>, tofolderid: Option<int>, topath: Option<string>, password: Option<string>, overwrite: string, nooutput: bool): seq<Option<Value>>
  {
    [Int(fileid),
     Otherwise(Int(fileid), Str(path)),
     Int(tofolderid),
     Str(topath),
     Str(password),
     if overwrite != "rename" then Some(S(overwrite)) else None,
     Bit(nooutput)]
  }

  /** extractarchive: extracts an archive, by id or else by path, into a folder; `overwrite` is sent only when it is not the default "rename". */
  method ExtractArchive(fileid: Option<int>, path: Option<string>, tofolderid: Option<int>, topath: Option<string>, password: Option<string>, overwrite: string, nooutput: bool)
    returns (r: Result<Request>)
    ensures r.Failure? <==> (fileid.None? && path.None?) || (tofolderid.None? && topath.None?)
    ensures r.Failure? ==> r.error == InvalidArgument(if fileid.None? && path.None? then FileidPathMissing else TofolderidTopathMissing)
    ensures r.Success? ==> r.value == JsonGet("extractarchive", Query(ExtractArchiveKeys, ExtractArchiveValues(fileid, path, tofolderid, topath, password, overwrite, nooutput)))
  {
    var ks, vs := ExtractArchiveKeys, ExtractArchiveValues(fileid, path, tofolderid, topath, password, overwrite, nooutput);
    assert |ks| == |vs| == 7;
    if fileid.None? && path.None? {
      return Failure(InvalidArgument(FileidPathMissing));
    }
    var query: PArray := [];
    query := Assign(query, ks, vs, 0);  // fileid
    query := Assign(query, ks, vs, 1);  // path, only without fileid
    query := Assign(query, ks, vs, 2);  // tofolderid
    query := Assign(query, ks, vs, 3);  // topath
    if tofolderid.None? && topath.None? {
      return Failure(InvalidArgument(TofolderidTopathMissing));
    }
    query := Assign(query, ks, vs, 4);  // password
    query := Assign(query, ks, vs, 5);  // overwrite
    query := Assign(query, ks, vs, 6);  // nooutput
    r := Success(JsonGet("extractarchive", query));
  }

  /** The keys extractarchiveprogress may send, in the order its code assigns them. */
  const ExtractArchiveProgressKeys: Names := ["progresshash", "lines"]

  /** What extractarchiveprogress sends under each of its keys, in the same order (None: the key is left out). */
  function ExtractArchiveProgressValues(progresshash: string, lines: Option<int>): seq<Option<Value>>
  {
    [Some(S(progresshash)),
     Int(lines)]
  }

  /** extractarchiveprogress: the progress of an extraction. */
  method ExtractArchiveProgress(progresshash: string, lines: Option<int>)
    returns (r: Result<Request>)
    ensures r.Failure? <==> EmptyStr(progresshash)
    ensures r.Failure? ==> r.error == InvalidArgument(ProgresshashRequired)
    ensures r.Success? ==> r.value == JsonGet("extractarchiveprogress", Query(ExtractArchiveProgressKeys, ExtractArchiveProgressValues(progresshash, lines)))
  {
    if EmptyStr(progresshash) {
      return Failure(InvalidArgument(ProgresshashRequired));
    }
    var ks, vs := ExtractArchiveProgressKeys, ExtractArchiveProgressValues(progresshash, lines);
    assert |ks| == |vs| == 2;
    var query: PArray := [(Name(ks[0]), S(progresshash))];
    SeededCompose(query, ks, vs);
    query := Assign(query, ks, vs, 1);  // lines
    r := Success(JsonGet("extractarchiveprogress", query));
  }

  /** savezipprogress: the progress of a savezip. */
  function SaveZipProgress(progresshash: string): (r: Result<Request>)
    ensures r.Failure? <==> EmptyStr(progresshash)
    ensures r.Failure? ==> r.error == InvalidArgument(ProgresshashRequired)
    ensures r.Success? ==> r.value == JsonGet("savezipprogress", [(Name("progresshash"), S(progresshash))])
  {
    if EmptyStr(progresshash) then Failure(InvalidArgument(ProgresshashRequired))
    else Success(JsonGet("savezipprogress", [(Name("progresshash"), S(progresshash))]))
  }

  /** extractarchive sends both destinations when both are given, `overwrite` unless
      it is "rename", and `nooutput` only when set. */
  lemma ExtractArchiveOptions(fileid: Option<int>, path: Option<string>, tofolderid: Option<int>, topath: Option<string>, password: Option<string>, overwrite: string, nooutput: bool)
    ensures var q := Query(ExtractArchiveKeys, ExtractArchiveValues(fileid, path, tofolderid, topath, password, overwrite, nooutput));
      && Lookup(q, Name("tofolderid")) == Int(tofolderid)
      && Lookup(q, Name("topath")) == Str(topath)
      && Lookup(q, Name("overwrite")) == (if overwrite != "rename" then Some(S(overwrite)) else None)
      && Lookup(q, Name("nooutput")) == (if nooutput then Some(I(1)) else None)
  {
    var ks := ExtractArchiveKeys;
    var vs := ExtractArchiveValues(fileid, path, tofolderid, topath, password, overwrite, nooutput);
    QueryContents(ks, vs);
    assert ks[2] == "tofolderid" && ks[3] == "topath" && ks[5] == "overwrite" && ks[6] == "nooutput";
  }
}
