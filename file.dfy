/** Builders for the file endpoints (src/Api/File.php). */
module File {
  import opened Php
  import opened Http
  import opened Multipart

  // The messages of the \InvalidArgumentException the endpoints raise.
  const FilesRequired := "Parameter 'files' is required."
  const ProgresshashRequired := "Parameter 'progresshash' is required."
  const UrlRequired := "Parameter 'url' is required."
  const FileidPathRequired := "Parameter 'fileid' or 'path' is required."
  const TofolderidTopathMissing := "At least one of 'tofolderid' or 'topath' must be specified."
  const TopathTofolderidTonameMissing := "At least one of 'topath', 'tofolderid', or 'toname' must be specified."

  /** The keys uploadfile may send, in the order its code assigns them. */
  const UploadFileKeys: Names := ["folderid", "path", "nopartial", "progresshash", "renameifexists", "mtime", "ctime"]

  /** What uploadfile sends under each of its keys, in the same order (None: the key is left out). */
  function UploadFileValues(path: Option<string>, folderid: Option<int>, nopartial: bool, progresshash: Option<string>, renameifexists: bool, mtime: Option<int>, ctime: Option<int>): seq<Option<Value>>
  {
    [Int(folderid),
     Otherwise(Int(folderid), Str(path)),
     Bit(nopartial),
     Str(progresshash),
     Bit(renameifexists),
     Int(mtime),
     Int(ctime)]
  }

  /** uploadfile: uploads the files of `files` into a folder given by id, or else by path. */
  method UploadFile(files: seq<(Key, FileEntry)>, path: Option<string>, folderid: Option<int>, nopartial: bool, progresshash: Option<string>, renameifexists: bool, mtime: Option<int>, ctime: Option<int>, basename: string -> string)
    returns (r: Result<Request>)
    ensures r.Failure? <==> files == [] || (exists i :: 0 <= i < |files| && Rejects(ToFolder(basename), files[i].1))
    ensures r.Failure? ==> r.error == (if files == [] then InvalidArgument(FilesRequired) else FopenArray)
    ensures r.Success? ==>
      && Parts(ToFolder(basename), files).Success?
      && r.value == MultipartPost("uploadfile", Query(UploadFileKeys, UploadFileValues(path, folderid, nopartial, progresshash, renameifexists, mtime, ctime)), Parts(ToFolder(basename), files).value)
  {
    if files == [] {
      return Failure(InvalidArgument(FilesRequired));
    }
    var parts := CollectParts(ToFolder(basename), files);
    PartsFailure(ToFolder(basename), files);
    if parts.Failure? {
      return Failure(parts.error);
    }
    var ks, vs := UploadFileKeys, UploadFileValues(path, folderid, nopartial, progresshash, renameifexists, mtime, ctime);
    assert |ks| == |vs| == 7;
    var query: PArray := [];
    query := Assign(query, ks, vs, 0);  // folderid
    query := Assign(query, ks, vs, 1);  // path, only without folderid
    query := Assign(query, ks, vs, 2);  // nopartial
    query := Assign(query, ks, vs, 3);  // progresshash
    query := Assign(query, ks, vs, 4);  // renameifexists
    query := Assign(query, ks, vs, 5);  // mtime
    query := Assign(query, ks, vs, 6);  // ctime
    r := Success(MultipartPost("uploadfile", query, parts.value));
  }

  /** uploadprogress: the progress of the upload tagged `progresshash`. */
  function UploadProgress(progresshash: string): (r: Result<Request>)
    ensures r.Failure? <==> EmptyStr(progresshash)
    ensures r.Failure? ==> r.error == InvalidArgument(ProgresshashRequired)
    ensures r.Success? ==> r.value == JsonGet("uploadprogress", [(Name("progresshash"), S(progresshash))])
  {
    if EmptyStr(progresshash) then Failure(InvalidArgument(ProgresshashRequired))
    else Success(JsonGet("uploadprogress", [(Name("progresshash"), S(progresshash))]))
  }

  /** The keys downloadfile may send, in the order its code assigns them. */
  const DownloadFileKeys: Names := ["url", "folderid", "path", "target", "progresshash"]

  /** What downloadfile sends under each of its keys, in the same order (None: the key is left out). */
  function DownloadFileValues(url: string, path: Option<string>, folderid: Option<int>, target: Option<string>, progresshash: Option<string>): seq<Option<Value>>
  {
    [Some(S(url)),
     Int(folderid),
     Otherwise(Int(folderid), Str(path)),
     Str(target),
     Str(progresshash)]
  }

  /** downloadfile: fetches the files at `url` into a folder given by id, or else by path. */
  method DownloadFile(url: string, path: Option<string>, folderid: Option<int>, target: Option<string>, progresshash: Option<string>)
    returns (r: Result<Request>)
    ensures r.Failure? <==> EmptyStr(url)
    ensures r.Failure? ==> r.error == InvalidArgument(UrlRequired)
    ensures r.Success? ==> r.value == JsonGet("downloadfile", Query(DownloadFileKeys, DownloadFileValues(url, path, folderid, target, progresshash)))
  {
    if EmptyStr(url) {
      return Failure(InvalidArgument(UrlRequired));
    }
    var ks, vs := DownloadFileKeys, DownloadFileValues(url, path, folderid, target, progresshash);
    assert |ks| == |vs| == 5;
    var query: PArray := [(Name(ks[0]), S(url))];
    SeededCompose(query, ks, vs);
    query := Assign(query, ks, vs, 1);  // folderid
    query := Assign(query, ks, vs, 2);  // path, only without folderid
    query := Assign(query, ks, vs, 3);  // target
    query := Assign(query, ks, vs, 4);  // progresshash
    r := Success(JsonGet("downloadfile", query));
  }

  /** The keys downloadfileasync may send, in the order its code assigns them. */
  const DownloadFileAsyncKeys: Names := ["url", "folderid", "path", "target", "progresshash"]

  /** What downloadfileasync sends under each of its keys, in the same order (None: the key is left out). */
  function DownloadFileAsyncValues(url: string, path: Option<string>, folderid: Option<int>, target: Option<string>, progresshash: Option<string>): seq<Option<Value>>
  {
    [Some(S(url)),
     Int(folderid),
     Otherwise(Int(folderid), Str(path)),
     Str(target),
     Str(progresshash)]
  }

  /** downloadfileasync: fetches the files at `url` into a folder given by id, or else by path. */
  method DownloadFileAsync(url: string, path: Option<string>, folderid: Option<int>, target: Option<string>, progresshash: Option<string>)
    returns (r: Result<Request>)
    ensures r.Failure? <==> EmptyStr(url)
    ensures r.Failure? ==> r.error == InvalidArgument(UrlRequired)
    ensures r.Success? ==> r.value == JsonGet("downloadfileasync", Query(DownloadFileAsyncKeys, DownloadFileAsyncValues(url, path, folderid, target, progresshash)))
  {
    if EmptyStr(url) {
      return Failure(InvalidArgument(UrlRequired));
    }
    var ks, vs := DownloadFileAsyncKeys, DownloadFileAsyncValues(url, path, folderid, target, progresshash);
    assert |ks| == |vs| == 5;
    var query: PArray := [(Name(ks[0]), S(url))];
    SeededCompose(query, ks, vs);
    query := Assign(query, ks, vs, 1);  // folderid
    query := Assign(query, ks, vs, 2);  // path, only without folderid
    query := Assign(query, ks, vs, 3);  // target
    query := Assign(query, ks, vs, 4);  // progresshash
    r := Success(JsonGet("downloadfileasync", query));
  }

  /** The keys copyfile may send, in the order its code assigns them. */
  const CopyFileKeys: Names := ["fileid", "path", "tofolderid", "topath", "toname", "noover", "mtime", "ctime"]

  /** What copyfile sends under each of its keys, in the same order (None: the key is left out). */
  function CopyFileValues(fileid: Option<int>, path: Option<string>, tofolderid: Option<int>, topath: Option<string>, toname: Option<string>, noover: bool, mtime: Option<int>, ctime: Option<int>): seq<Option<Value>>
  {
    [Int(fileid),
     Otherwise(Int(fileid), Str(path)),
     Int(tofolderid),
     Str(topath),
     Str(toname),
     Bit(noover),
     Int(mtime),
     Int(ctime)]
  }

  /** copyfile: copies a file, named by id or else by path, to a destination folder or path. */
  method CopyFile(fileid: Option<int>, path: Option<string>, tofolderid: Option<int>, topath: Option<string>, toname: Option<string>, noover: bool, mtime: Option<int>, ctime: Option<int>)
    returns (r: Result<Request>)
    ensures r.Failure? <==> (fileid.None? && path.None?) || (tofolderid.None? && topath.None?)
    ensures r.Failure? ==> r.error == InvalidArgument(if fileid.None? && path.None? then FileidPathRequired else TofolderidTopathMissing)
    ensures r.Success? ==> r.value == JsonGet("copyfile", Query(CopyFileKeys, CopyFileValues(fileid, path, tofolderid, topath, toname, noover, mtime, ctime)))
  {
    if fileid.None? && path.None? {
      return Failure(InvalidArgument(FileidPathRequired));
    }
    if tofolderid.None? && topath.None? {
      return Failure(InvalidArgument(TofolderidTopathMissing));
    }
    var ks, vs := CopyFileKeys, CopyFileValues(fileid, path, tofolderid, topath, toname, noover, mtime, ctime);
    assert |ks| == |vs| == 8;
    var query: PArray := [];
    query := Assign(query, ks, vs, 0);  // fileid
    query := Assign(query, ks, vs, 1);  // path, only without fileid
    query := Assign(query, ks, vs, 2);  // tofolderid
    query := Assign(query, ks, vs, 3);  // topath
    query := Assign(query, ks, vs, 4);  // toname
    query := Assign(query, ks, vs, 5);  // noover
    query := Assign(query, ks, vs, 6);  // mtime
    query := Assign(query, ks, vs, 7);  // ctime
    r := Success(JsonGet("copyfile", query));
  }

  /** The keys checksumfile may send, in the order its code assigns them. */
  const ChecksumFileKeys: Names := ["fileid", "path"]

  /** What checksumfile sends under each of its keys, in the same order (None: the key is left out). */
  function ChecksumFileValues(fileid: Option<int>, path: Option<string>): seq<Option<Value>>
  {
    [Int(fileid),
     Otherwise(Int(fileid), Str(path))]
  }

  /** checksumfile: the checksums of a file. */
  method ChecksumFile(fileid: Option<int>, path: Option<string>)
    returns (r: Result<Request>)
    ensures r.Failure? <==> fileid.None? && path.None?
    ensures r.Failure? ==> r.error == InvalidArgument(FileidPathRequired)
    ensures r.Success? ==> r.value == JsonGet("checksumfile", Query(ChecksumFileKeys, ChecksumFileValues(fileid, path)))
  {
    if fileid.None? && path.None? {
      return Failure(InvalidArgument(FileidPathRequired));
    }
    var ks, vs := ChecksumFileKeys, ChecksumFileValues(fileid, path);
    assert |ks| == |vs| == 2;
    var query: PArray := [];
    query := Assign(query, ks, vs, 0);  // fileid
    query := Assign(query, ks, vs, 1);  // path, only without fileid
    r := Success(JsonGet("checksumfile", query));
  }

  /** The keys deletefile may send, in the order its code assigns them. */
  const DeleteFileKeys: Names := ["fileid", "path"]

  /** What deletefile sends under each of its keys, in the same order (None: the key is left out). */
  function DeleteFileValues(fileid: Option<int>, path: Option<string>): seq<Option<Value>>
  {
    [Int(fileid),
     Otherwise(Int(fileid), Str(path))]
  }

  /** deletefile: deletes a file. */
  method DeleteFile(fileid: Option<int>, path: Option<string>)
    returns (r: Result<Request>)
    ensures r.Failure? <==> fileid.None? && path.None?
    ensures r.Failure? ==> r.error == InvalidArgument(FileidPathRequired)
    ensures r.Success? ==> r.value == JsonGet("deletefile", Query(DeleteFileKeys, DeleteFileValues(fileid, path)))
  {
    if fileid.None? && path.None? {
      return Failure(InvalidArgument(FileidPathRequired));
    }
    var ks, vs := DeleteFileKeys, DeleteFileValues(fileid, path);
    assert |ks| == |vs| == 2;
    var query: PArray := [];
    query := Assign(query, ks, vs, 0);  // fileid
    query := Assign(query, ks, vs, 1);  // path, only without fileid
    r := Success(JsonGet("deletefile", query));
  }

  /** The keys renamefile may send, in the order its code assigns them. */
  const RenameFileKeys: Names := ["fileid", "path", "topath", "tofolderid", "toname"]

  /** What renamefile sends under each of its keys, in the same order (None: the key is left out). */
  function RenameFileValues(fileid: Option<int>, path: Option<string>, topath: Option<string>, tofolderid: Option<int>, toname: Option<string>): seq<Option<Value>>
  {
    [Int(fileid),
     Otherwise(Int(fileid), Str(path)),
     Str(topath),
     Int(tofolderid),
     Str(toname)]
  }

  /** renamefile: renames or moves a file. */
  method RenameFile(fileid: Option<int>, path: Option<string>, topath: Option<string>, tofolderid: Option<int>, toname: Option<string>)
    returns (r: Result<Request>)
    ensures r.Failure? <==> (fileid.None? && path.None?) || (topath.None? && tofolderid.None? && toname.None?)
    ensures r.Failure? ==> r.error == InvalidArgument(if fileid.None? && path.None? then FileidPathRequired else TopathTofolderidTonameMissing)
    ensures r.Success? ==> r.value == JsonGet("renamefile", Query(RenameFileKeys, RenameFileValues(fileid, path, topath, tofolderid, toname)))
  {
    if fileid.None? && path.None? {
      return Failure(InvalidArgument(FileidPathRequired));
    }
    if topath.None? && tofolderid.None? && toname.None? {
      return Failure(InvalidArgument(TopathTofolderidTonameMissing));
    }
    var ks, vs := RenameFileKeys, RenameFileValues(fileid, path, topath, tofolderid, toname);
    assert |ks| == |vs| == 5;
    var query: PArray := [];
    query := Assign(query, ks, vs, 0);  // fileid
    query := Assign(query, ks, vs, 1);  // path, only without fileid
    query := Assign(query, ks, vs, 2);  // topath
    query := Assign(query, ks, vs, 3);  // tofolderid
    query := Assign(query, ks, vs, 4);  // toname
    r := Success(JsonGet("renamefile", query));
  }

  /** The keys stat may send, in the order its code assigns them. */
  const StatKeys: Names := ["fileid", "path"]

  /** What stat sends under each of its keys, in the same order (None: the key is left out). */
  function StatValues(fileid: Option<int>, path: Option<string>): seq<Option<Value>>
  {
    [Int(fileid),
     Otherwise(Int(fileid), Str(path))]
  }

  /** stat: the metadata of a file. */
  method Stat(fileid: Option<int>, path: Option<string>)
    returns (r: Result<Request>)
    ensures r.Failure? <==> fileid.None? && path.None?
    ensures r.Failure? ==> r.error == InvalidArgument(FileidPathRequired)
    ensures r.Success? ==> r.value == JsonGet("stat", Query(StatKeys, StatValues(fileid, path)))
  {
    if fileid.None? && path.None? {
      return Failure(InvalidArgument(FileidPathRequired));
    }
    var ks, vs := StatKeys, StatValues(fileid, path);
    assert |ks| == |vs| == 2;
    var query: PArray := [];
    query := Assign(query, ks, vs, 0);  // fileid
    query := Assign(query, ks, vs, 1);  // path, only without fileid
    r := Success(JsonGet("stat", query));
  }
}
