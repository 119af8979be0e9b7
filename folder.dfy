/** Builders for the folder endpoints (src/Api/Folder.php). */
module Folder {
  import opened Php
  import opened Http

  const PathFolderidNameRequired := "Parameter 'path' or both 'folderid' and 'name' are required."

  /** The keys the two create endpoints may send, in the order their code assigns them. */
  const CreateFolderKeys: Names := ["path", "folderid", "name"]

  /** What the create endpoints send under each key: the path when given, and only
      without it the parent folder and the new name. */
  function CreateFolderValues(path: Option<string>, folderid: Option<int>, name: Option<string>): seq<Option<Value>>
  {
    [Str(path), Otherwise(Str(path), Int(folderid)), Otherwise(Str(path), Str(name))]
  }

  /** The create endpoints address the new folder one way only: by path, or else by
      parent folder and name, never a mix of the two. */
  lemma CreateFolderAddress(path: Option<string>, folderid: Option<int>, name: Option<string>)
    requires path.Some? || (folderid.Some? && name.Some?)
    ensures var q := Query(CreateFolderKeys, CreateFolderValues(path, folderid, name));
      && Distinct(q)
      && (path.Some? ==> Lookup(q, Name("path")) == Some(S(path.value)) && Lookup(q, Name("folderid")).None? && Lookup(q, Name("name")).None?)
      && (path.None? ==> Lookup(q, Name("path")).None? && Lookup(q, Name("folderid")) == Some(I(folderid.value)) && Lookup(q, Name("name")) == Some(S(name.value)))
  {
    var ks := CreateFolderKeys;
    var vs := CreateFolderValues(path, folderid, name);
    QueryContents(ks, vs);
    assert ks[0] == "path" && ks[1] == "folderid" && ks[2] == "name";
  }

  /** The `if ($path !== null) ... else ...` assignments shared by the two create
      endpoints; in the else branch the guard has made `folderid` and `name` non-null. */
  method AssignFolder(path: Option<string>, folderid: Option<int>, name: Option<string>) returns (query: PArray)
    requires path.Some? || (folderid.Some? && name.Some?)
    ensures query == Query(CreateFolderKeys, CreateFolderValues(path, folderid, name))
  {
    var ks, vs := CreateFolderKeys, CreateFolderValues(path, folderid, name);
    query := [];
    if path.Some? {
      query := Assign(query, ks, vs, 0);
      assert Compose(ks, vs, 3) == Compose(ks, vs, 1);
    } else {
      assert Compose(ks, vs, 1) == [];
      query := Assign(query, ks, vs, 1);
      query := Assign(query, ks, vs, 2);
    }
  }

  /** createfolder: creates a folder at `path`, or else named `name` inside `folderid`. */
  method CreateFolder(path: Option<string>, folderid: Option<int>, name: Option<string>)
    returns (r: Result<Request>)
    ensures r.Failure? <==> path.None? && (folderid.None? || name.None?)
    ensures r.Failure? ==> r.error == InvalidArgument(PathFolderidNameRequired)
    ensures r.Success? ==> r.value == JsonGet("createfolder", Query(CreateFolderKeys, CreateFolderValues(path, folderid, name)))
  {
    if path.None? && (folderid.None? || name.None?) {
      return Failure(InvalidArgument(PathFolderidNameRequired));
    }
    var query := AssignFolder(path, folderid, name);
    r := Success(JsonGet("createfolder", query));
  }

  /** createfolderifnotexists: as createfolder, but an existing folder is not an error on the server. */
  method CreateFolderIfNotExists(path: Option<string>, folderid: Option<int>, name: Option<string>)
    returns (r: Result<Request>)
    ensures r.Failure? <==> path.None? && (folderid.None? || name.None?)
    ensures r.Failure? ==> r.error == InvalidArgument(PathFolderidNameRequired)
    ensures r.Success? ==> r.value == JsonGet("createfolderifnotexists", Query(CreateFolderKeys, CreateFolderValues(path, folderid, name)))
  {
    if path.None? && (folderid.None? || name.None?) {
      return Failure(InvalidArgument(PathFolderidNameRequired));
    }
    var query := AssignFolder(path, folderid, name);
    r := Success(JsonGet("createfolderifnotexists", query));
  }

  // The messages of the \InvalidArgumentException the endpoints raise.
  const PathFolderidRequired := "Parameter 'path' or 'folderid' is required."
  const FolderidPathRequired := "Parameter 'folderid' or 'path' is required."
  const TopathTofolderidTonameMissing := "At least one of 'topath', 'tofolderid', or 'toname' must be specified."
  const TofolderidTopathMissing := "At least one of 'tofolderid' or 'topath' must be specified."

  /** The keys listfolder may send, in the order its code assigns them. */
  const ListFolderKeys: Names := ["folderid", "path", "recursive", "showdeleted", "nofiles", "noshares"]

  /** What listfolder sends under each of its keys, in the same order (None: the key is left out). */
  function ListFolderValues(path: Option<string>, folderid: Option<int>, recursive: bool, showdeleted: bool, nofiles: bool, noshares: bool): seq<Option<Value>>
  {
    [Int(folderid),
     Otherwise(Int(folderid), Str(path)),
     Bit(recursive),
     Bit(showdeleted),
     Bit(nofiles),
     Bit(noshares)]
  }

  /** listfolder: the contents of a folder named by id, or else by path. */
  method ListFolder(path: Option<string>, folderid: Option<int>, recursive: bool, showdeleted: bool, nofiles: bool, noshares: bool)
    returns (r: Result<Request>)
    ensures r.Failure? <==> path.None? && folderid.None?
    ensures r.Failure? ==> r.error == InvalidArgument(PathFolderidRequired)
    ensures r.Success? ==> r.value == JsonGet("listfolder", Query(ListFolderKeys, ListFolderValues(path, folderid, recursive, showdeleted, nofiles, noshares)))
  {
    if path.None? && folderid.None? {
      return Failure(InvalidArgument(PathFolderidRequired));
    }
    var ks, vs := ListFolderKeys, ListFolderValues(path, folderid, recursive, showdeleted, nofiles, noshares);
    assert |ks| == |vs| == 6;
    var query: PArray := [];
    query := Assign(query, ks, vs, 0);  // folderid
    query := Assign(query, ks, vs, 1);  // path, only without folderid
    query := Assign(query, ks, vs, 2);  // recursive
    query := Assign(query, ks, vs, 3);  // showdeleted
    query := Assign(query, ks, vs, 4);  // nofiles
    query := Assign(query, ks, vs, 5);  // noshares
    r := Success(JsonGet("listfolder", query));
  }

  /** The keys renamefolder may send, in the order its code assigns them. */
  const RenameFolderKeys: Names := ["folderid", "path", "topath", "tofolderid", "toname"]

  /** What renamefolder sends under each of its keys, in the same order (None: the key is left out). */
  function RenameFolderValues(folderid: Option<int>, path: Option<string>, topath: Option<string>, tofolderid: Option<int>, toname: Option<string>): seq<Option<Value>>
  {
    [Int(folderid),
     Otherwise(Int(folderid), Str(path)),
     Str(topath),
     Int(tofolderid),
     Str(toname)]
  }

  /** renamefolder: renames or moves a folder. */
  method RenameFolder(folderid: Option<int>, path: Option<string>, topath: Option<string>, tofolderid: Option<int>, toname: Option<string>)
    returns (r: Result<Request>)
    ensures r.Failure? <==> (folderid.None? && path.None?) || (topath.None? && tofolderid.None? && toname.None?)
    ensures r.Failure? ==> r.error == InvalidArgument(if folderid.None? && path.None? then FolderidPathRequired else TopathTofolderidTonameMissing)
    ensures r.Success? ==> r.value == JsonGet("renamefolder", Query(RenameFolderKeys, RenameFolderValues(folderid, path, topath, tofolderid, toname)))
  {
    if folderid.None? && path.None? {
      return Failure(InvalidArgument(FolderidPathRequired));
    }
    if topath.None? && tofolderid.None? && toname.None? {
      return Failure(InvalidArgument(TopathTofolderidTonameMissing));
    }
    var ks, vs := RenameFolderKeys, RenameFolderValues(folderid, path, topath, tofolderid, toname);
    assert |ks| == |vs| == 5;
    var query: PArray := [];
    query := Assign(query, ks, vs, 0);  // folderid
    query := Assign(query, ks, vs, 1);  // path, only without folderid
    query := Assign(query, ks, vs, 2);  // topath
    query := Assign(query, ks, vs, 3);  // tofolderid
    query := Assign(query, ks, vs, 4);  // toname
    r := Success(JsonGet("renamefolder", query));
  }

  /** The keys deletefolder may send, in the order its code assigns them. */
  const DeleteFolderKeys: Names := ["folderid", "path"]

  /** What deletefolder sends under each of its keys, in the same order (None: the key is left out). */
  function DeleteFolderValues(folderid: Option<int>, path: Option<string>): seq<Option<Value>>
  {
    [Int(folderid),
     Otherwise(Int(folderid), Str(path))]
  }

  /** deletefolder: deletes an empty folder. */
  method DeleteFolder(folderid: Option<int>, path: Option<string>)
    returns (r: Result<Request>)
    ensures r.Failure? <==> folderid.None? && path.None?
    ensures r.Failure? ==> r.error == InvalidArgument(FolderidPathRequired)
    ensures r.Success? ==> r.value == JsonGet("deletefolder", Query(DeleteFolderKeys, DeleteFolderValues(folderid, path)))
  {
    if folderid.None? && path.None? {
      return Failure(InvalidArgument(FolderidPathRequired));
    }
    var ks, vs := DeleteFolderKeys, DeleteFolderValues(folderid, path);
    assert |ks| == |vs| == 2;
    var query: PArray := [];
    query := Assign(query, ks, vs, 0);  // folderid
    query := Assign(query, ks, vs, 1);  // path, only without folderid
    r := Success(JsonGet("deletefolder", query));
  }

  /** The keys deletefolderrecursive may send, in the order its code assigns them. */
  const DeleteFolderRecursiveKeys: Names := ["folderid", "path"]

  /** What deletefolderrecursive sends under each of its keys, in the same order (None: the key is left out). */
  function DeleteFolderRecursiveValues(folderid: Option<int>, path: Option<string>): seq<Option<Value>>
  {
    [Int(folderid),
     Otherwise(Int(folderid), Str(path))]
  }

  /** deletefolderrecursive: deletes a folder and everything in it. */
  method DeleteFolderRecursive(folderid: Option<int>, path: Option<string>)
    returns (r: Result<Request>)
    ensures r.Failure? <==> folderid.None? && path.None?
    ensures r.Failure? ==> r.error == InvalidArgument(FolderidPathRequired)
    ensures r.Success? ==> r.value == JsonGet("deletefolderrecursive", Query(DeleteFolderRecursiveKeys, DeleteFolderRecursiveValues(folderid, path)))
  {
    if folderid.None? && path.None? {
      return Failure(InvalidArgument(FolderidPathRequired));
    }
    var ks, vs := DeleteFolderRecursiveKeys, DeleteFolderRecursiveValues(folderid, path);
    assert |ks| == |vs| == 2;
    var query: PArray := [];
    query := Assign(query, ks, vs, 0);  // folderid
    query := Assign(query, ks, vs, 1);  // path, only without folderid
    r := Success(JsonGet("deletefolderrecursive", query));
  }

  /** The keys copyfolder may send, in the order its code assigns them. */
  const CopyFolderKeys: Names := ["folderid", "path", "tofolderid", "topath", "noover", "skipexisting", "copycontentonly"]

  /** What copyfolder sends under each of its keys, in the same order (None: the key is left out). */
  function CopyFolderValues(folderid: Option<int>, path: Option<string>, tofolderid: Option<int>, topath: Option<string>, noover: bool, skipexisting: bool, copycontentonly: bool): seq<Option<Value>>
  {
    [Int(folderid),
     Otherwise(Int(folderid), Str(path)),
     Int(tofolderid),
     Str(topath),
     Bit(noover),
     Bit(skipexisting),
     Bit(copycontentonly)]
  }

  /** copyfolder: copies a folder to a destination folder or path. */
  method CopyFolder(folderid: Option<int>, path: Option<string>, tofolderid: Option<int>, topath: Option<string>, noover: bool, skipexisting: bool, copycontentonly: bool)
    returns (r: Result<Request>)
    ensures r.Failure? <==> (folderid.None? && path.None?) || (tofolderid.None? && topath.None?)
    ensures r.Failure? ==> r.error == InvalidArgument(if folderid.None? && path.None? then FolderidPathRequired else TofolderidTopathMissing)
    ensures r.Success? ==> r.value == JsonGet("copyfolder", Query(CopyFolderKeys, CopyFolderValues(folderid, path, tofolderid, topath, noover, skipexisting, copycontentonly)))
  {
    if folderid.None? && path.None? {
      return Failure(InvalidArgument(FolderidPathRequired));
    }
    if tofolderid.None? && topath.None? {
      return Failure(InvalidArgument(TofolderidTopathMissing));
    }
    var ks, vs := CopyFolderKeys, CopyFolderValues(folderid, path, tofolderid, topath, noover, skipexisting, copycontentonly);
    assert |ks| == |vs| == 7;
    var query: PArray := [];
    query := Assign(query, ks, vs, 0);  // folderid
    query := Assign(query, ks, vs, 1);  // path, only without folderid
    query := Assign(query, ks, vs, 2);  // tofolderid
    query := Assign(query, ks, vs, 3);  // topath
    query := Assign(query, ks, vs, 4);  // noover
    query := Assign(query, ks, vs, 5);  // skipexisting
    query := Assign(query, ks, vs, 6);  // copycontentonly
    r := Success(JsonGet("copyfolder", query));
  }
}
