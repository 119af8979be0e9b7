/** Builders for the collection endpoints (src/Api/Collection.php). */
module Collection {
  import opened Php
  import opened Http

  // The messages of the \InvalidArgumentException the endpoints raise.
  const CollectionidRequired := "Parameter 'collectionid' is required."
  const NameRequired := "Parameter 'name' is required."
  const CollectionidNameRequired := "Parameters 'collectionid' and 'name' are required."
  const CollectionidFileidsRequired := "Parameters 'collectionid' and 'fileids' are required."
  const CollectionidItemFileidPositionRequired := "Parameters 'collectionid', 'item', 'fileid', and 'position' are required."

  /** The keys collection_list may send, in the order its code assigns them. */
  const ListKeys: Names := ["type", "showfiles", "pagesize"]

  /** What collection_list sends under each of its keys, in the same order (None: the key is left out). */
  function ListValues(collectiontype: Option<int>, showfiles: bool, pagesize: Option<int>): seq<Option<Value>>
  {
    [Int(collectiontype),
     Bit(showfiles),
     Int(pagesize)]
  }

  /** collection_list: the collections of the user; never rejected locally (`collectiontype` is the `type` argument). */
  method List(collectiontype: Option<int>, showfiles: bool, pagesize: Option<int>)
    returns (r: Result<Request>)
    ensures r.Success?
    ensures r.Success? ==> r.value == JsonGet("collection_list", Query(ListKeys, ListValues(collectiontype, showfiles, pagesize)))
  {
    var ks, vs := ListKeys, ListValues(collectiontype, showfiles, pagesize);
    assert |ks| == |vs| == 3;
    var query: PArray := [];
    query := Assign(query, ks, vs, 0);  // type
    query := Assign(query, ks, vs, 1);  // showfiles
    query := Assign(query, ks, vs, 2);  // pagesize
    r := Success(JsonGet("collection_list", query));
  }

  /** The keys collection_details may send, in the order its code assigns them. */
  const DetailsKeys: Names := ["collectionid", "page", "pagesize"]

  /** What collection_details sends under each of its keys, in the same order (None: the key is left out). */
  function DetailsValues(collectionid: int, page: Option<int>, pagesize: Option<int>): seq<Option<Value>>
  {
    [Some(I(collectionid)),
     Int(page),
     Int(pagesize)]
  }

  /** collection_details: one page of the items of a collection. */
  method Details(collectionid: int, page: Option<int>, pagesize: Option<int>)
    returns (r: Result<Request>)
    ensures r.Failure? <==> EmptyInt(collectionid)
    ensures r.Failure? ==> r.error == InvalidArgument(CollectionidRequired)
    ensures r.Success? ==> r.value == JsonGet("collection_details", Query(DetailsKeys, DetailsValues(collectionid, page, pagesize)))
  {
    if EmptyInt(collectionid) {
      return Failure(InvalidArgument(CollectionidRequired));
    }
    var ks, vs := DetailsKeys, DetailsValues(collectionid, page, pagesize);
    assert |ks| == |vs| == 3;
    var query: PArray := [(Name(ks[0]), I(collectionid))];
    SeededCompose(query, ks, vs);
    query := Assign(query, ks, vs, 1);  // page
    query := Assign(query, ks, vs, 2);  // pagesize
    r := Success(JsonGet("collection_details", query));
  }

  /** The keys collection_create may send, in the order its code assigns them. */
  const CreateKeys: Names := ["name", "type", "fileids"]

  /** What collection_create sends under each of its keys, in the same order (None: the key is left out). */
  function CreateValues(name: string, collectiontype: Option<int>, fileids: Option<string>): seq<Option<Value>>
  {
    [Some(S(name)),
     Int(collectiontype),
     Str(fileids)]
  }

  /** collection_create: creates a collection, optionally of a type and with initial files. */
  method Create(name: string, collectiontype: Option<int>, fileids: Option<string>)
    returns (r: Result<Request>)
    ensures r.Failure? <==> EmptyStr(name)
    ensures r.Failure? ==> r.error == InvalidArgument(NameRequired)
    ensures r.Success? ==> r.value == JsonGet("collection_create", Query(CreateKeys, CreateValues(name, collectiontype, fileids)))
  {
    if EmptyStr(name) {
      return Failure(InvalidArgument(NameRequired));
    }
    var ks, vs := CreateKeys, CreateValues(name, collectiontype, fileids);
    assert |ks| == |vs| == 3;
    var query: PArray := [(Name(ks[0]), S(name))];
    SeededCompose(query, ks, vs);
    query := Assign(query, ks, vs, 1);  // type
    query := Assign(query, ks, vs, 2);  // fileids
    r := Success(JsonGet("collection_create", query));
  }

  /** collection_rename: renames a collection. */
  function Rename(collectionid: int, name: string): (r: Result<Request>)
    ensures r.Failure? <==> EmptyInt(collectionid) || EmptyStr(name)
    ensures r.Failure? ==> r.error == InvalidArgument(CollectionidNameRequired)
    ensures r.Success? ==> r.value == JsonGet("collection_rename", [(Name("collectionid"), I(collectionid)), (Name("name"), S(name))])
  {
    if EmptyInt(collectionid) || EmptyStr(name) then Failure(InvalidArgument(CollectionidNameRequired))
    else Success(JsonGet("collection_rename", [(Name("collectionid"), I(collectionid)), (Name("name"), S(name))]))
  }

  /** collection_delete: deletes a collection. */
  function Delete(collectionid: int): (r: Result<Request>)
    ensures r.Failure? <==> EmptyInt(collectionid)
    ensures r.Failure? ==> r.error == InvalidArgument(CollectionidRequired)
    ensures r.Success? ==> r.value == JsonGet("collection_delete", [(Name("collectionid"), I(collectionid))])
  {
    if EmptyInt(collectionid) then Failure(InvalidArgument(CollectionidRequired))
    else Success(JsonGet("collection_delete", [(Name("collectionid"), I(collectionid))]))
  }

  /** The keys collection_linkfiles may send, in the order its code assigns them. */
  const LinkFilesKeys: Names := ["collectionid", "fileids", "noitems"]

  /** What collection_linkfiles sends under each of its keys, in the same order (None: the key is left out). */
  function LinkFilesValues(collectionid: int, fileids: string, noitems: bool): seq<Option<Value>>
  {
    [Some(I(collectionid)),
     Some(S(fileids)),
     Bit(noitems)]
  }

  /** collection_linkfiles: appends files to a collection. */
  method LinkFiles(collectionid: int, fileids: string, noitems: bool)
    returns (r: Result<Request>)
    ensures r.Failure? <==> EmptyInt(collectionid) || EmptyStr(fileids)
    ensures r.Failure? ==> r.error == InvalidArgument(CollectionidFileidsRequired)
    ensures r.Success? ==> r.value == JsonGet("collection_linkfiles", Query(LinkFilesKeys, LinkFilesValues(collectionid, fileids, noitems)))
  {
    if EmptyInt(collectionid) || EmptyStr(fileids) {
      return Failure(InvalidArgument(CollectionidFileidsRequired));
    }
    var ks, vs := LinkFilesKeys, LinkFilesValues(collectionid, fileids, noitems);
    assert |ks| == |vs| == 3;
    var query: PArray := [(Name(ks[0]), I(collectionid)), (Name(ks[1]), S(fileids))];
    SeededCompose(query, ks, vs);
    query := Assign(query, ks, vs, 2);  // noitems
    r := Success(JsonGet("collection_linkfiles", query));
  }

  /** collection_move: moves an item of a collection to a new position. */
  function Move(collectionid: int, item: int, fileid: int, position: int): (r: Result<Request>)
    ensures r.Failure? <==> EmptyInt(collectionid) || EmptyInt(item) || EmptyInt(fileid) || EmptyInt(position)
    ensures r.Failure? ==> r.error == InvalidArgument(CollectionidItemFileidPositionRequired)
    ensures r.Success? ==> r.value == JsonGet("collection_move", [(Name("collectionid"), I(collectionid)), (Name("item"), I(item)), (Name("fileid"), I(fileid)), (Name("position"), I(position))])
  {
    if EmptyInt(collectionid) || EmptyInt(item) || EmptyInt(fileid) || EmptyInt(position) then Failure(InvalidArgument(CollectionidItemFileidPositionRequired))
    else Success(JsonGet("collection_move", [(Name("collectionid"), I(collectionid)), (Name("item"), I(item)), (Name("fileid"), I(fileid)), (Name("position"), I(position))]))
  }

  const PositionsAllFileidsMissing := "At least one of 'positions', 'all', or 'fileids' must be specified."

  /** The keys collection_unlinkfiles may send, in the order its code assigns them. */
  const UnlinkFilesKeys: Names := ["collectionid", "positions", "all", "fileids"]

  /** What collection_unlinkfiles sends under each key: the collection, the positions
      when given, `all` only without positions, the file ids only without either. */
  function UnlinkFilesValues(collectionid: int, positions: Option<string>, all: bool, fileids: Option<string>): seq<Option<Value>>
  {
    [Some(I(collectionid)), Str(positions), Otherwise(Str(positions), Bit(all)),
     Otherwise(Str(positions), Otherwise(Bit(all), Str(fileids)))]
  }

  /** A successful collection_unlinkfiles names the collection and exactly one
      selector: the positions if given, else `all`, else the file ids. */
  lemma UnlinkFilesOneSelector(collectionid: int, positions: Option<string>, all: bool, fileids: Option<string>)
    requires positions.Some? || all || fileids.Some?
    ensures var q := Query(UnlinkFilesKeys, UnlinkFilesValues(collectionid, positions, all, fileids));
      && Distinct(q) && |q| == 2
      && Lookup(q, Name("collectionid")) == Some(I(collectionid))
      && (positions.Some? ==> Lookup(q, Name("positions")) == Some(S(positions.value)))
      && (positions.None? && all ==> Lookup(q, Name("all")) == Some(I(1)))
      && (positions.None? && !all ==> Lookup(q, Name("fileids")) == Some(S(fileids.value)))
  {
    var ks := UnlinkFilesKeys;
    var vs := UnlinkFilesValues(collectionid, positions, all, fileids);
    QueryContents(ks, vs);
    assert ks[0] == "collectionid" && ks[1] == "positions" && ks[2] == "all" && ks[3] == "fileids";
    assert |Compose(ks, vs, 1)| == 1;
    if positions.Some? {
      assert |Compose(ks, vs, 2)| == 2 && Compose(ks, vs, 4) == Compose(ks, vs, 2);
    } else if all {
      assert |Compose(ks, vs, 3)| == 2 && Compose(ks, vs, 4) == Compose(ks, vs, 3);
    } else {
      assert Compose(ks, vs, 3) == Compose(ks, vs, 1);
    }
  }

  /** collection_unlinkfiles: removes items from a collection, selected by position,
      all at once, or by file id. */
  method UnlinkFiles(collectionid: int, positions: Option<string>, all: bool, fileids: Option<string>)
    returns (r: Result<Request>)
    ensures r.Failure? <==> EmptyInt(collectionid) || (positions.None? && !all && fileids.None?)
    ensures r.Failure? ==> r.error == InvalidArgument(if EmptyInt(collectionid) then CollectionidRequired else PositionsAllFileidsMissing)
    ensures r.Success? ==> r.value == JsonGet("collection_unlinkfiles", Query(UnlinkFilesKeys, UnlinkFilesValues(collectionid, positions, all, fileids)))
  {
    if EmptyInt(collectionid) {
      return Failure(InvalidArgument(CollectionidRequired));
    }
    if positions.None? && !all && fileids.None? {
      return Failure(InvalidArgument(PositionsAllFileidsMissing));
    }
    var ks, vs := UnlinkFilesKeys, UnlinkFilesValues(collectionid, positions, all, fileids);
    var query: PArray := [(Name(ks[0]), I(collectionid))];
    SeededCompose(query, ks, vs);
    if positions.Some? {
      query := Assign(query, ks, vs, 1);
      assert Compose(ks, vs, 4) == Compose(ks, vs, 2);
    } else if all {
      assert Compose(ks, vs, 2) == Compose(ks, vs, 1);
      query := Assign(query, ks, vs, 2);
      assert Compose(ks, vs, 4) == Compose(ks, vs, 3);
    } else if fileids.Some? {
      assert Compose(ks, vs, 3) == Compose(ks, vs, 1);
      query := Assign(query, ks, vs, 3);
    }
    r := Success(JsonGet("collection_unlinkfiles", query));
  }
}
