/** Builders for the streaming endpoints (src/Api/Streaming.php). */
module Streaming {
  import opened Php
  import opened Http

  // The messages of the \InvalidArgumentException the endpoints raise.
  const FileidPathMissing := "Either fileid or path must be provided."

  /** The keys getfilelink may send, in the order its code assigns them. */
  const GetFileLinkKeys: Names := ["fileid", "path", "forcedownload", "contenttype", "maxspeed", "skipfilename"]

  /** What getfilelink sends under each of its keys, in the same order (None: the key is left out). */
  function GetFileLinkValues(fileid: Option<int>, path: Option<string>, forcedownload: bool, contenttype: Option<string>, maxspeed: Option<int>, skipfilename: bool): seq<Option<Value>>
  {
    [Int(fileid),
     Otherwise(Int(fileid), Str(path)),
     Bit(forcedownload),
     Str(contenttype),
     Int(maxspeed),
     Bit(skipfilename)]
  }

  /** getfilelink: a download link for a file named by id, or else by path. */
  method GetFileLink(fileid: Option<int>, path: Option<string>, forcedownload: bool, contenttype: Option<string>, maxspeed: Option<int>, skipfilename: bool)
    returns (r: Result<Request>)
    ensures r.Failure? <==> fileid.None? && path.None?
    ensures r.Failure? ==> r.error == InvalidArgument(FileidPathMissing)
    ensures r.Success? ==> r.value == JsonGet("getfilelink", Query(GetFileLinkKeys, GetFileLinkValues(fileid, path, forcedownload, contenttype, maxspeed, skipfilename)))
  {
    var ks, vs := GetFileLinkKeys, GetFileLinkValues(fileid, path, forcedownload, contenttype, maxspeed, skipfilename);
    assert |ks| == |vs| == 6;
    if fileid.None? && path.None? {
      return Failure(InvalidArgument(FileidPathMissing));
    }
    var query: PArray := [];
    query := Assign(query, ks, vs, 0);  // fileid
    query := Assign(query, ks, vs, 1);  // path, only without fileid
    query := Assign(query, ks, vs, 2);  // forcedownload
    query := Assign(query, ks, vs, 3);  // contenttype
    query := Assign(query, ks, vs, 4);  // maxspeed
    query := Assign(query, ks, vs, 5);  // skipfilename
    r := Success(JsonGet("getfilelink", query));
  }

  /** The keys getvideolink may send, in the order its code assigns them. */
  const GetVideoLinkKeys: Names := ["fileid", "path", "forcedownload", "contenttype", "skipfilename", "abitrate", "vbitrate", "resolution", "fixedbitrate"]

  /** What getvideolink sends under each of its keys, in the same order (None: the key is left out). */
  function GetVideoLinkValues(fileid: Option<int>, path: Option<string>, forcedownload: bool, contenttype: Option<string>, skipfilename: bool, abitrate: Option<int>, vbitrate: Option<int>, resolution: Option<string>, fixedbitrate: bool): seq<Option<Value>>
  {
    [Int(fileid),
     Otherwise(Int(fileid), Str(path)),
     Bit(forcedownload),
     Str(contenttype),
     Bit(skipfilename),
     Int(abitrate),
     Int(vbitrate),
     Str(resolution),
     Bit(fixedbitrate)]
  }

  /** getvideolink: a streaming link for a video, transcoded as the options ask. */
  method GetVideoLink(fileid: Option<int>, path: Option<string>, forcedownload: bool, contenttype: Option<string>, skipfilename: bool, abitrate: Option<int>, vbitrate: Option<int>, resolution: Option<string>, fixedbitrate: bool)
    returns (r: Result<Request>)
    ensures r.Failure? <==> fileid.None? && path.None?
    ensures r.Failure? ==> r.error == InvalidArgument(FileidPathMissing)
    ensures r.Success? ==> r.value == JsonGet("getvideolink", Query(GetVideoLinkKeys, GetVideoLinkValues(fileid, path, forcedownload, contenttype, skipfilename, abitrate, vbitrate, resolution, fixedbitrate)))
  {
    var ks, vs := GetVideoLinkKeys, GetVideoLinkValues(fileid, path, forcedownload, contenttype, skipfilename, abitrate, vbitrate, resolution, fixedbitrate);
    assert |ks| == |vs| == 9;
    if fileid.None? && path.None? {
      return Failure(InvalidArgument(FileidPathMissing));
    }
    var query: PArray := [];
    query := Assign(query, ks, vs, 0);  // fileid
    query := Assign(query, ks, vs, 1);  // path, only without fileid
    query := Assign(query, ks, vs, 2);  // forcedownload
    query := Assign(query, ks, vs, 3);  // contenttype
    query := Assign(query, ks, vs, 4);  // skipfilename
    query := Assign(query, ks, vs, 5);  // abitrate
    query := Assign(query, ks, vs, 6);  // vbitrate
    query := Assign(query, ks, vs, 7);  // resolution
    query := Assign(query, ks, vs, 8);  // fixedbitrate
    r := Success(JsonGet("getvideolink", query));
  }

  /** The keys getvideolinks may send, in the order its code assigns them. */
  const GetVideoLinksKeys: Names := ["fileid", "path", "forcedownload", "contenttype", "maxspeed", "skipfilename"]

  /** What getvideolinks sends under each of its keys, in the same order (None: the key is left out). */
  function GetVideoLinksValues(fileid: Option<int>, path: Option<string>, forcedownload: bool, contenttype: Option<string>, maxspeed: Option<int>, skipfilename: bool): seq<Option<Value>>
  {
    [Int(fileid),
     Otherwise(Int(fileid), Str(path)),
     Bit(forcedownload),
     Str(contenttype),
     Int(maxspeed),
     Bit(skipfilename)]
  }

  /** getvideolinks: the links to every variant of a video. */
  method GetVideoLinks(fileid: Option<int>, path: Option<string>, forcedownload: bool, contenttype: Option<string>, maxspeed: Option<int>, skipfilename: bool)
    returns (r: Result<Request>)
    ensures r.Failure? <==> fileid.None? && path.None?
    ensures r.Failure? ==> r.error == InvalidArgument(FileidPathMissing)
    ensures r.Success? ==> r.value == JsonGet("getvideolinks", Query(GetVideoLinksKeys, GetVideoLinksValues(fileid, path, forcedownload, contenttype, maxspeed, skipfilename)))
  {
    var ks, vs := GetVideoLinksKeys, GetVideoLinksValues(fileid, path, forcedownload, contenttype, maxspeed, skipfilename);
    assert |ks| == |vs| == 6;
    if fileid.None? && path.None? {
      return Failure(InvalidArgument(FileidPathMissing));
    }
    var query: PArray := [];
    query := Assign(query, ks, vs, 0);  // fileid
    query := Assign(query, ks, vs, 1);  // path, only without fileid
    query := Assign(query, ks, vs, 2);  // forcedownload
    query := Assign(query, ks, vs, 3);  // contenttype
    query := Assign(query, ks, vs, 4);  // maxspeed
    query := Assign(query, ks, vs, 5);  // skipfilename
    r := Success(JsonGet("getvideolinks", query));
  }

  /** The keys getaudiolink may send, in the order its code assigns them. */
  const GetAudioLinkKeys: Names := ["fileid", "path", "forcedownload", "contenttype", "abitrate"]

  /** What getaudiolink sends under each of its keys, in the same order (None: the key is left out). */
  function GetAudioLinkValues(fileid: Option<int>, path: Option<string>, forcedownload: bool, contenttype: Option<string>, abitrate: Option<int>): seq<Option<Value>>
  {
    [Int(fileid),
     Otherwise(Int(fileid), Str(path)),
     Bit(forcedownload),
     Str(contenttype),
     Int(abitrate)]
  }

  /** getaudiolink: a streaming link for an audio file. */
  method GetAudioLink(fileid: Option<int>, path: Option<string>, forcedownload: bool, contenttype: Option<string>, abitrate: Option<int>)
    returns (r: Result<Request>)
    ensures r.Failure? <==> fileid.None? && path.None?
    ensures r.Failure? ==> r.error == InvalidArgument(FileidPathMissing)
    ensures r.Success? ==> r.value == JsonGet("getaudiolink", Query(GetAudioLinkKeys, GetAudioLinkValues(fileid, path, forcedownload, contenttype, abitrate)))
  {
    var ks, vs := GetAudioLinkKeys, GetAudioLinkValues(fileid, path, forcedownload, contenttype, abitrate);
    assert |ks| == |vs| == 5;
    if fileid.None? && path.None? {
      return Failure(InvalidArgument(FileidPathMissing));
    }
    var query: PArray := [];
    query := Assign(query, ks, vs, 0);  // fileid
    query := Assign(query, ks, vs, 1);  // path, only without fileid
    query := Assign(query, ks, vs, 2);  // forcedownload
    query := Assign(query, ks, vs, 3);  // contenttype
    query := Assign(query, ks, vs, 4);  // abitrate
    r := Success(JsonGet("getaudiolink", query));
  }

  /** The keys gethlslink may send, in the order its code assigns them. */
  const GetHlsLinkKeys: Names := ["fileid", "path", "abitrate", "vbitrate", "resolution", "skipfilename"]

  /** What gethlslink sends under each of its keys, in the same order (None: the key is left out). */
  function GetHlsLinkValues(fileid: Option<int>, path: Option<string>, abitrate: Option<int>, vbitrate: Option<int>, resolution: Option<string>, skipfilename: bool): seq<Option<Value>>
  {
    [Int(fileid),
     Otherwise(Int(fileid), Str(path)),
     Int(abitrate),
     Int(vbitrate),
     Str(resolution),
     Bit(skipfilename)]
  }

  /** gethlslink: an HTTP Live Streaming playlist link for a video. */
  method GetHlsLink(fileid: Option<int>, path: Option<string>, abitrate: Option<int>, vbitrate: Option<int>, resolution: Option<string>, skipfilename: bool)
    returns (r: Result<Request>)
    ensures r.Failure? <==> fileid.None? && path.None?
    ensures r.Failure? ==> r.error == InvalidArgument(FileidPathMissing)
    ensures r.Success? ==> r.value == JsonGet("gethlslink", Query(GetHlsLinkKeys, GetHlsLinkValues(fileid, path, abitrate, vbitrate, resolution, skipfilename)))
  {
    var ks, vs := GetHlsLinkKeys, GetHlsLinkValues(fileid, path, abitrate, vbitrate, resolution, skipfilename);
    assert |ks| == |vs| == 6;
    if fileid.None? && path.None? {
      return Failure(InvalidArgument(FileidPathMissing));
    }
    var query: PArray := [];
    query := Assign(query, ks, vs, 0);  // fileid
    query := Assign(query, ks, vs, 1);  // path, only without fileid
    query := Assign(query, ks, vs, 2);  // abitrate
    query := Assign(query, ks, vs, 3);  // vbitrate
    query := Assign(query, ks, vs, 4);  // resolution
    query := Assign(query, ks, vs, 5);  // skipfilename
    r := Success(JsonGet("gethlslink", query));
  }

  /** The keys gettextfile may send, in the order its code assigns them. */
  const GetTextFileKeys: Names := ["fileid", "path", "fromencoding", "toencoding", "forcedownload", "contenttype"]

  /** What gettextfile sends under each of its keys, in the same order (None: the key is left out). */
  function GetTextFileValues(fileid: Option<int>, path: Option<string>, fromencoding: Option<string>, toencoding: Option<string>, forcedownload: bool, contenttype: Option<string>): seq<Option<Value>>
  {
    [Int(fileid),
     Otherwise(Int(fileid), Str(path)),
     Str(fromencoding),
     Str(toencoding),
     Bit(forcedownload),
     Str(contenttype)]
  }

  /** gettextfile: the contents of a text file, re-encoded, returned as raw bytes. */
  method GetTextFile(fileid: Option<int>, path: Option<string>, fromencoding: Option<string>, toencoding: Option<string>, forcedownload: bool, contenttype: Option<string>)
    returns (r: Result<Request>)
    ensures r.Failure? <==> fileid.None? && path.None?
    ensures r.Failure? ==> r.error == InvalidArgument(FileidPathMissing)
    ensures r.Success? ==> r.value == RawGet("gettextfile", Query(GetTextFileKeys, GetTextFileValues(fileid, path, fromencoding, toencoding, forcedownload, contenttype)))
  {
    var ks, vs := GetTextFileKeys, GetTextFileValues(fileid, path, fromencoding, toencoding, forcedownload, contenttype);
    assert |ks| == |vs| == 6;
    if fileid.None? && path.None? {
      return Failure(InvalidArgument(FileidPathMissing));
    }
    var query: PArray := [];
    query := Assign(query, ks, vs, 0);  // fileid
    query := Assign(query, ks, vs, 1);  // path, only without fileid
    query := Assign(query, ks, vs, 2);  // fromencoding
    query := Assign(query, ks, vs, 3);  // toencoding
    query := Assign(query, ks, vs, 4);  // forcedownload
    query := Assign(query, ks, vs, 5);  // contenttype
    r := Success(RawGet("gettextfile", query));
  }

  /** gethlslink sends no key but the locator, the bit rates, the resolution and `skipfilename`. */
  lemma GetHlsLinkKeysOnly(fileid: Option<int>, path: Option<string>, abitrate: Option<int>, vbitrate: Option<int>, resolution: Option<string>, skipfilename: bool)
    ensures forall k :: k in Keys(Query(GetHlsLinkKeys, GetHlsLinkValues(fileid, path, abitrate, vbitrate, resolution, skipfilename))) ==>
      k in {Name("fileid"), Name("path"), Name("abitrate"), Name("vbitrate"), Name("resolution"), Name("skipfilename")}
  {
    QueryContents(GetHlsLinkKeys, GetHlsLinkValues(fileid, path, abitrate, vbitrate, resolution, skipfilename));
  }
}
