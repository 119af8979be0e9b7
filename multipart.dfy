/** The multipart body of the upload endpoints: each entry of the caller's `$files`
    array becomes one part whose contents is the file opened at its path. */
module Multipart {
  import opened Php
  import opened Http

  /** The two ways the upload endpoints read a `$files` entry.
      ToFolder (uploadfile): an array with a non-null 'path' is sent under the entry's
      key, with its 'filename' or else the path's basename; anything else is a path.
      ToLink (uploadtolink, uploadtransfer): an array with non-null 'name' and 'path'
      is sent under that name; anything else is a path sent under the entry's key.
      PHP's `basename()` is left uninterpreted: uploadfile's caller supplies it. */
  datatype FilesStyle = ToFolder(basename: string -> string) | ToLink

  /** The entries for which the endpoint ends up handing an array to `fopen`: only
      arrays are rejected, an array without 'path' always is, and uploadtolink's
      reading also rejects one without 'name'. */
  predicate Rejects(style: FilesStyle, entry: FileEntry)
    ensures Rejects(style, entry) ==> entry.Fields?
    ensures entry.Fields? && entry.path.None? ==> Rejects(style, entry)
    ensures style.ToFolder? ==> (Rejects(style, entry) <==> entry.Fields? && entry.path.None?)
    ensures style.ToLink? && entry.Fields? && entry.path.Some? ==> (Rejects(style, entry) <==> entry.name.None?)
  {
    match style
    case ToFolder(_) => entry.Fields? && entry.path.None?
    case ToLink => entry.Fields? && (entry.name.None? || entry.path.None?)
  }

  /** The part for one `$files` entry under key `key`. */
  function PartOf(style: FilesStyle, key: Key, entry: FileEntry): (r: Result<Part>)
    ensures r.Failure? <==> Rejects(style, entry)
    ensures r.Failure? ==> r.error == FopenArray
    ensures style.ToFolder? && r.Success? ==>
      && r.value.name == FieldName(key)
      && r.value.contents == (if entry.Fields? then entry.path.value else entry.file)
      && r.value.filename == Some(if entry.Fields? then entry.filename.GetOr(style.basename(entry.path.value))
                                  else style.basename(entry.file))
    ensures style.ToLink? && r.Success? ==>
      && r.value.name == (if entry.Fields? then entry.name.value else FieldName(key))
      && r.value.contents == (if entry.Fields? then entry.path.value else entry.file)
      && r.value.filename.None?
  {
    if Rejects(style, entry) then Failure(FopenArray)
    else
      var contents := if entry.Fields? then entry.path.value else entry.file;
      if style.ToLink? then
        Success(Part(if entry.Fields? then entry.name.value else FieldName(key), contents, None))
      else
        Success(Part(FieldName(key), contents,
                     Some(if entry.Fields? then entry.filename.GetOr(style.basename(contents)) else style.basename(contents))))
  }

  /** The multipart list of `$files`: one part per entry, in order, or the
      TypeError of an entry `fopen` rejects. */
  function Parts(style: FilesStyle, files: seq<(Key, FileEntry)>): (r: Result<seq<Part>>)
    ensures r.Failure? ==> r.error == FopenArray
    ensures r.Success? ==> |r.value| == |files|
  {
    if files == [] then Success([])
    else
      var n := |files| - 1;
      var done := Parts(style, files[..n]);
      var p := PartOf(style, files[n].0, files[n].1);
      if done.Failure? then done
      else if p.Failure? then Failure(p.error)
      else Success(done.value + [p.value])
  }

  /** The upload fails exactly when some entry is one `fopen` rejects. */
  lemma {:induction false} PartsFailure(style: FilesStyle, files: seq<(Key, FileEntry)>)
    ensures Parts(style, files).Failure? <==> exists i :: 0 <= i < |files| && Rejects(style, files[i].1)
  {
    if files != [] {
      var n := |files| - 1;
      var pre := files[..n];
      PartsFailure(style, pre);
      if Parts(style, files).Failure? {
        if Parts(style, pre).Failure? {
          var i :| 0 <= i < |pre| && Rejects(style, pre[i].1);
          assert pre[i] == files[i];
        } else {
          assert Rejects(style, files[n].1);
        }
      } else {
        forall i | 0 <= i < |files| ensures !Rejects(style, files[i].1) {
          if i < n {
            assert pre[i] == files[i];
          }
        }
      }
    }
  }

  /** When the upload goes ahead, part `i` is the part of entry `i`. */
  lemma {:induction false} PartsElements(style: FilesStyle, files: seq<(Key, FileEntry)>)
    requires Parts(style, files).Success?
    ensures forall i :: 0 <= i < |files| ==> PartOf(style, files[i].0, files[i].1) == Success(Parts(style, files).value[i])
  {
    if files != [] {
      var n := |files| - 1;
      var pre := files[..n];
      PartsElements(style, pre);
      assert Parts(style, files).value == Parts(style, pre).value + [PartOf(style, files[n].0, files[n].1).value];
      assert forall i :: 0 <= i < n ==> pre[i] == files[i];
    }
  }

  /** The `foreach ($files as $key => $file)` loop that appends one part per entry. */
  method CollectParts(style: FilesStyle, files: seq<(Key, FileEntry)>) returns (r: Result<seq<Part>>)
    ensures r == Parts(style, files)
  {
    var multipart: seq<Part> := [];
    var i := 0;
    while i < |files|
      invariant 0 <= i <= |files|
      invariant Parts(style, files[..i]) == Success(multipart)
    {
      var p := PartOf(style, files[i].0, files[i].1);
      assert files[..i + 1][..i] == files[..i];
      if p.Failure? {
        PartsFailure(style, files);
        return Failure(p.error);
      }
      multipart := multipart + [p.value];
      i := i + 1;
    }
    assert files[..i] == files;
    r := Success(multipart);
  }
}
