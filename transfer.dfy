/** Builders for the transfer endpoints (src/Api/Transfer.php). */
module Transfer {
  import opened Php
  import opened Http
  import opened Multipart

  // The messages of the \InvalidArgumentException the endpoints raise.
  const SendermailReceivermailsFilesRequired := "Parameters 'sendermail', 'receivermails', and 'files' are required."
  const ProgresshashRequired := "Parameter 'progresshash' is required."

  /** The keys uploadtransfer may send, in the order its code assigns them. */
  const UploadTransferKeys: Names := ["sendermail", "receivermails", "message", "progresshash"]

  /** What uploadtransfer sends under each of its keys, in the same order (None: the key is left out). */
  function UploadTransferValues(sendermail: string, receivermails: string, message: Option<string>, progresshash: Option<string>): seq<Option<Value>>
  {
    [Some(S(sendermail)),
     Some(S(receivermails)),
     Str(message),
     Str(progresshash)]
  }

  /** uploadtransfer: sends the files of `files` from `sendermail` to `receivermails`. */
  method UploadTransfer(sendermail: string, receivermails: string, files: seq<(Key, FileEntry)>, message: Option<string>, progresshash: Option<string>)
    returns (r: Result<Request>)
    ensures r.Failure? <==> (EmptyStr(sendermail) || EmptyStr(receivermails) || files == []) || (exists i :: 0 <= i < |files| && Rejects(ToLink, files[i].1))
    ensures r.Failure? ==> r.error == (if EmptyStr(sendermail) || EmptyStr(receivermails) || files == [] then InvalidArgument(SendermailReceivermailsFilesRequired) else FopenArray)
    ensures r.Success? ==>
      && Parts(ToLink, files).Success?
      && r.value == MultipartPost("uploadtransfer", Query(UploadTransferKeys, UploadTransferValues(sendermail, receivermails, message, progresshash)), Parts(ToLink, files).value)
  {
    if EmptyStr(sendermail) || EmptyStr(receivermails) || files == [] {
      return Failure(InvalidArgument(SendermailReceivermailsFilesRequired));
    }
    var parts := CollectParts(ToLink, files);
    PartsFailure(ToLink, files);
    if parts.Failure? {
      return Failure(parts.error);
    }
    var ks, vs := UploadTransferKeys, UploadTransferValues(sendermail, receivermails, message, progresshash);
    assert |ks| == |vs| == 4;
    var query: PArray := [(Name(ks[0]), S(sendermail)), (Name(ks[1]), S(receivermails))];
    SeededCompose(query, ks, vs);
    query := Assign(query, ks, vs, 2);  // message
    query := Assign(query, ks, vs, 3);  // progresshash
    r := Success(MultipartPost("uploadtransfer", query, parts.value));
  }

  /** uploadtransferprogress: the progress of a transfer upload. */
  function UploadTransferProgress(progresshash: string): (r: Result<Request>)
    ensures r.Failure? <==> EmptyStr(progresshash)
    ensures r.Failure? ==> r.error == InvalidArgument(ProgresshashRequired)
    ensures r.Success? ==> r.value == JsonGet("uploadtransferprogress", [(Name("progresshash"), S(progresshash))])
  {
    if EmptyStr(progresshash) then Failure(InvalidArgument(ProgresshashRequired))
    else Success(JsonGet("uploadtransferprogress", [(Name("progresshash"), S(progresshash))]))
  }
}
