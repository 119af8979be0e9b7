# pcloud-sdk-php request assembly, in Dafny

This project models the request-assembly core of a PHP client for the pCloud
REST API (`src/Api/*.php`). On every call an endpoint method does one of two
things. It may raise an `\InvalidArgumentException` before anything is sent.
Otherwise it hands the HTTP client a request: an endpoint name, a verb, an
ordered query, an optional multipart body, and whether the reply is
JSON-decoded or returned as raw bytes. The methods of `General.php` and
`Auth::listtokens` also check the decoded reply for a non-zero `result`. The
model states both halves and proves what they send.

Modules:

- `Php` covers the PHP semantics the code relies on:
  - arrays as ordered key/value lists, with `Keys`, `Lookup` and `Distinct`;
  - the assignment `$a[$k] = $v` (`Set`) and `array_merge` (`Merge`);
  - `empty()` on strings (`""` and `"0"`) and on ints (`0`);
  - the decimal text of an int.
- `Http` defines the request record, the error kinds and `Result`, and the
  values a query assignment sends:
  - `Int` and `Str` for a nullable argument;
  - `Bit` for `if ($b) $query[k] = 1;`;
  - `Otherwise` for the `elseif` branch of a locator.

  It also holds the generic theory of a query built by successive
  assignments. `Query(ks, vs)` is the query that gives name `ks[j]` the value
  `vs[j]`, and leaves the name out when `vs[j]` is null. `QueryContents` and
  `QueryOrder` prove what such a query holds and in which order. `Assign` is
  the one assignment step the endpoint methods are made of: applied to the
  query of the first `n` assignments, it yields the query of the first `n + 1`.
- `Multipart` models the `foreach ($files as $key => $file)` loops of the
  three upload endpoints. `CollectParts` is the loop; `Parts` is its
  specification.
- `Json` models decoded replies and the `isset($data['result']) &&
  $data['result'] !== 0` check, including the `: array` return type.
- There is one module per source file: `PublicLinks`, `File`, `Streaming`,
  `Auth`, `Folder`, `UploadLinks`, `Collection`, `Archiving`, `Sharing`,
  `Thumbnails`, `General`, `Trash`, `Transfer`, `Revisions` and `OAuth`.

An endpoint that fills `$query` step by step is modelled by these members:

- a method `X` that performs the same checks and assignments, in the
  source's order;
- `XKeys`, the names it may assign, in that order;
- `XValues`, what it sends under each name (null when the assignment is skipped).

The method's body is one `Assign` per `if` of the source, so it builds
exactly `Query(XKeys, XValues(..))`.

The method's contract has three parts:

1. the exact condition under which it fails;
2. which message it raises, and so in which order the checks run;
3. the request it builds on success.

`Http.QueryContents` then turns the request into facts about the query: each
key at most once, under the value `XValues` gives it, and nothing else. An
endpoint whose query is a literal array is a function with the same three
parts of contract.

The HTTP client, `json_decode`, `json_encode`, `fopen` and `basename` are not
modelled. The request is returned instead of sent. A decoded reply is an
input. The encoded `tree` is a caller-given string. A file's contents are its
path. `basename` is a function parameter of `uploadfile`.

## Model

| member | source | states |
|---|---|---|
| Php.Set | src/Api/Folder.php:31 | `$a[$k] = $v`: the key is added (at the end when new, in place when present), it then maps to `v`, every other key keeps its value, and distinct keys stay distinct |
| Php.Merge | src/Api/PublicLinks.php:351 | `array_merge($a, $b)`: a string key is in the result exactly when it is in `a` or in `b`, every integer key is renumbered below `|a| + |b|`, and no key repeats |
| Php.MergeInto | src/Api/UploadLinks.php:108 | The `array_merge` loop never drops a key already collected and adds at most one entry per element it reads |
| Php.MergeIntoKeys | src/Api/PublicLinks.php:351 | The `array_merge` loop keeps keys distinct; a string key is in its result exactly when it was collected already or is in the input; every integer key was collected already or is numbered from `next` on, one number per input element |
| Php.MergeIntoLookup | src/Api/PublicLinks.php:351 | After `array_merge`, a string key holds its value from the later array when that array has it, and its earlier value otherwise |
| Php.MergeIntoPrefix | src/Api/PublicLinks.php:351 | `array_merge` never reorders the keys already collected: they stay a prefix of the result |
| Php.MergeAfterHead | src/Api/PublicLinks.php:351 | `array_merge([k => v], $options)`: `k` comes first, carries the options' value for `k` when they have one and `v` otherwise, every other string key carries the options' value, and no key repeats |
| Php.EmptyStr | src/Api/Auth.php:32 | `empty()` on a string: only `""` and `"0"` are empty, so an empty string has at most one character and that character is '0' |
| Php.EmptyInt | src/Api/PublicLinks.php:345 | `empty()` on an int holds exactly when the int's decimal text is an empty string (that is, for 0 only) |
| Php.DecimalEmpty | src/Api/PublicLinks.php:345 | The decimal text of an int is `""` or `"0"` exactly when the int is 0 |
| Http.Opt | src/Api/PublicLinks.php:41-43 | `if ($x !== null) $query[key] = $x;` as a segment: the key is present exactly when `x` is given, holds `x`, and occurs once |
| Http.Otherwise | src/Api/PublicLinks.php:36-37 | The value an `elseif` branch sends: the second value, and only when the first is null |
| Http.Bit | src/Api/PublicLinks.php:50-52 | `if ($b) $query[key] = 1;`: a value is sent exactly when `b` holds, and it is 1 |
| Http.QueryContents | src/Api/PublicLinks.php:33-55 | The query built by an endpoint's assignments holds no key twice, holds each key under the value its assignment gives (absent when that value is null or the flag is false), and holds no key the endpoint does not list |
| Http.QueryOrder | src/Api/PublicLinks.php:33-55 | Keys that are both sent appear in the order the code assigns them |
| Http.ComposeDistinct | src/Api/PublicLinks.php:33-55 | Each assignment adds a key not yet present, so the keys of the query stay distinct |
| Http.ComposeLookup | src/Api/PublicLinks.php:33-55 | Every key in the first `n` assignments carries exactly the value its own assignment gives it |
| Http.ComposePrefix | src/Api/PublicLinks.php:33-55 | Assignments only append: the query after fewer assignments is a prefix of the query after more |
| Http.SeededCompose | src/Api/UploadLinks.php:170 | A literal seed `$query = ['k0' => v0, ...]` is the query of the endpoint's first assignments |
| Http.Assign | src/Api/PublicLinks.php:41-43 | One `if ($x !== null) $query[key] = $x;` step (a flag or `elseif` branch through its Bit or Otherwise value), applied with `$query[key] =` to the query of the endpoint's first `n` assignments, yields the query of its first `n + 1` |
| Multipart.Rejects | src/Api/File.php:40-51 | Only an array entry can be rejected and an array without 'path' always is; for uploadfile that is the whole condition, and for the link uploads an array with 'path' is rejected exactly when it lacks 'name' |
| Http.FieldName | src/Api/File.php:43-49 | The multipart field name of a `$files` key: a string key names its part, an integer key gives 'file' |
| Multipart.PartOf | src/Api/File.php:40-53 | One `$files` entry: the part is refused with the `fopen` TypeError exactly when the entry is an array `fopen` would receive; uploadfile names it after a string key (else 'file') with the explicit filename or the basename of the path; the link uploads use the entry's `name` when it has `name` and `path`, and set no filename |
| Multipart.Parts | src/Api/File.php:38-54 | The multipart list: on success one part per entry; a failure is always the `fopen` TypeError |
| Multipart.PartsFailure | src/Api/File.php:39-54 | The upload fails exactly when some entry is one `fopen` rejects |
| Multipart.PartsElements | src/Api/File.php:39-54 | On success part `i` is the part of entry `i`, so parts keep the order of `$files` |
| Multipart.CollectParts | src/Api/File.php:38-54 | The `foreach` loop that appends one part per entry computes exactly Parts |
| Json.Field | src/Api/General.php:43 | `$data[name] ?? ...` finds a field only in a decoded object that has it |
| Json.Isset | src/Api/General.php:21 | `isset($data[name])` holds exactly when the data is an object whose field `name` is present and not null |
| Json.Rejected | src/Api/General.php:21 | The rejection test holds exactly when `result` is present and is neither null nor the integer 0 |
| Json.ErrorText | src/Api/General.php:22 | `$data['error'] ?? 'Unknown error'`: the reported error when it is a string, 'Unknown error' when it is missing or null |
| Json.ReturnArray | src/Api/General.php:16 | The `: array` return type: a decoded array passes unchanged, anything else is a TypeError |
| Json.CheckedData | src/Api/General.php:21-25 | A present, non-null `result` other than the integer 0 raises a RuntimeError with the method's prefix and the error text; otherwise the data is returned |
| Json.CheckedField | src/Api/General.php:38-43 | The same check, then `return $data[name] ?? []`: the field when present, an empty array when absent |
| Json.CheckedRuntimeError | src/Api/General.php:21-23 | A RuntimeError comes out exactly when the server rejected the call, and its message starts with the method's prefix |
| Json.CheckedPassesData | src/Api/General.php:21-25 | With `result` absent, null or 0, an array response is returned unchanged |
| Json.CheckedFieldOfScalar | src/Api/General.php:38-43 | A response that is not an array (an undecodable body gives null) makes the projection return an empty array |
| Json.StrictResultCode | src/Api/General.php:21 | `!== 0` is strict: a `result` of false or "0" is still an error |
| Json.RejectionMessage | src/Api/General.php:21-23 | For every rejected reply: a string `error` gives the RuntimeError whose message is the prefix followed by that string, and a missing or null `error` gives the prefix followed by 'Unknown error' |
| General.UserInfo | src/Api/General.php:16-26 | GET `/userinfo` with no query; fails exactly when the result check rejects or the reply is not an array, and otherwise returns the decoded data |
| General.SupportedLanguages | src/Api/General.php:34-44 | GET `/supportedlanguages`; fails exactly when rejected or `languages` is present but not an array; otherwise returns `languages`, or an empty array without it |
| General.SetLanguage | src/Api/General.php:53-65 | GET `/setlanguage` with exactly the key `language`, unchecked; the result check as in userinfo |
| General.CurrentServer | src/Api/General.php:73-83 | GET `/currentserver` with no query; the result check as in userinfo |
| General.Diff | src/Api/General.php:92-104 | GET `/diff` with the caller's parameters as the query, unchanged; the result check as in userinfo |
| General.GetFileHistory | src/Api/General.php:113-125 | GET `/getfilehistory` with exactly the key `fileid`, unchecked; the result check as in userinfo |
| General.GetIp | src/Api/General.php:133-143 | GET `/getip` with no query; the result check as in userinfo |
| General.GetApiServer | src/Api/General.php:151-161 | GET `/getapiserver` with no query; the result check as in userinfo |
| Auth.ListTokens | src/Api/Auth.php:187-197 | GET `/listtokens`; fails exactly when rejected or `tokens` is present but not an array; otherwise returns `tokens`, or an empty array without it |
| Sharing.ListShares | src/Api/Sharing.php:62-68 | Never fails; a JSON GET of `listshares` whose query is the caller's parameters, unchanged |
| Sharing.AcceptShareTargets | src/Api/Sharing.php:129-148 | acceptshare sends `sharerequestid` and no `code` when the id is given, else `code`; `folderid` and `path` are each sent exactly when given, both together if both are |
| PublicLinks.ChangePubLink | src/Api/PublicLinks.php:343-357 | Raises InvalidArgument exactly when `linkid` is 0 (LinkidRequired, checked first) or the options are empty (OptionMissing); otherwise a JSON GET of `changepublink` whose query is `array_merge(['linkid' => linkid], options)` |
| PublicLinks.ChangePubLinkMerge | src/Api/PublicLinks.php:345-351 | With both checks passed, the changepublink query has `linkid` first, under the options' own `linkid` when they carry one, every other string key of the options with its value, and no key twice |
| PublicLinks.GetFilePubLinkLocator | src/Api/PublicLinks.php:34-52 | getfilepublink sends `fileid` and no `path` when `fileid` is given, even with `path`; otherwise `path` and no `fileid`; and `shortlink=1` only when set |
| UploadLinks.ChangeUploadLink | src/Api/UploadLinks.php:100-114 | Raises InvalidArgument exactly when `uploadlinkid` is 0 (checked first) or the options are empty; otherwise a JSON GET of `changeuploadlink` whose query is `array_merge(['uploadlinkid' => uploadlinkid], options)` |
| UploadLinks.ChangeUploadLinkMerge | src/Api/UploadLinks.php:102-108 | With both checks passed, `uploadlinkid` comes first, under the options' own value when they carry one, every other string key of the options with its value, and no key twice |
| Folder.AssignFolder | src/Api/Folder.php:29-35 | The `if ($path !== null) ... else ...` assignments build exactly Query(CreateFolderKeys, CreateFolderValues(..)) |
| Folder.CreateFolderAddress | src/Api/Folder.php:26-35 | The path wins: with `path` given the query holds `path` only; otherwise it holds `folderid` and `name` and no `path`; no key repeats |
| Folder.CreateFolder | src/Api/Folder.php:21-40 | Raises InvalidArgument (PathFolderidNameRequired) exactly when `path` is null and `folderid` or `name` is null; otherwise a JSON GET of `createfolder` with the query Query(CreateFolderKeys, CreateFolderValues(..)): `path` if given, else `folderid` and `name` |
| Folder.CreateFolderIfNotExists | src/Api/Folder.php:52-71 | As createfolder, for the endpoint `createfolderifnotexists` |
| Collection.UnlinkFiles | src/Api/Collection.php:189-213 | Raises InvalidArgument exactly when `collectionid` is 0 (CollectionidRequired, checked first) or `positions` is null, `all` is false and `fileids` is null (PositionsAllFileidsMissing); otherwise a JSON GET of `collection_unlinkfiles` with the query Query(UnlinkFilesKeys, UnlinkFilesValues(..)) |
| Collection.UnlinkFilesOneSelector | src/Api/Collection.php:198-208 | When a selector is given, the query is `collectionid` and exactly one selector: `positions` if given, else `all=1` if set, else `fileids` |
| Streaming.GetHlsLinkKeysOnly | src/Api/Streaming.php:234-253 | The gethlslink query holds no key but `fileid`, `path`, `abitrate`, `vbitrate`, `resolution` and `skipfilename` |
| Archiving.ExtractArchiveOptions | src/Api/Archiving.php:166-183 | extractarchive sends `tofolderid` and `topath` each exactly when given, `overwrite` exactly when it is not "rename", and `nooutput=1` only when set |
| PublicLinks.GetFilePubLink | src/Api/PublicLinks.php:24-61 | Raises InvalidArgument (FileidPathMissing) exactly when `fileid` is null and `path` is null; otherwise a GET of `getfilepublink` whose reply is JSON-decoded, with the query Query(GetFilePubLinkKeys, GetFilePubLinkValues(..)): `fileid` if given, else `path`, `expire` if given, `maxdownloads` if given, `maxtraffic` if given, `shortlink`=1 if set, `linkpassword` if given, in that order, so by Http.QueryContents no key repeats and no other key is sent |
| PublicLinks.GetFolderPubLink | src/Api/PublicLinks.php:77-114 | Raises InvalidArgument (FolderidPathMissing) exactly when `folderid` is null and `path` is null; otherwise a GET of `getfolderpublink` whose reply is JSON-decoded, with the query Query(GetFolderPubLinkKeys, GetFolderPubLinkValues(..)): `folderid` if given, else `path`, `expire` if given, `maxdownloads` if given, `maxtraffic` if given, `shortlink`=1 if set, `linkpassword` if given, in that order, so by Http.QueryContents no key repeats and no other key is sent |
| PublicLinks.GetTreePubLink | src/Api/PublicLinks.php:132-176 | Raises InvalidArgument (NameRequired) exactly when `name` is empty; otherwise a GET of `gettreepublink` whose reply is JSON-decoded, with the query Query(GetTreePubLinkKeys, GetTreePubLinkValues(..)): `name`, `fileids` if given, `folderids` if given, `folderid` if given, `expire` if given, `maxdownloads` if given, `maxtraffic` if given, `shortlink`=1 if set, `linkpassword` if given, in that order, so by Http.QueryContents no key repeats and no other key is sent |
| PublicLinks.ShowPubLink | src/Api/PublicLinks.php:186-195 | Raises InvalidArgument (CodeRequired) exactly when `code` is empty; otherwise a GET of `showpublink` whose reply is JSON-decoded, whose query is `code`, in that order |
| PublicLinks.GetPubLinkDownload | src/Api/PublicLinks.php:210-242 | Raises InvalidArgument (CodeRequired) exactly when `code` is empty; otherwise a GET of `getpublinkdownload` whose reply is JSON-decoded, with the query Query(GetPubLinkDownloadKeys, GetPubLinkDownloadValues(..)): `code`, `fileid` if given, `forcedownload`=1 if set, `contenttype` if given, `maxspeed` if given, `skipfilename`=1 if set, in that order, so by Http.QueryContents no key repeats and no other key is sent |
| PublicLinks.CopyPubFile | src/Api/PublicLinks.php:257-289 | Raises InvalidArgument (CodeRequired) exactly when `code` is empty; otherwise a GET of `copypubfile` whose reply is JSON-decoded, with the query Query(CopyPubFileKeys, CopyPubFileValues(..)): `code`, `fileid` if given, `topath` if given, `tofolderid` if given, `toname` if given, `noover`=1 if set, in that order, so by Http.QueryContents no key repeats and no other key is sent |
| PublicLinks.ListPubLinks | src/Api/PublicLinks.php:297-301 | Always succeeds; otherwise a GET of `listpublinks` whose reply is JSON-decoded, whose query is nothing, in that order |
| PublicLinks.ListPlShort | src/Api/PublicLinks.php:309-313 | Always succeeds; otherwise a GET of `listplshort` whose reply is JSON-decoded, whose query is nothing, in that order |
| PublicLinks.DeletePubLink | src/Api/PublicLinks.php:323-332 | Raises InvalidArgument (LinkidRequired) exactly when `linkid` is 0; otherwise a GET of `deletepublink` whose reply is JSON-decoded, whose query is `linkid`, in that order |
| PublicLinks.GetPubThumb | src/Api/PublicLinks.php:371-397 | Raises InvalidArgument (CodeFileidSizeRequired) exactly when `code` is empty or `fileid` is 0 or `size` is empty; otherwise a GET of `getpubthumb` returning the raw body, with the query Query(GetPubThumbKeys, GetPubThumbValues(..)): `code`, `fileid`, `size`, `crop`=1 if set, `type` if given, in that order, so by Http.QueryContents no key repeats and no other key is sent |
| PublicLinks.GetPubThumbLink | src/Api/PublicLinks.php:411-437 | Raises InvalidArgument (CodeFileidSizeRequired) exactly when `code` is empty or `fileid` is 0 or `size` is empty; otherwise a GET of `getpubthumblink` whose reply is JSON-decoded, with the query Query(GetPubThumbLinkKeys, GetPubThumbLinkValues(..)): `code`, `fileid`, `size`, `crop`=1 if set, `type` if given, in that order, so by Http.QueryContents no key repeats and no other key is sent |
| PublicLinks.GetPubThumbsLinks | src/Api/PublicLinks.php:451-477 | Raises InvalidArgument (CodeFileidSizeRequired) exactly when `code` is empty or `fileid` is 0 or `size` is empty; otherwise a GET of `getpubthumbslinks` whose reply is JSON-decoded, with the query Query(GetPubThumbsLinksKeys, GetPubThumbsLinksValues(..)): `code`, `fileid`, `size`, `crop`=1 if set, `type` if given, in that order, so by Http.QueryContents no key repeats and no other key is sent |
| PublicLinks.SavePubThumb | src/Api/PublicLinks.php:495-540 | Raises InvalidArgument exactly when (`code` is empty or `fileid` is 0 or `size` is empty) or (`topath` is null and (`tofolderid` is null or `toname` is null)), with the message (CodeFileidSizeRequired, TopathTofolderidTonameMissing) of the first check that fails; otherwise a GET of `savepubthumb` whose reply is JSON-decoded, with the query Query(SavePubThumbKeys, SavePubThumbValues(..)): `code`, `fileid`, `size`, `topath` if given, `tofolderid` if given, `toname` if given, `crop`=1 if set, `type` if given, `noover`=1 if set, in that order, so by Http.QueryContents no key repeats and no other key is sent |
| PublicLinks.GetPubZip | src/Api/PublicLinks.php:553-577 | Raises InvalidArgument (CodeRequired) exactly when `code` is empty; otherwise a GET of `getpubzip` returning the raw body, with the query Query(GetPubZipKeys, GetPubZipValues(..)): `code`, `forcedownload`=1 if set, `filename` if given, `timeoffset` if given, in that order, so by Http.QueryContents no key repeats and no other key is sent |
| PublicLinks.GetPubZipLink | src/Api/PublicLinks.php:590-614 | Raises InvalidArgument (CodeRequired) exactly when `code` is empty; otherwise a GET of `getpubziplink` whose reply is JSON-decoded, with the query Query(GetPubZipLinkKeys, GetPubZipLinkValues(..)): `code`, `forcedownload`=1 if set, `filename` if given, `timeoffset` if given, in that order, so by Http.QueryContents no key repeats and no other key is sent |
| PublicLinks.SavePubZip | src/Api/PublicLinks.php:628-659 | Raises InvalidArgument exactly when (`code` is empty) or (`topath` is null and (`tofolderid` is null or `toname` is null)), with the message (CodeRequired, TopathTofolderidTonameMissing) of the first check that fails; otherwise a GET of `savepubzip` whose reply is JSON-decoded, with the query Query(SavePubZipKeys, SavePubZipValues(..)): `code`, `timeoffset` if given, `topath` if given, `tofolderid` if given, `toname` if given, in that order, so by Http.QueryContents no key repeats and no other key is sent |
| PublicLinks.GetPubVideoLinks | src/Api/PublicLinks.php:674-706 | Raises InvalidArgument (CodeRequired) exactly when `code` is empty; otherwise a GET of `getpubvideolinks` whose reply is JSON-decoded, with the query Query(GetPubVideoLinksKeys, GetPubVideoLinksValues(..)): `code`, `fileid` if given, `forcedownload`=1 if set, `contenttype` if given, `maxspeed` if given, `skipfilename`=1 if set, in that order, so by Http.QueryContents no key repeats and no other key is sent |
| PublicLinks.GetPubAudioLink | src/Api/PublicLinks.php:720-748 | Raises InvalidArgument (CodeRequired) exactly when `code` is empty; otherwise a GET of `getpubaudiolink` whose reply is JSON-decoded, with the query Query(GetPubAudioLinkKeys, GetPubAudioLinkValues(..)): `code`, `fileid` if given, `forcedownload`=1 if set, `contenttype` if given, `abitrate` if given, in that order, so by Http.QueryContents no key repeats and no other key is sent |
| PublicLinks.GetPubTextFile | src/Api/PublicLinks.php:763-795 | Raises InvalidArgument (CodeRequired) exactly when `code` is empty; otherwise a GET of `getpubtextfile` returning the raw body, with the query Query(GetPubTextFileKeys, GetPubTextFileValues(..)): `code`, `fileid` if given, `fromencoding` if given, `toencoding` if given, `forcedownload`=1 if set, `contenttype` if given, in that order, so by Http.QueryContents no key repeats and no other key is sent |
| PublicLinks.GetCollectionPubLink | src/Api/PublicLinks.php:809-837 | Raises InvalidArgument (CollectionidRequired) exactly when `collectionid` is 0; otherwise a GET of `getcollectionpublink` whose reply is JSON-decoded, with the query Query(GetCollectionPubLinkKeys, GetCollectionPubLinkValues(..)): `collectionid`, `expire` if given, `maxdownloads` if given, `maxtraffic` if given, `shortlink`=1 if set, in that order, so by Http.QueryContents no key repeats and no other key is sent |
| Streaming.GetFileLink | src/Api/Streaming.php:24-57 | Raises InvalidArgument (FileidPathMissing) exactly when `fileid` is null and `path` is null; otherwise a GET of `getfilelink` whose reply is JSON-decoded, with the query Query(GetFileLinkKeys, GetFileLinkValues(..)): `fileid` if given, else `path`, `forcedownload`=1 if set, `contenttype` if given, `maxspeed` if given, `skipfilename`=1 if set, in that order, so by Http.QueryContents no key repeats and no other key is sent |
| Streaming.GetVideoLink | src/Api/Streaming.php:75-120 | Raises InvalidArgument (FileidPathMissing) exactly when `fileid` is null and `path` is null; otherwise a GET of `getvideolink` whose reply is JSON-decoded, with the query Query(GetVideoLinkKeys, GetVideoLinkValues(..)): `fileid` if given, else `path`, `forcedownload`=1 if set, `contenttype` if given, `skipfilename`=1 if set, `abitrate` if given, `vbitrate` if given, `resolution` if given, `fixedbitrate`=1 if set, in that order, so by Http.QueryContents no key repeats and no other key is sent |
| Streaming.GetVideoLinks | src/Api/Streaming.php:135-168 | Raises InvalidArgument (FileidPathMissing) exactly when `fileid` is null and `path` is null; otherwise a GET of `getvideolinks` whose reply is JSON-decoded, with the query Query(GetVideoLinksKeys, GetVideoLinksValues(..)): `fileid` if given, else `path`, `forcedownload`=1 if set, `contenttype` if given, `maxspeed` if given, `skipfilename`=1 if set, in that order, so by Http.QueryContents no key repeats and no other key is sent |
| Streaming.GetAudioLink | src/Api/Streaming.php:182-211 | Raises InvalidArgument (FileidPathMissing) exactly when `fileid` is null and `path` is null; otherwise a GET of `getaudiolink` whose reply is JSON-decoded, with the query Query(GetAudioLinkKeys, GetAudioLinkValues(..)): `fileid` if given, else `path`, `forcedownload`=1 if set, `contenttype` if given, `abitrate` if given, in that order, so by Http.QueryContents no key repeats and no other key is sent |
| Streaming.GetHlsLink | src/Api/Streaming.php:226-259 | Raises InvalidArgument (FileidPathMissing) exactly when `fileid` is null and `path` is null; otherwise a GET of `gethlslink` whose reply is JSON-decoded, with the query Query(GetHlsLinkKeys, GetHlsLinkValues(..)): `fileid` if given, else `path`, `abitrate` if given, `vbitrate` if given, `resolution` if given, `skipfilename`=1 if set, in that order, so by Http.QueryContents no key repeats and no other key is sent |
| Streaming.GetTextFile | src/Api/Streaming.php:274-307 | Raises InvalidArgument (FileidPathMissing) exactly when `fileid` is null and `path` is null; otherwise a GET of `gettextfile` returning the raw body, with the query Query(GetTextFileKeys, GetTextFileValues(..)): `fileid` if given, else `path`, `fromencoding` if given, `toencoding` if given, `forcedownload`=1 if set, `contenttype` if given, in that order, so by Http.QueryContents no key repeats and no other key is sent |
| File.UploadFile | src/Api/File.php:25-82 | Raises InvalidArgument (FilesRequired) exactly when `files` is an empty array; also fails with the `fopen` TypeError exactly when some entry of `files` is one `fopen` would be handed an array for (Rejects); otherwise a multipart POST to `uploadfile`, with the query Query(UploadFileKeys, UploadFileValues(..)) and the parts Parts(files), one per entry in order: `folderid` if given, else `path` if given, `nopartial`=1 if set, `progresshash` if given, `renameifexists`=1 if set, `mtime` if given, `ctime` if given, in that order, so by Http.QueryContents no key repeats and no other key is sent |
| File.UploadProgress | src/Api/File.php:92-101 | Raises InvalidArgument (ProgresshashRequired) exactly when `progresshash` is empty; otherwise a GET of `uploadprogress` whose reply is JSON-decoded, whose query is `progresshash`, in that order |
| File.DownloadFile | src/Api/File.php:115-141 | Raises InvalidArgument (UrlRequired) exactly when `url` is empty; otherwise a GET of `downloadfile` whose reply is JSON-decoded, with the query Query(DownloadFileKeys, DownloadFileValues(..)): `url`, `folderid` if given, else `path` if given, `target` if given, `progresshash` if given, in that order, so by Http.QueryContents no key repeats and no other key is sent |
| File.DownloadFileAsync | src/Api/File.php:155-181 | Raises InvalidArgument (UrlRequired) exactly when `url` is empty; otherwise a GET of `downloadfileasync` whose reply is JSON-decoded, with the query Query(DownloadFileAsyncKeys, DownloadFileAsyncValues(..)): `url`, `folderid` if given, else `path` if given, `target` if given, `progresshash` if given, in that order, so by Http.QueryContents no key repeats and no other key is sent |
| File.CopyFile | src/Api/File.php:198-242 | Raises InvalidArgument exactly when (`fileid` is null and `path` is null) or (`tofolderid` is null and `topath` is null), with the message (FileidPathRequired, TofolderidTopathMissing) of the first check that fails; otherwise a GET of `copyfile` whose reply is JSON-decoded, with the query Query(CopyFileKeys, CopyFileValues(..)): `fileid` if given, else `path` if given, `tofolderid` if given, `topath` if given, `toname` if given, `noover`=1 if set, `mtime` if given, `ctime` if given, in that order, so by Http.QueryContents no key repeats and no other key is sent |
| File.ChecksumFile | src/Api/File.php:253-270 | Raises InvalidArgument (FileidPathRequired) exactly when `fileid` is null and `path` is null; otherwise a GET of `checksumfile` whose reply is JSON-decoded, with the query Query(ChecksumFileKeys, ChecksumFileValues(..)): `fileid` if given, else `path` if given, in that order, so by Http.QueryContents no key repeats and no other key is sent |
| File.DeleteFile | src/Api/File.php:281-298 | Raises InvalidArgument (FileidPathRequired) exactly when `fileid` is null and `path` is null; otherwise a GET of `deletefile` whose reply is JSON-decoded, with the query Query(DeleteFileKeys, DeleteFileValues(..)): `fileid` if given, else `path` if given, in that order, so by Http.QueryContents no key repeats and no other key is sent |
| File.RenameFile | src/Api/File.php:312-344 | Raises InvalidArgument exactly when (`fileid` is null and `path` is null) or (`topath` is null and `tofolderid` is null and `toname` is null), with the message (FileidPathRequired, TopathTofolderidTonameMissing) of the first check that fails; otherwise a GET of `renamefile` whose reply is JSON-decoded, with the query Query(RenameFileKeys, RenameFileValues(..)): `fileid` if given, else `path` if given, `topath` if given, `tofolderid` if given, `toname` if given, in that order, so by Http.QueryContents no key repeats and no other key is sent |
| File.Stat | src/Api/File.php:355-372 | Raises InvalidArgument (FileidPathRequired) exactly when `fileid` is null and `path` is null; otherwise a GET of `stat` whose reply is JSON-decoded, with the query Query(StatKeys, StatValues(..)): `fileid` if given, else `path` if given, in that order, so by Http.QueryContents no key repeats and no other key is sent |
| Auth.SendVerificationEmail | src/Api/Auth.php:16-20 | Always succeeds; otherwise a GET of `sendverificationemail` whose reply is JSON-decoded, whose query is nothing, in that order |
| Auth.VerifyEmail | src/Api/Auth.php:30-39 | Raises InvalidArgument (CodeRequired) exactly when `code` is empty; otherwise a GET of `verifyemail` whose reply is JSON-decoded, whose query is `code`, in that order |
| Auth.ChangePassword | src/Api/Auth.php:50-62 | Raises InvalidArgument (OldpasswordNewpasswordRequired) exactly when `oldpassword` is empty or `newpassword` is empty; otherwise a GET of `changepassword` whose reply is JSON-decoded, whose query is `oldpassword`, `newpassword`, in that order |
| Auth.LostPassword | src/Api/Auth.php:72-81 | Raises InvalidArgument (MailRequired) exactly when `mail` is empty; otherwise a GET of `lostpassword` whose reply is JSON-decoded, whose query is `mail`, in that order |
| Auth.ResetPassword | src/Api/Auth.php:92-104 | Raises InvalidArgument (CodeNewpasswordRequired) exactly when `code` is empty or `newpassword` is empty; otherwise a GET of `resetpassword` whose reply is JSON-decoded, whose query is `code`, `newpassword`, in that order |
| Auth.Register | src/Api/Auth.php:118-143 | Raises InvalidArgument (MailPasswordTermsacceptedYesRequired) exactly when `mail` is empty or `password` is empty or `termsaccepted` is not "yes"; otherwise a GET of `register` whose reply is JSON-decoded, with the query Query(RegisterKeys, RegisterValues(..)): `mail`, `password`, `termsaccepted`, `language` if given, `referer` if given, in that order, so by Http.QueryContents no key repeats and no other key is sent |
| Auth.Invite | src/Api/Auth.php:151-155 | Always succeeds; otherwise a GET of `invite` whose reply is JSON-decoded, whose query is nothing, in that order |
| Auth.UserInvites | src/Api/Auth.php:163-167 | Always succeeds; otherwise a GET of `userinvites` whose reply is JSON-decoded, whose query is nothing, in that order |
| Auth.Logout | src/Api/Auth.php:175-179 | Always succeeds; otherwise a GET of `logout` whose reply is JSON-decoded, whose query is nothing, in that order |
| Auth.DeleteToken | src/Api/Auth.php:207-216 | Raises InvalidArgument (TokenidRequired) exactly when `tokenid` is 0; otherwise a GET of `deletetoken` whose reply is JSON-decoded, whose query is `tokenid`, in that order |
| Auth.SendChangeMail | src/Api/Auth.php:227-240 | Always succeeds; otherwise a GET of `sendchangemail` whose reply is JSON-decoded, with the query Query(SendChangeMailKeys, SendChangeMailValues(..)): `newmail` if given, `code` if given, in that order, so by Http.QueryContents no key repeats and no other key is sent |
| Auth.ChangeMail | src/Api/Auth.php:251-263 | Raises InvalidArgument (PasswordCodeRequired) exactly when `password` is empty or `code` is empty; otherwise a GET of `changemail` whose reply is JSON-decoded, whose query is `password`, `code`, in that order |
| Auth.SendDeactivateMail | src/Api/Auth.php:271-275 | Always succeeds; otherwise a GET of `senddeactivatemail` whose reply is JSON-decoded, whose query is nothing, in that order |
| Auth.DeactivateUser | src/Api/Auth.php:286-298 | Raises InvalidArgument (PasswordCodeRequired) exactly when `password` is empty or `code` is empty; otherwise a GET of `deactivateuser` whose reply is JSON-decoded, whose query is `password`, `code`, in that order |
| Folder.ListFolder | src/Api/Folder.php:86-119 | Raises InvalidArgument (PathFolderidRequired) exactly when `path` is null and `folderid` is null; otherwise a GET of `listfolder` whose reply is JSON-decoded, with the query Query(ListFolderKeys, ListFolderValues(..)): `folderid` if given, else `path` if given, `recursive`=1 if set, `showdeleted`=1 if set, `nofiles`=1 if set, `noshares`=1 if set, in that order, so by Http.QueryContents no key repeats and no other key is sent |
| Folder.RenameFolder | src/Api/Folder.php:133-165 | Raises InvalidArgument exactly when (`folderid` is null and `path` is null) or (`topath` is null and `tofolderid` is null and `toname` is null), with the message (FolderidPathRequired, TopathTofolderidTonameMissing) of the first check that fails; otherwise a GET of `renamefolder` whose reply is JSON-decoded, with the query Query(RenameFolderKeys, RenameFolderValues(..)): `folderid` if given, else `path` if given, `topath` if given, `tofolderid` if given, `toname` if given, in that order, so by Http.QueryContents no key repeats and no other key is sent |
| Folder.DeleteFolder | src/Api/Folder.php:176-193 | Raises InvalidArgument (FolderidPathRequired) exactly when `folderid` is null and `path` is null; otherwise a GET of `deletefolder` whose reply is JSON-decoded, with the query Query(DeleteFolderKeys, DeleteFolderValues(..)): `folderid` if given, else `path` if given, in that order, so by Http.QueryContents no key repeats and no other key is sent |
| Folder.DeleteFolderRecursive | src/Api/Folder.php:204-221 | Raises InvalidArgument (FolderidPathRequired) exactly when `folderid` is null and `path` is null; otherwise a GET of `deletefolderrecursive` whose reply is JSON-decoded, with the query Query(DeleteFolderRecursiveKeys, DeleteFolderRecursiveValues(..)): `folderid` if given, else `path` if given, in that order, so by Http.QueryContents no key repeats and no other key is sent |
| Folder.CopyFolder | src/Api/Folder.php:237-277 | Raises InvalidArgument exactly when (`folderid` is null and `path` is null) or (`tofolderid` is null and `topath` is null), with the message (FolderidPathRequired, TofolderidTopathMissing) of the first check that fails; otherwise a GET of `copyfolder` whose reply is JSON-decoded, with the query Query(CopyFolderKeys, CopyFolderValues(..)): `folderid` if given, else `path` if given, `tofolderid` if given, `topath` if given, `noover`=1 if set, `skipexisting`=1 if set, `copycontentonly`=1 if set, in that order, so by Http.QueryContents no key repeats and no other key is sent |
| UploadLinks.CreateUploadLink | src/Api/UploadLinks.php:24-58 | Raises InvalidArgument exactly when (`folderid` is null and `path` is null) or (`comment` is empty), with the message (FolderidPathRequired, CommentRequired) of the first check that fails; otherwise a GET of `createuploadlink` whose reply is JSON-decoded, with the query Query(CreateUploadLinkKeys, CreateUploadLinkValues(..)): `comment`, `folderid` if given, else `path` if given, `expire` if given, `maxspace` if given, `maxfiles` if given, in that order, so by Http.QueryContents no key repeats and no other key is sent |
| UploadLinks.ListUploadLinks | src/Api/UploadLinks.php:66-70 | Always succeeds; otherwise a GET of `listuploadlinks` whose reply is JSON-decoded, whose query is nothing, in that order |
| UploadLinks.DeleteUploadLink | src/Api/UploadLinks.php:80-89 | Raises InvalidArgument (UploadlinkidRequired) exactly when `uploadlinkid` is 0; otherwise a GET of `deleteuploadlink` whose reply is JSON-decoded, whose query is `uploadlinkid`, in that order |
| UploadLinks.ShowUploadLink | src/Api/UploadLinks.php:124-133 | Raises InvalidArgument (UploadlinkidRequired) exactly when `uploadlinkid` is 0; otherwise a GET of `showuploadlink` whose reply is JSON-decoded, whose query is `uploadlinkid`, in that order |
| UploadLinks.UploadToLink | src/Api/UploadLinks.php:146-183 | Raises InvalidArgument (CodeFilesRequired) exactly when `code` is empty or `files` is an empty array; also fails with the `fopen` TypeError exactly when some entry of `files` is one `fopen` would be handed an array for (Rejects); otherwise a multipart POST to `uploadtolink`, with the query Query(UploadToLinkKeys, UploadToLinkValues(..)) and the parts Parts(files), one per entry in order: `code`, `nopartial`=1 if set, `progresshash` if given, in that order, so by Http.QueryContents no key repeats and no other key is sent |
| UploadLinks.UploadLinkProgress | src/Api/UploadLinks.php:194-207 | Raises InvalidArgument (CodeProgresshashRequired) exactly when `code` is empty or `progresshash` is empty; otherwise a GET of `uploadlinkprogress` whose reply is JSON-decoded, whose query is `code`, `progresshash`, in that order |
| UploadLinks.CopyToLink | src/Api/UploadLinks.php:220-243 | Raises InvalidArgument (CodeFileidPathRequired) exactly when `code` is empty or (`fileid` is null and `path` is null); otherwise a GET of `copytolink` whose reply is JSON-decoded, with the query Query(CopyToLinkKeys, CopyToLinkValues(..)): `code`, `fileid` if given, else `path` if given, `toname` if given, in that order, so by Http.QueryContents no key repeats and no other key is sent |
| Collection.List | src/Api/Collection.php:20-39 | Always succeeds; otherwise a GET of `collection_list` whose reply is JSON-decoded, with the query Query(ListKeys, ListValues(..)): `type` if given, `showfiles`=1 if set, `pagesize` if given, in that order, so by Http.QueryContents no key repeats and no other key is sent |
| Collection.Details | src/Api/Collection.php:51-70 | Raises InvalidArgument (CollectionidRequired) exactly when `collectionid` is 0; otherwise a GET of `collection_details` whose reply is JSON-decoded, with the query Query(DetailsKeys, DetailsValues(..)): `collectionid`, `page` if given, `pagesize` if given, in that order, so by Http.QueryContents no key repeats and no other key is sent |
| Collection.Create | src/Api/Collection.php:82-101 | Raises InvalidArgument (NameRequired) exactly when `name` is empty; otherwise a GET of `collection_create` whose reply is JSON-decoded, with the query Query(CreateKeys, CreateValues(..)): `name`, `type` if given, `fileids` if given, in that order, so by Http.QueryContents no key repeats and no other key is sent |
| Collection.Rename | src/Api/Collection.php:112-125 | Raises InvalidArgument (CollectionidNameRequired) exactly when `collectionid` is 0 or `name` is empty; otherwise a GET of `collection_rename` whose reply is JSON-decoded, whose query is `collectionid`, `name`, in that order |
| Collection.Delete | src/Api/Collection.php:135-145 | Raises InvalidArgument (CollectionidRequired) exactly when `collectionid` is 0; otherwise a GET of `collection_delete` whose reply is JSON-decoded, whose query is `collectionid`, in that order |
| Collection.LinkFiles | src/Api/Collection.php:157-176 | Raises InvalidArgument (CollectionidFileidsRequired) exactly when `collectionid` is 0 or `fileids` is empty; otherwise a GET of `collection_linkfiles` whose reply is JSON-decoded, with the query Query(LinkFilesKeys, LinkFilesValues(..)): `collectionid`, `fileids`, `noitems`=1 if set, in that order, so by Http.QueryContents no key repeats and no other key is sent |
| Collection.Move | src/Api/Collection.php:226-245 | Raises InvalidArgument (CollectionidItemFileidPositionRequired) exactly when `collectionid` is 0 or `item` is 0 or `fileid` is 0 or `position` is 0; otherwise a GET of `collection_move` whose reply is JSON-decoded, whose query is `collectionid`, `item`, `fileid`, `position`, in that order |
| Archiving.GetZip | src/Api/Archiving.php:20-43 | Always succeeds; otherwise a GET of `getzip` returning the raw body, with the query Query(GetZipKeys, GetZipValues(..)): `tree`, `forcedownload`=1 if set, `filename` if given, `timeoffset` if given, in that order, so by Http.QueryContents no key repeats and no other key is sent |
| Archiving.GetZipLink | src/Api/Archiving.php:56-83 | Always succeeds; otherwise a GET of `getziplink` whose reply is JSON-decoded, with the query Query(GetZipLinkKeys, GetZipLinkValues(..)): `tree`, `maxspeed` if given, `forcedownload`=1 if set, `filename` if given, `timeoffset` if given, in that order, so by Http.QueryContents no key repeats and no other key is sent |
| Archiving.SaveZip | src/Api/Archiving.php:98-133 | Raises InvalidArgument (TopathTofolderidTonameMissing) exactly when `topath` is null and (`tofolderid` is null or `toname` is null); otherwise a GET of `savezip` whose reply is JSON-decoded, with the query Query(SaveZipKeys, SaveZipValues(..)): `tree`, `timeoffset` if given, `topath` if given, `tofolderid` if given, `toname` if given, `progresshash` if given, in that order, so by Http.QueryContents no key repeats and no other key is sent |
| Archiving.ExtractArchive | src/Api/Archiving.php:149-189 | Raises InvalidArgument exactly when (`fileid` is null and `path` is null) or (`tofolderid` is null and `topath` is null), with the message (FileidPathMissing, TofolderidTopathMissing) of the first check that fails; otherwise a GET of `extractarchive` whose reply is JSON-decoded, with the query Query(ExtractArchiveKeys, ExtractArchiveValues(..)): `fileid` if given, else `path`, `tofolderid` if given, `topath` if given, `password` if given, `overwrite` unless it is "rename", `nooutput`=1 if set, in that order, so by Http.QueryContents no key repeats and no other key is sent |
| Archiving.ExtractArchiveProgress | src/Api/Archiving.php:200-214 | Raises InvalidArgument (ProgresshashRequired) exactly when `progresshash` is empty; otherwise a GET of `extractarchiveprogress` whose reply is JSON-decoded, with the query Query(ExtractArchiveProgressKeys, ExtractArchiveProgressValues(..)): `progresshash`, `lines` if given, in that order, so by Http.QueryContents no key repeats and no other key is sent |
| Archiving.SaveZipProgress | src/Api/Archiving.php:224-235 | Raises InvalidArgument (ProgresshashRequired) exactly when `progresshash` is empty; otherwise a GET of `savezipprogress` whose reply is JSON-decoded, whose query is `progresshash`, in that order |
| Sharing.ShareFolder | src/Api/Sharing.php:23-53 | Raises InvalidArgument (FolderidPathMissing) exactly when `folderid` is null and `path` is null; otherwise a GET of `sharefolder` whose reply is JSON-decoded, with the query Query(ShareFolderKeys, ShareFolderValues(..)): `mail`, `permissions`, `folderid` if given, else `path`, `name` if given, `message` if given, in that order, so by Http.QueryContents no key repeats and no other key is sent |
| Sharing.ShareRequestInfo | src/Api/Sharing.php:78-87 | Raises InvalidArgument (CodeRequired) exactly when `code` is empty; otherwise a GET of `sharerequestinfo` whose reply is JSON-decoded, whose query is `code`, in that order |
| Sharing.CancelShareRequest | src/Api/Sharing.php:97-106 | Raises InvalidArgument (SharerequestidRequired) exactly when `sharerequestid` is 0; otherwise a GET of `cancelsharerequest` whose reply is JSON-decoded, whose query is `sharerequestid`, in that order |
| Sharing.AcceptShare | src/Api/Sharing.php:121-154 | Raises InvalidArgument (SharerequestidCodeMissing) exactly when `sharerequestid` is null and `code` is null; otherwise a GET of `acceptshare` whose reply is JSON-decoded, with the query Query(AcceptShareKeys, AcceptShareValues(..)): `sharerequestid` if given, else `code`, `name` if given, `folderid` if given, `path` if given, `always`=1 if set, in that order, so by Http.QueryContents no key repeats and no other key is sent |
| Sharing.DeclineShare | src/Api/Sharing.php:166-187 | Raises InvalidArgument (SharerequestidCodeMissing) exactly when `sharerequestid` is null and `code` is null; otherwise a GET of `declineshare` whose reply is JSON-decoded, with the query Query(DeclineShareKeys, DeclineShareValues(..)): `sharerequestid` if given, else `code`, `block`=1 if set, in that order, so by Http.QueryContents no key repeats and no other key is sent |
| Sharing.RemoveShare | src/Api/Sharing.php:197-206 | Raises InvalidArgument (ShareidRequired) exactly when `shareid` is 0; otherwise a GET of `removeshare` whose reply is JSON-decoded, whose query is `shareid`, in that order |
| Sharing.ChangeShare | src/Api/Sharing.php:217-232 | Raises InvalidArgument (ShareidRequired) exactly when `shareid` is 0; otherwise a GET of `changeshare` whose reply is JSON-decoded, whose query is `shareid`, `permissions`, in that order |
| Thumbnails.GetThumbLink | src/Api/Thumbnails.php:23-50 | Raises InvalidArgument (FileidPathSizeRequired) exactly when (`fileid` is null and `path` is null) or `size` is empty; otherwise a GET of `getthumblink` whose reply is JSON-decoded, with the query Query(GetThumbLinkKeys, GetThumbLinkValues(..)): `size`, `fileid` if given, else `path` if given, `crop`=1 if set, `type` if given, in that order, so by Http.QueryContents no key repeats and no other key is sent |
| Thumbnails.GetThumbsLinks | src/Api/Thumbnails.php:63-87 | Raises InvalidArgument (FileidsSizeRequired) exactly when `fileids` is empty or `size` is empty; otherwise a GET of `getthumbslinks` whose reply is JSON-decoded, with the query Query(GetThumbsLinksKeys, GetThumbsLinksValues(..)): `fileids`, `size`, `crop`=1 if set, `type` if given, in that order, so by Http.QueryContents no key repeats and no other key is sent |
| Thumbnails.GetThumb | src/Api/Thumbnails.php:101-128 | Raises InvalidArgument (FileidPathSizeRequired) exactly when (`fileid` is null and `path` is null) or `size` is empty; otherwise a GET of `getthumb` returning the raw body, with the query Query(GetThumbKeys, GetThumbValues(..)): `size`, `fileid` if given, else `path` if given, `crop`=1 if set, `type` if given, in that order, so by Http.QueryContents no key repeats and no other key is sent |
| Thumbnails.SaveThumb | src/Api/Thumbnails.php:146-192 | Raises InvalidArgument exactly when ((`fileid` is null and `path` is null) or `size` is empty) or (`topath` is null and (`tofolderid` is null or `toname` is null)), with the message (FileidPathSizeRequired, TopathTofolderidTonameMissing) of the first check that fails; otherwise a GET of `savethumb` whose reply is JSON-decoded, with the query Query(SaveThumbKeys, SaveThumbValues(..)): `size`, `fileid` if given, else `path` if given, `topath` if given, `tofolderid` if given, `toname` if given, `crop`=1 if set, `type` if given, `noover`=1 if set, in that order, so by Http.QueryContents no key repeats and no other key is sent |
| Trash.List | src/Api/Trash.php:20-36 | Always succeeds; otherwise a GET of `trash_list` whose reply is JSON-decoded, with the query Query(ListKeys, ListValues(..)): `folderid`, `nofiles`=1 if set, `recursive`=1 if set, in that order, so by Http.QueryContents no key repeats and no other key is sent |
| Trash.RestorePath | src/Api/Trash.php:47-62 | Raises InvalidArgument (FileidFolderidRequired) exactly when `fileid` is null and `folderid` is null; otherwise a GET of `trash_restorepath` whose reply is JSON-decoded, with the query Query(RestorePathKeys, RestorePathValues(..)): `fileid` if given, else `folderid` if given, in that order, so by Http.QueryContents no key repeats and no other key is sent |
| Trash.Restore | src/Api/Trash.php:75-100 | Raises InvalidArgument (FileidFolderidRequired) exactly when `fileid` is null and `folderid` is null; otherwise a GET of `trash_restore` whose reply is JSON-decoded, with the query Query(RestoreKeys, RestoreValues(..)): `fileid` if given, else `folderid` if given, `restoreto` if given, `metadata`=1 if set, in that order, so by Http.QueryContents no key repeats and no other key is sent |
| Trash.Clear | src/Api/Trash.php:111-126 | Raises InvalidArgument (FileidFolderidRequired) exactly when `fileid` is null and `folderid` is null; otherwise a GET of `trash_clear` whose reply is JSON-decoded, with the query Query(ClearKeys, ClearValues(..)): `fileid` if given, else `folderid` if given, in that order, so by Http.QueryContents no key repeats and no other key is sent |
| Transfer.UploadTransfer | src/Api/Transfer.php:23-63 | Raises InvalidArgument (SendermailReceivermailsFilesRequired) exactly when `sendermail` is empty or `receivermails` is empty or `files` is an empty array; also fails with the `fopen` TypeError exactly when some entry of `files` is one `fopen` would be handed an array for (Rejects); otherwise a multipart POST to `uploadtransfer`, with the query Query(UploadTransferKeys, UploadTransferValues(..)) and the parts Parts(files), one per entry in order: `sendermail`, `receivermails`, `message` if given, `progresshash` if given, in that order, so by Http.QueryContents no key repeats and no other key is sent |
| Transfer.UploadTransferProgress | src/Api/Transfer.php:73-82 | Raises InvalidArgument (ProgresshashRequired) exactly when `progresshash` is empty; otherwise a GET of `uploadtransferprogress` whose reply is JSON-decoded, whose query is `progresshash`, in that order |
| Revisions.ListRevisions | src/Api/Revisions.php:20-36 | Raises InvalidArgument (FileidPathRequired) exactly when `fileid` is null and `path` is null; otherwise a GET of `listrevisions` whose reply is JSON-decoded, with the query Query(ListRevisionsKeys, ListRevisionsValues(..)): `fileid` if given, else `path` if given, in that order, so by Http.QueryContents no key repeats and no other key is sent |
| Revisions.RevertRevision | src/Api/Revisions.php:48-67 | Raises InvalidArgument (FileidPathRevisionidRequired) exactly when (`fileid` is null and `path` is null) or `revisionid` is 0; otherwise a GET of `revertrevision` whose reply is JSON-decoded, with the query Query(RevertRevisionKeys, RevertRevisionValues(..)): `revisionid`, `fileid` if given, else `path` if given, in that order, so by Http.QueryContents no key repeats and no other key is sent |
| OAuth.Token | src/Api/OAuth.php:20-33 | Raises InvalidArgument (ClientIdClientSecretCodeRequired) exactly when `clientId` is empty or `clientSecret` is empty or `code` is empty; otherwise a GET of `oauth2_token` whose reply is JSON-decoded, whose query is `client_id`, `client_secret`, `code`, in that order |

## Left out

- Sending the request: Guzzle, its exceptions and the network are not modelled. Each endpoint returns the request it would send.
- `json_decode` of the reply is an input. Floats in a decoded reply are not represented. The endpoints other than those in `General.php` and `Auth::listtokens` return the decoded reply without a check, so only their decoding mode is modelled. Their `: array` TypeError for a reply that is not an array is left out.
- `json_encode($tree)` in `getzip`, `getziplink` and `savezip`: the encoded text is the `tree` parameter.
- `fopen` and file handles: a part's contents are the path given. Only the TypeError of handing `fopen` an array is modelled; a missing or unreadable file is not.
- `basename` is a parameter of `File.UploadFile` rather than PHP's own function.
- How Guzzle encodes a query into a URL: the query stays an ordered list of keys and values.
- `src/Api/Upload.php` is not part of this model: it passes three literal queries through and has no branch. `src/Api.php`, which only stores the client, is not part of this model either.
- Integer width: PHP's 64-bit ints are unbounded `int`s here. No endpoint does arithmetic, so only inputs beyond 64 bits differ.
- A decimal-number string used as an array key: PHP makes it an integer key. Here the caller writes such a key as `Index`.
- The TypeError messages are fixed constants. PHP's messages also name the method and the argument.
- `ChangePubLinkMerge`: states the string keys of the options only. The integer keys, which `array_merge` renumbers after `linkid`, are covered by `Php.Merge` but not by this lemma.
- `ChangeUploadLinkMerge`: likewise states only the string keys of the options.
- `Json.ErrorText`: its contract covers a string `error` and a missing one. An integer, boolean or array `error` is converted in the body as PHP's `.` does, but the contract does not restate those cases.
- Caller-given arrays: `General.Diff` (src/Api/General.php:92), `Sharing.ListShares` (src/Api/Sharing.php:62), `PublicLinks.ChangePubLink` (src/Api/PublicLinks.php:343) and `UploadLinks.ChangeUploadLink` (src/Api/UploadLinks.php:100) take an untyped PHP array. Here its values are ints, strings and booleans only; null, float and nested-array values are not modelled.
- `Php.Merge`: its contract states the keys of the result. The values are stated by `MergeIntoLookup` for an input without repeated keys and by `MergeAfterHead` for `array_merge([k => v], $options)`, the only form the endpoints use.
