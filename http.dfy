/** What an endpoint method hands to the HTTP client, and the building blocks
    every endpoint uses to fill its query. */
module Http {
  import opened Php

  /** The HTTP method of a request: `$client->get(...)` or `$client->request('POST', ...)`. */
  datatype Verb = GET | POST

  /** How the response body is returned: JSON-decoded into an array, or the raw bytes. */
  datatype Decoding = Json | Raw

  /** One entry of a multipart body: the form field name, the file streamed as its
      contents (given by the path that is opened), and the file name sent, if any. */
  datatype Part = Part(name: string, contents: string, filename: Option<string>)

  /** A request as the endpoint methods assemble it; the client adds base URL and authentication. */
  datatype Request = Request(
    verb: Verb,
    endpoint: string,
    query: PArray,
    multipart: Option<seq<Part>>,
    decoding: Decoding)

  /** The exceptions the endpoint methods raise themselves. */
  datatype Error =
    | InvalidArgument(message: string)   // \InvalidArgumentException, raised before any request
    | TypeError(message: string)         // PHP's \TypeError from a builtin or a declared return type
    | RuntimeError(message: string)      // \RuntimeException from a response check

  datatype Result<+T> = Success(value: T) | Failure(error: Error)

  /** A nullable int argument as a query value. */
  function Int(x: Option<int>): (v: Option<Value>)
    ensures v.Some? <==> x.Some?
    ensures x.Some? ==> v.value == I(x.value)
  {
    match x
    case Some(n) => Some(I(n))
    case None => None
  }

  /** A nullable string argument as a query value. */
  function Str(x: Option<string>): (v: Option<Value>)
    ensures v.Some? <==> x.Some?
    ensures x.Some? ==> v.value == S(x.value)
  {
    match x
    case Some(s) => Some(S(s))
    case None => None
  }

  /** `if ($x !== null) { $query[key] = $x; }`: the key is present exactly when the argument is not null. */
  function Opt(key: string, x: Option<Value>): (q: PArray)
    ensures Keys(q) == (if x.Some? then {Name(key)} else {})
    ensures Lookup(q, Name(key)) == x
    ensures Distinct(q)
  {
    match x
    case Some(v) => [(Name(key), v)]
    case None => []
  }

  /** The value `1` that `if ($b) { $query[key] = 1; }` sends, or none. */
  function Bit(b: bool): (v: Option<Value>)
    ensures v.Some? <==> b
    ensures b ==> v.value == I(1)
  {
    if b then Some(I(1)) else None
  }

  /** The value the second branch of `if ($x1 !== null) {...} elseif ($x2 !== null) {...}`
      sends: the second alternative, but only when the first one is null. */
  function Otherwise(x1: Option<Value>, x2: Option<Value>): (v: Option<Value>)
    ensures v.Some? <==> x1.None? && x2.Some?
    ensures v.Some? ==> v == x2
  {
    if x1.Some? then None else x2
  }

  /** A GET request whose response is JSON-decoded. */
  function JsonGet(endpoint: string, query: PArray): Request
  {
    Request(GET, endpoint, query, None, Json)
  }

  /** A GET request whose response body is returned as raw bytes. */
  function RawGet(endpoint: string, query: PArray): Request
  {
    Request(GET, endpoint, query, None, Raw)
  }

  /** A multipart POST request whose response is JSON-decoded. */
  function MultipartPost(endpoint: string, query: PArray, parts: seq<Part>): Request
  {
    Request(POST, endpoint, query, Some(parts), Json)
  }

  /** The multipart field name `is_string($key) ? $key : 'file'`: a string key of
      `$files` names its part, and every integer key, as in a plain list of paths,
      gives the name 'file'. */
  function FieldName(key: Key): (r: string)
    ensures key.Name? ==> r == key.name
    ensures key.Index? ==> r == "file"
  {
    match key
    case Name(s) => s
    case Index(_) => "file"
  }

  /** A file to upload as a caller lists it: a bare path, or an array whose
      'name', 'path' and 'filename' entries may each be missing or null. */
  datatype FileEntry =
    | PathOnly(file: string)
    | Fields(name: Option<string>, path: Option<string>, filename: Option<string>)

  /** The TypeError PHP 8 raises when `fopen` is handed an array instead of a path. */
  const FopenArray := TypeError("fopen(): Argument #1 ($filename) must be of type string, array given")

  /** A list of query parameter names in which no name occurs twice. */
  predicate NoDup(ks: seq<string>)
  {
    forall i, j :: 0 <= i < j < |ks| ==> ks[i] != ks[j]
  }

  /** The parameter names an endpoint may send, each listed once, in the order
      its code assigns them (alternatives such as `fileid` and `path` both appear). */
  type Names = ks: seq<string> | NoDup(ks) witness []

  /** The first `n` assignments of an endpoint whose code assigns, in order, the
      names `ks` the values `vs` (None: the assignment is skipped): each given
      value is appended under its name. */
  function Compose(ks: seq<string>, vs: seq<Option<Value>>, n: nat): PArray
    requires n <= |ks| && n <= |vs|
  {
    if n == 0 then [] else Compose(ks, vs, n - 1) + Opt(ks[n - 1], vs[n - 1])
  }

  /** The query an endpoint sends: all its assignments. */
  function Query(ks: Names, vs: seq<Option<Value>>): PArray
    requires |vs| == |ks|
  {
    Compose(ks, vs, |ks|)
  }

  /** The keys of the first `n` assignments are the names whose value is given. */
  lemma {:induction false} ComposeKeys(ks: seq<string>, vs: seq<Option<Value>>, n: nat)
    requires n <= |ks| && n <= |vs|
    ensures forall k :: k in Keys(Compose(ks, vs, n)) <==> exists j :: 0 <= j < n && vs[j].Some? && k == Name(ks[j])
  {
    if n > 0 {
      ComposeKeys(ks, vs, n - 1);
      KeysConcat(Compose(ks, vs, n - 1), Opt(ks[n - 1], vs[n - 1]));
    }
  }

  /** A name not yet assigned is not a key: no name is listed twice. */
  lemma ComposeFresh(ks: Names, vs: seq<Option<Value>>, n: nat)
    requires n < |ks| && n <= |vs|
    ensures Name(ks[n]) !in Keys(Compose(ks, vs, n))
  {
    ComposeKeys(ks, vs, n);
  }

  /** Appending a key not yet present keeps the keys distinct. */
  lemma AppendFresh(p: PArray, k: string, x: Option<Value>)
    requires Distinct(p) && Name(k) !in Keys(p)
    ensures Distinct(p + Opt(k, x))
  {
    DistinctConcat(p, Opt(k, x));
  }

  /** One assignment that appends a key not yet present keeps the keys distinct. */
  lemma ComposeStepDistinct(ks: Names, vs: seq<Option<Value>>, n: nat)
    requires 0 < n <= |ks| && n <= |vs| && Distinct(Compose(ks, vs, n - 1))
    ensures Distinct(Compose(ks, vs, n))
  {
    ComposeKeys(ks, vs, n - 1);
    AppendFresh(Compose(ks, vs, n - 1), ks[n - 1], vs[n - 1]);
  }

  /** Each assignment appends a key that is not there yet, so no key occurs twice. */
  lemma {:induction false} ComposeDistinct(ks: Names, vs: seq<Option<Value>>, n: nat)
    requires n <= |ks| && n <= |vs|
    ensures Distinct(Compose(ks, vs, n))
  {
    if n > 0 {
      ComposeDistinct(ks, vs, n - 1);
      ComposeStepDistinct(ks, vs, n);
    }
  }

  /** The last of `n` assignments puts its value under its name. */
  lemma ComposeLookupLast(ks: Names, vs: seq<Option<Value>>, n: nat)
    requires 0 < n <= |ks| && n <= |vs|
    ensures Lookup(Compose(ks, vs, n), Name(ks[n - 1])) == vs[n - 1]
  {
    ComposeFresh(ks, vs, n - 1);
    LookupConcat(Compose(ks, vs, n - 1), Opt(ks[n - 1], vs[n - 1]), Name(ks[n - 1]));
  }

  /** A later assignment, to another name, leaves the value under `ks[j]` alone. */
  lemma ComposeLookupLater(ks: Names, vs: seq<Option<Value>>, n: nat, j: nat)
    requires j + 1 < n <= |ks| && n <= |vs|
    ensures Lookup(Compose(ks, vs, n), Name(ks[j])) == Lookup(Compose(ks, vs, n - 1), Name(ks[j]))
  {
    assert ks[j] != ks[n - 1];
    LookupConcat(Compose(ks, vs, n - 1), Opt(ks[n - 1], vs[n - 1]), Name(ks[j]));
  }

  /** The value under each name `ks[j]` is the one its assignment gives, or none. */
  lemma {:induction false} ComposeLookup(ks: Names, vs: seq<Option<Value>>, n: nat)
    requires n <= |ks| && n <= |vs|
    ensures forall j {:trigger Lookup(Compose(ks, vs, n), Name(ks[j]))} :: 0 <= j < n ==> Lookup(Compose(ks, vs, n), Name(ks[j])) == vs[j]
  {
    if n > 0 {
      ComposeLookup(ks, vs, n - 1);
      ComposeLookupLast(ks, vs, n);
      forall j | 0 <= j < n - 1
        ensures Lookup(Compose(ks, vs, n), Name(ks[j])) == vs[j]
      {
        ComposeLookupLater(ks, vs, n, j);
      }
    }
  }

  /** Assignments only append: the first `m` of them are a prefix of the first `n`. */
  lemma {:induction false} ComposePrefix(ks: seq<string>, vs: seq<Option<Value>>, m: nat, n: nat)
    requires m <= n <= |ks| && n <= |vs|
    ensures |Compose(ks, vs, m)| <= |Compose(ks, vs, n)|
    ensures Compose(ks, vs, n)[..|Compose(ks, vs, m)|] == Compose(ks, vs, m)
  {
    if m < n {
      ComposePrefix(ks, vs, m, n - 1);
      var p := Compose(ks, vs, n - 1);
      assert Compose(ks, vs, n)[..|p|] == p;
    }
  }

  /** What an endpoint's query holds: each name once at most, under the value its
      assignment gives, and no key but these names. */
  lemma QueryContents(ks: Names, vs: seq<Option<Value>>)
    requires |vs| == |ks|
    ensures Distinct(Query(ks, vs))
    ensures forall j :: 0 <= j < |ks| ==> Lookup(Query(ks, vs), Name(ks[j])) == vs[j]
    ensures forall k :: k in Keys(Query(ks, vs)) ==> k.Name? && k.name in ks
  {
    ComposeDistinct(ks, vs, |ks|);
    ComposeKeys(ks, vs, |ks|);
    ComposeLookup(ks, vs, |ks|);
  }

  /** A given value ends up at the position that follows the earlier assignments. */
  lemma ComposeEntry(ks: seq<string>, vs: seq<Option<Value>>, i: nat, n: nat)
    requires i < n <= |ks| && n <= |vs| && vs[i].Some?
    ensures |Compose(ks, vs, i)| < |Compose(ks, vs, n)|
    ensures Compose(ks, vs, n)[|Compose(ks, vs, i)|] == (Name(ks[i]), vs[i].value)
  {
    var p := Compose(ks, vs, i);
    var e := (Name(ks[i]), vs[i].value);
    assert Compose(ks, vs, i + 1) == p + [e];
    ComposePrefix(ks, vs, i + 1, n);
    assert Compose(ks, vs, n)[|p|] == (p + [e])[|p|];
  }

  /** Keys are sent in the order the code assigns them: when names `ks[i]` and
      `ks[j]` with `i < j` are both given, `ks[i]` comes first. */
  lemma QueryOrder(ks: Names, vs: seq<Option<Value>>, i: nat, j: nat)
    requires i < j < |ks| == |vs| && vs[i].Some? && vs[j].Some?
    ensures exists a, b :: 0 <= a < b < |Query(ks, vs)| && Query(ks, vs)[a].0 == Name(ks[i]) && Query(ks, vs)[b].0 == Name(ks[j])
  {
    ComposeEntry(ks, vs, i, j);
    ComposePrefix(ks, vs, j, |ks|);
    ComposeEntry(ks, vs, j, |ks|);
    var a, b := |Compose(ks, vs, i)|, |Compose(ks, vs, j)|;
    assert Query(ks, vs)[a] == Compose(ks, vs, j)[a];
  }

  /** A literal `[k0 => v0, k1 => v1, ...]` that gives the first names of `ks` their
      values from `vs`, in order, is the query of the first `|q|` assignments. */
  lemma {:induction false} SeededCompose(q: PArray, ks: seq<string>, vs: seq<Option<Value>>)
    requires |q| <= |ks| && |q| <= |vs|
    requires forall j :: 0 <= j < |q| ==> q[j].0 == Name(ks[j]) && vs[j] == Some(q[j].1)
    ensures q == Compose(ks, vs, |q|)
  {
    if q != [] {
      var p := q[..|q| - 1];
      SeededCompose(p, ks, vs);
      assert q == p + [q[|q| - 1]];
    }
  }

  /** The `n`-th assignment of an endpoint, on the query of the assignments before
      it: `if ($x !== null) { $query[ks[n]] = $x; }` for the value `x` the table `vs`
      gives (a flag `if ($b) { $query[k] = 1; }` gives Bit(b), an `elseif` branch
      gives Otherwise(..)). The name is not a key yet, so `$query[ks[n]] = $x`
      appends it, and the query is that of the first `n + 1` assignments. */
  method Assign(q: PArray, ks: Names, vs: seq<Option<Value>>, n: nat) returns (r: PArray)
    requires n < |ks| && n < |vs| && q == Compose(ks, vs, n)
    ensures r == Compose(ks, vs, n + 1)
  {
    if vs[n].Some? {
      ComposeFresh(ks, vs, n);
      r := Set(q, Name(ks[n]), vs[n].value);
    } else {
      r := q;
    }
  }
}
