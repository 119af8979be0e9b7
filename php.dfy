/** The part of PHP's semantics that request assembly relies on: ordered arrays
    with string or integer keys, the assignment `$a[$k] = $v`, `array_merge`, and
    the `empty()` test applied to the scalar argument types. */
module Php {

  datatype Option<+T> = None | Some(value: T) {
    /** PHP's `$x ?? $default` on a nullable value. */
    function GetOr(default: T): T {
      match this
      case Some(v) => v
      case None => default
    }
  }

  /** A PHP array key: a string, or an integer (PHP stores a decimal-integer string key as an integer). */
  datatype Key = Name(name: string) | Index(index: int)

  /** The scalar values a query parameter can carry. */
  datatype Value = I(i: int) | S(s: string) | B(b: bool)

  /** A PHP array of scalars, in insertion order: each entry is a key and its value. */
  type PArray = seq<(Key, Value)>

  /** The set of keys of an array. */
  function Keys(a: PArray): set<Key>
  {
    if a == [] then {} else {a[0].0} + Keys(a[1..])
  }

  /** PHP arrays never hold a key twice. */
  predicate Distinct(a: PArray)
  {
    a == [] || (a[0].0 !in Keys(a[1..]) && Distinct(a[1..]))
  }

  /** The value stored under key `k`, if any: `$a[$k] ?? null`. */
  function Lookup(a: PArray, k: Key): (r: Option<Value>)
    ensures r.Some? <==> k in Keys(a)
  {
    if a == [] then None else if a[0].0 == k then Some(a[0].1) else Lookup(a[1..], k)
  }

  /** The keys of an array in order. */
  function KeyList(a: PArray): (r: seq<Key>)
    ensures |r| == |a|
    ensures forall i :: 0 <= i < |a| ==> r[i] == a[i].0
  {
    if a == [] then [] else [a[0].0] + KeyList(a[1..])
  }

  lemma {:induction false} KeysConcat(a: PArray, b: PArray)
    ensures Keys(a + b) == Keys(a) + Keys(b)
  {
    if a == [] {
      assert a + b == b;
    } else {
      assert (a + b)[0] == a[0] && (a + b)[1..] == a[1..] + b;
      KeysConcat(a[1..], b);
    }
  }

  lemma {:induction false} LookupConcat(a: PArray, b: PArray, k: Key)
    ensures Lookup(a + b, k) == if k in Keys(a) then Lookup(a, k) else Lookup(b, k)
  {
    if a == [] {
      assert a + b == b;
    } else {
      assert (a + b)[0] == a[0] && (a + b)[1..] == a[1..] + b;
      LookupConcat(a[1..], b, k);
    }
  }

  /** Two arrays with no key in common concatenate to an array with distinct keys. */
  lemma {:induction false} DistinctConcat(a: PArray, b: PArray)
    requires Distinct(a) && Distinct(b) && Keys(a) !! Keys(b)
    ensures Distinct(a + b)
  {
    if a == [] {
      assert a + b == b;
    } else {
      assert (a + b)[0] == a[0] && (a + b)[1..] == a[1..] + b;
      KeysConcat(a[1..], b);
      DistinctConcat(a[1..], b);
    }
  }

  /** The assignment `$a[$k] = $v`: an existing key keeps its position and takes
      the new value, a new key is appended at the end. */
  function Set(a: PArray, k: Key, v: Value): (r: PArray)
    ensures Keys(r) == Keys(a) + {k}
    ensures k !in Keys(a) ==> r == a + [(k, v)]
    ensures k in Keys(a) ==> |r| == |a| && KeyList(r) == KeyList(a)
    ensures Lookup(r, k) == Some(v)
    ensures forall j :: j != k ==> Lookup(r, j) == Lookup(a, j)
    ensures Distinct(a) ==> Distinct(r)
  {
    if a == [] then [(k, v)]
    else if a[0].0 == k then [(k, v)] + a[1..]
    else [a[0]] + Set(a[1..], k, v)
  }

  /** `array_merge(a, b)` of PHP 8: the entries of `a` and then of `b`, in order; a
      string key already present takes the later value in its earlier position,
      and integer keys are dropped and the values renumbered 0, 1, 2, ... The
      string keys of the result are those of `a` and `b`, its integer keys run
      below the number of entries, and no key occurs twice. */
  function Merge(a: PArray, b: PArray): (r: PArray)
    ensures forall k: Key :: k.Name? ==> (k in Keys(r) <==> k in Keys(a) || k in Keys(b))
    ensures forall j :: Index(j) in Keys(r) ==> 0 <= j < |a| + |b|
    ensures Distinct(r)
  {
    KeysConcat(a, b);
    MergeIntoKeys([], 0, a + b);
    MergeInto([], 0, a + b)
  }

  /** Appends the entries of `s` to `acc` as `array_merge` does; `next` is the next
      integer key. The entries of `acc` stay, and at most one entry is added per
      entry of `s`. */
  function MergeInto(acc: PArray, next: int, s: PArray): (r: PArray)
    ensures |acc| <= |r| <= |acc| + |s|
    ensures Keys(acc) <= Keys(r)
    decreases |s|
  {
    if s == [] then acc
    else match s[0].0
      case Index(_) =>
        KeysConcat(acc, [(Index(next), s[0].1)]);
        MergeInto(acc + [(Index(next), s[0].1)], next + 1, s[1..])
      case Name(_) => MergeInto(Set(acc, s[0].0, s[0].1), next, s[1..])
  }

  /** The integer keys of `acc` are all below `next`. */
  ghost predicate IndicesBelow(acc: PArray, next: int)
  {
    forall j :: Index(j) in Keys(acc) ==> j < next
  }

  /** MergeInto keeps keys distinct, has exactly the string keys of `acc` and `s`,
      and numbers the integer keys it adds from `next` on. */
  lemma {:induction false} MergeIntoKeys(acc: PArray, next: int, s: PArray)
    requires Distinct(acc) && IndicesBelow(acc, next)
    ensures Distinct(MergeInto(acc, next, s))
    ensures forall k: Key :: k.Name? ==> (k in Keys(MergeInto(acc, next, s)) <==> k in Keys(acc) || k in Keys(s))
    ensures forall j :: Index(j) in Keys(MergeInto(acc, next, s)) ==> Index(j) in Keys(acc) || next <= j < next + |s|
    decreases |s|
  {
    if s != [] {
      match s[0].0
      case Index(_) =>
        var acc' := acc + [(Index(next), s[0].1)];
        KeysConcat(acc, [(Index(next), s[0].1)]);
        assert Keys([(Index(next), s[0].1)]) == {Index(next)};
        DistinctConcat(acc, [(Index(next), s[0].1)]);
        assert IndicesBelow(acc', next + 1);
        MergeIntoKeys(acc', next + 1, s[1..]);
        assert Keys(s) == {s[0].0} + Keys(s[1..]);
      case Name(_) =>
        var acc' := Set(acc, s[0].0, s[0].1);
        assert IndicesBelow(acc', next);
        MergeIntoKeys(acc', next, s[1..]);
        assert Keys(s) == {s[0].0} + Keys(s[1..]);
    }
  }

  /** A string key ends up with the value of its last occurrence in `s`, or keeps
      its value in `acc` when `s` does not mention it. */
  lemma {:induction false} MergeIntoLookup(acc: PArray, next: int, s: PArray, k: Key)
    requires k.Name? && Distinct(s)
    ensures Lookup(MergeInto(acc, next, s), k) == if k in Keys(s) then Lookup(s, k) else Lookup(acc, k)
    decreases |s|
  {
    if s != [] {
      assert Keys(s) == {s[0].0} + Keys(s[1..]);
      match s[0].0
      case Index(_) =>
        var acc' := acc + [(Index(next), s[0].1)];
        LookupConcat(acc, [(Index(next), s[0].1)], k);
        MergeIntoLookup(acc', next + 1, s[1..], k);
      case Name(_) =>
        MergeIntoLookup(Set(acc, s[0].0, s[0].1), next, s[1..], k);
    }
  }

  /** MergeInto never moves an entry that is already in `acc`: the first |acc| keys stay in place. */
  lemma {:induction false} MergeIntoPrefix(acc: PArray, next: int, s: PArray)
    ensures |MergeInto(acc, next, s)| >= |acc|
    ensures KeyList(MergeInto(acc, next, s))[..|acc|] == KeyList(acc)
    decreases |s|
  {
    if s != [] {
      match s[0].0
      case Index(_) =>
        var acc' := acc + [(Index(next), s[0].1)];
        MergeIntoPrefix(acc', next + 1, s[1..]);
        assert KeyList(acc')[..|acc|] == KeyList(acc);
      case Name(_) =>
        var acc' := Set(acc, s[0].0, s[0].1);
        MergeIntoPrefix(acc', next, s[1..]);
        assert KeyList(acc')[..|acc|] == KeyList(acc);
    }
  }

  /** `array_merge([k => v], options)`, as the change-link endpoints use it: `k`
      stays the first key, it carries the options' value for `k` when there is one
      and `v` otherwise, every other string key carries exactly the options' value,
      and no key occurs twice. */
  lemma MergeAfterHead(k: Key, v: Value, options: PArray)
    requires k.Name? && Distinct(options)
    ensures var m := Merge([(k, v)], options);
      && |m| >= 1 && m[0].0 == k
      && Lookup(m, k) == Some(Lookup(options, k).GetOr(v))
      && (forall j: Key :: j.Name? && j != k ==> Lookup(m, j) == Lookup(options, j))
      && Distinct(m)
  {
    var m := Merge([(k, v)], options);
    assert [(k, v)] + options == [(k, v)] + options;
    var s := [(k, v)] + options;
    assert s[0] == (k, v) && s[1..] == options;
    var acc := Set([], k, v);
    assert m == MergeInto(acc, 0, options);
    MergeIntoPrefix(acc, 0, options);
    assert KeyList(m)[..1] == KeyList(acc) == [k];
    MergeIntoKeys(acc, 0, options);
    forall j: Key | j.Name?
      ensures Lookup(m, j) == if j in Keys(options) then Lookup(options, j) else Lookup(acc, j)
    {
      MergeIntoLookup(acc, 0, options, j);
    }
  }

  /** PHP's `empty()` on a string parameter: true for "" and for "0" only, so any
      text of two or more characters, "00" and " 0" among them, is not empty. */
  predicate EmptyStr(s: string)
    ensures EmptyStr(s) ==> |s| <= 1
    ensures EmptyStr(s) ==> forall c :: c in s ==> c == '0'
  {
    s == "" || s == "0"
  }

  /** PHP's `empty()` on an int parameter: true only for 0. It agrees with `empty()`
      on the decimal text of the int, as PHP's string conversion writes it. */
  predicate EmptyInt(i: int)
    ensures EmptyInt(i) <==> EmptyStr(IntToString(i))
  {
    DecimalEmpty(i);
    i == 0
  }

  /** The decimal text of an int is "0" for 0 and never "" or "0" otherwise. */
  lemma DecimalEmpty(i: int)
    ensures EmptyStr(IntToString(i)) <==> i == 0
  {
    if i < 0 {
      assert IntToString(i)[0] == '-';
    } else if 0 < i < 10 {
      assert IntToString(i) == [Digit(i)];
      assert Digit(i) == "0123456789"[i];
    } else if i >= 10 {
      assert |NatToString(i / 10)| >= 1;
    }
  }

  /** The decimal text of an integer, as PHP's string conversion writes it. */
  function IntToString(i: int): (r: string)
    ensures |r| >= 1
    decreases if i < 0 then 1 - i else i
  {
    if i < 0 then "-" + NatToString(-i) else NatToString(i)
  }

  function NatToString(n: nat): (r: string)
    ensures |r| >= 1
    ensures forall c :: c in r ==> '0' <= c <= '9'
  {
    if n < 10 then [Digit(n)] else NatToString(n / 10) + [Digit(n % 10)]
  }

  function Digit(d: nat): (c: char)
    requires d < 10
    ensures '0' <= c <= '9'
  {
    "0123456789"[d]
  }
}
