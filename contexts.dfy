/**
 * Trace contexts: PHP arrays with string keys, modelled as ordered lists of
 * entries with distinct keys. Writing a key (`$c[$k] = $v`) keeps an existing
 * key where it is and appends a new one; `array_merge` writes the entries of
 * its later arguments one after the other.
 */
module Contexts {
  import opened Results

  /** The serialisable values a context can hold. */
  datatype Value =
    | Str(s: string)
    | Int(i: int)
    | Float(f: real)
    | Bool(b: bool)
    | Null
    | Nested(entries: seq<Entry>)

  datatype Entry = Entry(key: string, value: Value)

  type Context = seq<Entry>

  /** The keys of a context, in order. */
  function Keys(c: Context): seq<string>
  {
    if c == [] then [] else [c[0].key] + Keys(c[1..])
  }

  /** PHP arrays never hold a key twice. */
  ghost predicate WellFormed(c: Context)
  {
    forall i, j :: 0 <= i < j < |c| ==> c[i].key != c[j].key
  }

  /** `$c[$k] ?? null`, as an Option. */
  function Lookup(c: Context, k: string): Option<Value>
  {
    if c == [] then None
    else if c[0].key == k then Some(c[0].value)
    else Lookup(c[1..], k)
  }

  lemma {:induction false} KeysShape(c: Context)
    ensures |Keys(c)| == |c|
    ensures forall i :: 0 <= i < |c| ==> Keys(c)[i] == c[i].key
  {
    if c != [] {
      KeysShape(c[1..]);
    }
  }

  /** In a well-formed context, the value found under a key is the one stored at its position. */
  lemma {:induction false} LookupAt(c: Context, i: nat)
    requires WellFormed(c) && i < |c|
    ensures Lookup(c, c[i].key) == Some(c[i].value)
  {
    if i > 0 {
      assert c[1..][i - 1] == c[i];
      LookupAt(c[1..], i - 1);
    }
  }

  /**
   * `$c[$k] = $v`: overwrite an existing key in place, or append a new key
   * at the end.
   */
  function Put(c: Context, k: string, v: Value): Context
  {
    if c == [] then [Entry(k, v)]
    else if c[0].key == k then [Entry(k, v)] + c[1..]
    else [c[0]] + Put(c[1..], k, v)
  }

  /** Writing a key keeps the key order; a new key goes at the end. */
  lemma {:induction false} PutKeys(c: Context, k: string, v: Value)
    ensures Keys(Put(c, k, v)) == if k in Keys(c) then Keys(c) else Keys(c) + [k]
  {
    if c != [] && c[0].key != k {
      PutKeys(c[1..], k, v);
    }
  }

  /** After writing, the key holds the new value and every other key is untouched. */
  lemma {:induction false} PutLookup(c: Context, k: string, v: Value, k': string)
    ensures Lookup(Put(c, k, v), k') == if k' == k then Some(v) else Lookup(c, k')
  {
    if c != [] && c[0].key != k {
      PutLookup(c[1..], k, v, k');
    }
  }

  /** Writing a key never duplicates it. */
  lemma {:induction false} PutWellFormed(c: Context, k: string, v: Value)
    requires WellFormed(c)
    ensures WellFormed(Put(c, k, v))
  {
    if c != [] && c[0].key != k {
      var rest := Put(c[1..], k, v);
      PutWellFormed(c[1..], k, v);
      PutKeys(c[1..], k, v);
      KeysShape(c);
      KeysShape(c[1..]);
      KeysShape(rest);
      assert c[0].key !in Keys(c[1..]);
      assert c[0].key !in Keys(rest);
      var r := Put(c, k, v);
      assert r == [c[0]] + rest;
      forall i, j | 0 <= i < j < |r|
        ensures r[i].key != r[j].key
      {
        if i == 0 {
          assert r[j] == rest[j - 1];
          assert Keys(rest)[j - 1] == rest[j - 1].key;
        } else {
          assert r[i] == rest[i - 1] && r[j] == rest[j - 1];
        }
      }
    }
  }

  /**
   * `array_merge($a, $b)` for string keys: every entry of `b`, in order,
   * written into `a`.
   */
  function Merge(a: Context, b: Context): Context
    decreases |b|
  {
    if b == [] then a else Merge(Put(a, b[0].key, b[0].value), b[1..])
  }

  /** A merged context has the keys of both arguments and no others. */
  lemma {:induction false} MergeKeys(a: Context, b: Context)
    ensures forall k :: k in Keys(Merge(a, b)) <==> k in Keys(a) || k in Keys(b)
    decreases |b|
  {
    if b != [] {
      PutKeys(a, b[0].key, b[0].value);
      MergeKeys(Put(a, b[0].key, b[0].value), b[1..]);
    }
  }

  /** Keys of `a` keep their places; new keys only come after them. */
  lemma {:induction false} MergeKeepsOrder(a: Context, b: Context)
    ensures |Keys(a)| <= |Keys(Merge(a, b))|
    ensures Keys(Merge(a, b))[..|Keys(a)|] == Keys(a)
    decreases |b|
  {
    if b != [] {
      var a' := Put(a, b[0].key, b[0].value);
      PutKeys(a, b[0].key, b[0].value);
      MergeKeepsOrder(a', b[1..]);
      assert Keys(a')[..|Keys(a)|] == Keys(a);
    }
  }

  /** Merging into a well-formed context keeps it well-formed. */
  lemma {:induction false} MergeWellFormed(a: Context, b: Context)
    requires WellFormed(a)
    ensures WellFormed(Merge(a, b))
    decreases |b|
  {
    if b != [] {
      PutWellFormed(a, b[0].key, b[0].value);
      MergeWellFormed(Put(a, b[0].key, b[0].value), b[1..]);
    }
  }

  /** On a shared key the value from `b` wins; other keys keep `a`'s value. */
  lemma {:induction false} MergeLookup(a: Context, b: Context, k: string)
    requires WellFormed(b)
    ensures Lookup(Merge(a, b), k) == if k in Keys(b) then Lookup(b, k) else Lookup(a, k)
    decreases |b|
  {
    if b != [] {
      var a' := Put(a, b[0].key, b[0].value);
      KeysShape(b);
      KeysShape(b[1..]);
      assert WellFormed(b[1..]);
      assert b[0].key !in Keys(b[1..]);
      PutLookup(a, b[0].key, b[0].value, k);
      MergeLookup(a', b[1..], k);
    }
  }

  /** `array_merge` of three arrays, as `endTrace` calls it. */
  function Merge3(a: Context, b: Context, c: Context): Context
  {
    Merge(Merge(a, b), c)
  }

  /**
   * In `array_merge(a, b, c)` with well-formed arguments, the last argument
   * that has a key decides its value, and a key of `c` is always present.
   */
  lemma Merge3Lookup(a: Context, b: Context, c: Context, k: string)
    requires WellFormed(b) && WellFormed(c)
    ensures Lookup(Merge3(a, b, c), k) ==
      if k in Keys(c) then Lookup(c, k)
      else if k in Keys(b) then Lookup(b, k)
      else Lookup(a, k)
  {
    MergeLookup(Merge(a, b), c, k);
    MergeLookup(a, b, k);
  }
}
