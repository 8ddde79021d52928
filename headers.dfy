/**
 * The object's `_headers`: a PHP array, that is an ordered map from integer or
 * string keys to header lines, or `null`. Writing a key that is present
 * replaces its line where it stands; writing a new key appends it. cURL is
 * handed the lines in this order.
 */
module Headers {
  import opened Wrappers

  /** A PHP array key. */
  datatype HeaderKey = Index(i: nat) | Name(s: string)

  type HeaderList = seq<(HeaderKey, string)>

  /** No key occurs twice, as in every PHP array. */
  predicate UniqueKeys(h: HeaderList) {
    forall i, j :: 0 <= i < j < |h| ==> h[i].0 != h[j].0
  }

  /** `$h[$k]`, or null when the key is absent. */
  function Lookup(h: HeaderList, k: HeaderKey): Option<string> {
    if h == [] then None
    else if h[0].0 == k then Some(h[0].1)
    else Lookup(h[1..], k)
  }

  /** The header lines in array order. */
  function Values(h: HeaderList): (vs: seq<string>)
    ensures |vs| == |h|
    ensures forall i :: 0 <= i < |h| ==> vs[i] == h[i].1
  {
    seq(|h|, i requires 0 <= i < |h| => h[i].1)
  }

  /**
   * `$h[$k] = $v`: an existing key keeps its place and the array its length,
   * a new key goes at the end.
   */
  function Put(h: HeaderList, k: HeaderKey, v: string): (r: HeaderList)
    ensures Lookup(h, k).None? ==> r == h + [(k, v)]
    ensures Lookup(h, k).Some? ==> |r| == |h|
  {
    if h == [] then [(k, v)]
    else if h[0].0 == k then [(k, v)] + h[1..]
    else [h[0]] + Put(h[1..], k, v)
  }

  /** The `foreach` of `setHeaders`: every pair written in order. */
  function PutAll(h: HeaderList, pairs: HeaderList): HeaderList
    decreases |pairs|
  {
    if pairs == [] then h
    else
      var n := |pairs| - 1;
      Put(PutAll(h, pairs[..n]), pairs[n].0, pairs[n].1)
  }

  /** The value the last pair with key `k` carries, or null when there is none. */
  function LastFor(pairs: HeaderList, k: HeaderKey): Option<string>
    decreases |pairs|
  {
    if pairs == [] then None
    else
      var n := |pairs| - 1;
      if pairs[n].0 == k then Some(pairs[n].1) else LastFor(pairs[..n], k)
  }

  /**
   * `setHeaders($arg)`: a null `_headers` becomes an empty array; an array
   * argument is written into it pair by pair, null clears the field.
   */
  function AfterSetHeaders(current: Option<HeaderList>, arg: Option<HeaderList>): Option<HeaderList> {
    match arg
    case None => None
    case Some(pairs) => Some(PutAll(current.GetOr([]), pairs))
  }

  /** `getHeaders()`: the array, or an empty one when the field is null. */
  function HeadersOrEmpty(current: Option<HeaderList>): HeaderList {
    current.GetOr([])
  }

  /**
   * `after` is what writing `pairs` into `before` gives at key `k`: the line of
   * the last pair with that key, or the old line when no pair has it.
   */
  predicate LookupAfter(pairs: HeaderList, before: HeaderList, after: HeaderList, k: HeaderKey) {
    Lookup(after, k) == if LastFor(pairs, k).Some? then LastFor(pairs, k) else Lookup(before, k)
  }

  /** Writing `k` sets `k` and leaves every other key as it was. */
  lemma {:induction false} LookupPut(h: HeaderList, k: HeaderKey, v: string, k': HeaderKey)
    ensures Lookup(Put(h, k, v), k') == if k' == k then Some(v) else Lookup(h, k')
  {
    if h != [] && h[0].0 != k {
      LookupPut(h[1..], k, v, k');
    }
  }

  /** A key that occurs in the array has a value under `Lookup`. */
  lemma {:induction false} LookupFindsEntry(h: HeaderList, i: nat)
    requires i < |h|
    ensures Lookup(h, h[i].0).Some?
  {
    if i > 0 && h[0].0 != h[i].0 {
      LookupFindsEntry(h[1..], i - 1);
    }
  }

  /** Writing a key keeps the keys unique. */
  lemma {:induction false} PutUnique(h: HeaderList, k: HeaderKey, v: string)
    requires UniqueKeys(h)
    ensures UniqueKeys(Put(h, k, v))
  {
    if h == [] {
    } else if h[0].0 == k {
    } else {
      PutUnique(h[1..], k, v);
      var r := Put(h, k, v);
      forall j | 0 < j < |r| ensures r[0].0 != r[j].0 {
        LookupFindsEntry(r[1..], j - 1);
        LookupPut(h[1..], k, v, h[0].0);
        if Lookup(h[1..], h[0].0).Some? {
          LookupSomeHasEntry(h[1..], h[0].0);
        }
      }
    }
  }

  /** A key with a value under `Lookup` occurs in the array. */
  lemma {:induction false} LookupSomeHasEntry(h: HeaderList, k: HeaderKey)
    requires Lookup(h, k).Some?
    ensures exists i :: 0 <= i < |h| && h[i].0 == k
  {
    if h[0].0 != k {
      LookupSomeHasEntry(h[1..], k);
      var i :| 0 <= i < |h[1..]| && h[1..][i].0 == k;
      assert h[i + 1].0 == k;
    }
  }

  /** Writing a list of pairs keeps the keys unique. */
  lemma {:induction false} PutAllUnique(h: HeaderList, pairs: HeaderList)
    requires UniqueKeys(h)
    ensures UniqueKeys(PutAll(h, pairs))
    decreases |pairs|
  {
    if pairs != [] {
      var n := |pairs| - 1;
      PutAllUnique(h, pairs[..n]);
      PutUnique(PutAll(h, pairs[..n]), pairs[n].0, pairs[n].1);
    }
  }

  /**
   * After `setHeaders(pairs)` each key of `pairs` holds the line the last pair
   * with that key gave, and every other key holds what it held before.
   */
  lemma {:induction false} LookupPutAll(h: HeaderList, pairs: HeaderList, k: HeaderKey)
    ensures Lookup(PutAll(h, pairs), k) ==
      if LastFor(pairs, k).Some? then LastFor(pairs, k) else Lookup(h, k)
    decreases |pairs|
  {
    if pairs != [] {
      var n := |pairs| - 1;
      LookupPutAll(h, pairs[..n], k);
      LookupPut(PutAll(h, pairs[..n]), pairs[n].0, pairs[n].1, k);
    }
  }

  /** Writing the same key twice leaves one entry, holding the second line. */
  lemma {:induction false} PutOverwrites(h: HeaderList, k: HeaderKey, v1: string, v2: string)
    ensures Put(Put(h, k, v1), k, v2) == Put(h, k, v2)
  {
    if h != [] && h[0].0 != k {
      PutOverwrites(h[1..], k, v1, v2);
    }
  }

  /** A line found under some key is among the lines handed to cURL. */
  lemma {:induction false} LookupInValues(h: HeaderList, k: HeaderKey)
    requires Lookup(h, k).Some?
    ensures Lookup(h, k).value in Values(h)
  {
    if h[0].0 != k {
      LookupInValues(h[1..], k);
      assert Values(h[1..]) == Values(h)[1..];
    }
  }

  /** Writing a one-pair array is writing that pair. */
  lemma PutAllSingle(h: HeaderList, k: HeaderKey, v: string)
    ensures PutAll(h, [(k, v)]) == Put(h, k, v)
  {
    assert [(k, v)][..0] == [];
  }
}
