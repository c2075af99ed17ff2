/**
 * Request headers as the app builds them: a plain JavaScript object, that is, an
 * insertion-ordered map from header name to value in which assigning an existing name
 * replaces its value in place.
 */
module HeaderMap {
  import opened Wrappers
  import opened Js

  type Headers = seq<(string, Value)>

  // The header names the two pages send.
  const CONTENT_TYPE := "Content-Type"
  const USER_HEADER := "X-Telegram-User"
  const USER_B64_HEADER := "X-Telegram-User-B64"
  const INIT_DATA_HEADER := "X-Telegram-InitData"
  const AUTHORIZATION := "Authorization"

  /** The header names in insertion order. */
  function Keys(h: Headers): (r: seq<string>)
    ensures |r| == |h|
  {
    if h == [] then [] else [h[0].0] + Keys(h[1..])
  }

  predicate DistinctKeys(h: Headers)
  {
    forall i, j :: 0 <= i < j < |Keys(h)| ==> Keys(h)[i] != Keys(h)[j]
  }

  /** Every header name is one of `names`. */
  predicate NamesWithin(h: Headers, names: set<string>)
  {
    forall i :: 0 <= i < |h| ==> h[i].0 in names
  }

  /** The value stored under `k`, if any. */
  function Lookup(h: Headers, k: string): (r: Option<Value>)
    ensures r.Some? <==> k in Keys(h)
  {
    if h == [] then None else if h[0].0 == k then Some(h[0].1) else Lookup(h[1..], k)
  }

  /** `headers[k]`: an absent header reads as `undefined`. */
  function Read(h: Headers, k: string): Value
  {
    match Lookup(h, k)
    case Some(v) => v
    case None => Undefined
  }

  /** `headers[k] = v` */
  function Put(h: Headers, k: string, v: Value): (r: Headers)
    ensures Lookup(r, k) == Some(v)
    ensures forall k' :: k' != k ==> Lookup(r, k') == Lookup(h, k')
    ensures |r| > 0 && (h != [] && h[0].0 != k ==> r[0] == h[0])
    ensures k in Keys(h) ==> Keys(r) == Keys(h)
    ensures k !in Keys(h) ==> Keys(r) == Keys(h) + [k]
  {
    if h == [] then [(k, v)]
    else if h[0].0 == k then [(k, v)] + h[1..]
    else [h[0]] + Put(h[1..], k, v)
  }

  /** Assignment never duplicates a header name. */
  lemma PutDistinct(h: Headers, k: string, v: Value)
    requires DistinctKeys(h)
    ensures DistinctKeys(Put(h, k, v))
  {
    var r := Put(h, k, v);
    if k !in Keys(h) {
      assert Keys(r) == Keys(h) + [k];
      forall i, j | 0 <= i < j < |Keys(r)|
        ensures Keys(r)[i] != Keys(r)[j]
      {
        if j == |Keys(h)| {
          assert Keys(r)[i] == Keys(h)[i];
        }
      }
    }
  }

  /** Assigning a name from `names` keeps every header name within `names`. */
  lemma {:induction false} PutWithin(h: Headers, k: string, v: Value, names: set<string>)
    requires NamesWithin(h, names) && k in names
    ensures NamesWithin(Put(h, k, v), names)
  {
    if h != [] && h[0].0 != k {
      PutWithin(h[1..], k, v, names);
      assert Put(h, k, v) == [h[0]] + Put(h[1..], k, v);
    }
  }
}
