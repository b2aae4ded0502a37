/**
 * A string-keyed dictionary that remembers insertion order, as a JavaScript
 * `Map` or a plain object with non-numeric keys does: `set` on an existing
 * key keeps its position, a new key goes last, `delete` closes the gap.
 */
module Dict {
  import opened Wrappers

  datatype Entry<V> = Entry(key: string, value: V)

  /** The position of `k`. */
  function IndexOf<V>(d: seq<Entry<V>>, k: string): (r: Option<nat>)
    ensures r.None? <==> forall i | 0 <= i < |d| :: d[i].key != k
    ensures r.Some? ==>
      r.value < |d| && d[r.value].key == k && forall j | 0 <= j < r.value :: d[j].key != k
  {
    if d == [] then None
    else if d[0].key == k then Some(0)
    else match IndexOf(d[1..], k)
      case None => None
      case Some(i) => Some(i + 1)
  }

  /** `d.get(k)` / `d[k]`. */
  function Get<V>(d: seq<Entry<V>>, k: string): Option<V> {
    match IndexOf(d, k)
    case None => None
    case Some(i) => Some(d[i].value)
  }

  /** `Object.keys(d)`. */
  function Keys<V>(d: seq<Entry<V>>): (r: seq<string>)
    ensures |r| == |d| && forall i | 0 <= i < |d| :: r[i] == d[i].key
    ensures forall k :: k in r <==> Get(d, k).Some?
  {
    if d == [] then [] else [d[0].key] + Keys(d[1..])
  }

  ghost predicate DistinctKeys<V>(d: seq<Entry<V>>) {
    forall i, j | 0 <= i < j < |d| :: d[i].key != d[j].key
  }

  /** `d.set(k, v)` / `d[k] = v`. */
  function Set<V>(d: seq<Entry<V>>, k: string, v: V): (r: seq<Entry<V>>)
    ensures Get(r, k) == Some(v)
    ensures forall q | q != k :: Get(r, q) == Get(d, q)
    ensures |d| <= |r| <= |d| + 1 && forall i | 0 <= i < |d| :: r[i].key == d[i].key
    ensures IndexOf(d, k).None? ==> |r| == |d| + 1
    ensures DistinctKeys(d) ==> DistinctKeys(r)
  {
    match IndexOf(d, k)
    case Some(i) =>
      var r := d[i := Entry(k, v)];
      forall q ensures IndexOf(r, q) == IndexOf(d, q) {
        IndexOfReplaced(d, i, Entry(k, v), q);
      }
      r
    case None =>
      var r := d + [Entry(k, v)];
      forall q ensures IndexOf(r, q) == if IndexOf(d, q).Some? then IndexOf(d, q) else if k == q then Some(|d|) else None {
        IndexOfAppended(d, Entry(k, v), q);
      }
      r
  }

  /** `delete d[k]`. */
  function Delete<V>(d: seq<Entry<V>>, k: string): (r: seq<Entry<V>>)
    requires DistinctKeys(d)
    ensures Get(r, k).None?
    ensures forall q | q != k :: Get(r, q) == Get(d, q)
    ensures DistinctKeys(r)
    ensures IndexOf(d, k).None? ==> r == d
    ensures IndexOf(d, k).Some? ==> |r| == |d| - 1
  {
    match IndexOf(d, k)
    case None => d
    case Some(i) =>
      var r := d[..i] + d[i + 1..];
      forall q | q != k ensures Get(r, q) == Get(d, q) {
        IndexOfRemoved(d, i, q);
      }
      assert forall j | 0 <= j < |r| :: r[j].key != k;
      r
  }

  lemma {:induction false} IndexOfReplaced<V>(d: seq<Entry<V>>, i: nat, e: Entry<V>, q: string)
    requires i < |d| && d[i].key == e.key
    ensures IndexOf(d[i := e], q) == IndexOf(d, q)
  {
    if i > 0 {
      assert d[i := e][1..] == d[1..][i - 1 := e];
      IndexOfReplaced(d[1..], i - 1, e, q);
    }
  }

  lemma {:induction false} IndexOfAppended<V>(d: seq<Entry<V>>, e: Entry<V>, q: string)
    ensures IndexOf(d + [e], q) == if IndexOf(d, q).Some? then IndexOf(d, q) else if e.key == q then Some(|d|) else None
  {
    if d != [] {
      assert (d + [e])[1..] == d[1..] + [e];
      IndexOfAppended(d[1..], e, q);
    }
  }

  lemma {:induction false} IndexOfRemoved<V>(d: seq<Entry<V>>, i: nat, q: string)
    requires i < |d| && DistinctKeys(d) && d[i].key != q
    ensures Get(d[..i] + d[i + 1..], q) == Get(d, q)
  {
    if i > 0 {
      assert (d[..i] + d[i + 1..])[1..] == d[1..][..i - 1] + d[1..][i..];
      IndexOfRemoved(d[1..], i - 1, q);
    } else {
      assert d[..i] + d[i + 1..] == d[1..];
    }
  }

  /** The entries as a plain map, for a dictionary without repeated keys. */
  function ToMap<V>(d: seq<Entry<V>>): (m: map<string, V>)
    requires DistinctKeys(d)
    ensures forall k :: (k in m <==> Get(d, k).Some?) && (k in m ==> Get(d, k) == Some(m[k]))
  {
    if d == [] then map[]
    else
      var m := ToMap(d[1..]);
      assert forall k | k != d[0].key :: Get(d, k) == Get(d[1..], k);
      m[d[0].key := d[0].value]
  }
}
