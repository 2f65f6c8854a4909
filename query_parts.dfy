/**
 * Query parameters as both `RecordQuery.getQuery` implementations produce them: a
 * `name=value` pair per parameter that is set, each followed by a separator character.
 * Parameters are keyed by the query's own field type `K`.
 */
module QueryParts {
  import opened Wrappers

  datatype Param<K> = Param(key: K, value: string)

  /** One step of a chain of conditional appends: `p` is added at the end when `cond` holds. */
  function Emit<K>(ps: seq<Param<K>>, cond: bool, p: Param<K>): seq<Param<K>> {
    if cond then ps + [p] else ps
  }

  function Keys<K>(ps: seq<Param<K>>): (ks: seq<K>)
    ensures |ks| == |ps|
  {
    if ps == [] then [] else [ps[0].key] + Keys(ps[1..])
  }

  /** The value of the first parameter with key `k`, if any. */
  function Lookup<K(==)>(ps: seq<Param<K>>, k: K): (r: Option<string>)
    ensures r.Some? ==> Param(k, r.value) in ps
    ensures r.None? ==> forall i :: 0 <= i < |ps| ==> ps[i].key != k
  {
    if ps == [] then None
    else if ps[0].key == k then Some(ps[0].value)
    else Lookup(ps[1..], k)
  }

  /** One conditional append: `q`, then `prefix`, `text` and `sep` when `isSet`, else `q` alone. */
  function AppendIf(q: string, isSet: bool, prefix: string, text: string, sep: string): string {
    if isSet then q + prefix + text + sep else q
  }

  /** Every pair followed by '&', in order. */
  function Terminated(pairs: seq<string>): string {
    if pairs == [] then "" else pairs[0] + "&" + Terminated(pairs[1..])
  }

  /** Sum over the pairs of their length plus one for the separator. */
  function SegmentsLength(pairs: seq<string>): nat {
    if pairs == [] then 0 else |pairs[0]| + 1 + SegmentsLength(pairs[1..])
  }

  /** Concatenation regroups freely. */
  lemma AppendAssoc(a: string, b: string, c: string)
    ensures a + b + c == a + (b + c)
  {
  }

  lemma {:induction false} LookupAppend<K>(ps: seq<Param<K>>, qs: seq<Param<K>>, k: K)
    ensures Lookup(ps + qs, k) == if Lookup(ps, k).Some? then Lookup(ps, k) else Lookup(qs, k)
    decreases |ps|
  {
    if ps != [] {
      assert (ps + qs)[1..] == ps[1..] + qs;
      LookupAppend(ps[1..], qs, k);
    } else {
      assert ps + qs == qs;
    }
  }

  /** Looking a key up after a conditional append. */
  lemma LookupEmit<K>(ps: seq<Param<K>>, cond: bool, p: Param<K>, k: K)
    ensures Lookup(Emit(ps, cond, p), k) ==
      if Lookup(ps, k).Some? then Lookup(ps, k)
      else if cond && p.key == k then Some(p.value)
      else None
  {
    if cond {
      LookupAppend(ps, [p], k);
    }
  }

  lemma {:induction false} KeysSnoc<K>(ps: seq<Param<K>>, p: Param<K>)
    ensures Keys(ps + [p]) == Keys(ps) + [p.key]
    decreases |ps|
  {
    if ps == [] {
      assert ps + [p] == [p];
    } else {
      assert (ps + [p])[1..] == ps[1..] + [p];
      KeysSnoc(ps[1..], p);
    }
  }

  lemma KeysEmit<K>(ps: seq<Param<K>>, cond: bool, p: Param<K>)
    ensures Keys(Emit(ps, cond, p)) == Keys(ps) + if cond then [p.key] else []
  {
    if cond {
      KeysSnoc(ps, p);
    }
  }

  /** Appending a pair appends exactly its `name=value&` segment. */
  lemma {:induction false} TerminatedSnoc(pairs: seq<string>, pair: string)
    ensures Terminated(pairs + [pair]) == Terminated(pairs) + pair + "&"
    decreases |pairs|
  {
    if pairs == [] {
      assert pairs + [pair] == [pair];
    } else {
      assert (pairs + [pair])[1..] == pairs[1..] + [pair];
      TerminatedSnoc(pairs[1..], pair);
    }
  }

  /** The rendering is as long as its segments: no character is added or lost. */
  lemma {:induction false} TerminatedLength(pairs: seq<string>)
    ensures |Terminated(pairs)| == SegmentsLength(pairs)
    decreases |pairs|
  {
    if pairs != [] {
      TerminatedLength(pairs[1..]);
    }
  }

  /** Nothing is rendered exactly when there is no pair; otherwise the text ends in '&'. */
  lemma {:induction false} TerminatedShape(pairs: seq<string>)
    ensures Terminated(pairs) == "" <==> pairs == []
    ensures pairs != [] ==> Terminated(pairs)[|Terminated(pairs)| - 1] == '&'
    decreases |pairs|
  {
    if pairs != [] {
      TerminatedShape(pairs[1..]);
    }
  }
}
