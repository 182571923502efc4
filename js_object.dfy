/**
 * A plain JavaScript object with string values (`Record<string, string>`): its own
 * properties in insertion order, each key once. Assigning to an existing key keeps
 * its position; assigning to a new key appends it.
 */
module JsObject {
  import opened Wrappers
  import Seqs

  type Entries = seq<(string, string)>

  predicate DistinctKeys(e: Entries)
  {
    forall i, j :: 0 <= i < j < |e| ==> e[i].0 != e[j].0
  }

  type Record = e: Entries | DistinctKeys(e)

  /** `{}`. */
  const EmptyObject: Record := []

  /** `Object.keys(r)`: the keys in property order. */
  function Keys(e: Entries): (ks: seq<string>)
    ensures |ks| == |e|
    ensures forall i :: 0 <= i < |e| ==> ks[i] == e[i].0
  {
    seq(|e|, i requires 0 <= i < |e| => e[i].0)
  }

  /** The position of a key, if the object has it. */
  function IndexOfKey(e: Entries, k: string): (r: Option<nat>)
    ensures r.None? <==> k !in Keys(e)
    ensures r.Some? ==> r.value < |e| && e[r.value].0 == k
  {
    var r := Seqs.FirstIndex(e, (kv: (string, string)) => kv.0 == k);
    assert r.None? ==> forall i :: 0 <= i < |e| ==> Keys(e)[i] != k;
    r
  }

  /** `r[k]`, with `None` for `undefined`. */
  function Get(r: Record, k: string): (v: Option<string>)
    ensures v.Some? <==> k in Keys(r)
    ensures v.Some? ==> (k, v.value) in r
    ensures forall x :: (k, x) in r ==> v == Some(x)
  {
    match IndexOfKey(r, k)
    case None => None
    case Some(i) => Some(r[i].1)
  }

  /**
   * The one key a plain object does not take as its own on assignment: `__proto__`
   * names an accessor inherited from `Object.prototype`.
   */
  const ProtoKey := "__proto__"

  /**
   * `r[k] = v` on an object made with `{}`: sets that own key and leaves every
   * other key alone; with `k` = `__proto__` the inherited setter ignores the string
   * value, and the object does not change.
   */
  function Set(r: Record, k: string, v: string): (r': Record)
    ensures k == ProtoKey ==> r' == r
    ensures k != ProtoKey ==> Get(r', k) == Some(v)
    ensures forall j :: j != k ==> Get(r', j) == Get(r, j)
    ensures k != ProtoKey ==> Keys(r') == if k in Keys(r) then Keys(r) else Keys(r) + [k]
  {
    if k == ProtoKey then r
    else
      match IndexOfKey(r, k)
      case Some(i) =>
        var r' := r[i := (k, v)];
        assert Keys(r') == Keys(r);
        r'
      case None =>
        var r' := r + [(k, v)];
        assert Keys(r') == Keys(r) + [k];
        r'
  }

  /** The value of the last pair whose key is `k`, if any. */
  function LastValue(pairs: seq<(string, string)>, k: string): Option<string>
  {
    if pairs == [] then None
    else if pairs[|pairs| - 1].0 == k then Some(pairs[|pairs| - 1].1)
    else LastValue(pairs[..|pairs| - 1], k)
  }

  /** The object that assigning every pair in turn, starting from `{}`, builds. */
  function FromPairs(pairs: seq<(string, string)>): Record
  {
    if pairs == [] then []
    else
      var last := pairs[|pairs| - 1];
      Set(FromPairs(pairs[..|pairs| - 1]), last.0, last.1)
  }

  /**
   * Assigning every pair in turn keeps, for each key, the value of its last pair:
   * a later duplicate overwrites an earlier one, and keys no pair has stay absent,
   * as does `__proto__`.
   */
  lemma {:induction false} FromPairsLastWins(pairs: seq<(string, string)>, k: string)
    ensures k != ProtoKey ==> Get(FromPairs(pairs), k) == LastValue(pairs, k)
    ensures k == ProtoKey ==> Get(FromPairs(pairs), k) == None
  {
    if pairs != [] {
      FromPairsLastWins(pairs[..|pairs| - 1], k);
    }
  }

  /** The object has exactly the keys that occur in the pairs, `__proto__` apart. */
  lemma {:induction false} FromPairsKeys(pairs: seq<(string, string)>, k: string)
    ensures k in Keys(FromPairs(pairs)) <==> k in Keys(pairs) && k != ProtoKey
  {
    if pairs != [] {
      var n := |pairs| - 1;
      FromPairsKeys(pairs[..n], k);
      assert Keys(pairs) == Keys(pairs[..n]) + [pairs[n].0];
    }
  }

  /** Assigning the pairs of an object without a `__proto__` key, in order, rebuilds that object. */
  lemma {:induction false} FromPairsOfRecord(r: Record)
    requires ProtoKey !in Keys(r)
    ensures FromPairs(r) == r
  {
    if r != [] {
      var n := |r| - 1;
      LastKeyFresh(r);
      FromPairsOfRecord(r[..n]);
      SetFreshKey(r[..n], r[n].0, r[n].1);
      assert r[..n] + [(r[n].0, r[n].1)] == r;
    }
  }

  /**
   * The last key of an object without `__proto__` is not `__proto__` and occurs
   * nowhere before it, and the keys before it are free of `__proto__` too.
   */
  lemma LastKeyFresh(r: Record)
    requires ProtoKey !in Keys(r) && r != []
    ensures var n := |r| - 1;
            r[n].0 != ProtoKey && r[n].0 !in Keys(r[..n]) && ProtoKey !in Keys(r[..n])
  {
    var n := |r| - 1;
    assert Keys(r)[n] == r[n].0;
    assert forall j :: 0 <= j < n ==> Keys(r[..n])[j] == Keys(r)[j];
  }

  /** Assigning a key the object lacks, other than `__proto__`, appends that pair. */
  lemma SetFreshKey(r: Record, k: string, v: string)
    requires k != ProtoKey && k !in Keys(r)
    ensures Set(r, k, v) == r + [(k, v)]
  {
  }


}
