/**
 Going through a map in whatever order the iteration happens to take.
 */
module MapWalks {
  import opened Prelude

  /** What an iteration over a header map yields, in the order it happens to visit the entries. */
  type Walk = seq<(Bytes, Bytes)>

  /** The iteration visits every entry of the map once. */
  ghost predicate Walks(w: Walk, m: map<Bytes, Bytes>) {
    && (forall i | 0 <= i < |w| :: w[i].0 in m && m[w[i].0] == w[i].1)
    && (forall i, j | 0 <= i < j < |w| :: w[i].0 != w[j].0)
    && (forall k <- m :: (k, m[k]) in w)
  }

  /** What is left of an iteration after the entry at j. */
  function Without(w: Walk, j: nat): Walk
    requires j < |w|
  {
    w[..j] + w[j + 1..]
  }

  lemma WalksWithout(w: Walk, m: map<Bytes, Bytes>, j: nat)
    requires Walks(w, m) && j < |w|
    ensures Walks(Without(w, j), m - {w[j].0})
  {
    var rest, m' := Without(w, j), m - {w[j].0};
    forall k <- m' ensures (k, m'[k]) in rest {
      var i :| 0 <= i < |w| && w[i] == (k, m[k]);
      assert rest[if i < j then i else i - 1] == w[i];
    }
  }

  lemma {:induction false} WalkLength(w: Walk, m: map<Bytes, Bytes>)
    requires Walks(w, m)
    ensures |w| == |m|
    decreases |w|
  {
    if w == [] {
      assert m == map[];
    } else {
      WalksWithout(w, m, 0);
      WalkLength(Without(w, 0), m - {w[0].0});
      assert m.Keys == (m - {w[0].0}).Keys + {w[0].0};
    }
  }

  function Collect(w: Walk, got: map<Bytes, Bytes>): map<Bytes, Bytes> {
    if w == [] then got else Collect(w[1..], got[w[0].0 := w[0].1])
  }

  lemma MergeRest(got: map<Bytes, Bytes>, m: map<Bytes, Bytes>, k: Bytes)
    requires k in m
    ensures got[k := m[k]] + (m - {k}) == got + m
  {
  }

  lemma {:induction false} CollectWalk(w: Walk, m: map<Bytes, Bytes>, got: map<Bytes, Bytes>)
    requires Walks(w, m)
    ensures Collect(w, got) == got + m
    decreases |w|
  {
    if w == [] {
      WalkLength(w, m);
    } else {
      var k := w[0].0;
      assert k in m && m[k] == w[0].1;
      WalksWithout(w, m, 0);
      assert Without(w, 0) == w[1..];
      hide Walks;
      CollectWalk(w[1..], m - {k}, got[k := m[k]]);
      MergeRest(got, m, k);
    }
  }
}
