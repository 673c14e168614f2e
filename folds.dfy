/** Maps built by storing a sequence of key/value pairs one after the other, as a loop does. */
module Folds {

  /** The map after storing each pair of `ps` in turn, later pairs overwriting earlier ones. */
  function Fold<K, V>(ps: seq<(K, V)>): map<K, V> {
    if ps == [] then map[]
    else Fold(ps[..|ps| - 1])[ps[|ps| - 1].0 := ps[|ps| - 1].1]
  }

  predicate KeysDistinct<K(==), V>(ps: seq<(K, V)>) {
    forall i, j :: 0 <= i < j < |ps| ==> ps[i].0 != ps[j].0
  }

  /** The fold of one more element of `ps` is the previous fold with that pair stored. */
  lemma FoldStep<K, V>(ps: seq<(K, V)>, k: nat)
    requires k < |ps|
    ensures Fold(ps[..k + 1]) == Fold(ps[..k])[ps[k].0 := ps[k].1]
  {
    assert ps[..k + 1][..k] == ps[..k];
  }

  /** Every key of the fold comes from some pair. */
  lemma {:induction false} FoldKeys<K, V>(ps: seq<(K, V)>)
    ensures forall k :: k in Fold(ps) ==> exists i :: 0 <= i < |ps| && ps[i].0 == k
  {
    if ps != [] {
      var n := |ps| - 1;
      FoldKeys(ps[..n]);
      forall k | k in Fold(ps) ensures exists i :: 0 <= i < |ps| && ps[i].0 == k {
        if k != ps[n].0 {
          assert k in Fold(ps[..n]);
          var i :| 0 <= i < n && ps[..n][i].0 == k;
          assert ps[i].0 == k;
        }
      }
    }
  }

  /** When no two pairs share a key, the fold maps each pair's key to that pair's value. */
  lemma {:induction false} FoldAt<K, V>(ps: seq<(K, V)>, i: nat)
    requires KeysDistinct(ps) && i < |ps|
    ensures ps[i].0 in Fold(ps) && Fold(ps)[ps[i].0] == ps[i].1
  {
    var n := |ps| - 1;
    if i < n {
      var init := ps[..n];
      forall a, b | 0 <= a < b < n ensures init[a].0 != init[b].0 {
        assert init[a] == ps[a] && init[b] == ps[b];
      }
      FoldAt(init, i);
      assert init[i] == ps[i];
      assert ps[i].0 != ps[n].0;
    }
  }
}
