/**
 * Building a dictionary from a list of key/value pairs, as the `Map`
 * constructor does: every key of the list is bound, and when a key occurs
 * more than once the last pair wins. `R.fromPairs` does the same on a plain
 * object except for the key `__proto__`, which it never binds; the webhook
 * maps take that key out afterwards (`Dispatch.AttributeMap`).
 */
module Pairs {

  function FromPairs<K(==, !new), V>(ps: seq<(K, V)>): (m: map<K, V>)
    ensures forall k :: k in m <==> exists i :: 0 <= i < |ps| && ps[i].0 == k
  {
    if ps == [] then map[]
    else
      var m := FromPairs(ps[..|ps| - 1]);
      assert forall i :: 0 <= i < |ps| - 1 ==> ps[..|ps| - 1][i] == ps[i];
      m[ps[|ps| - 1].0 := ps[|ps| - 1].1]
  }

  /** A key is bound to the value of its last occurrence in the list. */
  lemma {:induction false} FromPairsLastWins<K(!new), V>(ps: seq<(K, V)>, i: nat)
    requires i < |ps|
    requires forall j :: i < j < |ps| ==> ps[j].0 != ps[i].0
    ensures ps[i].0 in FromPairs(ps) && FromPairs(ps)[ps[i].0] == ps[i].1
  {
    if i < |ps| - 1 {
      var prefix := ps[..|ps| - 1];
      assert prefix[i] == ps[i];
      FromPairsLastWins(prefix, i);
    }
  }

  /** Pairs appended after a key's last occurrence do not change its value. */
  lemma {:induction false} FromPairsKeepsUnshadowed<K(!new), V>(ps: seq<(K, V)>, qs: seq<(K, V)>, k: K)
    requires forall j :: 0 <= j < |qs| ==> qs[j].0 != k
    ensures k in FromPairs(ps + qs) <==> k in FromPairs(ps)
    ensures k in FromPairs(ps) ==> FromPairs(ps + qs)[k] == FromPairs(ps)[k]
  {
    if qs != [] {
      var front := qs[..|qs| - 1];
      assert (ps + qs)[..|ps + qs| - 1] == ps + front;
      FromPairsKeepsUnshadowed(ps, front, k);
    } else {
      assert ps + qs == ps;
    }
  }
}
