/** Balance maps keyed by address, where a missing key reads as 0: the
    shape of every Solidity `mapping(address => uint256)` in the model. */
module Ledger {
  import opened Config

  type Balances = map<Address, nat>

  /** The value stored for `a`, or 0 when nothing is stored. */
  function Get(m: Balances, a: Address): nat
  {
    if a in m then m[a] else 0
  }

  /** Adds `v` to the entry of `a` and touches no other entry. */
  function Credit(m: Balances, a: Address, v: nat): (r: Balances)
    ensures Get(r, a) == Get(m, a) + v
    ensures forall b :: b != a ==> Get(r, b) == Get(m, b)
    ensures r.Keys == m.Keys + {a}
  {
    m[a := Get(m, a) + v]
  }

  /** Takes `v` from the entry of `a`, which must hold at least `v`, and
      touches no other entry. */
  function Debit(m: Balances, a: Address, v: nat): (r: Balances)
    requires v <= Get(m, a)
    ensures Get(r, a) + v == Get(m, a)
    ensures forall b :: b != a ==> Get(r, b) == Get(m, b)
  {
    m[a := Get(m, a) - v]
  }

  /** Stores `v` for every address in `keys`, one after another. */
  function Assign(m: Balances, keys: seq<Address>, v: nat): (r: Balances)
    ensures forall a :: Get(r, a) == if a in keys then v else Get(m, a)
    ensures r.Keys == m.Keys + set a | a in keys
  {
    if keys == [] then m
    else
      var init := keys[..|keys| - 1];
      assert forall a :: a in keys <==> a in init || a == keys[|keys| - 1];
      Assign(m, init, v)[keys[|keys| - 1] := v]
  }
}
