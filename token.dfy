/** The QUANT token as far as the crowdsale relies on it: an ownable,
    mintable ERC-20 ledger with allowances. */
module TokenLedger {
  import opened Config
  import opened Ledger

  const TokenName: string := "Quantler"
  const TokenSymbol: string := "QUANT"

  class QuantToken {
    const name: string
    const symbol: string
    var owner: Address
    var balances: Balances
    var allowed: map<(Address, Address), nat>
    var totalSupply: nat

    /** A freshly deployed token: owned by its deployer, nothing minted. */
    constructor (deployer: Address)
      ensures name == TokenName && symbol == TokenSymbol
      ensures owner == deployer && balances == map[] && allowed == map[] && totalSupply == 0
    {
      name := TokenName;
      symbol := TokenSymbol;
      owner := deployer;
      balances := map[];
      allowed := map[];
      totalSupply := 0;
    }

    /** `balanceOf`: an address never credited reads 0. */
    function BalanceOf(a: Address): (n: nat)
      reads this
      ensures a !in balances ==> n == 0
    {
      Get(balances, a)
    }

    /** What `spender` may still move out of `holder`'s balance. */
    function Allowance(holder: Address, spender: Address): (n: nat)
      reads this
      ensures (holder, spender) !in allowed ==> n == 0
    {
      if (holder, spender) in allowed then allowed[(holder, spender)] else 0
    }

    /** Hands mint authority to `newOwner`; only the current owner may, and
        never to the zero address. The former owner keeps no right. */
    method TransferOwnership(caller: Address, newOwner: Address) returns (ok: bool)
      modifies this`owner
      ensures ok <==> caller == old(owner) && newOwner != ZeroAddress
      ensures owner == if ok then newOwner else old(owner)
    {
      ok := caller == owner && newOwner != ZeroAddress;
      if ok {
        owner := newOwner;
      }
    }

    /** Creates `amount` new tokens for `to`; reverts unless the caller is
        the owner. */
    method Mint(caller: Address, to: Address, amount: nat) returns (ok: bool)
      modifies this`balances, this`totalSupply
      ensures ok <==> caller == owner
      ensures balances == if ok then Credit(old(balances), to, amount) else old(balances)
      ensures totalSupply == if ok then old(totalSupply) + amount else old(totalSupply)
    {
      ok := caller == owner;
      if ok {
        balances := Credit(balances, to, amount);
        totalSupply := totalSupply + amount;
      }
    }

    /** Lets `spender` move up to `value` of the caller's tokens, replacing
        any earlier allowance. */
    method Approve(caller: Address, spender: Address, value: nat) returns (ok: bool)
      modifies this`allowed
      ensures ok
      ensures allowed == old(allowed)[(caller, spender) := value]
      ensures Allowance(caller, spender) == value
    {
      allowed := allowed[(caller, spender) := value];
      ok := true;
    }

    /** The caller, as spender, moves `value` tokens from `from` to `to`.
        Reverts when `to` is the zero address or when `from`'s balance or
        the caller's allowance is short; otherwise `from` loses exactly
        `value`, `to` gains exactly `value` and the allowance shrinks by it. */
    method TransferFrom(caller: Address, from: Address, to: Address, value: nat) returns (ok: bool)
      modifies this`balances, this`allowed
      ensures ok <==> to != ZeroAddress && value <= old(BalanceOf(from)) && value <= old(Allowance(from, caller))
      ensures balances == if ok then Credit(Debit(old(balances), from, value), to, value) else old(balances)
      ensures allowed == if ok then old(allowed)[(from, caller) := old(Allowance(from, caller)) - value] else old(allowed)
      ensures ok && from != to ==>
                && BalanceOf(from) + value == old(BalanceOf(from))
                && BalanceOf(to) == old(BalanceOf(to)) + value
      ensures forall a :: a != from && a != to ==> BalanceOf(a) == old(BalanceOf(a))
    {
      ok := to != ZeroAddress && value <= BalanceOf(from) && value <= Allowance(from, caller);
      if ok {
        balances := Credit(Debit(balances, from, value), to, value);
        allowed := allowed[(from, caller) := Allowance(from, caller) - value];
      }
    }
  }
}
