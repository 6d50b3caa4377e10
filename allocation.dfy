/** Pending allocations and what settlement makes of them: how one purchase
    is credited, how the one-shot sweep mints every holder's pending
    balance, and how the reserve spread is added on top. */
module Allocation {
  import opened Config
  import opened Ledger
  import opened Pricing

  /** The pending balances after a purchase worth `base` tokens for
      `investor`, whose affiliate is `affiliate` (the zero address when
      there is none). */
  function Allocate(m: Balances, investor: Address, affiliate: Address, base: nat): (r: Balances)
    ensures affiliate == ZeroAddress ==> Get(r, investor) == Get(m, investor) + base
    ensures affiliate != ZeroAddress && affiliate != investor ==>
              && Get(r, investor) == Get(m, investor) + AffiliateSplit(base).investor
              && Get(r, affiliate) == Get(m, affiliate) + AffiliateSplit(base).affiliate
    ensures forall a :: a != investor && a != affiliate ==> Get(r, a) == Get(m, a)
    ensures r.Keys == m.Keys + {investor} + (if affiliate == ZeroAddress then {} else {affiliate})
  {
    if affiliate == ZeroAddress then Credit(m, investor, base)
    else
      var s := AffiliateSplit(base);
      Credit(Credit(m, investor, s.investor), affiliate, s.affiliate)
  }

  /** The addresses a purchase adds to the holder list, in the order they
      are first credited: the investor, then the affiliate, each only if it
      held no pending balance before. */
  function NewHolders(m: Balances, investor: Address, affiliate: Address): seq<Address>
  {
    (if investor in m then [] else [investor]) +
    (if affiliate == ZeroAddress || affiliate == investor || affiliate in m then [] else [affiliate])
  }

  /** The token ledger after minting, holder by holder, each holder's
      pending balance in `alloc`. */
  function MintAll(ledger: Balances, holders: seq<Address>, alloc: Balances): (r: Balances)
    ensures forall a :: a !in holders ==> Get(r, a) == Get(ledger, a)
    ensures forall a :: Get(ledger, a) <= Get(r, a)
  {
    if holders == [] then ledger
    else
      var last := holders[|holders| - 1];
      Credit(MintAll(ledger, holders[..|holders| - 1], alloc), last, Get(alloc, last))
  }

  /** The sum of the pending balances of `holders`. */
  function Total(holders: seq<Address>, alloc: Balances): nat
  {
    if holders == [] then 0
    else Total(holders[..|holders| - 1], alloc) + Get(alloc, holders[|holders| - 1])
  }

  /** The token ledger after the whole settlement: every holder is minted
      its pending balance, then the reserve spread of the total pending
      amount is minted to the four reserve recipients. */
  function Settle(ledger: Balances, holders: seq<Address>, alloc: Balances, c: CampaignConfig): (r: Balances)
    ensures forall a :: a !in holders && a !in Reserves(c) ==> Get(r, a) == Get(ledger, a)
    ensures forall a :: Get(ledger, a) <= Get(r, a)
  {
    var s := ReserveSpread(Total(holders, alloc));
    var minted := MintAll(ledger, holders, alloc);
    Credit(Credit(Credit(Credit(minted, c.companyReserve, s.company),
                         c.miningPool, s.mining),
                  c.icoBounty, s.ico),
           c.gitHubBounty, s.gitHub)
  }

  /** How much the settlement adds to the token's total supply. */
  function SettledSupply(holders: seq<Address>, alloc: Balances): nat
  {
    var t := Total(holders, alloc);
    t + ReserveSpread(t).Reserved()
  }

  lemma DistinctInit(s: seq<Address>)
    requires Distinct(s) && s != []
    ensures Distinct(s[..|s| - 1]) && s[|s| - 1] !in s[..|s| - 1]
  {
  }

  /** Minting to a list without repetitions adds to each address exactly
      its own pending balance if it is listed, and nothing otherwise. */
  lemma {:induction false} MintAllAt(ledger: Balances, holders: seq<Address>, alloc: Balances, a: Address)
    requires Distinct(holders)
    ensures Get(MintAll(ledger, holders, alloc), a) == Get(ledger, a) + (if a in holders then Get(alloc, a) else 0)
  {
    if holders != [] {
      var init := holders[..|holders| - 1];
      DistinctInit(holders);
      MintAllAt(ledger, init, alloc, a);
      assert a in holders <==> a in init || a == holders[|holders| - 1];
    }
  }

  /** A holder that is not a reserve recipient ends with its previous
      token balance plus exactly its pending balance. */
  lemma SettleCreditsHolder(ledger: Balances, holders: seq<Address>, alloc: Balances, c: CampaignConfig, a: Address)
    requires Distinct(holders) && a in holders && a !in Reserves(c)
    ensures Get(Settle(ledger, holders, alloc, c), a) == Get(ledger, a) + Get(alloc, a)
  {
    MintAllAt(ledger, holders, alloc, a);
  }

  /** An address that is neither a holder nor a reserve recipient keeps its
      token balance through the settlement. */
  lemma SettleLeavesOthers(ledger: Balances, holders: seq<Address>, alloc: Balances, c: CampaignConfig, a: Address)
    requires Distinct(holders) && a !in holders && a !in Reserves(c)
    ensures Get(Settle(ledger, holders, alloc, c), a) == Get(ledger, a)
  {
    MintAllAt(ledger, holders, alloc, a);
  }

  /** When the four reserve recipients are distinct and none of them holds
      a pending balance, each receives exactly its share of the key
      computed from the total pending amount. */
  lemma SettleCreditsReserves(ledger: Balances, holders: seq<Address>, alloc: Balances, c: CampaignConfig)
    requires Distinct(holders) && Distinct(Reserves(c))
    requires forall h :: h in holders ==> h !in Reserves(c)
    ensures var s := ReserveSpread(Total(holders, alloc));
            var r := Settle(ledger, holders, alloc, c);
            && Get(r, c.companyReserve) == Get(ledger, c.companyReserve) + s.company
            && Get(r, c.miningPool) == Get(ledger, c.miningPool) + s.mining
            && Get(r, c.icoBounty) == Get(ledger, c.icoBounty) + s.ico
            && Get(r, c.gitHubBounty) == Get(ledger, c.gitHubBounty) + s.gitHub
  {
    var rs := Reserves(c);
    assert rs[0] != rs[1] && rs[0] != rs[2] && rs[0] != rs[3];
    assert rs[1] != rs[2] && rs[1] != rs[3] && rs[2] != rs[3];
    MintAllAt(ledger, holders, alloc, c.companyReserve);
    MintAllAt(ledger, holders, alloc, c.miningPool);
    MintAllAt(ledger, holders, alloc, c.icoBounty);
    MintAllAt(ledger, holders, alloc, c.gitHubBounty);
  }

  /** A reserve recipient that also contributed is minted its pending
      balance and the company share on top: with any positive pending
      total it ends above its pending balance. */
  lemma ReserveContributorGetsMore(ledger: Balances, holders: seq<Address>, alloc: Balances, c: CampaignConfig)
    requires Distinct(holders) && c.companyReserve in holders
    requires Total(holders, alloc) > 0
    ensures Get(Settle(ledger, holders, alloc, c), c.companyReserve) > Get(ledger, c.companyReserve) + Get(alloc, c.companyReserve)
  {
    var t := Total(holders, alloc);
    var s := ReserveSpread(t);
    assert s.key * 30 <= t * 100 < s.key * 30 + 30;
    assert s.company * 100 <= s.key * 50 < s.company * 100 + 100;
    MintAllAt(ledger, holders, alloc, c.companyReserve);
  }

  /** One step of the settlement sweep over a repetition-free holder list:
      the next holder still has its full pending balance, and minting it
      and zeroing it extends the minted ledger, the total and the zeroed
      allocation by exactly that holder. */
  lemma SweepStep(ledger: Balances, holders: seq<Address>, alloc: Balances, i: nat)
    requires Distinct(holders) && i < |holders|
    ensures var h := holders[i];
            && Get(Assign(alloc, holders[..i], 0), h) == Get(alloc, h)
            && MintAll(ledger, holders[..i + 1], alloc) == Credit(MintAll(ledger, holders[..i], alloc), h, Get(alloc, h))
            && Total(holders[..i + 1], alloc) == Total(holders[..i], alloc) + Get(alloc, h)
            && Assign(alloc, holders[..i + 1], 0) == Assign(alloc, holders[..i], 0)[h := 0]
  {
    var h := holders[i];
    var done := holders[..i];
    assert holders[..i + 1] == done + [h];
    assert (done + [h])[..i] == done;
    assert h !in done;
  }

  /** Setting every holder's pending balance to 0 keeps exactly the
      holders as keys and leaves nothing pending. */
  lemma ZeroedAllocation(holders: seq<Address>, alloc: Balances, zeroed: Balances)
    requires forall a :: a in alloc <==> a in holders
    requires zeroed == Assign(alloc, holders, 0)
    ensures forall a :: a in zeroed <==> a in holders
    ensures forall a :: Get(zeroed, a) == 0
  {
  }

  /** With one holder the total pending amount is that holder's balance. */
  lemma TotalSingle(h: Address, alloc: Balances)
    ensures Total([h], alloc) == Get(alloc, h)
  {
    assert [h][..0] == [];
  }
}
