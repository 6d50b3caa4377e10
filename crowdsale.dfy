/** The QUANT crowdsale: per-address caps, affiliate links, pending
    allocations and the one-shot settlement into real tokens. Every method
    is one transaction; a revert changes nothing. */
module Sale {
  import opened Config
  import opened Ledger
  import opened Pricing
  import opened Allocation
  import opened TokenLedger

  datatype Error =
    | Unauthorized
    | SaleNotOpen
    | PresaleWindowClosed
    | InvalidPurchase
    | CapExceeded
    | SaleNotEnded
    | AlreadyWithdrawn
    | MintRefused

  datatype Outcome = Done | Revert(error: Error)

  class Crowdsale {
    const config: CampaignConfig
    /** The crowdsale's own address, the one that must own the token. */
    const address: Address
    const token: QuantToken
    /** Per-address contribution cap (the whitelist). */
    var cap: Balances
    /** Per-address wei accepted so far. */
    var contributed: Balances
    /** Investor to affiliate. */
    var affiliates: map<Address, Address>
    /** Allocated tokens not yet issued. */
    var balances: Balances
    /** Every address that ever had an allocation, in order of first credit. */
    var holders: seq<Address>
    var weiRaised: nat
    var presaleOpen: bool
    var withdrawn: bool

    ghost predicate Valid()
      reads this`holders, this`balances
    {
      && Distinct(holders)
      && forall a :: a in balances <==> a in holders
    }

    constructor (config: CampaignConfig, address: Address, token: QuantToken)
      ensures this.config == config && this.address == address && this.token == token
      ensures Valid()
      ensures cap == map[] && contributed == map[] && affiliates == map[]
      ensures balances == map[] && holders == []
      ensures weiRaised == 0 && !presaleOpen && !withdrawn
    {
      this.config := config;
      this.address := address;
      this.token := token;
      cap := map[];
      contributed := map[];
      affiliates := map[];
      balances := map[];
      holders := [];
      weiRaised := 0;
      presaleOpen := false;
      withdrawn := false;
    }

    /** `getUserCap`: an address never given a cap reads 0. */
    function GetUserCap(user: Address): (n: nat)
      reads this`cap
      ensures user !in cap ==> n == 0
    {
      Get(cap, user)
    }

    /** `getUserContribution`: an address that never bought reads 0. */
    function GetUserContribution(user: Address): (n: nat)
      reads this`contributed
      ensures user !in contributed ==> n == 0
    {
      Get(contributed, user)
    }

    /** `getAffiliate`: the zero address when no link was made. */
    function GetAffiliate(investor: Address): (a: Address)
      reads this`affiliates
      ensures investor !in affiliates ==> a == ZeroAddress
    {
      if investor in affiliates then affiliates[investor] else ZeroAddress
    }

    /** `balances`: tokens allocated but not yet issued. */
    function AllocatedBalance(a: Address): (n: nat)
      reads this`balances
      ensures a !in balances ==> n == 0
    {
      Get(balances, a)
    }

    /** `balanceOf`: the real token balance, read through to the token. */
    function BalanceOf(a: Address): (n: nat)
      reads token
      ensures a !in token.balances ==> n == 0
    {
      token.BalanceOf(a)
    }

    function PhaseAt(now: nat): Phase
      reads this`presaleOpen, this`weiRaised
    {
      CurrentPhase(config, presaleOpen, now, weiRaised)
    }

    /** `setUserCap`: owner only; replaces any earlier cap and leaves the
        contribution alone. */
    method SetUserCap(caller: Address, user: Address, amount: nat) returns (r: Outcome)
      modifies this`cap
      ensures r == if caller == config.owner then Done else Revert(Unauthorized)
      ensures cap == if r.Done? then old(cap)[user := amount] else old(cap)
      ensures r.Done? ==> GetUserCap(user) == amount
    {
      if caller != config.owner {
        return Revert(Unauthorized);
      }
      cap := cap[user := amount];
      r := Done;
    }

    /** `setGroupCap`: owner only; gives every listed address the same cap,
        or reverts and gives none. */
    method SetGroupCap(caller: Address, users: seq<Address>, amount: nat) returns (r: Outcome)
      modifies this`cap
      ensures r == if caller == config.owner then Done else Revert(Unauthorized)
      ensures cap == if r.Done? then Assign(old(cap), users, amount) else old(cap)
      ensures forall u :: u in users ==> GetUserCap(u) == if r.Done? then amount else old(GetUserCap(u))
    {
      if caller != config.owner {
        return Revert(Unauthorized);
      }
      var i := 0;
      while i < |users|
        invariant 0 <= i <= |users|
        invariant cap == Assign(old(cap), users[..i], amount)
      {
        assert users[..i + 1][..i] == users[..i];
        cap := cap[users[i] := amount];
        i := i + 1;
      }
      assert users[..|users|] == users;
      r := Done;
    }

    /** `addAffiliate`: owner only; links `investor` to `affiliate`,
        replacing any earlier link. Note the argument order. */
    method AddAffiliate(caller: Address, affiliate: Address, investor: Address) returns (r: Outcome)
      modifies this`affiliates
      ensures r == if caller == config.owner then Done else Revert(Unauthorized)
      ensures affiliates == if r.Done? then old(affiliates)[investor := affiliate] else old(affiliates)
      ensures r.Done? ==> GetAffiliate(investor) == affiliate
    {
      if caller != config.owner {
        return Revert(Unauthorized);
      }
      affiliates := affiliates[investor := affiliate];
      r := Done;
    }

    /** `openPresale`: owner only, and only before the opening time. */
    method OpenPresale(caller: Address, now: nat) returns (r: Outcome)
      modifies this`presaleOpen
      ensures r == if caller != config.owner then Revert(Unauthorized)
                   else if now >= config.openingTime then Revert(PresaleWindowClosed)
                   else Done
      ensures presaleOpen == (old(presaleOpen) || r.Done?)
      ensures r.Done? ==> PhaseAt(now) == PreSale
    {
      if caller != config.owner {
        return Revert(Unauthorized);
      }
      if now >= config.openingTime {
        return Revert(PresaleWindowClosed);
      }
      presaleOpen := true;
      r := Done;
    }

    /** Credits `v` pending tokens to `a`, recording `a` as a holder the
        first time. */
    method Allot(a: Address, v: nat)
      requires Valid()
      modifies this`balances, this`holders
      ensures Valid()
      ensures balances == Credit(old(balances), a, v)
      ensures holders == if a in old(balances) then old(holders) else old(holders) + [a]
    {
      if a !in balances {
        holders := holders + [a];
      }
      balances := Credit(balances, a, v);
    }

    /** Allocates a purchase worth `base` tokens to `investor`, sharing it
        with the investor's affiliate when there is one. */
    method AllotPurchase(investor: Address, base: nat)
      requires Valid()
      modifies this`balances, this`holders
      ensures Valid()
      ensures balances == Allocate(old(balances), investor, GetAffiliate(investor), base)
      ensures holders == old(holders) + NewHolders(old(balances), investor, GetAffiliate(investor))
    {
      var affiliate := GetAffiliate(investor);
      if affiliate == ZeroAddress {
        Allot(investor, base);
      } else {
        var s := AffiliateSplit(base);
        Allot(investor, s.investor);
        Allot(affiliate, s.affiliate);
      }
    }

    /** `buyTokens`: a contribution of `amount` wei for `beneficiary` at
        time `now`. Reverts outside an open phase or once the sale has been
        settled, for the zero address or
        a zero amount, and when it would take the beneficiary's
        contribution above its cap (all or nothing). Otherwise the
        contribution and the amount raised grow by `amount`, and
        `amount` times the phase's rate is allocated, split 105/5 with the
        beneficiary's affiliate when there is one. */
    method BuyTokens(beneficiary: Address, amount: nat, now: nat) returns (r: Outcome)
      requires Valid()
      modifies this`contributed, this`balances, this`holders, this`weiRaised
      ensures Valid()
      ensures var phase := CurrentPhase(config, presaleOpen, now, old(weiRaised));
              && (r == Revert(SaleNotOpen) <==> !IsOpen(phase) || withdrawn)
              && (r == Revert(InvalidPurchase) <==> IsOpen(phase) && !withdrawn && (beneficiary == ZeroAddress || amount == 0))
              && (r == Revert(CapExceeded) <==>
                    IsOpen(phase) && !withdrawn && beneficiary != ZeroAddress && amount > 0 &&
                    old(GetUserContribution(beneficiary)) + amount > GetUserCap(beneficiary))
              && (r.Done? <==>
                    IsOpen(phase) && !withdrawn && beneficiary != ZeroAddress && amount > 0 &&
                    old(GetUserContribution(beneficiary)) + amount <= GetUserCap(beneficiary))
              && (r.Done? ==>
                    && contributed == Credit(old(contributed), beneficiary, amount)
                    && weiRaised == old(weiRaised) + amount
                    && balances == Allocate(old(balances), beneficiary, GetAffiliate(beneficiary), amount * Rate(config, phase))
                    && holders == old(holders) + NewHolders(old(balances), beneficiary, GetAffiliate(beneficiary)))
      ensures r.Revert? ==>
                contributed == old(contributed) && balances == old(balances) &&
                holders == old(holders) && weiRaised == old(weiRaised)
      ensures r.Done? ==> GetUserContribution(beneficiary) <= GetUserCap(beneficiary)
    {
      var phase := PhaseAt(now);
      if !IsOpen(phase) || withdrawn {
        return Revert(SaleNotOpen);
      }
      if beneficiary == ZeroAddress || amount == 0 {
        return Revert(InvalidPurchase);
      }
      if GetUserContribution(beneficiary) + amount > GetUserCap(beneficiary) {
        return Revert(CapExceeded);
      }
      AllotPurchase(beneficiary, amount * Rate(config, phase));
      contributed := Credit(contributed, beneficiary, amount);
      weiRaised := weiRaised + amount;
      r := Done;
    }

    /** The first half of the settlement: mints every holder's pending
        balance, in holder order, and zeroes it; returns the total minted. */
    method MintPending() returns (total: nat)
      requires Valid() && token.owner == address
      modifies this`balances, token`balances, token`totalSupply
      ensures Valid()
      ensures total == Total(holders, old(balances))
      ensures token.balances == MintAll(old(token.balances), holders, old(balances))
      ensures token.totalSupply == old(token.totalSupply) + total
      ensures token.owner == old(token.owner) && token.allowed == old(token.allowed)
      ensures forall a :: AllocatedBalance(a) == 0
    {
      ghost var alloc := balances;
      ghost var ledger := token.balances;
      total := 0;
      var i := 0;
      while i < |holders|
        invariant 0 <= i <= |holders|
        invariant token.balances == MintAll(ledger, holders[..i], alloc)
        invariant total == Total(holders[..i], alloc)
        invariant token.totalSupply == old(token.totalSupply) + total
        invariant balances == Assign(alloc, holders[..i], 0)
      {
        SweepStep(ledger, holders, alloc, i);
        var v := MintHolder(holders[i]);
        total := total + v;
        i := i + 1;
      }
      assert holders[..|holders|] == holders;
      ZeroedAllocation(holders, alloc, balances);
    }

    /** One step of the settlement sweep: mints `h`'s pending balance to
        `h` and zeroes that balance; returns the amount minted. */
    method MintHolder(h: Address) returns (v: nat)
      requires token.owner == address
      modifies this`balances, token`balances, token`totalSupply
      ensures v == Get(old(balances), h)
      ensures balances == old(balances)[h := 0]
      ensures token.balances == Credit(old(token.balances), h, v)
      ensures token.totalSupply == old(token.totalSupply) + v
    {
      v := Get(balances, h);
      var ok := token.Mint(address, h, v);
      balances := balances[h := 0];
    }

    /** The second half of the settlement: mints the reserve spread of
        `total` to the four reserve recipients. */
    method MintReserves(total: nat)
      requires token.owner == address
      modifies token`balances, token`totalSupply
      ensures var s := ReserveSpread(total);
              token.balances == Credit(Credit(Credit(Credit(old(token.balances),
                                  config.companyReserve, s.company), config.miningPool, s.mining),
                                  config.icoBounty, s.ico), config.gitHubBounty, s.gitHub)
      ensures token.totalSupply == old(token.totalSupply) + ReserveSpread(total).Reserved()
      ensures token.owner == old(token.owner) && token.allowed == old(token.allowed)
    {
      var s := ReserveSpread(total);
      var ok := token.Mint(address, config.companyReserve, s.company);
      ok := token.Mint(address, config.miningPool, s.mining);
      ok := token.Mint(address, config.icoBounty, s.ico);
      ok := token.Mint(address, config.gitHubBounty, s.gitHub);
    }

    /** The settlement proper: the sweep, then the reserve spread of the
        total swept, then the one-shot flag. */
    method Settlement()
      requires Valid() && token.owner == address
      modifies this`balances, this`withdrawn, token`balances, token`totalSupply
      ensures Valid() && withdrawn
      ensures token.balances == Settle(old(token.balances), holders, old(balances), config)
      ensures token.totalSupply == old(token.totalSupply) + SettledSupply(holders, old(balances))
      ensures forall a :: AllocatedBalance(a) == 0
    {
      var total := MintPending();
      MintReserves(total);
      withdrawn := true;
    }

    /** `withdrawAllTokens` at time `now`: owner only, only after the
        closing time, and only once. Mints every
        holder's pending balance, zeroes it, then mints the reserve spread
        of the total to the four reserve recipients. Reverts, changing
        nothing, when the token does not accept the crowdsale's mints. */
    method WithdrawAllTokens(caller: Address, now: nat) returns (r: Outcome)
      requires Valid()
      modifies this`balances, this`withdrawn, token`balances, token`totalSupply
      ensures Valid()
      ensures r == if caller != config.owner then Revert(Unauthorized)
                   else if now <= config.closingTime then Revert(SaleNotEnded)
                   else if old(withdrawn) then Revert(AlreadyWithdrawn)
                   else if old(token.owner) != address then Revert(MintRefused)
                   else Done
      ensures r.Revert? ==> balances == old(balances) && withdrawn == old(withdrawn) && unchanged(token)
      ensures r.Done? ==>
                && withdrawn
                && token.balances == Settle(old(token.balances), holders, old(balances), config)
                && token.totalSupply == old(token.totalSupply) + SettledSupply(holders, old(balances))
                && token.owner == old(token.owner)
                && token.allowed == old(token.allowed)
                && forall a :: AllocatedBalance(a) == 0
    {
      if caller != config.owner {
        return Revert(Unauthorized);
      }
      if now <= config.closingTime {
        return Revert(SaleNotEnded);
      }
      if withdrawn {
        return Revert(AlreadyWithdrawn);
      }
      if token.owner != address {
        return Revert(MintRefused);
      }
      Settlement();
      r := Done;
    }
  }
}
