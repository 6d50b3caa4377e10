/** Deployment of the token and the crowdsale, and the end-to-end
    behaviour the test suite observes, each stated over a fresh deployment
    with the default campaign (or the suite's override of it). */
module Scenarios {
  import opened Config
  import opened Ledger
  import opened Pricing
  import opened Allocation
  import opened TokenLedger
  import opened Sale

  /** The suite's accounts: the first six are owner, wallet and the four
      reserve recipients, all different and none the zero address. */
  predicate TestAccounts(accounts: seq<Address>)
  {
    |accounts| >= 6 && Distinct(accounts[..6]) && ZeroAddress !in accounts[..6]
  }

  /** An address that plays none of the six roles. */
  predicate Outsider(accounts: seq<Address>, a: Address)
    requires |accounts| >= 6
  {
    a != ZeroAddress && a !in accounts[..6]
  }

  /** The largest value of the suite's C# `int`. */
  const Int32Max: int := 0x7FFF_FFFF

  /** The suite's explicit `(int)` conversion of a big-integer read: the
      value itself when it fits, otherwise an overflow exception (`None`). */
  function CheckedInt32(n: nat): (r: Option<int>)
    ensures r.Some? <==> n <= Int32Max
    ensures r.Some? ==> r.value == n
  {
    if n <= Int32Max then Some(n) else None
  }

  lemma DefaultRoles(now: nat, accounts: seq<Address>)
    requires TestAccounts(accounts)
    ensures var c := DefaultConfig(now, accounts);
            && c.owner == accounts[0] && c.owner != ZeroAddress
            && Reserves(c) == accounts[2..6]
            && Distinct(Reserves(c))
            && c.companyReserve != c.miningPool && c.companyReserve != c.icoBounty
            && c.companyReserve != c.gitHubBounty && c.miningPool != c.icoBounty
            && c.miningPool != c.gitHubBounty && c.icoBounty != c.gitHubBounty
            && c.owner !in Reserves(c)
  {
    var c := DefaultConfig(now, accounts);
    var r := accounts[..6];
    assert Roles(c) == r;
    assert Reserves(c) == Roles(c)[2..];
    assert r[0] != r[2] && r[0] != r[3] && r[0] != r[4] && r[0] != r[5];
    assert r[2] != r[3] && r[2] != r[4] && r[2] != r[5];
    assert r[3] != r[4] && r[3] != r[5] && r[4] != r[5];
  }

  /** Deploys the token from the campaign owner's account, deploys the
      crowdsale at `saleAddress`, and hands the token's ownership to it. */
  method Deploy(config: CampaignConfig, saleAddress: Address) returns (token: QuantToken, sale: Crowdsale)
    requires saleAddress != ZeroAddress
    ensures fresh(token) && fresh(sale)
    ensures sale.token == token && sale.config == config && sale.address == saleAddress
    ensures sale.Valid()
    ensures sale.cap == map[] && sale.contributed == map[] && sale.affiliates == map[]
    ensures sale.balances == map[] && sale.holders == []
    ensures sale.weiRaised == 0 && !sale.presaleOpen && !sale.withdrawn
    ensures token.owner == saleAddress && token.totalSupply == 0
    ensures token.balances == map[] && token.allowed == map[]
    ensures token.name == TokenName && token.symbol == TokenSymbol
  {
    token := new QuantToken(config.owner);
    sale := new Crowdsale(config, saleAddress, token);
    var ok := token.TransferOwnership(config.owner, saleAddress);
  }

  /** A freshly deployed token has no supply and is named Quantler, symbol
      QUANT. Reading them changes nothing, as reads are functions here. */
  method FreshTokenReads(accounts: seq<Address>, now: nat, saleAddress: Address)
    returns (supply: nat, name: string, symbol: string)
    requires TestAccounts(accounts) && saleAddress != ZeroAddress
    ensures supply == 0 && name == "Quantler" && symbol == "QUANT"
  {
    var token, sale := Deploy(DefaultConfig(now, accounts), saleAddress);
    supply, name, symbol := token.totalSupply, token.name, token.symbol;
  }

  /** After deployment the token is owned by the crowdsale. */
  method TokenOwnedBySale(accounts: seq<Address>, now: nat, saleAddress: Address) returns (owner: Address)
    requires TestAccounts(accounts) && saleAddress != ZeroAddress
    ensures owner == saleAddress
  {
    var token, sale := Deploy(DefaultConfig(now, accounts), saleAddress);
    owner := token.owner;
  }

  /** The deploying account has lost mint authority for good: its mint
      reverts while the sale runs and again after the crowdsale itself has
      minted everything at settlement. */
  method FormerOwnerCannotMint(accounts: seq<Address>, now: nat, saleAddress: Address, investor: Address, amount: nat)
    returns (duringSale: bool, settled: Outcome, afterSale: bool)
    requires TestAccounts(accounts) && saleAddress != ZeroAddress && saleAddress != accounts[0]
    requires Outsider(accounts, investor) && amount > 0
    ensures !duringSale && settled == Done && !afterSale
  {
    var config := DefaultConfig(now, accounts);
    DefaultRoles(now, accounts);
    var token, sale := Deploy(config, saleAddress);
    var deployer := accounts[0];
    var r := sale.SetUserCap(deployer, investor, amount);
    r := sale.BuyTokens(investor, amount, config.openingTime);
    duringSale := token.Mint(deployer, deployer, 1200);
    settled := sale.WithdrawAllTokens(deployer, config.closingTime + 1);
    afterSale := token.Mint(deployer, deployer, 1200);
  }

  /** An address nobody has touched has cap 0 and contribution 0. */
  method UnlistedAddressReadsZero(accounts: seq<Address>, now: nat, saleAddress: Address, user: Address)
    returns (capRead: nat, contributionRead: nat)
    requires TestAccounts(accounts) && saleAddress != ZeroAddress
    ensures capRead == 0 && contributionRead == 0
  {
    var token, sale := Deploy(DefaultConfig(now, accounts), saleAddress);
    capRead, contributionRead := sale.GetUserCap(user), sale.GetUserContribution(user);
  }

  /** `setUserCap` succeeds exactly for the owner; the cap then reads the
      amount, otherwise it stays 0, and the contribution stays 0 either way. */
  method SetCapByCaller(accounts: seq<Address>, now: nat, saleAddress: Address, caller: Address, user: Address, amount: nat)
    returns (r: Outcome, capRead: nat, contributionRead: nat)
    requires TestAccounts(accounts) && saleAddress != ZeroAddress
    ensures r.Done? <==> caller == accounts[0]
    ensures capRead == (if r.Done? then amount else 0)
    ensures contributionRead == 0
  {
    var token, sale := Deploy(DefaultConfig(now, accounts), saleAddress);
    r := sale.SetUserCap(caller, user, amount);
    capRead, contributionRead := sale.GetUserCap(user), sale.GetUserContribution(user);
  }

  /** A second `setUserCap` for the same address replaces the first. */
  method CapOverwritten(accounts: seq<Address>, now: nat, saleAddress: Address, user: Address, first: nat, second: nat)
    returns (capRead: nat)
    requires TestAccounts(accounts) && saleAddress != ZeroAddress
    ensures capRead == second
  {
    var token, sale := Deploy(DefaultConfig(now, accounts), saleAddress);
    var r := sale.SetUserCap(accounts[0], user, first);
    r := sale.SetUserCap(accounts[0], user, second);
    capRead := sale.GetUserCap(user);
  }

  /** `setGroupCap` from the owner gives every listed address the cap;
      from anyone else it reverts and every listed cap still reads 0. */
  method GroupCapByCaller(accounts: seq<Address>, now: nat, saleAddress: Address, caller: Address, users: seq<Address>, amount: nat)
    returns (r: Outcome, capReads: seq<nat>)
    requires TestAccounts(accounts) && saleAddress != ZeroAddress
    ensures r.Done? <==> caller == accounts[0]
    ensures |capReads| == |users|
    ensures forall i :: 0 <= i < |users| ==> capReads[i] == if r.Done? then amount else 0
  {
    var token, sale := Deploy(DefaultConfig(now, accounts), saleAddress);
    r := sale.SetGroupCap(caller, users, amount);
    capReads := [];
    var i := 0;
    while i < |users|
      invariant 0 <= i <= |users|
      invariant |capReads| == i
      invariant forall k :: 0 <= k < i ==> capReads[k] == sale.GetUserCap(users[k])
    {
      capReads := capReads + [sale.GetUserCap(users[i])];
      i := i + 1;
    }
  }

  /** A purchase above the cap (a cap of 0 included) reverts, in the
      pre-sale as in the main sale; the cap is unchanged and nothing is
      recorded as contributed. */
  method PurchaseAboveCap(accounts: seq<Address>, now: nat, saleAddress: Address, investor: Address,
                          capAmount: nat, amount: nat, presale: bool)
    returns (r: Outcome, capRead: nat, contributionRead: nat)
    requires TestAccounts(accounts) && saleAddress != ZeroAddress && Outsider(accounts, investor)
    requires amount > capAmount
    ensures r == Revert(CapExceeded)
    ensures capRead == capAmount && contributionRead == 0
  {
    var config := DefaultConfig(now, accounts);
    var token, sale := Deploy(config, saleAddress);
    r := sale.SetUserCap(accounts[0], investor, capAmount);
    if presale {
      r := sale.OpenPresale(accounts[0], now);
      r := sale.BuyTokens(investor, amount, now);
    } else {
      r := sale.BuyTokens(investor, amount, config.openingTime);
    }
    capRead, contributionRead := sale.GetUserCap(investor), sale.GetUserContribution(investor);
  }

  /** A purchase within the cap records exactly the amount as contributed
      and leaves the cap as it was. */
  method PurchaseWithinCap(accounts: seq<Address>, now: nat, saleAddress: Address, investor: Address,
                           capAmount: nat, amount: nat)
    returns (r: Outcome, capRead: nat, contributionRead: nat)
    requires TestAccounts(accounts) && saleAddress != ZeroAddress && Outsider(accounts, investor)
    requires 0 < amount <= capAmount
    ensures r == Done
    ensures capRead == capAmount && contributionRead == amount
  {
    var config := DefaultConfig(now, accounts);
    var token, sale := Deploy(config, saleAddress);
    r := sale.SetUserCap(accounts[0], investor, capAmount);
    r := sale.BuyTokens(investor, amount, config.openingTime);
    capRead, contributionRead := sale.GetUserCap(investor), sale.GetUserContribution(investor);
  }

  /** Before the opening time, with no pre-sale opened, buying reverts. */
  method PurchaseBeforeStart(accounts: seq<Address>, now: nat, saleAddress: Address, amount: nat)
    returns (r: Outcome)
    requires TestAccounts(accounts) && saleAddress != ZeroAddress
    ensures r == Revert(SaleNotOpen)
  {
    var token, sale := Deploy(DefaultConfig(now, accounts), saleAddress);
    r := sale.BuyTokens(accounts[0], amount, now);
  }

  /** `addAffiliate` succeeds exactly for the owner; the lookup then gives
      the affiliate, otherwise the zero address. */
  method AffiliateLinkByCaller(accounts: seq<Address>, now: nat, saleAddress: Address,
                               caller: Address, affiliate: Address, investor: Address)
    returns (r: Outcome, linked: Address)
    requires TestAccounts(accounts) && saleAddress != ZeroAddress
    ensures r.Done? <==> caller == accounts[0]
    ensures linked == if r.Done? then affiliate else ZeroAddress
  {
    var token, sale := Deploy(DefaultConfig(now, accounts), saleAddress);
    r := sale.AddAffiliate(caller, affiliate, investor);
    linked := sale.GetAffiliate(investor);
  }

  /** Without an affiliate, a pre-sale purchase allocates exactly the
      amount times the pre-sale rate. */
  method PresaleAllocationAlone(accounts: seq<Address>, now: nat, saleAddress: Address, investor: Address, amount: nat)
    returns (pending: nat)
    requires TestAccounts(accounts) && saleAddress != ZeroAddress && Outsider(accounts, investor)
    requires amount > 0
    ensures pending == amount * 1666
  {
    var config := DefaultConfig(now, accounts);
    var token, sale := Deploy(config, saleAddress);
    var r := sale.OpenPresale(accounts[0], now);
    r := sale.SetUserCap(accounts[0], investor, amount);
    r := sale.BuyTokens(investor, amount, now);
    pending := sale.AllocatedBalance(investor);
  }

  /** With an affiliate, a pre-sale purchase allocates 105% of the base to
      the investor and 5% to the affiliate, both rounded down. */
  method PresaleAllocationWithAffiliate(accounts: seq<Address>, now: nat, saleAddress: Address,
                                        investor: Address, affiliate: Address, amount: nat)
    returns (investorAllocation: nat, affiliateAllocation: nat)
    requires TestAccounts(accounts) && saleAddress != ZeroAddress
    requires Outsider(accounts, investor) && affiliate != ZeroAddress && affiliate != investor
    requires amount > 0
    ensures investorAllocation == amount * 1666 * 105 / 100
    ensures affiliateAllocation == amount * 1666 * 5 / 100
    ensures investorAllocation > amount * 1666
  {
    var config := DefaultConfig(now, accounts);
    var token, sale := Deploy(config, saleAddress);
    var r := sale.OpenPresale(accounts[0], now);
    r := sale.SetUserCap(accounts[0], investor, amount);
    r := sale.AddAffiliate(accounts[0], affiliate, investor);
    r := sale.BuyTokens(investor, amount, now);
    investorAllocation, affiliateAllocation := sale.AllocatedBalance(investor), sale.AllocatedBalance(affiliate);
    AffiliateBoostNotLess(amount, 1666);
  }

  /** From the opening time, while nothing has reached the soft cap, the
      same split applies at the soft-cap rate. */
  method SoftCapAllocationWithAffiliate(accounts: seq<Address>, now: nat, saleAddress: Address,
                                        investor: Address, affiliate: Address, amount: nat)
    returns (investorAllocation: nat, affiliateAllocation: nat)
    requires TestAccounts(accounts) && saleAddress != ZeroAddress
    requires Outsider(accounts, investor) && affiliate != ZeroAddress && affiliate != investor
    requires amount > 0
    ensures investorAllocation == amount * 1481 * 105 / 100
    ensures affiliateAllocation == amount * 1481 * 5 / 100
    ensures investorAllocation > amount * 1481
  {
    var config := DefaultConfig(now, accounts);
    var token, sale := Deploy(config, saleAddress);
    var r := sale.SetUserCap(accounts[0], investor, amount);
    r := sale.AddAffiliate(accounts[0], affiliate, investor);
    r := sale.BuyTokens(investor, amount, config.openingTime);
    investorAllocation, affiliateAllocation := sale.AllocatedBalance(investor), sale.AllocatedBalance(affiliate);
    AffiliateBoostNotLess(amount, 1481);
  }

  /** With the soft cap set to 1 wei, a first 1-wei purchase (by the mining
      pool account, as in the suite) reaches it, and the next purchase is
      split at the hard-cap rate. */
  method HardCapAllocationWithAffiliate(accounts: seq<Address>, now: nat, saleAddress: Address,
                                        investor: Address, affiliate: Address, amount: nat)
    returns (investorAllocation: nat, affiliateAllocation: nat)
    requires TestAccounts(accounts) && saleAddress != ZeroAddress
    requires Outsider(accounts, investor) && Outsider(accounts, affiliate) && affiliate != investor
    requires amount > 0
    ensures investorAllocation == amount * 1234 * 105 / 100
    ensures affiliateAllocation == amount * 1234 * 5 / 100
    ensures investorAllocation > amount * 1234
  {
    var config := DefaultConfig(now, accounts).(softCap := 1);
    var token, sale := SoftCapReached(config, saleAddress, accounts[3], investor, affiliate, amount);
    var r := sale.BuyTokens(investor, amount, config.openingTime);
    investorAllocation, affiliateAllocation := sale.AllocatedBalance(investor), sale.AllocatedBalance(affiliate);
    AffiliateBoostNotLess(amount, 1234);
  }

  /** A fresh deployment with a soft cap of 1 wei, where `investor` has a
      cap of `amount` and is linked to `affiliate`, and `early` has already
      bought 1 wei at the opening time, which reaches the soft cap. */
  method SoftCapReached(config: CampaignConfig, saleAddress: Address, early: Address,
                        investor: Address, affiliate: Address, amount: nat)
    returns (token: QuantToken, sale: Crowdsale)
    requires config.softCap == 1 && config.openingTime <= config.closingTime && config.owner != ZeroAddress
    requires saleAddress != ZeroAddress && early != ZeroAddress && amount > 0
    requires investor != ZeroAddress && affiliate != ZeroAddress && affiliate != investor
    requires early != investor && early != affiliate
    ensures fresh(token) && fresh(sale) && sale.token == token && sale.Valid()
    ensures sale.config == config && !sale.withdrawn && sale.weiRaised == 1
    ensures sale.GetUserCap(investor) == amount && sale.GetUserContribution(investor) == 0
    ensures sale.GetAffiliate(investor) == affiliate
    ensures Get(sale.balances, investor) == 0 && Get(sale.balances, affiliate) == 0
  {
    token, sale := Deploy(config, saleAddress);
    var r := sale.SetUserCap(config.owner, investor, amount);
    r := sale.SetUserCap(config.owner, early, amount);
    r := sale.AddAffiliate(config.owner, affiliate, investor);
    r := sale.BuyTokens(early, 1, config.openingTime);
    assert r == Done;
  }

  /** During the sale a buyer has a positive allocation and no real tokens. */
  method AllocatedButNotIssued(accounts: seq<Address>, now: nat, saleAddress: Address, investor: Address, amount: nat)
    returns (pending: nat, issued: nat)
    requires TestAccounts(accounts) && saleAddress != ZeroAddress && Outsider(accounts, investor)
    requires amount > 0
    ensures pending > 0 && issued == 0
  {
    var config := DefaultConfig(now, accounts);
    var token, sale := Deploy(config, saleAddress);
    var r := sale.OpenPresale(accounts[0], now);
    r := sale.SetUserCap(accounts[0], investor, amount);
    r := sale.BuyTokens(investor, amount, now);
    pending, issued := sale.AllocatedBalance(investor), sale.BalanceOf(investor);
  }

  /** The same reads as the suite writes them, for its one-ether
      contribution (ten times `OneEth` wei) in the pre-sale: the real
      balance, 0, converts to `int`, but the allocated balance,
      10^18 × 1666, overflows the conversion, so the read throws before
      anything is asserted. */
  method AllocatedReadAsInt32(accounts: seq<Address>, now: nat, saleAddress: Address, investor: Address)
    returns (pendingRead: Option<int>, issuedRead: Option<int>)
    requires TestAccounts(accounts) && saleAddress != ZeroAddress && Outsider(accounts, investor)
    ensures pendingRead == None && issuedRead == Some(0)
  {
    var config := DefaultConfig(now, accounts);
    var amount := 10 * OneEth;
    var token, sale := BuyAlone(config, saleAddress, investor, amount, now, true);
    pendingRead := CheckedInt32(sale.AllocatedBalance(investor));
    issuedRead := CheckedInt32(sale.BalanceOf(investor));
  }

  /** A fresh deployment in which `investor`, with a cap of exactly
      `amount`, has bought once at time `at` (the pre-sale opened first
      when asked). */
  method BuyAlone(config: CampaignConfig, saleAddress: Address, investor: Address, amount: nat, at: nat, presale: bool)
    returns (token: QuantToken, sale: Crowdsale)
    requires saleAddress != ZeroAddress && investor != ZeroAddress && amount > 0
    requires presale ==> at < config.openingTime
    requires !presale ==> config.openingTime <= at <= config.closingTime && config.softCap > 0
    ensures fresh(token) && fresh(sale) && sale.token == token && sale.Valid()
    ensures sale.config == config && sale.address == saleAddress
    ensures token.owner == saleAddress && token.balances == map[] && token.totalSupply == 0
    ensures !sale.withdrawn && sale.holders == [investor]
    ensures sale.balances == map[investor := amount * (if presale then config.preSaleRate else config.softCapRate)]
  {
    token, sale := Deploy(config, saleAddress);
    var r: Outcome;
    if presale {
      r := sale.OpenPresale(config.owner, at);
    }
    r := sale.SetUserCap(config.owner, investor, amount);
    FirstPurchase(sale, investor, amount, at);
  }

  /** The first purchase on a sale with no affiliates and no allocations
      yet, by an investor whose cap is exactly the amount, in an open
      phase: the investor becomes the only holder with amount times the
      phase's rate. */
  method FirstPurchase(sale: Crowdsale, investor: Address, amount: nat, at: nat)
    requires sale.Valid() && IsOpen(sale.PhaseAt(at)) && !sale.withdrawn
    requires investor != ZeroAddress && amount > 0
    requires sale.affiliates == map[] && sale.balances == map[] && sale.holders == []
    requires sale.GetUserContribution(investor) == 0 && sale.GetUserCap(investor) == amount
    modifies sale`contributed, sale`balances, sale`holders, sale`weiRaised
    ensures sale.Valid() && sale.holders == [investor]
    ensures sale.balances == map[investor := amount * Rate(sale.config, old(sale.PhaseAt(at)))]
  {
    ghost var base := amount * Rate(sale.config, sale.PhaseAt(at));
    var r := sale.BuyTokens(investor, amount, at);
    assert r == Done;
    assert sale.balances == Credit(map[], investor, base);
    assert sale.balances == map[investor := base];
  }

  /** One purchase of `amount` wei for `investor` at time `at`, then the
      settlement. */
  method BuyAndSettle(config: CampaignConfig, saleAddress: Address, investor: Address, amount: nat, at: nat, presale: bool)
    returns (token: QuantToken, sale: Crowdsale)
    requires saleAddress != ZeroAddress && investor != ZeroAddress && amount > 0
    requires presale ==> at < config.openingTime
    requires !presale ==> config.openingTime <= at <= config.closingTime && config.softCap > 0
    ensures fresh(token) && fresh(sale) && sale.token == token && sale.Valid()
    ensures sale.withdrawn
    ensures token.balances == Settle(map[], [investor], map[investor := amount * (if presale then config.preSaleRate else config.softCapRate)], config)
    ensures forall a :: sale.AllocatedBalance(a) == 0
  {
    token, sale := BuyAlone(config, saleAddress, investor, amount, at, presale);
    var r := sale.WithdrawAllTokens(config.owner, config.closingTime + 1);
    assert r == Done;
  }

  /** After a pre-sale purchase and the settlement, the investor holds
      exactly the amount times the pre-sale rate (fractional amounts
      included: nothing is rounded), its allocation reads 0, and the four
      reserves hold 50%, 15%, 3% and 2% of the key, the investor amount
      being its 30%; the company then holds more than the investor, who
      holds more than the mining pool, the ICO bounty and the GitHub
      bounty, in that order, and the last still holds something. */
  method SettlementSpreadPresale(accounts: seq<Address>, now: nat, saleAddress: Address, investor: Address, amount: nat)
    returns (investorTokens: nat, pendingAfter: nat, company: nat, mining: nat, ico: nat, gitHub: nat)
    requires TestAccounts(accounts) && saleAddress != ZeroAddress && Outsider(accounts, investor)
    requires amount > 0
    ensures investorTokens == amount * 1666 && pendingAfter == 0
    ensures var key := amount * 1666 * 100 / 30;
            && company == key * 50 / 100 && mining == key * 15 / 100
            && ico == key * 3 / 100 && gitHub == key * 2 / 100
    ensures company > investorTokens > mining > ico > gitHub > 0
  {
    var config := DefaultConfig(now, accounts);
    DefaultRoles(now, accounts);
    var token, sale := BuyAndSettle(config, saleAddress, investor, amount, now, true);
    var alloc := map[investor := amount * 1666];
    TotalSingle(investor, alloc);
    SettleCreditsHolder(map[], [investor], alloc, config, investor);
    SettleCreditsReserves(map[], [investor], alloc, config);
    SpreadOrdering(amount * 1666);
    investorTokens, pendingAfter := sale.BalanceOf(investor), sale.AllocatedBalance(investor);
    company, mining := sale.BalanceOf(config.companyReserve), sale.BalanceOf(config.miningPool);
    ico, gitHub := sale.BalanceOf(config.icoBounty), sale.BalanceOf(config.gitHubBounty);
  }

  /** The same settlement after a main-sale purchase below the soft cap,
      with the investor amount priced at the soft-cap rate. */
  method SettlementSpreadSoftCap(accounts: seq<Address>, now: nat, saleAddress: Address, investor: Address, amount: nat)
    returns (investorTokens: nat, pendingAfter: nat, company: nat, mining: nat, ico: nat, gitHub: nat)
    requires TestAccounts(accounts) && saleAddress != ZeroAddress && Outsider(accounts, investor)
    requires amount > 0
    ensures investorTokens == amount * 1481 && pendingAfter == 0
    ensures var key := amount * 1481 * 100 / 30;
            && company == key * 50 / 100 && mining == key * 15 / 100
            && ico == key * 3 / 100 && gitHub == key * 2 / 100
    ensures company > investorTokens > mining > ico > gitHub > 0
  {
    var config := DefaultConfig(now, accounts);
    DefaultRoles(now, accounts);
    var token, sale := BuyAndSettle(config, saleAddress, investor, amount, config.openingTime, false);
    var alloc := map[investor := amount * 1481];
    TotalSingle(investor, alloc);
    SettleCreditsHolder(map[], [investor], alloc, config, investor);
    SettleCreditsReserves(map[], [investor], alloc, config);
    SpreadOrdering(amount * 1481);
    investorTokens, pendingAfter := sale.BalanceOf(investor), sale.AllocatedBalance(investor);
    company, mining := sale.BalanceOf(config.companyReserve), sale.BalanceOf(config.miningPool);
    ico, gitHub := sale.BalanceOf(config.icoBounty), sale.BalanceOf(config.gitHubBounty);
  }

  /** The suite's multi-contributor expectation, replayed with one of its
      contributors: the company reserve account buys in the pre-sale.
      After the settlement it holds strictly more than its contribution
      times the pre-sale rate, because it also receives the company share. */
  method ReserveAccountContributes(accounts: seq<Address>, now: nat, saleAddress: Address, amount: nat)
    returns (companyTokens: nat)
    requires TestAccounts(accounts) && saleAddress != ZeroAddress
    requires amount > 0
    ensures companyTokens > amount * 1666
  {
    var config := DefaultConfig(now, accounts);
    var company := accounts[2];
    var token, sale := BuyAndSettle(config, saleAddress, company, amount, now, true);
    var alloc := map[company := amount * 1666];
    TotalSingle(company, alloc);
    ReserveContributorGetsMore(map[], [company], alloc, config);
    companyTokens := sale.BalanceOf(company);
  }

  /** The settlement is refused while the sale can still sell, runs once
      after the closing time, and a second call reverts; once it has run,
      no purchase is accepted. */
  method WithdrawOnlyOnce(accounts: seq<Address>, now: nat, saleAddress: Address, investor: Address, amount: nat, later: nat)
    returns (early: Outcome, first: Outcome, second: Outcome, lateBuy: Outcome, pendingAfter: nat)
    requires TestAccounts(accounts) && saleAddress != ZeroAddress && Outsider(accounts, investor)
    requires amount > 0
    ensures early == Revert(SaleNotEnded)
    ensures first == Done && second == Revert(AlreadyWithdrawn)
    ensures lateBuy == Revert(SaleNotOpen) && pendingAfter == 0
  {
    var config := DefaultConfig(now, accounts);
    var token, sale := BuyAlone(config, saleAddress, investor, amount, now, true);
    early, first, second := SettleAroundClosing(sale);
    lateBuy := sale.BuyTokens(investor, amount, later);
    pendingAfter := sale.AllocatedBalance(investor);
  }

  /** The owner's `withdrawAllTokens` at the closing time, then twice just
      after it, on a sale that holds the token and has not settled. */
  method SettleAroundClosing(sale: Crowdsale) returns (early: Outcome, first: Outcome, second: Outcome)
    requires sale.Valid() && !sale.withdrawn && sale.token.owner == sale.address
    modifies sale`balances, sale`withdrawn, sale.token`balances, sale.token`totalSupply
    ensures sale.Valid() && sale.withdrawn
    ensures forall a :: sale.AllocatedBalance(a) == 0
    ensures early == Revert(SaleNotEnded)
    ensures first == Done && second == Revert(AlreadyWithdrawn)
  {
    var owner, closing := sale.config.owner, sale.config.closingTime;
    early := sale.WithdrawAllTokens(owner, closing);
    first := sale.WithdrawAllTokens(owner, closing + 1);
    second := sale.WithdrawAllTokens(owner, closing + 1);
  }

  /** After the settlement, once the investor has approved `value` for a
      fresh recipient, the recipient's `transferFrom` lowers the investor's
      balance by exactly `value` and leaves the recipient holding exactly
      `value`. */
  method TransferAfterSettlement(accounts: seq<Address>, now: nat, saleAddress: Address,
                                 investor: Address, recipient: Address, amount: nat, value: nat)
    returns (before: nat, after: nat, received: nat)
    requires TestAccounts(accounts) && saleAddress != ZeroAddress
    requires Outsider(accounts, investor) && Outsider(accounts, recipient) && recipient != investor
    requires amount > 0 && value <= amount * 1666
    ensures before == amount * 1666
    ensures after == before - value && received == value
  {
    var config := DefaultConfig(now, accounts);
    DefaultRoles(now, accounts);
    var token, sale := BuyAndSettle(config, saleAddress, investor, amount, now, true);
    var alloc := map[investor := amount * 1666];
    SettleCreditsHolder(map[], [investor], alloc, config, investor);
    SettleLeavesOthers(map[], [investor], alloc, config, recipient);
    before := token.BalanceOf(investor);
    var ok := token.Approve(investor, recipient, value);
    ok := token.TransferFrom(recipient, investor, recipient, value);
    after, received := token.BalanceOf(investor), token.BalanceOf(recipient);
  }
}
