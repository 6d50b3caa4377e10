/** Sale phases, the rate each phase sells at, the affiliate split of one
    purchase and the reserve spread computed at settlement. All of it is
    exact integer arithmetic; every division rounds down. */
module Pricing {
  import opened Config

  datatype Phase = NotStarted | PreSale | SoftCapSale | HardCapSale | Closed

  /** The phases in which `buyTokens` is accepted. */
  predicate IsOpen(p: Phase)
  {
    p.PreSale? || p.SoftCapSale? || p.HardCapSale?
  }

  /** The phase at time `now` after `raised` wei has been accepted.
      Before the opening time only an explicitly opened pre-sale sells;
      from the opening time until the closing time the main sale sells at
      the soft-cap rate until `raised` reaches the soft cap, and at the
      hard-cap rate from then on. */
  function CurrentPhase(c: CampaignConfig, presaleOpen: bool, now: nat, raised: nat): (p: Phase)
    ensures IsOpen(p) <==> (now < c.openingTime && presaleOpen) || c.openingTime <= now <= c.closingTime
    ensures p.PreSale? <==> now < c.openingTime && presaleOpen
    ensures p.HardCapSale? <==> c.openingTime <= now <= c.closingTime && raised >= c.softCap
  {
    if now < c.openingTime then (if presaleOpen then PreSale else NotStarted)
    else if now > c.closingTime then Closed
    else if raised < c.softCap then SoftCapSale
    else HardCapSale
  }

  /** Tokens (smallest unit) given per wei in an open phase. */
  function Rate(c: CampaignConfig, p: Phase): (r: nat)
    requires IsOpen(p)
    ensures r == c.preSaleRate || r == c.softCapRate || r == c.hardCapRate
    ensures c.hardCapRate <= c.softCapRate <= c.preSaleRate ==> c.hardCapRate <= r <= c.preSaleRate
  {
    if p.PreSale? then c.preSaleRate
    else if p.SoftCapSale? then c.softCapRate
    else c.hardCapRate
  }

  /** Nothing can be bought before the opening time unless the pre-sale
      was opened, whatever has been raised. */
  lemma ClosedBeforeStart(c: CampaignConfig, now: nat, raised: nat)
    requires now < c.openingTime
    ensures !IsOpen(CurrentPhase(c, false, now, raised))
    ensures IsOpen(CurrentPhase(c, true, now, raised))
    ensures Rate(c, CurrentPhase(c, true, now, raised)) == c.preSaleRate
  {
  }

  /** The tier only moves forward as more is raised: once the hard-cap
      rate applies it keeps applying, and the soft-cap rate applies exactly
      while the soft cap has not been reached. */
  lemma TierMonotone(c: CampaignConfig, presaleOpen: bool, now: nat, raised: nat, more: nat)
    requires c.openingTime <= now <= c.closingTime
    requires raised <= more
    ensures CurrentPhase(c, presaleOpen, now, raised).HardCapSale? ==> CurrentPhase(c, presaleOpen, now, more).HardCapSale?
    ensures CurrentPhase(c, presaleOpen, now, more).SoftCapSale? ==> CurrentPhase(c, presaleOpen, now, raised).SoftCapSale?
    ensures CurrentPhase(c, presaleOpen, now, raised).SoftCapSale? <==> raised < c.softCap
  {
  }

  // The affiliate bonus: 105% of the base allocation for the investor and
  // 5% of it for the affiliate.
  const InvestorWithAffiliatePercent: nat := 105
  const AffiliatePercent: nat := 5

  datatype Split = Split(investor: nat, affiliate: nat)

  /** The two allocations a purchase worth `base` tokens produces when the
      investor has an affiliate. The investor's bonus over `base` is
      exactly what the affiliate receives, and that is 5% of `base`
      rounded down. */
  function AffiliateSplit(base: nat): (s: Split)
    ensures s.investor == base + s.affiliate
    ensures s.affiliate * 20 <= base < (s.affiliate + 1) * 20
  {
    Split(base * InvestorWithAffiliatePercent / 100, base * AffiliatePercent / 100)
  }

  /** An investor with an affiliate never receives less than without one,
      and strictly more once the base allocation reaches 20 tokens, at any
      rate; with a rate of at least 2, also more than the contribution
      divided by the rate, the weaker comparison the suite writes. */
  lemma AffiliateBoostNotLess(amount: nat, rate: nat)
    ensures AffiliateSplit(amount * rate).investor >= amount * rate
    ensures amount * rate >= 20 ==> AffiliateSplit(amount * rate).investor > amount * rate
    ensures amount > 0 && rate >= 2 ==> AffiliateSplit(amount * rate).investor > amount / rate
  {
    var base := amount * rate;
    var s := AffiliateSplit(base);
    if amount > 0 && rate >= 2 {
      var q := amount / rate;
      assert q * rate <= amount;
      assert q * rate >= q * 2 by { MulMonotone(q, 2, rate); }
      assert amount <= base by { MulMonotone(amount, 1, rate); }
    }
  }

  lemma MulMonotone(x: nat, lo: nat, hi: nat)
    requires lo <= hi
    ensures x * lo <= x * hi
  {
  }

  // The reserve spread: an investor amount is 30% of the allocation key,
  // and the reserves receive 50%, 15%, 3% and 2% of that key.
  const InvestorPercent: nat := 30
  const CompanyPercent: nat := 50
  const MiningPoolPercent: nat := 15
  const IcoBountyPercent: nat := 3
  const GitHubBountyPercent: nat := 2

  /** The shares of the key add up to the whole key (see `SharesFillKey`
      for what rounding leaves of that). */
  lemma PercentagesSumToHundred()
    ensures InvestorPercent + CompanyPercent + MiningPoolPercent + IcoBountyPercent + GitHubBountyPercent == 100
  {
  }

  datatype Spread = Spread(key: nat, company: nat, mining: nat, ico: nat, gitHub: nat)
  {
    function Reserved(): nat { company + mining + ico + gitHub }
  }

  /** The reserve credits owed for `investorAmount` tokens. Together the
      reserves receive 70/30 of the investor amount, rounded down, and
      fewer than 5 tokens short of it: each of the five divisions rounds
      down. */
  function ReserveSpread(investorAmount: nat): (s: Spread)
    ensures s.Reserved() * InvestorPercent <= investorAmount * 70
    ensures investorAmount * 70 < (s.Reserved() + 5) * InvestorPercent
  {
    var key := investorAmount * 100 / InvestorPercent;
    var s := Spread(key,
                    key * CompanyPercent / 100,
                    key * MiningPoolPercent / 100,
                    key * IcoBountyPercent / 100,
                    key * GitHubBountyPercent / 100);
    assert key * 30 <= investorAmount * 100 < key * 30 + 30;
    assert s.company * 100 <= key * 50 < s.company * 100 + 100;
    assert s.mining * 100 <= key * 15 < s.mining * 100 + 100;
    assert s.ico * 100 <= key * 3 < s.ico * 100 + 100;
    assert s.gitHub * 100 <= key * 2 < s.gitHub * 100 + 100;
    s
  }

  /** The investor amount and the four reserve credits together make up
      the allocation key, short by at most three tokens lost to rounding
      down, and never more than the key. */
  lemma SharesFillKey(investorAmount: nat)
    ensures var s := ReserveSpread(investorAmount);
            s.key < investorAmount + s.Reserved() + 4 && investorAmount + s.Reserved() <= s.key
  {
    var s := ReserveSpread(investorAmount);
    var key := s.key;
    assert key * 30 <= investorAmount * 100 < key * 30 + 30;
    assert s.company * 100 <= key * 50 < s.company * 100 + 100;
    assert s.mining * 100 <= key * 15 < s.mining * 100 + 100;
    assert s.ico * 100 <= key * 3 < s.ico * 100 + 100;
    assert s.gitHub * 100 <= key * 2 < s.gitHub * 100 + 100;
  }

  /** For any investor amount of at least 30 tokens (one wei at any of the
      suite's rates already gives more), the company gets more than the
      investor, who gets more than the mining pool, then the ICO bounty,
      then the GitHub bounty, which still gets something. */
  lemma {:induction false} SpreadOrdering(investorAmount: nat)
    requires investorAmount >= 30
    ensures var s := ReserveSpread(investorAmount);
            s.company > investorAmount > s.mining > s.ico > s.gitHub > 0
  {
    var s := ReserveSpread(investorAmount);
    var key := s.key;
    assert key == investorAmount * 100 / 30;
    assert key * 30 <= investorAmount * 100 < key * 30 + 30;
    assert key >= 100;
    assert s.company * 100 <= key * 50 < s.company * 100 + 100;
    assert s.mining * 100 <= key * 15 < s.mining * 100 + 100;
    assert s.ico * 100 <= key * 3 < s.ico * 100 + 100;
    assert s.gitHub * 100 <= key * 2 < s.gitHub * 100 + 100;
  }
}
