# QUANT crowdsale — a Dafny model

This project models the Quantler QUANT token sale. It has two parts:

- a crowdsale contract with a per-address contribution cap (the whitelist), affiliate links, a pre-sale plus a two-tier main sale, pending token allocations, and a one-shot settlement that mints those allocations and a reserve spread;
- the ownable, mintable ERC-20 token it mints into.

The Solidity contracts themselves (`QuantTokenCrowdSale.sol`, `QuantToken.sol`) are not part of this model's sources. Their behaviour is reconstructed from the assertions of the C# test suite, and each member below cites the test lines it answers to.

Every contract call is one atomic transaction. A revert is an `Outcome` of `Revert(error)` and leaves every field unchanged. Amounts are unbounded naturals; `uint256` overflow is not modelled, since no test comes near it. Addresses are naturals, with 0 as the zero address. Block time is an explicit `now` argument.

Modules, one file each:

- `config.dfy` (`Config`): addresses, the suite's `OneEth` constant (10^17 wei, as the suite writes it), the campaign configuration record, its default values and its constructor argument order.
- `ledger.dfy` (`Ledger`): address-keyed balance maps where a missing key reads 0, and the credit, debit and assign operations on them.
- `pricing.dfy` (`Pricing`): the sale phases, the rate of each phase, the 105/5 affiliate split, and the 30/50/15/3/2 reserve spread. All division rounds down.
- `allocation.dfy` (`Allocation`): what a purchase does to the pending balances, and what settlement does to the token ledger (`Settle`), with lemmas about who ends up with what.
- `token.dfy` (`TokenLedger`): the `QuantToken` class (owner, balances, allowances, total supply).
- `crowdsale.dfy` (`Sale`): the `Crowdsale` class. Its methods are proved against the functions of `Allocation`.
- `scenarios.dfy` (`Scenarios`): deployment (token, crowdsale, ownership hand-over), and the suite's end-to-end expectations stated over a fresh deployment.

Design choices where the tests leave the behaviour open:

- **Phases.** Before the opening time, buying is possible only after the owner has called `openPresale`, at the pre-sale rate. From the opening time to the closing time (inclusive), the soft-cap rate applies while the wei raised is below the soft cap, and the hard-cap rate from then on. After the closing time the sale is closed.
- **`openPresale`** is owner-only and accepted only before the opening time.
- **`withdrawAllTokens`** is owner-only and accepted only once the closing time has passed (`now > closingTime`). Before that it reverts with `SaleNotEnded`. Every test that settles first waits until after the closing time (test/BuyTests.cs:204, 241, 280, 343, 381, 431; test/TransferTests.cs:109).
- **After settlement** `buyTokens` reverts as not open. Real block time never goes back past the closing time, but the model's `now` is a free argument, so a settled sale refuses purchases explicitly.
- **Ownership hand-over.** `Deploy` deploys the token, deploys the crowdsale, and then has the deployer transfer the token's ownership to the crowdsale. test/BaseTest.cs:333-338 deploys the two contracts but does not show this transfer, and neither does the migration script. The hand-over is reconstructed from its observed result: test/MintTests.cs:52-62 reads the crowdsale as the token's owner.
- **One-argument `mint`.** test/MintTests.cs:78 and 96 send `mint` from account 0 with the single argument 1200. The model reads this as `mint(to = caller, amount = 1200)`. Only the revert is asserted, and the model's `Mint` reverts for every non-owner whatever the recipient, so the reading does not affect the result.
- **`balanceOf` through the crowdsale.** The suite reads token balances by calling `balanceOf` on the crowdsale contract (test/BaseTest.cs:242-244). `Sale.Crowdsale.BalanceOf` reads the token ledger directly: the crowdsale is taken to forward the query to its token.
- **Settlement order.** It mints every holder's pending balance in the order holders were first credited, affiliates included, and zeroes it. It then mints the reserve spread ONCE, computed from the total of those pending balances. With a single investor this is exactly the suite's per-investor formula.
- **Prepared contributions.** The suite's `WithContributors` plus `PrepareCrowdSale` is read as follows. For each contributor, the owner sets the contributor's cap to exactly its contribution (`setUserCap`). The contributor then calls `buyTokens` for itself with that contribution, at the time the test prepares: in the opened pre-sale, or from the opening time. `Scenarios.BuyAlone` and the settlement and transfer scenarios built on it follow this reading. The helper's code is not part of this model. The asserted results are the same for any cap at or above the contribution, because the purchase is all or nothing and a cap only decides whether it is accepted.
- **Mint refused.** When the token is not owned by the crowdsale, the first mint would revert, so the whole settlement reverts and changes nothing.
- **`transferFrom`** follows ERC-20: the caller is the spender. The suite sends it with two arguments from the investor's account (test/TransferTests.cs:120). The model reads that call as the recipient, approved by the investor, pulling `Amount` from the investor to itself. The asserted balances are the same under that reading.

## Model

| member | source | states |
|---|---|---|
| Config.DefaultConfig | test/Model/CrowdsaleConstructorModel.cs:29-42 | The default rates satisfy presale 1666 > soft 1481 > hard 1234 > 0. The default caps satisfy presale cap < soft cap < hard cap (1000, 12500 and 35000 times `OneEth`). Opening (now + 31 days) lies strictly between now and closing (now + 62 days). Owner, wallet, company, mining, ICO and GitHub are test accounts 0 to 5, so they are distinct whenever those accounts are. |
| Config.ConstructorArgs | test/BaseTest.cs:357-372 | Exactly fourteen arguments, in the constructor's fixed order, ending with the token address. Decoding them with the deployer as owner gives back the same configuration and token. |
| Pricing.CurrentPhase | test/AffiliateTests.cs:57-145 | The sale is open exactly before the opening time with the pre-sale opened, or from the opening time to the closing time inclusive. It is in the pre-sale exactly in the first case, and in the hard-cap tier exactly in the second case once the amount raised reaches the soft cap. |
| Pricing.Rate | test/AffiliateTests.cs:98-99 | The rate is one of the three configured rates. When hard ≤ soft ≤ pre-sale, as in the default configuration, it lies between the hard-cap rate and the pre-sale rate. |
| Pricing.ClosedBeforeStart | test/BuyTests.cs:159-169 | Before the opening time nothing is for sale unless the pre-sale was opened; once it is, the pre-sale rate applies. |
| Pricing.TierMonotone | test/AffiliateTests.cs:57-103 | During the main sale the soft-cap rate applies exactly while the amount raised is below the soft cap. Raising more never moves the sale back from the hard-cap tier. |
| Pricing.AffiliateSplit | test/AffiliateTests.cs:98-99 | With an affiliate, the investor receives the base plus exactly what the affiliate receives, and the affiliate receives 5% of the base rounded down (a twentieth of the base, floored). |
| Pricing.AffiliateBoostNotLess | test/AffiliateTests.cs:98-102 | At any rate, the investor's boosted allocation is never below the plain one, and is strictly above it once the base reaches 20. For any positive contribution and a rate of at least 2, it also exceeds contribution divided by rate, the comparison the suite writes. |
| Pricing.PercentagesSumToHundred | test/BuyTests.cs:71-86 | The investor's 30% and the reserves' 50, 15, 3 and 2% make up the whole allocation key. |
| Pricing.ReserveSpread | test/BuyTests.cs:388-393 | key = investor amount × 100 / 30, and each reserve gets key × its percentage / 100, all rounded down. Together the reserves receive 70/30 of the investor amount, rounded down: fewer than 5 tokens short of it, since each of the five divisions rounds down. |
| Pricing.SharesFillKey | test/BuyTests.cs:388-393 | The investor's amount plus the four reserve shares fall short of the key by at most 3. The rounding loses less than 4 units and never overshoots. |
| Pricing.SpreadOrdering | test/BuyTests.cs:403-410 | From an investor amount of 30 up, the company gets more than the investor, who gets more than the mining pool, the ICO bounty and the GitHub bounty, in that order, and the GitHub bounty gets more than 0. |
| Allocation.Allocate | test/AffiliateTests.cs:178-181 | A purchase worth `base` credits the investor with `base` when there is no affiliate. With an affiliate, it credits the investor 105% and the affiliate 5%, both floored. No other address changes, and only those two can become new keys. |
| Allocation.Settle | test/BuyTests.cs:388-401 | Settlement never lowers a token balance. It leaves unchanged every address that is neither a holder nor a reserve. |
| Allocation.SweepStep | test/BuyTests.cs:284-288 | Minting one more holder of a repetition-free list credits that holder exactly its pending balance on top of the earlier holders' mints, adds it to the minted total, and zeroes its pending entry, which the earlier steps had left untouched. |
| Allocation.MintAllAt | test/BuyTests.cs:284-288 | Minting the pending balances of a repetition-free holder list gives each listed address exactly its own pending balance, and gives others nothing. |
| Allocation.SettleCreditsHolder | test/BuyTests.cs:345-351 | After settlement, a holder that is not a reserve recipient has exactly its earlier token balance plus its pending balance (no rounding of the multiplication, fractional contributions included). |
| Allocation.SettleLeavesOthers | test/TransferTests.cs:121-125 | Settlement leaves the balance of an address that neither holds an allocation nor is a reserve unchanged. |
| Allocation.SettleCreditsReserves | test/BuyTests.cs:388-401 | With distinct reserves that hold no allocation, each reserve receives exactly its share of the key computed from the total pending amount. |
| Allocation.ReserveContributorGetsMore | test/BuyTests.cs:257-289 | A company reserve that also contributed ends strictly above its pending balance once anything at all is pending. This is the as-written half of the finding below. |
| TokenLedger.QuantToken.constructor | test/ERC20Tests.cs:49-88 | A fresh token is named "Quantler" with symbol "QUANT", has total supply 0 and no balances or allowances, and is owned by its deployer. |
| TokenLedger.QuantToken.BalanceOf | test/TransferTests.cs:123-125 | An address never credited reads 0. |
| TokenLedger.QuantToken.Allowance | test/TransferTests.cs:118-119 | A (holder, spender) pair never approved reads 0. |
| TokenLedger.QuantToken.TransferOwnership | test/MintTests.cs:52-62 | Succeeds exactly when the current owner calls it with a non-zero new owner. The new owner replaces the old one outright. |
| TokenLedger.QuantToken.Mint | test/MintTests.cs:65-100 | Succeeds exactly when the owner calls it. Then the recipient gains the amount and the total supply grows by it; otherwise nothing changes. |
| TokenLedger.QuantToken.Approve | test/TransferTests.cs:118-119 | The allowance of (caller, spender) becomes exactly the value, and no other allowance changes. |
| TokenLedger.QuantToken.TransferFrom | test/TransferTests.cs:120-125 | Succeeds exactly when the recipient is non-zero and both balance and allowance cover the value. Then the sender loses exactly the value, the recipient gains exactly the value, the allowance shrinks by it, and every other balance is unchanged. A failure changes nothing. |
| Sale.Crowdsale.constructor | test/WhitelistTests.cs:324-349 | A fresh crowdsale has no caps, contributions, affiliates, allocations or holders, has raised nothing, has not opened the pre-sale, and has not settled. |
| Sale.Crowdsale.GetUserCap | test/WhitelistTests.cs:324-335 | An address never given a cap reads 0. |
| Sale.Crowdsale.GetUserContribution | test/WhitelistTests.cs:338-349 | An address that never bought reads 0. |
| Sale.Crowdsale.GetAffiliate | test/AffiliateTests.cs:212-229 | An investor never linked reads the zero address. |
| Sale.Crowdsale.AllocatedBalance | test/TransferTests.cs:74-79 | An address that was never allocated anything reads 0. |
| Sale.Crowdsale.BalanceOf | test/BaseTest.cs:242-244 | The token balance of an address, read from the token ledger; an address never credited reads 0. |
| Sale.Crowdsale.SetUserCap | test/WhitelistTests.cs:266-321 | Succeeds exactly for the owner. Then the cap of that one address becomes the amount, replacing any earlier cap; a revert leaves every cap as it was. |
| Sale.Crowdsale.SetGroupCap | test/WhitelistTests.cs:62-109 | Succeeds exactly for the owner. Then every listed address has the cap and every other cap is unchanged; on a revert no cap changes. |
| Sale.Crowdsale.AddAffiliate | test/AffiliateTests.cs:212-247 | Succeeds exactly for the owner, with arguments in the order (affiliate, investor). Then the investor's affiliate is the given one; a revert changes no link. |
| Sale.Crowdsale.OpenPresale | test/BuyTests.cs:199-202 | Succeeds exactly for the owner before the opening time, after which the sale is in its pre-sale phase at that time. The flag never turns off. |
| Sale.Crowdsale.BuyTokens | test/WhitelistTests.cs:112-242 | Reverts exactly when the sale is not open or has already been settled, when the beneficiary is zero or the amount is 0, or when contribution plus amount would exceed the cap, and then changes nothing. Otherwise it records exactly the amount as contributed, adds it to the wei raised, and allocates amount × phase rate through `Allocate`. New holders are appended in order, and the contribution stays within the cap. |
| Sale.Crowdsale.WithdrawAllTokens | test/BuyTests.cs:183-216 | Reverts for a non-owner, at or before the closing time, on any second call, and when the token refuses the crowdsale's mints, and then changes nothing. Otherwise the token ledger becomes exactly `Settle` of the old one and the total supply grows by the settled amount. Every pending balance reads 0 afterwards, and the crowdsale is marked settled. |
| Scenarios.DefaultRoles | test/Model/CrowdsaleConstructorModel.cs:30-42 | With distinct, non-zero test accounts, the four default reserves are distinct from each other and from the owner. |
| Scenarios.Deploy | test/BaseTest.cs:333-338 | A deployment consists of a fresh token and a fresh crowdsale holding the configuration, with all state empty. The token's owner is the crowdsale, its total supply 0. |
| Scenarios.FreshTokenReads | test/ERC20Tests.cs:49-88 | After deployment the total supply reads 0, the name "Quantler" and the symbol "QUANT". |
| Scenarios.TokenOwnedBySale | test/MintTests.cs:52-62 | After deployment the token's owner is the crowdsale's address. |
| Scenarios.FormerOwnerCannotMint | test/MintTests.cs:65-100 | The deploying account's mint reverts during the sale, the settlement still succeeds, and the same mint reverts again afterwards. |
| Scenarios.UnlistedAddressReadsZero | test/WhitelistTests.cs:324-349 | For any address, the cap and the contribution read 0 on a fresh deployment. |
| Scenarios.SetCapByCaller | test/WhitelistTests.cs:245-321 | `setUserCap` succeeds exactly for the owner; the cap then reads the amount, else 0, and the contribution reads 0 either way. |
| Scenarios.CapOverwritten | test/WhitelistTests.cs:284-303 | After two `setUserCap` calls on one address, the cap reads the second amount. |
| Scenarios.GroupCapByCaller | test/WhitelistTests.cs:62-109 | `setGroupCap` succeeds exactly for the owner. Every listed cap then reads the amount, else 0. |
| Scenarios.PurchaseAboveCap | test/WhitelistTests.cs:112-210 | A purchase above the cap, a cap of 0 included, reverts with a cap error in the pre-sale and in the main sale alike. The cap reads unchanged and the contribution reads 0. |
| Scenarios.PurchaseWithinCap | test/WhitelistTests.cs:213-242 | A purchase within the cap succeeds. The contribution then reads exactly the amount and the cap reads unchanged. |
| Scenarios.PurchaseBeforeStart | test/BuyTests.cs:159-169 | Before the opening time, without a pre-sale, a purchase reverts because the sale is not open. |
| Scenarios.AffiliateLinkByCaller | test/AffiliateTests.cs:212-247 | `addAffiliate` succeeds exactly for the owner. The lookup then reads the affiliate, else the zero address. |
| Scenarios.PresaleAllocationAlone | test/AffiliateTests.cs:186-209 | Without an affiliate, a pre-sale purchase allocates exactly amount × 1666. |
| Scenarios.PresaleAllocationWithAffiliate | test/AffiliateTests.cs:148-183 | With an affiliate, a pre-sale purchase allocates amount × 1666 × 105 / 100 to the investor and × 5 / 100 to the affiliate, and the investor gets more than amount × 1666. |
| Scenarios.SoftCapAllocationWithAffiliate | test/AffiliateTests.cs:106-145 | The same split at the soft-cap rate 1481, from the opening time while the soft cap is not reached. |
| Scenarios.HardCapAllocationWithAffiliate | test/AffiliateTests.cs:57-103 | With the soft cap set to 1 and a 1-wei purchase made first, the split uses the hard-cap rate 1234. |
| Scenarios.AllocatedButNotIssued | test/TransferTests.cs:51-81 | During the sale, a buyer's allocation is positive and its token balance is 0. |
| Scenarios.CheckedInt32 | test/TransferTests.cs:75-76 | The C# `(int)` conversion gives the value exactly when it is at most 2^31 − 1, and fails otherwise. |
| Scenarios.AllocatedReadAsInt32 | test/TransferTests.cs:51-81 | With the suite's one-ether pre-sale purchase, the `(int)` conversion of the allocated balance fails, while that of the token balance (0) succeeds. This is the as-written half of the second finding below. |
| Scenarios.SettlementSpreadPresale | test/BuyTests.cs:360-411 | After a pre-sale purchase and the settlement, all of the following hold. The investor holds exactly amount × 1666 and its allocation reads 0. Each reserve holds exactly its share of key = amount × 1666 × 100 / 30. company > investor > mining > ICO > GitHub > 0. |
| Scenarios.SettlementSpreadSoftCap | test/BuyTests.cs:414-461 | The same settlement, with the investor amount at the soft-cap rate 1481. |
| Scenarios.ReserveAccountContributes | test/BuyTests.cs:257-289 | The company reserve account buying in the pre-sale ends with strictly more than its contribution × 1666, which is the input that contradicts the multi-contributor expectation. |
| Scenarios.WithdrawOnlyOnce | test/BuyTests.cs:183-216 | A settlement at the closing time reverts as not ended. The first one after it succeeds, and the second reverts as already done. A later purchase then reverts, and the investor's allocation reads 0. |
| Scenarios.TransferAfterSettlement | test/TransferTests.cs:84-126 | After the settlement and an approval of `value`, `transferFrom` lowers the investor's balance by exactly `value`, and the fresh recipient holds exactly `value`. |

## Left out

- Refunds, partial fills, tier overflow within one purchase, and enforcement of the hard cap and the pre-sale cap. The tests covering them (test/BuyTests.cs:93-156, 172-180, 219-254, 292-319) are stubs that assert nothing. The configuration carries `hardCap` and `preSaleCap`, but no operation uses them.
- The wei raised is tracked (`weiRaised`), and the wallet that receives the ether is a configuration field. The ether transfer to the wallet is not modelled: no test observes it.
- The Web3 and Nethereum plumbing (RPC calls, gas, receipts, account creation), and the wall-clock waiting loops. Time is the explicit `now` argument, and a transaction is a method call.
- Floating-point conversions: Unix timestamps from `DateTime`, and `GetEther` from a double. Amounts are integers in wei.
- JSON loading of contract artifacts, the fluent test fixture, the `PrepareCrowdSale` helper's own code, and the truffle build and migration configuration.
- The token's own behaviour beyond what the suite relies on: `transfer`, events and `finishMinting`. `Mint` is not restricted in time: the tests only show that a non-owner's mint fails.
- Who may call `openPresale` and `withdrawAllTokens` is not asserted by any test; the model makes both owner-only.
- Scenarios.FormerOwnerCannotMint: it adds a settlement between the two mints that the suite does not perform. It also adds one purchase that the suite does not make: test/MintTests.cs:70-75 and 89-93 prepare the sale without contributors.
- C# integer widths of the suite's reads are not modelled beyond `Scenarios.CheckedInt32`. Token balances are decoded as `long` (test/BaseTest.cs:242-244), and the model's reads return unbounded naturals.
- Block time is a free argument of each call, not a clock that only moves forward.

## Findings

| source | as written | input that shows it | evidently intended | confidence | as-written member | corrected member |
|---|---|---|---|---|---|---|
| test/BuyTests.cs:257-289 | Accounts 1 to 4 each buy in the pre-sale, and after settlement each is expected to hold exactly its contribution × 1666. But accounts 2, 3 and 4 are the default company reserve, mining pool and ICO bounty (test/Model/CrowdsaleConstructorModel.cs:30,34,35), so settlement also pays them their reserve shares. | The company reserve (account 2) buying any positive amount in the pre-sale: it ends with contribution × 1666 plus the company share, strictly more than expected. | Contributors are accounts that play no reserve role; each then ends with exactly its contribution × rate. | not executed | Allocation.ReserveContributorGetsMore | Allocation.SettleCreditsHolder |
| test/TransferTests.cs:75-76 | The allocated balance is read as a big integer and cast with `(int)` before the assertions. | The suite's own one-ether pre-sale purchase: the allocation is 10^18 × 1666, about 1.67 × 10^21, far above 2^31 − 1, so the cast throws an overflow exception before anything is asserted. | The allocation reads positive and the token balance reads 0, compared as big integers. | not executed | Scenarios.AllocatedReadAsInt32 | Scenarios.AllocatedButNotIssued |
