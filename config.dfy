/** Campaign configuration: the immutable record handed to the crowdsale
    constructor, with the default values the test suite deploys. */
module Config {

  /** An account or contract address; 0 plays the role of the zero address. */
  type Address = nat

  const ZeroAddress: Address := 0

  /** The suite's "one ether" constant. Its value is 10^17 wei, a tenth of
      an ether, and the default caps are multiples of it. */
  const OneEth: nat := 100_000_000_000_000_000

  const SecondsPerDay: nat := 86400

  datatype Option<T> = None | Some(value: T)

  /** No address occurs twice. */
  predicate Distinct(s: seq<Address>)
  {
    forall i, j :: 0 <= i < j < |s| ==> s[i] != s[j]
  }

  /** Everything the crowdsale is created with; never changed afterwards.
      `owner` is the account that deploys the crowdsale. */
  datatype CampaignConfig = CampaignConfig(
    openingTime: nat,
    closingTime: nat,
    softCapRate: nat,
    hardCapRate: nat,
    preSaleRate: nat,
    wallet: Address,
    companyReserve: Address,
    miningPool: Address,
    icoBounty: Address,
    gitHubBounty: Address,
    hardCap: nat,
    softCap: nat,
    preSaleCap: nat,
    owner: Address)

  /** The four recipients of the reserve spread at settlement. */
  function Reserves(c: CampaignConfig): seq<Address>
  {
    [c.companyReserve, c.miningPool, c.icoBounty, c.gitHubBounty]
  }

  /** Owner, wallet and reserves, in the order of the test accounts that
      play them by default. */
  function Roles(c: CampaignConfig): seq<Address>
  {
    [c.owner, c.wallet] + Reserves(c)
  }

  /** The default campaign deployed at time `now` by the first of the test
      `accounts`; the next five accounts are wallet, company reserve, mining
      pool, ICO bounty and GitHub bounty. */
  function DefaultConfig(now: nat, accounts: seq<Address>): (c: CampaignConfig)
    requires |accounts| >= 6
    ensures c.preSaleRate > c.softCapRate > c.hardCapRate > 0
    ensures c.preSaleCap < c.softCap < c.hardCap
    ensures now < c.openingTime < c.closingTime
    ensures Roles(c) == accounts[..6]
    ensures Distinct(accounts[..6]) ==> Distinct(Roles(c))
  {
    CampaignConfig(
      openingTime := now + 31 * SecondsPerDay,
      closingTime := now + 62 * SecondsPerDay,
      softCapRate := 1481,
      hardCapRate := 1234,
      preSaleRate := 1666,
      wallet := accounts[1],
      companyReserve := accounts[2],
      miningPool := accounts[3],
      icoBounty := accounts[4],
      gitHubBounty := accounts[5],
      hardCap := 35000 * OneEth,
      softCap := 12500 * OneEth,
      preSaleCap := 1000 * OneEth,
      owner := accounts[0])
  }

  /** How the constructor binds its fourteen positional arguments; the
      owner is whoever sends the deployment. */
  function DecodeConstructorArgs(args: seq<nat>, deployer: Address): Option<(CampaignConfig, Address)>
  {
    if |args| != 14 then None
    else
      Some((CampaignConfig(
              openingTime := args[0],
              closingTime := args[1],
              softCapRate := args[2],
              hardCapRate := args[3],
              preSaleRate := args[4],
              wallet := args[5],
              companyReserve := args[6],
              miningPool := args[7],
              icoBounty := args[8],
              gitHubBounty := args[9],
              hardCap := args[10],
              softCap := args[11],
              preSaleCap := args[12],
              owner := deployer),
            args[13]))
  }

  /** The argument list the deployment sends, in the constructor's fixed
      order, ending with the token's address. */
  function ConstructorArgs(c: CampaignConfig, token: Address): (args: seq<nat>)
    ensures |args| == 14
    ensures DecodeConstructorArgs(args, c.owner) == Some((c, token))
  {
    [c.openingTime, c.closingTime, c.softCapRate, c.hardCapRate, c.preSaleRate,
     c.wallet, c.companyReserve, c.miningPool, c.icoBounty, c.gitHubBounty,
     c.hardCap, c.softCap, c.preSaleCap, token]
  }
}
