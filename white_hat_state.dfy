/**
 * Storage, messages and errors of the white-hat draft (percent scale).
 * Field names follow the function bodies: the cw721 address is `cw721Addr` throughout.
 */
module WhiteHatState {
  import opened Wrappers
  import opened Cosmos
  import Ordering
  import Settlement

  /** The largest bounty percentage `subscribe` and `update_subscription` accept. */
  const MAX_BOUNTY_PCT: nat := Settlement.PERCENT_SCALE

  /** The largest protocol fee `instantiate` accepts. */
  const MAX_PROTOCOL_FEE: nat := 100

  /** The `kind` a failed `load` reports for each store. */
  const CONFIG_KIND: string := "Config"
  const SUBSCRIPTIONS_KIND: string := "Subscriptions"

  datatype Config = Config(contractOwner: Addr, protocolFee: u16, cw721Addr: Addr)

  /** The terms of one protected contract. */
  datatype Subscription = Subscription(bountyPct: u16, minBounty: Option<u128>)

  /** One ledger entry of the hacks table. */
  datatype Hack = Hack(date: u64, contractExploited: Addr, totalAmountHacked: u128, bounty: u128, hackerAddr: Addr)

  /** The hacks table is keyed by (hacker address, date). */
  type HackKey = (Addr, u64)

  /**
   * The order a `Map<(Addr, u64), _>` is ranged in: its stored key is the address prefixed by
   * its two-byte length, then the date in big-endian bytes, so shorter addresses come first,
   * then addresses in byte order, then dates.
   */
  predicate HackKeyLess(a: HackKey, b: HackKey)
  {
    || |a.0| < |b.0|
    || (|a.0| == |b.0| && AddrLess(a.0, b.0))
    || (a.0 == b.0 && a.1 < b.1)
  }

  lemma HackKeyLessIsStrictTotalOrder()
    ensures Ordering.StrictTotalOrder(HackKeyLess)
  {
    AddrLessIsStrictTotalOrder();
  }

  datatype ContractError =
    | Std(std: StdError)
    | ParseReplyError
    | Unauthorized
    | InvalidBountyPercentage
    | NothingToUpdate
    | UnknownReplyId(id: u64)
    | InvalidProtocolFee
    | NothingToWithdraw
    | CustomError(val: string)
      /** Not declared in this draft's error enum, but raised by its receive hook. */
    | ErrorParsingInstantiateReply

  /** The cw20 hook payload. */
  datatype ReceiveMsg = DepositCw20(subscriber: string)

  datatype InstantiateMsg = InstantiateMsg(
    protocolFee: u16,
    cw721CodeId: u64,
    cw721Name: string,
    cw721Symbol: string,
    cw721Label: string,
    cw721Admin: Option<string>)

  /** The subscriptions table: protected contract address to its terms. */
  type Registry = map<Addr, Subscription>

  /** The invariant the registry operations keep: no stored percentage exceeds 100. */
  predicate RatesBounded(reg: Registry)
  {
    forall a :: a in reg ==> reg[a].bountyPct <= MAX_BOUNTY_PCT
  }

  /** The contract's persistent storage. `config` is None until `instantiate` saves it. */
  class Storage {
    var config: Option<Config>
    var subscriptions: Registry
    var hacks: map<HackKey, Hack>

    /** The storage of a contract that has not been instantiated. */
    constructor ()
      ensures config == None && subscriptions == map[] && hacks == map[]
    {
      config := None;
      subscriptions := map[];
      hacks := map[];
    }
  }
}
