/**
 * Storage, messages and errors of the first draft, `contract_1` (basis-point scale).
 * The records follow what the handlers read and write: a subscription holds only its
 * commission, and the configuration holds the owner, the basis-point rate that
 * `update_config` calls `bounty_pct` and `instantiate` calls `protocol_fee_bps`, an optional
 * minimum bounty, and the cw721 address.
 */
module Contract1State {
  import opened Wrappers
  import opened Cosmos
  import Settlement

  /** The largest commission, in basis points, `subscribe` and `update_subscription` accept. */
  const MAX_COMMISSION_BPS: nat := Settlement.BPS_SCALE

  /** The `kind` a failed `load` reports for each store. */
  const CONFIG_KIND: string := "Config"
  const SUBSCRIPTIONS_KIND: string := "Subscriptions"

  datatype Config = Config(contractOwner: Addr, protocolFeeBps: u16, minBounty: Option<u128>, cw721Addr: Addr)

  /** The terms of one protected contract. */
  datatype Subscription = Subscription(commissionBps: u16)

  datatype ContractError =
    | Std(std: StdError)
    | ParseReplyError
    | Unauthorized
    | BeneficiaryMustBeDifferentFromProtectedContract
    | InvalidCommissionBps
    | NothingToUpdate
    | NewContractOwnerMustBeDifferent
    | NotSubscribed
    | InvalidCw20HookMsg
    | ErrorParsingInstantiateReply
    | UnknownReplyId(id: u64)
    | CustomError(val: string)

  /** The cw20 hook payload. */
  datatype Cw20HookMsg = DepositCw20

  datatype InstantiateMsg = InstantiateMsg(
    protocolFeeBps: u16,
    cw721CodeId: u64,
    cw721Name: string,
    cw721Symbol: string,
    cw721Label: string,
    cw721Admin: Option<string>)

  /** The subscriptions table: protected contract address to its terms. */
  type Registry = map<Addr, Subscription>

  /** The invariant the registry operations keep: no stored commission exceeds 10,000 basis points. */
  predicate RatesBounded(reg: Registry)
  {
    forall a :: a in reg ==> reg[a].commissionBps <= MAX_COMMISSION_BPS
  }

  /** The contract's persistent storage. `config` is None until `instantiate` saves it. */
  class Storage {
    var config: Option<Config>
    var subscriptions: Registry

    /** The storage of a contract that has not been instantiated. */
    constructor ()
      ensures config == None && subscriptions == map[]
    {
      config := None;
      subscriptions := map[];
    }
  }
}
