/**
 * Storage, messages and errors of the `sombrero` draft, as far as its instantiation reads
 * and writes them. The protocol fee is a 128-bit amount here.
 */
module SombreroState {
  import opened Wrappers
  import opened Cosmos

  /** The largest protocol fee `instantiate` accepts. */
  const MAX_PROTOCOL_FEE: nat := 100

  /** The `kind` a failed `load` of the configuration reports. */
  const CONFIG_KIND: string := "Config"

  datatype Config = Config(contractOwner: Addr, protocolFee: u128, cw721Addr: Addr)

  datatype ContractError =
    | Std(std: StdError)
    | ParseReplyError
    | Unauthorized
    | InvalidBountyPercentage
    | NothingToUpdate
    | UnknownReplyId(id: u64)
    | InvalidProtocolFee
    | Overflow
    | Underflow
    | NothingToWithdraw

  datatype InstantiateMsg = InstantiateMsg(
    protocolFee: u128,
    cw721CodeId: u64,
    cw721Name: string,
    cw721Symbol: string,
    cw721Label: string,
    cw721Admin: Option<string>)

  /** The contract's persistent configuration. `config` is None until `instantiate` saves it. */
  class Storage {
    var config: Option<Config>

    /** The storage of a contract that has not been instantiated. */
    constructor ()
      ensures config == None
    {
      config := None;
    }
  }
}
