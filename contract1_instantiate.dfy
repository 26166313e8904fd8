/**
 * Two-phase instantiation of the first draft, `contract_1`. Unlike the later drafts,
 * `instantiate` makes the contract itself the owner and does not check the fee; it asks the
 * host to instantiate the cw721 contract under reply id 0, and the reply handler writes the
 * reported address into the configuration and answers with an empty response.
 */
module Contract1Instantiate {
  import opened Wrappers
  import opened Cosmos
  import opened Contract1State

  /** The reply id `instantiate` attaches to the cw721 instantiation and the `reply` entry point routes by. */
  const INSTANTIATE_CW721_REPLY_ID: u64 := 0

  /** The message `handle_instantiate_reply` fails with when the reply carries no instantiated address. */
  const PARSE_FAILURE_MSG: string := "error parsing instantiate reply"

  /** The cw721 instantiation, with this contract as minter, replying on success. */
  function Cw721InstantiateSubMsg(env: Env, msg: InstantiateMsg): (sub: SubMsg)
    ensures sub.id == INSTANTIATE_CW721_REPLY_ID && sub.replyOn == OnSuccess
    ensures sub.msg.WasmInstantiate? && sub.msg.init.minter == env.contractAddress
    ensures sub.msg.codeId == msg.cw721CodeId && sub.msg.admin == msg.cw721Admin
    ensures sub.msg.init.name == msg.cw721Name && sub.msg.init.symbol == msg.cw721Symbol
    ensures sub.msg.contractLabel == msg.cw721Label
  {
    var init := Cw721InstantiateMsg(msg.cw721Name, msg.cw721Symbol, env.contractAddress);
    SubMsg(INSTANTIATE_CW721_REPLY_ID, WasmInstantiate(msg.cw721Admin, msg.cw721CodeId, init, msg.cw721Label), OnSuccess)
  }

  /**
   * What `instantiate` saves and answers. It cannot fail: the owner is the contract's own
   * address whoever sends the message, the fee is kept as given without a range check, there
   * is no minimum bounty yet, and the cw721 address is the empty sentinel.
   */
  function InstantiateOutcome(env: Env, info: MessageInfo, msg: InstantiateMsg): (r: (Config, Response))
    ensures r.0 == Config(env.contractAddress, msg.protocolFeeBps, None, EMPTY_ADDR)
    ensures r.1.attributes == [Attribute("action", "instantiate")]
    ensures r.1.messages == [Cw721InstantiateSubMsg(env, msg)]
  {
    var cfg := Config(env.contractAddress, msg.protocolFeeBps, None, EMPTY_ADDR);
    (cfg, Response([Attribute("action", "instantiate")], [Cw721InstantiateSubMsg(env, msg)]))
  }

  /**
   * What `handle_instantiate_reply` saves and answers: a reply without an instantiated
   * address is a generic error; otherwise the stored configuration gets the reported cw721
   * address and keeps everything else.
   */
  function InstantiateReplyOutcome(cfg: Option<Config>, reply: Reply): (r: Result<(Config, Response), ContractError>)
    ensures reply.instantiated.None? ==> r == Err(Std(GenericErr(PARSE_FAILURE_MSG)))
    ensures reply.instantiated.Some? && cfg.None? ==> r == Err(Std(NotFound(CONFIG_KIND)))
    ensures r.Ok? <==> reply.instantiated.Some? && cfg.Some?
    ensures r.Ok? ==> r.value.0.cw721Addr == reply.instantiated.value
    ensures r.Ok? ==> r.value.0.contractOwner == cfg.value.contractOwner
    ensures r.Ok? ==> r.value.0.protocolFeeBps == cfg.value.protocolFeeBps
    ensures r.Ok? ==> r.value.0.minBounty == cfg.value.minBounty
    ensures r.Ok? ==> r.value.1 == Response([], [])
  {
    match reply.instantiated
    case None => Err(Std(GenericErr(PARSE_FAILURE_MSG)))
    case Some(addr) =>
      if cfg.None? then
        Err(Std(NotFound(CONFIG_KIND)))
      else
        Ok((cfg.value.(cw721Addr := addr), Response([], [])))
  }

  /** What the `reply` entry point answers: only reply id 0 reaches the handler. */
  function ReplyOutcome(cfg: Option<Config>, reply: Reply): (r: Result<(Config, Response), ContractError>)
    ensures reply.id != INSTANTIATE_CW721_REPLY_ID ==> r == Err(UnknownReplyId(reply.id))
    ensures reply.id == INSTANTIATE_CW721_REPLY_ID ==> r == InstantiateReplyOutcome(cfg, reply)
  {
    if reply.id == INSTANTIATE_CW721_REPLY_ID then InstantiateReplyOutcome(cfg, reply) else Err(UnknownReplyId(reply.id))
  }

  /**
   * The two phases together: the reply to the sub-message `instantiate` emits, under that
   * sub-message's id, completes the configuration with the reported address; the owner is the
   * contract itself and the fee is the one given at instantiation.
   */
  lemma TwoPhaseInstantiation(env: Env, info: MessageInfo, msg: InstantiateMsg, cw721: Addr)
    ensures var (cfg, resp) := InstantiateOutcome(env, info, msg);
            && cfg.cw721Addr == EMPTY_ADDR
            && ReplyOutcome(Some(cfg), Reply(resp.messages[0].id, Some(cw721)))
               == Ok((Config(env.contractAddress, msg.protocolFeeBps, None, cw721), Response([], [])))
  {
  }

  /** `instantiate`. The contract-version record it also writes is not modelled. */
  method Instantiate(st: Storage, env: Env, info: MessageInfo, msg: InstantiateMsg)
    returns (r: Result<Response, ContractError>)
    modifies st`config
    ensures st.config == Some(InstantiateOutcome(env, info, msg).0)
    ensures r == Ok(InstantiateOutcome(env, info, msg).1)
  {
    var cfg := Config(env.contractAddress, msg.protocolFeeBps, None, EMPTY_ADDR);
    st.config := Some(cfg);

    var instantiateCw721Msg := WasmInstantiate(msg.cw721Admin, msg.cw721CodeId,
                                               Cw721InstantiateMsg(msg.cw721Name, msg.cw721Symbol, env.contractAddress),
                                               msg.cw721Label);
    var instantiateCw721SubMessage := SubMsg(INSTANTIATE_CW721_REPLY_ID, instantiateCw721Msg, OnSuccess);
    r := Ok(Response([Attribute("action", "instantiate")], [instantiateCw721SubMessage]));
  }

  /** `handle_instantiate_reply`. */
  method HandleInstantiateReply(st: Storage, reply: Reply) returns (r: Result<Response, ContractError>)
    modifies st`config
    ensures match InstantiateReplyOutcome(old(st.config), reply)
            case Ok((cfg, resp)) => st.config == Some(cfg) && r == Ok(resp)
            case Err(e) => st.config == old(st.config) && r == Err(e)
  {
    if reply.instantiated.None? {
      return Err(Std(GenericErr(PARSE_FAILURE_MSG)));
    }
    var addr := reply.instantiated.value;
    if st.config.None? {
      return Err(Std(NotFound(CONFIG_KIND)));
    }
    var config := st.config.value;
    config := config.(cw721Addr := addr);
    st.config := Some(config);
    r := Ok(Response([], []));
  }

  /** The `reply` entry point. */
  method HandleReply(st: Storage, env: Env, info: MessageInfo, reply: Reply) returns (r: Result<Response, ContractError>)
    modifies st`config
    ensures match ReplyOutcome(old(st.config), reply)
            case Ok((cfg, resp)) => st.config == Some(cfg) && r == Ok(resp)
            case Err(e) => st.config == old(st.config) && r == Err(e)
  {
    if reply.id == INSTANTIATE_CW721_REPLY_ID {
      r := HandleInstantiateReply(st, reply);
    } else {
      r := Err(UnknownReplyId(reply.id));
    }
  }
}
