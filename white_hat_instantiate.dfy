/**
 * Two-phase instantiation of the white-hat draft. `instantiate` saves the configuration with
 * the cw721 address still empty and asks the host to instantiate the cw721 contract, replying
 * on success under a reply id; the reply handler then writes the reported address into the
 * configuration and touches nothing else.
 */
module WhiteHatInstantiate {
  import opened Wrappers
  import opened Cosmos
  import opened WhiteHatState

  /** The reply id the contract's entry point passes to `instantiate` and routes replies by. */
  const INSTANTIATE_CW721_REPLY_ID: u64 := 2

  /** The cw721 instantiation, with this contract as minter, replying on success under `replyId`. */
  function Cw721InstantiateSubMsg(env: Env, msg: InstantiateMsg, replyId: u64): (sub: SubMsg)
    ensures sub.id == replyId && sub.replyOn == OnSuccess
    ensures sub.msg.WasmInstantiate? && sub.msg.init.minter == env.contractAddress
    ensures sub.msg.codeId == msg.cw721CodeId && sub.msg.admin == msg.cw721Admin
    ensures sub.msg.init.name == msg.cw721Name && sub.msg.init.symbol == msg.cw721Symbol
    ensures sub.msg.contractLabel == msg.cw721Label
  {
    var init := Cw721InstantiateMsg(msg.cw721Name, msg.cw721Symbol, env.contractAddress);
    SubMsg(replyId, WasmInstantiate(msg.cw721Admin, msg.cw721CodeId, init, msg.cw721Label), OnSuccess)
  }

  /**
   * What `instantiate` saves and answers: a fee above 100 is refused before anything is
   * saved; otherwise the sender becomes owner, the fee is kept as given, the cw721 address is
   * the empty sentinel, and the one sub-message is the cw721 instantiation.
   */
  function InstantiateOutcome(env: Env, info: MessageInfo, msg: InstantiateMsg, replyId: u64)
    : (r: Result<(Config, Response), ContractError>)
    ensures r.Err? <==> msg.protocolFee > MAX_PROTOCOL_FEE
    ensures r.Err? ==> r.error == InvalidProtocolFee
    ensures r.Ok? ==> r.value.0 == Config(info.sender, msg.protocolFee, EMPTY_ADDR)
    ensures r.Ok? ==> r.value.1.attributes == [Attribute("action", "instantiate"), Attribute("contract_owner", info.sender)]
    ensures r.Ok? ==> |r.value.1.messages| == 1 && r.value.1.messages[0].id == replyId
    ensures r.Ok? ==> r.value.1.messages[0].replyOn == OnSuccess
    ensures r.Ok? ==> r.value.1.messages[0] == Cw721InstantiateSubMsg(env, msg, replyId)
  {
    if msg.protocolFee > MAX_PROTOCOL_FEE then
      Err(InvalidProtocolFee)
    else
      var cfg := Config(info.sender, msg.protocolFee, EMPTY_ADDR);
      Ok((cfg, Response([Attribute("action", "instantiate"), Attribute("contract_owner", cfg.contractOwner)],
                        [Cw721InstantiateSubMsg(env, msg, replyId)])))
  }

  /**
   * What `handle_cw721_instantiate_reply` saves and answers: a reply that does not parse is
   * an error; otherwise the stored configuration gets the reported cw721 address and keeps
   * its owner and fee.
   */
  function Cw721ReplyOutcome(cfg: Option<Config>, reply: Reply): (r: Result<(Config, Response), ContractError>)
    ensures reply.instantiated.None? ==> r == Err(ParseReplyError)
    ensures reply.instantiated.Some? && cfg.None? ==> r == Err(Std(NotFound(CONFIG_KIND)))
    ensures r.Ok? <==> reply.instantiated.Some? && cfg.Some?
    ensures r.Ok? ==> r.value.0.cw721Addr == reply.instantiated.value
    ensures r.Ok? ==> r.value.0.contractOwner == cfg.value.contractOwner
    ensures r.Ok? ==> r.value.0.protocolFee == cfg.value.protocolFee
    ensures r.Ok? ==> r.value.1 == Response([Attribute("method", "instantiate_cw721_reply"),
                                            Attribute("cw721_addr", reply.instantiated.value)], [])
  {
    match reply.instantiated
    case None => Err(ParseReplyError)
    case Some(addr) =>
      if cfg.None? then
        Err(Std(NotFound(CONFIG_KIND)))
      else
        Ok((cfg.value.(cw721Addr := addr),
            Response([Attribute("method", "instantiate_cw721_reply"), Attribute("cw721_addr", addr)], [])))
  }

  /** What the `reply` entry point answers: only the cw721 reply id reaches the handler. */
  function ReplyOutcome(cfg: Option<Config>, reply: Reply): (r: Result<(Config, Response), ContractError>)
    ensures reply.id != INSTANTIATE_CW721_REPLY_ID ==> r == Err(UnknownReplyId(reply.id))
    ensures reply.id == INSTANTIATE_CW721_REPLY_ID ==> r == Cw721ReplyOutcome(cfg, reply)
  {
    if reply.id == INSTANTIATE_CW721_REPLY_ID then Cw721ReplyOutcome(cfg, reply) else Err(UnknownReplyId(reply.id))
  }

  /**
   * The two phases together: the reply to the one sub-message `instantiate` emits, under that
   * sub-message's own id, reaches the handler and completes the configuration with the
   * reported address; owner and fee are those `instantiate` saved.
   */
  lemma TwoPhaseInstantiation(env: Env, info: MessageInfo, msg: InstantiateMsg, cw721: Addr)
    requires msg.protocolFee <= MAX_PROTOCOL_FEE
    ensures InstantiateOutcome(env, info, msg, INSTANTIATE_CW721_REPLY_ID).Ok?
    ensures var (cfg, resp) := InstantiateOutcome(env, info, msg, INSTANTIATE_CW721_REPLY_ID).value;
            && cfg.cw721Addr == EMPTY_ADDR
            && ReplyOutcome(Some(cfg), Reply(resp.messages[0].id, Some(cw721))).Ok?
            && ReplyOutcome(Some(cfg), Reply(resp.messages[0].id, Some(cw721))).value.0
               == Config(info.sender, msg.protocolFee, cw721)
  {
  }

  /** `instantiate`. The contract-version record it also writes is not modelled. */
  method Instantiate(st: Storage, env: Env, info: MessageInfo, msg: InstantiateMsg, replyId: u64)
    returns (r: Result<Response, ContractError>)
    modifies st`config
    ensures match InstantiateOutcome(env, info, msg, replyId)
            case Ok((cfg, resp)) => st.config == Some(cfg) && r == Ok(resp)
            case Err(e) => st.config == old(st.config) && r == Err(e)
  {
    if msg.protocolFee > MAX_PROTOCOL_FEE {
      return Err(InvalidProtocolFee);
    }
    var cfg := Config(info.sender, msg.protocolFee, EMPTY_ADDR);
    st.config := Some(cfg);

    var cw721InstantiateMsg := Cw721InstantiateMsg(msg.cw721Name, msg.cw721Symbol, env.contractAddress);
    var message := SubMsg(replyId, WasmInstantiate(msg.cw721Admin, msg.cw721CodeId, cw721InstantiateMsg, msg.cw721Label), OnSuccess);

    r := Ok(Response([Attribute("action", "instantiate"), Attribute("contract_owner", cfg.contractOwner)], [message]));
  }

  /** `handle_cw721_instantiate_reply`. */
  method HandleCw721InstantiateReply(st: Storage, reply: Reply) returns (r: Result<Response, ContractError>)
    modifies st`config
    ensures match Cw721ReplyOutcome(old(st.config), reply)
            case Ok((cfg, resp)) => st.config == Some(cfg) && r == Ok(resp)
            case Err(e) => st.config == old(st.config) && r == Err(e)
  {
    if reply.instantiated.None? {
      return Err(ParseReplyError);
    }
    var cw721Addr := reply.instantiated.value;
    if st.config.None? {
      return Err(Std(NotFound(CONFIG_KIND)));
    }
    var cfg := st.config.value;
    cfg := cfg.(cw721Addr := cw721Addr);
    st.config := Some(cfg);
    r := Ok(Response([Attribute("method", "instantiate_cw721_reply"), Attribute("cw721_addr", cw721Addr)], []));
  }

  /** The `reply` entry point. */
  method HandleReply(st: Storage, env: Env, reply: Reply) returns (r: Result<Response, ContractError>)
    modifies st`config
    ensures match ReplyOutcome(old(st.config), reply)
            case Ok((cfg, resp)) => st.config == Some(cfg) && r == Ok(resp)
            case Err(e) => st.config == old(st.config) && r == Err(e)
  {
    if reply.id == INSTANTIATE_CW721_REPLY_ID {
      r := HandleCw721InstantiateReply(st, reply);
    } else {
      r := Err(UnknownReplyId(reply.id));
    }
  }
}
