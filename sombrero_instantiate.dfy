/**
 * Two-phase instantiation of the `sombrero` draft: as in the white-hat draft, but the fee is
 * a 128-bit amount and `instantiate` also reports it, in decimal, as a third attribute. The
 * reply id is chosen by the caller of `instantiate`.
 */
module SombreroInstantiate {
  import opened Wrappers
  import opened Cosmos
  import opened SombreroState

  /** The cw721 instantiation, with this contract as minter, replying on success under `replyId`. */
  function Cw721InstantiateSubMsg(env: Env, msg: InstantiateMsg, replyId: u64): (sub: SubMsg)
    ensures sub.id == replyId && sub.replyOn == OnSuccess
    ensures sub.msg.WasmInstantiate? && sub.msg.init.minter == env.contractAddress
    ensures sub.msg.codeId == msg.cw721CodeId && sub.msg.admin == msg.cw721Admin
    ensures sub.msg.init.name == msg.cw721Name && sub.msg.init.symbol == msg.cw721Symbol
    ensures sub.msg.contractLabel == msg.cw721Label
  {
    var init := Cw721InstantiateMsg(msg.cw721Name, msg.cw721Symbol, env.contractAddress);
    SubMsg(replyId, WasmInstantiate(msg.cw721Admin, msg.cw721CodeId, init, msg.cw721Label), OnSuccess)
  }

  /**
   * What `instantiate` saves and answers: a fee above 100 is refused before anything is
   * saved; otherwise the sender becomes owner, the fee is kept, the cw721 address is the empty
   * sentinel, the attributes are action, owner and fee in that order, and the one
   * sub-message is the cw721 instantiation.
   */
  function InstantiateOutcome(env: Env, info: MessageInfo, msg: InstantiateMsg, replyId: u64)
    : (r: Result<(Config, Response), ContractError>)
    ensures r.Err? <==> msg.protocolFee > MAX_PROTOCOL_FEE
    ensures r.Err? ==> r.error == InvalidProtocolFee
    ensures r.Ok? ==> r.value.0 == Config(info.sender, msg.protocolFee, EMPTY_ADDR)
    ensures r.Ok? ==> r.value.1.attributes == [Attribute("action", "instantiate"),
                                               Attribute("contract_owner", info.sender),
                                               Attribute("protocol_fee", Decimal(msg.protocolFee))]
    ensures r.Ok? ==> r.value.1.messages == [Cw721InstantiateSubMsg(env, msg, replyId)]
  {
    if msg.protocolFee > MAX_PROTOCOL_FEE then
      Err(InvalidProtocolFee)
    else
      var cfg := Config(info.sender, msg.protocolFee, EMPTY_ADDR);
      Ok((cfg, Response([Attribute("action", "instantiate"),
                         Attribute("contract_owner", cfg.contractOwner),
                         Attribute("protocol_fee", Decimal(cfg.protocolFee))],
                        [Cw721InstantiateSubMsg(env, msg, replyId)])))
  }

  /** With a zero fee the third attribute reads "0", and the fee attribute always reads back as the fee. */
  lemma ZeroFeeAttributes(env: Env, info: MessageInfo, msg: InstantiateMsg, replyId: u64)
    requires msg.protocolFee == 0
    ensures InstantiateOutcome(env, info, msg, replyId).Ok?
    ensures InstantiateOutcome(env, info, msg, replyId).value.1.attributes
            == [Attribute("action", "instantiate"), Attribute("contract_owner", info.sender),
                Attribute("protocol_fee", "0")]
  {
    assert Decimal(0) == [DigitChar(0)];
  }

  /** Two accepted fees are reported identically only when they are equal. */
  lemma FeeAttributeDistinguishesFees(env: Env, info: MessageInfo, m1: InstantiateMsg, m2: InstantiateMsg, replyId: u64)
    requires InstantiateOutcome(env, info, m1, replyId).Ok? && InstantiateOutcome(env, info, m2, replyId).Ok?
    requires InstantiateOutcome(env, info, m1, replyId).value.1.attributes
             == InstantiateOutcome(env, info, m2, replyId).value.1.attributes
    ensures m1.protocolFee == m2.protocolFee
  {
    var a1 := InstantiateOutcome(env, info, m1, replyId).value.1.attributes;
    assert a1[2].value == Decimal(m1.protocolFee);
    DecimalInjective(m1.protocolFee, m2.protocolFee);
  }

  /**
   * What `handle_cw721_instantiate_reply` saves and answers: a reply that does not parse is
   * an error; otherwise the stored configuration gets the reported cw721 address and keeps
   * its owner and fee.
   */
  function Cw721ReplyOutcome(cfg: Option<Config>, reply: Reply): (r: Result<(Config, Response), ContractError>)
    ensures reply.instantiated.None? ==> r == Err(ParseReplyError)
    ensures reply.instantiated.Some? && cfg.None? ==> r == Err(Std(NotFound(CONFIG_KIND)))
    ensures r.Ok? <==> reply.instantiated.Some? && cfg.Some?
    ensures r.Ok? ==> r.value.0.cw721Addr == reply.instantiated.value
    ensures r.Ok? ==> r.value.0.contractOwner == cfg.value.contractOwner
    ensures r.Ok? ==> r.value.0.protocolFee == cfg.value.protocolFee
    ensures r.Ok? ==> r.value.1 == Response([Attribute("method", "instantiate_cw721_reply"),
                                            Attribute("cw721_addr", reply.instantiated.value)], [])
  {
    match reply.instantiated
    case None => Err(ParseReplyError)
    case Some(addr) =>
      if cfg.None? then
        Err(Std(NotFound(CONFIG_KIND)))
      else
        Ok((cfg.value.(cw721Addr := addr),
            Response([Attribute("method", "instantiate_cw721_reply"), Attribute("cw721_addr", addr)], [])))
  }

  /** The reply to the sub-message `instantiate` emits completes the configuration it saved. */
  lemma TwoPhaseInstantiation(env: Env, info: MessageInfo, msg: InstantiateMsg, replyId: u64, cw721: Addr)
    requires msg.protocolFee <= MAX_PROTOCOL_FEE
    ensures InstantiateOutcome(env, info, msg, replyId).Ok?
    ensures var (cfg, resp) := InstantiateOutcome(env, info, msg, replyId).value;
            && resp.messages[0].id == replyId
            && Cw721ReplyOutcome(Some(cfg), Reply(replyId, Some(cw721))).Ok?
            && Cw721ReplyOutcome(Some(cfg), Reply(replyId, Some(cw721))).value.0
               == Config(info.sender, msg.protocolFee, cw721)
  {
  }

  /** `instantiate`. The contract-version record it also writes is not modelled. */
  method Instantiate(st: Storage, env: Env, info: MessageInfo, msg: InstantiateMsg, replyId: u64)
    returns (r: Result<Response, ContractError>)
    modifies st`config
    ensures match InstantiateOutcome(env, info, msg, replyId)
            case Ok((cfg, resp)) => st.config == Some(cfg) && r == Ok(resp)
            case Err(e) => st.config == old(st.config) && r == Err(e)
  {
    if msg.protocolFee > MAX_PROTOCOL_FEE {
      return Err(InvalidProtocolFee);
    }
    var cfg := Config(info.sender, msg.protocolFee, EMPTY_ADDR);
    st.config := Some(cfg);

    var cw721InstantiateMsg := Cw721InstantiateMsg(msg.cw721Name, msg.cw721Symbol, env.contractAddress);
    var message := SubMsg(replyId, WasmInstantiate(msg.cw721Admin, msg.cw721CodeId, cw721InstantiateMsg, msg.cw721Label), OnSuccess);

    r := Ok(Response([Attribute("action", "instantiate"),
                      Attribute("contract_owner", cfg.contractOwner),
                      Attribute("protocol_fee", Decimal(cfg.protocolFee))], [message]));
  }

  /** `handle_cw721_instantiate_reply`: the configuration is updated in place, one field. */
  method HandleCw721InstantiateReply(st: Storage, reply: Reply) returns (r: Result<Response, ContractError>)
    modifies st`config
    ensures match Cw721ReplyOutcome(old(st.config), reply)
            case Ok((cfg, resp)) => st.config == Some(cfg) && r == Ok(resp)
            case Err(e) => st.config == old(st.config) && r == Err(e)
  {
    if reply.instantiated.None? {
      return Err(ParseReplyError);
    }
    var cw721Addr := reply.instantiated.value;
    if st.config.None? {
      return Err(Std(NotFound(CONFIG_KIND)));
    }
    var cfg := st.config.value;
    cfg := cfg.(cw721Addr := cw721Addr);
    st.config := Some(cfg);
    r := Ok(Response([Attribute("method", "instantiate_cw721_reply"), Attribute("cw721_addr", cw721Addr)], []));
  }
}
