/**
 * The execute handlers of the white-hat draft: subscription registry, cw20 receive hook,
 * deposit settlement, withdraw and config update. Each handler is a method over the
 * contract's `Storage`; the registry and config updates are also given as functions of the
 * stored values (`...Step`), which say what each update means and which the methods follow.
 */
module WhiteHatExecute {
  import opened Wrappers
  import opened Cosmos
  import opened WhiteHatState
  import Settlement

  // ---------------------------------------------------------------------------
  // The registry and config updates as functions of the stored values
  // ---------------------------------------------------------------------------

  /** `subscribe`: a percentage above 100 is refused; otherwise the terms are stored under the address, replacing any earlier ones. */
  function SubscribeStep(reg: Registry, subscribedAddr: Addr, bountyPct: u16, minBounty: Option<u128>)
    : (r: Result<Registry, ContractError>)
    ensures r.Err? <==> bountyPct > MAX_BOUNTY_PCT
    ensures r.Err? ==> r.error == InvalidBountyPercentage
    ensures r.Ok? ==> r.value.Keys == reg.Keys + {subscribedAddr}
    ensures r.Ok? ==> r.value[subscribedAddr] == Subscription(bountyPct, minBounty)
    ensures r.Ok? ==> forall a :: a in reg && a != subscribedAddr ==> r.value[a] == reg[a]
  {
    if bountyPct > MAX_BOUNTY_PCT then
      Err(InvalidBountyPercentage)
    else
      Ok(reg[subscribedAddr := Subscription(bountyPct, minBounty)])
  }

  /** `unsubscribe`: drops the caller's own entry, if there is one, and nothing else. */
  function UnsubscribeStep(reg: Registry, sender: Addr): (r: Registry)
    ensures r.Keys == reg.Keys - {sender}
    ensures forall a :: a in r ==> r[a] == reg[a]
  {
    reg - {sender}
  }

  /**
   * `update_subscription`, on the caller's own entry. In order: a missing entry fails the
   * load; no new percentage and an unchanged minimum is NothingToUpdate; a new percentage
   * above 100 is refused. Otherwise the percentage is replaced when one is given, and the
   * minimum is replaced by `newMinBounty` as given, None included.
   */
  function UpdateSubscriptionStep(reg: Registry, sender: Addr, newBountyPct: Option<u16>, newMinBounty: Option<u128>)
    : (r: Result<Registry, ContractError>)
    ensures sender !in reg ==> r == Err(Std(NotFound(SUBSCRIPTIONS_KIND)))
    ensures sender in reg && newBountyPct.None? && newMinBounty == reg[sender].minBounty ==> r == Err(NothingToUpdate)
    ensures sender in reg && newBountyPct.Some? && newBountyPct.value > MAX_BOUNTY_PCT ==> r == Err(InvalidBountyPercentage)
    ensures r.Ok? <==>
              && sender in reg
              && (newBountyPct.Some? || newMinBounty != reg[sender].minBounty)
              && (newBountyPct.None? || newBountyPct.value <= MAX_BOUNTY_PCT)
    ensures r.Ok? ==> r.value.Keys == reg.Keys
    ensures r.Ok? ==> r.value[sender].minBounty == newMinBounty
    ensures r.Ok? ==> r.value[sender].bountyPct == if newBountyPct.Some? then newBountyPct.value else reg[sender].bountyPct
    ensures r.Ok? ==> forall a :: a in reg && a != sender ==> r.value[a] == reg[a]
  {
    if sender !in reg then
      Err(Std(NotFound(SUBSCRIPTIONS_KIND)))
    else
      var current := reg[sender];
      if newBountyPct.None? && newMinBounty == current.minBounty then
        Err(NothingToUpdate)
      else if OptionGreater(newBountyPct, Some(MAX_BOUNTY_PCT)) then
        Err(InvalidBountyPercentage)
      else
        Ok(reg[sender := Subscription(UnwrapOr(newBountyPct, current.bountyPct), newMinBounty)])
  }

  /** The registry-changing calls, as they reach the contract. */
  datatype RegistryCall =
    | SubscribeCall(subscribedAddr: Addr, bountyPct: u16, minBounty: Option<u128>)
    | UnsubscribeCall(sender: Addr)
    | UpdateSubscriptionCall(sender: Addr, newBountyPct: Option<u16>, newMinBounty: Option<u128>)

  /** The registry after one call; a call that fails leaves it as it was. */
  function ApplyCall(reg: Registry, call: RegistryCall): (r: Registry)
    ensures RatesBounded(reg) ==> RatesBounded(r)
  {
    match call
    case SubscribeCall(a, p, m) =>
      (match SubscribeStep(reg, a, p, m) case Ok(next) => next case Err(_) => reg)
    case UnsubscribeCall(s) =>
      UnsubscribeStep(reg, s)
    case UpdateSubscriptionCall(s, p, m) =>
      (match UpdateSubscriptionStep(reg, s, p, m) case Ok(next) => next case Err(_) => reg)
  }

  /** The registry after a sequence of calls, in order. */
  function ApplyCalls(reg: Registry, calls: seq<RegistryCall>): Registry
    decreases |calls|
  {
    if calls == [] then reg else ApplyCalls(ApplyCall(reg, calls[0]), calls[1..])
  }

  /** Whatever sequence of subscribe, unsubscribe and update calls is made, no stored percentage exceeds 100. */
  lemma {:induction false} CallsKeepRatesBounded(reg: Registry, calls: seq<RegistryCall>)
    requires RatesBounded(reg)
    ensures RatesBounded(ApplyCalls(reg, calls))
    decreases |calls|
  {
    if calls != [] {
      CallsKeepRatesBounded(ApplyCall(reg, calls[0]), calls[1..]);
    }
  }

  /** Subscribing and then unsubscribing from the same address leaves no entry for it and every other entry as it was. */
  lemma SubscribeThenUnsubscribe(reg: Registry, addr: Addr, bountyPct: u16, minBounty: Option<u128>)
    requires bountyPct <= MAX_BOUNTY_PCT
    ensures UnsubscribeStep(SubscribeStep(reg, addr, bountyPct, minBounty).value, addr) == reg - {addr}
  {
  }

  /**
   * `update_config`, owner only. Both arguments absent, or both equal to the stored values,
   * is NothingToUpdate. Otherwise owner and fee are replaced field by field, each falling back
   * to the stored value; the cw721 address is kept and the fee is not range-checked.
   */
  function UpdateConfigStep(cfg: Option<Config>, sender: Addr, newOwner: Option<string>, newFee: Option<u16>)
    : (r: Result<Config, ContractError>)
    ensures cfg.None? ==> r == Err(Std(NotFound(CONFIG_KIND)))
    ensures cfg.Some? && sender != cfg.value.contractOwner ==> r == Err(Unauthorized)
    ensures cfg.Some? && sender == cfg.value.contractOwner && newOwner.None? && newFee.None? ==> r == Err(NothingToUpdate)
    ensures (&& cfg.Some? && sender == cfg.value.contractOwner
             && newOwner == Some(cfg.value.contractOwner) && newFee == Some(cfg.value.protocolFee))
            ==> r == Err(NothingToUpdate)
    ensures r.Ok? <==>
              && cfg.Some? && sender == cfg.value.contractOwner
              && (newOwner.Some? || newFee.Some?)
              && (newOwner != Some(cfg.value.contractOwner) || newFee != Some(cfg.value.protocolFee))
    ensures r.Ok? ==> r.value.contractOwner == if newOwner.Some? then newOwner.value else cfg.value.contractOwner
    ensures r.Ok? ==> r.value.protocolFee == if newFee.Some? then newFee.value else cfg.value.protocolFee
    ensures r.Ok? ==> r.value.cw721Addr == cfg.value.cw721Addr
  {
    if cfg.None? then
      Err(Std(NotFound(CONFIG_KIND)))
    else
      var config := cfg.value;
      if sender != config.contractOwner then
        Err(Unauthorized)
      else if newOwner.None? && newFee.None? then
        Err(NothingToUpdate)
      else if newOwner == Some(config.contractOwner) && newFee == Some(config.protocolFee) then
        Err(NothingToUpdate)
      else
        Ok(Config(UnwrapOr(newOwner, config.contractOwner), UnwrapOr(newFee, config.protocolFee), config.cw721Addr))
  }

  /** Handing ownership to another address takes `update_config` away from the previous owner. */
  lemma OwnershipTransferIsFinal(cfg: Config, owner: Addr, newOwner: Addr, newFee: Option<u16>,
                                 p: Option<string>, q: Option<u16>)
    requires newOwner != owner
    requires UpdateConfigStep(Some(cfg), owner, Some(newOwner), newFee).Ok?
    ensures var next := UpdateConfigStep(Some(cfg), owner, Some(newOwner), newFee).value;
            UpdateConfigStep(Some(next), owner, p, q) == Err(Unauthorized)
  {
  }

  // ---------------------------------------------------------------------------
  // The handlers
  // ---------------------------------------------------------------------------

  /** `subscribe`. Any caller may subscribe any address. */
  method Subscribe(st: Storage, env: Env, info: MessageInfo, subscribedAddr: Addr, bountyPct: u16, minBounty: Option<u128>)
    returns (r: Result<Response, ContractError>)
    modifies st`subscriptions
    ensures match SubscribeStep(old(st.subscriptions), subscribedAddr, bountyPct, minBounty)
            case Ok(next) => st.subscriptions == next && r == Ok(Response([Attribute("action", "subscribe")], []))
            case Err(e) => st.subscriptions == old(st.subscriptions) && r == Err(e)
    ensures RatesBounded(old(st.subscriptions)) ==> RatesBounded(st.subscriptions)
  {
    if bountyPct > MAX_BOUNTY_PCT {
      return Err(InvalidBountyPercentage);
    }
    var subscription := Subscription(bountyPct, minBounty);
    st.subscriptions := st.subscriptions[subscribedAddr := subscription];
    r := Ok(Response([Attribute("action", "subscribe")], []));
  }

  /** `unsubscribe`: removes the caller's entry; succeeds whether or not there was one. */
  method Unsubscribe(st: Storage, env: Env, info: MessageInfo) returns (r: Result<Response, ContractError>)
    modifies st`subscriptions
    ensures st.subscriptions == UnsubscribeStep(old(st.subscriptions), info.sender)
    ensures r == Ok(Response([Attribute("action", "unsubscribe")], []))
    ensures RatesBounded(old(st.subscriptions)) ==> RatesBounded(st.subscriptions)
  {
    st.subscriptions := st.subscriptions - {info.sender};
    r := Ok(Response([Attribute("action", "unsubscribe")], []));
  }

  /**
   * `handle_receive_cw20`: only the configured owner may deliver the hook, checked before
   * anything else; a payload that is not `DepositCw20` is refused; a deposit is settled by
   * `deposit_cw20`. `numTokens` is the cw721 contract's answer to `NumTokens`, or the
   * error its query fails with.
   */
  method HandleReceiveCw20(st: Storage, env: Env, info: MessageInfo, cw20Msg: Cw20ReceiveMsg<ReceiveMsg>,
                            numTokens: Result<u64, StdError>)
    returns (r: Result<Response, ContractError>)
    requires RatesBounded(st.subscriptions)
    requires numTokens.Ok? ==> numTokens.value < U64_MAX
    requires info.sender in st.subscriptions ==> st.subscriptions[info.sender].bountyPct * cw20Msg.amount <= U128_MAX
    ensures st.config.None? ==> r == Err(Std(NotFound(CONFIG_KIND)))
    ensures st.config.Some? && st.config.value.contractOwner != info.sender ==> r == Err(Unauthorized)
    ensures st.config.Some? && st.config.value.contractOwner == info.sender && cw20Msg.msg.None? ==>
              r == Err(ErrorParsingInstantiateReply)
    ensures st.config.Some? && st.config.value.contractOwner == info.sender && cw20Msg.msg.Some? ==>
              r == DepositOutcome(st.subscriptions, st.config, env, info, cw20Msg, numTokens)
  {
    if st.config.None? {
      return Err(Std(NotFound(CONFIG_KIND)));
    }
    var config := st.config.value;
    if config.contractOwner != info.sender {
      return Err(Unauthorized);
    }
    match cw20Msg.msg {
      case Some(DepositCw20(_)) =>
        r := DepositCw20(st, env, info, cw20Msg, numTokens);
      case None =>
        r := Err(ErrorParsingInstantiateReply);
    }
  }

  /**
   * What `deposit_cw20` answers: the depositing cw20 contract must be subscribed, the
   * configuration must exist and the cw721 contract must answer `NumTokens` (before the reply
   * has set its address the query goes to the empty address and fails); then the
   * three-message batch at the subscriber's rate.
   */
  function DepositOutcome(reg: Registry, cfg: Option<Config>, env: Env, info: MessageInfo,
                          receiveMsg: Cw20ReceiveMsg<ReceiveMsg>, numTokens: Result<u64, StdError>)
    : (r: Result<Response, ContractError>)
    requires RatesBounded(reg)
    ensures info.sender !in reg ==> r == Err(Std(NotFound(SUBSCRIPTIONS_KIND)))
    ensures info.sender in reg && cfg.None? ==> r == Err(Std(NotFound(CONFIG_KIND)))
    ensures info.sender in reg && cfg.Some? && numTokens.Err? ==> r == Err(Std(numTokens.error))
    ensures r.Ok? <==> info.sender in reg && cfg.Some? && numTokens.Ok?
    ensures r.Ok? ==> r.value == Response([Attribute("action", "deposit_cw20")],
                                          Settlement.DepositBatch(info.sender, receiveMsg.sender, env.contractAddress,
                                                                  receiveMsg.amount, reg[info.sender].bountyPct,
                                                                  Settlement.PERCENT_SCALE, numTokens.value))
  {
    if info.sender !in reg then
      Err(Std(NotFound(SUBSCRIPTIONS_KIND)))
    else if cfg.None? then
      Err(Std(NotFound(CONFIG_KIND)))
    else if numTokens.Err? then
      Err(Std(numTokens.error))
    else
      Ok(Response([Attribute("action", "deposit_cw20")],
                  Settlement.DepositBatch(info.sender, receiveMsg.sender, env.contractAddress, receiveMsg.amount,
                                          reg[info.sender].bountyPct, Settlement.PERCENT_SCALE, numTokens.value)))
  }

  /**
   * `deposit_cw20`: the caller is the cw20 contract and `receiveMsg.sender` the hacker. The
   * batch is built message by message, as the source pushes onto its vector.
   */
  method DepositCw20(st: Storage, env: Env, info: MessageInfo, receiveMsg: Cw20ReceiveMsg<ReceiveMsg>,
                     numTokens: Result<u64, StdError>)
    returns (r: Result<Response, ContractError>)
    requires RatesBounded(st.subscriptions)
    requires numTokens.Ok? ==> numTokens.value < U64_MAX
    requires info.sender in st.subscriptions ==> st.subscriptions[info.sender].bountyPct * receiveMsg.amount <= U128_MAX
    ensures r == DepositOutcome(st.subscriptions, st.config, env, info, receiveMsg, numTokens)
  {
    var hackerAddr := receiveMsg.sender;
    var cw20Contract := info.sender;
    if cw20Contract !in st.subscriptions {
      return Err(Std(NotFound(SUBSCRIPTIONS_KIND)));
    }
    var subscription := st.subscriptions[cw20Contract];
    var bounty: u128 := Settlement.Bounty(subscription.bountyPct, receiveMsg.amount, Settlement.PERCENT_SCALE);

    var messages: seq<SubMsg> := [];
    messages := messages + [Message(WasmExecute(cw20Contract, Cw20Transfer(hackerAddr, bounty)))];
    var whoseAddress := env.contractAddress;
    messages := messages + [Message(WasmExecute(cw20Contract, Cw20Transfer(whoseAddress, receiveMsg.amount - bounty)))];

    if st.config.None? {
      return Err(Std(NotFound(CONFIG_KIND)));
    }
    if numTokens.Err? {
      return Err(Std(numTokens.error));
    }
    var n := numTokens.value;
    messages := messages + [Message(WasmExecute(cw20Contract, Cw721Mint(Decimal(n + 1), hackerAddr)))];
    assert messages == Settlement.DepositBatch(cw20Contract, hackerAddr, whoseAddress, receiveMsg.amount,
                                               subscription.bountyPct, Settlement.PERCENT_SCALE, n);
    r := Ok(Response([Attribute("action", "deposit_cw20")], messages));
  }

  /** `withdraw`: owner only; reports the amount (0 when absent) and changes nothing. */
  method Withdraw(st: Storage, env: Env, info: MessageInfo, amount: Option<u128>)
    returns (r: Result<Response, ContractError>)
    ensures st.config.None? ==> r == Err(Std(NotFound(CONFIG_KIND)))
    ensures st.config.Some? && info.sender != st.config.value.contractOwner ==> r == Err(Unauthorized)
    ensures st.config.Some? && info.sender == st.config.value.contractOwner ==>
              r == Ok(Response([Attribute("action", "withdraw"),
                                Attribute("amount", Decimal(if amount.Some? then amount.value else 0))], []))
  {
    if st.config.None? {
      return Err(Std(NotFound(CONFIG_KIND)));
    }
    var config := st.config.value;
    if info.sender != config.contractOwner {
      return Err(Unauthorized);
    }
    var amt := UnwrapOr(amount, 0);
    r := Ok(Response([Attribute("action", "withdraw"), Attribute("amount", Decimal(amt))], []));
  }

  /** `update_subscription`, on the caller's own entry. */
  method UpdateSubscription(st: Storage, env: Env, info: MessageInfo, newBountyPct: Option<u16>, newMinBounty: Option<u128>)
    returns (r: Result<Response, ContractError>)
    modifies st`subscriptions
    ensures match UpdateSubscriptionStep(old(st.subscriptions), info.sender, newBountyPct, newMinBounty)
            case Ok(next) => st.subscriptions == next && r == Ok(Response([Attribute("action", "update_subscription")], []))
            case Err(e) => st.subscriptions == old(st.subscriptions) && r == Err(e)
    ensures RatesBounded(old(st.subscriptions)) ==> RatesBounded(st.subscriptions)
  {
    if info.sender !in st.subscriptions {
      return Err(Std(NotFound(SUBSCRIPTIONS_KIND)));
    }
    var subscriptions := st.subscriptions[info.sender];
    if newBountyPct.None? && newMinBounty == subscriptions.minBounty {
      return Err(NothingToUpdate);
    }
    if OptionGreater(newBountyPct, Some(MAX_BOUNTY_PCT)) {
      return Err(InvalidBountyPercentage);
    }
    var updated := Subscription(UnwrapOr(newBountyPct, subscriptions.bountyPct), newMinBounty);
    st.subscriptions := st.subscriptions[info.sender := updated];
    r := Ok(Response([Attribute("action", "update_subscription")], []));
  }

  /** `update_config`, owner only. */
  method UpdateConfig(st: Storage, env: Env, info: MessageInfo, newOwner: Option<string>, newFee: Option<u16>)
    returns (r: Result<Response, ContractError>)
    modifies st`config
    ensures match UpdateConfigStep(old(st.config), info.sender, newOwner, newFee)
            case Ok(next) => st.config == Some(next) && r == Ok(Response([Attribute("action", "update_config")], []))
            case Err(e) => st.config == old(st.config) && r == Err(e)
  {
    if st.config.None? {
      return Err(Std(NotFound(CONFIG_KIND)));
    }
    var config := st.config.value;
    if info.sender != config.contractOwner {
      return Err(Unauthorized);
    }
    if newOwner.None? && newFee.None? {
      return Err(NothingToUpdate);
    }
    if newOwner == Some(config.contractOwner) && newFee == Some(config.protocolFee) {
      return Err(NothingToUpdate);
    }
    var validatedOwner := UnwrapOr(newOwner, config.contractOwner);
    st.config := Some(Config(validatedOwner, UnwrapOr(newFee, config.protocolFee), config.cw721Addr));
    r := Ok(Response([Attribute("action", "update_config")], []));
  }
}
