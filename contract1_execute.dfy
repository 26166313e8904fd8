/**
 * The execute handlers of the first draft, `contract_1`: subscription registry in basis
 * points, cw20 receive hook, deposit settlement, withdraw and a three-field config update.
 * As in the white-hat draft, each handler is a method over the contract's `Storage`, and the
 * registry and config updates are also given as functions of the stored values.
 */
module Contract1Execute {
  import opened Wrappers
  import opened Cosmos
  import opened Contract1State
  import Settlement

  // ---------------------------------------------------------------------------
  // The registry and config updates as functions of the stored values
  // ---------------------------------------------------------------------------

  /** `subscribe`: a commission above 10,000 bps is refused; otherwise it is stored under the address, replacing any earlier one. */
  function SubscribeStep(reg: Registry, subscribeContract: Addr, commissionBps: u16): (r: Result<Registry, ContractError>)
    ensures r.Err? <==> commissionBps > MAX_COMMISSION_BPS
    ensures r.Err? ==> r.error == InvalidCommissionBps
    ensures r.Ok? ==> r.value.Keys == reg.Keys + {subscribeContract}
    ensures r.Ok? ==> r.value[subscribeContract] == Subscription(commissionBps)
    ensures r.Ok? ==> forall a :: a in reg && a != subscribeContract ==> r.value[a] == reg[a]
  {
    if commissionBps > MAX_COMMISSION_BPS then
      Err(InvalidCommissionBps)
    else
      Ok(reg[subscribeContract := Subscription(commissionBps)])
  }

  /** `unsubscribe`: drops the caller's own entry, if there is one, and nothing else. */
  function UnsubscribeStep(reg: Registry, sender: Addr): (r: Registry)
    ensures r.Keys == reg.Keys - {sender}
    ensures forall a :: a in r ==> r[a] == reg[a]
  {
    reg - {sender}
  }

  /**
   * `update_subscription`, on the caller's own entry. In order: a missing entry fails the
   * load; no new commission is NothingToUpdate; one above 10,000 bps is refused; otherwise
   * the entry's commission is replaced.
   */
  function UpdateSubscriptionStep(reg: Registry, sender: Addr, newCommissionBps: Option<u16>)
    : (r: Result<Registry, ContractError>)
    ensures sender !in reg ==> r == Err(Std(NotFound(SUBSCRIPTIONS_KIND)))
    ensures sender in reg && newCommissionBps.None? ==> r == Err(NothingToUpdate)
    ensures sender in reg && newCommissionBps.Some? && newCommissionBps.value > MAX_COMMISSION_BPS ==>
              r == Err(InvalidCommissionBps)
    ensures r.Ok? <==> sender in reg && newCommissionBps.Some? && newCommissionBps.value <= MAX_COMMISSION_BPS
    ensures r.Ok? ==> r.value.Keys == reg.Keys
    ensures r.Ok? ==> r.value[sender] == Subscription(newCommissionBps.value)
    ensures r.Ok? ==> forall a :: a in reg && a != sender ==> r.value[a] == reg[a]
  {
    if sender !in reg then
      Err(Std(NotFound(SUBSCRIPTIONS_KIND)))
    else
      var current := reg[sender];
      if newCommissionBps.None? then
        Err(NothingToUpdate)
      else if OptionGreater(newCommissionBps, Some(MAX_COMMISSION_BPS)) then
        Err(InvalidCommissionBps)
      else
        Ok(reg[sender := Subscription(UnwrapOr(newCommissionBps, current.commissionBps))])
  }

  /** The registry-changing calls, as they reach the contract. */
  datatype RegistryCall =
    | SubscribeCall(subscribeContract: Addr, commissionBps: u16)
    | UnsubscribeCall(sender: Addr)
    | UpdateSubscriptionCall(sender: Addr, newCommissionBps: Option<u16>)

  /** The registry after one call; a call that fails leaves it as it was. */
  function ApplyCall(reg: Registry, call: RegistryCall): (r: Registry)
    ensures RatesBounded(reg) ==> RatesBounded(r)
  {
    match call
    case SubscribeCall(a, bps) =>
      (match SubscribeStep(reg, a, bps) case Ok(next) => next case Err(_) => reg)
    case UnsubscribeCall(s) =>
      UnsubscribeStep(reg, s)
    case UpdateSubscriptionCall(s, bps) =>
      (match UpdateSubscriptionStep(reg, s, bps) case Ok(next) => next case Err(_) => reg)
  }

  /** The registry after a sequence of calls, in order. */
  function ApplyCalls(reg: Registry, calls: seq<RegistryCall>): Registry
    decreases |calls|
  {
    if calls == [] then reg else ApplyCalls(ApplyCall(reg, calls[0]), calls[1..])
  }

  /** Whatever sequence of subscribe, unsubscribe and update calls is made, no stored commission exceeds 10,000 bps. */
  lemma {:induction false} CallsKeepRatesBounded(reg: Registry, calls: seq<RegistryCall>)
    requires RatesBounded(reg)
    ensures RatesBounded(ApplyCalls(reg, calls))
    decreases |calls|
  {
    if calls != [] {
      CallsKeepRatesBounded(ApplyCall(reg, calls[0]), calls[1..]);
    }
  }

  /** An accepted `update_subscription` followed by the same call again stores the same commission a second time. */
  lemma UpdateSubscriptionRepeatable(reg: Registry, sender: Addr, newCommissionBps: Option<u16>)
    requires UpdateSubscriptionStep(reg, sender, newCommissionBps).Ok?
    ensures var once := UpdateSubscriptionStep(reg, sender, newCommissionBps).value;
            UpdateSubscriptionStep(once, sender, newCommissionBps) == Ok(once)
  {
    var once := UpdateSubscriptionStep(reg, sender, newCommissionBps).value;
    assert once[sender := Subscription(newCommissionBps.value)] == once;
  }

  /**
   * `update_config`, owner only, over three fields. NothingToUpdate when no owner and no rate
   * are given and the minimum equals the stored one, or when all three equal the stored
   * values. Otherwise owner and rate fall back to the stored values when absent, the minimum
   * is replaced as given (None included), and the cw721 address is kept.
   */
  function UpdateConfigStep(cfg: Option<Config>, sender: Addr, newOwner: Option<string>, newBountyPct: Option<u16>,
                            newMinBounty: Option<u128>)
    : (r: Result<Config, ContractError>)
    ensures cfg.None? ==> r == Err(Std(NotFound(CONFIG_KIND)))
    ensures cfg.Some? && sender != cfg.value.contractOwner ==> r == Err(Unauthorized)
    ensures (&& cfg.Some? && sender == cfg.value.contractOwner
             && newOwner.None? && newBountyPct.None? && newMinBounty == cfg.value.minBounty)
            ==> r == Err(NothingToUpdate)
    ensures (&& cfg.Some? && sender == cfg.value.contractOwner && newOwner == Some(cfg.value.contractOwner)
             && newBountyPct == Some(cfg.value.protocolFeeBps) && newMinBounty == cfg.value.minBounty)
            ==> r == Err(NothingToUpdate)
    ensures r.Ok? <==>
              && cfg.Some? && sender == cfg.value.contractOwner
              && (newOwner.Some? || newBountyPct.Some? || newMinBounty != cfg.value.minBounty)
              && (newOwner != Some(cfg.value.contractOwner) || newBountyPct != Some(cfg.value.protocolFeeBps)
                  || newMinBounty != cfg.value.minBounty)
    ensures r.Ok? ==> r.value.contractOwner == if newOwner.Some? then newOwner.value else cfg.value.contractOwner
    ensures r.Ok? ==> r.value.protocolFeeBps == if newBountyPct.Some? then newBountyPct.value else cfg.value.protocolFeeBps
    ensures r.Ok? ==> r.value.minBounty == newMinBounty
    ensures r.Ok? ==> r.value.cw721Addr == cfg.value.cw721Addr
  {
    if cfg.None? then
      Err(Std(NotFound(CONFIG_KIND)))
    else
      var config := cfg.value;
      if sender != config.contractOwner then
        Err(Unauthorized)
      else if newOwner.None? && newBountyPct.None? && newMinBounty == config.minBounty then
        Err(NothingToUpdate)
      else if newOwner == Some(config.contractOwner) && newBountyPct == Some(config.protocolFeeBps)
              && newMinBounty == config.minBounty then
        Err(NothingToUpdate)
      else
        Ok(Config(UnwrapOr(newOwner, config.contractOwner), UnwrapOr(newBountyPct, config.protocolFeeBps),
                  newMinBounty, config.cw721Addr))
  }

  /** Handing ownership to another address takes `update_config` away from the previous owner. */
  lemma OwnershipTransferIsFinal(cfg: Config, owner: Addr, newOwner: Addr, newBountyPct: Option<u16>,
                                 newMinBounty: Option<u128>, p: Option<string>, q: Option<u16>, m: Option<u128>)
    requires newOwner != owner
    requires UpdateConfigStep(Some(cfg), owner, Some(newOwner), newBountyPct, newMinBounty).Ok?
    ensures var next := UpdateConfigStep(Some(cfg), owner, Some(newOwner), newBountyPct, newMinBounty).value;
            UpdateConfigStep(Some(next), owner, p, q, m) == Err(Unauthorized)
  {
  }

  // ---------------------------------------------------------------------------
  // The handlers
  // ---------------------------------------------------------------------------

  /** `subscribe`. Any caller may subscribe any address. */
  method Subscribe(st: Storage, env: Env, info: MessageInfo, commissionBps: u16, subscribeContract: Addr)
    returns (r: Result<Response, ContractError>)
    modifies st`subscriptions
    ensures match SubscribeStep(old(st.subscriptions), subscribeContract, commissionBps)
            case Ok(next) => st.subscriptions == next && r == Ok(Response([Attribute("action", "subscribe")], []))
            case Err(e) => st.subscriptions == old(st.subscriptions) && r == Err(e)
    ensures RatesBounded(old(st.subscriptions)) ==> RatesBounded(st.subscriptions)
  {
    if commissionBps > MAX_COMMISSION_BPS {
      return Err(InvalidCommissionBps);
    }
    var subscriptions := Subscription(commissionBps);
    st.subscriptions := st.subscriptions[subscribeContract := subscriptions];
    r := Ok(Response([Attribute("action", "subscribe")], []));
  }

  /** `unsubscribe`: removes the caller's entry; succeeds whether or not there was one. */
  method Unsubscribe(st: Storage, env: Env, info: MessageInfo) returns (r: Result<Response, ContractError>)
    modifies st`subscriptions
    ensures st.subscriptions == UnsubscribeStep(old(st.subscriptions), info.sender)
    ensures r == Ok(Response([Attribute("action", "unsubscribe")], []))
    ensures RatesBounded(old(st.subscriptions)) ==> RatesBounded(st.subscriptions)
  {
    st.subscriptions := st.subscriptions - {info.sender};
    r := Ok(Response([Attribute("action", "unsubscribe")], []));
  }

  /**
   * `handle_receive_cw20`: only the configured owner may deliver the hook, checked before
   * anything else; a payload that does not decode as `DepositCw20` is refused; a deposit is
   * settled by `deposit_cw20`. `numTokens` is the cw721 contract's answer to `NumTokens`,
   * or the error its query fails with.
   */
  method HandleReceiveCw20(st: Storage, env: Env, info: MessageInfo, cw20Msg: Cw20ReceiveMsg<Cw20HookMsg>,
                            numTokens: Result<u64, StdError>)
    returns (r: Result<Response, ContractError>)
    requires RatesBounded(st.subscriptions)
    requires numTokens.Ok? ==> numTokens.value < U64_MAX
    requires info.sender in st.subscriptions ==> st.subscriptions[info.sender].commissionBps * cw20Msg.amount <= U128_MAX
    ensures st.config.None? ==> r == Err(Std(NotFound(CONFIG_KIND)))
    ensures st.config.Some? && st.config.value.contractOwner != info.sender ==> r == Err(Unauthorized)
    ensures st.config.Some? && st.config.value.contractOwner == info.sender && cw20Msg.msg.None? ==>
              r == Err(ErrorParsingInstantiateReply)
    ensures st.config.Some? && st.config.value.contractOwner == info.sender && cw20Msg.msg.Some? ==>
              r == DepositOutcome(st.subscriptions, st.config, env, info, cw20Msg, numTokens)
  {
    if st.config.None? {
      return Err(Std(NotFound(CONFIG_KIND)));
    }
    var config := st.config.value;
    if config.contractOwner != info.sender {
      return Err(Unauthorized);
    }
    match cw20Msg.msg {
      case Some(DepositCw20) =>
        r := DepositCw20(st, env, info, cw20Msg, numTokens);
      case None =>
        r := Err(ErrorParsingInstantiateReply);
    }
  }

  /**
   * What `deposit_cw20` answers: the depositing cw20 contract must be subscribed, the
   * configuration must exist and the cw721 contract must answer `NumTokens`; then the
   * three-message batch at the subscriber's commission, in basis points.
   */
  function DepositOutcome(reg: Registry, cfg: Option<Config>, env: Env, info: MessageInfo,
                          receiveMsg: Cw20ReceiveMsg<Cw20HookMsg>, numTokens: Result<u64, StdError>)
    : (r: Result<Response, ContractError>)
    requires RatesBounded(reg)
    ensures info.sender !in reg ==> r == Err(Std(NotFound(SUBSCRIPTIONS_KIND)))
    ensures info.sender in reg && cfg.None? ==> r == Err(Std(NotFound(CONFIG_KIND)))
    ensures info.sender in reg && cfg.Some? && numTokens.Err? ==> r == Err(Std(numTokens.error))
    ensures r.Ok? <==> info.sender in reg && cfg.Some? && numTokens.Ok?
    ensures r.Ok? ==> r.value == Response([Attribute("action", "deposit_cw20")],
                                          Settlement.DepositBatch(info.sender, receiveMsg.sender, env.contractAddress,
                                                                  receiveMsg.amount, reg[info.sender].commissionBps,
                                                                  Settlement.BPS_SCALE, numTokens.value))
  {
    if info.sender !in reg then
      Err(Std(NotFound(SUBSCRIPTIONS_KIND)))
    else if cfg.None? then
      Err(Std(NotFound(CONFIG_KIND)))
    else if numTokens.Err? then
      Err(Std(numTokens.error))
    else
      Ok(Response([Attribute("action", "deposit_cw20")],
                  Settlement.DepositBatch(info.sender, receiveMsg.sender, env.contractAddress, receiveMsg.amount,
                                          reg[info.sender].commissionBps, Settlement.BPS_SCALE, numTokens.value)))
  }

  /**
   * `deposit_cw20`: the caller is the cw20 contract and `receiveMsg.sender` the hacker. The
   * batch is built message by message, as the source pushes onto its vector.
   */
  method DepositCw20(st: Storage, env: Env, info: MessageInfo, receiveMsg: Cw20ReceiveMsg<Cw20HookMsg>,
                     numTokens: Result<u64, StdError>)
    returns (r: Result<Response, ContractError>)
    requires RatesBounded(st.subscriptions)
    requires numTokens.Ok? ==> numTokens.value < U64_MAX
    requires info.sender in st.subscriptions ==> st.subscriptions[info.sender].commissionBps * receiveMsg.amount <= U128_MAX
    ensures r == DepositOutcome(st.subscriptions, st.config, env, info, receiveMsg, numTokens)
  {
    var hackerAddr := receiveMsg.sender;
    var cw20Contract := info.sender;
    if cw20Contract !in st.subscriptions {
      return Err(Std(NotFound(SUBSCRIPTIONS_KIND)));
    }
    var subscriptions := st.subscriptions[cw20Contract];
    var bounty: u128 := Settlement.Bounty(subscriptions.commissionBps, receiveMsg.amount, Settlement.BPS_SCALE);

    var messages: seq<SubMsg> := [];
    messages := messages + [Message(WasmExecute(cw20Contract, Cw20Transfer(hackerAddr, bounty)))];
    var whoseAddress := env.contractAddress;
    messages := messages + [Message(WasmExecute(cw20Contract, Cw20Transfer(whoseAddress, receiveMsg.amount - bounty)))];

    if st.config.None? {
      return Err(Std(NotFound(CONFIG_KIND)));
    }
    if numTokens.Err? {
      return Err(Std(numTokens.error));
    }
    var n := numTokens.value;
    messages := messages + [Message(WasmExecute(cw20Contract, Cw721Mint(Decimal(n + 1), hackerAddr)))];
    assert messages == Settlement.DepositBatch(cw20Contract, hackerAddr, whoseAddress, receiveMsg.amount,
                                               subscriptions.commissionBps, Settlement.BPS_SCALE, n);
    r := Ok(Response([Attribute("action", "deposit_cw20")], messages));
  }

  /** `withdraw`: owner only; reports the amount (0 when absent) and changes nothing. */
  method Withdraw(st: Storage, env: Env, info: MessageInfo, amount: Option<u128>)
    returns (r: Result<Response, ContractError>)
    ensures st.config.None? ==> r == Err(Std(NotFound(CONFIG_KIND)))
    ensures st.config.Some? && info.sender != st.config.value.contractOwner ==> r == Err(Unauthorized)
    ensures st.config.Some? && info.sender == st.config.value.contractOwner ==>
              r == Ok(Response([Attribute("action", "withdraw"),
                                Attribute("amount", Decimal(if amount.Some? then amount.value else 0))], []))
  {
    if st.config.None? {
      return Err(Std(NotFound(CONFIG_KIND)));
    }
    var config := st.config.value;
    if info.sender != config.contractOwner {
      return Err(Unauthorized);
    }
    var amt := UnwrapOr(amount, 0);
    r := Ok(Response([Attribute("action", "withdraw"), Attribute("amount", Decimal(amt))], []));
  }

  /** `update_subscription`, on the caller's own entry. */
  method UpdateSubscription(st: Storage, env: Env, info: MessageInfo, newCommissionBps: Option<u16>)
    returns (r: Result<Response, ContractError>)
    modifies st`subscriptions
    ensures match UpdateSubscriptionStep(old(st.subscriptions), info.sender, newCommissionBps)
            case Ok(next) => st.subscriptions == next && r == Ok(Response([Attribute("action", "update_subscription")], []))
            case Err(e) => st.subscriptions == old(st.subscriptions) && r == Err(e)
    ensures RatesBounded(old(st.subscriptions)) ==> RatesBounded(st.subscriptions)
  {
    if info.sender !in st.subscriptions {
      return Err(Std(NotFound(SUBSCRIPTIONS_KIND)));
    }
    var subscriptions := st.subscriptions[info.sender];
    if newCommissionBps.None? {
      return Err(NothingToUpdate);
    }
    if OptionGreater(newCommissionBps, Some(MAX_COMMISSION_BPS)) {
      return Err(InvalidCommissionBps);
    }
    var updated := Subscription(UnwrapOr(newCommissionBps, subscriptions.commissionBps));
    st.subscriptions := st.subscriptions[info.sender := updated];
    r := Ok(Response([Attribute("action", "update_subscription")], []));
  }

  /** `update_config`, owner only. */
  method UpdateConfig(st: Storage, env: Env, info: MessageInfo, newOwner: Option<string>, newBountyPct: Option<u16>,
                      newMinBounty: Option<u128>)
    returns (r: Result<Response, ContractError>)
    modifies st`config
    ensures match UpdateConfigStep(old(st.config), info.sender, newOwner, newBountyPct, newMinBounty)
            case Ok(next) => st.config == Some(next) && r == Ok(Response([Attribute("action", "update_config")], []))
            case Err(e) => st.config == old(st.config) && r == Err(e)
  {
    if st.config.None? {
      return Err(Std(NotFound(CONFIG_KIND)));
    }
    var config := st.config.value;
    if info.sender != config.contractOwner {
      return Err(Unauthorized);
    }
    if newOwner.None? && newBountyPct.None? && newMinBounty == config.minBounty {
      return Err(NothingToUpdate);
    }
    if newOwner == Some(config.contractOwner) && newBountyPct == Some(config.protocolFeeBps)
       && newMinBounty == config.minBounty {
      return Err(NothingToUpdate);
    }
    var validatedOwner := UnwrapOr(newOwner, config.contractOwner);
    st.config := Some(Config(validatedOwner, UnwrapOr(newBountyPct, config.protocolFeeBps), newMinBounty, config.cw721Addr));
    r := Ok(Response([Attribute("action", "update_config")], []));
  }
}
