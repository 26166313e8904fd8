# Sombrero Protocol bounty contract, modelled in Dafny

Sombrero is a CosmWasm bounty-settlement contract. Protected contracts subscribe with a
bounty rate. A hacker who returns stolen cw20 tokens sends them to the contract through the
cw20 `Send` hook. The contract then answers with a batch: the bounty goes to the hacker, the
rest of the deposit goes to the contract's own address, and a cw721 "provenance" token is
minted for the hacker. Instantiation runs in two phases. `instantiate` saves the configuration
and asks the host to instantiate the cw721 contract. The reply to that sub-message writes the
new cw721 address into the configuration.

The repository holds three partial drafts of this contract, and each is modelled as written:

- `white_hat_hacker`: rates in percent (scale 100), sender becomes owner, fee at most 100,
  reply id 2, plus four read-only queries.
- `contract_1`: rates in basis points (scale 10000), the contract itself becomes owner, no fee
  check, reply id 0, and a three-field `update_config`.
- `sombrero`: instantiation only; the fee is a 128-bit amount and is reported as a third
  attribute.

Layout:

- `wrappers.dfy`: `Option`, `Result`, and the ordering of Rust's `Option` (`None` below every `Some`).
- `ordering.dfy`: strict total orders, and the keys of a finite map listed in ascending order.
- `cosmos.dfy`: host values (addresses, messages, sub-messages, replies, responses,
  `StdError`), the byte order of addresses, and the decimal rendering of integers (`to_string`).
- `settlement.dfy`: the bounty split shared by both execute drafts and the three-message batch.
- `white_hat_state.dfy`, `white_hat_execute.dfy`, `white_hat_instantiate.dfy`, `white_hat_query.dfy`.
- `contract1_state.dfy`, `contract1_execute.dfy`, `contract1_instantiate.dfy`.
- `sombrero_state.dfy`, `sombrero_instantiate.dfy`.

Each draft's storage is a class `Storage`. Its `config` field is `None` until `instantiate`
saves it, so every `CONFIG.load` before then fails with `NotFound`. Its `subscriptions` field
is a map from protected address to terms. The white-hat storage also has the `hacks` ledger
map that its `hacks` query ranges (declared after the `sombrero` draft's `HACKS`). Each handler is a method over the storage, with `modifies` naming exactly the field it
writes. Each registry or config update is also written as a function of the stored values
(`SubscribeStep`, `UpdateConfigStep`, ...). The method's postcondition ties the new state and
the response to that function. The function's own postcondition states what the update means:
the error cases, when it succeeds, what it changes and what it keeps. A failing handler leaves
storage as it was, as the host's roll-back of a failed call does.

The handlers behave as follows, and the model follows them:

- The white-hat draft measures rates in percent and `contract_1` in basis points.
- A deposit pays the bounty to the hacker and sends the whole rest of the deposit to the
  contract's own address. No protocol fee is deducted.
- All three messages of a deposit, the mint included, are addressed to the cw20 contract that
  deposited.
- A deposit from an unsubscribed cw20 contract fails with the `NotFound` error of the
  subscriptions load.
- `deposit_cw20` writes no ledger record. The ledger the `hacks` query reads is taken, as
  the `sombrero` draft declares it, to be keyed by (hacker, date), so a record saved under an
  existing key replaces the old one.
- Fee checks differ by draft: `contract_1` has none, the other two accept at most 100, and
  `update_config` never checks the fee.

## Model

| member | source | states |
|---|---|---|
| Cosmos.Decimal | contracts/white_hat_hacker/src/execute.rs:116 | `to_string` of an unsigned integer: at least one digit, only digits, no leading zero unless the number is 0, and the last digit is the number mod 10 |
| Cosmos.DecimalRoundTrip | contracts/white_hat_hacker/src/execute.rs:116 | the digits `to_string` produces spell the number: reading them back as a decimal numeral gives the number itself |
| Cosmos.DecimalInjective | contracts/white_hat_hacker/src/execute.rs:116 | different numbers render as different decimal strings, so token ids and amount attributes identify their number |
| Cosmos.AddrLessIsStrictTotalOrder | contracts/white_hat_hacker/src/query.rs:28 | the byte order in which storage ranges addresses is irreflexive, transitive and total |
| Ordering.SortedKeys | contracts/white_hat_hacker/src/query.rs:27-28 | ranging a map in ascending order visits every key exactly once, strictly ascending |
| Settlement.Bounty | contracts/white_hat_hacker/src/execute.rs:81 | the bounty never exceeds the deposit while the rate is at most the scale |
| Settlement.BountyBounds | contracts/white_hat_hacker/src/execute.rs:81 | the bounty is the deposit's rate share rounded down: `bounty * scale <= rate * amount < (bounty + 1) * scale` |
| Settlement.Remainder | contracts/white_hat_hacker/src/execute.rs:103 | bounty plus remainder is exactly the deposit |
| Settlement.RemainderShare | contracts/white_hat_hacker/src/execute.rs:103 | the remainder is at least the `(scale - rate)/scale` share of the deposit, so rounding favours the contract |
| Settlement.BountyIsFloor | contracts/white_hat_hacker/src/execute.rs:81 | any value within the floor bounds is the bounty, so integer division is the unique rounding down |
| Settlement.BountyMonotoneInRate | contracts/contract_1/src/execute.rs:77 | a higher rate never gives a smaller bounty |
| Settlement.BountyAtBounds | contracts/contract_1/src/execute.rs:77 | rate 0 pays nothing, and rate equal to the scale pays the whole deposit |
| Settlement.PercentExamples | contracts/white_hat_hacker/src/tests/integration_tests.rs:198-207 | at 20%, deposits of 500,000 and 900,000 pay bounties of 100,000 and 180,000 and leave 400,000 and 720,000 |
| Settlement.PercentAsBasisPoints | contracts/contract_1/src/execute.rs:77 | for every deposit, a rate of `p` percent on the white-hat scale and `100 * p` basis points on the `contract_1` scale pay the same bounty |
| Settlement.BasisPointExample | contracts/contract_1/src/execute.rs:77 | 2000 bps of 1,000,000 is 200,000, the same as 20% of it |
| Settlement.DepositBatch | contracts/white_hat_hacker/src/execute.rs:83-126 | three messages to the cw20 contract, in order: bounty to the hacker, remainder to the contract itself, mint of token `numTokens + 1` to the hacker; the two transfers sum to the deposit |
| Settlement.DistinctMints | contracts/white_hat_hacker/src/execute.rs:113-122 | deposits seen with different token counts mint different token ids |
| WhiteHatState.HackKeyLessIsStrictTotalOrder | contracts/white_hat_hacker/src/query.rs:43-44 | the order of (hacker, date) ledger keys (length-prefixed address, then date) is a strict total order |
| WhiteHatExecute.SubscribeStep | contracts/white_hat_hacker/src/execute.rs:27-46 | a percentage above 100 fails with InvalidBountyPercentage and nothing else fails; on success the address maps to the given terms and every other entry is kept |
| WhiteHatExecute.UnsubscribeStep | contracts/white_hat_hacker/src/execute.rs:48-52 | only the caller's own entry is removed, and all others are kept |
| WhiteHatExecute.UpdateSubscriptionStep | contracts/white_hat_hacker/src/execute.rs:147-171 | error order: no entry is NotFound, no change is NothingToUpdate, above 100 is InvalidBountyPercentage; success exactly otherwise; the percentage falls back to the stored one, the minimum is replaced as given, and other entries are kept |
| WhiteHatExecute.ApplyCall | contracts/white_hat_hacker/src/execute.rs:27-171 | every registry call, accepted or refused, keeps all stored percentages at most 100 |
| WhiteHatExecute.CallsKeepRatesBounded | contracts/white_hat_hacker/src/execute.rs:27-171 | any sequence of subscribe, unsubscribe and update calls keeps all stored percentages at most 100 |
| WhiteHatExecute.SubscribeThenUnsubscribe | contracts/white_hat_hacker/src/execute.rs:27-52 | subscribing and then unsubscribing the same address gives the registry without that address |
| WhiteHatExecute.UpdateConfigStep | contracts/white_hat_hacker/src/execute.rs:173-208 | missing config is NotFound, a non-owner is Unauthorized, both arguments absent or both equal to the stored values is NothingToUpdate; success exactly otherwise; owner and fee fall back field by field, and the cw721 address is kept |
| WhiteHatExecute.OwnershipTransferIsFinal | contracts/white_hat_hacker/src/execute.rs:173-208 | after ownership passes to another address, the old owner's next `update_config` is Unauthorized |
| WhiteHatExecute.Subscribe | contracts/white_hat_hacker/src/execute.rs:27-46 | stores what SubscribeStep computes and answers `action=subscribe`, or fails and leaves the registry unchanged; keeps the rate bound |
| WhiteHatExecute.Unsubscribe | contracts/white_hat_hacker/src/execute.rs:48-52 | always succeeds, and the registry becomes UnsubscribeStep of the old one |
| WhiteHatExecute.HandleReceiveCw20 | contracts/white_hat_hacker/src/execute.rs:54-70 | missing config is NotFound, a sender other than the owner is Unauthorized, an undecodable hook fails, and a deposit answers DepositOutcome |
| WhiteHatExecute.DepositOutcome | contracts/white_hat_hacker/src/execute.rs:72-127 | an unsubscribed cw20 sender is NotFound, then a missing config is NotFound, then a failed `NumTokens` query passes its error on; success exactly otherwise, with one `action=deposit_cw20` attribute and the DepositBatch at the subscriber's percentage |
| WhiteHatExecute.DepositCw20 | contracts/white_hat_hacker/src/execute.rs:72-127 | the message vector pushed step by step equals DepositOutcome, and nothing is written |
| WhiteHatExecute.Withdraw | contracts/white_hat_hacker/src/execute.rs:129-145 | owner only; answers `action=withdraw` and the amount in decimal (0 when absent), and moves no funds |
| WhiteHatExecute.UpdateSubscription | contracts/white_hat_hacker/src/execute.rs:147-171 | stores what UpdateSubscriptionStep computes or leaves the registry unchanged; keeps the rate bound |
| WhiteHatExecute.UpdateConfig | contracts/white_hat_hacker/src/execute.rs:173-208 | stores what UpdateConfigStep computes or leaves the config unchanged |
| WhiteHatInstantiate.Cw721InstantiateSubMsg | contracts/white_hat_hacker/src/instantiate.rs:34-49 | reply-on-success cw721 instantiation under the given id, minted by this contract, with the given name, symbol, label, code id and admin |
| WhiteHatInstantiate.InstantiateOutcome | contracts/white_hat_hacker/src/instantiate.rs:12-55 | a fee above 100 fails with InvalidProtocolFee, and only then; otherwise owner is the sender, the cw721 address is empty, the attributes are action and contract_owner, and the one sub-message is the cw721 instantiation |
| WhiteHatInstantiate.Cw721ReplyOutcome | contracts/white_hat_hacker/src/instantiate.rs:57-72 | a reply without an address is ParseReplyError, missing config is NotFound; otherwise only the cw721 address changes, and the attributes report it |
| WhiteHatInstantiate.ReplyOutcome | contracts/white_hat_hacker/src/contract.rs:62-72 | id 2 reaches the cw721 reply handler; any other id fails with UnknownReplyId carrying it |
| WhiteHatInstantiate.TwoPhaseInstantiation | contracts/white_hat_hacker/src/instantiate.rs:12-72 | the reply to the emitted sub-message's own id completes the saved config with the reported address, keeping owner and fee |
| WhiteHatInstantiate.Instantiate | contracts/white_hat_hacker/src/instantiate.rs:12-55 | saves and answers InstantiateOutcome, or fails with nothing saved |
| WhiteHatInstantiate.HandleCw721InstantiateReply | contracts/white_hat_hacker/src/instantiate.rs:57-72 | saves and answers Cw721ReplyOutcome, or fails with config unchanged |
| WhiteHatInstantiate.HandleReply | contracts/white_hat_hacker/src/contract.rs:62-72 | saves and answers ReplyOutcome |
| WhiteHatQuery.QueryConfig | contracts/white_hat_hacker/src/query.rs:6-14 | the stored owner, fee and cw721 address verbatim; NotFound before instantiation |
| WhiteHatQuery.QuerySubscriber | contracts/white_hat_hacker/src/query.rs:16-24 | fails exactly when the address has no entry; otherwise returns its stored terms |
| WhiteHatQuery.QuerySubscriptions | contracts/white_hat_hacker/src/query.rs:26-40 | one entry per stored address, each with its stored terms, in strictly ascending address order |
| WhiteHatQuery.SubscriptionEntries | contracts/white_hat_hacker/src/query.rs:29-36 | maps each key, in the given order, to its entry |
| WhiteHatQuery.HackKeysAscending | contracts/white_hat_hacker/src/query.rs:43-44 | every ledger key exactly once, in ascending (hacker, date) order |
| WhiteHatQuery.QueryHacks | contracts/white_hat_hacker/src/query.rs:42-58 | one entry per ledger record, the i-th being the record under the i-th ascending key |
| WhiteHatQuery.HackEntries | contracts/white_hat_hacker/src/query.rs:45-54 | maps each key, in the given order, to its record's fields |
| WhiteHatQuery.SubscribeThenQuery | contracts/white_hat_hacker/src/query.rs:16-24 | whatever `subscribe` stored, `subscriber` reads back |
| WhiteHatQuery.TwoSubscriptionsListing | contracts/white_hat_hacker/src/query.rs:26-40 | with two subscribers, the listing is the lower address then the higher, each with its terms |
| WhiteHatQuery.SubscriptionsListingExample | contracts/white_hat_hacker/src/tests/integration_tests.rs:341-367 | "subscriber" at 20% is listed before "subscriber2" at 50% with minimum 1,000,000 |
| WhiteHatQuery.SaveHack | contracts/sombrero/src/state.rs:30 | saving under an existing (hacker, date) key replaces that record, and the table grows only for a new key |
| WhiteHatQuery.SameKeyDepositsReplace | contracts/white_hat_hacker/src/tests/integration_tests.rs:429-444 | three records of one hacker, the first two at the same date and the third later, list as exactly two entries: the second record, then the third |
| Contract1Execute.SubscribeStep | contracts/contract_1/src/execute.rs:27-42 | above 10,000 bps fails with InvalidCommissionBps and nothing else fails; on success the address maps to the commission and every other entry is kept |
| Contract1Execute.UnsubscribeStep | contracts/contract_1/src/execute.rs:44-48 | only the caller's own entry is removed |
| Contract1Execute.UpdateSubscriptionStep | contracts/contract_1/src/execute.rs:143-165 | error order: no entry is NotFound, no new commission is NothingToUpdate, above 10,000 is InvalidCommissionBps; success exactly otherwise; the commission is replaced and other entries are kept |
| Contract1Execute.ApplyCall | contracts/contract_1/src/execute.rs:27-165 | every registry call keeps all stored commissions at most 10,000 bps |
| Contract1Execute.CallsKeepRatesBounded | contracts/contract_1/src/execute.rs:27-165 | any sequence of registry calls keeps all stored commissions at most 10,000 bps |
| Contract1Execute.UpdateSubscriptionRepeatable | contracts/contract_1/src/execute.rs:143-165 | repeating an accepted update succeeds again and changes nothing more |
| Contract1Execute.UpdateConfigStep | contracts/contract_1/src/execute.rs:167-208 | NotFound, then Unauthorized, then NothingToUpdate when owner and rate are absent with an unchanged minimum or all three are unchanged; success exactly otherwise; the minimum is replaced as given and the cw721 address is kept |
| Contract1Execute.OwnershipTransferIsFinal | contracts/contract_1/src/execute.rs:167-208 | after ownership passes to another address, the old owner's next `update_config` is Unauthorized |
| Contract1Execute.Subscribe | contracts/contract_1/src/execute.rs:27-42 | stores what SubscribeStep computes or fails with the registry unchanged; keeps the rate bound |
| Contract1Execute.Unsubscribe | contracts/contract_1/src/execute.rs:44-48 | always succeeds, and the registry becomes UnsubscribeStep of the old one |
| Contract1Execute.HandleReceiveCw20 | contracts/contract_1/src/execute.rs:50-66 | missing config is NotFound, a non-owner sender is Unauthorized, an undecodable hook fails, and a deposit answers DepositOutcome |
| Contract1Execute.DepositOutcome | contracts/contract_1/src/execute.rs:68-123 | NotFound for an unsubscribed sender, then for missing config, then the `NumTokens` query's own error; success exactly otherwise, with the DepositBatch at the commission in basis points |
| Contract1Execute.DepositCw20 | contracts/contract_1/src/execute.rs:68-123 | the pushed message vector equals DepositOutcome, and nothing is written |
| Contract1Execute.Withdraw | contracts/contract_1/src/execute.rs:125-141 | owner only; answers the amount in decimal (0 when absent) |
| Contract1Execute.UpdateSubscription | contracts/contract_1/src/execute.rs:143-165 | stores what UpdateSubscriptionStep computes or leaves the registry unchanged; keeps the rate bound |
| Contract1Execute.UpdateConfig | contracts/contract_1/src/execute.rs:167-208 | stores what UpdateConfigStep computes or leaves the config unchanged |
| Contract1Instantiate.Cw721InstantiateSubMsg | contracts/contract_1/src/instantiate.rs:34-49 | reply-on-success cw721 instantiation under id 0, minted by this contract, with the given name, symbol, label, code id and admin |
| Contract1Instantiate.InstantiateOutcome | contracts/contract_1/src/instantiate.rs:19-56 | never fails; the owner is the contract's own address, the fee is kept unchecked, no minimum, empty cw721 address, one attribute and one sub-message |
| Contract1Instantiate.InstantiateReplyOutcome | contracts/contract_1/src/instantiate.rs:74-87 | a reply without an address is a generic "error parsing instantiate reply" error, missing config is NotFound; otherwise only the cw721 address changes, with an empty response |
| Contract1Instantiate.ReplyOutcome | contracts/contract_1/src/contract.rs:48-59 | id 0 reaches the reply handler; any other id fails with UnknownReplyId carrying it |
| Contract1Instantiate.TwoPhaseInstantiation | contracts/contract_1/src/instantiate.rs:19-87 | the reply to the emitted sub-message completes the config with the reported address |
| Contract1Instantiate.Instantiate | contracts/contract_1/src/instantiate.rs:19-56 | saves and answers InstantiateOutcome |
| Contract1Instantiate.HandleInstantiateReply | contracts/contract_1/src/instantiate.rs:74-87 | saves and answers InstantiateReplyOutcome, or fails with config unchanged |
| Contract1Instantiate.HandleReply | contracts/contract_1/src/contract.rs:48-59 | saves and answers ReplyOutcome |
| SombreroInstantiate.Cw721InstantiateSubMsg | contracts/sombrero/src/instantiate.rs:36-50 | reply-on-success cw721 instantiation under the given id, minted by this contract |
| SombreroInstantiate.InstantiateOutcome | contracts/sombrero/src/instantiate.rs:12-57 | a fee above 100 fails with InvalidProtocolFee, and only then; otherwise owner is the sender, attributes are action, contract_owner and protocol_fee in that order, and there is one sub-message |
| SombreroInstantiate.ZeroFeeAttributes | contracts/sombrero/src/tests/unit_tests.rs:31-40 | with fee 0 the attributes are exactly action=instantiate, contract_owner=sender, protocol_fee="0" |
| SombreroInstantiate.FeeAttributeDistinguishesFees | contracts/sombrero/src/instantiate.rs:55 | two accepted instantiations with equal attributes had equal fees |
| SombreroInstantiate.Cw721ReplyOutcome | contracts/sombrero/src/instantiate.rs:59-75 | a reply without an address is ParseReplyError, missing config is NotFound; otherwise only the cw721 address changes |
| SombreroInstantiate.TwoPhaseInstantiation | contracts/sombrero/src/instantiate.rs:12-75 | the reply under the emitted id completes the saved config with the reported address |
| SombreroInstantiate.Instantiate | contracts/sombrero/src/instantiate.rs:12-57 | saves and answers InstantiateOutcome, or fails with nothing saved |
| SombreroInstantiate.HandleCw721InstantiateReply | contracts/sombrero/src/instantiate.rs:59-75 | saves and answers Cw721ReplyOutcome, or fails with config unchanged |

## Left out

- Serialisation (`to_binary`, `from_binary`): payloads are datatypes. A hook that does not decode is `None`.
- `addr_validate` is the identity and never fails. Addresses are strings compared character by character, by code point; for UTF-8 strings this is the same order as comparing their bytes.
- `parse_reply_instantiate_data` is abstracted. A reply either carries the instantiated address or fails to parse.
- The cw20 and cw721 contracts are external. Transfers and the mint exist only as emitted messages, and no balances are kept.
- The cw721 `NumTokens` query is an input, `numTokens`, to the deposit handlers: its answer or the error it fails with. The model does not tie that answer to the configured cw721 address, so it does not derive that the query fails while the address is still empty.
- The cw721 `ContractInfo` query in the `contract_1` reply handler is not modelled. The model treats it as succeeding, and its answer is unused.
- `set_contract_version` is not modelled.
- `contract_1`'s reply handler binds its configuration without `mut` and then assigns a field of it. The model takes the evident intent: the field is updated and saved.
- WhiteHatExecute.DepositCw20: requires `bounty_pct * amount` to fit in 128 bits and `numTokens + 1` to fit in 64 bits. The source's unchecked arithmetic would overflow outside these bounds, which the model does not represent.
- Contract1Execute.DepositCw20: the same overflow bounds, with the commission in basis points.
- WhiteHatExecute.HandleReceiveCw20 and Contract1Execute.HandleReceiveCw20 carry the same overflow bounds.
- The `Overflow`, `Underflow` and `NothingToWithdraw` errors are declared, but the code never raises them. They appear in the error datatypes only.
- The white-hat state file declares no `HACKS` map, although its query file imports and ranges one. The model takes the ledger's key type, (hacker address, date), and the record's fields from the `sombrero` draft's state file, so `HackKeyLess`, `QueryHacks`, `SaveHack` and `SameKeyDepositsReplace` rest on that declaration.
- The ledger write, NFT metadata and protocol-fee deduction do not appear in the code. The ledger is read by `hacks`, and `WhiteHatQuery.SaveHack` gives only its keyed-table semantics.
- Some test expectations describe code that does not appear here, and they contradict the handlers. These are the remainder paid to the subscriber, a retained fee, and cross-subscriber updates failing. They are not modelled.
- The ledger key order assumes one byte per character when length-prefixing an address. For non-ASCII addresses the stored prefix counts UTF-8 bytes.
- Entry-point dispatch is modelled only for the reply-id rule. `migrate`, `boilerplate` and `contract_1/src/lib.rs` are not modelled.
- `contract_1/src/query.rs` is not part of this model. It repeats `subscriber` with field names its state does not have.
- The `sombrero` draft's execute handlers, queries and entry points are not part of this model.
- `contract_1`'s state declaration lists fields that its handlers do not use, and it lacks fields they do use. The model follows the handlers. `bounty_pct` in `update_config` is the configuration's basis-point rate (`protocolFeeBps`), which the dispatcher passes in that slot. `min_bounty` is a configuration field that starts as `None`.
- The white-hat error enum does not declare `ErrorParsingInstantiateReply`, although its receive hook returns it. The model includes it.
