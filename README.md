# cw-it multi-test runner, modelled in Dafny

This project models `MultiTestRunner` of `cw-it` (`src/multi_test/runner.rs`).
The runner adapts test-tube's `Runner` interface to the `cw_multi_test` simulator:

- it turns tagged protobuf messages (`Any { type_url, value }`) into canonical `CosmosMsg` values;
- it submits the batch to the simulator under the signer's address;
- it folds the simulator's per-message responses into one typed `ExecuteResponse`;
- it also creates funded accounts and registers in-memory contract code.

Modules, leaves first:

- `Basics` (basics.dfy): `Option`, the `Result` of a foreign call, `Bytes`, `u64`.
- `Uint128` (uint128.dfy): `u128::from_str` as the standard library implements it, with a positional reference definition of a valid literal. Also the decimal rendering of a `Uint128` and the round trip between the two.
- `Outcomes` (outcomes.dfy): `RunnerError`, the causes of a panic, and `Outcome` (a value, a returned error, or a panic). Also `Collect`, the first-failure collection of `collect::<Result<Vec<_>, _>>()`.
- `Cosmos` (cosmos.dfy): the canonical messages and events of `cosmwasm_std`.
- `Proto` (proto.dfy): the `Any` envelope, the nine proto schemas with their type URLs, and the protobuf decoders as a record of functions.
- `Dispatch` (dispatch.dfy): the tag dispatch of `execute_multiple_raw`, the encoding step of `execute_multiple`, and their properties, including the round trip from a canonical message through its proto form.
- `Aggregate` (aggregate.dfy): the response aggregation of `execute_cosmos_msgs`.
- `Runner` (runner.dfy): the simulator as a class `App` and the runner as a class `MultiTestRunner`.
  - `App` holds the registered codes and a ledger of bank balances plus opaque world state.
  - The message execution of `App` is an engine function supplied at construction.
  - `MultiTestRunner`'s methods change the `App` in place.
  - Three scenario methods follow the set-up of the source's own tests. `UploadContract` restates the id 1 that `upload_contract` asserts; the id 2 of its second upload follows from the id-counting rule of `App.StoreCode`, not from that test. `UploadArtifact` restates the refusal behind `wasm_instantiate_contract`'s expected panic. `FundAccounts` restates only the account set-up of `bank_send` and `query_bank_through_test_tube_bank_module`.

A panic from an `unwrap` in the runner is the `Panic` case of `Outcome`. It is not a returned error.

Behaviour of the runner worth knowing:

- A coin amount that is not a valid `u128` makes the `unwrap` of `u128::from_str` panic (runner.rs:178, 192 and 230 for fund and send lists, 242, 254 and 267 for staking amounts). It is never a returned error. Amounts such as `"007"` and `"+7"` are valid and mean 7.
- The response payload comes from the last response whose data is `Some`, even when those bytes are empty (the `is_some` filter at runner.rs:111).
- `raw_data` is the re-encoding of the decoded (or default) payload, not the original bytes (runner.rs:118). It is empty for an empty batch only when the codec encodes the default value as empty bytes, as protobuf does.
- `admin` of an instantiation is always `Some`, even when it is the empty string (runner.rs:187).
- A decode error carries the protobuf library's description, not the type URL (the `map_err` at runner.rs:170-171 and its eight siblings).

## Model

| member | source | states |
|---|---|---|
| `Uint128.ParseU128` | src/multi_test/runner.rs:178 | `u128::from_str` succeeds exactly on an optional '+' followed by one or more decimal digits whose value is below 2^128, with that value; it reports `Empty` exactly for the empty string |
| `Uint128.Accumulate` | src/multi_test/runner.rs:178 | the digit loop of `u128::from_str` succeeds exactly when every character is a digit and the accumulated value stays below 2^128, with that value; otherwise it fails, and never with `Empty` |
| `Uint128.DecimalRoundTrip` | src/multi_test/runner.rs:175-179 | parsing the decimal rendering of any 128-bit amount gives that amount back |
| `Outcomes.Collect` | src/multi_test/runner.rs:280 | collecting succeeds exactly when every element does, keeping length and order; otherwise it fails as the first failing element does |
| `Dispatch.ConvertCoin` | src/multi_test/runner.rs:178 | a proto coin converts exactly when its amount is a valid u128 literal, to the same denom and the literal's value; otherwise it panics and never returns an error |
| `Dispatch.ConvertCoins` | src/multi_test/runner.rs:175-179 | a coin list converts exactly when every amount is valid, keeping length, order, denoms and values; otherwise it panics with the parse error of the first invalid amount |
| `Dispatch.ConvertAny` | src/multi_test/runner.rs:167-279 | an unknown tag yields `Stargate` with identical tag and bytes; a converted message's variant is the one its tag names; a returned error is a decode error of a known tag |
| `Dispatch.ConvertAll` | src/multi_test/runner.rs:165-280 | a batch converts exactly when every message does, keeping length and order; otherwise the result is the first failing message's error or panic |
| `Dispatch.EncodeOne` | src/multi_test/runner.rs:143-151 | a message is wrapped under its caller-given type URL with its encoding, or fails with an encode error; it never panics |
| `Dispatch.EncodeAll` | src/multi_test/runner.rs:141-152 | encoding succeeds exactly when every message encodes, keeping order and type URLs; otherwise the first encoding error is returned |
| `Dispatch.PassthroughExactlyForUnknownTags` | src/multi_test/runner.rs:272-278 | the message passes through unchanged if and only if its tag is none of the nine; a `Stargate` result only ever comes from an unknown tag |
| `Dispatch.InstantiateAdminAlwaysSome` | src/multi_test/runner.rs:182-196 | a converted instantiation carries `Some` of the decoded admin, never `None` |
| `Dispatch.DecodeErrorExactlyOnRejection` | src/multi_test/runner.rs:169-271 | the conversion returns an error exactly when a known tag's decoder rejects the bytes, and that error carries the decoder's description |
| `Dispatch.StakingWithoutAmountPanics` | src/multi_test/runner.rs:235-271 | a delegate, undelegate or redelegate with no amount uses the default coin and panics with an `Empty` parse error |
| `Dispatch.ConvertCoinsPanicsAtFirstInvalid` | src/multi_test/runner.rs:175-179 | when amount `k` is the first invalid one, the list conversion panics with exactly that amount's parse error |
| `Dispatch.AmountSyntax` | src/multi_test/runner.rs:178 | `"007"` and `"+7"` parse as 7; `"12a"` and `"-7"` fail with `InvalidDigit`; the empty string fails with `Empty` |
| `Dispatch.ContractConversion` | src/multi_test/runner.rs:169-196 | a decoded execution or instantiation converts field for field with its funds at their values when every amount is valid, and panics with the first invalid amount's parse error otherwise |
| `Dispatch.SendConversion` | src/multi_test/runner.rs:222-233 | a decoded bank send converts field for field with its coins at their values when every amount is valid, and panics with the first invalid amount's parse error otherwise |
| `Dispatch.StakingConversion` | src/multi_test/runner.rs:235-271 | a decoded delegate, undelegate or redelegate with an amount converts field for field with that amount's value when it is valid, and panics with its parse error otherwise |
| `Dispatch.AdminConversion` | src/multi_test/runner.rs:197-220 | a decoded migration, admin update or admin clearing always converts, field for field |
| `Dispatch.ConvertCoinsRoundTrip` | src/multi_test/runner.rs:175-179 | converting the proto rendering of a canonical coin list gives the list back |
| `Dispatch.DispatchRoundTrip` | src/multi_test/runner.rs:169-278 | every canonical message that has a proto form converts back to itself whatever the proto's sender: `contract` becomes `contract_addr`, `code_id` becomes `new_code_id`, and coins keep denom and amount |
| `Aggregate.AllEvents` | src/multi_test/runner.rs:104-107 | the collected events are empty exactly when no response has events |
| `Aggregate.AllEventsMembers` | src/multi_test/runner.rs:104-107 | every event of every response is collected, and every collected event comes from some response |
| `Aggregate.PresentData` | src/multi_test/runner.rs:108-112 | the filtered list is never longer than the batch, is empty exactly when no response has data, and holds only `Some` data |
| `Aggregate.LastData` | src/multi_test/runner.rs:113 | the chosen data is `None` exactly when no response has data |
| `Aggregate.LastWithDataIsChosen` | src/multi_test/runner.rs:108-113 | the data of the last response whose data is `Some` is the data chosen |
| `Aggregate.ChosenIsLastWithData` | src/multi_test/runner.rs:108-113 | chosen `Some` data always belongs to the last response whose data is `Some` |
| `Aggregate.ResponseData` | src/multi_test/runner.rs:114-117 | the payload is never a returned error; it is the default when no response has data; a panic means the chosen data does not decode |
| `Aggregate.Aggregate` | src/multi_test/runner.rs:103-129 | aggregation never returns an error; on success raw data is the payload's re-encoding, events are all events in order and gas is 0/0 |
| `Aggregate.AllEventsConcat` | src/multi_test/runner.rs:104-107 | the events of a batch are the events of its parts, concatenated in order |
| `Aggregate.LastDataIsLastPresent` | src/multi_test/runner.rs:108-113 | the filter-then-last chain selects the data of the last response whose data is `Some`, and `None` exactly when no response has data |
| `Aggregate.AggregateSpec` | src/multi_test/runner.rs:104-127 | aggregation never returns an error. The payload is the default when no response has data, else the decoding of the last present data (an undecodable payload panics). Raw data is the payload's re-encoding, events are all events in order, and gas is 0/0 |
| `Aggregate.EmptyBatch` | src/multi_test/runner.rs:108-127 | an empty batch answers with the default payload, its encoding, no events and no gas |
| `Aggregate.LastDataWins` | src/multi_test/runner.rs:108-117 | data `[None, Some(a), None, Some(b)]` resolves to the decoding of `b`; `Some` of empty bytes still overrides earlier data |
| `Runner.Mint` | src/multi_test/runner.rs:71-79 | minting adds the recipient to the bank and leaves every other account's holdings unchanged; an empty coin list leaves the recipient's holdings unchanged too |
| `Runner.MintBalance` | src/multi_test/runner.rs:71-79 | minting raises the recipient's balance in each denom by the minted total of that denom and changes no other balance |
| `Runner.ExecuteResult` | src/multi_test/runner.rs:98-129 | the answer is an error exactly when the simulator rejects the batch, and then it is `GenericError` with the simulator's reason; an accepted batch's answer carries all its events and the re-encoded payload |
| `Runner.App.ExecuteMulti` | src/multi_test/runner.rs:98-101 | on success the ledger moves to the engine's new state and the responses are returned; on rejection the ledger is unchanged and the reason is returned |
| `Runner.App.StoreCode` | src/multi_test/runner.rs:308 | the code is appended to the registry and its id is the registry's new length, counting from 1 |
| `Runner.App.SudoMint` | src/multi_test/runner.rs:71-79 | the ledger's bank is credited with the coins and nothing else changes |
| `Runner.MultiTestRunner.constructor` | src/multi_test/runner.rs:40-54 | a new runner owns a fresh simulator with no registered code |
| `Runner.MultiTestRunner.InitAccount` | src/multi_test/runner.rs:57-83 | the account has the runner's prefix, the key and its address; the mint happens exactly when the initial balance is non-empty, with exactly that coin list |
| `Runner.MultiTestRunner.StoreCode` | src/multi_test/runner.rs:302-311 | an artifact is refused with an error and registers nothing; an in-memory contract is registered and gets the next id |
| `Runner.MultiTestRunner.ExecuteCosmosMsgs` | src/multi_test/runner.rs:87-130 | the batch runs under the signer's address; the answer is the simulator's rejection as `GenericError` or the aggregation of its responses, and the ledger follows the simulator |
| `Runner.MultiTestRunner.ExecuteMultipleRaw` | src/multi_test/runner.rs:157-283 | if any message fails to convert, the answer is the first failure and the simulator is untouched; otherwise the converted batch is executed |
| `Runner.MultiTestRunner.ExecuteMultiple` | src/multi_test/runner.rs:132-155 | an encoding error stops before conversion and execution; otherwise it behaves as raw execution of the encoded batch |
| `Runner.UploadContract` | src/multi_test/runner.rs:407-417 | on a fresh runner with a funded account the first stored contract gets id 1, as the test asserts; a second upload gets id 2 by the id-counting rule |
| `Runner.UploadArtifact` | src/multi_test/runner.rs:419-432 | uploading an artifact is refused |
| `Runner.FundAccounts` | src/multi_test/runner.rs:454-457 | the account set-up of the bank tests: a new account funded with 1000 uatom holds exactly 1000 uatom in the modelled bank, and an account created with no balance mints nothing |

## Left out

- `src/config.rs`: YAML configuration loading and printing. It is I/O and library glue.
- Protobuf wire encoding and decoding: each is a function passed in (`Proto.Decoders`, the `encode` argument, `Aggregate.ResponseCodec`). The codec's own round trip is an assumption of `Dispatch.DispatchRoundTrip`, not something the model proves.
- The simulator's message execution (Wasm VM, bank transfers, staking, atomic rollback) is the `Engine` function. Only what the runner relies on is stated: a rejected batch leaves the ledger unchanged.
- `SigningKey::random()` and address derivation are randomness and cryptography. The key and its derived address are parameters of `InitAccount`. The fee setting and its `gas_adjustment` float are left out.
- `query`: a passthrough to the simulator's querier. The scenarios read balances from the modelled bank instead.
- `MultiTestRunner::new`: the keeper and app wiring is left out. The constructor only sets up an empty code registry and a given initial ledger.
- The test contract fixtures: an in-memory contract is only a name (`ContractCode`).
- `CosmosMsg` variants the dispatch never produces (bank burn, distribution, IBC, governance, custom) are not in the message model.
- Runner.MultiTestRunner.InitAccount: does not model the panic of the mint's `unwrap` when a balance would exceed 2^128, because balances are unbounded here. The zero-coin normalisation of the simulator's bank is also left out.
- Runner.App.StoreCode: returns a natural number where the simulator returns a `u64`. Wrap-around after 2^64 registrations is not modelled.
- The assertions of `bank_send` on the transfer event (runner.rs:471-478) and of `query_bank_through_test_tube_bank_module` on the queried balances (runner.rs:488-497) are not restated. They depend on the simulator's bank module and querier, which are the `Engine` function and the left-out `query`.
- A panic is a value of the model. Unwinding and the panic message text are left out.
