# levana-cosmos-rs client core, modelled in Dafny

This project models the core of the `cosmos` client crate in
levana-cosmos-rs. That crate talks to a Cosmos SDK chain over gRPC, or optionally over JSON-RPC for simulation and broadcasting. The model
covers these parts:

- the round-robin pool of connection builders;
- the named networks and their string forms;
- the gas-price ladder and the fee it charges;
- recovery from an account-sequence mismatch, read from the text of a
  node's error;
- the transaction builder;
- simulation;
- broadcasting with escalating gas prices;
- the poll that waits for a transaction to land;
- the two paginated listings (bank balances and authz grants);
- the authz grant helpers;
- `strip_quotes` for code IDs;
- the `CosmosOpt` command-line overrides;
- the search for the earliest block a pruned node still keeps.

The node is modelled as an oracle. Its answers are either a function from
the query index to the reply, or the sequence of replies it sends to a page
loop. Every query the client makes is therefore a parameter of the model.
Protobuf encodings are symbolic: an `Any` carries the message it encodes,
not bytes. `f64` arithmetic is modelled as `real`. A float-to-`u64` cast
rounds down, sends negative values to 0 and saturates at `u64::MAX`.

Modules and files:

| file | module |
|---|---|
| `wrappers.dfy` | `Wrappers` |
| `text.dfy` | `Text` (the Rust `str` operations used) |
| `chain.dfy` | `Chain` (records shared by the modules) |
| `networks.dfy` | `Networks` |
| `pool.dfy` | `Pool` |
| `gas.dfy` | `Gas` |
| `sequence.dfy` | `SequenceHint` |
| `txbuilder.dfy` | `TxBuilding` |
| `simulate.dfy` | `Simulation` |
| `finality.dfy` | `Finality` |
| `broadcast.dfy` | `Broadcast` |
| `submit.dfy` | `Submission` |
| `paging.dfy` | `Paging` |
| `balances.dfy` | `Balances` |
| `authz.dfy` | `Authz` |
| `codeid.dfy` | `CodeIds` |
| `cli.dfy` | `Cli` |
| `blocks.dfy` | `Blocks` |

Behaviour of the code that a reader might not expect (the model follows it):

- **Timeout message.** The poll's timeout error names only the transaction
  hash, not the attempt budget.
- **Account fetch before broadcast.** `inner_sign_and_broadcast` fetches
  the account again before broadcasting. It does not reuse a sequence
  number that simulation corrected (`Submission.SignAndBroadcast` takes two
  account answers for this reason).
- **Empty balance pages.** `all_balances` stops only when the page response
  is missing or its `next_key` is empty. An empty page with a next key does
  not stop it.
- **Empty grant pages.** `query_granter_grants` stops at the first page
  with no grants, whatever its page response says.

## Model

| member | source | states |
|---|---|---|
| Pool.CosmosBuilders.constructor | packages/cosmos/src/client.rs:267-274 | a pool built from one builder holds exactly that builder, with the next index at 0 |
| Pool.CosmosBuilders.FirstBuilder | packages/cosmos/src/client.rs:57-61 | the first builder is the first one added; the pool is never empty |
| Pool.CosmosBuilders.Add | packages/cosmos/src/client.rs:63-66 | the builder is appended at the end; the next index and the pool invariant are kept |
| Pool.CosmosBuilders.GetNextBuilder | packages/cosmos/src/client.rs:84-98 | hands out the builder at the current index and advances the index by one, wrapping to 0 at the end; the builders are unchanged |
| Pool.NextIndex | packages/cosmos/src/client.rs:92-95 | the advanced index stays within the pool and equals the successor modulo the pool size |
| Pool.ScheduleWraps | packages/cosmos/src/client.rs:84-98 | after the builders from the start index to the end, the hand-out order continues from builder 0 |
| Pool.RoundRobinCoversAll | packages/cosmos/src/client.rs:84-98 | from index 0, as many checkouts as builders hand out every builder once, in order |
| Pool.RoundRobinRepeats | packages/cosmos/src/client.rs:84-98 | after a full round the hand-out order repeats from the first builder |
| Networks.AsStr | packages/cosmos/src/client.rs:322-338 | every network has a non-empty name |
| Networks.FromStr | packages/cosmos/src/client.rs:346-365 | a parsed network has exactly the given name; anything else is the unknown-network error carrying the string |
| Networks.FromStrAsStr | packages/cosmos/src/client.rs:322-365 | parsing a network's name gives that network back |
| Networks.FromStrIffName | packages/cosmos/src/client.rs:346-365 | a string parses exactly when it is some network's name, and then to that network |
| Networks.AsStrInjective | packages/cosmos/src/client.rs:322-338 | no two networks share a name |
| Gas.GasPrice | packages/cosmos/src/client.rs:704-716 | with no retry attempts the price is the high price; the first attempt pays the low price; with low ≤ high every price lies between them |
| Gas.GasPriceMonotonic | packages/cosmos/src/client.rs:704-716 | a later attempt never pays a lower price |
| Gas.SaturatingU64 | packages/cosmos/src/client.rs:718 | the cast rounds down within range, gives 0 below 1 and saturates at `u64::MAX` |
| Gas.SaturatingU64Monotonic | packages/cosmos/src/client.rs:718 | the saturating cast preserves order |
| Gas.Scaled | packages/cosmos/src/client.rs:718 | gas times a factor (the price, or the estimate multiplier of lines 1143-1145), rounded down, and never above `u64::MAX` |
| Gas.ScaledMonotonic | packages/cosmos/src/client.rs:718 | a higher price never gives a lower fee |
| Gas.GasToCoins | packages/cosmos/src/client.rs:704-719 | from the last attempt on the fee is at the high price; the first attempt is at the low price; the fee fits a `u64` |
| Gas.GasToCoinsMonotonic | packages/cosmos/src/client.rs:704-719 | the fee offered never decreases from one attempt to the next |
| Gas.PaddedGasExamples | packages/cosmos/src/client.rs:1623-1634 | 1234 padded by 1.3 is 1604, and by 4.2 is 5182 |
| SequenceHint.ExpectedSequenceSingle | packages/cosmos/src/client.rs:1543-1547 | a line without the mismatch prefix, or without a comma after it, gives no number; a number given fits a `u64` |
| SequenceHint.MismatchLine | packages/cosmos/src/client.rs:1543-1547 | a mismatch line gives the parse of the text between the prefix and the first comma |
| SequenceHint.ExpectedSequence | packages/cosmos/src/client.rs:1534-1541 | the number read from a message, line by line, fits a `u64` (its first-line-wins meaning is stated by the lemmas below) |
| SequenceHint.FirstHintIsFirst | packages/cosmos/src/client.rs:1534-1541 | a number is found exactly when some line gives one, and it is the number of the first such line |
| SequenceHint.PreludeIgnored | packages/cosmos/src/client.rs:1534-1541 | a leading line that gives no number does not change the outcome |
| SequenceHint.SingleMismatchMessage | packages/cosmos/src/client.rs:1534-1547 | a one-line mismatch message gives the number before its comma |
| SequenceHint.HintAfterTwoLines | packages/cosmos/src/client.rs:1534-1541 | after two lines that give no number, the mismatch line decides |
| SequenceHint.HintAfterThreeLines | packages/cosmos/src/client.rs:1534-1541 | after three lines that give no number, the mismatch line decides |
| SequenceHint.ParseTestNumbers | packages/cosmos/src/client.rs:1575-1620 | the numbers in the tests parse as `u64`, and `XXXXX` does not |
| SequenceHint.NoHintLines | packages/cosmos/src/client.rs:1591-1608 | the prelude lines of the tests give no number |
| SequenceHint.ExpectedSequenceGood5 | packages/cosmos/src/client.rs:1576-1579 | the first test message gives 5 |
| SequenceHint.ExpectedSequenceGood2 | packages/cosmos/src/client.rs:1580-1583 | the second test message gives 2 |
| SequenceHint.ExpectedSequenceGoodLarge | packages/cosmos/src/client.rs:1584-1587 | the third test message gives 20000001 |
| SequenceHint.ExpectedSequenceExtraPrelude | packages/cosmos/src/client.rs:1592-1595 | with a prelude line and an empty line, the message still gives 5 |
| SequenceHint.ExpectedSequenceExtraPreludeLong | packages/cosmos/src/client.rs:1596-1601 | with a prelude line and two empty lines, the message gives 2 |
| SequenceHint.ExpectedSequenceExtraPreludeLarge | packages/cosmos/src/client.rs:1602-1607 | with a prelude line and an empty line, the message gives 20000001 |
| SequenceHint.ExpectedSequenceUnrelated | packages/cosmos/src/client.rs:1612-1615 | an unrelated message gives nothing |
| SequenceHint.ExpectedSequenceNotANumber | packages/cosmos/src/client.rs:1616-1619 | a non-numeric sequence gives nothing |
| TxBuilding.MakeSignerInfos | packages/cosmos/src/client.rs:1200-1222 | one signer, with the secp256k1 key type, direct signing mode and the given sequence |
| TxBuilding.MemoText | packages/cosmos/src/client.rs:1228 | the memo set, or the empty string when none is |
| TxBuilding.TxBuilder.constructor | packages/cosmos/src/client.rs:1024-1028 | a new builder has no messages, no memo and code checking on |
| TxBuilding.TxBuilder.AddMessage | packages/cosmos/src/client.rs:1031-1038 | the message is appended, and the body's messages grow by exactly it; memo and flag unchanged |
| TxBuilding.TxBuilder.SetMemo | packages/cosmos/src/client.rs:1090-1093 | the memo becomes the text, and the body carries it; messages and flag unchanged |
| TxBuilding.TxBuilder.SetOptionalMemo | packages/cosmos/src/client.rs:1095-1098 | the memo becomes the option; clearing it gives an empty body memo |
| TxBuilding.TxBuilder.SetSkipCodeCheck | packages/cosmos/src/client.rs:1101-1104 | only the code-check flag changes |
| TxBuilding.TxBuilder.MakeTxBody | packages/cosmos/src/client.rs:1225-1233 | the body carries the builder's messages and memo, timeout height 0 and no extension options |
| Simulation.SimulateOutcome | packages/cosmos/src/client.rs:1236-1312 | success exactly when the node simulated and reported gas info; an error status with a mismatch hint asks for that number, and one without is the real error `Unable to simulate transaction`; a failed checkout is a transport error; missing gas info is its own error |
| Simulation.Simulate | packages/cosmos/src/client.rs:1107-1132 | an account error ends it with no request; otherwise the first request uses the account's sequence, and a second is sent exactly when the first asks for a new number, at that number |
| Simulation.SimulateOkIff | packages/cosmos/src/client.rs:1107-1132 | the simulation succeeds exactly when the account is found and the last reply carries gas info, whose gas it returns |
| Simulation.SimulateRetriesOnce | packages/cosmos/src/client.rs:1124-1130 | a second mismatch is an error: the sequence is corrected at most once |
| Finality.IsNotFound | packages/cosmos/src/client.rs:650-652 | a status counts as "not yet" when its code is NotFound or its message contains `not found` |
| Finality.Extract | packages/cosmos/src/client.rs:637-648 | a found transaction yields its body and response exactly when tx, body and response are all present; otherwise a missing-field error |
| Finality.PollFrom | packages/cosmos/src/client.rs:628-665 | the number of queries sent never exceeds the attempt budget |
| Finality.Poll | packages/cosmos/src/client.rs:621-666 | a failed checkout fails with no query sent; otherwise at most `transaction_attempts` queries are sent |
| Finality.PollFromTimesOutIff | packages/cosmos/src/client.rs:628-665 | the poll times out exactly when every remaining query comes back not found, and then it has spent the budget |
| Finality.PollFromFirstDecides | packages/cosmos/src/client.rs:636-660 | the first reply that is not "not found" decides the outcome, and no later query is sent |
| Finality.PollTimesOutIff | packages/cosmos/src/client.rs:621-666 | a timeout happens exactly when the checkout succeeds and every query is not found |
| Finality.WaitForTransactionBody | packages/cosmos/src/client.rs:621-666 | the loop returns the poll's outcome and sends the poll's number of queries |
| Finality.WaitForTransaction | packages/cosmos/src/client.rs:617-619 | the response of the polled transaction, or the poll's error |
| Broadcast.IntoError | packages/cosmos/src/client.rs:1561-1568 | a mismatch error or a real error becomes the underlying error |
| Broadcast.MakeAttempt | packages/cosmos/src/client.rs:1333-1360 | the signed transaction carries the body, the account number, the signer at the sequence, the fee in the gas coin at the given gas and the chain ID |
| Broadcast.CheckBroadcastCode | packages/cosmos/src/client.rs:1389-1403 | no error exactly when code checking is off or the code is 0; code 13 asks for more gas; another code with a mismatch hint asks for that number; another code without one is a real error; every error keeps the code and raw log |
| Broadcast.AttemptResult | packages/cosmos/src/client.rs:1333-1424 | one attempt at one price: a success was broadcast with a response and has code 0 unless checking is skipped; more gas is asked for only on code 13; a failed checkout, an RPC error or a missing response is a real error |
| Broadcast.AttemptInsufficientGasIff | packages/cosmos/src/client.rs:1389-1397 | an attempt asks for more gas exactly when the node answered code 13 and code checking is on |
| Broadcast.AttemptNewNumberIff | packages/cosmos/src/client.rs:1389-1402 | an attempt asks for a new number exactly when the broadcast failed with another code whose log gives that number |
| Broadcast.AttemptAfterLanding | packages/cosmos/src/client.rs:1405-1423 | once accepted, the poll decides: a poll error, the landed response, or a landed failure never retried |
| Broadcast.AttemptOkLanded | packages/cosmos/src/client.rs:1333-1424 | a successful attempt was accepted, landed, and has code 0 unless checking is skipped |
| Broadcast.TiersFrom | packages/cosmos/src/client.rs:1426-1447 | the attempts made stay within the price tiers left |
| Broadcast.Tiers | packages/cosmos/src/client.rs:1426-1447 | at most `gas_price_retry_attempts + 1` attempts are made |
| Broadcast.TiersStopAtFirstOther | packages/cosmos/src/client.rs:1426-1447 | every attempt before the last asked for more gas; the last decides the result; running out of tiers returns the final insufficient-fee error |
| Broadcast.SignedAtTiersEscalate | packages/cosmos/src/client.rs:1333-1345 | every signed attempt carries the body, gas, account, chain and sequence, with the fee for its tier; fees never decrease across attempts |
| Broadcast.SignAndTryTier | packages/cosmos/src/client.rs:1428-1431 | one tier signs one more transaction and returns that tier's outcome |
| Broadcast.SignAndBroadcastWith | packages/cosmos/src/client.rs:1314-1448 | the loop's result and attempt count are those of the tier ladder, and each signed attempt carries its tier's fee |
| Broadcast.TiersAdvanceOnlyOnInsufficientFee | packages/cosmos/src/client.rs:1427-1440 | the ladder moves to a higher price only after an insufficient-fee answer |
| Broadcast.TiersExhausted | packages/cosmos/src/client.rs:1442-1446 | when every tier asks for more gas, the last one's insufficient-fee error is returned after all tiers |
| Broadcast.TiersNewNumberOnlyBeforeLanding | packages/cosmos/src/client.rs:1398-1412 | a new-number result comes only from a broadcast rejection whose log gives that number, never from a landed transaction |
| Broadcast.TiersResultFromLast | packages/cosmos/src/client.rs:1426-1447 | a success or a new-number result is the last attempt's own outcome |
| Broadcast.OutcomeMismatch | packages/cosmos/src/client.rs:1398-1402 | an attempt's new-number outcome means the node's answer was a mismatch rejection |
| Broadcast.TiersSkipCodeCheck | packages/cosmos/src/client.rs:1389-1408 | with code checking off only one attempt is made, and its error is never a retry request |
| Broadcast.PlainResult | packages/cosmos/src/client.rs:1196 | keeps a success, and turns either kind of failure into its underlying error |
| Broadcast.InnerResult | packages/cosmos/src/client.rs:1162-1197 | a failed account fetch is returned as it is |
| Broadcast.RetryAtSequence | packages/cosmos/src/client.rs:1184-1196 | the second run of the ladder, at the corrected sequence, with its errors made plain |
| Broadcast.InnerSignAndBroadcast | packages/cosmos/src/client.rs:1162-1197 | one run of the ladder at the account's sequence, and a second one only when the first asks for a new number, at that number; every signed transaction belongs to one of the runs |
| Broadcast.InnerSuccessLanded | packages/cosmos/src/client.rs:1162-1197 | a success has code 0 unless checking is skipped |
| Submission.SubmitResult | packages/cosmos/src/client.rs:1137-1149 | a failed simulation, then a failed account fetch, is returned as it is |
| Submission.SignAndBroadcast | packages/cosmos/src/client.rs:1137-1149 | simulates the builder's body, then broadcasts it with the padded simulated gas; nothing is signed when either fails |
| Submission.SignAndBroadcastWithGas | packages/cosmos/src/client.rs:1152-1159 | broadcasts the builder's body with the given gas and no simulation |
| Submission.SignedCarryBodyAndGas | packages/cosmos/src/client.rs:1162-1197 | every transaction signed during a broadcast carries the same body and gas limit |
| Submission.SubmitSuccessLanded | packages/cosmos/src/client.rs:1137-1149 | a successful submission has code 0 unless checking is skipped |
| Paging.FirstStop | packages/cosmos/src/client.rs:485-511 | the page that ends a loop is the first stopping reply at or after the start |
| Paging.FirstStopIsFirst | packages/cosmos/src/client.rs:485-511 | no reply before it stops the loop |
| Paging.GatheredAppend | packages/cosmos/src/client.rs:498 | the items of two runs of pages are those of the first followed by those of the second |
| Balances.AllBalances | packages/cosmos/src/client.rs:481-512 | the first request has no pagination; each later one continues from the previous page's next key; the loop ends at the first error or page without a next key, returning every page's coins in order |
| Balances.AllBalancesKeepsEveryPage | packages/cosmos/src/client.rs:481-512 | on success every page read continued the loop except the last, and each page's coins appear contiguously in the result |
| Authz.MsgGrantMessage | packages/cosmos/src/authz.rs:14-21 | a grant is tagged with the `MsgGrant` type URL |
| Authz.MsgExecMessage | packages/cosmos/src/authz.rs:23-30 | an exec is tagged with the `MsgExec` type URL |
| Authz.ReadAuthzMessage | packages/cosmos/src/authz.rs:14-30 | only the two authz type URLs are read as authz messages |
| Authz.AuthzMessagesRoundTrip | packages/cosmos/src/authz.rs:14-30 | both conversions read back to the message given, and a grant never equals an exec |
| Authz.DateTimeToTimestamp | packages/cosmos/src/authz.rs:75-83 | seconds and nanoseconds are kept, and the nanoseconds always fit an `i32` |
| Authz.MsgGrantFromHelper | packages/cosmos/src/authz.rs:50-73 | granter and grantee kept, the authorization wrapped as a generic authorization, an expiration exactly when the helper has one |
| Authz.HelperMessage | packages/cosmos/src/authz.rs:44-48 | the message reads back as the grant built from the helper |
| Authz.MsgGrantFromHelperRoundTrip | packages/cosmos/src/authz.rs:50-83 | the helper can be recovered from the grant: the conversion loses nothing |
| Authz.QueryGranterGrants | packages/cosmos/src/authz.rs:87-127 | the first request has no pagination; each later one continues from the previous page's next key at the offset of the grants gathered, ten at a time; the loop ends at the first error or empty page, returning the grants of the pages before it |
| CodeIds.StripQuotes | packages/cosmos/src/codeid.rs:34-38 | a string quoted at both ends loses those two quotes; any other string is kept as it is |
| CodeIds.StripQuotesSubstring | packages/cosmos/src/codeid.rs:34-38 | the result is a slice of the input, either the whole or two characters shorter |
| CodeIds.StripQuotesExamples | packages/cosmos/src/codeid.rs:34-38 | a lone quote is kept, an empty pair becomes empty, only one pair of a doubly quoted string goes, and a one-sided quote is kept |
| Cli.SetRefererHeader | packages/cosmos/src/client.rs:856-858 | only the configured referer header changes |
| Cli.Overridden | packages/cosmos/src/clap.rs:39-55 | each option given replaces exactly its field; every other field keeps the network's value |
| Cli.OverriddenNothing | packages/cosmos/src/clap.rs:39-55 | without options the network's builder is used as it is |
| Cli.IntoBuilder | packages/cosmos/src/clap.rs:30-56 | a failure of the network's builder is returned; otherwise the overridden builder |
| Blocks.NeedleHeight | packages/cosmos/src/client.rs:805-809 | a message without the needle gives no height; a height given fits an `i64` |
| Blocks.HeightHint | packages/cosmos/src/client.rs:804-815 | the height given by the first needle that yields one, and none exactly when no needle does |
| Blocks.EarliestBlockInfo | packages/cosmos/src/client.rs:798-821 | block 1 is asked for first and returned when the node has it; a second height is asked for exactly when the first error is a status whose message yields a height, and it is the height of the first needle that yields one |
| Blocks.NeedleHeightOfNumber | packages/cosmos/src/client.rs:805-809 | a needle followed by an optional space and a number, with an optional closing parenthesis, yields that number |
| Blocks.LowestHeightExample | packages/cosmos/src/client.rs:810 | "lowest height is 42" yields 42 |
| Blocks.BaseHeightExample | packages/cosmos/src/client.rs:810 | "base height: 7)" (the needle's own trailing space before the number) yields 7 |

## Left out

- Simulation.Simulate: models the gRPC path of `simulate_inner`. When the client is configured for JSON-RPC (lines 1267-1276 of `client.rs`), a failed simulation is a plain error: the sequence hint is not read and simulation is not retried. The model always reads the hint.
- gRPC and JSON-RPC transports, TLS, dialing, the request interceptor and the referer header on the wire: each node query is an oracle parameter.
- Pool checkout, its locks and its concurrency. `Pool.CosmosBuilders` models only the builder rotation.
- `CosmosNetwork::builder` and the per-network constants (URLs, gas coins, prices). Fetching the sei testnet gas configuration over HTTP is also left out. The network's builder is a parameter of `Cli.IntoBuilder`.
- Protobuf encoding, `SignDoc` bytes, the wallet's signature and public-key encoding: encodings are symbolic values, and a signature is not modelled.
- Node replies do not depend on the bytes of the signed transaction; the model records what was signed separately.
- The account fetch (`get_base_account`) and its decoding errors: the account answer is a parameter.
- Logging, the two-second sleep between polls, and the `println!` in `query_granter_grants`.
- Gas.GasToCoins: computed on reals, not bit-exact `f64`. The `assert!(attempts > 0)` cannot fail on the path where it is evaluated.
- Gas.Scaled: the `f64` product is modelled as a real product, without `f64` rounding.
- Balances.AllBalances: the loop assumes that some reply ends it; a node that always answers with a next key would keep it running forever.
- Authz.QueryGranterGrants: the loop assumes that some reply ends it. The conversion of the offset from `usize` to `u64` is not modelled, since it cannot fail on a 64-bit target.
- `get_block_info`: its block decoding and the block timestamp are left out. `Blocks.EarliestBlockInfo` takes the block lookup as a parameter.
- Blocks.StatusOf: `downcast_ref::<tonic::Status>` is modelled as "the error is an RPC error".
- `add_update_contract_admin`, `add_execute_message`, `store_code` and the other wasm helpers are not part of this model.
- Queries outside the core: `wasm_query`, `contract_info`, `list_transactions_for`, `get_latest_block_info`.
