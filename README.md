# TAO transfer scripts, modelled in Dafny

Two command-line scripts move native TAO on the Bittensor testnet through an
ethers.js wallet:

- `transfer.js` makes one interactive transfer. It connects and loads the
  wallet from a private key, which must be non-empty and gets a `0x` prefix
  when it has none. It then reads the balance, the destination and the
  amount. It refuses when the balance is below the amount, estimates the fee
  as gas estimate × gas price, and refuses again when the balance is below
  amount + fee. It asks for confirmation (`yes`/`y` in any letter case) and
  submits `{to, value, gasLimit: 21000}`. It reports `Success` exactly for
  receipt status 1, `Failed` otherwise.
- `batch-transfer.js` sends to a hard-coded list of three recipients, one
  transfer each, in list order. A transfer that throws becomes an `Error`
  record with hash `N/A` and the thrown message, and the batch carries on. A
  2-second pause follows each item. The pause sits inside the `try`, so it is
  skipped after an item that threw, and there is never one after the last
  item. The summary counts `Success` records against all the others.

The model has three modules:

- `Common` (`common.dfy`) holds the shared values and decisions: key
  prefixing, the confirmation test and the status mapping.
- `Batch` (`batch.dfy`) holds the class `BatchTAOTransfer`, whose
  `BatchTransfer` loop is proved against two per-item functions:
  `ItemResult` for the record and `ItemEvents` for the effects.
- `Transfer` (`transfer.dfy`) holds the class `TAOTransfer`, whose `Run`
  method performs the steps in order with early aborts. `Run` is proved
  against the pure pre-flight function `Preflight`, which yields the fee or
  the first `Refusal`; `RefusalMessage` gives the text the script reports.

The wallet and the provider are replaced by their answers:

- `Response = Threw(message) | Mined(receipt)` stands for one submission.
- A `Session` record holds everything the operator types and the network
  answers in one run of `transfer.js`.

What the scripts do to the outside world comes back as `Event`s. The
single-transfer run returns one list of them. The batch returns one list per
item, and the items run one after the other. The events are:

- `Sent(tx)` is a submission.
- `Delayed(item, 2000)` is a pause.
- `GasEstimated` is a gas estimate request.
- `ConfirmationAsked` is the confirmation prompt.

The lemmas prove the following about these lists:

- each recipient is submitted once, in list order;
- a failed item does not stop the later ones;
- each pause has its place;
- no transfer is sent without confirmation.

Three details of the batch script shape what is proved:

- The pause sits inside the `try` (batch-transfer.js:69-73). So no pause
  follows an item that threw, and a batch has `n - 1` pauses only when no
  item throws (`PausesCounted`, `PausesWithoutErrors`). `ExampleScenario`
  has three items and one pause.
- A thrown item's hash is the literal `N/A` (batch-transfer.js:80).
- The thrown message is copied as is. An empty message gives an `Error`
  record with no `Error:` line in the listing (`ErrorLineOnlyForErrors`).

## Model

| member | source | states |
|---|---|---|
| `Common.FormatKey` | transfer.js:44 | the formatted key always starts with `0x`; a key that already does is kept as is, any other gets exactly `0x` put in front |
| `Common.FormatKeyIdempotent` | batch-transfer.js:23 | formatting twice gives the same key as formatting once |
| `Common.ToLower` | transfer.js:191 | lower-casing keeps the length and lowers each character in place |
| `Common.IsConfirmed` | transfer.js:191 | only a one- or three-character answer whose first character is `y` or `Y` confirms; `ConfirmedSpellings` gives the exact set |
| `Common.ConfirmedSpellings` | batch-transfer.js:134 | the confirmation goes ahead exactly for `y` or `yes` in any mix of letter case; every other answer cancels |
| `Common.StatusOf` | transfer.js:153 | a receipt reads `Success` exactly when its status is 1, otherwise `Failed`, never `Error` |
| `Batch.ItemResult` | batch-transfer.js:46-84 | one record per item: recipient and amount copied; `Error` exactly when the item threw, with hash `N/A`, no gas used and the thrown message; otherwise the receipt's hash and gas used, and `Success` exactly for status 1; only `Error` records carry an error |
| `Batch.ItemEvents` | batch-transfer.js:47-73 | an item has at most two effects; with a wallet the first is the submission `{to: address, value: amount, gasLimit: 21000}` and any later one is a 2-second pause after this item; without a wallet it has none |
| `Batch.ItemEffects` | batch-transfer.js:69-73 | a pause follows an item exactly when it is not the last item and did not throw; a paused item's effects are exactly submission then pause |
| `Batch.ErrorDoesNotStopBatch` | batch-transfer.js:75-84 | after item `i` throws, no pause follows it and item `i+1` is still submitted with its own intent |
| `Batch.PausesCounted` | batch-transfer.js:69-73 | over a whole batch, the number of pauses is the number of items that are not the last and did not throw |
| `Batch.PausesWithoutErrors` | batch-transfer.js:69-73 | when no item throws, there are `n - 1` pauses for `n >= 1` items and none for an empty list |
| `Batch.SuccessCount` | batch-transfer.js:94 | the successful count is at most the number of results, and equals it exactly when every result is a `Success` |
| `Batch.FailedCount` | batch-transfer.js:95 | the failed count and the successful count add up to the number of results |
| `Batch.SuccessCountIsCardinality` | batch-transfer.js:94 | the successful count is the number of positions whose status is `Success` |
| `Batch.Summarize` | batch-transfer.js:94-99 | the summary's total is the number of results, successful + failed = total, and successful counts the `Success` results |
| `Batch.ErrorLineOnlyForErrors` | batch-transfer.js:109-111 | an `Error:` line is printed for a record (`ShowsErrorLine`, the truthiness test on its error) exactly when its item threw with a non-empty message |
| `Batch.SuccessfulAreConfirmed` | batch-transfer.js:94 | for a batch's records, the successful count is the number of items mined with receipt status 1 |
| `Batch.ExampleScenario` | batch-transfer.js:121-125 | with the hard-coded recipients, the second throwing and the others mined with status 1: Success, Error (with the message), Success; summary 2 / 1 / 3; a single pause, after the first item |
| `Batch.BatchTAOTransfer.constructor` | batch-transfer.js:9-12 | a new runner has no wallet |
| `Batch.BatchTAOTransfer.Initialize` | batch-transfer.js:14-33 | the wallet is built from the formatted key; a key the library rejects leaves the wallet unchanged and reports the error; otherwise the balance answer is returned |
| `Batch.BatchTAOTransfer.BatchTransfer` | batch-transfer.js:35-88 | one result and one list of effects per recipient, in order, each the item's `ItemResult` and `ItemEvents`, so the submissions and pauses above hold of every run |
| `Batch.BatchTAOTransfer.Run` | batch-transfer.js:116-145 | the wallet holds the formatted key once the library accepts it and is unchanged otherwise; a set-up error ends the run before the prompt with nothing sent; an answer other than `yes`/`y` cancels after the prompt with nothing sent; otherwise the three hard-coded recipients are processed as above and summarised |
| `Transfer.EstimateFee` | transfer.js:94-112 | the fee is gas estimate × gas price when both queries answer; otherwise an error with the `Failed to estimate gas: ` prefix |
| `Transfer.Preflight` | transfer.js:159-178 | a pass carries the fee `EstimateFee` gives, and only happens when key, balance, address and amount were accepted and the balance covers amount + fee |
| `Transfer.PreflightAccepts` | transfer.js:162-178 | the pre-flight passes exactly when the key is non-empty and accepted, balance, address and amount are valid, both fee queries answer and balance ≥ amount + gas estimate × gas price; the fee passed on is that product |
| `Transfer.EmptyKeyRejected` | transfer.js:39-41 | an empty private key is refused with `Private key is required` before anything else |
| `Transfer.UnconvertibleAmountReported` | transfer.js:66-74 | a positive amount whose printed form the library will not convert stops the run exactly when key, balance and address passed, and the library's message is reported unchanged |
| `Transfer.InsufficientBalanceBeforeEstimate` | transfer.js:167-170 | the `Insufficient balance for transfer` refusal happens exactly when the earlier steps passed and balance < amount |
| `Transfer.InsufficientWithFeesAfterEstimate` | transfer.js:173-178 | the `including gas fees` refusal happens exactly when balance ≥ amount, both fee queries answered and balance < amount + gas estimate × gas price |
| `Transfer.BalanceMessagesIdentifyCheck` | transfer.js:167-178 | apart from a conversion error, whose text is the library's, a refusal reads `Insufficient balance for transfer` only for the amount check and `... including gas fees` only for the fee check |
| `Transfer.TAOTransfer.constructor` | transfer.js:10-13 | a new script object has no wallet |
| `Transfer.TAOTransfer.GetWalletInfo` | transfer.js:30-53 | an empty key is refused before any wallet is built; a key the library rejects is reported with `Invalid private key: ` and leaves the wallet unchanged; otherwise the wallet holds the formatted key |
| `Transfer.TAOTransfer.Run` | transfer.js:159-204 | a connection failure ends the run at once. A refusal aborts with its message, and only a run that got past the amount check has asked for a gas estimate. An unconfirmed run stops after the prompt with nothing sent. A confirmed run submits exactly `{to: receiver, value: amount, gasLimit: 21000}` once. A throw is then reported as `Transfer failed: …`; a receipt is reported with `Success` exactly for status 1. An empty or rejected key leaves the wallet unchanged; an accepted one puts the formatted key in it |

## Left out

- The ethers library is not part of this model. Provider construction,
  wallet construction and address derivation, signing, `sendTransaction`,
  `wait`, `getBalance`, `estimateGas`, `getFeeData` and `isAddress` become
  answers supplied to the model: `walletError`, `balance`, `network`,
  `Session.response`, `gasEstimate`, `gasPrice` and `receiverIsAddress`.
- The `parseFloat` amount parsing and its `NaN`/`<= 0` test (transfer.js:67-71)
  and the `parseEther(amount.toString())` conversion (transfer.js:74) are
  floating point and decimal text. The typed amount enters already
  classified: `NotPositive` when the test rejects it, `Unconvertible` with
  the library's message when the conversion throws (a positive amount that
  prints in exponent notation, such as `1e-7`), otherwise `Wei` base units.
- `parseEther`/`formatEther` are not modelled. Batch amounts are base units
  from the start. A throw from `parseEther` inside the batch `try` would give
  an `Error` record without a submission; that case is not modelled.
- Both scripts treat a throw from `sendTransaction` and a throw from `wait()`
  the same way. The model has one `Threw` answer for both. A submission is
  logged as `Sent` once the call is made.
- A `null` gas price from `getFeeData` makes the product throw inside the same
  `try`. It is covered by `gasPrice` being an error.
- `toLowerCase` is modelled as folding `A`–`Z` only. For the confirmation
  test this changes nothing: no other character lower-cases to `y`, `e` or
  `s`.
- `readline-sync` prompts and masked input, all console text and emoji,
  `process.exit`, and `dotenv` are input and output. The prompts' answers are
  parameters. The exit status is the `Outcome` constructor: `ConnectFailed`
  and `Aborted` exit with status 1.
- `setTimeout` timing and async suspension are not modelled. A pause is only
  the `Delayed` event.
- The RPC URL, the chain ID and the explorer URL are display constants and are
  not modelled.
- The block number, the gas used and the fee that the single-transfer script
  prints after a confirmed transaction are output only. The receipt is kept
  whole in `Completed`.
