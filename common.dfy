/** Values and decisions shared by the single-transfer and the batch-transfer
    scripts: the transaction intent, the receipt the wallet library reports,
    the private-key prefixing, the yes/no confirmation and the status shown
    for a receipt. */
module Common {

  datatype Option<T> = None | Some(value: T)

  /** The outcome of a call that may throw: the value, or the thrown error's message. */
  datatype Result<T> = Ok(value: T) | Err(message: string)

  /** A receipt as the wallet library reports it once a transaction is final.
      `status` is 1 for an executed transaction, 0 for a reverted one, and may
      be absent (the library reports `null` for pre-Byzantium receipts). */
  datatype Receipt = Receipt(hash: string, status: Option<int>, gasUsed: nat, blockNumber: nat, gasPrice: nat)

  /** What the network does with one submission: either `sendTransaction` or
      `wait()` throws, or the transaction is mined and a receipt comes back. */
  datatype Response = Threw(message: string) | Mined(receipt: Receipt)

  /** The transaction object handed to `sendTransaction`: destination, value
      in base units and gas limit. */
  datatype TxIntent = TxIntent(to: string, value: nat, gasLimit: nat)

  /** The gas limit of a plain value transfer, fixed by both scripts. */
  const StandardGasLimit: nat := 21000

  /** The pause between two batch items, in milliseconds. */
  const DelayMillis: nat := 2000

  /** The status a script reports for one transfer. */
  datatype Status = Success | Failed | Error

  /** The externally visible effects the scripts cause, in the order they
      happen: a transaction submitted, a pause after a batch item, a gas
      estimate requested, the operator asked to confirm. */
  datatype Event =
    | Sent(tx: TxIntent)
    | Delayed(afterItem: nat, millis: nat)
    | GasEstimated
    | ConfirmationAsked

  /** The signing identity the scripts build from the formatted private key;
      address derivation and signing belong to the wallet library. */
  datatype Wallet = Wallet(privateKey: string)

  predicate HasHexPrefix(s: string) {
    |s| >= 2 && s[..2] == "0x"
  }

  /** The key handed to the wallet library: the key as typed, with `0x`
      put in front unless it is already there (case-sensitive, as
      `startsWith('0x')`). */
  function FormatKey(key: string): (r: string)
    ensures HasHexPrefix(r)
    ensures HasHexPrefix(key) ==> r == key
    ensures !HasHexPrefix(key) ==> r[2..] == key
  {
    if HasHexPrefix(key) then key else "0x" + key
  }

  /** Formatting an already formatted key changes nothing. */
  lemma FormatKeyIdempotent(key: string)
    ensures FormatKey(FormatKey(key)) == FormatKey(key)
  {
  }

  /** Lower-casing of one character; only A-Z are folded. */
  function LowerChar(c: char): char {
    if 'A' <= c <= 'Z' then (c as int + 32) as char else c
  }

  /** `toLowerCase()`, character by character. */
  function ToLower(s: string): (r: string)
    ensures |r| == |s|
    ensures forall i :: 0 <= i < |s| ==> r[i] == LowerChar(s[i])
  {
    if s == [] then [] else [LowerChar(s[0])] + ToLower(s[1..])
  }

  /** The confirmation test of both scripts: the answer, lower-cased, is
      `yes` or `y`; only a one- or three-character answer starting with `y`
      or `Y` can pass it. */
  predicate IsConfirmed(answer: string): (ok: bool)
    ensures ok ==> (|answer| == 1 || |answer| == 3) && answer[0] in "yY"
  {
    ToLower(answer) == "yes" || ToLower(answer) == "y"
  }

  /** The answers that go ahead are exactly `y` and `yes` in any mix of
      letter case; everything else (including the empty answer, `no`,
      ` yes` and `yes ` ) cancels. */
  lemma ConfirmedSpellings(answer: string)
    ensures IsConfirmed(answer) <==>
      (|answer| == 1 && answer[0] in "yY") ||
      (|answer| == 3 && answer[0] in "yY" && answer[1] in "eE" && answer[2] in "sS")
  {
  }

  /** The status reported for a receipt: `Success` exactly when the receipt's
      status is 1, `Failed` otherwise; a receipt never reads as `Error`. */
  function StatusOf(status: Option<int>): (s: Status)
    ensures s != Error
    ensures s == Success <==> status == Some(1)
  {
    if status == Some(1) then Success else Failed
  }
}
