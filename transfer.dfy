/** The single-transfer script: connect, load the wallet, read the balance,
    read the destination and amount, check the balance against the amount
    and against the amount plus the estimated fee, ask for confirmation,
    submit, and report the receipt's status. */
module Transfer {
  import opened Common

  const PrivateKeyRequired := "Private key is required"
  const InvalidKeyPrefix := "Invalid private key: "
  const BalanceCheckPrefix := "Failed to check balance: "
  const InvalidReceiver := "Invalid receiver address"
  const InvalidAmount := "Invalid amount"
  const InsufficientBalance := "Insufficient balance for transfer"
  const GasEstimatePrefix := "Failed to estimate gas: "
  const InsufficientWithFees := InsufficientBalance + " including gas fees"
  const TransferFailedPrefix := "Transfer failed: "

  /** The typed amount after `parseFloat` and `parseEther(amount.toString())`:
      not a positive number, a positive number whose printed form the library
      refuses to convert (exponent notation such as `1e-7`), or base units. */
  datatype AmountInput = NotPositive | Unconvertible(message: string) | Wei(value: nat)

  /** Everything the operator types and the network answers during one run.
      `walletError` is the wallet library's verdict on a (formatted) key,
      `receiverIsAddress` the library's address check. */
  datatype Session = Session(
    connectError: Option<string>,
    privateKey: string,
    walletError: string -> Option<string>,
    balance: Result<nat>,
    receiver: string,
    receiverIsAddress: bool,
    amount: AmountInput,
    gasEstimate: Result<nat>,
    gasPrice: Result<nat>,
    confirmation: string,
    response: Response)

  /** Why the run stops before the confirmation prompt, one case per error
      the script throws there; a library's own message is kept as is. */
  datatype Refusal =
    | KeyRequired
    | KeyRejected(libraryMessage: string)
    | BalanceUnavailable(libraryMessage: string)
    | ReceiverInvalid
    | AmountInvalid
    | AmountUnconvertible(libraryMessage: string)
    | BalanceTooLow
    | FeeUnavailable(message: string)
    | BalanceTooLowForFees

  /** The outcome of the checks before the prompt: the estimated fee, or the
      first refusal. */
  datatype Checked = Passed(fee: nat) | Refused(reason: Refusal)

  /** How a run ends. `ConnectFailed` and `Aborted` exit with status 1;
      `Cancelled` and `Completed` end normally. */
  datatype Outcome =
    | ConnectFailed(message: string)
    | Aborted(message: string)
    | Cancelled
    | Completed(receipt: Receipt, status: Status)

  /** The message of the error thrown for a refusal. */
  function RefusalMessage(r: Refusal): string {
    match r
    case KeyRequired => PrivateKeyRequired
    case KeyRejected(m) => InvalidKeyPrefix + m
    case BalanceUnavailable(m) => BalanceCheckPrefix + m
    case ReceiverInvalid => InvalidReceiver
    case AmountInvalid => InvalidAmount
    case AmountUnconvertible(m) => m
    case BalanceTooLow => InsufficientBalance
    case FeeUnavailable(m) => m
    case BalanceTooLowForFees => InsufficientWithFees
  }

  /** The fee estimate: gas units times the gas price, both in base units.
      A failure of either query is reported with the estimate's prefix; the
      fee query is not made when the gas query fails. */
  function EstimateFee(gasEstimate: Result<nat>, gasPrice: Result<nat>): (fee: Result<nat>)
    ensures fee.Ok? <==> gasEstimate.Ok? && gasPrice.Ok?
    ensures fee.Ok? ==> fee.value == gasEstimate.value * gasPrice.value
    ensures fee.Err? ==> |fee.message| >= |GasEstimatePrefix| && fee.message[..|GasEstimatePrefix|] == GasEstimatePrefix
  {
    match gasEstimate
    case Err(m) => Err(GasEstimatePrefix + m)
    case Ok(gas) =>
      match gasPrice
      case Err(m) => Err(GasEstimatePrefix + m)
      case Ok(price) => Ok(gas * price)
  }

  /** The steps before the first balance check all succeed: a non-empty key
      the wallet library accepts, a balance, a valid address, an amount in
      base units. */
  predicate DetailsAccepted(s: Session) {
    && s.privateKey != ""
    && s.walletError(FormatKey(s.privateKey)).None?
    && s.balance.Ok?
    && s.receiverIsAddress
    && s.amount.Wei?
  }

  /** The run gets as far as estimating gas: the details are accepted and the
      balance covers the amount. */
  predicate ReachesGasEstimate(s: Session) {
    DetailsAccepted(s) && s.balance.value >= s.amount.value
  }

  /** The checks before the prompt, once connected, in the order the script
      makes them. A pass carries the estimated fee, which together with the
      amount is covered by the balance. */
  function Preflight(s: Session): (c: Checked)
    ensures c.Passed? ==>
      && DetailsAccepted(s)
      && EstimateFee(s.gasEstimate, s.gasPrice) == Ok(c.fee)
      && s.balance.value >= s.amount.value + c.fee
  {
    if s.privateKey == "" then Refused(KeyRequired)
    else if s.walletError(FormatKey(s.privateKey)).Some? then
      Refused(KeyRejected(s.walletError(FormatKey(s.privateKey)).value))
    else if s.balance.Err? then Refused(BalanceUnavailable(s.balance.message))
    else if !s.receiverIsAddress then Refused(ReceiverInvalid)
    else if s.amount.NotPositive? then Refused(AmountInvalid)
    else if s.amount.Unconvertible? then Refused(AmountUnconvertible(s.amount.message))
    else if s.balance.value < s.amount.value then Refused(BalanceTooLow)
    else
      match EstimateFee(s.gasEstimate, s.gasPrice)
      case Err(m) => Refused(FeeUnavailable(m))
      case Ok(fee) =>
        if s.balance.value < s.amount.value + fee then Refused(BalanceTooLowForFees) else Passed(fee)
  }

  /** The checks pass exactly when every step succeeds and the balance
      covers the amount plus gas estimate times gas price; the fee they
      yield is that product. */
  lemma PreflightAccepts(s: Session)
    ensures Preflight(s).Passed? <==>
      && DetailsAccepted(s)
      && s.gasEstimate.Ok? && s.gasPrice.Ok?
      && s.balance.value >= s.amount.value + s.gasEstimate.value * s.gasPrice.value
    ensures Preflight(s).Passed? ==> Preflight(s).fee == s.gasEstimate.value * s.gasPrice.value
  {
  }

  /** An empty key is refused first, whatever else the session holds. */
  lemma EmptyKeyRejected(s: Session)
    requires s.privateKey == ""
    ensures Preflight(s) == Refused(KeyRequired)
    ensures RefusalMessage(Preflight(s).reason) == PrivateKeyRequired
  {
  }

  /** A positive amount the library cannot convert stops the run once the
      key, the balance and the address have passed, and the library's
      message is reported unchanged. */
  lemma UnconvertibleAmountReported(s: Session)
    ensures Preflight(s).Refused? && Preflight(s).reason.AmountUnconvertible? <==>
      && s.privateKey != ""
      && s.walletError(FormatKey(s.privateKey)).None?
      && s.balance.Ok?
      && s.receiverIsAddress
      && s.amount.Unconvertible?
    ensures s.amount.Unconvertible? && Preflight(s) == Refused(AmountUnconvertible(s.amount.message)) ==>
      RefusalMessage(Preflight(s).reason) == s.amount.message
  {
  }

  /** The plain balance refusal happens exactly when the details are accepted
      and the balance is below the amount, that is, before any gas estimate. */
  lemma InsufficientBalanceBeforeEstimate(s: Session)
    ensures Preflight(s) == Refused(BalanceTooLow) <==>
      DetailsAccepted(s) && s.balance.value < s.amount.value
  {
  }

  /** The fee refusal happens exactly when the balance covers the amount, the
      estimate succeeds, and the balance is below amount plus fee. */
  lemma InsufficientWithFeesAfterEstimate(s: Session)
    ensures Preflight(s) == Refused(BalanceTooLowForFees) <==>
      && ReachesGasEstimate(s)
      && s.gasEstimate.Ok? && s.gasPrice.Ok?
      && s.balance.value < s.amount.value + s.gasEstimate.value * s.gasPrice.value
  {
  }

  /** The two balance messages tell the operator which check failed: apart
      from a conversion error, whose text is the library's, a refusal reads
      `Insufficient balance for transfer` only when the balance is below the
      amount, and `... including gas fees` only when it is below amount plus
      fee. */
  lemma BalanceMessagesIdentifyCheck(s: Session)
    requires Preflight(s).Refused? && !Preflight(s).reason.AmountUnconvertible?
    ensures RefusalMessage(Preflight(s).reason) == InsufficientBalance <==> Preflight(s).reason == BalanceTooLow
    ensures RefusalMessage(Preflight(s).reason) == InsufficientWithFees <==> Preflight(s).reason == BalanceTooLowForFees
  {
    var message := RefusalMessage(Preflight(s).reason);
    match Preflight(s).reason
    case KeyRequired =>
      assert message[0] == 'P' && InsufficientBalance[0] == 'I' && InsufficientWithFees[0] == 'I';
    case KeyRejected(_) =>
      assert message[2] == 'v' && InsufficientBalance[2] == 's' && InsufficientWithFees[2] == 's';
    case BalanceUnavailable(_) =>
      assert message[0] == 'F' && InsufficientBalance[0] == 'I' && InsufficientWithFees[0] == 'I';
    case ReceiverInvalid =>
      assert message[2] == 'v' && InsufficientBalance[2] == 's' && InsufficientWithFees[2] == 's';
    case AmountInvalid =>
      assert message[2] == 'v' && InsufficientBalance[2] == 's' && InsufficientWithFees[2] == 's';
    case FeeUnavailable(_) =>
      assert message[0] == 'F' && InsufficientBalance[0] == 'I' && InsufficientWithFees[0] == 'I';
    case BalanceTooLow =>
      assert |message| != |InsufficientWithFees|;
    case BalanceTooLowForFees =>
      assert |message| != |InsufficientBalance|;
  }

  class TAOTransfer {
    var wallet: Option<Wallet>

    constructor()
      ensures wallet == None
    {
      wallet := None;
    }

    /** Refuses an empty key before any wallet is built, then builds the
        wallet from the formatted key; a key the library rejects leaves the
        wallet as it was. */
    method GetWalletInfo(privateKey: string, walletError: string -> Option<string>) returns (err: Option<string>)
      modifies this
      ensures privateKey == "" ==> err == Some(PrivateKeyRequired) && wallet == old(wallet)
      ensures privateKey != "" && walletError(FormatKey(privateKey)).Some? ==>
        err == Some(InvalidKeyPrefix + walletError(FormatKey(privateKey)).value) && wallet == old(wallet)
      ensures privateKey != "" && walletError(FormatKey(privateKey)).None? ==>
        err == None && wallet == Some(Wallet(FormatKey(privateKey)))
    {
      if privateKey == "" {
        return Some(PrivateKeyRequired);
      }
      var formatted := FormatKey(privateKey);
      var libraryError := walletError(formatted);
      if libraryError.Some? {
        return Some(InvalidKeyPrefix + libraryError.value);
      }
      wallet := Some(Wallet(formatted));
      err := None;
    }

    /** One run of the script. Nothing is submitted unless every pre-flight
        check passes and the operator answers `yes` or `y`; the one
        submission is `{to: receiver, value: amount, gasLimit: 21000}`, and
        the reported status is `Success` exactly for receipt status 1. */
    method Run(s: Session) returns (outcome: Outcome, trace: seq<Event>)
      modifies this
      ensures s.connectError.Some? ==>
        outcome == ConnectFailed(s.connectError.value) && trace == [] && wallet == old(wallet)
      ensures s.connectError.None? && Preflight(s).Refused? ==>
        && outcome == Aborted(RefusalMessage(Preflight(s).reason))
        && trace == (if ReachesGasEstimate(s) then [GasEstimated] else [])
      ensures s.connectError.None? && Preflight(s).Passed? && !IsConfirmed(s.confirmation) ==>
        outcome == Cancelled && trace == [GasEstimated, ConfirmationAsked]
      ensures s.connectError.None? && Preflight(s).Passed? && IsConfirmed(s.confirmation) ==>
        && trace == [GasEstimated, ConfirmationAsked, Sent(TxIntent(s.receiver, s.amount.value, StandardGasLimit))]
        && outcome == match s.response
                      case Threw(m) => Aborted(TransferFailedPrefix + m)
                      case Mined(r) => Completed(r, StatusOf(r.status))
      ensures s.connectError.None? && (s.privateKey == "" || s.walletError(FormatKey(s.privateKey)).Some?) ==>
        wallet == old(wallet)
      ensures s.connectError.None? && s.privateKey != "" && s.walletError(FormatKey(s.privateKey)).None? ==>
        wallet == Some(Wallet(FormatKey(s.privateKey)))
    {
      trace := [];
      if s.connectError.Some? {
        return ConnectFailed(s.connectError.value), trace;
      }
      var keyError := GetWalletInfo(s.privateKey, s.walletError);
      if keyError.Some? {
        return Aborted(keyError.value), trace;
      }
      if s.balance.Err? {
        return Aborted(BalanceCheckPrefix + s.balance.message), trace;
      }
      var balance := s.balance.value;
      if !s.receiverIsAddress {
        return Aborted(InvalidReceiver), trace;
      }
      if s.amount.NotPositive? {
        return Aborted(InvalidAmount), trace;
      }
      if s.amount.Unconvertible? {
        return Aborted(s.amount.message), trace;
      }
      var amountWei := s.amount.value;
      if balance < amountWei {
        return Aborted(InsufficientBalance), trace;
      }
      trace := trace + [GasEstimated];
      var fee := EstimateFee(s.gasEstimate, s.gasPrice);
      if fee.Err? {
        return Aborted(fee.message), trace;
      }
      if balance < amountWei + fee.value {
        return Aborted(InsufficientWithFees), trace;
      }
      trace := trace + [ConfirmationAsked];
      if !IsConfirmed(s.confirmation) {
        return Cancelled, trace;
      }
      trace := trace + [Sent(TxIntent(s.receiver, amountWei, StandardGasLimit))];
      match s.response
      case Threw(m) =>
        outcome := Aborted(TransferFailedPrefix + m);
      case Mined(receipt) =>
        outcome := Completed(receipt, StatusOf(receipt.status));
    }
  }
}
