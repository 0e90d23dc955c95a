/** The batch script: a fixed list of recipients, one transfer each, in list
    order; a failure of one transfer is recorded and never stops the rest. */
module Batch {
  import opened Common

  /** One entry of the recipient list; `amount` is in base units. */
  datatype Recipient = Recipient(address: string, amount: nat)

  /** The record kept for one transfer. `gasUsed` is present only when a
      receipt came back, `error` only when the transfer threw. */
  datatype TransferResult = TransferResult(
    recipient: string,
    amount: nat,
    hash: string,
    status: Status,
    gasUsed: Option<nat>,
    error: Option<string>)

  /** The counts printed by the summary. */
  datatype Summary = Summary(successful: nat, failed: nat, total: nat)

  /** How a whole run ends: the set-up threw (the error is printed and the
      run returns), the operator declined, or the batch ran. */
  datatype BatchOutcome =
    | InitFailed(message: string)
    | Cancelled
    | Completed(results: seq<TransferResult>, summary: Summary)

  /** The hash recorded for a transfer that threw. */
  const NotAvailable := "N/A"

  /** What the JavaScript engine throws when `sendTransaction` is called on a
      wallet that was never set. */
  const NullWalletMessage := "Cannot read properties of null (reading 'sendTransaction')"

  /** The hard-coded recipients: 0.1, 0.2 and 0.15 TAO (18 decimals). */
  const ExampleRecipients: seq<Recipient> := [
    Recipient("0x1234567890123456789012345678901234567890", 100_000_000_000_000_000),
    Recipient("0x0987654321098765432109876543210987654321", 200_000_000_000_000_000),
    Recipient("0x1111111111111111111111111111111111111111", 150_000_000_000_000_000)
  ]

  /** Whether processing one item throws: there is no wallet, or the network
      answers the submission with an exception. */
  predicate Throws(wallet: Option<Wallet>, resp: Response) {
    wallet.None? || resp.Threw?
  }

  function ThrownMessage(wallet: Option<Wallet>, resp: Response): string
    requires Throws(wallet, resp)
  {
    if wallet.None? then NullWalletMessage else resp.message
  }

  /** The transaction submitted for a recipient. */
  function IntentFor(r: Recipient): TxIntent {
    TxIntent(r.address, r.amount, StandardGasLimit)
  }

  /** The record kept for one recipient, given how the network answered. */
  function ItemResult(wallet: Option<Wallet>, r: Recipient, resp: Response): (t: TransferResult)
    ensures t.recipient == r.address && t.amount == r.amount
    ensures t.status == Error <==> Throws(wallet, resp)
    ensures t.status == Success <==> !Throws(wallet, resp) && resp.receipt.status == Some(1)
    ensures t.error.Some? <==> t.status == Error
    ensures Throws(wallet, resp) ==>
      t.hash == NotAvailable && t.gasUsed == None && t.error == Some(ThrownMessage(wallet, resp))
    ensures !Throws(wallet, resp) ==>
      t.hash == resp.receipt.hash && t.gasUsed == Some(resp.receipt.gasUsed)
  {
    if Throws(wallet, resp) then
      TransferResult(r.address, r.amount, NotAvailable, Error, None, Some(ThrownMessage(wallet, resp)))
    else
      TransferResult(r.address, r.amount, resp.receipt.hash, StatusOf(resp.receipt.status),
                     Some(resp.receipt.gasUsed), None)
  }

  /** The effects of item `i`, in the order they happen: its submission
      (unless there is no wallet to submit with), then the pause, which sits
      inside the `try` and so only follows an item that did not throw, and
      never the last item. */
  function ItemEvents(wallet: Option<Wallet>, recipients: seq<Recipient>, network: seq<Response>, i: nat)
    : (events: seq<Event>)
    requires i < |recipients| == |network|
    ensures |events| <= 2
    ensures wallet.Some? <==> |events| > 0 && events[0] == Sent(IntentFor(recipients[i]))
    ensures forall j :: 0 < j < |events| ==> events[j] == Delayed(i, DelayMillis)
  {
    if wallet.None? then []
    else [Sent(IntentFor(recipients[i]))] +
         (if network[i].Mined? && i < |recipients| - 1 then [Delayed(i, DelayMillis)] else [])
  }

  /** Whether a list of effects holds a pause. */
  predicate HasPause(events: seq<Event>) {
    exists e :: e in events && e.Delayed?
  }

  /** When one item pauses: a 2-second pause follows its submission exactly
      when the item is not the last and did not throw, and then the item's
      effects are that submission and that pause and nothing else. */
  lemma ItemEffects(wallet: Option<Wallet>, recipients: seq<Recipient>, network: seq<Response>, i: nat)
    requires i < |recipients| == |network|
    ensures var events := ItemEvents(wallet, recipients, network, i);
      && (HasPause(events) <==> i < |recipients| - 1 && !Throws(wallet, network[i]))
      && (HasPause(events) ==> events == [Sent(IntentFor(recipients[i])), Delayed(i, DelayMillis)])
  {
    var events := ItemEvents(wallet, recipients, network, i);
    if i < |recipients| - 1 && !Throws(wallet, network[i]) {
      assert events[1] in events;
    }
  }

  /** A throwing item does not stop the batch: the next item is still
      submitted with its own intent, while no pause follows the one that
      threw. */
  lemma ErrorDoesNotStopBatch(wallet: Option<Wallet>, recipients: seq<Recipient>, network: seq<Response>,
                              log: seq<seq<Event>>, i: nat)
    requires |log| == |recipients| == |network|
    requires forall j :: 0 <= j < |log| ==> log[j] == ItemEvents(wallet, recipients, network, j)
    requires i + 1 < |recipients| && wallet.Some? && network[i].Threw?
    ensures !HasPause(log[i])
    ensures |log[i + 1]| > 0 && log[i + 1][0] == Sent(IntentFor(recipients[i + 1]))
  {
    ItemEffects(wallet, recipients, network, i);
    ItemEffects(wallet, recipients, network, i + 1);
  }

  /** The number of items followed by a pause. */
  function PauseCount(log: seq<seq<Event>>): nat {
    if log == [] then 0
    else PauseCount(log[..|log| - 1]) + (if HasPause(log[|log| - 1]) then 1 else 0)
  }

  /** Item `i` is followed by a pause: it is not the last and did not throw. */
  predicate PausesAfter(wallet: Option<Wallet>, recipients: seq<Recipient>, network: seq<Response>, i: nat)
    requires |recipients| == |network|
  {
    i < |recipients| - 1 && !Throws(wallet, network[i])
  }

  /** The items among the first `k` that are followed by a pause. */
  function PausedItems(wallet: Option<Wallet>, recipients: seq<Recipient>, network: seq<Response>, k: nat): set<nat>
    requires |recipients| == |network|
  {
    set i: nat | i < k && PausesAfter(wallet, recipients, network, i)
  }

  /** Over a batch's effects, the pauses are counted by the items that are
      not the last and did not throw; it is not `n - 1` when an earlier item
      threw. */
  lemma PausesCounted(wallet: Option<Wallet>, recipients: seq<Recipient>, network: seq<Response>,
                      log: seq<seq<Event>>)
    requires |log| == |recipients| == |network|
    requires forall i :: 0 <= i < |log| ==> log[i] == ItemEvents(wallet, recipients, network, i)
    ensures PauseCount(log) == |PausedItems(wallet, recipients, network, |log|)|
  {
    PausesCountedPrefix(wallet, recipients, network, log, |log|);
    assert log[..|log|] == log;
  }

  lemma {:induction false} PausesCountedPrefix(wallet: Option<Wallet>, recipients: seq<Recipient>, network: seq<Response>,
                                               log: seq<seq<Event>>, k: nat)
    requires k <= |log| == |recipients| == |network|
    requires forall i :: 0 <= i < |log| ==> log[i] == ItemEvents(wallet, recipients, network, i)
    ensures PauseCount(log[..k]) == |PausedItems(wallet, recipients, network, k)|
  {
    if k > 0 {
      PausesCountedPrefix(wallet, recipients, network, log, k - 1);
      assert log[..k][..k - 1] == log[..k - 1];
      ItemEffects(wallet, recipients, network, k - 1);
      assert HasPause(log[k - 1]) == PausesAfter(wallet, recipients, network, k - 1);
      PausedItemsStep(wallet, recipients, network, k);
    }
  }

  lemma PausedItemsStep(wallet: Option<Wallet>, recipients: seq<Recipient>, network: seq<Response>, k: nat)
    requires 0 < k <= |recipients| == |network|
    ensures |PausedItems(wallet, recipients, network, k)| ==
      |PausedItems(wallet, recipients, network, k - 1)| + (if PausesAfter(wallet, recipients, network, k - 1) then 1 else 0)
  {
    if PausesAfter(wallet, recipients, network, k - 1) {
      assert PausedItems(wallet, recipients, network, k) == PausedItems(wallet, recipients, network, k - 1) + {k - 1};
    } else {
      assert PausedItems(wallet, recipients, network, k) == PausedItems(wallet, recipients, network, k - 1);
    }
  }

  /** Only when no item throws is there a pause between every two
      consecutive items: `n - 1` pauses for `n >= 1` items, none for none. */
  lemma PausesWithoutErrors(wallet: Option<Wallet>, recipients: seq<Recipient>, network: seq<Response>,
                            log: seq<seq<Event>>)
    requires |log| == |recipients| == |network|
    requires forall i :: 0 <= i < |log| ==> log[i] == ItemEvents(wallet, recipients, network, i)
    requires wallet.Some? && forall i :: 0 <= i < |network| ==> network[i].Mined?
    ensures PauseCount(log) == if |log| == 0 then 0 else |log| - 1
  {
    PausesWithoutErrorsPrefix(wallet, recipients, network, log, |log|);
    assert log[..|log|] == log;
  }

  lemma {:induction false} PausesWithoutErrorsPrefix(wallet: Option<Wallet>, recipients: seq<Recipient>,
                                                     network: seq<Response>, log: seq<seq<Event>>, k: nat)
    requires k <= |log| == |recipients| == |network|
    requires forall i :: 0 <= i < |log| ==> log[i] == ItemEvents(wallet, recipients, network, i)
    requires wallet.Some? && forall i :: 0 <= i < |network| ==> network[i].Mined?
    ensures PauseCount(log[..k]) == if k == |log| && k > 0 then k - 1 else k
  {
    if k > 0 {
      PausesWithoutErrorsPrefix(wallet, recipients, network, log, k - 1);
      assert log[..k][..k - 1] == log[..k - 1];
      ItemEffects(wallet, recipients, network, k - 1);
    }
  }

  /** Number of results whose status is `Success`: at most one per result,
      and all of them exactly when every result is a `Success`. */
  function SuccessCount(results: seq<TransferResult>): (n: nat)
    ensures n <= |results|
    ensures n == |results| <==> forall i :: 0 <= i < |results| ==> results[i].status == Success
  {
    if results == [] then 0
    else SuccessCount(results[..|results| - 1]) + (if results[|results| - 1].status == Success then 1 else 0)
  }

  /** Number of results whose status is anything but `Success`; it and the
      successful count split the results. */
  function FailedCount(results: seq<TransferResult>): (n: nat)
    ensures n + SuccessCount(results) == |results|
  {
    if results == [] then 0
    else FailedCount(results[..|results| - 1]) + (if results[|results| - 1].status != Success then 1 else 0)
  }

  /** The indices of the successful results. */
  function SuccessIndices(results: seq<TransferResult>): set<nat> {
    set i: nat | i < |results| && results[i].status == Success
  }

  /** The successful count is the number of positions holding a `Success`. */
  lemma {:induction false} SuccessCountIsCardinality(results: seq<TransferResult>)
    ensures SuccessCount(results) == |SuccessIndices(results)|
  {
    if results != [] {
      var n := |results| - 1;
      var prefix := results[..n];
      SuccessCountIsCardinality(prefix);
      if results[n].status == Success {
        assert SuccessIndices(results) == SuccessIndices(prefix) + {n};
        assert n !in SuccessIndices(prefix);
      } else {
        assert SuccessIndices(results) == SuccessIndices(prefix);
      }
    }
  }

  /** The summary counts: `successful` results have status `Success`, the
      rest count as `failed`, and together they are all the results. */
  function Summarize(results: seq<TransferResult>): (s: Summary)
    ensures s.total == |results|
    ensures s.successful + s.failed == s.total
    ensures s.successful == |SuccessIndices(results)|
  {
    SuccessCountIsCardinality(results);
    Summary(SuccessCount(results), FailedCount(results), |results|)
  }

  /** In the detailed listing an `Error:` line is printed when the result
      carries a non-empty error message (the test is JavaScript truthiness). */
  predicate ShowsErrorLine(t: TransferResult) {
    t.error.Some? && t.error.value != ""
  }

  /** Only results of transfers that threw print an `Error:` line, and each
      of those does unless the thrown message was empty. */
  lemma ErrorLineOnlyForErrors(wallet: Option<Wallet>, r: Recipient, resp: Response)
    ensures ShowsErrorLine(ItemResult(wallet, r, resp)) <==>
      Throws(wallet, resp) && ThrownMessage(wallet, resp) != ""
  {
  }

  /** The batch counts as successful exactly the items whose transaction was
      mined with receipt status 1. */
  lemma SuccessfulAreConfirmed(wallet: Option<Wallet>, recipients: seq<Recipient>, network: seq<Response>,
                               results: seq<TransferResult>)
    requires |results| == |recipients| == |network|
    requires forall i :: 0 <= i < |results| ==> results[i] == ItemResult(wallet, recipients[i], network[i])
    ensures Summarize(results).successful ==
      |set i: nat | i < |network| && !Throws(wallet, network[i]) && network[i].receipt.status == Some(1)|
  {
    assert SuccessIndices(results) ==
      set i: nat | i < |network| && !Throws(wallet, network[i]) && network[i].receipt.status == Some(1);
  }

  class BatchTAOTransfer {
    var wallet: Option<Wallet>

    constructor()
      ensures wallet == None
    {
      wallet := None;
    }

    /** Builds the wallet from the formatted key (no emptiness check here)
        and reads its balance. `walletError` is the wallet library's verdict
        on a key, `balance` the provider's answer. */
    method Initialize(privateKey: string, walletError: string -> Option<string>, balance: Result<nat>)
      returns (r: Result<nat>)
      modifies this
      ensures walletError(FormatKey(privateKey)).Some? ==>
        wallet == old(wallet) && r == Err(walletError(FormatKey(privateKey)).value)
      ensures walletError(FormatKey(privateKey)).None? ==>
        wallet == Some(Wallet(FormatKey(privateKey))) && r == balance
    {
      var formatted := FormatKey(privateKey);
      var err := walletError(formatted);
      if err.Some? {
        return Err(err.value);
      }
      wallet := Some(Wallet(formatted));
      r := balance;
    }

    /** Submits one transfer per recipient, in order, and keeps one result
        per recipient, whatever happened to the others. `network[i]` is how
        the network answers item `i`; `log[i]` is what item `i` did, and the
        items' effects happen one item after the other. */
    method BatchTransfer(recipients: seq<Recipient>, network: seq<Response>)
      returns (results: seq<TransferResult>, log: seq<seq<Event>>)
      requires |network| == |recipients|
      ensures |results| == |recipients| && |log| == |recipients|
      ensures forall i :: 0 <= i < |recipients| ==> results[i] == ItemResult(wallet, recipients[i], network[i])
      ensures forall i :: 0 <= i < |recipients| ==> log[i] == ItemEvents(wallet, recipients, network, i)
    {
      results := [];
      log := [];
      for i := 0 to |recipients|
        invariant |results| == i && |log| == i
        invariant forall j :: 0 <= j < i ==> results[j] == ItemResult(wallet, recipients[j], network[j])
        invariant forall j :: 0 <= j < i ==> log[j] == ItemEvents(wallet, recipients, network, j)
      {
        var events := [];
        var recipient := recipients[i];
        if wallet.None? {
          results := results + [TransferResult(recipient.address, recipient.amount, NotAvailable, Error,
                                               None, Some(NullWalletMessage))];
        } else {
          events := events + [Sent(IntentFor(recipient))];
          match network[i]
          case Threw(message) =>
            results := results + [TransferResult(recipient.address, recipient.amount, NotAvailable, Error,
                                                 None, Some(message))];
          case Mined(receipt) =>
            results := results + [TransferResult(recipient.address, recipient.amount, receipt.hash,
                                                 StatusOf(receipt.status), Some(receipt.gasUsed), None)];
            if i < |recipients| - 1 {
              events := events + [Delayed(i, DelayMillis)];
            }
        }
        log := log + [events];
      }
    }

    /** The whole script: set up the wallet, ask for confirmation, run the
        batch over the hard-coded recipients and summarise. A set-up error
        is printed and ends the run; no transfer is sent unless the operator
        answers `yes` or `y`. */
    method Run(privateKey: string, walletError: string -> Option<string>, balance: Result<nat>,
               confirmation: string, network: seq<Response>)
      returns (outcome: BatchOutcome, asked: bool, log: seq<seq<Event>>)
      requires |network| == |ExampleRecipients|
      modifies this
      ensures walletError(FormatKey(privateKey)).Some? ==> wallet == old(wallet)
      ensures walletError(FormatKey(privateKey)).None? ==> wallet == Some(Wallet(FormatKey(privateKey)))
      ensures walletError(FormatKey(privateKey)).Some? ==>
        outcome == InitFailed(walletError(FormatKey(privateKey)).value) && !asked && log == []
      ensures walletError(FormatKey(privateKey)).None? && balance.Err? ==>
        outcome == InitFailed(balance.message) && !asked && log == []
      ensures walletError(FormatKey(privateKey)).None? && balance.Ok? && !IsConfirmed(confirmation) ==>
        outcome == Cancelled && asked && log == []
      ensures walletError(FormatKey(privateKey)).None? && balance.Ok? && IsConfirmed(confirmation) ==>
        && asked
        && outcome.Completed?
        && |outcome.results| == |ExampleRecipients| && |log| == |ExampleRecipients|
        && (forall i :: 0 <= i < |ExampleRecipients| ==>
              outcome.results[i] == ItemResult(Some(Wallet(FormatKey(privateKey))), ExampleRecipients[i], network[i]))
        && (forall i :: 0 <= i < |ExampleRecipients| ==>
              log[i] == ItemEvents(Some(Wallet(FormatKey(privateKey))), ExampleRecipients, network, i))
        && outcome.summary == Summarize(outcome.results)
    {
      asked, log := false, [];
      var init := Initialize(privateKey, walletError, balance);
      if init.Err? {
        return InitFailed(init.message), asked, log;
      }
      asked := true;
      if !IsConfirmed(confirmation) {
        return Cancelled, asked, log;
      }
      var results;
      results, log := BatchTransfer(ExampleRecipients, network);
      outcome := Completed(results, Summarize(results));
    }
  }

  /** The example scenario: the second of the three hard-coded transfers
      throws "insufficient funds", the other two are mined with status 1.
      Results are Success, Error, Success; the summary reads 2 successful,
      1 failed, 3 in all; and only one pause happens, because the pause
      after the failed second item is skipped. */
  lemma ExampleScenario(wallet: Wallet, a: Receipt, c: Receipt)
    requires a.status == Some(1) && c.status == Some(1)
    ensures var network := [Mined(a), Threw("insufficient funds"), Mined(c)];
      var results := [ItemResult(Some(wallet), ExampleRecipients[0], network[0]),
                      ItemResult(Some(wallet), ExampleRecipients[1], network[1]),
                      ItemResult(Some(wallet), ExampleRecipients[2], network[2])];
      && results[0].status == Success
      && results[1].status == Error && results[1].error == Some("insufficient funds")
      && results[2].status == Success
      && Summarize(results) == Summary(2, 1, 3)
      && var log := [ItemEvents(Some(wallet), ExampleRecipients, network, 0),
                     ItemEvents(Some(wallet), ExampleRecipients, network, 1),
                     ItemEvents(Some(wallet), ExampleRecipients, network, 2)];
         HasPause(log[0]) && !HasPause(log[1]) && !HasPause(log[2]) && PauseCount(log) == 1
  {
    var w := Some(wallet);
    var network := [Mined(a), Threw("insufficient funds"), Mined(c)];
    var results := [ItemResult(w, ExampleRecipients[0], network[0]),
                    ItemResult(w, ExampleRecipients[1], network[1]),
                    ItemResult(w, ExampleRecipients[2], network[2])];
    assert results[..1][..0] == [];
    assert SuccessCount(results[..1]) == 1;
    assert results[..2][..1] == results[..1];
    assert SuccessCount(results[..2]) == 1;
    assert SuccessCount(results) == 2;
    var log := [ItemEvents(w, ExampleRecipients, network, 0),
                ItemEvents(w, ExampleRecipients, network, 1),
                ItemEvents(w, ExampleRecipients, network, 2)];
    ItemEffects(w, ExampleRecipients, network, 0);
    ItemEffects(w, ExampleRecipients, network, 1);
    ItemEffects(w, ExampleRecipients, network, 2);
    assert log[..2][..1][..0] == [];
    assert log[..2][..1] == log[..1];
    assert log[..3][..2] == log[..2];
    assert PauseCount(log[..1]) == 1;
    assert PauseCount(log[..2]) == 1;
    assert log[..3] == log;
  }
}
