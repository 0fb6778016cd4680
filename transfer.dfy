/**
 * The transfer screen's view-model: the recipient and amount drafts, the gate on the
 * transfer button, local validation of the amount and the single call to the transfer
 * repository, whose outcome is mapped to one terminal UI state.
 */
module Transfer {
  import opened UiCommon

  /** The UI state the view-model publishes, with the fields it reads and writes. */
  datatype TransferUiState = TransferUiState(
    senderId: string,
    isTransferring: bool,
    transferSuccess: Option<bool>,
    error: Option<ErrorRes>)

  /** `TransferUiState()`: no sender yet, nothing running, no result, no error. */
  const InitialTransferUiState := TransferUiState("", false, None, None)

  /** The body of the transfer request handed to the repository. */
  datatype TransferRequest = TransferRequest(sender: string, recipient: string, amount: real)

  /** How one `performTransfer` call ends: a response carrying `result`, an IOException, or any other exception. */
  datatype TransferOutcome = Responded(result: bool) | IoFailure | OtherFailure

  /** The amount check: a number was parsed and it is strictly positive. */
  predicate IsAcceptedAmount(parsed: Option<real>) {
    parsed.Some? && parsed.value > 0.0
  }

  /** The state after an amount that does not parse or is not positive. */
  function AmountRejected(s: TransferUiState): (r: TransferUiState)
    ensures r.error == Some(AmountInvalid) && r.transferSuccess == Some(false)
    ensures r.senderId == s.senderId && r.isTransferring == s.isTransferring
  {
    s.(error := Some(AmountInvalid), transferSuccess := Some(false))
  }

  /** The state published just before the repository is called. */
  function TransferStarted(s: TransferUiState): (r: TransferUiState)
    ensures r.isTransferring && r.transferSuccess.None? && r.error.None?
    ensures r.senderId == s.senderId
  {
    s.(isTransferring := true, transferSuccess := None, error := None)
  }

  /** The state once the repository call has settled, from the in-flight state. */
  function TransferSettled(inFlight: TransferUiState, outcome: TransferOutcome): (r: TransferUiState)
    ensures !r.isTransferring && r.senderId == inFlight.senderId
    ensures r.transferSuccess == Some(outcome == Responded(true))
    ensures outcome == Responded(true) ==> r.error == inFlight.error
    ensures outcome == Responded(false) ==> r.error == Some(TransferFailure)
    ensures outcome == IoFailure ==> r.error == Some(Network)
    ensures outcome == OtherFailure ==> r.error == Some(Generic)
  {
    match outcome
    case Responded(result) =>
      if result then inFlight.(isTransferring := false, transferSuccess := Some(true))
      else inFlight.(isTransferring := false, transferSuccess := Some(false), error := Some(TransferFailure))
    case IoFailure =>
      inFlight.(isTransferring := false, transferSuccess := Some(false), error := Some(Network))
    case OtherFailure =>
      inFlight.(isTransferring := false, transferSuccess := Some(false), error := Some(Generic))
  }

  /**
   * The `isTransferButtonEnabled` test on given drafts and UI state: both drafts hold a
   * non-whitespace character and no transfer is running.
   */
  function TransferButtonEnabled(recipient: string, amount: string, s: TransferUiState): (enabled: bool)
    ensures enabled <==>
      (exists i :: 0 <= i < |recipient| && !IsWhitespace(recipient[i])) &&
      (exists j :: 0 <= j < |amount| && !IsWhitespace(amount[j])) &&
      !s.isTransferring
  {
    !IsBlank(recipient) && !IsBlank(amount) && !s.isTransferring
  }

  /** While a transfer is in flight the button is disabled, whatever the drafts hold. */
  lemma InFlightDisablesButton(recipient: string, amount: string, s: TransferUiState)
    ensures !TransferButtonEnabled(recipient, amount, TransferStarted(s))
  {
  }

  /**
   * A terminal state: nothing is running, a result is known, and the transfer succeeded
   * exactly when no error is shown.
   */
  predicate IsTerminal(s: TransferUiState) {
    !s.isTransferring && s.transferSuccess.Some? && (s.transferSuccess == Some(true) <==> s.error.None?)
  }

  /** Every outcome of a submitted transfer ends in a terminal state. */
  lemma SubmittedTransferEndsTerminal(s: TransferUiState, outcome: TransferOutcome)
    ensures IsTerminal(TransferSettled(TransferStarted(s), outcome))
  {
  }

  /** A rejected amount ends in a terminal state whenever no transfer was running. */
  lemma RejectedAmountEndsTerminal(s: TransferUiState)
    requires !s.isTransferring
    ensures IsTerminal(AmountRejected(s))
  {
  }

  /** After a submitted transfer, the state depends on the earlier state only through the sender id. */
  lemma SettledForgetsPriorState(s1: TransferUiState, s2: TransferUiState, outcome: TransferOutcome)
    requires s1.senderId == s2.senderId
    ensures TransferSettled(TransferStarted(s1), outcome) == TransferSettled(TransferStarted(s2), outcome)
  {
  }

  class TransferViewModel {
    /** The current value of `_uiState`. */
    var uiState: TransferUiState
    /** The `recipient` MutableStateFlow. */
    var recipient: string
    /** The `amount` MutableStateFlow, raw text. */
    var amount: string
    /** Every value written to `_uiState`, oldest first. */
    ghost var published: seq<TransferUiState>
    /** Every request handed to the repository's `performTransfer`, oldest first. */
    ghost var requests: seq<TransferRequest>

    /**
     * With each coroutine run to completion, no transfer is ever running between two
     * calls, and the last published value is the current state.
     */
    ghost predicate Valid()
      reads this
    {
      !uiState.isTransferring && |published| > 0 && published[|published| - 1] == uiState
    }

    constructor ()
      ensures Valid()
      ensures uiState == InitialTransferUiState && recipient == "" && amount == ""
      ensures published == [InitialTransferUiState] && requests == []
      ensures !IsTransferButtonEnabled()
    {
      uiState := InitialTransferUiState;
      recipient := "";
      amount := "";
      published := [InitialTransferUiState];
      requests := [];
    }

    /**
     * The `isTransferButtonEnabled` flow, read on the current state: the button is enabled
     * exactly when both drafts hold a non-whitespace character and no transfer is running.
     */
    function IsTransferButtonEnabled(): (enabled: bool)
      reads this
      ensures enabled <==>
        (exists i :: 0 <= i < |recipient| && !IsWhitespace(recipient[i])) &&
        (exists j :: 0 <= j < |amount| && !IsWhitespace(amount[j])) &&
        !uiState.isTransferring
    {
      TransferButtonEnabled(recipient, amount, uiState)
    }

    /** `_uiState.update { ... }`: one whole-state replacement. */
    method Publish(next: TransferUiState)
      modifies this
      ensures uiState == next && published == old(published) + [next]
      ensures recipient == old(recipient) && amount == old(amount) && requests == old(requests)
    {
      uiState := next;
      published := published + [next];
    }

    /** Stores the sender id in the UI state; nothing else changes. */
    method SetSenderId(id: string)
      requires Valid()
      modifies this
      ensures Valid()
      ensures uiState == old(uiState).(senderId := id)
      ensures published == old(published) + [uiState]
      ensures recipient == old(recipient) && amount == old(amount) && requests == old(requests)
    {
      Publish(uiState.(senderId := id));
    }

    /** Overwrites the recipient draft; nothing else changes. */
    method SetRecipient(newRecipient: string)
      requires Valid()
      modifies this
      ensures Valid()
      ensures recipient == newRecipient
      ensures uiState == old(uiState) && amount == old(amount)
      ensures published == old(published) && requests == old(requests)
    {
      recipient := newRecipient;
    }

    /** Overwrites the amount draft; nothing else changes. */
    method SetAmount(newAmount: string)
      requires Valid()
      modifies this
      ensures Valid()
      ensures amount == newAmount
      ensures uiState == old(uiState) && recipient == old(recipient)
      ensures published == old(published) && requests == old(requests)
    {
      amount := newAmount;
    }

    /**
     * Validates the amount draft with `toDoubleOrNull`; a rejected amount publishes one
     * error state and calls nothing. An accepted amount publishes the in-flight state, makes
     * exactly one `performTransfer` call with the current sender, recipient and parsed amount,
     * and publishes the settled state.
     */
    method Transfer(toDoubleOrNull: string -> Option<real>, performTransfer: TransferRequest -> TransferOutcome)
      requires Valid()
      modifies this
      ensures Valid()
      ensures recipient == old(recipient) && amount == old(amount)
      ensures !IsAcceptedAmount(toDoubleOrNull(amount)) ==>
        uiState == AmountRejected(old(uiState)) &&
        published == old(published) + [uiState] &&
        requests == old(requests)
      ensures IsAcceptedAmount(toDoubleOrNull(amount)) ==>
        var request := TransferRequest(old(uiState).senderId, recipient, toDoubleOrNull(amount).value);
        requests == old(requests) + [request] &&
        uiState == TransferSettled(TransferStarted(old(uiState)), performTransfer(request)) &&
        published == old(published) + [TransferStarted(old(uiState)), uiState]
    {
      var senderId := uiState.senderId;
      var recipientId := recipient;
      var amountAsDouble := toDoubleOrNull(amount);
      if amountAsDouble.None? || amountAsDouble.value <= 0.0 {
        Publish(AmountRejected(uiState));
        return;
      }
      Publish(TransferStarted(uiState));
      var request := TransferRequest(senderId, recipientId, amountAsDouble.value);
      var response := performTransfer(request);
      requests := requests + [request];
      Publish(TransferSettled(uiState, response));
    }
  }
}
