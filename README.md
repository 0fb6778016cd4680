# Aura view-models in Dafny

This project models the three view-models of the Aura mobile banking client. Each one is a
small state machine over a record of UI state. All three are driven by setter calls and one
action call.

- **Login** (`login.dfy`, `LoginViewModel`). It holds the identifier and password drafts.
  The login button is enabled exactly when both drafts hold a non-whitespace character.
- **Transfer** (`transfer.dfy`, `TransferViewModel`). It holds the recipient and amount
  drafts and the transfer UI state.
  - The transfer button is enabled when both drafts are non-blank and no transfer is running.
  - `Transfer` parses the amount and rejects a missing or non-positive amount locally.
  - Otherwise it publishes the in-flight state and calls `performTransfer` exactly once.
    It then publishes the terminal state for the outcome: success, rejected by the server,
    network error or generic error.
- **Home** (`home.dfy`, `HomeViewModel`). It loads a user's accounts and shows the balance of
  the first account flagged main. The failure mapping is:
  - HTTP 404 → user not found;
  - any other HTTP code → generic error;
  - `IOException` → network error;
  - any other exception → generic error.

  `Refresh` reloads for the stored user id.
- `ui_common.dfy` holds the shared `Option`, the error-resource enumeration `ErrorRes` and
  Kotlin's `isBlank`.

How the Kotlin constructs are represented:

- Each view-model is a class. Every `MutableStateFlow` becomes a field.
- Every `_uiState.update { it.copy(...) }` becomes one call of `Publish`. `Publish` replaces
  the state and appends it to the ghost log `published`, which holds every value written to
  `_uiState`, oldest first. With this log, the contracts can state the in-flight state that is
  written before the repository is called.
- The coroutine bodies run to completion synchronously, as under the test dispatcher. So
  each action is one sequential method.
- A repository is passed to its action as a function parameter:
  - `getAccounts: string -> AccountsOutcome`;
  - `performTransfer: TransferRequest -> TransferOutcome`.

  Each call is recorded in the ghost log `requests`, so the contracts can say how many calls
  were made and with which arguments.
- Kotlin's `String.toDoubleOrNull` is passed to `Transfer` as a function
  `string -> Option<real>`.
- Balances and amounts are `real`, because they are only compared with zero or passed on.

`TransferViewModel` and `HomeViewModel` each have a `Valid()` invariant. Its constructor
establishes it and every public method keeps it. `LoginViewModel` needs none. The invariant
says:

- The last published value is the current state.
- For transfers, no transfer is running between calls.
- For the home screen, an error excludes a balance and marks failure. Once loading has
  finished, the success flag is set exactly when no error is shown.

The transfer UI state has the fields `senderId`, `isTransferring`, `transferSuccess` and
`error`. These are the fields that `TransferViewModel.kt` and its test read and write. The
data class in `app/src/main/java/com/aura/ui/transfer/TransferUiState.kt` declares other
fields, so the model follows the view-model code. The initial sender id is the empty string.

## Model

| member | source | states |
|---|---|---|
| UiCommon.IsBlank | app/src/main/java/com/aura/ui/transfer/TransferViewModel.kt:39 | a string is blank exactly when every character is whitespace (Kotlin `isBlank`, with `isWhitespace` written out as a character set) |
| Login.LoginViewModel.constructor | app/src/main/java/com/aura/ui/login/LoginViewModel.kt:17-37 | both drafts start empty and the login button starts disabled |
| Login.LoginViewModel.SetIdentifier | app/src/main/java/com/aura/ui/login/LoginViewModel.kt:19-21 | the identifier becomes the argument; the password is unchanged |
| Login.LoginViewModel.SetPassword | app/src/main/java/com/aura/ui/login/LoginViewModel.kt:22-24 | the password becomes the argument; the identifier is unchanged |
| Login.LoginViewModel.IsLoginEnabled | app/src/main/java/com/aura/ui/login/LoginViewModel.kt:32-34 | enabled iff the identifier has a non-whitespace character and the password has one, so a blank field disables it whatever the other holds |
| Login.EditOrderIrrelevant | app/src/main/java/com/aura/ui/login/LoginViewModel.kt:19-34 | setting the identifier then the password, or the password then the identifier, gives the same drafts and the same button state, whatever the drafts held before |
| Transfer.AmountRejected | app/src/main/java/com/aura/ui/transfer/TransferViewModel.kt:70-78 | a rejected amount sets error = amount invalid and transferSuccess = false; senderId and isTransferring are unchanged |
| Transfer.TransferStarted | app/src/main/java/com/aura/ui/transfer/TransferViewModel.kt:81-87 | before the call: isTransferring = true, no result, no error, same sender |
| Transfer.TransferSettled | app/src/main/java/com/aura/ui/transfer/TransferViewModel.kt:99-135 | after the call nothing is running; transferSuccess is true iff the response said true; false result → transfer failure, IOException → network, any other exception → generic |
| Transfer.TransferButtonEnabled | app/src/main/java/com/aura/ui/transfer/TransferViewModel.kt:37-39 | on given drafts and UI state, enabled iff the recipient has a non-whitespace character, the amount has one, and no transfer is running |
| Transfer.InFlightDisablesButton | app/src/main/java/com/aura/ui/transfer/TransferViewModel.kt:37-39 | in the in-flight state written before the repository call, the button is disabled whatever the drafts hold |
| Transfer.SubmittedTransferEndsTerminal | app/src/main/java/com/aura/ui/transfer/TransferViewModel.kt:81-135 | every outcome of a submitted transfer ends with nothing running, a known result, and success exactly when no error is shown |
| Transfer.RejectedAmountEndsTerminal | app/src/main/java/com/aura/ui/transfer/TransferViewModel.kt:70-78 | a rejected amount also ends in such a terminal state when no transfer was running |
| Transfer.SettledForgetsPriorState | app/src/main/java/com/aura/ui/transfer/TransferViewModel.kt:81-135 | the state after a submitted transfer depends on the earlier state only through the sender id |
| Transfer.TransferViewModel.constructor | app/src/main/java/com/aura/ui/transfer/TransferViewModel.kt:26-44 | empty drafts, the initial UI state, no calls, and the transfer button disabled |
| Transfer.TransferViewModel.IsTransferButtonEnabled | app/src/main/java/com/aura/ui/transfer/TransferViewModel.kt:37-39 | enabled iff the recipient has a non-whitespace character, the amount has one, and no transfer is running |
| Transfer.TransferViewModel.Publish | app/src/main/java/com/aura/ui/transfer/TransferViewModel.kt:47 | one state update replaces the whole state and appends it to the log of values written to `_uiState`; the drafts are untouched |
| Transfer.TransferViewModel.SetSenderId | app/src/main/java/com/aura/ui/transfer/TransferViewModel.kt:46-48 | only senderId changes in the UI state; the drafts and the call log are unchanged |
| Transfer.TransferViewModel.SetRecipient | app/src/main/java/com/aura/ui/transfer/TransferViewModel.kt:52-54 | only the recipient draft changes |
| Transfer.TransferViewModel.SetAmount | app/src/main/java/com/aura/ui/transfer/TransferViewModel.kt:57-59 | only the amount draft changes |
| Transfer.TransferViewModel.Transfer | app/src/main/java/com/aura/ui/transfer/TransferViewModel.kt:61-138 | an amount that does not parse or is ≤ 0 publishes the rejection and makes no call; otherwise it publishes the in-flight state, makes exactly one call with {current sender, current recipient, parsed amount}, and publishes the settled state for that call's outcome |
| Home.FindMain | app/src/main/java/com/aura/ui/home/HomeViewModel.kt:80 | none iff no account is main; otherwise an account of the list that is main, with no main account before it |
| Home.LoadingStarted | app/src/main/java/com/aura/ui/home/HomeViewModel.kt:71-73 | loading, no error, userId = the argument; balance and success flag unchanged |
| Home.LoadSucceeded | app/src/main/java/com/aura/ui/home/HomeViewModel.kt:79-90 | not loading, success, userId = the argument; balance is that of the first main account, none iff no account is main |
| Home.HttpErrorRes | app/src/main/java/com/aura/ui/home/HomeViewModel.kt:95-101 | user not found iff the code is 404, generic otherwise |
| Home.ErrorLoaded | app/src/main/java/com/aura/ui/home/HomeViewModel.kt:123-131 | not loading, failure, the given error, balance cleared, userId kept |
| Home.FailureRes | app/src/main/java/com/aura/ui/home/HomeViewModel.kt:54-60 | the catch order: HTTP code mapping, then IOException → network, then anything else → generic |
| Home.LoadFinished | app/src/main/java/com/aura/ui/home/HomeViewModel.kt:46-131 | after a load: not loading, userId retained, success iff accounts came back, an error iff they did not, never an error together with a balance, on success the balance of the first main account (none iff no account is main), and the exact error for each failure kind |
| Home.LoadForgetsPriorState | app/src/main/java/com/aura/ui/home/HomeViewModel.kt:71-131 | the state after a load does not depend on the state before it |
| Home.MainAccountBalanceShown | app/src/main/java/com/aura/ui/home/HomeViewModel.kt:79-90 | the test's two accounts (main 1500.0, other 50.0) give balance 1500.0 with success and no error |
| Home.HomeViewModel.constructor | app/src/main/java/com/aura/ui/home/HomeViewModel.kt:28 | the initial state is loading, with balance, success flag, userId and error all null, and no calls |
| Home.HomeViewModel.Publish | app/src/main/java/com/aura/ui/home/HomeViewModel.kt:72 | one state update replaces the whole state and appends it to the log of values written to `_uiState` |
| Home.HomeViewModel.Refresh | app/src/main/java/com/aura/ui/home/HomeViewModel.kt:38-40 | with no stored userId, nothing changes and no call is made; otherwise it loads exactly that userId |
| Home.HomeViewModel.LoadUserAccounts | app/src/main/java/com/aura/ui/home/HomeViewModel.kt:46-62 | publishes the loading state, makes exactly one getAccounts call with the argument, and ends in the state its outcome leads to, keeping the invariant |
| Home.HomeViewModel.StartLoadingState | app/src/main/java/com/aura/ui/home/HomeViewModel.kt:71-73 | publishes the loading state for the argument |
| Home.HomeViewModel.HandleSuccess | app/src/main/java/com/aura/ui/home/HomeViewModel.kt:79-90 | publishes the success state with the first main account's balance |
| Home.HomeViewModel.HandleHttpError | app/src/main/java/com/aura/ui/home/HomeViewModel.kt:95-102 | publishes the error state for the code's resource |
| Home.HomeViewModel.HandleNetworkError | app/src/main/java/com/aura/ui/home/HomeViewModel.kt:107-110 | publishes the network error state |
| Home.HomeViewModel.HandleGenericError | app/src/main/java/com/aura/ui/home/HomeViewModel.kt:115-118 | publishes the generic error state |
| Home.HomeViewModel.UpdateErrorState | app/src/main/java/com/aura/ui/home/HomeViewModel.kt:123-131 | publishes not loading, failure, the given error and no balance |

## Left out

- Android activities, navigation, Toasts and view visibility. They are UI only.
- Retrofit/Moshi networking, the API services and the repositories. They are HTTP and JSON
  pass-throughs. Each repository is a function parameter of the action that calls it.
- Coroutines and the `StateFlow`/`combine`/`stateIn` machinery. Each launched body runs to
  completion inside its action. Cancellation and concurrent actions are not modelled.
- Transfer.TransferViewModel.IsTransferButtonEnabled: is evaluated on the current state.
  The Kotlin `combine` re-reads `isTransferring` only when a draft changes, so a stale value
  is not modelled.
- State observation. Observers of a `StateFlow` see a conflated, de-duplicated subsequence
  of the `published` log: a slow collector skips values, and a value equal to the current
  one is not emitted at all.
- Floating point. Amounts and balances are reals. `toDoubleOrNull` is an abstract function
  parameter, so "NaN" and "Infinity" are not modelled. Both pass the `<= 0.0` check in Kotlin.
- `Character.isSpaceChar` depends on the Unicode version. U+180E, a space only in older
  versions, is not counted as whitespace.
- `formatBalance` (locale currency formatting), `Logger` and the `printStackTrace` calls in
  the error handlers. They are presentation and logging only.
- The login submission flow (`login()`, its UI state and result). `LoginViewModel.kt` does
  not define it, so there is nothing to model.
- The stale duplicate packages and data classes. They hold no logic.
