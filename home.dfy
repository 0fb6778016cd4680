/**
 * The home screen's view-model: loads a user's accounts, shows the balance of the main
 * account, and maps each kind of failure to an error resource.
 */
module Home {
  import opened UiCommon

  /** One account as the accounts endpoint returns it. */
  datatype Account = Account(id: string, isMain: bool, balance: real)

  /** The home screen's UI state. */
  datatype HomeUiState = HomeUiState(
    isLoading: bool,
    balance: Option<real>,
    isSuccess: Option<bool>,
    userId: Option<string>,
    error: Option<ErrorRes>)

  /** `HomeUiState(isLoading = true)`: loading, everything else null. */
  const InitialHomeUiState := HomeUiState(true, None, None, None, None)

  /**
   * How one `getAccounts` call ends: the account list, an HttpException with its status
   * code, an IOException, or any other exception.
   */
  datatype AccountsOutcome = Accounts(accounts: seq<Account>) | HttpError(code: int) | IoFailure | OtherFailure

  /** `accounts.find { it.isMain }`: the first account flagged main, if any. */
  function FindMain(accounts: seq<Account>): (found: Option<Account>)
    ensures found.None? <==> forall i :: 0 <= i < |accounts| ==> !accounts[i].isMain
    ensures found.Some? ==>
      exists i :: 0 <= i < |accounts| && accounts[i] == found.value && accounts[i].isMain &&
        forall j :: 0 <= j < i ==> !accounts[j].isMain
  {
    if |accounts| == 0 then None
    else if accounts[0].isMain then Some(accounts[0])
    else
      FindMain(accounts[1..])
  }

  /** `startLoadingState`: loading, no error, the given user; balance and success flag kept. */
  function LoadingStarted(s: HomeUiState, userId: string): (r: HomeUiState)
    ensures r.isLoading && r.error.None? && r.userId == Some(userId)
    ensures r.balance == s.balance && r.isSuccess == s.isSuccess
  {
    s.(isLoading := true, error := None, userId := Some(userId))
  }

  /**
   * `handleSuccess`: loaded, successful, the given user, and the balance of the first main
   * account (none when no account is main); the error is left as it was.
   */
  function LoadSucceeded(s: HomeUiState, userId: string, accounts: seq<Account>): (r: HomeUiState)
    ensures !r.isLoading && r.isSuccess == Some(true) && r.userId == Some(userId) && r.error == s.error
    ensures r.balance.None? <==> forall i :: 0 <= i < |accounts| ==> !accounts[i].isMain
    ensures r.balance.Some? ==>
      exists i :: 0 <= i < |accounts| && accounts[i].isMain && r.balance.value == accounts[i].balance &&
        forall j :: 0 <= j < i ==> !accounts[j].isMain
  {
    var mainAccount := FindMain(accounts);
    s.(isLoading := false, isSuccess := Some(true), userId := Some(userId),
       balance := if mainAccount.Some? then Some(mainAccount.value.balance) else None)
  }

  /** `handleHttpError`'s `when`: 404 means the user is unknown, every other code is generic. */
  function HttpErrorRes(code: int): (res: ErrorRes)
    ensures res == UserNotFound <==> code == 404
    ensures res != UserNotFound ==> res == Generic
  {
    if code == 404 then UserNotFound else Generic
  }

  /** `updateErrorState`: loaded, failed, the given error, no balance; the user id is kept. */
  function ErrorLoaded(s: HomeUiState, res: ErrorRes): (r: HomeUiState)
    ensures !r.isLoading && r.isSuccess == Some(false) && r.error == Some(res) && r.balance.None?
    ensures r.userId == s.userId
  {
    s.(isLoading := false, isSuccess := Some(false), error := Some(res), balance := None)
  }

  /** The catch clauses of `loadUserAccounts`, tried in order: HTTP, then I/O, then anything else. */
  function FailureRes(outcome: AccountsOutcome): (res: ErrorRes)
    requires !outcome.Accounts?
    ensures outcome.HttpError? ==> res == HttpErrorRes(outcome.code)
    ensures outcome.IoFailure? ==> res == Network
    ensures outcome.OtherFailure? ==> res == Generic
  {
    match outcome
    case HttpError(code) => HttpErrorRes(code)
    case IoFailure => Network
    case OtherFailure => Generic
  }

  /**
   * The state at the end of one load for `userId` that ended in `outcome`: never loading,
   * the user id retained, success exactly when accounts came back, an error exactly when
   * they did not, and never an error and a balance at once.
   */
  function LoadFinished(s: HomeUiState, userId: string, outcome: AccountsOutcome): (r: HomeUiState)
    ensures !r.isLoading && r.userId == Some(userId)
    ensures r.isSuccess == Some(outcome.Accounts?)
    ensures r.error.None? <==> outcome.Accounts?
    ensures r.error.Some? ==> r.balance.None?
    ensures outcome.Accounts? ==> (r.balance.None? <==> forall i :: 0 <= i < |outcome.accounts| ==> !outcome.accounts[i].isMain)
    ensures outcome.Accounts? && r.balance.Some? ==>
      exists i :: 0 <= i < |outcome.accounts| && outcome.accounts[i].isMain &&
        r.balance.value == outcome.accounts[i].balance &&
        forall j :: 0 <= j < i ==> !outcome.accounts[j].isMain
    ensures outcome.HttpError? && outcome.code == 404 ==> r.error == Some(UserNotFound)
    ensures outcome.HttpError? && outcome.code != 404 ==> r.error == Some(Generic)
    ensures outcome.IoFailure? ==> r.error == Some(Network)
    ensures outcome.OtherFailure? ==> r.error == Some(Generic)
  {
    var loading := LoadingStarted(s, userId);
    match outcome
    case Accounts(accounts) => LoadSucceeded(loading, userId, accounts)
    case _ => ErrorLoaded(loading, FailureRes(outcome))
  }

  /** Every field is rewritten by a load: what the screen showed before leaves no trace. */
  lemma LoadForgetsPriorState(s1: HomeUiState, s2: HomeUiState, userId: string, outcome: AccountsOutcome)
    ensures LoadFinished(s1, userId, outcome) == LoadFinished(s2, userId, outcome)
  {
  }

  /** Two accounts, the first one main: the load shows the main account's balance and no error. */
  lemma MainAccountBalanceShown(s: HomeUiState)
    ensures var r := LoadFinished(s, "test_user",
              Accounts([Account("test_user", true, 1500.0), Account("testUser", false, 50.0)]));
            r.balance == Some(1500.0) && r.error.None? && r.isSuccess == Some(true)
  {
  }

  /**
   * The consistency a completed load leaves behind: an error hides the balance and marks
   * failure, and once nothing is loading the success flag says whether an error is shown.
   */
  predicate IsConsistent(s: HomeUiState) {
    (s.error.Some? ==> s.balance.None? && s.isSuccess == Some(false)) &&
    (!s.isLoading ==> s.isSuccess == Some(s.error.None?))
  }

  class HomeViewModel {
    /** The current value of `_uiState`. */
    var uiState: HomeUiState
    /** Every value written to `_uiState`, oldest first. */
    ghost var published: seq<HomeUiState>
    /** Every user id handed to the repository's `getAccounts`, oldest first. */
    ghost var requests: seq<string>

    ghost predicate Valid()
      reads this
    {
      IsConsistent(uiState) && |published| > 0 && published[|published| - 1] == uiState
    }

    constructor ()
      ensures Valid()
      ensures uiState == InitialHomeUiState && published == [InitialHomeUiState] && requests == []
    {
      uiState := InitialHomeUiState;
      published := [InitialHomeUiState];
      requests := [];
    }

    /** `_uiState.update { ... }`: one whole-state replacement. */
    method Publish(next: HomeUiState)
      modifies this
      ensures uiState == next && published == old(published) + [next] && requests == old(requests)
    {
      uiState := next;
      published := published + [next];
    }

    /** Reloads for the stored user id; does nothing when no user id is stored. */
    method Refresh(getAccounts: string -> AccountsOutcome)
      requires Valid()
      modifies this
      ensures Valid()
      ensures old(uiState).userId.None? ==>
        uiState == old(uiState) && published == old(published) && requests == old(requests)
      ensures old(uiState).userId.Some? ==>
        var userId := old(uiState).userId.value;
        requests == old(requests) + [userId] &&
        uiState == LoadFinished(old(uiState), userId, getAccounts(userId)) &&
        published == old(published) + [LoadingStarted(old(uiState), userId), uiState]
    {
      if uiState.userId.Some? {
        LoadUserAccounts(uiState.userId.value, getAccounts);
      }
    }

    /**
     * Publishes the loading state, makes exactly one `getAccounts` call for `userId`, and
     * publishes the state its outcome leads to.
     */
    method LoadUserAccounts(userId: string, getAccounts: string -> AccountsOutcome)
      requires Valid()
      modifies this
      ensures Valid()
      ensures requests == old(requests) + [userId]
      ensures uiState == LoadFinished(old(uiState), userId, getAccounts(userId))
      ensures published == old(published) + [LoadingStarted(old(uiState), userId), uiState]
    {
      StartLoadingState(userId);
      var outcome := getAccounts(userId);
      requests := requests + [userId];
      match outcome
      case Accounts(accounts) => HandleSuccess(userId, accounts);
      case HttpError(code) => HandleHttpError(code);
      case IoFailure => HandleNetworkError();
      case OtherFailure => HandleGenericError();
    }

    method StartLoadingState(userId: string)
      modifies this
      ensures uiState == LoadingStarted(old(uiState), userId)
      ensures published == old(published) + [uiState] && requests == old(requests)
    {
      Publish(LoadingStarted(uiState, userId));
    }

    method HandleSuccess(userId: string, accounts: seq<Account>)
      modifies this
      ensures uiState == LoadSucceeded(old(uiState), userId, accounts)
      ensures published == old(published) + [uiState] && requests == old(requests)
    {
      Publish(LoadSucceeded(uiState, userId, accounts));
    }

    method HandleHttpError(code: int)
      modifies this
      ensures uiState == ErrorLoaded(old(uiState), HttpErrorRes(code))
      ensures published == old(published) + [uiState] && requests == old(requests)
    {
      UpdateErrorState(HttpErrorRes(code));
    }

    method HandleNetworkError()
      modifies this
      ensures uiState == ErrorLoaded(old(uiState), Network)
      ensures published == old(published) + [uiState] && requests == old(requests)
    {
      UpdateErrorState(Network);
    }

    method HandleGenericError()
      modifies this
      ensures uiState == ErrorLoaded(old(uiState), Generic)
      ensures published == old(published) + [uiState] && requests == old(requests)
    {
      UpdateErrorState(Generic);
    }

    method UpdateErrorState(res: ErrorRes)
      modifies this
      ensures uiState == ErrorLoaded(old(uiState), res)
      ensures published == old(published) + [uiState] && requests == old(requests)
    {
      Publish(ErrorLoaded(uiState, res));
    }
  }
}
