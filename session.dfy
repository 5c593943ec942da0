/**
  The session kept by the App component of src/App.jsx and the send form
  it shows once connected. Each React state hook is a field; each event
  handler is a method that updates the fields in the order the handler
  calls the setters. What the wallet extension and the ledger answer is
  passed in, and every external call a handler makes is reported as a
  step together with what the screen showed while the call was pending.
 */
module Session {
  import opened Wrappers
  import opened Js
  import opened Decimal
  import opened Stellar
  import opened Wallet

  const NO_BALANCE := "—"
  const BALANCE_ERROR := "Error"
  const WALLET_MISSING := "Freighter wallet not found. Please install it first."
  const NO_KEY := "No public key returned. Make sure Freighter is unlocked."
  const CONNECT_FAILED := "Connection failed."
  const TX_FAILED := "Transaction failed."
  const DESTINATION_REQUIRED := "Destination address is required."
  const INVALID_AMOUNT := "Enter a valid amount."

  /** `err.message || fallback`: a message is shown as it is, an empty one
      gives way to the fallback, so the text is empty only when both are. */
  function ErrorText(message: string, fallback: string): (text: string)
    ensures message != [] ==> text == message
    ensures text == [] <==> message == [] && fallback == []
  {
    if message == [] then fallback else message
  }

  /** What the wallet extension answers during a connection attempt. */
  datatype WalletReplies = WalletReplies(isConnected: Reply, api: FreighterApi)

  /** What the two fetches of loadAccountData see. */
  datatype AccountData = AccountData(balance: LoadOutcome, history: HistoryOutcome)

  /** The `{ hash, destination, amount }` of the last successful send. */
  datatype TxResult = TxResult(hash: string, destination: string, amount: string)

  /** The external calls the App handlers make. */
  datatype Effect =
    | DetectWallet                           // isFreighterInstalled()
    | RequestKey                             // getFreighterPublicKey()
    | LoadBalance(key: JsValue)              // fetchBalance(key)
    | LoadHistory(key: JsValue, limit: nat)  // fetchTransactions(key, limit)

  /** An external call together with the state shown while it was pending. */
  datatype Step = Step(effect: Effect, publicKey: JsValue, connectLoading: bool, balanceRefreshing: bool)

  /** The balance text and the history the dashboard shows. */
  datatype Shown = Shown(balance: string, transactions: seq<TxSummary>)

  /** What loadAccountData leaves on the dashboard: both values when the
      balance loads, else the balance "Error" beside the old history
      (Promise.all rejects as soon as fetchBalance does). */
  function AfterLoad(before: Shown, data: AccountData): (after: Shown)
    ensures data.balance.Loaded? ==>
      after == Shown(FetchBalance(data.balance).value, FetchTransactions(data.history))
    ensures data.balance.LoadFailed? ==> after == Shown(BALANCE_ERROR, before.transactions)
  {
    match FetchBalance(data.balance)
    case Success(text) => Shown(text, FetchTransactions(data.history))
    case Failure(_) => Shown(BALANCE_ERROR, before.transactions)
  }

  /** No balance text reads "Error": it is "NaN" or a numeral with four
      decimals, which is longer. */
  lemma BalanceTextNotError(balance: string)
    ensures BalanceText(balance) != BALANCE_ERROR
  {
    match ParseFloat(balance)
    case None =>
    case Some(d) =>
      var m := if d.mantissa < 0 then -d.mantissa else d.mantissa;
      FormatUnitsShape(RoundHalfUp(m, d.scale, BALANCE_DIGITS), BALANCE_DIGITS);
  }

  /** "Error" is never a balance fetchBalance returns, so the dashboard
      shows it exactly when the balance failed to load, and a failed load
      keeps the history shown before it. */
  lemma AfterLoadReportsFailure(before: Shown, data: AccountData)
    ensures AfterLoad(before, data).balance == BALANCE_ERROR <==> data.balance.LoadFailed?
    ensures data.balance.LoadFailed? ==> AfterLoad(before, data).transactions == before.transactions
    ensures data.balance.Loaded? ==> AfterLoad(before, data).transactions == FetchTransactions(data.history)
  {
    if data.balance.Loaded? {
      var lines := data.balance.account.balances;
      if FirstNative(lines).Some? {
        BalanceTextNotError(lines[FirstNative(lines).value].balance);
      }
    }
  }

  /** The outcome of handleConnect's steps: the key, or the error text shown. */
  function Connect(w: WalletReplies): (r: Result<JsValue, string>)
    ensures r.Success? ==> Truthy(r.value)
    ensures r.Failure? ==> r.error != []
    ensures !IsFreighterInstalled(w.isConnected) ==> r == Failure(WALLET_MISSING)
    ensures IsFreighterInstalled(w.isConnected) && GetFreighterPublicKey(w.api).Success? ==>
      r == (if Truthy(GetFreighterPublicKey(w.api).value) then Success(GetFreighterPublicKey(w.api).value) else Failure(NO_KEY))
    ensures IsFreighterInstalled(w.isConnected) && GetFreighterPublicKey(w.api).Failure? ==>
      r == Failure(ErrorText(GetFreighterPublicKey(w.api).error, CONNECT_FAILED))
  {
    if !IsFreighterInstalled(w.isConnected) then Failure(WALLET_MISSING)
    else
      match GetFreighterPublicKey(w.api)
      case Failure(message) => Failure(ErrorText(message, CONNECT_FAILED))
      case Success(key) => if Truthy(key) then Success(key) else Failure(NO_KEY)
  }

  /** The only falsy key the wallet helpers can return is the empty string
      of the legacy API, and handleConnect refuses it. */
  lemma EmptyLegacyKeyRefused(w: WalletReplies)
    requires IsFreighterInstalled(w.isConnected)
    requires !AccessAnswers(w.api) && w.api.getPublicKey == Some(Returned(Str("")))
    ensures Connect(w) == Failure(NO_KEY)
  {
  }

  /** The screens the App renders. */
  datatype View = ConnectView | SuccessView | FormView

  /** The App component's state hooks and handlers. */
  class App {
    var publicKey: JsValue
    var balance: string
    var transactions: seq<TxSummary>
    var connectLoading: bool
    var connectError: string
    var balanceRefreshing: bool
    var txResult: Option<TxResult>

    /** `!!publicKey` */
    predicate Connected()
      reads this
    {
      Truthy(publicKey)
    }

    /** A success view belongs to a connected session. */
    ghost predicate Valid()
      reads this
    {
      txResult.Some? ==> Connected()
    }

    /** The screen rendered: the connect screen without a key, otherwise
      the dashboard with either the last send's result or the form. */
    function Screen(): (v: View)
      reads this
      ensures v == ConnectView <==> !Connected()
      ensures Connected() ==> (v == SuccessView <==> txResult.Some?) && (v == FormView <==> txResult.None?)
    {
      if !Connected() then ConnectView
      else if txResult.Some? then SuccessView
      else FormView
    }

    /** The state shown while an external call is pending. */
    function Pending(e: Effect): Step
      reads this
    {
      Step(e, publicKey, connectLoading, balanceRefreshing)
    }

    constructor ()
      ensures publicKey == Null && balance == NO_BALANCE && transactions == []
      ensures !connectLoading && connectError == [] && !balanceRefreshing && txResult == None
      ensures Valid() && Screen() == ConnectView
    {
      publicKey := Null;
      balance := NO_BALANCE;
      transactions := [];
      connectLoading := false;
      connectError := [];
      balanceRefreshing := false;
      txResult := None;
    }

    /** loadAccountData(key): fetch the balance and the last five
        transactions, then show both, or show "Error" as the balance. */
    method LoadAccountData(key: JsValue, data: AccountData) returns (steps: seq<Step>)
      modifies this
      ensures steps == [old(Pending(LoadBalance(key))), old(Pending(LoadHistory(key, HISTORY_LIMIT)))]
      ensures Shown(balance, transactions) == AfterLoad(old(Shown(balance, transactions)), data)
      ensures publicKey == old(publicKey) && connectError == old(connectError) && txResult == old(txResult)
      ensures connectLoading == old(connectLoading) && balanceRefreshing == old(balanceRefreshing)
    {
      steps := [Pending(LoadBalance(key)), Pending(LoadHistory(key, HISTORY_LIMIT))];
      var shown := AfterLoad(Shown(balance, transactions), data);
      balance := shown.balance;
      transactions := shown.transactions;
    }

    /** handleConnect: detect the wallet, get a key, keep it, load the
        account; any failure becomes the connect error. The loading flag
        is up while the calls are pending and down afterwards. */
    method HandleConnect(wallet: WalletReplies, data: AccountData) returns (steps: seq<Step>)
      modifies this
      ensures !connectLoading
      ensures forall i :: 0 <= i < |steps| ==> steps[i].connectLoading
      ensures |steps| >= 1 && steps[0].effect == DetectWallet
      ensures (|steps| >= 2 && steps[1].effect == RequestKey) <==> IsFreighterInstalled(wallet.isConnected)
      ensures !IsFreighterInstalled(wallet.isConnected) ==> |steps| == 1
      ensures IsFreighterInstalled(wallet.isConnected) && Connect(wallet).Failure? ==> |steps| == 2
      ensures Connect(wallet).Failure? ==>
        && connectError == Connect(wallet).error
        && publicKey == old(publicKey)
        && Shown(balance, transactions) == old(Shown(balance, transactions))
        && |steps| <= 2
      ensures Connect(wallet).Success? ==>
        && publicKey == Connect(wallet).value
        && connectError == []
        && |steps| == 4
        && steps[2] == Step(LoadBalance(publicKey), publicKey, true, old(balanceRefreshing))
        && steps[3] == Step(LoadHistory(publicKey, HISTORY_LIMIT), publicKey, true, old(balanceRefreshing))
        && Shown(balance, transactions) == AfterLoad(old(Shown(balance, transactions)), data)
      ensures balanceRefreshing == old(balanceRefreshing) && txResult == old(txResult)
      ensures old(Valid()) ==> Valid()
    {
      connectError := [];
      connectLoading := true;
      steps := [Pending(DetectWallet)];
      var installed := IsFreighterInstalled(wallet.isConnected);
      if !installed {
        connectError := WALLET_MISSING;
      } else {
        steps := steps + [Pending(RequestKey)];
        var key := GetFreighterPublicKey(wallet.api);
        if key.Failure? {
          connectError := ErrorText(key.error, CONNECT_FAILED);
        } else if !Truthy(key.value) {
          connectError := NO_KEY;
        } else {
          publicKey := key.value;
          var loads := LoadAccountData(key.value, data);
          steps := steps + loads;
        }
      }
      connectLoading := false;
    }

    /** handleDisconnect: forget the key, the account data, the last send
        and the connect error; nothing else changes. */
    method HandleDisconnect()
      modifies this
      ensures publicKey == Null && balance == NO_BALANCE && transactions == []
      ensures txResult == None && connectError == []
      ensures connectLoading == old(connectLoading) && balanceRefreshing == old(balanceRefreshing)
      ensures Valid() && Screen() == ConnectView
    {
      publicKey := Null;
      balance := NO_BALANCE;
      transactions := [];
      txResult := None;
      connectError := [];
    }

    /** handleRefreshBalance: reload the account of the current key with
        the refresh flag up while the fetches are pending, and down after. */
    method HandleRefreshBalance(data: AccountData) returns (steps: seq<Step>)
      modifies this
      ensures !balanceRefreshing
      ensures steps == [Step(LoadBalance(old(publicKey)), old(publicKey), old(connectLoading), true),
                        Step(LoadHistory(old(publicKey), HISTORY_LIMIT), old(publicKey), old(connectLoading), true)]
      ensures Shown(balance, transactions) == AfterLoad(old(Shown(balance, transactions)), data)
      ensures publicKey == old(publicKey) && connectLoading == old(connectLoading)
      ensures connectError == old(connectError) && txResult == old(txResult)
    {
      balanceRefreshing := true;
      steps := LoadAccountData(publicKey, data);
      balanceRefreshing := false;
    }

    /** handleTxSuccess: remember the send, then reload the account. The
        handler the form calls back is the closure of the render that showed
        the form, so `key` is the public key of that render, which a
        disconnect in the meantime does not change; the reload is of `key`,
        not of the current `publicKey`. */
    method HandleTxSuccess(key: JsValue, hash: string, destination: string, amount: string, data: AccountData)
      returns (steps: seq<Step>)
      modifies this
      ensures txResult == Some(TxResult(hash, destination, amount))
      ensures steps == [Step(LoadBalance(key), old(publicKey), old(connectLoading), old(balanceRefreshing)),
                        Step(LoadHistory(key, HISTORY_LIMIT), old(publicKey), old(connectLoading), old(balanceRefreshing))]
      ensures Shown(balance, transactions) == AfterLoad(old(Shown(balance, transactions)), data)
      ensures publicKey == old(publicKey) && connectLoading == old(connectLoading)
      ensures connectError == old(connectError) && balanceRefreshing == old(balanceRefreshing)
      ensures Valid() <==> Connected()
      ensures Connected() ==> Screen() == SuccessView
    {
      txResult := Some(TxResult(hash, destination, amount));
      steps := LoadAccountData(key, data);
    }

    /** handleDismissTx: back to the form; only txResult changes. */
    method HandleDismissTx()
      modifies this
      ensures txResult == None
      ensures publicKey == old(publicKey) && balance == old(balance) && transactions == old(transactions)
      ensures connectLoading == old(connectLoading) && connectError == old(connectError)
      ensures balanceRefreshing == old(balanceRefreshing)
      ensures Valid()
      ensures Connected() ==> Screen() == FormView
    {
      txResult := None;
    }
  }

  // ---------------------------------------------------------------- SendForm

  /** `!amount || parseFloat(amount) <= 0`: NaN compares false, so text
      that does not parse passes this check. */
  function AmountRejected(amount: string): (rejected: bool)
    ensures amount == [] ==> rejected
    ensures amount != [] && ParseFloat(amount).None? ==> !rejected
    ensures ParseFloat(amount).Some? ==> (rejected <==> ParseFloat(amount).value.mantissa <= 0)
  {
    amount == [] || (ParseFloat(amount).Some? && ParseFloat(amount).value.mantissa <= 0)
  }

  /** The error the form shows before sending, if any: a blank destination
      first, then a missing or non-positive amount. */
  function FormCheck(destination: string, amount: string): (e: Option<string>)
    ensures e == Some(DESTINATION_REQUIRED) <==> Trim(destination) == []
    ensures e == Some(INVALID_AMOUNT) <==> Trim(destination) != [] && AmountRejected(amount)
    ensures e.Some? ==> e.value == DESTINATION_REQUIRED || e.value == INVALID_AMOUNT
  {
    if Trim(destination) == [] then Some(DESTINATION_REQUIRED)
    else if AmountRejected(amount) then Some(INVALID_AMOUNT)
    else None
  }

  /** parseFloat("") is NaN. */
  lemma ParseEmpty()
    ensures ParseFloat([]) == None
  {
    assert SkipSpace([], 0) == 0;
    assert DigitsEnd([], 0) == 0;
  }

  /** The form's amount check is weaker than sendXLM's: what the form
      refuses, sendXLM would refuse too, and the amounts the form lets
      through that sendXLM still refuses are exactly the non-empty texts
      parseFloat reads as NaN. */
  lemma {:induction false} FormCheckWeakerThanSend(amount: string)
    ensures AmountRejected(amount) ==> !AcceptedAmount(ParseFloat(amount))
    ensures (!AmountRejected(amount) && !AcceptedAmount(ParseFloat(amount))) <==>
      (amount != [] && ParseFloat(amount).None?)
  {
    if amount == [] {
      ParseEmpty();
    }
  }

  /** The interface has no memo input, so the form always sends the empty
      memo, and no memo is ever attached. */
  lemma FormSendsNoMemo(amount: string)
    ensures Prepare(amount, []).memoText == None
  {
    assert TrimStart([]) == [];
  }

  /** What the send form shows: its three fields, whether a send is
      pending (which disables the inputs and the submit button), and the
      error text. */
  datatype FormState = FormState(destination: string, amount: string, memo: string, loading: bool, error: string)

  /** The SendForm component: its state hooks and its submit handler. */
  class SendForm {
    const publicKey: JsValue
    var destination: string
    var amount: string
    var memo: string
    var loading: bool
    var error: string

    constructor (publicKey: JsValue)
      ensures this.publicKey == publicKey
      ensures destination == [] && amount == [] && memo == [] && !loading && error == []
    {
      this.publicKey := publicKey;
      destination := [];
      amount := [];
      memo := [];
      loading := false;
      error := [];
    }

    /** The form as shown. */
    function State(): FormState
      reads this
    {
      FormState(destination, amount, memo, loading, error)
    }

    /** handleSend: check the form, then send; the loading flag is left
        alone when the form check fails. Returns the form check's verdict,
        the form as shown while sendXLM was pending, what sendXLM returned,
        what onSuccess was given, and the calls sendXLM made. */
    method HandleSend(world: World)
      returns (check: Option<string>, during: Option<FormState>, result: Option<Result<string, SendError>>,
               notified: Option<TxResult>, calls: seq<Call>)
      modifies this
      ensures check == FormCheck(old(destination), old(amount))
      ensures check.Some? ==>
        && during == None && result == None && notified == None && calls == []
        && Refused(check.value, old(destination), old(amount), old(memo), old(loading))
      ensures check.None? ==>
        && during == Some(FormState(old(destination), old(amount), old(memo), true, []))
        && result.Some? && Dispatched(world, result.value, notified, calls, old(destination), old(amount), old(memo))
    {
      check := FormCheck(destination, amount);
      if check.Some? {
        Refuse(check.value);
        return check, None, None, None, [];
      }
      var shown, r;
      shown, r, notified, calls := Dispatch(world);
      during := Some(shown);
      result := Some(r);
    }

    /** The form after a failed check: the message shown, the fields and
        the loading flag as they were. */
    ghost predicate Refused(message: string, destination0: string, amount0: string, memo0: string, loading0: bool)
      reads this
    {
      && error == message && loading == loading0
      && destination == destination0 && amount == amount0 && memo == memo0
    }

    /** `return setError(message)`: show the message, change nothing else. */
    method Refuse(message: string)
      modifies this
      ensures Refused(message, old(destination), old(amount), old(memo), old(loading))
    {
      error := message;
    }

    /** After a send that passed the form check: sendXLM was called with
        the trimmed destination, the raw amount and the memo, and the form
        settled on its result. */
    ghost predicate Dispatched(world: World, result: Result<string, SendError>, notified: Option<TxResult>,
                               calls: seq<Call>, destination0: string, amount0: string, memo0: string)
      reads this
    {
      && Sent(result, calls) == Send(publicKey, Trim(destination0), Prepare(amount0, memo0), world)
      && Settled(result, destination0, amount0, memo0, notified)
    }

    /** The form after sendXLM returned `result`: cleared and reported to
        the App after a success, showing the error and keeping its fields
        after a failure, and no longer loading either way. */
    ghost predicate Settled(result: Result<string, SendError>, destination0: string, amount0: string,
                            memo0: string, notified: Option<TxResult>)
      reads this
    {
      && !loading
      && (result.Success? ==>
            && notified == Some(TxResult(result.value, Trim(destination0), amount0))
            && destination == [] && amount == [] && memo == [] && error == [])
      && (result.Failure? ==>
            && notified == None
            && error == ErrorText(result.error.Message(), TX_FAILED)
            && destination == destination0 && amount == amount0 && memo == memo0)
    }

    /** The part of handleSend after the form check: clear the error and
        raise the loading flag, send the trimmed destination and the raw
        amount, then settle the form. `during` is the form as shown while
        sendXLM, and so every call in `calls`, is pending: loading, with
        the fields as entered, so that no second send can be submitted. */
    method Dispatch(world: World)
      returns (during: FormState, result: Result<string, SendError>, notified: Option<TxResult>, calls: seq<Call>)
      modifies this
      ensures during == FormState(old(destination), old(amount), old(memo), true, [])
      ensures Dispatched(world, result, notified, calls, old(destination), old(amount), old(memo))
    {
      error := [];
      loading := true;
      during := State();
      result, calls := SendXLM(publicKey, Trim(destination), amount, memo, world);
      notified := Settle(result);
    }

    /** Applies sendXLM's outcome to the form. */
    method Settle(result: Result<string, SendError>) returns (notified: Option<TxResult>)
      modifies this
      ensures Settled(result, old(destination), old(amount), old(memo), notified)
    {
      match result {
        case Success(hash) =>
          notified := Some(TxResult(hash, Trim(destination), amount));
          destination := [];
          amount := [];
          memo := [];
          error := [];
        case Failure(e) =>
          notified := None;
          error := ErrorText(e.Message(), TX_FAILED);
      }
      loading := false;
    }
  }
}
