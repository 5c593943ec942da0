/**
  The ledger helpers of src/stellar.js: balance lookup, transaction
  history, and the send pipeline that validates an intent, decides between
  a payment and an account creation, builds the transaction, has the wallet
  sign it and submits it to the testnet.

  The Horizon server, the Stellar SDK's key validation and XDR codec, and
  the wallet's signer are foreign code: their answers arrive as values of
  the datatypes below, and the send pipeline records every call it makes
  to them in a trace.
 */
module Stellar {
  import opened Wrappers
  import opened Js
  import opened Decimal

  /** StellarSdk.Networks.TESTNET */
  const NETWORK_PASSPHRASE := "Test SDF Network ; September 2015"
  /** StellarSdk.BASE_FEE, in stroops per operation */
  const BASE_FEE: nat := 100
  /** seconds passed to setTimeout */
  const TX_TIMEOUT: nat := 180
  /** longest text memo kept */
  const MEMO_LIMIT: nat := 28
  /** fractional digits of a ledger amount (stroops) */
  const AMOUNT_DIGITS: nat := 7
  /** fractional digits of a displayed balance */
  const BALANCE_DIGITS: nat := 4
  /** default page size of fetchTransactions */
  const HISTORY_LIMIT: nat := 5

  const BALANCE_FAILED := "Failed to fetch balance. Account may not be funded on testnet."
  const NO_NATIVE_BALANCE := "0.0000"

  // ------------------------------------------------------------ Horizon data

  datatype BalanceLine = BalanceLine(assetType: string, balance: string)

  /** What server.loadAccount resolves to. */
  datatype Account = Account(id: string, sequence: int, balances: seq<BalanceLine>)

  /** server.loadAccount: the account, or an error that may carry an HTTP
      response status (None when the error has no `response`). */
  datatype LoadOutcome =
    | Loaded(account: Account)
    | LoadFailed(status: Option<int>, message: string)

  /** A record of Horizon's transactions endpoint (the fields the
      application reads, and two it ignores). */
  datatype HorizonTx = HorizonTx(
    hash: string, createdAt: string, successful: bool, ledger: int,
    sourceAccount: string, feeCharged: string)

  /** The summary fetchTransactions hands to the interface. */
  datatype TxSummary = TxSummary(hash: string, createdAt: string, successful: bool, ledger: int)

  /** server.transactions().forAccount(key).order('desc').limit(n).call() */
  datatype HistoryOutcome = Records(records: seq<HorizonTx>) | HistoryFailed(message: string)

  // ------------------------------------------------------------ fetchBalance

  /** The position of the first balance line of the native asset, as
      Array.prototype.find looks for it. */
  function FirstNative(lines: seq<BalanceLine>): (i: Option<nat>)
    ensures i.Some? ==> i.value < |lines| && lines[i.value].assetType == "native"
    ensures i.Some? ==> forall j :: 0 <= j < i.value ==> lines[j].assetType != "native"
    ensures i.None? <==> forall j :: 0 <= j < |lines| ==> lines[j].assetType != "native"
  {
    if lines == [] then None
    else if lines[0].assetType == "native" then Some(0)
    else match FirstNative(lines[1..])
      case None => None
      case Some(k) => Some(k + 1)
  }

  /** `parseFloat(x).toFixed(4)`, where a NaN prints as "NaN". */
  function BalanceText(balance: string): string
  {
    match ParseFloat(balance)
    case None => "NaN"
    case Some(d) => ToFixed(d, BALANCE_DIGITS)
  }

  /** The balance text is "NaN" exactly when the balance does not parse;
      otherwise it has four decimals, a sign only for a negative value, and
      a non-negative value reads back as itself rounded half up. */
  lemma BalanceTextShape(balance: string)
    ensures BalanceText(balance) == "NaN" <==> ParseFloat(balance).None?
    ensures ParseFloat(balance).Some? ==>
      var t := BalanceText(balance);
      && |t| >= BALANCE_DIGITS + 2 && t[|t| - BALANCE_DIGITS - 1] == '.'
      && (t[0] == '-' <==> ParseFloat(balance).value.mantissa < 0)
    ensures ParseFloat(balance).Some? && ParseFloat(balance).value.mantissa >= 0 ==>
      var d := ParseFloat(balance).value;
      ParseFloat(BalanceText(balance)) == Some(Dec(RoundHalfUp(d.mantissa, d.scale, BALANCE_DIGITS), BALANCE_DIGITS))
  {
    match ParseFloat(balance)
    case None =>
    case Some(d) =>
      if d.mantissa >= 0 {
        ToFixedReadsBack(d, BALANCE_DIGITS);
      }
  }

  /** fetchBalance: the first native balance to four decimals, "0.0000"
      when the account holds no native line; any load failure becomes one
      fixed error. */
  function FetchBalance(load: LoadOutcome): (r: Result<string, string>)
    ensures r.Failure? <==> load.LoadFailed?
    ensures r.Failure? ==> r.error == BALANCE_FAILED
    ensures r.Success? && FirstNative(load.account.balances).None? ==> r.value == NO_NATIVE_BALANCE
    ensures r.Success? && FirstNative(load.account.balances).Some? ==>
      r.value == BalanceText(load.account.balances[FirstNative(load.account.balances).value].balance)
  {
    match load
    case LoadFailed(_, _) => Failure(BALANCE_FAILED)
    case Loaded(account) =>
      match FirstNative(account.balances)
      case None => Success(NO_NATIVE_BALANCE)
      case Some(i) => Success(BalanceText(account.balances[i].balance))
  }

  /** Horizon reports balances with seven decimals; fetchBalance shows such
      a balance of n stroops rounded half up to four decimals, and what it
      shows reads back as that rounded value. */
  lemma FetchBalanceOfLedgerAmount(account: Account, i: nat, n: nat)
    requires FirstNative(account.balances) == Some(i)
    requires account.balances[i].balance == FormatUnits(n, AMOUNT_DIGITS)
    ensures FetchBalance(Loaded(account)) == Success(FormatUnits(RoundHalfUp(n, AMOUNT_DIGITS, BALANCE_DIGITS), BALANCE_DIGITS))
    ensures ParseFloat(FetchBalance(Loaded(account)).value) == Some(Dec(RoundHalfUp(n, AMOUNT_DIGITS, BALANCE_DIGITS), BALANCE_DIGITS))
  {
    ParseFormatUnits(n, AMOUNT_DIGITS);
    ToFixedReadsBack(Dec(n, AMOUNT_DIGITS), BALANCE_DIGITS);
  }

  // ------------------------------------------------------- fetchTransactions

  function Summarize(t: HorizonTx): TxSummary
  {
    TxSummary(t.hash, t.createdAt, t.successful, t.ledger)
  }

  /** records.map(tx => ({hash, createdAt, successful, ledger})) */
  function Project(records: seq<HorizonTx>): (r: seq<TxSummary>)
    ensures |r| == |records|
    ensures forall i :: 0 <= i < |records| ==>
      && r[i].hash == records[i].hash
      && r[i].createdAt == records[i].createdAt
      && r[i].successful == records[i].successful
      && r[i].ledger == records[i].ledger
  {
    if records == [] then [] else [Summarize(records[0])] + Project(records[1..])
  }

  /** The projection works record by record: it commutes with
      concatenation. */
  lemma {:induction false} ProjectAppend(a: seq<HorizonTx>, b: seq<HorizonTx>)
    ensures Project(a + b) == Project(a) + Project(b)
  {
    if a != [] {
      assert (a + b)[1..] == a[1..] + b;
      ProjectAppend(a[1..], b);
    }
  }

  /** fetchTransactions: the projected records, or [] on any failure;
      it never fails. */
  function FetchTransactions(history: HistoryOutcome): (r: seq<TxSummary>)
    ensures history.HistoryFailed? ==> r == []
    ensures history.Records? ==> r == Project(history.records)
  {
    match history
    case HistoryFailed(_) => []
    case Records(records) => Project(records)
  }

  // ----------------------------------------------------------------- sendXLM

  /** What the destination lookup established. */
  datatype Existence = Exists | NotExists | Unverifiable

  /** Only a 404 answer counts as "the account does not exist"; any other
      failure leaves the question open. */
  function Classify(lookup: LoadOutcome): (e: Existence)
    ensures e == Exists <==> lookup.Loaded?
    ensures e == NotExists <==> lookup.LoadFailed? && lookup.status == Some(404)
    ensures e == Unverifiable <==> lookup.LoadFailed? && lookup.status != Some(404)
  {
    match lookup
    case Loaded(_) => Exists
    case LoadFailed(status, _) => if status == Some(404) then NotExists else Unverifiable
  }

  /** `memo && memo.trim()` decides whether a memo is attached;
      `memo.trim().slice(0, 28)` is its text. */
  function MemoText(memo: string): (r: Option<string>)
    ensures r.Some? <==> Trim(memo) != []
    ensures r.Some? ==> |r.value| == Min(MEMO_LIMIT, |Trim(memo)|)
    ensures r.Some? ==> r.value == Trim(memo)[..|r.value|]
    ensures r.Some? ==> r.value != [] && !IsWhiteSpace(r.value[0])
  {
    var trimmed := Trim(memo);
    if trimmed == [] then None
    else Some(trimmed[..Min(MEMO_LIMIT, |trimmed|)])
  }

  /** A memo of at most 28 characters that has no surrounding white space
      is attached unchanged. */
  lemma MemoKeptWhole(memo: string)
    requires 0 < |memo| <= MEMO_LIMIT
    requires !IsWhiteSpace(memo[0]) && !IsWhiteSpace(memo[|memo| - 1])
    ensures MemoText(memo) == Some(memo)
  {
    assert TrimStart(memo) == memo;
    assert TrimEnd(memo) == memo;
  }

  datatype Asset = Native

  datatype Operation =
    | Payment(destination: string, asset: Asset, amount: string)
    | CreateAccount(destination: string, startingBalance: string)

  /** The transaction TransactionBuilder.build() produces. */
  datatype Tx = Tx(
    source: string, sequence: int, baseFee: nat, networkPassphrase: string,
    operations: seq<Operation>, memo: Option<string>, timeout: nat)

  /** StellarSdk.TransactionBuilder as sendXLM drives it: created for the
      source account with a fee and a network, then given operations, a
      memo and a timeout, then built. */
  class TxBuilder {
    const source: Account
    const baseFee: nat
    const networkPassphrase: string
    var operations: seq<Operation>
    var memo: Option<string>
    var timeout: Option<nat>

    constructor (source: Account, baseFee: nat, networkPassphrase: string)
      ensures this.source == source && this.baseFee == baseFee
      ensures this.networkPassphrase == networkPassphrase
      ensures operations == [] && memo == None && timeout == None
    {
      this.source := source;
      this.baseFee := baseFee;
      this.networkPassphrase := networkPassphrase;
      operations := [];
      memo := None;
      timeout := None;
    }

    method AddOperation(op: Operation)
      modifies this
      ensures operations == old(operations) + [op]
      ensures memo == old(memo) && timeout == old(timeout)
    {
      operations := operations + [op];
    }

    method AddMemo(text: string)
      modifies this
      ensures memo == Some(text)
      ensures operations == old(operations) && timeout == old(timeout)
    {
      memo := Some(text);
    }

    method SetTimeout(seconds: nat)
      modifies this
      ensures timeout == Some(seconds)
      ensures operations == old(operations) && memo == old(memo)
    {
      timeout := Some(seconds);
    }

    /** build() consumes the next sequence number of the source account. */
    function Build(): (tx: Tx)
      reads this
      requires timeout.Some?
      ensures tx.source == source.id && tx.sequence == source.sequence + 1
      ensures tx.operations == operations && tx.memo == memo && tx.timeout == timeout.value
      ensures tx.baseFee == baseFee && tx.networkPassphrase == networkPassphrase
    {
      Tx(source.id, source.sequence + 1, baseFee, networkPassphrase, operations, memo, timeout.value)
    }
  }

  /** signTransaction's answer, or the exception it threw. */
  type SignerReply = Reply

  /** server.submitTransaction */
  datatype SubmitOutcome = Accepted(hash: string) | Rejected(message: string)

  /** Everything sendXLM learns from code it does not contain. */
  datatype World = World(
    destinationValid: bool,            // Keypair.fromPublicKey(destination) does not throw
    destinationLookup: LoadOutcome,    // server.loadAccount(destination)
    sourceLoad: LoadOutcome,           // server.loadAccount(source)
    signer: SignerReply,               // signTransaction(xdr, {networkPassphrase})
    envelopeReadable: bool,            // TransactionBuilder.fromXDR(signedXdr, ...) does not throw
    unreadableMessage: string,         // the message thrown when the signed envelope cannot be had:
                                       // by fromXDR, or by reading signedTxXdr of a null or undefined reply
    submission: SubmitOutcome)         // server.submitTransaction(signedTx)

  /** The external calls sendXLM makes, in order. */
  datatype Call =
    | LoadDest(key: string)
    | LoadSource(sourceKey: JsValue)
    | Sign(tx: Tx, networkPassphrase: string)
    | Submit(envelope: string, networkPassphrase: string)

  datatype SendError =
    | InvalidDestination
    | InvalidAmount
    | VerificationFailed
    | SourceLoadFailed(reason: string)
    | InsufficientStartingBalance
    | SigningFailed(reason: string)
    | EnvelopeUnreadable(reason: string)
    | SubmissionFailed(reason: string)
  {
    /** The `message` of the Error sendXLM throws. */
    function Message(): string
    {
      match this
      case InvalidDestination => "Invalid destination address."
      case InvalidAmount => "Amount must be a positive number."
      case VerificationFailed => "Could not verify destination account."
      case InsufficientStartingBalance => "Minimum 1 XLM required to activate a new account."
      case SourceLoadFailed(reason) => reason
      case SigningFailed(reason) => reason
      case EnvelopeUnreadable(reason) => reason
      case SubmissionFailed(reason) => reason
    }
  }

  /** sendXLM's amount check `isNaN(x) || x <= 0`: NaN fails, and so does
      any value that is not above zero. */
  function AcceptedAmount(value: Option<Dec>): (ok: bool)
    ensures value.None? ==> !ok
    ensures value.Some? && value.value.mantissa <= 0 ==> !ok
    ensures value.Some? && value.value.mantissa > 0 ==> ok
  {
    value.Some? && IsPositive(value.value)
  }

  /** What sendXLM derives from its text arguments, all of it pure:
      parseFloat(amount), the amount text `toFixed(7)` the operation
      carries, and the memo text it attaches, if any. */
  datatype Request = Request(value: Option<Dec>, amountText: string, memoText: Option<string>)

  function Prepare(amount: string, memo: string): Request
  {
    var value := ParseFloat(amount);
    Request(value, if value.Some? then ToFixed(value.value, AMOUNT_DIGITS) else "", MemoText(memo))
  }

  /** For an amount that passes the check, the text the operation carries
      denotes the parsed amount rounded half up to seven decimals, and no
      other value; the memo is attached exactly when its trim is not empty,
      and holds at most 28 characters. */
  lemma PreparedRequest(amount: string, memo: string)
    ensures var q := Prepare(amount, memo);
      AcceptedAmount(q.value) ==>
        ParseFloat(q.amountText) == Some(Dec(RoundHalfUp(q.value.value.mantissa, q.value.value.scale, AMOUNT_DIGITS), AMOUNT_DIGITS))
    ensures var q := Prepare(amount, memo);
      && (q.memoText.Some? <==> Trim(memo) != [])
      && (q.memoText.Some? ==> |q.memoText.value| <= MEMO_LIMIT)
  {
    var q := Prepare(amount, memo);
    if AcceptedAmount(q.value) {
      ToFixedReadsBack(q.value.value, AMOUNT_DIGITS);
    }
  }

  /** `typeof r === 'string' ? r : r.signedTxXdr`, which throws when r is
      null or undefined. */
  function SignedXdr(reply: JsValue): (r: Result<JsValue, ()>)
    ensures r.Failure? <==> reply == Undefined || reply == Null
    ensures reply.Str? ==> r == Success(reply)
    ensures !reply.Str? && r.Success? ==> r.value == OptionalGet(reply, "signedTxXdr")
  {
    if reply.Str? then Success(reply) else Get(reply, "signedTxXdr")
  }

  /** The transaction the builder steps yield: one operation, creating the
      account or paying into it, the memo if any, the timeout. */
  function PlanTx(source: Account, destination: string, createAccount: bool, amountText: string, memoText: Option<string>): (tx: Tx)
    ensures tx.source == source.id && tx.sequence == source.sequence + 1
    ensures tx.baseFee == BASE_FEE && tx.networkPassphrase == NETWORK_PASSPHRASE && tx.timeout == TX_TIMEOUT
    ensures tx.memo == memoText && |tx.operations| == 1
    ensures tx.operations[0].CreateAccount? <==> createAccount
    ensures tx.operations[0].destination == destination
    ensures createAccount ==> tx.operations[0].startingBalance == amountText
    ensures !createAccount ==> tx.operations[0].asset == Native && tx.operations[0].amount == amountText
  {
    var op := if createAccount then CreateAccount(destination, amountText) else Payment(destination, Native, amountText);
    Tx(source.id, source.sequence + 1, BASE_FEE, NETWORK_PASSPHRASE, [op], memoText, TX_TIMEOUT)
  }

  /** The builder steps of sendXLM once both accounts are settled: one
      operation chosen by whether the destination exists (a new account
      needs at least 1 XLM), the memo if any, the 180-second timeout.
      amountText is `parsedAmount.toFixed(7)` and memoText the trimmed,
      truncated memo, both computed by the caller. */
  method BuildTransaction(source: Account, destination: string, destinationExists: bool,
                          value: Dec, amountText: string, memoText: Option<string>)
    returns (r: Result<Tx, SendError>)
    ensures r.Failure? <==> !destinationExists && LessThanOne(value)
    ensures r.Failure? ==> r.error == InsufficientStartingBalance
    ensures r.Success? ==> r.value == PlanTx(source, destination, !destinationExists, amountText, memoText)
  {
    var builder := new TxBuilder(source, BASE_FEE, NETWORK_PASSPHRASE);

    if destinationExists {
      builder.AddOperation(Payment(destination, Native, amountText));
    } else {
      if LessThanOne(value) {
        return Failure(InsufficientStartingBalance);
      }
      builder.AddOperation(CreateAccount(destination, amountText));
    }

    if memoText.Some? {
      builder.AddMemo(memoText.value);
    }

    builder.SetTimeout(TX_TIMEOUT);
    r := Success(builder.Build());
  }

  /** What one call of sendXLM produces: its result (the hash, or the error
      thrown) and the external calls it made, in order. */
  datatype Sent = Sent(result: Result<string, SendError>, calls: seq<Call>)

  /** The behaviour of sendXLM on a prepared request: validate the
      destination key and the amount before any network call, look the
      destination up, load the source, build, sign, read the signed
      envelope back, submit. */
  function Send(source: JsValue, destination: string, q: Request, world: World): Sent
  {
    if !world.destinationValid then Sent(Failure(InvalidDestination), [])
    else if !AcceptedAmount(q.value) then Sent(Failure(InvalidAmount), [])
    else
      var existence := Classify(world.destinationLookup);
      var loads := [LoadDest(destination), LoadSource(source)];
      if existence == Unverifiable then Sent(Failure(VerificationFailed), [LoadDest(destination)])
      else if world.sourceLoad.LoadFailed? then Sent(Failure(SourceLoadFailed(world.sourceLoad.message)), loads)
      else if existence == NotExists && LessThanOne(q.value.value) then Sent(Failure(InsufficientStartingBalance), loads)
      else
        var tx := PlanTx(world.sourceLoad.account, destination, existence == NotExists, q.amountText, q.memoText);
        var signing := loads + [Sign(tx, NETWORK_PASSPHRASE)];
        match world.signer
        case Threw(message) => Sent(Failure(SigningFailed(message)), signing)
        case Returned(reply) =>
          var xdr := SignedXdr(reply);
          if xdr.Failure? || !xdr.value.Str? || !world.envelopeReadable then
            Sent(Failure(EnvelopeUnreadable(world.unreadableMessage)), signing)
          else
            var calls := signing + [Submit(xdr.value.s, NETWORK_PASSPHRASE)];
            match world.submission
            case Accepted(hash) => Sent(Success(hash), calls)
            case Rejected(message) => Sent(Failure(SubmissionFailed(message)), calls)
  }

  /** Input validation comes first and costs no network call: an invalid
      key wins over a bad amount, and a call is made exactly when both pass. */
  lemma SendValidatesFirst(source: JsValue, destination: string, q: Request, world: World)
    ensures var s := Send(source, destination, q, world);
      && (!world.destinationValid ==> s == Sent(Failure(InvalidDestination), []))
      && (world.destinationValid && !AcceptedAmount(q.value) ==> s == Sent(Failure(InvalidAmount), []))
      && (s.calls == [] <==> !world.destinationValid || !AcceptedAmount(q.value))
  {
  }

  /** The calls always come in the same order, and at most one of each:
      destination lookup, source load, signing, submission. */
  lemma SendCallOrder(source: JsValue, destination: string, q: Request, world: World)
    ensures var c := Send(source, destination, q, world).calls;
      && |c| <= 4
      && (|c| >= 1 ==> c[0] == LoadDest(destination))
      && (|c| >= 2 ==> c[1] == LoadSource(source))
      && (|c| >= 3 ==> c[2].Sign? && c[2].networkPassphrase == NETWORK_PASSPHRASE)
      && (|c| == 4 ==> c[3].Submit? && c[3].networkPassphrase == c[2].networkPassphrase)
  {
  }

  /** A lookup failure other than 404 aborts the send: the destination is
      never treated as missing on a network error. */
  lemma SendUnverifiableIsFatal(source: JsValue, destination: string, q: Request, world: World)
    requires world.destinationValid && AcceptedAmount(q.value)
    ensures Classify(world.destinationLookup) == Unverifiable <==>
      Send(source, destination, q, world) == Sent(Failure(VerificationFailed), [LoadDest(destination)])
  {
  }

  /** Once the destination is settled, the source account is loaded, and a
      failure to load it is thrown again with its own message. */
  lemma SendSourceLoadFailure(source: JsValue, destination: string, q: Request, world: World)
    requires world.destinationValid && AcceptedAmount(q.value)
    requires Classify(world.destinationLookup) != Unverifiable
    ensures |Send(source, destination, q, world).calls| >= 2
    ensures world.sourceLoad.LoadFailed? ==>
      Send(source, destination, q, world) ==
        Sent(Failure(SourceLoadFailed(world.sourceLoad.message)), [LoadDest(destination), LoadSource(source)])
  {
  }

  /** Activating a new account takes at least 1 XLM; below that nothing is
      signed. An existing destination accepts any positive amount. */
  lemma SendMinimumStartingBalance(source: JsValue, destination: string, q: Request, world: World)
    ensures var s := Send(source, destination, q, world);
      s.result == Failure(InsufficientStartingBalance) <==>
        && world.destinationValid && AcceptedAmount(q.value)
        && Classify(world.destinationLookup) == NotExists
        && world.sourceLoad.Loaded?
        && LessThanOne(q.value.value)
    ensures var s := Send(source, destination, q, world);
      s.result == Failure(InsufficientStartingBalance) ==> |s.calls| == 2
  {
  }

  /** The signer is handed the planned transaction: on the loaded source
      account, one operation chosen by the lookup, the prepared amount
      text and memo, 180 seconds, BASE_FEE, testnet. */
  lemma SendSignsPlannedTx(source: JsValue, destination: string, q: Request, world: World)
    ensures var c := Send(source, destination, q, world).calls;
      |c| >= 3 ==>
        && AcceptedAmount(q.value)
        && world.sourceLoad.Loaded?
        && c[2].Sign?
        && var tx := c[2].tx;
        && |tx.operations| == 1
        && (Classify(world.destinationLookup) == Exists ==>
              tx.operations[0] == Payment(destination, Native, q.amountText))
        && (Classify(world.destinationLookup) == NotExists ==>
              !LessThanOne(q.value.value) && tx.operations[0] == CreateAccount(destination, q.amountText))
        && Classify(world.destinationLookup) != Unverifiable
        && tx.memo == q.memoText
        && tx.timeout == TX_TIMEOUT
        && tx.baseFee == BASE_FEE
        && tx.networkPassphrase == NETWORK_PASSPHRASE
        && tx.source == world.sourceLoad.account.id
        && tx.sequence == world.sourceLoad.account.sequence + 1
  {
  }

  /** The envelope submitted is the signer's string or its signedTxXdr, and
      only when it can be read back; a signer that throws stops the send. */
  lemma SendSubmitsSignedEnvelope(source: JsValue, destination: string, q: Request, world: World)
    ensures var s := Send(source, destination, q, world);
      |s.calls| == 4 ==>
        && s.calls[3].Submit?
        && world.signer.Returned?
        && SignedXdr(world.signer.value) == Success(Str(s.calls[3].envelope))
        && world.envelopeReadable
    ensures var s := Send(source, destination, q, world);
      |s.calls| == 3 ==> s.result.Failure? && (s.result.error.SigningFailed? || s.result.error.EnvelopeUnreadable?)
    ensures var s := Send(source, destination, q, world);
      |s.calls| >= 3 && world.signer.Threw? ==> s.result == Failure(SigningFailed(world.signer.message))
  {
  }

  /** sendXLM returns a hash only for a submitted transaction the network
      accepted, and that hash is the network's. */
  lemma SendSucceedsOnlyWhenAccepted(source: JsValue, destination: string, q: Request, world: World)
    ensures var s := Send(source, destination, q, world);
      s.result.Success? <==> |s.calls| == 4 && world.submission.Accepted?
    ensures var s := Send(source, destination, q, world);
      s.result.Success? ==> s.result.value == world.submission.hash
    ensures var s := Send(source, destination, q, world);
      |s.calls| == 4 && world.submission.Rejected? ==> s.result == Failure(SubmissionFailed(world.submission.message))
  {
  }

  /** When every step can succeed, the transaction is submitted. */
  lemma SendReachesSubmission(source: JsValue, destination: string, q: Request, world: World)
    requires world.destinationValid && AcceptedAmount(q.value)
    requires Classify(world.destinationLookup) == Exists
          || (Classify(world.destinationLookup) == NotExists && !LessThanOne(q.value.value))
    requires world.sourceLoad.Loaded? && world.signer.Returned?
    requires SignedXdr(world.signer.value).Success? && SignedXdr(world.signer.value).value.Str?
    requires world.envelopeReadable
    ensures |Send(source, destination, q, world).calls| == 4
  {
  }

  /** The positivity check looks at the parsed amount, not at the text
      the operation carries: "1e-8" passes it, yet reaches the payment
      operation as "0.0000000", which only the SDK's own amount check
      (not part of this model) stands to refuse. */
  lemma TinyAmountPlannedAsZero()
    ensures var q := Prepare("1e-8", "");
      AcceptedAmount(q.value) && q.amountText == "0.0000000" && q.memoText == None
  {
    ParseExponentNotation();
    ToFixedBelowHalfUnit();
    assert TrimStart("") == "";
  }

  /** sendXLM(source, destination, amount, memo): the hash of the submitted
      transaction or the error it throws, with the external calls made. */
  method SendXLM(source: JsValue, destination: string, amount: string, memo: string, world: World)
    returns (r: Result<string, SendError>, trace: seq<Call>)
    ensures Sent(r, trace) == Send(source, destination, Prepare(amount, memo), world)
  {
    if !world.destinationValid {
      return Failure(InvalidDestination), [];
    }
    var parsed := ParseFloat(amount);
    if parsed.None? || !IsPositive(parsed.value) {
      return Failure(InvalidAmount), [];
    }
    r, trace := TransferAmount(source, destination, parsed.value, ToFixed(parsed.value, AMOUNT_DIGITS), MemoText(memo), world);
  }

  /** The rest of sendXLM, once the destination key and the parsed amount
      have passed validation; amountText and memoText are what the
      builder is given for them. */
  method TransferAmount(source: JsValue, destination: string, value: Dec, amountText: string,
                        memoText: Option<string>, world: World)
    returns (r: Result<string, SendError>, trace: seq<Call>)
    requires world.destinationValid && IsPositive(value)
    ensures Sent(r, trace) == Send(source, destination, Request(Some(value), amountText, memoText), world)
  {
    var existence := Classify(world.destinationLookup);
    trace := [LoadDest(destination)];
    if existence == Unverifiable {
      return Failure(VerificationFailed), trace;
    }

    trace := trace + [LoadSource(source)];
    if world.sourceLoad.LoadFailed? {
      return Failure(SourceLoadFailed(world.sourceLoad.message)), trace;
    }
    var built := BuildTransaction(world.sourceLoad.account, destination, existence == Exists, value, amountText, memoText);
    if built.Failure? {
      return Failure(built.error), trace;
    }

    trace := trace + [Sign(built.value, NETWORK_PASSPHRASE)];
    if world.signer.Threw? {
      return Failure(SigningFailed(world.signer.message)), trace;
    }
    var signedXdr := SignedXdr(world.signer.value);
    if signedXdr.Failure? || !signedXdr.value.Str? || !world.envelopeReadable {
      return Failure(EnvelopeUnreadable(world.unreadableMessage)), trace;
    }

    trace := trace + [Submit(signedXdr.value.s, NETWORK_PASSPHRASE)];
    match world.submission {
      case Accepted(hash) => r := Success(hash);
      case Rejected(message) => r := Failure(SubmissionFailed(message));
    }
  }
}
