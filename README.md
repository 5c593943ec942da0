# StellarPay send core, in Dafny

StellarPay is a small React front end for the Stellar testnet. The user
connects the Freighter browser wallet and sees their XLM balance and last
five transactions. They can then send XLM to another account. Sending
creates the destination account when it does not exist yet.

This project models the decision logic under that interface and proves
what it does:

- **Ledger helpers** (`src/stellar.js`), module `Stellar`:
  - `fetchBalance` picks the first native balance line and prints it
    with four decimals.
  - `fetchTransactions` projects Horizon's records to four fields.
  - `sendXLM` runs its pipeline in a fixed order: validate the key and the
    amount, classify the destination lookup, load the source, build one
    operation with an optional memo, have the wallet sign, submit.
- **Wallet helpers** (`src/App.jsx`), module `Wallet`:
  - `isFreighterInstalled` and `getFreighterPublicKey` normalise the
    several answer shapes of the two Freighter APIs.
- **Session** (`src/App.jsx`), module `Session`:
  - The `App` component's state hooks and its six handlers form the class
    `Session.App`.
  - The send form's hooks and its submit handler form the class
    `Session.SendForm`.

How the outside world is represented:

- **sendXLM's inputs.** Everything sendXLM learns from code it does not
  contain arrives as a `Stellar.World` value: the key check, the two
  account loads, the signer's reply, whether the signed envelope decodes,
  and the submission result.
- **sendXLM's specification.** `Stellar.Send` states the behaviour
  together with the trace of external calls (`LoadDest`, `LoadSource`,
  `Sign`, `Submit`). `Stellar.SendXLM` is proved equal to it.
  `Stellar.SendXLM` drives a `Stellar.TxBuilder` object through
  `addOperation`, `addMemo`, `setTimeout` and `build`.
- **Session handlers.** Each handler takes the wallet's or ledger's
  answers as parameters.
  - The `App` handlers report every external call as a `Step`, which
    records what the screen showed while the call was pending.
  - The send form's handler reports the calls sendXLM made, together with
    the form as shown while sendXLM was pending: loading, with the fields
    as entered, which disables the inputs and the submit button.
- **Numbers.** Amounts are exact decimals, not floats.
  - `Decimal.ParseFloat` follows `parseFloat` on decimal text, exponent
    included.
  - `Decimal.ToFixed` follows `toFixed` as round half up.
  - The lemmas in `Decimal` prove that what `toFixed` prints reads back as
    the rounded value.
- **JavaScript values.** Wallet replies are `Js.JsValue`s, so truthiness,
  `?.` and `===` are exact. `trim()` is modelled on the ECMAScript white
  space set.

Some behaviour of the code as written that the model makes visible:

- **Tiny amounts pass the positivity check.** The check looks at the
  parsed amount, but the operation carries `toFixed(7)` of it. An amount
  such as `1e-8` passes the check and reaches `Operation.payment` as
  `"0.0000000"` (`Stellar.TinyAmountPlannedAsZero`); only the SDK's own
  amount check, which is not part of this model, stands to refuse it.
- **A success view can follow a disconnect.** The `onSuccess` the form
  calls is the `handleTxSuccess` of the render that showed the form
  (src/App.jsx:378), and it reloads the key of that render
  (src/App.jsx:337). A send that completes after the user disconnected
  stores `txResult` while no key is set, and reloads the account of the
  key that was forgotten (`Session.App.HandleTxSuccess`:
  `Valid() <==> Connected()`).
- **The send form's amount check is weaker than sendXLM's.** The form lets
  through exactly the non-empty amounts that `parseFloat` reads as NaN, and
  sendXLM then refuses them (`Session.FormCheckWeakerThanSend`). The amount
  field is an `<input type="number">` (src/App.jsx:142-145), and a browser
  hands such a field's value over as `""` unless it is a valid number, so
  from the form itself this case does not arise: the lemma is about the
  handler, for any text it is given.

## Model

| member | source | states |
|---|---|---|
| `Js.OptionalGet` | src/App.jsx:23-24 | `v?.name` is undefined unless v is an object holding the property, in which case it is that property's value |
| `Js.Get` | src/stellar.js:95 | reading a property of null or undefined throws; otherwise it reads like `?.` |
| `Js.Trim` | src/stellar.js:82-83 | `trim()` drops only white space, from both ends, and leaves no white space at either end |
| `Js.TrimEmptyIffBlank` | src/stellar.js:82 | `memo.trim()` is empty exactly when every character of the memo is white space |
| `Decimal.FormatUnitsShape` | src/stellar.js:19 | a printed amount has digits, one point, then exactly the requested number of fractional digits |
| `Decimal.ParseFloatNaN` | src/stellar.js:37 | `parseFloat` is NaN exactly when, after leading white space and an optional sign, the text does not start with a digit or a point followed by a digit; a negative result has a minus at that place |
| `Decimal.ParseDecoratedNumeral` | src/App.jsx:102 | `parseFloat` of white space, an optional sign, a numeral `a.b` and any trailing text that does not continue the numeral is the number its digits spell, negated for `-`, with `b` as the fraction |
| `Decimal.ToFixed` | src/stellar.js:66 | `toFixed(f)` prints exactly f digits after the point, and a leading minus exactly for a negative value |
| `Decimal.ParsePlainNumeral` | src/stellar.js:37 | `parseFloat` of a plain numeral `a.b` is the number its digits spell, with `b` as the fraction |
| `Decimal.ParseFormatUnits` | src/stellar.js:19 | what is printed with f decimals reads back through `parseFloat` as exactly that value |
| `Decimal.ToFixedReadsBack` | src/stellar.js:66 | `x.toFixed(7)` denotes x rounded half up to 7 decimals, and nothing else |
| `Decimal.RoundHalfUpNearest` | src/stellar.js:66 | the rounded amount is within half a unit of the last kept digit of the exact amount, ties rounding up |
| `Decimal.RoundHalfUpExact` | src/stellar.js:77 | an amount with at most 7 decimals is sent exactly, with no rounding |
| `Decimal.ParseExponentNotation` | src/stellar.js:37 | `parseFloat("1e-8")` is 10^-8 |
| `Decimal.ToFixedBelowHalfUnit` | src/stellar.js:66 | `(1e-8).toFixed(7)` is `"0.0000000"` |
| `Stellar.FirstNative` | src/stellar.js:16-18 | `find` yields the first balance line whose asset type is native, and none when no line is native |
| `Stellar.FetchBalance` | src/stellar.js:13-23 | fails, with the one fixed message, exactly when the account load fails; otherwise it is the first native balance to four decimals, or "0.0000" when there is none |
| `Stellar.BalanceTextShape` | src/stellar.js:19 | `parseFloat(balance).toFixed(4)` is "NaN" exactly when the balance does not parse; otherwise it has four decimals and a sign only for a negative value, and a non-negative value reads back as itself rounded half up to four decimals |
| `Stellar.FetchBalanceOfLedgerAmount` | src/stellar.js:19 | a seven-decimal Horizon balance is shown rounded half up to four decimals, and the text shown reads back as that rounded value |
| `Stellar.Project` | src/stellar.js:114-119 | the summary list has one entry per record, in the same order, with hash, createdAt, successful and ledger copied field for field |
| `Stellar.ProjectAppend` | src/stellar.js:114-119 | the projection commutes with concatenation: the summaries of two runs of records are the two runs' summaries, one after the other |
| `Stellar.FetchTransactions` | src/stellar.js:105-123 | the projected records when the query answers, `[]` on any failure; it never fails |
| `Stellar.Classify` | src/stellar.js:43-52 | a loaded destination exists; only a 404 answer means it does not; every other failure leaves it unverifiable |
| `Stellar.MemoText` | src/stellar.js:82-84 | a memo is attached exactly when its trim is non-empty, and the text is the first min(28, length) characters of the trimmed memo |
| `Stellar.MemoKeptWhole` | src/stellar.js:82-84 | a memo of at most 28 characters with no white space at either end is attached unchanged |
| `Stellar.TxBuilder.constructor` | src/stellar.js:56-59 | the builder starts on the given source account, fee and network passphrase, with no operation, no memo and no timeout |
| `Stellar.TxBuilder.AddOperation` | src/stellar.js:61-80 | appends one operation and changes nothing else |
| `Stellar.TxBuilder.AddMemo` | src/stellar.js:83 | sets the memo and changes nothing else |
| `Stellar.TxBuilder.SetTimeout` | src/stellar.js:86 | sets the timeout and changes nothing else |
| `Stellar.TxBuilder.Build` | src/stellar.js:86 | the transaction has the builder's operations, memo, timeout, fee and network, and the source's next sequence number |
| `Stellar.BuildTransaction` | src/stellar.js:56-86 | fails, with the minimum-balance error, exactly when the destination is new and the amount is below 1; otherwise the planned transaction has one payment (existing destination) or one createAccount (new one) |
| `Stellar.AcceptedAmount` | src/stellar.js:38 | the test `isNaN(x)` or `x <= 0` refuses NaN and every value that is not positive, and accepts every positive value |
| `Stellar.PreparedRequest` | src/stellar.js:37-40 | for an accepted amount the text `toFixed(7)` hands the operation denotes the parsed amount rounded half up to seven decimals; the memo is attached exactly when its trim is non-empty, and holds at most 28 characters |
| `Stellar.SignedXdr` | src/stellar.js:95 | a string reply is the envelope itself; otherwise its `signedTxXdr`, and reading it throws exactly for null or undefined |
| `Stellar.PlanTx` | src/stellar.js:56-86 | the transaction is on the source account's next sequence number with BASE_FEE, the testnet passphrase and timeout 180; it holds one operation to the destination: createAccount with the amount text as starting balance for a new account, a native payment of the amount text otherwise; and the memo text, if any |
| `Stellar.SendValidatesFirst` | src/stellar.js:31-40 | an invalid key fails with "Invalid destination address." before the amount is looked at; a bad amount fails with "Amount must be a positive number."; no call is made exactly when either check fails |
| `Stellar.SendCallOrder` | src/stellar.js:45-97 | calls come in the order destination lookup, source load, signing, submission, at most one of each, and signing and submission use the same testnet passphrase |
| `Stellar.SendUnverifiableIsFatal` | src/stellar.js:43-52 | a lookup failure other than 404 ends the send with "Could not verify destination account." after the lookup alone |
| `Stellar.SendSourceLoadFailure` | src/stellar.js:54 | once the destination is settled the source is loaded, and a failure to load it is thrown as is |
| `Stellar.SendMinimumStartingBalance` | src/stellar.js:69-73 | the minimum-balance error happens exactly for a new destination and an amount below 1, after both loads and before signing |
| `Stellar.SendSignsPlannedTx` | src/stellar.js:56-93 | the signer gets one transaction on the loaded source: a native payment of the 7-decimal amount to an existing destination, or a createAccount of at least 1 XLM for a new one; the trimmed memo; timeout 180; BASE_FEE; testnet |
| `Stellar.SendSubmitsSignedEnvelope` | src/stellar.js:91-97 | the envelope submitted is the signer's string or its `signedTxXdr`, and only when it decodes; a signer that throws stops the send |
| `Stellar.SendSucceedsOnlyWhenAccepted` | src/stellar.js:97-99 | sendXLM returns a hash only after a submission the network accepted, and it is the network's hash; a rejection is thrown as is |
| `Stellar.SendReachesSubmission` | src/stellar.js:42-99 | when every step can succeed, the transaction is submitted |
| `Stellar.TinyAmountPlannedAsZero` | src/stellar.js:37-66 | the amount `1e-8` passes the positivity check, and the text `toFixed(7)` makes for the operation is `"0.0000000"` |
| `Stellar.SendXLM` | src/stellar.js:29-100 | the result and the calls made are those of the send specification on the parsed amount, its 7-decimal text and the memo text |
| `Stellar.TransferAmount` | src/stellar.js:42-99 | after validation, the lookup, load, build, sign and submit steps give exactly the specification's result and calls |
| `Wallet.IsFreighterInstalled` | src/App.jsx:7-15 | installed exactly when the answer is the boolean true or an object whose `isConnected` is the boolean true; anything thrown means not installed |
| `Wallet.InstalledNeedsBooleanTrue` | src/App.jsx:11 | the comparisons are strict: `1`, `"true"` or `{isConnected: "true"}` do not count |
| `Wallet.AccessKey` | src/App.jsx:22-24 | the modern answer's truthy `address` is taken in preference to its truthy `publicKey`; neither means no key |
| `Wallet.LegacyKey` | src/App.jsx:29-31 | a string answer is the key as is, even when empty; otherwise its truthy `publicKey` |
| `Wallet.GetFreighterPublicKey` | src/App.jsx:17-35 | a key returned is truthy or the empty string; a failure carries the unlock message or the message a wallet call threw |
| `Wallet.ModernApiFirst` | src/App.jsx:20-25 | when the modern API throws or yields a key, the legacy API is not consulted, and `address` wins over `publicKey` |
| `Wallet.LegacyApiFallback` | src/App.jsx:27-34 | when the modern API is missing or yields nothing, the outcome is the legacy API's alone: a legacy answer gives its `LegacyKey` or, failing that, the unlock message; a throwing legacy call gives its message; a missing legacy API gives the unlock message |
| `Wallet.UnlockFailure` | src/App.jsx:34 | absent any exception, the unlock message is thrown exactly when neither API yields a key |
| `Session.BalanceTextNotError` | src/App.jsx:294 | no balance text fetchBalance returns reads "Error" |
| `Session.AfterLoad` | src/App.jsx:285-296 | when the balance loads, the fetched balance and history are both shown; when it fails, "Error" is shown beside the old history |
| `Session.AfterLoadReportsFailure` | src/App.jsx:285-296 | after loadAccountData the balance reads "Error" exactly when the balance failed to load, and the history shown is then the old one |
| `Session.ErrorText` | src/App.jsx:311 | the error text is a non-empty message as it is, else the fallback; it is empty only when the message and the fallback both are |
| `Session.Connect` | src/App.jsx:301-311 | a connection yields a truthy key, or an error text that is never empty: the wallet-missing text when not installed, the helper's message (or "Connection failed."), or the no-key text for a falsy key |
| `Session.EmptyLegacyKeyRefused` | src/App.jsx:307 | the empty string from the legacy API is refused with "No public key returned. Make sure Freighter is unlocked." |
| `Session.App.Screen` | src/App.jsx:354-379 | without a key the connect screen is shown; with one, exactly one of the success view (txResult set) and the send form |
| `Session.App.constructor` | src/App.jsx:277-283 | initial hooks: no key, balance "—", no history, nothing loading, no error, no result |
| `Session.App.LoadAccountData` | src/App.jsx:285-296 | fetches the balance and five transactions for the key, then shows both, or "Error" as the balance beside the old history; the key and the rest of the state are untouched |
| `Session.App.HandleConnect` | src/App.jsx:298-315 | detects the wallet first and asks for a key only when it is installed; a missing wallet ends the handler after the detection call alone, and a failed key request after the two wallet calls; on failure shows the error and keeps the key and the account data; on success sets the key before the account loads for it; `connectLoading` is up during every call and down at the end |
| `Session.App.HandleDisconnect` | src/App.jsx:317-323 | resets exactly the key, balance, history, send result and connect error |
| `Session.App.HandleRefreshBalance` | src/App.jsx:325-332 | reloads the current key's account with `balanceRefreshing` up during the fetches and down at the end |
| `Session.App.HandleTxSuccess` | src/App.jsx:334-338 | records `{hash, destination, amount}`, then reloads the account of the key the handler was created with, which a disconnect meanwhile does not change; after a disconnect the state is invalid (a result with no key) |
| `Session.App.HandleDismissTx` | src/App.jsx:340 | clears only the send result, which brings back the form |
| `Session.AmountRejected` | src/App.jsx:102 | the test `!amount` or `parseFloat(amount) <= 0` refuses the empty amount and every parsed value that is not positive, and lets through non-empty text that reads as NaN |
| `Session.FormCheck` | src/App.jsx:100-102 | a blank trimmed destination is refused first, then an empty or non-positive amount; the two messages are the form's |
| `Session.ParseEmpty` | src/App.jsx:102 | `parseFloat("")` is NaN |
| `Session.FormCheckWeakerThanSend` | src/App.jsx:102 | every amount the form refuses, sendXLM refuses too; the form lets through, and sendXLM refuses, exactly the non-empty amounts that read as NaN |
| `Session.FormSendsNoMemo` | src/App.jsx:106 | the form always sends the empty memo, so no memo is ever attached |
| `Session.SendForm.constructor` | src/App.jsx:92-96 | the form starts with empty fields, not loading, no error |
| `Session.SendForm.Refuse` | src/App.jsx:101-102 | `return setError(message)` shows the message and changes no field and not the loading flag |
| `Session.SendForm.HandleSend` | src/App.jsx:98-116 | a failed form check shows its error, calls nothing and keeps the fields; otherwise the send path below, with the form shown loading, error cleared and fields as entered while sendXLM is pending |
| `Session.SendForm.Dispatch` | src/App.jsx:104-115 | clears the error and raises `loading` before sendXLM is called, so the form is shown loading, with its fields as entered, while every call is pending; sends the trimmed destination, the raw amount and the memo through sendXLM; on success reports `{hash, trimmed destination, amount}` and clears the three fields; on failure shows the error (or "Transaction failed.") and keeps them; `loading` ends false |
| `Session.SendForm.Settle` | src/App.jsx:107-114 | applies sendXLM's outcome to the form as above |

## Left out

- **Floating point.** `parseFloat` and `toFixed` work on exact decimals:
  - binary rounding, `Infinity`, and `toFixed`'s switch to exponent notation at 1e21 are not modelled;
  - `parseFloat` reads decimal text only (no `Infinity` literal).
- **Key validation.** `Keypair.fromPublicKey` (the StrKey checksum of a key) is a boolean input, `World.destinationValid`.
- **XDR.** `toXDR` and `fromXDR` are not modelled. Whether the signed envelope decodes is a boolean input, `World.envelopeReadable`. The unsigned XDR handed to the signer is represented by the transaction itself.
- **SDK validation.** `Operation.payment` and `Operation.createAccount` validate amounts, and `Memo.text` limits memos to 28 bytes. Neither check is modelled, and the builder accepts any amount text.
- **Memo length units.** `slice(0, 28)` counts UTF-16 code units, while `Stellar.MemoText` counts Dafny characters (code points). The two agree on text without characters outside the Basic Multilingual Plane; for a memo of 15 emoji (30 code units) the source keeps 14 emoji and the model keeps 15, and the source can cut a surrogate pair in half, which the model cannot.
- **Network errors.** The network, Horizon and the signer are inputs. Their errors carry a message, and for account loads an optional HTTP status. The server is not modelled as honouring the page size of five.
- **Module loading.** A failure of the dynamic `import` of the wallet module is not modelled separately. For `isFreighterInstalled` it is covered by a throwing `isConnected` reply.
- **Concurrency and timing.**
  - The two fetches of `loadAccountData` run one after the other; `Promise.all` rejects on the first failure, and only `fetchBalance` can fail.
  - Handlers run one at a time, so interleavings of handlers are not explored; a disconnect during a pending send is only visible through `Session.App.HandleTxSuccess`, whose caller passes the key of the render that showed the form.
  - The transaction's time bounds are kept as the 180-second timeout.
- **JavaScript numbers.** Integral `JsValue` numbers are unbounded integers.
- **Thrown values.** An `Error` whose message is empty stands for a thrown value without a message.
- **Interface.** Rendering, `CopyButton`, shortened addresses and hashes, `Date` formatting, and the commented-out memo input are not modelled.
- **Order of pure steps.** `toFixed(7)` and the memo text are computed before the transaction is built, not inside the builder calls. Both are pure, so the outcome is the same.
