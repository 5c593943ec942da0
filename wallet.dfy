/**
  The two Freighter helpers at the top of src/App.jsx: detecting the
  wallet extension, and obtaining the user's public key from whichever of
  its two APIs the installed version offers.

  The extension is foreign code: each of its functions is either absent
  from the loaded module or, when called, resolves to some JavaScript
  value or rejects with a message.
 */
module Wallet {
  import opened Wrappers
  import opened Js

  const UNLOCK_MESSAGE := "Could not retrieve public key. Please unlock Freighter."

  /** The key-returning functions of the freighter-api module: None when
      the function is not exported, otherwise what calling it yields. */
  datatype FreighterApi = FreighterApi(requestAccess: Option<Reply>, getPublicKey: Option<Reply>)

  /** isFreighterInstalled: only the boolean `true`, or an object whose
      `isConnected` field is the boolean `true`, means installed; anything
      that throws on the way means not installed. */
  function IsFreighterInstalled(isConnected: Reply): (installed: bool)
    ensures installed <==>
      && isConnected.Returned?
      && var v := isConnected.value;
         v == Bool(true) || (v.Obj? && "isConnected" in v.fields && v.fields["isConnected"] == Bool(true))
  {
    match isConnected
    case Threw(_) => false
    case Returned(result) => result == Bool(true) || OptionalGet(result, "isConnected") == Bool(true)
  }

  /** The comparisons are strict: truthy answers that are not the boolean
      true do not count. */
  lemma InstalledNeedsBooleanTrue()
    ensures !IsFreighterInstalled(Returned(Num(1)))
    ensures !IsFreighterInstalled(Returned(Str("true")))
    ensures !IsFreighterInstalled(Returned(Obj(map["isConnected" := Str("true")])))
    ensures IsFreighterInstalled(Returned(Obj(map["isConnected" := Bool(true), "extra" := Null])))
  {
  }

  /** The key in requestAccess's answer: a truthy `address`, else a
      truthy `publicKey`. */
  function AccessKey(result: JsValue): (key: Option<JsValue>)
    ensures key.Some? ==> Truthy(key.value)
    ensures key.None? <==> !Truthy(OptionalGet(result, "address")) && !Truthy(OptionalGet(result, "publicKey"))
    ensures Truthy(OptionalGet(result, "address")) ==> key == Some(OptionalGet(result, "address"))
    ensures key.Some? && key.value != OptionalGet(result, "address") ==> key.value == OptionalGet(result, "publicKey")
  {
    if Truthy(OptionalGet(result, "address")) then Some(OptionalGet(result, "address"))
    else if Truthy(OptionalGet(result, "publicKey")) then Some(OptionalGet(result, "publicKey"))
    else None
  }

  /** The key in getPublicKey's answer: the answer itself when it is a
      string (even the empty one), else a truthy `publicKey`. */
  function LegacyKey(result: JsValue): (key: Option<JsValue>)
    ensures result.Str? ==> key == Some(result)
    ensures !result.Str? ==> (key.Some? <==> Truthy(OptionalGet(result, "publicKey")))
    ensures key.Some? && !result.Str? ==> key.value == OptionalGet(result, "publicKey")
    ensures key.Some? ==> Truthy(key.value) || key.value == Str("")
  {
    if result.Str? then Some(result)
    else if Truthy(OptionalGet(result, "publicKey")) then Some(OptionalGet(result, "publicKey"))
    else None
  }

  /** Whether the modern API settles the question: it threw, or it gave a key. */
  predicate AccessAnswers(api: FreighterApi)
  {
    api.requestAccess.Some? &&
      (api.requestAccess.value.Threw? || AccessKey(api.requestAccess.value.value).Some?)
  }

  /** getFreighterPublicKey: ask the modern API first, fall back to the
      legacy one, and fail with the unlock message when neither yields a
      key. A call that throws ends the search with its own error. */
  function GetFreighterPublicKey(api: FreighterApi): (r: Result<JsValue, string>)
    ensures r.Success? ==> Truthy(r.value) || r.value == Str("")
    ensures r.Failure? && r.error != UNLOCK_MESSAGE ==>
      api.requestAccess == Some(Threw(r.error)) || api.getPublicKey == Some(Threw(r.error))
  {
    var modern := match api.requestAccess
      case Some(Returned(result)) => AccessKey(result)
      case _ => None;
    if api.requestAccess.Some? && api.requestAccess.value.Threw? then Failure(api.requestAccess.value.message)
    else if modern.Some? then Success(modern.value)
    else
      match api.getPublicKey
      case None => Failure(UNLOCK_MESSAGE)
      case Some(Threw(message)) => Failure(message)
      case Some(Returned(result)) =>
        match LegacyKey(result)
        case Some(key) => Success(key)
        case None => Failure(UNLOCK_MESSAGE)
  }

  /** When the modern API answers, the legacy API is never consulted: the
      outcome does not depend on it. An `address` wins over a `publicKey`. */
  lemma ModernApiFirst(api: FreighterApi, legacy: Option<Reply>)
    requires AccessAnswers(api)
    ensures GetFreighterPublicKey(api) == GetFreighterPublicKey(api.(getPublicKey := legacy))
    ensures api.requestAccess.value.Returned? ==>
      GetFreighterPublicKey(api) == Success(AccessKey(api.requestAccess.value.value).value)
    ensures api.requestAccess.value.Returned? && Truthy(OptionalGet(api.requestAccess.value.value, "address")) ==>
      GetFreighterPublicKey(api) == Success(OptionalGet(api.requestAccess.value.value, "address"))
    ensures api.requestAccess.value.Threw? ==> GetFreighterPublicKey(api) == Failure(api.requestAccess.value.message)
  {
  }

  /** When the modern API is missing or yields no key, the outcome is the
      legacy API's alone, whatever the modern one answered: its key when it
      yields one, the error it throws, or the unlock message otherwise. */
  lemma LegacyApiFallback(api: FreighterApi, modern: Option<Reply>)
    requires !AccessAnswers(api)
    requires !AccessAnswers(api.(requestAccess := modern))
    ensures GetFreighterPublicKey(api) == GetFreighterPublicKey(api.(requestAccess := modern))
    ensures GetFreighterPublicKey(api) == GetFreighterPublicKey(FreighterApi(None, api.getPublicKey))
    ensures api.getPublicKey == None ==> GetFreighterPublicKey(api) == Failure(UNLOCK_MESSAGE)
    ensures api.getPublicKey.Some? && api.getPublicKey.value.Threw? ==>
      GetFreighterPublicKey(api) == Failure(api.getPublicKey.value.message)
    ensures api.getPublicKey.Some? && api.getPublicKey.value.Returned? ==>
      var key := LegacyKey(api.getPublicKey.value.value);
      GetFreighterPublicKey(api) == (if key.Some? then Success(key.value) else Failure(UNLOCK_MESSAGE))
  {
  }

  /** The unlock message is the answer exactly when no call throws and no
      call yields a key (barring a call that throws that very message). */
  lemma UnlockFailure(api: FreighterApi)
    requires api.requestAccess.Some? ==> api.requestAccess.value.Returned?
    requires api.getPublicKey.Some? ==> api.getPublicKey.value.Returned?
    ensures GetFreighterPublicKey(api) == Failure(UNLOCK_MESSAGE) <==>
      && !AccessAnswers(api)
      && (api.getPublicKey.Some? ==> LegacyKey(api.getPublicKey.value.value).None?)
  {
  }
}
