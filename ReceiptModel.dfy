/** The receipt-validation Lambda of the Apple receipt service, as values.

    This module holds the data the handler works on, its constants, and
    one pure function per step of the handler: the shared-secret cache,
    reading `receipt-data`, the production-then-sandbox verification, the
    selection of the latest transaction, the upsert into the table, the
    whole handler, and a run of the process over many invocations.  The
    imperative class in module ReceiptHandler is proved equal to these. */
module ReceiptModel {
  import opened Wrappers

  // ---------------------------------------------------------------------
  // Constants
  // ---------------------------------------------------------------------

  const ProductionUrl: string := "https://buy.itunes.apple.com/verifyReceipt"
  const SandboxUrl: string := "https://sandbox.itunes.apple.com/verifyReceipt"

  /** `status` of a valid receipt. */
  const StatusValid: int := 0
  /** `status` Apple returns when a sandbox receipt is sent to production. */
  const StatusSandboxReceipt: int := 21007

  const TableNameMissingMessage: string := "Internal server error: TABLE_NAME missing"
  const InvalidBodyMessage: string := "Invalid request body. \"receipt-data\" is required."
  const ValidationFailedMessage: string := "Failed to validate receipt."
  const ParamNameMissingError: string := "APPLE_SHARED_SECRET_PARAM_NAME is not set"
  const SecretMissingError: string := "Could not retrieve shared secret from SSM Parameter Store"

  // ---------------------------------------------------------------------
  // Data
  // ---------------------------------------------------------------------

  /** JavaScript truthiness of a value that is a string or `undefined`:
      `undefined` and the empty string are falsy. */
  predicate Truthy(v: Option<string>) {
    v.Some? && v.value != ""
  }

  /** The environment the module reads once at load time. */
  datatype Config = Config(tableName: Option<string>, sharedSecretParamName: Option<string>)

  /** One element of `receipt.in_app`. */
  datatype Transaction = Transaction(
    transactionId: string,
    productId: string,
    purchaseDate: string,
    expiresDate: string,
    originalTransactionId: string)

  /** The `receipt` object of a response; `details` stands for its other
      fields, which the handler never looks at. */
  datatype ReceiptInfo = ReceiptInfo(inApp: Option<seq<Transaction>>, details: string)

  /** Apple's `verifyReceipt` reply (the axios `response.data`); `details`
      stands for the fields other than `status` and `receipt`. */
  datatype VerificationResponse = VerificationResponse(
    status: int,
    receipt: Option<ReceiptInfo>,
    details: string)

  /** The JSON body posted to Apple. */
  datatype VerificationRequest = VerificationRequest(
    receiptData: string,
    password: string,
    excludeOldTransactions: bool)

  /** The table's primary key: partition key `receipt-data`, sort key `transactionId`. */
  type Key = (string, string)

  /** The item the handler puts: the key, the projected fields of the
      latest transaction, and the verification response spread into it. */
  datatype Record = Record(
    receiptData: string,
    transactionId: string,
    productId: string,
    purchaseDate: string,
    expiresDate: string,
    originalTransactionId: string,
    response: VerificationResponse)
  {
    function Key(): Key {
      (receiptData, transactionId)
    }
  }

  /** An outside call the process makes, in the order it makes them. */
  datatype Call =
    | GetParameter(name: string, withDecryption: bool)
    | Post(url: string, request: VerificationRequest)
    | Put(tableName: string, item: Record)

  /** The body of the returned HTTP response (before `JSON.stringify`). */
  datatype Body =
    | Verified(response: VerificationResponse)
    | Message(message: string)
    | Failed(message: string, error: string)

  datatype HttpResponse = HttpResponse(statusCode: int, body: Body)

  /** The request body after `JSON.parse`: None when parsing (or indexing
      the parsed value) throws; Some(None) when `receipt-data` is absent. */
  type RequestBody = Option<Option<string>>

  /** The SSM parameter store: the `Parameter.Value` of a name (None when
      the reply has none), or Failure with the message `send` rejects with. */
  type ParameterStore = string -> Result<Option<string>, string>

  /** Apple's endpoints as seen through axios: the parsed reply to a POST
      of a request to a URL, or Failure with the error's message. */
  type Endpoint = (string, VerificationRequest) -> Result<VerificationResponse, string>

  /** The state that outlives one invocation: the module-level cached
      secret, the log of outside calls, and the DynamoDB table. */
  datatype State = State(sharedSecret: Option<string>, calls: seq<Call>, table: map<Key, Record>)

  /** The cache only ever holds a truthy secret. */
  predicate CacheValid(cache: Option<string>) {
    cache.Some? ==> cache.value != ""
  }

  /** Every item is stored under its own key. */
  predicate KeyedTable(table: map<Key, Record>) {
    forall k :: k in table ==> table[k].Key() == k
  }

  predicate ValidState(s: State) {
    CacheValid(s.sharedSecret) && KeyedTable(s.table)
  }

  // ---------------------------------------------------------------------
  // The shared-secret cache
  // ---------------------------------------------------------------------

  datatype SecretFetch = SecretFetch(result: Result<string, string>, cache: Option<string>, calls: seq<Call>)

  /** `getSharedSecret`: the cached secret if there is one, otherwise one
      lookup in the parameter store, cached when it yields a truthy value. */
  function FetchSecret(cache: Option<string>, paramName: Option<string>, store: ParameterStore): (r: SecretFetch)
    ensures Truthy(cache) ==> r.result == Success(cache.value) && r.cache == cache && r.calls == []
    ensures r.result.Success? ==> Truthy(r.cache) && r.cache.value == r.result.value
    ensures r.result.Failure? ==> r.cache == cache
    ensures !Truthy(cache) && !Truthy(paramName) ==>
              r.result == Failure(ParamNameMissingError) && r.calls == []
    ensures !Truthy(cache) && Truthy(paramName) ==>
              r.calls == [GetParameter(paramName.value, true)]
    ensures !Truthy(cache) && Truthy(paramName) && store(paramName.value).Failure? ==>
              r.result == Failure(store(paramName.value).error)
    ensures !Truthy(cache) && Truthy(paramName) && store(paramName.value).Success? ==>
              (r.result.Success? <==> Truthy(store(paramName.value).value)) &&
              (r.result.Success? ==> r.result.value == store(paramName.value).value.value) &&
              (r.result.Failure? ==> r.result.error == SecretMissingError)
  {
    if Truthy(cache) then
      SecretFetch(Success(cache.value), cache, [])
    else if !Truthy(paramName) then
      SecretFetch(Failure(ParamNameMissingError), cache, [])
    else
      var lookup := GetParameter(paramName.value, true);
      match store(paramName.value)
      case Failure(e) => SecretFetch(Failure(e), cache, [lookup])
      case Success(value) =>
        if !Truthy(value) then SecretFetch(Failure(SecretMissingError), cache, [lookup])
        else SecretFetch(Success(value.value), value, [lookup])
  }

  // ---------------------------------------------------------------------
  // The steps of the handler
  // ---------------------------------------------------------------------

  /** The `receipt-data` the handler goes on with, or None for a 400. */
  function ReceiptDataOf(body: RequestBody): (r: Option<string>)
    ensures r.Some? <==> body.Some? && Truthy(body.value)
    ensures r.Some? ==> r.value == body.value.value && r.value != ""
  {
    match body
    case None => None
    case Some(field) => if Truthy(field) then field else None
  }

  /** Lines 63-67: the body posted to Apple. */
  function BuildRequest(receiptData: string, secret: string): (r: VerificationRequest)
    ensures r.receiptData == receiptData && r.password == secret
    ensures r.excludeOldTransactions
  {
    VerificationRequest(receiptData, secret, true)
  }

  datatype Verification = Verification(result: Result<VerificationResponse, string>, calls: seq<Call>)

  /** Lines 69-76: post to production; only on status 21007 post the same
      request to the sandbox and take its answer, whatever it is. */
  function Verify(request: VerificationRequest, post: Endpoint): (r: Verification)
    ensures 1 <= |r.calls| <= 2
    ensures r.calls[0] == Post(ProductionUrl, request)
    ensures |r.calls| == 2 <==>
              post(ProductionUrl, request).Success? && post(ProductionUrl, request).value.status == StatusSandboxReceipt
    ensures |r.calls| == 2 ==> r.calls[1] == Post(SandboxUrl, request) && r.result == post(SandboxUrl, request)
    ensures |r.calls| == 1 ==> r.result == post(ProductionUrl, request)
  {
    var production := post(ProductionUrl, request);
    if production.Success? && production.value.status == StatusSandboxReceipt then
      Verification(post(SandboxUrl, request), [Post(ProductionUrl, request), Post(SandboxUrl, request)])
    else
      Verification(production, [Post(ProductionUrl, request)])
  }

  /** `receipt.in_app` when both `receipt` and `in_app` are there. */
  function InAppOf(response: VerificationResponse): (r: Option<seq<Transaction>>)
    ensures r.Some? <==> response.receipt.Some? && response.receipt.value.inApp.Some?
    ensures r.Some? ==> r.value == response.receipt.value.inApp.value
  {
    if response.receipt.Some? then response.receipt.value.inApp else None
  }

  datatype Selection = Selection(latest: Option<Transaction>, response: VerificationResponse)

  /** Lines 78-80: on status 0 with an `in_app` array, `pop()` its last
      element; the response afterwards lacks that element. */
  function TakeLatest(response: VerificationResponse): (r: Selection)
    ensures r.latest.Some? <==>
              response.status == StatusValid && InAppOf(response).Some? && |InAppOf(response).value| > 0
    ensures r.latest.Some? ==>
              var inApp := InAppOf(response).value;
              r.latest.value == inApp[|inApp| - 1] &&
              InAppOf(r.response) == Some(inApp[..|inApp| - 1])
    ensures r.latest.None? ==> r.response == response
    ensures r.response.status == response.status && r.response.details == response.details
    ensures r.response.receipt.Some? <==> response.receipt.Some?
    ensures r.response.receipt.Some? ==> r.response.receipt.value.details == response.receipt.value.details
  {
    if response.status == StatusValid && response.receipt.Some? && response.receipt.value.inApp.Some? then
      var receipt := response.receipt.value;
      var inApp := receipt.inApp.value;
      if |inApp| == 0 then Selection(None, response)
      else
        var rest := receipt.(inApp := Some(inApp[..|inApp| - 1]));
        Selection(Some(inApp[|inApp| - 1]), response.(receipt := Some(rest)))
    else
      Selection(None, response)
  }

  /** Lines 83-91: the item built from the latest transaction. */
  function MakeRecord(receiptData: string, latest: Transaction, response: VerificationResponse): (r: Record)
    ensures r.Key() == (receiptData, latest.transactionId)
    ensures r.productId == latest.productId && r.purchaseDate == latest.purchaseDate
    ensures r.expiresDate == latest.expiresDate && r.originalTransactionId == latest.originalTransactionId
    ensures r.response == response
  {
    Record(receiptData, latest.transactionId, latest.productId, latest.purchaseDate,
           latest.expiresDate, latest.originalTransactionId, response)
  }

  /** A DynamoDB put: the item replaces whatever had its key. */
  function Upsert(table: map<Key, Record>, item: Record): (r: map<Key, Record>)
    ensures r.Keys == table.Keys + {item.Key()}
    ensures r[item.Key()] == item
    ensures forall k :: k in table && k != item.Key() ==> r[k] == table[k]
    ensures |r| == if item.Key() in table then |table| else |table| + 1
    ensures KeyedTable(table) ==> KeyedTable(r)
  {
    table[item.Key() := item]
  }

  /** Lines 101-109: whatever the `try` block throws becomes a 500 with
      the fixed message and the thrown message. */
  function ValidationFailed(error: string): (r: HttpResponse)
    ensures r.statusCode == 500
    ensures r.body.Failed? && r.body.message == ValidationFailedMessage && r.body.error == error
  {
    HttpResponse(500, Failed(ValidationFailedMessage, error))
  }

  const TableNameMissing: HttpResponse := HttpResponse(500, Message(TableNameMissingMessage))
  const InvalidBody: HttpResponse := HttpResponse(400, Message(InvalidBodyMessage))

  // ---------------------------------------------------------------------
  // The handler
  // ---------------------------------------------------------------------

  /** What one invocation does: its answer, the cache after it, the
      outside calls it makes (in order) and the table after it. */
  datatype Effect = Effect(response: HttpResponse, cache: Option<string>, calls: seq<Call>, table: map<Key, Record>)

  /** Lines 76-100: what follows the final verification result, which is
      Failure when the post threw. */
  function Conclude(tableName: string, receiptData: string, cache: Option<string>, table: map<Key, Record>,
                    result: Result<VerificationResponse, string>, putError: Option<string>): (r: Effect)
    ensures r.cache == cache
    ensures r.response.statusCode in {200, 500}
    ensures r.response.statusCode != 200 ==> r.table == table
    ensures KeyedTable(table) ==> KeyedTable(r.table)
  {
    match result
    case Failure(e) => Effect(ValidationFailed(e), cache, [], table)
    case Success(reply) =>
      var selection := TakeLatest(reply);
      match selection.latest
      case None => Effect(HttpResponse(200, Verified(selection.response)), cache, [], table)
      case Some(latest) =>
        var item := MakeRecord(receiptData, latest, selection.response);
        if putError.Some? then
          Effect(ValidationFailed(putError.value), cache, [Put(tableName, item)], table)
        else
          Effect(HttpResponse(200, Verified(selection.response)), cache, [Put(tableName, item)], Upsert(table, item))
  }

  /** Lines 61-109: the `try` block, once the configuration and the body
      have been accepted. */
  function Validate(tableName: string, paramName: Option<string>, receiptData: string,
                    cache: Option<string>, table: map<Key, Record>,
                    store: ParameterStore, post: Endpoint, putError: Option<string>): (r: Effect)
    ensures r.response.statusCode in {200, 500}
    ensures r.response.statusCode != 200 ==> r.table == table
    ensures CacheValid(cache) ==> CacheValid(r.cache)
    ensures KeyedTable(table) ==> KeyedTable(r.table)
  {
    var fetch := FetchSecret(cache, paramName, store);
    if fetch.result.Failure? then
      Effect(ValidationFailed(fetch.result.error), fetch.cache, fetch.calls, table)
    else
      var verification := Verify(BuildRequest(receiptData, fetch.result.value), post);
      var rest := Conclude(tableName, receiptData, fetch.cache, table, verification.result, putError);
      rest.(calls := fetch.calls + verification.calls + rest.calls)
  }

  /** `handler`: one invocation.  `putError` is the message the put
      rejects with, if it does. */
  function Invoke(config: Config, cache: Option<string>, table: map<Key, Record>, body: RequestBody,
                  store: ParameterStore, post: Endpoint, putError: Option<string>): (r: Effect)
    ensures r.response.statusCode in {200, 400, 500}
    ensures r.response.statusCode != 200 ==> r.table == table
    ensures CacheValid(cache) ==> CacheValid(r.cache)
    ensures KeyedTable(table) ==> KeyedTable(r.table)
  {
    if !Truthy(config.tableName) then
      Effect(TableNameMissing, cache, [], table)
    else match ReceiptDataOf(body)
      case None => Effect(InvalidBody, cache, [], table)
      case Some(receiptData) =>
        Validate(config.tableName.value, config.sharedSecretParamName, receiptData, cache, table, store, post, putError)
  }

  datatype Outcome = Outcome(response: HttpResponse, state: State)

  /** One invocation, from the state before to the answer and the state
      after: the invocation's calls are appended to the log. */
  function Handle(config: Config, s: State, body: RequestBody, store: ParameterStore,
                  post: Endpoint, putError: Option<string>): (r: Outcome)
    ensures r.response.statusCode in {200, 400, 500}
    ensures s.calls <= r.state.calls
    ensures r.response.statusCode != 200 ==> r.state.table == s.table
    ensures ValidState(s) ==> ValidState(r.state)
  {
    var effect := Invoke(config, s.sharedSecret, s.table, body, store, post, putError);
    Outcome(effect.response, State(effect.cache, s.calls + effect.calls, effect.table))
  }

  // ---------------------------------------------------------------------
  // The life of one process
  // ---------------------------------------------------------------------

  /** What the outside world does during one invocation. */
  datatype Invocation = Invocation(body: RequestBody, store: ParameterStore, post: Endpoint, putError: Option<string>)

  function Step(config: Config, s: State, inv: Invocation): Outcome {
    Handle(config, s, inv.body, inv.store, inv.post, inv.putError)
  }

  /** The state after the invocations one after the other; the module-level
      cache carries over from one invocation to the next. */
  function Run(config: Config, s: State, invocations: seq<Invocation>): (r: State)
    ensures s.calls <= r.calls
    ensures ValidState(s) ==> ValidState(r)
    decreases |invocations|
  {
    if |invocations| == 0 then s
    else Run(config, Step(config, s, invocations[0]).state, invocations[1..])
  }
}
