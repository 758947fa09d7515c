/** What the receipt-validation handler guarantees, stated as lemmas about
    `Handle` (one invocation), `Upsert` (the table) and `Run` (the life of
    one process). */
module ReceiptProperties {
  import opened Wrappers
  import opened ReceiptModel

  // ---------------------------------------------------------------------
  // Looking at the call log
  // ---------------------------------------------------------------------

  datatype CallKind = LookupCall | PostCall | PutCall

  function KindOf(c: Call): CallKind {
    match c
    case GetParameter(_, _) => LookupCall
    case Post(_, _) => PostCall
    case Put(_, _) => PutCall
  }

  /** The calls of one kind, in the order they were made. */
  function Only(calls: seq<Call>, kind: CallKind): (r: seq<Call>)
  {
    if |calls| == 0 then []
    else (if KindOf(calls[0]) == kind then [calls[0]] else []) + Only(calls[1..], kind)
  }

  lemma {:induction false} OnlyAppend(a: seq<Call>, b: seq<Call>, kind: CallKind)
    ensures Only(a + b, kind) == Only(a, kind) + Only(b, kind)
  {
    if |a| == 0 {
      assert a + b == b;
    } else {
      assert (a + b)[1..] == a[1..] + b;
      OnlyAppend(a[1..], b, kind);
    }
  }

  lemma {:induction false} OnlyOfKind(calls: seq<Call>, kind: CallKind)
    requires forall c :: c in calls ==> KindOf(c) == kind
    ensures Only(calls, kind) == calls
  {
    if |calls| > 0 {
      // Names the term `calls[1..]`, so that `Only(calls, kind)` unfolds
      // onto the recursive call below.
      assert calls[1..] == calls[1..];
      OnlyOfKind(calls[1..], kind);
    }
  }

  lemma {:induction false} OnlyNone(calls: seq<Call>, kind: CallKind)
    requires forall c :: c in calls ==> KindOf(c) != kind
    ensures Only(calls, kind) == []
  {
    if |calls| > 0 {
      OnlyNone(calls[1..], kind);
    }
  }

  /** The calls an invocation added to the log. */
  function NewCalls(s: State, r: Outcome): seq<Call> {
    if s.calls <= r.state.calls then r.state.calls[|s.calls|..] else []
  }

  predicate NoLookups(calls: seq<Call>) {
    forall c :: c in calls ==> !c.GetParameter?
  }

  predicate PostsCarry(calls: seq<Call>, password: string) {
    forall c :: c in calls && c.Post? ==> c.request.password == password
  }

  /** The put that follows a successful verification, if any. */
  function WriteCalls(tableName: string, receiptData: string, reply: VerificationResponse): seq<Call> {
    var selection := TakeLatest(reply);
    if selection.latest.Some? then
      [Put(tableName, MakeRecord(receiptData, selection.latest.value, selection.response))]
    else []
  }

  /** The posts to Apple and the put that follows them. */
  function VerifyAndWriteCalls(tableName: string, receiptData: string, secret: string, post: Endpoint): seq<Call> {
    var verification := Verify(BuildRequest(receiptData, secret), post);
    verification.calls +
      (if verification.result.Success? then WriteCalls(tableName, receiptData, verification.result.value) else [])
  }

  lemma NewCallsAppended(s: State, r: Outcome, extra: seq<Call>)
    requires r.state.calls == s.calls + extra
    ensures NewCalls(s, r) == extra
  {
    assert r.state.calls[|s.calls|..] == extra;
  }

  /** The calls after a verification: the put of the selected transaction
      whatever the put's outcome, or none. */
  lemma ConcludeCalls(tableName: string, receiptData: string, cache: Option<string>, table: map<Key, Record>,
                      result: Result<VerificationResponse, string>, putError: Option<string>)
    ensures Conclude(tableName, receiptData, cache, table, result, putError).calls ==
              (if result.Success? then WriteCalls(tableName, receiptData, result.value) else [])
  {
  }

  /** The calls one invocation makes, in order: none before the body is
      accepted, then the secret lookup (if the cache is empty), then the
      posts to Apple and the put. */
  lemma HandleCalls(config: Config, s: State, body: RequestBody, store: ParameterStore,
                    post: Endpoint, putError: Option<string>)
    ensures !Truthy(config.tableName) || ReceiptDataOf(body).None? ==>
              NewCalls(s, Handle(config, s, body, store, post, putError)) == []
    ensures var fetch := FetchSecret(s.sharedSecret, config.sharedSecretParamName, store);
            Truthy(config.tableName) && ReceiptDataOf(body).Some? && fetch.result.Failure? ==>
              NewCalls(s, Handle(config, s, body, store, post, putError)) == fetch.calls
    ensures var fetch := FetchSecret(s.sharedSecret, config.sharedSecretParamName, store);
            Truthy(config.tableName) && ReceiptDataOf(body).Some? && fetch.result.Success? ==>
              NewCalls(s, Handle(config, s, body, store, post, putError)) ==
                fetch.calls + VerifyAndWriteCalls(config.tableName.value, ReceiptDataOf(body).value,
                                                  fetch.result.value, post)
  {
    var r := Handle(config, s, body, store, post, putError);
    var effect := Invoke(config, s.sharedSecret, s.table, body, store, post, putError);
    NewCallsAppended(s, r, effect.calls);
    if Truthy(config.tableName) && ReceiptDataOf(body).Some? {
      ValidateCalls(config.tableName.value, config.sharedSecretParamName, ReceiptDataOf(body).value,
                    s.sharedSecret, s.table, store, post, putError);
    }
  }

  /** The calls of the `try` block: the secret fetch's, then, if it
      succeeded, the posts and the put. */
  lemma ValidateCalls(tableName: string, paramName: Option<string>, receiptData: string,
                      cache: Option<string>, table: map<Key, Record>,
                      store: ParameterStore, post: Endpoint, putError: Option<string>)
    ensures var fetch := FetchSecret(cache, paramName, store);
            Validate(tableName, paramName, receiptData, cache, table, store, post, putError).calls ==
              fetch.calls +
              (if fetch.result.Success? then VerifyAndWriteCalls(tableName, receiptData, fetch.result.value, post) else [])
  {
    var fetch := FetchSecret(cache, paramName, store);
    if fetch.result.Success? {
      var verification := Verify(BuildRequest(receiptData, fetch.result.value), post);
      ConcludeCalls(tableName, receiptData, fetch.cache, table, verification.result, putError);
      var writes := Conclude(tableName, receiptData, fetch.cache, table, verification.result, putError).calls;
      assert fetch.calls + verification.calls + writes == fetch.calls + (verification.calls + writes);
    } else {
      assert fetch.calls + [] == fetch.calls;
    }
  }

  // ---------------------------------------------------------------------
  // Configuration and request body
  // ---------------------------------------------------------------------

  /** Without `TABLE_NAME` every request gets the same 500, whatever its
      body, and nothing is fetched, posted or written. */
  lemma TableNameCheckedFirst(config: Config, s: State, body: RequestBody, store: ParameterStore,
                              post: Endpoint, putError: Option<string>)
    requires !Truthy(config.tableName)
    ensures Handle(config, s, body, store, post, putError) == Outcome(TableNameMissing, s)
    ensures TableNameMissing.statusCode == 500
    ensures TableNameMissing.body == Message("Internal server error: TABLE_NAME missing")
  {
  }

  /** With `TABLE_NAME` set, the answer is 400 exactly when the body does
      not parse or its `receipt-data` is missing or empty, and then the
      state is untouched. */
  lemma BadRequestExactlyOnInvalidBody(config: Config, s: State, body: RequestBody, store: ParameterStore,
                                       post: Endpoint, putError: Option<string>)
    requires Truthy(config.tableName)
    ensures (Handle(config, s, body, store, post, putError).response.statusCode == 400)
              <==> (body.None? || body.value.None? || body.value.value == "")
    ensures ReceiptDataOf(body).None? ==> Handle(config, s, body, store, post, putError) == Outcome(InvalidBody, s)
    ensures InvalidBody.body == Message("Invalid request body. \"receipt-data\" is required.")
  {
  }

  // ---------------------------------------------------------------------
  // The shared secret
  // ---------------------------------------------------------------------

  /** A failing secret fetch answers 500 with its message; the cache is
      left as it was and nothing is posted or written. */
  lemma SecretFailureIs500(config: Config, s: State, body: RequestBody, store: ParameterStore,
                           post: Endpoint, putError: Option<string>, error: string)
    requires Truthy(config.tableName) && ReceiptDataOf(body).Some?
    requires FetchSecret(s.sharedSecret, config.sharedSecretParamName, store).result == Failure(error)
    ensures var r := Handle(config, s, body, store, post, putError);
            r.response == ValidationFailed(error) &&
            r.response.body == Failed("Failed to validate receipt.", error) &&
            r.state.sharedSecret == s.sharedSecret && r.state.table == s.table &&
            Only(NewCalls(s, r), PostCall) == [] && Only(NewCalls(s, r), PutCall) == []
  {
    var fetch := FetchSecret(s.sharedSecret, config.sharedSecretParamName, store);
    HandleCalls(config, s, body, store, post, putError);
    OnlyNone(fetch.calls, PostCall);
    OnlyNone(fetch.calls, PutCall);
  }

  /** Once the cache holds a secret, an invocation keeps it, never asks the
      parameter store, and posts that secret as the `password`. */
  lemma CachedSecretReused(config: Config, s: State, body: RequestBody, store: ParameterStore,
                           post: Endpoint, putError: Option<string>)
    requires Truthy(s.sharedSecret)
    ensures var r := Handle(config, s, body, store, post, putError);
            r.state.sharedSecret == s.sharedSecret &&
            NoLookups(NewCalls(s, r)) && PostsCarry(NewCalls(s, r), s.sharedSecret.value)
  {
    HandleCalls(config, s, body, store, post, putError);
    if Truthy(config.tableName) && ReceiptDataOf(body).Some? {
      var receiptData := ReceiptDataOf(body).value;
      var verification := Verify(BuildRequest(receiptData, s.sharedSecret.value), post);
      assert forall c :: c in verification.calls ==> c.Post? && c.request.password == s.sharedSecret.value by {
        assert verification.calls == [verification.calls[0]] + verification.calls[1..];
      }
    }
  }

  // ---------------------------------------------------------------------
  // Verification
  // ---------------------------------------------------------------------

  /** Only posts, production's first and the sandbox's only after a 21007. */
  lemma VerifyPosts(request: VerificationRequest, post: Endpoint)
    ensures var verification := Verify(request, post);
            var production := post(ProductionUrl, request);
            Only(verification.calls, PostCall) == verification.calls &&
            verification.calls == [Post(ProductionUrl, request)] +
              (if production.Success? && production.value.status == StatusSandboxReceipt
               then [Post(SandboxUrl, request)] else [])
  {
    var verification := Verify(request, post);
    assert forall c :: c in verification.calls ==> KindOf(c) == PostCall by {
      assert verification.calls == [verification.calls[0]] + verification.calls[1..];
    }
    OnlyOfKind(verification.calls, PostCall);
  }

  /** The request posted carries the received `receipt-data`, the secret
      and `exclude-old-transactions = true`; it goes to production first
      and, only when production answers 21007, once more unchanged to the
      sandbox, so never more than twice. */
  lemma ProductionThenSandbox(config: Config, s: State, body: RequestBody, store: ParameterStore,
                              post: Endpoint, putError: Option<string>, receiptData: string, secret: string)
    requires Truthy(config.tableName) && ReceiptDataOf(body) == Some(receiptData)
    requires FetchSecret(s.sharedSecret, config.sharedSecretParamName, store).result == Success(secret)
    ensures var request := VerificationRequest(receiptData, secret, true);
            var retried := post(ProductionUrl, request).Success? &&
                           post(ProductionUrl, request).value.status == 21007;
            Only(NewCalls(s, Handle(config, s, body, store, post, putError)), PostCall) ==
              [Post(ProductionUrl, request)] + (if retried then [Post(SandboxUrl, request)] else [])
  {
    var fetch := FetchSecret(s.sharedSecret, config.sharedSecretParamName, store);
    HandleCalls(config, s, body, store, post, putError);
    VerifyAndWritePosts(config.tableName.value, receiptData, secret, post);
    OnlyAppend(fetch.calls, VerifyAndWriteCalls(config.tableName.value, receiptData, secret, post), PostCall);
    OnlyNone(fetch.calls, PostCall);
  }

  lemma VerifyAndWritePosts(tableName: string, receiptData: string, secret: string, post: Endpoint)
    ensures var request := BuildRequest(receiptData, secret);
            var production := post(ProductionUrl, request);
            Only(VerifyAndWriteCalls(tableName, receiptData, secret, post), PostCall) ==
              [Post(ProductionUrl, request)] +
              (if production.Success? && production.value.status == StatusSandboxReceipt
               then [Post(SandboxUrl, request)] else [])
  {
    var verification := Verify(BuildRequest(receiptData, secret), post);
    var writes := if verification.result.Success?
                  then WriteCalls(tableName, receiptData, verification.result.value) else [];
    OnlyAppend(verification.calls, writes, PostCall);
    OnlyNone(writes, PostCall);
    VerifyPosts(BuildRequest(receiptData, secret), post);
  }

  /** When the verification that counts (production's, or the sandbox's
      after a 21007) fails, the answer is 500 with its message and nothing
      is written. */
  lemma VerificationFailureIs500(config: Config, s: State, body: RequestBody, store: ParameterStore,
                                 post: Endpoint, putError: Option<string>, receiptData: string, secret: string,
                                 error: string)
    requires Truthy(config.tableName) && ReceiptDataOf(body) == Some(receiptData)
    requires FetchSecret(s.sharedSecret, config.sharedSecretParamName, store).result == Success(secret)
    requires Verify(BuildRequest(receiptData, secret), post).result == Failure(error)
    ensures var r := Handle(config, s, body, store, post, putError);
            r.response == ValidationFailed(error) && r.state.table == s.table &&
            Only(NewCalls(s, r), PutCall) == []
  {
    var fetch := FetchSecret(s.sharedSecret, config.sharedSecretParamName, store);
    var verification := Verify(BuildRequest(receiptData, secret), post);
    HandleCalls(config, s, body, store, post, putError);
    assert verification.calls + [] == verification.calls;
    OnlyAppend(fetch.calls, verification.calls, PutCall);
    OnlyNone(fetch.calls, PutCall);
    OnlyNone(verification.calls, PutCall);
  }

  // ---------------------------------------------------------------------
  // Interpretation and persistence
  // ---------------------------------------------------------------------

  /** The puts of an invocation whose verification succeeded with `reply`. */
  lemma PutsAfterVerification(config: Config, s: State, body: RequestBody, store: ParameterStore,
                              post: Endpoint, putError: Option<string>,
                              receiptData: string, secret: string, reply: VerificationResponse)
    requires Truthy(config.tableName) && ReceiptDataOf(body) == Some(receiptData)
    requires FetchSecret(s.sharedSecret, config.sharedSecretParamName, store).result == Success(secret)
    requires Verify(BuildRequest(receiptData, secret), post).result == Success(reply)
    ensures Only(NewCalls(s, Handle(config, s, body, store, post, putError)), PutCall) ==
              WriteCalls(config.tableName.value, receiptData, reply)
  {
    var fetch := FetchSecret(s.sharedSecret, config.sharedSecretParamName, store);
    var verification := Verify(BuildRequest(receiptData, secret), post);
    var writes := WriteCalls(config.tableName.value, receiptData, reply);
    HandleCalls(config, s, body, store, post, putError);
    assert NewCalls(s, Handle(config, s, body, store, post, putError)) == fetch.calls + (verification.calls + writes);
    PutsOfPhases(fetch.calls, verification.calls, writes);
  }

  /** A lookup phase and a post phase without puts, then puts only: the
      puts are the last phase. */
  lemma PutsOfPhases(lookups: seq<Call>, posts: seq<Call>, writes: seq<Call>)
    requires forall c :: c in lookups ==> c.GetParameter?
    requires forall c :: c in posts ==> c.Post?
    requires forall c :: c in writes ==> c.Put?
    ensures Only(lookups + (posts + writes), PutCall) == writes
  {
    OnlyAppend(lookups, posts + writes, PutCall);
    OnlyAppend(posts, writes, PutCall);
    OnlyNone(lookups, PutCall);
    OnlyNone(posts, PutCall);
    OnlyOfKind(writes, PutCall);
  }

  /** After a successful verification the handler writes exactly when the
      status is 0 and `in_app` is there and not empty; without a write the
      answer is 200 with the response as Apple sent it, whatever its status. */
  lemma WriteExactlyOnValidStatusWithTransactions(config: Config, s: State, body: RequestBody,
                                                  store: ParameterStore, post: Endpoint, putError: Option<string>,
                                                  receiptData: string, secret: string, reply: VerificationResponse)
    requires Truthy(config.tableName) && ReceiptDataOf(body) == Some(receiptData)
    requires FetchSecret(s.sharedSecret, config.sharedSecretParamName, store).result == Success(secret)
    requires Verify(BuildRequest(receiptData, secret), post).result == Success(reply)
    ensures (Only(NewCalls(s, Handle(config, s, body, store, post, putError)), PutCall) != [])
              <==> (reply.status == 0 && InAppOf(reply).Some? && |InAppOf(reply).value| > 0)
    ensures !(reply.status == 0 && InAppOf(reply).Some? && |InAppOf(reply).value| > 0) ==>
              var r := Handle(config, s, body, store, post, putError);
              r.response == HttpResponse(200, Verified(reply)) && r.state.table == s.table
  {
    PutsAfterVerification(config, s, body, store, post, putError, receiptData, secret, reply);
  }

  /** The one write: keyed (`receipt-data`, `transaction_id` of the LAST
      `in_app` element), with that element's fields only, and with the
      response after the pop spread into it.  It is the last call of the
      invocation.  The answer is 200 with that popped response, or 500 with
      the put's message when the put fails, and then the table is as it was. */
  lemma LatestTransactionWritten(config: Config, s: State, body: RequestBody, store: ParameterStore,
                                 post: Endpoint, putError: Option<string>,
                                 receiptData: string, secret: string, reply: VerificationResponse)
    requires Truthy(config.tableName) && ReceiptDataOf(body) == Some(receiptData)
    requires FetchSecret(s.sharedSecret, config.sharedSecretParamName, store).result == Success(secret)
    requires Verify(BuildRequest(receiptData, secret), post).result == Success(reply)
    requires reply.status == 0 && InAppOf(reply).Some? && |InAppOf(reply).value| > 0
    ensures var r := Handle(config, s, body, store, post, putError);
            var inApp := InAppOf(reply).value;
            var latest := inApp[|inApp| - 1];
            var popped := TakeLatest(reply).response;
            var item := Record(receiptData, latest.transactionId, latest.productId, latest.purchaseDate,
                               latest.expiresDate, latest.originalTransactionId, popped);
            InAppOf(popped) == Some(inApp[..|inApp| - 1]) &&
            item.Key() == (receiptData, latest.transactionId) &&
            Only(NewCalls(s, r), PutCall) == [Put(config.tableName.value, item)] &&
            NewCalls(s, r)[|NewCalls(s, r)| - 1] == Put(config.tableName.value, item) &&
            r.state.table == (if putError.None? then Upsert(s.table, item) else s.table) &&
            r.response == (if putError.None? then HttpResponse(200, Verified(popped))
                           else ValidationFailed(putError.value))
  {
    PutsAfterVerification(config, s, body, store, post, putError, receiptData, secret, reply);
    HandleCalls(config, s, body, store, post, putError);
  }

  /** A second put under the same key leaves one record, the later one. */
  lemma UpsertSameKeyOverwrites(table: map<Key, Record>, first: Record, second: Record)
    requires first.Key() == second.Key()
    ensures Upsert(Upsert(table, first), second) == Upsert(table, second)
    ensures |Upsert(Upsert(table, first), second)| == |Upsert(table, first)|
  {
  }

  /** The same request, met by the same outside world, twice in a row gets
      the same answer and leaves the table as the first time did. */
  lemma RepeatedRequestIsIdempotent(config: Config, s: State, body: RequestBody, store: ParameterStore,
                                    post: Endpoint, putError: Option<string>)
    ensures var first := Handle(config, s, body, store, post, putError);
            var second := Handle(config, first.state, body, store, post, putError);
            second.response == first.response && second.state.table == first.state.table
  {
    var first := Handle(config, s, body, store, post, putError);
    if Truthy(config.tableName) && ReceiptDataOf(body).Some? {
      var fetch := FetchSecret(s.sharedSecret, config.sharedSecretParamName, store);
      if fetch.result.Success? {
        assert FetchSecret(first.state.sharedSecret, config.sharedSecretParamName, store).result == fetch.result;
        var receiptData := ReceiptDataOf(body).value;
        var verification := Verify(BuildRequest(receiptData, fetch.result.value), post);
        if verification.result.Success? {
          var selection := TakeLatest(verification.result.value);
          if selection.latest.Some? && putError.None? {
            var item := MakeRecord(receiptData, selection.latest.value, selection.response);
            UpsertSameKeyOverwrites(s.table, item, item);
          }
        }
      }
    }
  }

  /** The example of a receipt with two transactions: the answer is 200
      with the response minus its last transaction, and the one record
      written is keyed ("abc123", "2") and holds transaction "2"'s fields
      and that popped response. */
  lemma TwoTransactionExample(config: Config, s: State, store: ParameterStore, post: Endpoint, secret: string)
    requires Truthy(config.tableName)
    requires FetchSecret(s.sharedSecret, config.sharedSecretParamName, store).result == Success(secret)
    requires post(ProductionUrl, VerificationRequest("abc123", secret, true)) ==
             Success(VerificationResponse(0, Some(ReceiptInfo(Some([Transaction("1", "monthly", "d1", "e1", "1"),
                                                                    Transaction("2", "yearly", "d2", "e2", "1")]), "")), ""))
    ensures var r := Handle(config, s, Some(Some("abc123")), store, post, None);
            var popped := VerificationResponse(0, Some(ReceiptInfo(
                            Some([Transaction("1", "monthly", "d1", "e1", "1")]), "")), "");
            r.response == HttpResponse(200, Verified(popped)) &&
            r.state.table == Upsert(s.table, Record("abc123", "2", "yearly", "d2", "e2", "1", popped))
  {
    var inApp := [Transaction("1", "monthly", "d1", "e1", "1"), Transaction("2", "yearly", "d2", "e2", "1")];
    assert inApp[..|inApp| - 1] == [Transaction("1", "monthly", "d1", "e1", "1")];
  }

  // ---------------------------------------------------------------------
  // The life of one process
  // ---------------------------------------------------------------------

  lemma SliceSplit(a: seq<Call>, b: seq<Call>, c: seq<Call>)
    requires a <= b <= c
    ensures c[|a|..] == b[|a|..] + c[|b|..]
  {
  }

  lemma RunCallsSplit(config: Config, s: State, invocations: seq<Invocation>)
    requires |invocations| > 0
    ensures var step := Step(config, s, invocations[0]);
            var r := Run(config, s, invocations);
            r.calls[|s.calls|..] == NewCalls(s, step) + r.calls[|step.state.calls|..]
  {
    var step := Step(config, s, invocations[0]);
    var r := Run(config, step.state, invocations[1..]);
    assert Run(config, s, invocations) == r;
    SliceSplit(s.calls, step.state.calls, r.calls);
  }

  /** Once the secret is cached, no later invocation of the process changes
      it, asks the parameter store again, or posts any other password. */
  lemma {:induction false} CachedSecretKeptForLife(config: Config, s: State, invocations: seq<Invocation>)
    requires Truthy(s.sharedSecret)
    ensures var r := Run(config, s, invocations);
            r.sharedSecret == s.sharedSecret &&
            NoLookups(r.calls[|s.calls|..]) && PostsCarry(r.calls[|s.calls|..], s.sharedSecret.value)
    decreases |invocations|
  {
    if |invocations| > 0 {
      var inv := invocations[0];
      var step := Step(config, s, inv);
      CachedSecretReused(config, s, inv.body, inv.store, inv.post, inv.putError);
      CachedSecretKeptForLife(config, step.state, invocations[1..]);
      RunCallsSplit(config, s, invocations);
    }
  }
}
