/** The receipt-validation Lambda as the code runs it: the module-level
    cached secret is a field that `GetSharedSecret` fills at most once,
    the handler's steps reassign their locals and pop `in_app`, and the
    DynamoDB table and the log of outside calls are fields it updates.
    Each method is proved equal to its function in ReceiptModel. */
module ReceiptHandler {
  import opened Wrappers
  import opened ReceiptModel

  class ReceiptValidator {
    /** `process.env.TABLE_NAME`, read once when the module loads. */
    const tableName: Option<string>
    /** `process.env.APPLE_SHARED_SECRET_PARAM_NAME`, read once when the module loads. */
    const sharedSecretParamName: Option<string>

    /** The module-level `sharedSecret`. */
    var sharedSecret: Option<string>
    /** Every outside call made so far, oldest first. */
    var calls: seq<Call>
    /** The `Receipts` table. */
    var table: map<Key, Record>

    /** The environment, as the model's `Config`. */
    ghost function Env(): Config
      reads this
    {
      Config(tableName, sharedSecretParamName)
    }

    /** The process's state, as the model's `State`. */
    ghost function Abstract(): State
      reads this
    {
      State(sharedSecret, calls, table)
    }

    ghost predicate Valid()
      reads this
    {
      ValidState(Abstract())
    }

    /** A fresh process: nothing cached and nothing called yet, over a
        table that already exists. */
    constructor (tableName: Option<string>, sharedSecretParamName: Option<string>, table: map<Key, Record>)
      requires KeyedTable(table)
      ensures Valid()
      ensures this.tableName == tableName && this.sharedSecretParamName == sharedSecretParamName
      ensures sharedSecret == None && calls == [] && this.table == table
    {
      this.tableName := tableName;
      this.sharedSecretParamName := sharedSecretParamName;
      sharedSecret := None;
      calls := [];
      this.table := table;
    }

    /** `getSharedSecret`. */
    method GetSharedSecret(store: ParameterStore) returns (secret: Result<string, string>)
      requires Valid()
      modifies this`sharedSecret, this`calls
      ensures Valid()
      ensures var fetch := FetchSecret(old(sharedSecret), sharedSecretParamName, store);
              secret == fetch.result && sharedSecret == fetch.cache && calls == old(calls) + fetch.calls
    {
      if Truthy(sharedSecret) {
        return Success(sharedSecret.value);
      }
      if !Truthy(sharedSecretParamName) {
        return Failure(ParamNameMissingError);
      }
      var name := sharedSecretParamName.value;
      calls := calls + [GetParameter(name, true)];
      var response := store(name);
      if response.Failure? {
        return Failure(response.error);
      }
      if !Truthy(response.value) {
        return Failure(SecretMissingError);
      }
      sharedSecret := response.value;
      return Success(sharedSecret.value);
    }

    /** Lines 69-74: post to production and, on status 21007, post the
        same request to the sandbox; a post that throws ends it. */
    method VerifyReceipt(requestBody: VerificationRequest, post: Endpoint)
      returns (reply: Result<VerificationResponse, string>)
      modifies this`calls
      ensures reply == Verify(requestBody, post).result
      ensures calls == old(calls) + Verify(requestBody, post).calls
    {
      reply := post(ProductionUrl, requestBody);
      calls := calls + [Post(ProductionUrl, requestBody)];
      if reply.Success? && reply.value.status == StatusSandboxReceipt {
        reply := post(SandboxUrl, requestBody);
        calls := calls + [Post(SandboxUrl, requestBody)];
      }
    }

    /** `handler`: one invocation against the outside world given by
        `store`, `post` and `putError` (the message the put rejects with,
        if it does). */
    method Handler(body: RequestBody, store: ParameterStore, post: Endpoint, putError: Option<string>)
      returns (response: HttpResponse)
      requires Valid()
      modifies this
      ensures Valid()
      ensures var expected := Handle(Env(), old(Abstract()), body, store, post, putError);
              response == expected.response && sharedSecret == expected.state.sharedSecret &&
              calls == expected.state.calls && table == expected.state.table
    {
      if !Truthy(tableName) {
        return TableNameMissing;
      }

      var receiptData: string;
      match body {
        case None =>
          return InvalidBody;
        case Some(field) =>
          if !Truthy(field) {
            return InvalidBody;
          }
          receiptData := field.value;
      }

      response := ValidateReceipt(receiptData, store, post, putError);
    }

    /** Lines 61-109, the `try` block of `handler`: fetch the secret,
        verify, pop the latest transaction, put it; anything thrown gives
        a 500. */
    method ValidateReceipt(receiptData: string, store: ParameterStore, post: Endpoint, putError: Option<string>)
      returns (response: HttpResponse)
      requires Valid() && Truthy(tableName)
      modifies this
      ensures Valid()
      ensures var expected := Validate(tableName.value, sharedSecretParamName, receiptData,
                                       old(sharedSecret), old(table), store, post, putError);
              response == expected.response && sharedSecret == expected.cache &&
              calls == old(calls) + expected.calls && table == expected.table
    {
      var secret := GetSharedSecret(store);
      ghost var fetch := FetchSecret(old(sharedSecret), sharedSecretParamName, store);
      if secret.Failure? {
        return ValidationFailed(secret.error);
      }
      var requestBody := VerificationRequest(receiptData, secret.value, true);
      var reply := VerifyReceipt(requestBody, post);
      ghost var done := fetch.calls + Verify(requestBody, post).calls;
      assert calls == old(calls) + done;
      response := StoreLatest(receiptData, reply, putError);
      ghost var rest := Conclude(tableName.value, receiptData, sharedSecret, old(table), reply, putError);
      assert calls == old(calls) + (done + rest.calls);
    }

    /** Lines 76-109 after the verification: a failed verification gives a
        500; on status 0 the latest `in_app` transaction is popped and put,
        and a rejected put gives a 500; otherwise the answer is 200 with the
        (possibly popped) response. */
    method StoreLatest(receiptData: string, reply: Result<VerificationResponse, string>, putError: Option<string>)
      returns (response: HttpResponse)
      requires Valid() && Truthy(tableName)
      modifies this`calls, this`table
      ensures Valid()
      ensures var expected := Conclude(tableName.value, receiptData, sharedSecret, old(table), reply, putError);
              response == expected.response && calls == old(calls) + expected.calls && table == expected.table
    {
      if reply.Failure? {
        return ValidationFailed(reply.error);
      }

      var validationResponse := reply.value;
      if validationResponse.status == StatusValid && validationResponse.receipt.Some?
         && validationResponse.receipt.value.inApp.Some?
      {
        var latestReceipt, rest := Pop(validationResponse.receipt.value.inApp.value);
        var receipt := validationResponse.receipt.value.(inApp := Some(rest));
        validationResponse := validationResponse.(receipt := Some(receipt));
        if latestReceipt.Some? {
          var latest := latestReceipt.value;
          var item := Record(receiptData, latest.transactionId, latest.productId, latest.purchaseDate,
                             latest.expiresDate, latest.originalTransactionId, validationResponse);
          calls := calls + [Put(tableName.value, item)];
          if putError.Some? {
            return ValidationFailed(putError.value);
          }
          table := table[item.Key() := item];
        }
      }

      return HttpResponse(200, Verified(validationResponse));
    }
  }

  /** `Array.prototype.pop` on `in_app`: the last element, if any, and
      what is left of the array afterwards. */
  method Pop(inApp: seq<Transaction>) returns (last: Option<Transaction>, rest: seq<Transaction>)
    ensures |inApp| == 0 ==> last == None && rest == inApp
    ensures |inApp| > 0 ==> last == Some(inApp[|inApp| - 1]) && rest == inApp[..|inApp| - 1]
    ensures rest + (if last.Some? then [last.value] else []) == inApp
  {
    if |inApp| == 0 {
      return None, inApp;
    }
    last := Some(inApp[|inApp| - 1]);
    rest := inApp[..|inApp| - 1];
  }
}
