/** `AdminApi`: cache invalidation, health-check rotation, parked-account
    invoice generation and payment-transaction state repair. */
module AdminApi {
  import opened Wrappers
  import opened Multimap
  import opened Http
  import opened Java
  import opened Decimal
  import opened Text
  import opened ApiOptions
  import Names

  const CACHE_PATH := "/1.0/kb/admin/cache"
  const ACCOUNT_CACHE_PREFIX := "/1.0/kb/admin/cache/accounts/"
  const ACCOUNT_CACHE_TEMPLATE := ACCOUNT_CACHE_PREFIX + Placeholder("accountId")
  const TENANT_CACHE_PATH := "/1.0/kb/admin/cache/tenants"
  const HEALTHCHECK_PATH := "/1.0/kb/admin/healthcheck"
  const PARKED_INVOICES_PATH := "/1.0/kb/admin/invoices"
  const PAYMENTS_PREFIX := "/1.0/kb/admin/payments/"
  const TRANSACTIONS_INFIX := "/transactions/"
  const TRANSACTION_TEMPLATE := PAYMENTS_PREFIX + Placeholder("paymentId") + TRANSACTIONS_INFIX + Placeholder("paymentTransactionId")

  /** A UUID's text holds none of '{', '$' and '\'. */
  lemma UuidIsPlain(u: Uuid)
    ensures LiteralReplacement(u) && '{' !in u
  {
  }

  /** `invalidatesCache(cacheName, inputOptions)`: a DELETE with one
      `cacheName` pair added to the caller's parameters ("null" for a null
      name). */
  function InvalidatesCache(cacheName: Option<string>, opts: Options): (r: ApiRequest<()>)
    ensures r.verb == DELETE && r.path == CACHE_PATH && r.body.None?
    ensures forall p :: Contains(r.options.queryParams, p) <==>
      Contains(opts.queryParams, p) || p == ("cacheName", ValueOf(cacheName))
    ensures r.options.headers == opts.headers && r.options.followLocation == opts.followLocation
  {
    ApiRequest(DELETE, CACHE_PATH, None, WithQueryPairs(opts, {("cacheName", ValueOf(cacheName))}))
  }

  /** The account id fills the one placeholder of the account-cache
      template. */
  lemma AccountCachePath(id: Uuid)
    ensures Substitute(ACCOUNT_CACHE_TEMPLATE, "accountId", id) == ACCOUNT_CACHE_PREFIX + id
    ensures '{' !in ACCOUNT_CACHE_PREFIX + id
  {
    UuidIsPlain(id);
    SubstituteOnce(ACCOUNT_CACHE_PREFIX, "accountId", id, "");
    assert ACCOUNT_CACHE_TEMPLATE + "" == ACCOUNT_CACHE_TEMPLATE;
    assert ACCOUNT_CACHE_PREFIX + id + "" == ACCOUNT_CACHE_PREFIX + id;
  }

  /** `invalidatesCacheByAccount(accountId, inputOptions)`: the account id is
      required and fills the `{accountId}` placeholder. */
  function InvalidatesCacheByAccount(accountId: Option<Uuid>, opts: Options): (r: Result<ApiRequest<()>, Error>)
    ensures r.Success? <==> accountId.Some?
    ensures r.Failure? ==> r.error == NullPointer(MissingParameter("accountId", "invalidatesCacheByAccount"))
    ensures r.Success? ==> r.value.path == ACCOUNT_CACHE_PREFIX + accountId.value && '{' !in r.value.path
    ensures r.Success? ==> r.value.verb == DELETE && r.value.body.None? && r.value.options == opts
  {
    var id :- CheckNotNull(accountId, MissingParameter("accountId", "invalidatesCacheByAccount"));
    AccountCachePath(id);
    Success(ApiRequest(DELETE, Substitute(ACCOUNT_CACHE_TEMPLATE, "accountId", id), None, opts))
  }

  /** `invalidatesCacheByTenant(tenantApiKey, inputOptions)`. */
  function InvalidatesCacheByTenant(tenantApiKey: Option<string>, opts: Options): (r: ApiRequest<()>)
    ensures r.verb == DELETE && r.path == TENANT_CACHE_PATH && r.body.None?
    ensures forall p :: Contains(r.options.queryParams, p) <==>
      Contains(opts.queryParams, p) || p == ("tenantApiKey", ValueOf(tenantApiKey))
    ensures r.options.headers == opts.headers && r.options.followLocation == opts.followLocation
  {
    ApiRequest(DELETE, TENANT_CACHE_PATH, None, WithQueryPairs(opts, {("tenantApiKey", ValueOf(tenantApiKey))}))
  }

  /** `putInRotation(inputOptions)`: a bodiless POST that follows the
      location unless the caller said otherwise, with a JSON content type. */
  function PutInRotation(opts: Options): (r: ApiRequest<()>)
    ensures r.verb == POST && r.path == HEALTHCHECK_PATH && r.body.None?
    ensures r.options.followLocation == Some(opts.followLocation.GetOr(true))
    ensures Names.HTTP_HEADER_CONTENT_TYPE in r.options.headers && r.options.headers[Names.HTTP_HEADER_CONTENT_TYPE] == APPLICATION_JSON
    ensures r.options.headers.Keys == opts.headers.Keys + {Names.HTTP_HEADER_CONTENT_TYPE}
    ensures r.options.headers == opts.headers[Names.HTTP_HEADER_CONTENT_TYPE := APPLICATION_JSON]
    ensures r.options.queryParams == opts.queryParams
  {
    ApiRequest(POST, HEALTHCHECK_PATH, None, WithHeader(FollowLocationOrTrue(opts), Names.HTTP_HEADER_CONTENT_TYPE, APPLICATION_JSON))
  }

  /** `putOutOfRotation(inputOptions)`: a DELETE with the caller's options
      as they are. */
  function PutOutOfRotation(opts: Options): (r: ApiRequest<()>)
    ensures r.verb == DELETE && r.path == HEALTHCHECK_PATH && r.body.None? && r.options == opts
  {
    ApiRequest(DELETE, HEALTHCHECK_PATH, None, opts)
  }

  /** `triggerInvoiceGenerationForParkedAccounts(offset, limit,
      inputOptions)`: offset and limit are added, the location is followed
      by default, and both content type and accept are JSON. */
  function TriggerInvoiceGenerationForParkedAccounts(offset: Option<Int64>, limit: Option<Int64>, opts: Options): (r: ApiRequest<()>)
    ensures r.verb == POST && r.path == PARKED_INVOICES_PATH && r.body.None?
    ensures r.options.followLocation == Some(opts.followLocation.GetOr(true))
    ensures forall p :: Contains(r.options.queryParams, p) <==>
      Contains(opts.queryParams, p) || p == ("offset", LongValueOf(offset)) || p == ("limit", LongValueOf(limit))
    ensures Names.HTTP_HEADER_CONTENT_TYPE in r.options.headers && r.options.headers[Names.HTTP_HEADER_CONTENT_TYPE] == APPLICATION_JSON
    ensures Names.HTTP_HEADER_ACCEPT in r.options.headers && r.options.headers[Names.HTTP_HEADER_ACCEPT] == APPLICATION_JSON
    ensures r.options.headers.Keys == opts.headers.Keys + {Names.HTTP_HEADER_CONTENT_TYPE, Names.HTTP_HEADER_ACCEPT}
    ensures r.options.headers == opts.headers[Names.HTTP_HEADER_CONTENT_TYPE := APPLICATION_JSON][Names.HTTP_HEADER_ACCEPT := APPLICATION_JSON]
  {
    var withQuery := WithQueryPairs(FollowLocationOrTrue(opts), {("offset", LongValueOf(offset)), ("limit", LongValueOf(limit))});
    var withType := WithHeader(withQuery, Names.HTTP_HEADER_CONTENT_TYPE, APPLICATION_JSON);
    ApiRequest(POST, PARKED_INVOICES_PATH, None, WithHeader(withType, Names.HTTP_HEADER_ACCEPT, APPLICATION_JSON))
  }

  /** `{paymentTransactionId}` does not start with `{paymentId}`. */
  lemma PlaceholdersDiffer()
    ensures !(Placeholder("paymentId") <= Placeholder("paymentTransactionId"))
  {
    assert Placeholder("paymentId")[8] != Placeholder("paymentTransactionId")[8];
  }

  /** Both placeholders of the transaction template are replaced, each by
      its own id. */
  lemma TransactionPath(paymentId: Uuid, transactionId: Uuid)
    ensures Substitute(Substitute(TRANSACTION_TEMPLATE, "paymentId", paymentId), "paymentTransactionId", transactionId)
         == PAYMENTS_PREFIX + paymentId + TRANSACTIONS_INFIX + transactionId
  {
    UuidIsPlain(paymentId);
    UuidIsPlain(transactionId);
    PlaceholdersDiffer();
    SubstituteFirstOfTwo(PAYMENTS_PREFIX, "paymentId", paymentId, TRANSACTIONS_INFIX, "paymentTransactionId");
    var prefix := PAYMENTS_PREFIX + paymentId + TRANSACTIONS_INFIX;
    assert PAYMENTS_PREFIX + paymentId + TRANSACTIONS_INFIX + Placeholder("paymentTransactionId")
        == prefix + Placeholder("paymentTransactionId") + "";
    SubstituteOnce(prefix, "paymentTransactionId", transactionId, "");
  }

  /** The request `updatePaymentTransactionState` builds once its
      arguments are checked: two placeholders, JSON in and out. */
  function TransactionStateRequest<B>(body: B, paymentId: Uuid, transactionId: Uuid, opts: Options): (r: ApiRequest<B>)
    ensures r.verb == PUT && r.body == Some(body)
    ensures r.path == PAYMENTS_PREFIX + paymentId + TRANSACTIONS_INFIX + transactionId
    ensures r.options.headers.Keys == opts.headers.Keys + {Names.HTTP_HEADER_CONTENT_TYPE, Names.HTTP_HEADER_ACCEPT}
    ensures r.options.headers == opts.headers[Names.HTTP_HEADER_CONTENT_TYPE := APPLICATION_JSON][Names.HTTP_HEADER_ACCEPT := APPLICATION_JSON]
    ensures r.options.headers[Names.HTTP_HEADER_CONTENT_TYPE] == APPLICATION_JSON
    ensures r.options.headers[Names.HTTP_HEADER_ACCEPT] == APPLICATION_JSON
    ensures r.options.queryParams == opts.queryParams && r.options.followLocation == opts.followLocation
  {
    TransactionPath(paymentId, transactionId);
    UuidIsPlain(paymentId);
    UuidIsPlain(transactionId);
    var path := Substitute(Substitute(TRANSACTION_TEMPLATE, "paymentId", paymentId), "paymentTransactionId", transactionId);
    var withType := WithHeader(opts, Names.HTTP_HEADER_CONTENT_TYPE, APPLICATION_JSON);
    ApiRequest(PUT, path, Some(body), WithHeader(withType, Names.HTTP_HEADER_ACCEPT, APPLICATION_JSON))
  }

  /** `updatePaymentTransactionState(body, paymentId, paymentTransactionId,
      inputOptions)`: three required arguments, checked in order. */
  function UpdatePaymentTransactionState<B>(body: Option<B>, paymentId: Option<Uuid>, transactionId: Option<Uuid>, opts: Options)
    : (r: Result<ApiRequest<B>, Error>)
    ensures r.Success? <==> body.Some? && paymentId.Some? && transactionId.Some?
    ensures body.None? ==> r == Failure(NullPointer(MissingParameter("body", "updatePaymentTransactionState")))
    ensures body.Some? && paymentId.None? ==>
      r == Failure(NullPointer(MissingParameter("paymentId", "updatePaymentTransactionState")))
    ensures body.Some? && paymentId.Some? && transactionId.None? ==>
      r == Failure(NullPointer(MissingParameter("paymentTransactionId", "updatePaymentTransactionState")))
    ensures r.Success? ==> r.value == TransactionStateRequest(body.value, paymentId.value, transactionId.value, opts)
  {
    var b :- CheckNotNull(body, MissingParameter("body", "updatePaymentTransactionState"));
    var pid :- CheckNotNull(paymentId, MissingParameter("paymentId", "updatePaymentTransactionState"));
    var tid :- CheckNotNull(transactionId, MissingParameter("paymentTransactionId", "updatePaymentTransactionState"));
    Success(TransactionStateRequest(b, pid, tid, opts))
  }
}
