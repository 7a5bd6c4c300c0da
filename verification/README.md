# Kill Bill Java client: request construction

This project models how the Kill Bill Java client turns a method call into an
HTTP request, and proves properties of that model in Dafny. It covers
`KillBillClient`, the generated `AdminApi`, `CustomFieldApi` and `ExportApi`
classes, and the generated `Credit`, `UsagePrice` and `GatewayNotification`
models. The model works on values only: a client method becomes a function
from its arguments to the request it hands to the transport, or to the
exception it throws first.

- `Call<B>` is a call into `KillBillHttpClient`'s multimap entry points. It
  holds the verb, path, body, query multimap, whether the location is
  followed, and an explicit timeout.
- `ApiRequest<B>` is a request from a generated `*Api` class. Its options
  carry the query multimap, the headers and the optional followLocation.
- A Java `null` is `Option.None`. A thrown `NullPointerException` or
  `IllegalArgumentException` is `Result.Failure`, carrying its message.
- A Guava `ImmutableMultimap` is `Listed` (ordered, repetitions kept). A
  `HashMultimap` is `Hashed` (a set of pairs).
- `String.valueOf` of a null reference writes "null". Dereferencing a null
  reference throws a `NullPointerException` without a message.
- The generated models are immutable values. A setter returns the updated
  object, which is the object the Java setter returns.

Modules, one per file, follow the source:

- `Wrappers` and `Java` hold Option/Result and the Java values.
- `Names` holds the constants.
- `Multimap`, `Http`, `Text` and `Decimal` are the building blocks.
- `Audit` holds `paramsWithAudit` and the plugin properties.
- `Subscriptions`, `Charges`, `Payments`, `CustomFields` and `Pagination`
  are parts of `KillBillClient`.
- `ApiOptions` holds the RequestOptions builder and URL templates.
- `AdminApi`, `CustomFieldApi` and `ExportApi` are the generated API classes.
- `CreditModel`, `UsagePriceModel` and `GatewayNotificationModel` are the
  generated models.

## Model

| member | source | states |
|---|---|---|
| `Audit.AuditParams` | src/main/java/org/killbill/billing/client/KillBillClient.java:1481-1485 | The three audit pairs, in order, exactly when none is null. Otherwise the Guava null-entry exception for the first null one. |
| `Audit.ParamsWithAudit` | src/main/java/org/killbill/billing/client/KillBillClient.java:1474-1479 | A `HashMultimap` whose pairs are exactly the caller's pairs plus the audit pairs. It fails exactly when an audit value is null. |
| `Audit.AuditValuesExact` | src/main/java/org/killbill/billing/client/KillBillClient.java:1474-1485 | When the caller uses no audit key, each audit key holds exactly its one value. |
| `Audit.StorePluginProperties` | src/main/java/org/killbill/billing/client/KillBillClient.java:1487-1491 | Existing params are kept. Every map key contributes `enc(key)=enc(value)` under `pluginProperty`. Nothing else is added. |
| `Audit.PluginPropertyInjective` | src/main/java/org/killbill/billing/client/KillBillClient.java:1489 | With an injective encoder that never emits '=', distinct keys give distinct pairs. |
| `Audit.PluginPropertyCount` | src/main/java/org/killbill/billing/client/KillBillClient.java:1488-1490 | Under the same encoder assumptions, there are exactly as many `pluginProperty` pairs as map keys. |
| `Multimap.PutPresentContents` | src/main/java/org/killbill/billing/client/KillBillClient.java:346-351 | With distinct keys, conditional puts leave each key holding its value iff that value is non-null, and no other key. |
| `Subscriptions.HttpTimeout` | src/main/java/org/killbill/billing/client/KillBillClient.java:354 | The HTTP timeout is at least the default and at least the requested timeout, and it equals one of the two. |
| `Subscriptions.SubscriptionQuery` | src/main/java/org/killbill/billing/client/KillBillClient.java:375-384 | `callCompletion` is "true" iff the timeout is positive. The timeout is sent in decimal. Each optional key holds its argument iff non-null. The audit pairs are present and no other key is. |
| `Subscriptions.AllPutsParams` | src/main/java/org/killbill/billing/client/KillBillClient.java:346-351 | The flags, the optional parameters and the audit pairs, put in that order with pairwise distinct keys, give completion iff the timeout is positive, the decimal timeout, each optional key iff its argument is non-null, each audit value, and no other key. |
| `Subscriptions.QueryContents` | src/main/java/org/killbill/billing/client/KillBillClient.java:406-418 | The merged puts and audit pairs satisfy the subscription-query description. |
| `Subscriptions.CreateSubscription` | src/main/java/org/killbill/billing/client/KillBillClient.java:338-357 | Six fields are null-checked in order. Each missing field gives its own message, `Subscription#<field> cannot be null`, when the earlier fields are present. With all six present, a null audit value gives the audit error. On success: a POST that follows the location, the HTTP timeout is max(10, timeoutSec), and the query holds the flags, the optional requestedDate and the audit pairs. |
| `Subscriptions.CreateSubscriptionDefaults` | src/main/java/org/killbill/billing/client/KillBillClient.java:330-336 | The short overloads pass timeout -1 and no date. So completion is "false", the timeout is "-1", there is no requestedDate, and the HTTP timeout is the default. |
| `Subscriptions.UpdateSubscription` | src/main/java/org/killbill/billing/client/KillBillClient.java:367-387 | Four ordered null checks: subscriptionId, productName, billingPeriod and priceList, each with its own message when the earlier ones pass. With all four present, a null audit value gives the audit error. On success: a PUT to the subscription's path, with the flags, optional date and billing policy, and the audit pairs. |
| `Subscriptions.UpdateSubscriptionWithPolicy` | src/main/java/org/killbill/billing/client/KillBillClient.java:363-365 | As written, completion is always "false", whatever timeout is passed. |
| `Subscriptions.UpdateSubscriptionWithPolicyIgnoresTimeout` | src/main/java/org/killbill/billing/client/KillBillClient.java:363-365 | Any timeout gives the same call as -1. |
| `Subscriptions.UpdateSubscriptionWithPolicyDropsTimeout` | src/main/java/org/killbill/billing/client/KillBillClient.java:364 | A 30-second request yields `callCompletion` "false". |
| `Subscriptions.UpdateSubscriptionWithPolicyCorrected` | src/main/java/org/killbill/billing/client/KillBillClient.java:363-365 | The intended overload: completion iff timeout > 0, the timeout is sent, and the billing policy iff non-null. |
| `Subscriptions.CancelSubscription` | src/main/java/org/killbill/billing/client/KillBillClient.java:389-421 | No null checks. A DELETE whose path writes a null id as "null", with the flags, three optional keys and the audit pairs. |
| `Charges.CheckCharge` | src/main/java/org/killbill/billing/client/KillBillClient.java:583-585 | Account id, amount and currency are checked in that order with their messages. Success yields the account. |
| `Charges.AccountsOfNamed` | src/main/java/org/killbill/billing/client/KillBillClient.java:587-590 | An account is a grouping key iff some charge names it. |
| `Charges.ChargesOf` | src/main/java/org/killbill/billing/client/KillBillClient.java:587-590 | An account's list holds only its own charges from the input, and is non-empty iff the account is named. |
| `Charges.AppendCharge` | src/main/java/org/killbill/billing/client/KillBillClient.java:590 | Appending a charge extends its own account's list only. |
| `Charges.FirstInvalid` | src/main/java/org/killbill/billing/client/KillBillClient.java:582-586 | The index of the first charge that fails its checks: every earlier charge is valid, and it equals the list length exactly when all charges are valid. |
| `Charges.GroupByAccount` | src/main/java/org/killbill/billing/client/KillBillClient.java:581-591 | Succeeds iff every charge is valid. Otherwise it fails with the first failing check. The map's keys are the named accounts, each holding its charges in input order. |
| `Charges.ChargeQuery` | src/main/java/org/killbill/billing/client/KillBillClient.java:605-610 | requestedDate and autoPay are dereferenced first (NPE without a message), then the audit pairs. The entries are exactly requestedDate, payInvoice and the audit pairs. |
| `Charges.NoAccountsNoCharges` | src/main/java/org/killbill/billing/client/KillBillClient.java:594 | Valid charges enumerate no account iff there are no charges. |
| `Charges.ChargeRequests` | src/main/java/org/killbill/billing/client/KillBillClient.java:580-596 | It succeeds iff every charge is valid and, when there is one, the date, autoPay and audit are present. Otherwise it returns the first error: the first invalid charge's message, then the messageless NPE for a null date or autoPay, then the audit error. There is one POST per account in enumeration order, carrying exactly that account's charges. |
| `Charges.CreateExternalCharges` | src/main/java/org/killbill/billing/client/KillBillClient.java:580-600 | The same success condition and errors as the requests. On success it returns the server's answers to the per-account requests, concatenated in request order. With no charges it returns an empty list. |
| `Charges.Created` | src/main/java/org/killbill/billing/client/KillBillClient.java:593-599 | The concatenated answers begin with the first request's answer. Every request's answer is contained in the whole, counted with multiplicity. |
| `Charges.CreatedEchoIsBodies` | src/main/java/org/killbill/billing/client/KillBillClient.java:593-599 | A server that answers each request with its body returns the per-account bodies in enumeration order. |
| `Charges.EchoCreatesEveryCharge` | src/main/java/org/killbill/billing/client/KillBillClient.java:580-599 | A server that answers each request with its body returns every charge exactly once. |
| `Charges.PostPerAccount` | src/main/java/org/killbill/billing/client/KillBillClient.java:594-597 | One request per enumerated account, with that account's group as its body. |
| `Charges.ChargesArePartitioned` | src/main/java/org/killbill/billing/client/KillBillClient.java:581-597 | The request bodies together are a permutation of the input charges. |
| `Charges.CreateExternalCharge` | src/main/java/org/killbill/billing/client/KillBillClient.java:575-578 | A null charge fails with an NPE without a message, as `ImmutableList.of` does. Otherwise the one-charge case returns null iff the server answers with nothing, and else the first answered charge. |
| `Payments.CheckTransaction` | src/main/java/org/killbill/billing/client/KillBillClient.java:850-858 | Checks, in order: the account id, then the transaction type, which must be AUTHORIZE, CREDIT or PURCHASE (IllegalArgument otherwise), then the amount, then the currency. |
| `Payments.CreateDirectPayment` | src/main/java/org/killbill/billing/client/KillBillClient.java:849-874 | A POST that follows the location, whose query is exactly: the payment method if given, the plugin properties and the audit pairs. |
| `Payments.CreateDirectPaymentDefaultMethod` | src/main/java/org/killbill/billing/client/KillBillClient.java:841-843 | Without a payment method, no `paymentMethodId` is sent. |
| `Payments.CreateDirectPaymentNoProperties` | src/main/java/org/killbill/billing/client/KillBillClient.java:845-847 | Without properties, no `pluginProperty` is sent. |
| `Payments.PaymentMethodValue` | src/main/java/org/killbill/billing/client/KillBillClient.java:863-865 | `paymentMethodId` holds the method iff one was given. |
| `Payments.CheckAdjustments` | src/main/java/org/killbill/billing/client/KillBillClient.java:1024-1028 | Succeeds iff every adjustment is present and has an invoice item id. A null element throws an NPE without a message. A missing id throws with the source's message. The first rejected element, `FirstBadAdjustment`, decides which. |
| `Payments.FirstBadAdjustment` | src/main/java/org/killbill/billing/client/KillBillClient.java:1025-1027 | The index of the first adjustment the loop rejects: every earlier one is present with an id, and it equals the list length iff all are accepted. |
| `Payments.CheckAdjustmentsAppend` | src/main/java/org/killbill/billing/client/KillBillClient.java:1025-1027 | One more adjustment: an already rejected list keeps its error, and an accepted list is extended by the new element's own check. |
| `Payments.CreateRefund` | src/main/java/org/killbill/billing/client/KillBillClient.java:1019-1035 | Ordered checks: the payment id, then the adjustments, then the audit values, each with its own error. The query is exactly the three audit pairs in order. The refund is posted to its payment's refunds path. |
| `CustomFields.JoinIds` | src/main/java/org/killbill/billing/client/KillBillClient.java:1364 | The comma join of the ids. A null id throws an NPE without a message. |
| `CustomFields.DeleteAccountCustomFields` | src/main/java/org/killbill/billing/client/KillBillClient.java:1359-1372 | Null ids: no `customFieldList`. Otherwise one value, the comma-joined ids. The audit pairs are always sent, and no other key appears. A null id fails with an NPE without a message. Once the ids are accepted, a null audit value gives the audit error. |
| `CustomFields.DeleteAccountCustomField` | src/main/java/org/killbill/billing/client/KillBillClient.java:1351-1353 | It succeeds iff the id and the audit values are present. A null id fails with an NPE without a message. On success it is a DELETE of the account's custom-fields path, whose query is exactly `customFieldList=id` plus the three audit pairs and nothing else. |
| `CustomFields.DeleteAllAccountCustomFields` | src/main/java/org/killbill/billing/client/KillBillClient.java:1355-1357 | No `customFieldList` is sent, so every field is deleted. |
| `CustomFields.CustomFieldListRoundTrip` | src/main/java/org/killbill/billing/client/KillBillClient.java:1362-1364 | Splitting the joined list at commas gives back the ids, for a non-empty list. |
| `CustomFields.EmptyIdList` | src/main/java/org/killbill/billing/client/KillBillClient.java:1362-1364 | An empty, non-null list sends `customFieldList` with the empty value, which splits to one empty id rather than to none. |
| `Decimal.IntToStringRoundTrip` | src/main/java/org/killbill/billing/client/KillBillClient.java:348 | The decimal timeout parses back to the integer. |
| `Decimal.LongValueOf` | src/main/java/org/killbill/billing/client/KillBillClient.java:123-124 | `String.valueOf(Long)` gives "null" or a text that parses back to the number. |
| `Pagination.PageParams` | src/main/java/org/killbill/billing/client/KillBillClient.java:123-125 | The offset, limit and audit pairs, in that order. A null level throws an NPE without a message. |
| `Pagination.PageParamsValues` | src/main/java/org/killbill/billing/client/KillBillClient.java:120-128 | The three paging pairs give each of offset, limit and audit exactly its one value. |
| `Pagination.InvoicesValues` | src/main/java/org/killbill/billing/client/KillBillClient.java:446-451 | The invoice listing's four pairs give offset, limit, audit and `withItems` exactly one value each. |
| `Pagination.UniqueKeyValue` | src/main/java/org/killbill/billing/client/KillBillClient.java:448-451 | A key that no other pair of an `ImmutableMultimap` carries holds exactly its one value. |
| `Pagination.GetPage` | src/main/java/org/killbill/billing/client/KillBillClient.java:120-128 | A GET of the resource's pagination path. Every resource sends exactly one offset, one limit and the audit level. For all but invoices the query is exactly the three paging pairs in order. For invoices the call is `getInvoices(true, …)`, which adds `withItems=true`. |
| `Pagination.GetInvoices` | src/main/java/org/killbill/billing/client/KillBillClient.java:445-454 | Four ordered pairs, with `withItems` third. |
| `Pagination.GetFirstPage` | src/main/java/org/killbill/billing/client/KillBillClient.java:112-114 | For every resource, the no-argument listing sends offset 0, limit 100 and audit NONE. Apart from invoices, these three pairs are the whole query, in order. |
| `Pagination.GetPageWithoutAudit` | src/main/java/org/killbill/billing/client/KillBillClient.java:116-118 | For every resource, the two-argument listing cannot fail and sends the given offset and limit with audit NONE. |
| `Pagination.Search` | src/main/java/org/killbill/billing/client/KillBillClient.java:163-171 | Fails iff the level is null. Invoices and payments send the paging pairs. The other six send an empty query. |
| `Pagination.SearchIgnoresPaging` | src/main/java/org/killbill/billing/client/KillBillClient.java:166-170 | For the six, offset, limit and level change nothing. |
| `Pagination.SearchDropsOffset` | src/main/java/org/killbill/billing/client/KillBillClient.java:170 | A search of accounts at offset 40 sends no offset. |
| `Pagination.SearchCorrected` | src/main/java/org/killbill/billing/client/KillBillClient.java:166-168 | The intended searches send each of offset, limit and level. |
| `Pagination.SearchCorrectedAgrees` | src/main/java/org/killbill/billing/client/KillBillClient.java:519-527 | The corrected searches agree with the invoice and payment searches, and page like the listings. |
| `Pagination.SearchPagesLikeListing` | src/main/java/org/killbill/billing/client/KillBillClient.java:674-682 | Where a search sends its query, it is the listing's query. |
| `Pagination.SearchFirstPage` | src/main/java/org/killbill/billing/client/KillBillClient.java:155-157 | The one-argument search always succeeds, on the encoded-key path. |
| `ApiOptions.WithQueryPairs` | src/main/java/org/killbill/billing/client/api/gen/CustomFieldApi.java:60-66 | The caller's query pairs plus the new ones, in a set multimap. Headers and followLocation are unchanged. |
| `ApiOptions.WithHeader` | src/main/java/org/killbill/billing/client/api/gen/CustomFieldApi.java:67 | Sets one header and keeps all the others. |
| `ApiOptions.WithHeaderOverrides` | src/main/java/org/killbill/billing/client/api/gen/AdminApi.java:132-133 | Setting a header twice keeps the last value. |
| `ApiOptions.FollowLocationOrTrue` | src/main/java/org/killbill/billing/client/api/gen/AdminApi.java:101 | The caller's followLocation, or true when none was given. |
| `ApiOptions.FollowLocationOrTrueIdempotent` | src/main/java/org/killbill/billing/client/api/gen/AdminApi.java:101 | Defaulting twice is defaulting once. |
| `ApiOptions.SubstituteOnce` | src/main/java/org/killbill/billing/client/api/gen/AdminApi.java:71-72 | `prefix{name}suffix` becomes prefix + value + suffix. |
| `ApiOptions.SubstituteFirstOfTwo` | src/main/java/org/killbill/billing/client/api/gen/AdminApi.java:145 | Substituting the first placeholder leaves the second intact. |
| `AdminApi.InvalidatesCache` | src/main/java/org/killbill/billing/client/api/gen/AdminApi.java:54-66 | A DELETE adding exactly the pair `cacheName=String.valueOf(name)`. |
| `AdminApi.InvalidatesCacheByAccount` | src/main/java/org/killbill/billing/client/api/gen/AdminApi.java:68-79 | The account id is required, with the generated message. The path is the prefix plus the id, with no placeholder left. The options are unchanged. |
| `AdminApi.InvalidatesCacheByTenant` | src/main/java/org/killbill/billing/client/api/gen/AdminApi.java:81-93 | A DELETE adding exactly `tenantApiKey`. |
| `AdminApi.PutInRotation` | src/main/java/org/killbill/billing/client/api/gen/AdminApi.java:95-107 | A POST that follows the location unless the caller said otherwise, with the caller's query, and headers that are exactly the caller's with Content-Type set to JSON. |
| `AdminApi.PutOutOfRotation` | src/main/java/org/killbill/billing/client/api/gen/AdminApi.java:109-118 | A DELETE with the caller's options untouched. |
| `AdminApi.TriggerInvoiceGenerationForParkedAccounts` | src/main/java/org/killbill/billing/client/api/gen/AdminApi.java:120-137 | Offset and limit are added, the location is followed by default, and the headers are exactly the caller's with Content-Type and Accept set to JSON. |
| `AdminApi.TransactionPath` | src/main/java/org/killbill/billing/client/api/gen/AdminApi.java:144-146 | Each placeholder is replaced by its own id. |
| `AdminApi.TransactionStateRequest` | src/main/java/org/killbill/billing/client/api/gen/AdminApi.java:143-154 | A PUT to the substituted path, with the query and followLocation unchanged, and headers that are exactly the caller's with Content-Type and Accept set to JSON. |
| `AdminApi.UpdatePaymentTransactionState` | src/main/java/org/killbill/billing/client/api/gen/AdminApi.java:139-155 | Three required arguments, checked in order with their generated messages. |
| `CustomFieldApi.PagingOptions` | src/main/java/org/killbill/billing/client/api/gen/CustomFieldApi.java:60-68 | The caller's pairs plus offset, limit and auditLevel (each "null" when null); headers that are exactly the caller's with Content-Type set to JSON; followLocation unchanged. |
| `CustomFieldApi.PagingPairsRecoverable` | src/main/java/org/killbill/billing/client/api/gen/CustomFieldApi.java:61-62 | Non-null offset and limit parse back from the sent values. |
| `CustomFieldApi.GetCustomFields` | src/main/java/org/killbill/billing/client/api/gen/CustomFieldApi.java:56-71 | A GET of the pagination path. Nothing is required. The options are exactly `PagingOptions`: the caller's headers and followLocation kept, the paging pairs added, Content-Type JSON. |
| `CustomFieldApi.SearchPath` | src/main/java/org/killbill/billing/client/api/gen/CustomFieldApi.java:76-77 | The key fills the placeholder verbatim. |
| `CustomFieldApi.SearchCustomFields` | src/main/java/org/killbill/billing/client/api/gen/CustomFieldApi.java:73-90 | The key is required. The path ends with the key. The options are those of the listing. |
| `ExportApi.ExportPath` | src/main/java/org/killbill/billing/client/api/gen/ExportApi.java:56-57 | The account id fills the placeholder. |
| `ExportApi.ExportDataForAccount` | src/main/java/org/killbill/billing/client/api/gen/ExportApi.java:53-65 | The account id is required. A GET with a text/plain content type; query and followLocation unchanged. |
| `Text.ToIndentedString` | src/main/java/org/killbill/billing/client/model/gen/Credit.java:229-234 | "null" for null. Otherwise four spaces follow every line break, the line count and length are as expected, and unindenting restores the text. UsagePrice.java:166-171 and GatewayNotification.java:176-181 are the same rule. |
| `Text.UnindentIndent` | src/main/java/org/killbill/billing/client/model/gen/Credit.java:233 | Removing the inserted spaces restores the original. |
| `Text.SplitJoin` | src/main/java/org/killbill/billing/client/KillBillClient.java:1364 | Splitting a join of separator-free, non-empty lists at the separator inverts it. |
| `CreditModel.NewCredit` | src/main/java/org/killbill/billing/client/model/gen/Credit.java:64-85 | Each argument lands in its own field. |
| `CreditModel.ConstructorIsSetters` | src/main/java/org/killbill/billing/client/model/gen/Credit.java:64-167 | The constructor builds what the nine setters build. |
| `CreditModel.SetCreditId` | src/main/java/org/killbill/billing/client/model/gen/Credit.java:88-91 | Sets creditId and nothing else. |
| `CreditModel.SetCreditAmount` | src/main/java/org/killbill/billing/client/model/gen/Credit.java:97-100 | Sets creditAmount and nothing else. |
| `CreditModel.SetCurrency` | src/main/java/org/killbill/billing/client/model/gen/Credit.java:106-109 | Sets currency and nothing else. |
| `CreditModel.SetInvoiceId` | src/main/java/org/killbill/billing/client/model/gen/Credit.java:115-118 | Sets invoiceId and nothing else. |
| `CreditModel.SetInvoiceNumber` | src/main/java/org/killbill/billing/client/model/gen/Credit.java:124-127 | Sets invoiceNumber and nothing else. |
| `CreditModel.SetEffectiveDate` | src/main/java/org/killbill/billing/client/model/gen/Credit.java:133-136 | Sets effectiveDate and nothing else. |
| `CreditModel.SetAccountId` | src/main/java/org/killbill/billing/client/model/gen/Credit.java:142-145 | Sets accountId and nothing else. |
| `CreditModel.SetDescription` | src/main/java/org/killbill/billing/client/model/gen/Credit.java:151-154 | Sets description and nothing else. |
| `CreditModel.SetItemDetails` | src/main/java/org/killbill/billing/client/model/gen/Credit.java:160-163 | Sets itemDetails and nothing else. |
| `CreditModel.Equals` | src/main/java/org/killbill/billing/client/model/gen/Credit.java:170-189 | False for null or another class. Otherwise true iff the other credit is identical in all nine fields and the audit logs. |
| `CreditModel.EqualsIsEquivalence` | src/main/java/org/killbill/billing/client/model/gen/Credit.java:171-173 | `equals` is reflexive, symmetric and transitive. |
| `CreditModel.SetterChangesOnlyItsField` | src/main/java/org/killbill/billing/client/model/gen/Credit.java:170-189 | For any field, two credits that agree everywhere except that field are `equals` iff they also agree on it. All nine setters produce such a pair, so each changes what `equals` sees iff it changes its field. |
| `CreditModel.SetDescriptionChangesOnlyDescription` | src/main/java/org/killbill/billing/client/model/gen/Credit.java:151-154 | `setDescription` keeps the credit `equals` to the old one iff the description is unchanged. |
| `UsagePriceModel.EmptyUsagePrice` | src/main/java/org/killbill/billing/client/model/gen/UsagePrice.java:51-52 | The no-argument constructor leaves every field null. |
| `UsagePriceModel.NewUsagePrice` | src/main/java/org/killbill/billing/client/model/gen/UsagePrice.java:54-65 | Each of the five arguments lands in its field. |
| `UsagePriceModel.SetUsageName` | src/main/java/org/killbill/billing/client/model/gen/UsagePrice.java:68-71 | Sets usageName and nothing else. |
| `UsagePriceModel.SetUsageType` | src/main/java/org/killbill/billing/client/model/gen/UsagePrice.java:77-80 | Sets usageType and nothing else. |
| `UsagePriceModel.SetBillingMode` | src/main/java/org/killbill/billing/client/model/gen/UsagePrice.java:86-89 | Sets billingMode and nothing else. |
| `UsagePriceModel.SetTierBlockPolicy` | src/main/java/org/killbill/billing/client/model/gen/UsagePrice.java:95-98 | Sets tierBlockPolicy and nothing else. |
| `UsagePriceModel.SetTierPrices` | src/main/java/org/killbill/billing/client/model/gen/UsagePrice.java:104-107 | Sets tierPrices and nothing else. |
| `UsagePriceModel.AddTierPricesItem` | src/main/java/org/killbill/billing/client/model/gen/UsagePrice.java:109-115 | A null list becomes the one-element list. Otherwise the list grows by one, with the item last and the earlier items unchanged. Other fields are untouched. |
| `UsagePriceModel.AddAllAppends` | src/main/java/org/killbill/billing/client/model/gen/UsagePrice.java:113 | Repeated additions append the items in order. |
| `UsagePriceModel.AddToNullList` | src/main/java/org/killbill/billing/client/model/gen/UsagePrice.java:110-113 | Starting from null, n > 0 additions give exactly the added items. |
| `UsagePriceModel.Equals` | src/main/java/org/killbill/billing/client/model/gen/UsagePrice.java:122-136 | False for null or another class. Otherwise true iff all five fields are identical. |
| `UsagePriceModel.NullTiersDifferFromEmpty` | src/main/java/org/killbill/billing/client/model/gen/UsagePrice.java:134 | A never-created tier list differs from an empty one. |
| `GatewayNotificationModel.SetKbPaymentId` | src/main/java/org/killbill/billing/client/model/gen/GatewayNotification.java:59-61 | Sets kbPaymentId and nothing else. |
| `GatewayNotificationModel.SetStatus` | src/main/java/org/killbill/billing/client/model/gen/GatewayNotification.java:73-75 | Sets status and nothing else. |
| `GatewayNotificationModel.SetEntity` | src/main/java/org/killbill/billing/client/model/gen/GatewayNotification.java:87-89 | Sets entity and nothing else. |
| `GatewayNotificationModel.SetHeaders` | src/main/java/org/killbill/billing/client/model/gen/GatewayNotification.java:109-111 | Sets headers and nothing else. |
| `GatewayNotificationModel.SetProperties` | src/main/java/org/killbill/billing/client/model/gen/GatewayNotification.java:131-133 | Sets properties and nothing else. |
| `GatewayNotificationModel.KbPaymentIdFluent` | src/main/java/org/killbill/billing/client/model/gen/GatewayNotification.java:49-52 | The fluent setter leaves the object as the void setter does. |
| `GatewayNotificationModel.StatusFluent` | src/main/java/org/killbill/billing/client/model/gen/GatewayNotification.java:63-66 | The fluent setter leaves the object as the void setter does. |
| `GatewayNotificationModel.EntityFluent` | src/main/java/org/killbill/billing/client/model/gen/GatewayNotification.java:77-80 | The fluent setter leaves the object as the void setter does. |
| `GatewayNotificationModel.HeadersFluent` | src/main/java/org/killbill/billing/client/model/gen/GatewayNotification.java:91-94 | The fluent setter leaves the object as the void setter does. |
| `GatewayNotificationModel.PropertiesFluent` | src/main/java/org/killbill/billing/client/model/gen/GatewayNotification.java:113-116 | The fluent setter leaves the object as the void setter does. |
| `GatewayNotificationModel.PutHeadersItem` | src/main/java/org/killbill/billing/client/model/gen/GatewayNotification.java:96-102 | A null map is created. Afterwards the key maps to the item, every other key keeps its entry, and no other field changes. |
| `GatewayNotificationModel.PutPropertiesItem` | src/main/java/org/killbill/billing/client/model/gen/GatewayNotification.java:118-124 | The same lazy creation and put, for properties. |
| `GatewayNotificationModel.PutHeadersItemOverwrites` | src/main/java/org/killbill/billing/client/model/gen/GatewayNotification.java:100 | Putting a key twice keeps only the second item. |
| `GatewayNotificationModel.Equals` | src/main/java/org/killbill/billing/client/model/gen/GatewayNotification.java:136-150 | False for null or another class. Otherwise true iff the five own fields match; the audit logs are ignored. |
| `GatewayNotificationModel.EqualsIgnoresAuditLogs` | src/main/java/org/killbill/billing/client/model/gen/GatewayNotification.java:144-149 | Notifications that differ only in their audit logs are equal. |

## Left out

- HTTP transport and deserialization (`KillBillHttpClient`'s `doGet`, `doPost` and the rest): network I/O in a class that is not part of this model. The model stops at the request handed to it.
- The server's answer to each per-account request of `createExternalCharges`: it is the parameter `respond`.
- The order in which a `HashMap` enumerates its accounts is unspecified. It is the parameter `order`: any duplicate-free list of exactly the named accounts.
- `UTF8UrlEncoder.encode`: it is the parameter `enc`. Properties about plugin properties assume it is injective and never produces '='.
- `DateTime.toDateTimeISO().toString()` and the `toString()` of the policy enums: a requested date or policy is the already-formatted string. A null date is dereferenced, which is modelled as an NPE without a message.
- `JaxrsResource` and `KillBillHttpClient` constants are not part of this model. `Names` gives them their upstream spellings, and no property depends on a spelling beyond the keys being distinct.
- `KillBillObject`, the superclass holding `auditLogs`, is not part of this model. Its constructor is taken to store the list it is given.
- `hashCode` and `toString` of the generated models: they depend on the hash and text of field types that are not modelled. Only their `toIndentedString` rule is modelled.
- The objects the client dereferences without a check (the subscription, transaction, refund, `inputOptions` and the plugin property map) are taken to be non-null. A null one throws an NPE without a message before anything else.
- The search key of `KillBillClient`'s searches is taken to be non-null.
- UsagePriceModel.AddTierPricesItem: the Java object stores the caller's list itself. The constructor and `setTierPrices` do not copy it, so `add` changes that shared list, and every other holder sees the change. If the list is unmodifiable, such as `Collections.emptyList()`, `add` throws `UnsupportedOperationException`. The model's values share nothing, so it always appends.
- GatewayNotificationModel.PutHeadersItem: `headers(...)` and `setHeaders` store the caller's map itself, so `put` changes that shared map. An unmodifiable map, such as `ImmutableMap.of()`, makes `put` throw `UnsupportedOperationException`. The model always puts.
- GatewayNotificationModel.PutPropertiesItem: the same shared-map and unmodifiable-map behaviour as for headers.
- CustomFields.CustomFieldListRoundTrip: holds for non-empty lists only. An empty list sends the empty value, which `EmptyIdList` states.
- Audit.StorePluginProperties: keys and values of the plugin property map are taken to be non-null. A Java `HashMap` may hold null, which would reach `UTF8UrlEncoder.encode(null)`. That encoder is not part of this model, so its behaviour on null is unknown.
- Charges.ChargeRequests: the elements of the charges `Iterable` are taken to be non-null. A null element would throw an NPE without a message at `getAccountId()`, before any later charge is checked. A null single charge to `createExternalCharge` is modelled.
- `java.util.UUID` is its `toString()` text restricted to hexadecimal digits and dashes. The 36-character 8-4-4-4-12 layout and lower-case output are not enforced, because no property depends on them beyond the absence of ',', '/', '=' and placeholder braces.
- `JavaObject` and `TierPrice` equality compares class name and text. This approximates `Object.equals` of the values that a generated model stores but does not interpret.
- `CustomFieldApi.SearchCustomFields`: requires a key without '$' or '\\'. `replaceAll` would read those as regex replacement syntax, which the literal substitution does not model.
- The per-account query of `createExternalCharges` is rebuilt for each account in the source and stated once in the model. The query depends only on the arguments, so every account gets the same one.
- Java integer overflow: none arises. Timeouts are `int` and offsets `Long`, and the model only compares and prints them, within the ranges of the `Int32` and `Int64` subset types.
- The other `KillBillClient` operations (accounts, bundles, invoices other than listing, tags, catalog, direct-payment captures, refunds and voids, plugin endpoints and the rest) follow the same patterns and are not modelled.

## Findings

| source | as written | input that shows it | evidently intended | confidence | as-written member | corrected member |
|---|---|---|---|---|---|---|
| src/main/java/org/killbill/billing/client/KillBillClient.java:363-365 | `updateSubscription(subscription, billingPolicy, timeoutSec, …)` forwards -1 instead of `timeoutSec` | timeoutSec = 30: the query carries `callCompletion=false` and `callTimeoutSec=-1` | forward `timeoutSec`, so completion is awaited iff it is positive | high, not executed | `Subscriptions.UpdateSubscriptionWithPolicyDropsTimeout` | `Subscriptions.UpdateSubscriptionWithPolicyCorrected` |
| src/main/java/org/killbill/billing/client/KillBillClient.java:163-171 | six searches (accounts, bundles, refunds, payment methods, tags, custom fields) build the paging query and then send `DEFAULT_EMPTY_QUERY` | `searchAccounts("john", 40L, 20L, NONE)`: no `offset` is sent | send the built query, as `searchInvoices` and `searchPayments` do | medium, not executed | `Pagination.SearchDropsOffset` | `Pagination.SearchCorrected` |
