/** Direct payments and refunds: validation of the transaction, the
    optional payment method, plugin properties and the audit pairs. */
module Payments {
  import opened Wrappers
  import opened Multimap
  import opened Names
  import opened Http
  import opened Java
  import opened Audit
  import opened Charges

  /** The parts of a `DirectTransaction` the client checks. */
  datatype DirectTransaction = DirectTransaction(transactionType: Option<string>, amount: Option<BigDecimal>,
                                                 currency: Option<string>)

  /** The transaction types a direct payment may be created with. */
  predicate IsPaymentType(t: string) {
    t == "AUTHORIZE" || t == "CREDIT" || t == "PURCHASE"
  }

  /** The literal query key of the optional payment method. */
  const PAYMENT_METHOD_ID := "paymentMethodId"

  function DirectPaymentsPath(accountId: Uuid): string {
    ACCOUNTS_PATH + "/" + accountId + "/" + DIRECT_PAYMENTS
  }

  /** The checks of `createDirectPayment`, in the order they are made. */
  function CheckTransaction(accountId: Option<Uuid>, t: DirectTransaction): (r: Result<Uuid, Error>)
    ensures r.Success? <==>
      accountId.Some? && t.transactionType.Some? && IsPaymentType(t.transactionType.value) && t.amount.Some? && t.currency.Some?
    ensures r.Success? ==> accountId == Some(r.value)
    ensures accountId.None? ==> r == Failure(NullPointer("accountId cannot be null"))
    ensures accountId.Some? && t.transactionType.None? ==> r == Failure(NullPointer("DirectTransaction#transactionId cannot be null"))
    ensures accountId.Some? && t.transactionType.Some? && !IsPaymentType(t.transactionType.value) ==>
      r == Failure(IllegalArgument("Invalid transaction type " + t.transactionType.value))
    ensures accountId.Some? && t.transactionType.Some? && IsPaymentType(t.transactionType.value) && t.amount.None? ==>
      r == Failure(NullPointer("DirectTransaction#amount cannot be null"))
    ensures accountId.Some? && t.transactionType.Some? && IsPaymentType(t.transactionType.value) && t.amount.Some? && t.currency.None? ==>
      r == Failure(NullPointer("DirectTransaction#currency cannot be null"))
  {
    var id :- CheckNotNull(accountId, "accountId cannot be null");
    var tt :- CheckNotNull(t.transactionType, "DirectTransaction#transactionId cannot be null");
    if !IsPaymentType(tt) then Failure(IllegalArgument("Invalid transaction type " + tt))
    else
      var _ :- CheckNotNull(t.amount, "DirectTransaction#amount cannot be null");
      var _ :- CheckNotNull(t.currency, "DirectTransaction#currency cannot be null");
      Success(id)
  }

  /** The pair the optional payment method contributes. */
  function PaymentMethodEntries(paymentMethodId: Option<Uuid>): set<Pair> {
    if paymentMethodId.Some? then {(PAYMENT_METHOD_ID, paymentMethodId.value)} else {}
  }

  /** `createDirectPayment(accountId, paymentMethodId, transaction,
      pluginProperties, createdBy, reason, comment)`: the transaction is
      checked, then posted with the payment method (when given), one
      `pluginProperty` per property and the audit pairs. */
  function CreateDirectPayment(accountId: Option<Uuid>, paymentMethodId: Option<Uuid>, t: DirectTransaction,
                               props: map<string, string>, enc: string -> string,
                               createdBy: Option<string>, reason: Option<string>, comment: Option<string>)
    : (r: Result<Call<DirectTransaction>, Error>)
    ensures r.Success? <==> CheckTransaction(accountId, t).Success? && AuditPresent(createdBy, reason, comment)
    ensures CheckTransaction(accountId, t).Failure? ==> r == Failure(CheckTransaction(accountId, t).error)
    ensures CheckTransaction(accountId, t).Success? && r.Failure? ==> r.error == AuditParams(createdBy, reason, comment).error
    ensures r.Success? ==> r.value.verb == POST && r.value.follow && r.value.body == Some(t) && r.value.timeoutSec.None?
    ensures r.Success? ==> r.value.path == DirectPaymentsPath(accountId.value)
    ensures r.Success? ==> forall p :: p in Entries(r.value.query) <==>
      p in PaymentMethodEntries(paymentMethodId) || p in PluginPropertyEntries(props, enc)
      || p in AuditEntries(createdBy.value, reason.value, comment.value)
  {
    var id :- CheckTransaction(accountId, t);
    var params := StorePluginProperties(props, PaymentMethodEntries(paymentMethodId), enc);
    var query :- ParamsWithAudit(Hashed(params), createdBy, reason, comment);
    Success(Call(POST, DirectPaymentsPath(id), Some(t), query, true, None))
  }

  /** The overload without a payment method. */
  function CreateDirectPaymentDefaultMethod(accountId: Option<Uuid>, t: DirectTransaction,
                                            props: map<string, string>, enc: string -> string,
                                            createdBy: Option<string>, reason: Option<string>, comment: Option<string>)
    : (r: Result<Call<DirectTransaction>, Error>)
    ensures r.Success? ==> Values(Entries(r.value.query), PAYMENT_METHOD_ID) == {}
  {
    CreateDirectPayment(accountId, None, t, props, enc, createdBy, reason, comment)
  }

  /** The overload without plugin properties. */
  function CreateDirectPaymentNoProperties(accountId: Option<Uuid>, paymentMethodId: Option<Uuid>, t: DirectTransaction,
                                           enc: string -> string,
                                           createdBy: Option<string>, reason: Option<string>, comment: Option<string>)
    : (r: Result<Call<DirectTransaction>, Error>)
    ensures r.Success? ==> Values(Entries(r.value.query), QUERY_PLUGIN_PROPERTY) == {}
  {
    var r := CreateDirectPayment(accountId, paymentMethodId, t, map[], enc, createdBy, reason, comment);
    assert PluginPropertyEntries(map[], enc) == {};
    r
  }

  /** The payment method, when given, is the only `paymentMethodId` value. */
  lemma PaymentMethodValue(accountId: Option<Uuid>, paymentMethodId: Option<Uuid>, t: DirectTransaction,
                           props: map<string, string>, enc: string -> string,
                           createdBy: Option<string>, reason: Option<string>, comment: Option<string>)
    requires CreateDirectPayment(accountId, paymentMethodId, t, props, enc, createdBy, reason, comment).Success?
    ensures Values(Entries(CreateDirectPayment(accountId, paymentMethodId, t, props, enc, createdBy, reason, comment).value.query),
                   PAYMENT_METHOD_ID) == ValuesOf(paymentMethodId)
  {
  }

  /** The parts of a `Refund` the client checks. */
  datatype Refund = Refund(paymentId: Option<Uuid>, amount: Option<BigDecimal>, isAdjusted: Option<bool>,
                           adjustments: Option<seq<Option<InvoiceItem>>>)

  /** An adjustment the loop accepts: present, and naming its invoice item. */
  predicate AdjustmentNamed(item: Option<InvoiceItem>) {
    item.Some? && item.value.invoiceItemId.Some?
  }

  /** The error an adjustment the loop rejects throws: dereferencing a null
      element gives an NPE without a message, a missing id the check's. */
  function AdjustmentError(item: Option<InvoiceItem>): Error {
    if item.None? then NullPointerNoMessage else NullPointer("InvoiceItem#invoiceItemId cannot be null")
  }

  /** The position of the first adjustment the loop rejects, or the number
      of adjustments when it accepts them all. */
  function FirstBadAdjustment(items: seq<Option<InvoiceItem>>): (k: nat)
    ensures k <= |items|
    ensures forall i | 0 <= i < k :: AdjustmentNamed(items[i])
    ensures k < |items| ==> !AdjustmentNamed(items[k])
    ensures k == |items| <==> forall i | 0 <= i < |items| :: AdjustmentNamed(items[i])
  {
    if |items| == 0 || !AdjustmentNamed(items[0]) then 0 else 1 + FirstBadAdjustment(items[1..])
  }

  /** The loop over the adjustments: each must name its invoice item; a null
      element is dereferenced and throws an NPE without a message. The
      first rejected element decides the error. */
  function CheckAdjustments(items: seq<Option<InvoiceItem>>): (r: Result<(), Error>)
    ensures r.Success? <==> forall i | 0 <= i < |items| :: AdjustmentNamed(items[i])
    ensures (forall i | 0 <= i < |items| :: items[i].Some?) && r.Failure? ==>
      r.error == NullPointer("InvoiceItem#invoiceItemId cannot be null")
    ensures (forall i | 0 <= i < |items| :: items[i].None? || items[i].value.invoiceItemId.Some?) && r.Failure? ==>
      r.error == NullPointerNoMessage
    ensures FirstBadAdjustment(items) < |items| ==> r == Failure(AdjustmentError(items[FirstBadAdjustment(items)]))
  {
    if |items| == 0 then Success(())
    else
      var item :- Deref(items[0]);
      var _ :- CheckNotNull(item.invoiceItemId, "InvoiceItem#invoiceItemId cannot be null");
      var rest := CheckAdjustments(items[1..]);
      assert forall i | 1 <= i < |items| :: items[i] == items[1..][i - 1];
      rest
  }

  /** The loop, one adjustment longer: a list already rejected stays
      rejected with the same error, and an accepted one is extended by the
      new element's own check. */
  lemma {:induction false} CheckAdjustmentsAppend(items: seq<Option<InvoiceItem>>, item: Option<InvoiceItem>)
    ensures CheckAdjustments(items + [item]) ==
      if CheckAdjustments(items).Failure? then CheckAdjustments(items)
      else if AdjustmentNamed(item) then Success(())
      else Failure(AdjustmentError(item))
  {
    if |items| > 0 {
      assert (items + [item])[1..] == items[1..] + [item];
      CheckAdjustmentsAppend(items[1..], item);
    }
  }

  function RefundsPath(paymentId: Uuid): string {
    PAYMENTS_PATH + "/" + paymentId + "/" + REFUNDS
  }

  /** `createRefund(refund, createdBy, reason, comment)`: the payment id and
      every adjustment's invoice item id are required; the query is exactly
      the three audit pairs. */
  function CreateRefund(refund: Refund, createdBy: Option<string>, reason: Option<string>, comment: Option<string>)
    : (r: Result<Call<Refund>, Error>)
    ensures r.Success? <==>
      && refund.paymentId.Some?
      && (refund.adjustments.Some? ==> forall i | 0 <= i < |refund.adjustments.value| :: AdjustmentNamed(refund.adjustments.value[i]))
      && AuditPresent(createdBy, reason, comment)
    ensures refund.paymentId.None? ==> r == Failure(NullPointer("Refund#paymentId cannot be null"))
    ensures refund.paymentId.Some? && refund.adjustments.Some? && CheckAdjustments(refund.adjustments.value).Failure? ==>
      r == Failure(CheckAdjustments(refund.adjustments.value).error)
    ensures (refund.paymentId.Some? && (refund.adjustments.Some? ==> CheckAdjustments(refund.adjustments.value).Success?)
             && !AuditPresent(createdBy, reason, comment)) ==> r == Failure(AuditParams(createdBy, reason, comment).error)
    ensures r.Success? ==> r.value.verb == POST && r.value.follow && r.value.body == Some(refund) && r.value.timeoutSec.None?
    ensures r.Success? ==> r.value.path == RefundsPath(refund.paymentId.value)
    ensures r.Success? ==> r.value.query == Listed([(AUDIT_OPTION_CREATED_BY, createdBy.value),
                                                   (AUDIT_OPTION_REASON, reason.value),
                                                   (AUDIT_OPTION_COMMENT, comment.value)])
  {
    var paymentId :- CheckNotNull(refund.paymentId, "Refund#paymentId cannot be null");
    var _ :- if refund.adjustments.Some? then CheckAdjustments(refund.adjustments.value) else Success(());
    var audit :- AuditParams(createdBy, reason, comment);
    Success(Call(POST, RefundsPath(paymentId), Some(refund), Listed(audit), true, None))
  }
}
