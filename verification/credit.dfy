/** The generated `Credit` model: nine nullable fields plus the `auditLogs`
    inherited from `KillBillObject`, fluent setters and a field-wise
    `equals`. Objects are values here, so a setter returns the updated
    credit; the Java setter updates the receiver and returns it. */
module CreditModel {
  import opened Wrappers
  import opened Java

  /** `org.killbill.billing.catalog.api.Currency`, by its ISO code. */
  datatype Currency = Currency(code: string)

  datatype Credit = Credit(
    creditId: Option<Uuid>,
    creditAmount: Option<BigDecimal>,
    currency: Option<Currency>,
    invoiceId: Option<Uuid>,
    invoiceNumber: Option<string>,
    effectiveDate: Option<LocalDate>,
    accountId: Option<Uuid>,
    description: Option<string>,
    itemDetails: Option<string>,
    auditLogs: Option<seq<AuditLog>>)

  /** The fields a setter can change. */
  datatype Field = CreditId | CreditAmount | CurrencyField | InvoiceId | InvoiceNumber
                 | EffectiveDate | AccountId | Description | ItemDetails

  /** `a` and `b` agree on every field but `f` (and on `auditLogs`). */
  predicate SameExcept(a: Credit, b: Credit, f: Field) {
    && (f == CreditId || a.creditId == b.creditId)
    && (f == CreditAmount || a.creditAmount == b.creditAmount)
    && (f == CurrencyField || a.currency == b.currency)
    && (f == InvoiceId || a.invoiceId == b.invoiceId)
    && (f == InvoiceNumber || a.invoiceNumber == b.invoiceNumber)
    && (f == EffectiveDate || a.effectiveDate == b.effectiveDate)
    && (f == AccountId || a.accountId == b.accountId)
    && (f == Description || a.description == b.description)
    && (f == ItemDetails || a.itemDetails == b.itemDetails)
    && a.auditLogs == b.auditLogs
  }

  /** The full constructor: every argument lands in its own field and the
      audit logs are handed to `KillBillObject`. */
  function NewCredit(creditId: Option<Uuid>, creditAmount: Option<BigDecimal>, currency: Option<Currency>,
                     invoiceId: Option<Uuid>, invoiceNumber: Option<string>, effectiveDate: Option<LocalDate>,
                     accountId: Option<Uuid>, description: Option<string>, itemDetails: Option<string>,
                     auditLogs: Option<seq<AuditLog>>)
    : (c: Credit)
    ensures c.creditId == creditId && c.creditAmount == creditAmount && c.currency == currency
    ensures c.invoiceId == invoiceId && c.invoiceNumber == invoiceNumber && c.effectiveDate == effectiveDate
    ensures c.accountId == accountId && c.description == description && c.itemDetails == itemDetails
    ensures c.auditLogs == auditLogs
  {
    Credit(creditId, creditAmount, currency, invoiceId, invoiceNumber, effectiveDate, accountId, description,
           itemDetails, auditLogs)
  }

  function SetCreditId(c: Credit, v: Option<Uuid>): (r: Credit)
    ensures r.creditId == v && SameExcept(r, c, CreditId)
  {
    c.(creditId := v)
  }

  function SetCreditAmount(c: Credit, v: Option<BigDecimal>): (r: Credit)
    ensures r.creditAmount == v && SameExcept(r, c, CreditAmount)
  {
    c.(creditAmount := v)
  }

  function SetCurrency(c: Credit, v: Option<Currency>): (r: Credit)
    ensures r.currency == v && SameExcept(r, c, CurrencyField)
  {
    c.(currency := v)
  }

  function SetInvoiceId(c: Credit, v: Option<Uuid>): (r: Credit)
    ensures r.invoiceId == v && SameExcept(r, c, InvoiceId)
  {
    c.(invoiceId := v)
  }

  function SetInvoiceNumber(c: Credit, v: Option<string>): (r: Credit)
    ensures r.invoiceNumber == v && SameExcept(r, c, InvoiceNumber)
  {
    c.(invoiceNumber := v)
  }

  function SetEffectiveDate(c: Credit, v: Option<LocalDate>): (r: Credit)
    ensures r.effectiveDate == v && SameExcept(r, c, EffectiveDate)
  {
    c.(effectiveDate := v)
  }

  function SetAccountId(c: Credit, v: Option<Uuid>): (r: Credit)
    ensures r.accountId == v && SameExcept(r, c, AccountId)
  {
    c.(accountId := v)
  }

  function SetDescription(c: Credit, v: Option<string>): (r: Credit)
    ensures r.description == v && SameExcept(r, c, Description)
  {
    c.(description := v)
  }

  function SetItemDetails(c: Credit, v: Option<string>): (r: Credit)
    ensures r.itemDetails == v && SameExcept(r, c, ItemDetails)
  {
    c.(itemDetails := v)
  }

  /** Filling an object with the nine setters, in any starting state with
      the same audit logs, builds what the full constructor builds. */
  lemma ConstructorIsSetters(start: Credit, creditId: Option<Uuid>, creditAmount: Option<BigDecimal>,
                             currency: Option<Currency>, invoiceId: Option<Uuid>, invoiceNumber: Option<string>,
                             effectiveDate: Option<LocalDate>, accountId: Option<Uuid>, description: Option<string>,
                             itemDetails: Option<string>)
    ensures NewCredit(creditId, creditAmount, currency, invoiceId, invoiceNumber, effectiveDate, accountId,
                      description, itemDetails, start.auditLogs)
         == SetItemDetails(SetDescription(SetAccountId(SetEffectiveDate(SetInvoiceNumber(SetInvoiceId(
              SetCurrency(SetCreditAmount(SetCreditId(start, creditId), creditAmount), currency), invoiceId),
              invoiceNumber), effectiveDate), accountId), description), itemDetails)
  {
  }

  /** `equals(o)`: false for null and for an object of another class;
      otherwise the nine fields and the audit logs are compared with
      `Objects.equals`. The identity short-cut agrees, since an object
      equals itself field by field. */
  function Equals(a: Credit, o: JObject<Credit>): (r: bool)
    ensures o.Null? || o.OtherClass? ==> !r
    ensures r <==> o == Instance(a)
  {
    match o
    case Null => false
    case OtherClass(_) => false
    case Instance(b) =>
      && a.creditId == b.creditId
      && a.creditAmount == b.creditAmount
      && a.currency == b.currency
      && a.invoiceId == b.invoiceId
      && a.invoiceNumber == b.invoiceNumber
      && a.effectiveDate == b.effectiveDate
      && a.accountId == b.accountId
      && a.description == b.description
      && a.itemDetails == b.itemDetails
      && a.auditLogs == b.auditLogs
  }

  /** `equals` is an equivalence on credits. */
  lemma EqualsIsEquivalence(a: Credit, b: Credit, c: Credit)
    ensures Equals(a, Instance(a))
    ensures Equals(a, Instance(b)) <==> Equals(b, Instance(a))
    ensures Equals(a, Instance(b)) && Equals(b, Instance(c)) ==> Equals(a, Instance(c))
  {
  }

  /** `a` and `b` agree on field `f`. */
  predicate SameField(a: Credit, b: Credit, f: Field) {
    match f
    case CreditId => a.creditId == b.creditId
    case CreditAmount => a.creditAmount == b.creditAmount
    case CurrencyField => a.currency == b.currency
    case InvoiceId => a.invoiceId == b.invoiceId
    case InvoiceNumber => a.invoiceNumber == b.invoiceNumber
    case EffectiveDate => a.effectiveDate == b.effectiveDate
    case AccountId => a.accountId == b.accountId
    case Description => a.description == b.description
    case ItemDetails => a.itemDetails == b.itemDetails
  }

  /** A setter changes what `equals` sees exactly when it changes its field:
      every setter above leaves its result `SameExcept` its argument on its
      own field, so this covers all nine. */
  lemma SetterChangesOnlyItsField(updated: Credit, c: Credit, f: Field)
    requires SameExcept(updated, c, f)
    ensures Equals(updated, Instance(c)) <==> SameField(updated, c, f)
  {
  }

  /** The lemma above, applied to `setDescription`. */
  lemma SetDescriptionChangesOnlyDescription(c: Credit, v: Option<string>)
    ensures Equals(SetDescription(c, v), Instance(c)) <==> c.description == v
  {
    SetterChangesOnlyItsField(SetDescription(c, v), c, Description);
  }
}
