/** Query-parameter keys, resource paths and header names. They are defined
    in `JaxrsResource` (the server API library) and `KillBillHttpClient`,
    which are not part of this model; they carry the upstream spellings. No
    property depends on a spelling beyond the keys being pairwise distinct. */
module Names {

  // Audit options, turned into headers by the transport.
  const AUDIT_OPTION_CREATED_BY := "__AUDIT_OPTION_CREATED_BY"
  const AUDIT_OPTION_REASON := "__AUDIT_OPTION_REASON"
  const AUDIT_OPTION_COMMENT := "__AUDIT_OPTION_COMMENT"

  // Query-parameter keys.
  const QUERY_CALL_COMPLETION := "callCompletion"
  const QUERY_CALL_TIMEOUT := "callTimeoutSec"
  const QUERY_REQUESTED_DT := "requestedDate"
  const QUERY_BILLING_POLICY := "billingPolicy"
  const QUERY_ENTITLEMENT_POLICY := "entitlementPolicy"
  const QUERY_PLUGIN_PROPERTY := "pluginProperty"
  const QUERY_CUSTOM_FIELDS := "customFieldList"
  const QUERY_PAY_INVOICE := "payInvoice"
  const QUERY_SEARCH_OFFSET := "offset"
  const QUERY_SEARCH_LIMIT := "limit"
  const QUERY_AUDIT := "audit"
  const QUERY_INVOICE_WITH_ITEMS := "withItems"

  // Resource paths and path segments.
  const ACCOUNTS_PATH := "/1.0/kb/accounts"
  const BUNDLES_PATH := "/1.0/kb/bundles"
  const SUBSCRIPTIONS_PATH := "/1.0/kb/subscriptions"
  const INVOICES_PATH := "/1.0/kb/invoices"
  const PAYMENTS_PATH := "/1.0/kb/payments"
  const REFUNDS_PATH := "/1.0/kb/refunds"
  const PAYMENT_METHODS_PATH := "/1.0/kb/paymentMethods"
  const TAGS_PATH := "/1.0/kb/tags"
  const CUSTOM_FIELDS_PATH := "/1.0/kb/customFields"
  const CHARGES := "charges"
  const REFUNDS := "refunds"
  const DIRECT_PAYMENTS := "directPayments"
  const CUSTOM_FIELDS := "customFields"
  const SEARCH := "search"
  const PAGINATION := "pagination"

  // Headers.
  const HTTP_HEADER_CONTENT_TYPE := "Content-Type"
  const HTTP_HEADER_ACCEPT := "Accept"

  /** `KillBillHttpClient.DEFAULT_HTTP_TIMEOUT_SEC`. */
  const DEFAULT_HTTP_TIMEOUT_SEC := 10
}
