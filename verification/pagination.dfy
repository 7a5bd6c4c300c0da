/** The paginated listings (`getAccounts`, `getBundles`, …) and the
    searches (`searchAccounts`, …) of the client, with their default
    arguments. */
module Pagination {
  import opened Wrappers
  import opened Multimap
  import opened Names
  import opened Http
  import opened Java
  import opened Decimal

  /** The resources with a pagination and a search endpoint. */
  datatype Resource = Accounts | Bundles | Invoices | Payments | Refunds | PaymentMethods | Tags | CustomFields

  function ResourcePath(res: Resource): string {
    match res
    case Accounts => ACCOUNTS_PATH
    case Bundles => BUNDLES_PATH
    case Invoices => INVOICES_PATH
    case Payments => PAYMENTS_PATH
    case Refunds => REFUNDS_PATH
    case PaymentMethods => PAYMENT_METHODS_PATH
    case Tags => TAGS_PATH
    case CustomFields => CUSTOM_FIELDS_PATH
  }

  /** The offset, limit and audit pairs every listing and search builds;
      `auditLevel.toString()` throws on a null level. */
  function PageParams(offset: Option<Int64>, limit: Option<Int64>, auditLevel: Option<AuditLevel>): (r: Result<seq<Pair>, Error>)
    ensures r.Success? <==> auditLevel.Some?
    ensures r.Failure? ==> r.error == NullPointerNoMessage
    ensures r.Success? ==> |r.value| == 3
    ensures r.Success? ==> r.value[0] == (QUERY_SEARCH_OFFSET, LongValueOf(offset))
    ensures r.Success? ==> r.value[1] == (QUERY_SEARCH_LIMIT, LongValueOf(limit))
    ensures r.Success? ==> r.value[2] == (QUERY_AUDIT, AuditLevelName(auditLevel.value))
  {
    var level :- Deref(auditLevel);
    Success([(QUERY_SEARCH_OFFSET, LongValueOf(offset)), (QUERY_SEARCH_LIMIT, LongValueOf(limit)),
             (QUERY_AUDIT, AuditLevelName(level))])
  }

  function PaginationPath(res: Resource): string {
    ResourcePath(res) + "/" + PAGINATION
  }

  /** `getInvoices(withItems, offset, limit, auditLevel)`: the listing of
      invoices carries `withItems` between the limit and the audit level. */
  function GetInvoices(withItems: bool, offset: Option<Int64>, limit: Option<Int64>, auditLevel: Option<AuditLevel>)
    : (r: Result<Call<()>, Error>)
    ensures r.Success? <==> auditLevel.Some?
    ensures r.Success? ==> r.value.verb == GET && r.value.path == PaginationPath(Invoices) && r.value.body.None?
    ensures r.Success? ==> r.value.query.Listed? && |r.value.query.pairs| == 4
    ensures r.Success? ==> r.value.query.pairs[2] == (QUERY_INVOICE_WITH_ITEMS, BooleanName(withItems))
    ensures r.Success? ==> [r.value.query.pairs[0], r.value.query.pairs[1], r.value.query.pairs[3]] == PageParams(offset, limit, auditLevel).value
  {
    var p :- PageParams(offset, limit, auditLevel);
    Success(Call(GET, PaginationPath(Invoices), None, Listed([p[0], p[1], (QUERY_INVOICE_WITH_ITEMS, BooleanName(withItems)), p[2]]), false, None))
  }

  /** A key that no other pair of the list carries holds exactly its one
      value. */
  lemma UniqueKeyValue(ps: seq<Pair>, i: int)
    requires 0 <= i < |ps|
    requires forall j | 0 <= j < |ps| && j != i :: ps[j].0 != ps[i].0
    ensures Values(Entries(Listed(ps)), ps[i].0) == {ps[i].1}
  {
    assert ps[i] in Entries(Listed(ps));
  }

  /** The query sends `offset`, `limit` and the audit level `level`, one
      value each. */
  predicate PagingValues(es: set<Pair>, offset: Option<Int64>, limit: Option<Int64>, level: string) {
    && Values(es, QUERY_SEARCH_OFFSET) == {LongValueOf(offset)}
    && Values(es, QUERY_SEARCH_LIMIT) == {LongValueOf(limit)}
    && Values(es, QUERY_AUDIT) == {level}
  }

  /** Both shapes of a listing's query carry the paging values: the three
      paging pairs, and the invoice listing's four pairs. */
  lemma PageParamsValues(offset: Option<Int64>, limit: Option<Int64>, level: AuditLevel)
    ensures var p := PageParams(offset, limit, Some(level)).value;
      PagingValues(Entries(Listed(p)), offset, limit, AuditLevelName(level))
  {
    var p := PageParams(offset, limit, Some(level)).value;
    UniqueKeyValue(p, 0);
    UniqueKeyValue(p, 1);
    UniqueKeyValue(p, 2);
  }

  lemma InvoicesValues(withItems: bool, offset: Option<Int64>, limit: Option<Int64>, level: AuditLevel)
    ensures var q := GetInvoices(withItems, offset, limit, Some(level)).value.query;
      && PagingValues(Entries(q), offset, limit, AuditLevelName(level))
      && Values(Entries(q), QUERY_INVOICE_WITH_ITEMS) == {BooleanName(withItems)}
  {
    var ps := GetInvoices(withItems, offset, limit, Some(level)).value.query.pairs;
    UniqueKeyValue(ps, 0);
    UniqueKeyValue(ps, 1);
    UniqueKeyValue(ps, 2);
    UniqueKeyValue(ps, 3);
  }

  /** `getAccounts(offset, limit, auditLevel)` and its siblings: a GET of the
      resource's pagination endpoint with the three paging pairs, in order.
      For invoices the three-argument overload is `getInvoices(true, …)`,
      which asks for the items. */
  function GetPage(res: Resource, offset: Option<Int64>, limit: Option<Int64>, auditLevel: Option<AuditLevel>)
    : (r: Result<Call<()>, Error>)
    ensures r.Success? <==> auditLevel.Some?
    ensures r.Failure? ==> r.error == NullPointerNoMessage
    ensures r.Success? ==> r.value.verb == GET && r.value.path == PaginationPath(res) && r.value.body.None?
    ensures r.Success? ==> !r.value.follow && r.value.timeoutSec.None?
    ensures r.Success? ==> PagingValues(Entries(r.value.query), offset, limit, AuditLevelName(auditLevel.value))
    ensures r.Success? && res != Invoices ==> r.value.query == Listed(PageParams(offset, limit, auditLevel).value)
    ensures res == Invoices ==> r == GetInvoices(true, offset, limit, auditLevel)
    ensures r.Success? && res == Invoices ==> Values(Entries(r.value.query), QUERY_INVOICE_WITH_ITEMS) == {"true"}
  {
    if res == Invoices then
      var r := GetInvoices(true, offset, limit, auditLevel);
      if r.Success? then InvoicesValues(true, offset, limit, auditLevel.value); r else r
    else
      var p :- PageParams(offset, limit, auditLevel);
      PageParamsValues(offset, limit, auditLevel.value);
      Success(Call(GET, PaginationPath(res), None, Listed(p), false, None))
  }

  /** `getAccounts()`: offset 0, limit 100 and no audit. */
  function GetFirstPage(res: Resource): (r: Result<Call<()>, Error>)
    ensures r.Success?
    ensures Values(Entries(r.value.query), QUERY_SEARCH_OFFSET) == {"0"}
    ensures Values(Entries(r.value.query), QUERY_SEARCH_LIMIT) == {"100"}
    ensures Values(Entries(r.value.query), QUERY_AUDIT) == {"NONE"}
    ensures res != Invoices ==> r.value.query == Listed([(QUERY_SEARCH_OFFSET, "0"), (QUERY_SEARCH_LIMIT, "100"), (QUERY_AUDIT, "NONE")])
  {
    assert NatToString(0) == "0";
    assert NatToString(100) == "100" by {
      assert NatToString(10) == "10" by {
        assert NatToString(1) == "1";
      }
    }
    GetPageWithoutAudit(res, Some(0), Some(100))
  }

  /** `getAccounts(offset, limit)`: no audit, so nothing can fail. */
  function GetPageWithoutAudit(res: Resource, offset: Option<Int64>, limit: Option<Int64>): (r: Result<Call<()>, Error>)
    ensures r.Success?
    ensures PagingValues(Entries(r.value.query), offset, limit, "NONE")
    ensures res != Invoices ==>
      r.value.query.Listed? && |r.value.query.pairs| == 3 && r.value.query.pairs[2] == (QUERY_AUDIT, "NONE")
  {
    var r := GetPage(res, offset, limit, Some(NONE));
    assert PageParams(offset, limit, Some(NONE)).Success?;
    r
  }

  /** The searches of invoices and payments send their paging pairs; the
      other six build them and then send the empty query. */
  predicate SendsSearchParams(res: Resource) {
    res == Invoices || res == Payments
  }

  function SearchPath(res: Resource, key: string, enc: string -> string): string {
    ResourcePath(res) + "/" + SEARCH + "/" + enc(key)
  }

  /** `searchAccounts(key, offset, limit, auditLevel)` and its siblings. The
      paging pairs are always built, so a null level fails everywhere. */
  function Search(res: Resource, key: string, enc: string -> string,
                  offset: Option<Int64>, limit: Option<Int64>, auditLevel: Option<AuditLevel>)
    : (r: Result<Call<()>, Error>)
    ensures r.Success? <==> auditLevel.Some?
    ensures r.Failure? ==> r.error == NullPointerNoMessage
    ensures r.Success? ==> r.value.verb == GET && r.value.path == SearchPath(res, key, enc) && r.value.body.None?
    ensures r.Success? && SendsSearchParams(res) ==> r.value.query == Listed(PageParams(offset, limit, auditLevel).value)
    ensures r.Success? && !SendsSearchParams(res) ==> Entries(r.value.query) == {}
  {
    var p :- PageParams(offset, limit, auditLevel);
    Success(Call(GET, SearchPath(res, key, enc), None, if SendsSearchParams(res) then Listed(p) else Empty, false, None))
  }

  /** The six searches that drop their query answer the same for every
      offset, limit and audit level. */
  lemma SearchIgnoresPaging(res: Resource, key: string, enc: string -> string,
                            offset1: Option<Int64>, limit1: Option<Int64>, level1: AuditLevel,
                            offset2: Option<Int64>, limit2: Option<Int64>, level2: AuditLevel)
    requires !SendsSearchParams(res)
    ensures Search(res, key, enc, offset1, limit1, Some(level1)) == Search(res, key, enc, offset2, limit2, Some(level2))
  {
  }

  /** Where the search does send its query, it is the listing's query. */
  lemma SearchPagesLikeListing(res: Resource, key: string, enc: string -> string,
                               offset: Option<Int64>, limit: Option<Int64>, level: AuditLevel)
    requires SendsSearchParams(res) && res != Invoices
    ensures Search(res, key, enc, offset, limit, Some(level)).value.query == GetPage(res, offset, limit, Some(level)).value.query
  {
  }

  /** Asking `searchAccounts` for the third page of twenty sends no offset
      at all. */
  lemma SearchDropsOffset(enc: string -> string)
    ensures var r := Search(Accounts, "john", enc, Some(40), Some(20), Some(NONE));
      r.Success? && Values(Entries(r.value.query), QUERY_SEARCH_OFFSET) == {}
  {
  }

  /** The searches as their built-but-unused query shows they were meant:
      every resource sends its paging pairs. */
  function SearchCorrected(res: Resource, key: string, enc: string -> string,
                           offset: Option<Int64>, limit: Option<Int64>, auditLevel: Option<AuditLevel>)
    : (r: Result<Call<()>, Error>)
    ensures r.Success? <==> auditLevel.Some?
    ensures r.Failure? ==> r.error == NullPointerNoMessage
    ensures r.Success? ==> r.value.verb == GET && r.value.path == SearchPath(res, key, enc) && r.value.body.None?
    ensures r.Success? ==> Values(Entries(r.value.query), QUERY_SEARCH_OFFSET) == {LongValueOf(offset)}
    ensures r.Success? ==> Values(Entries(r.value.query), QUERY_SEARCH_LIMIT) == {LongValueOf(limit)}
    ensures r.Success? ==> Values(Entries(r.value.query), QUERY_AUDIT) == {AuditLevelName(auditLevel.value)}
  {
    var p :- PageParams(offset, limit, auditLevel);
    var r := Call(GET, SearchPath(res, key, enc), None, Listed(p), false, None);
    assert Entries(r.query) == {p[0], p[1], p[2]};
    Success(r)
  }

  /** The corrected searches agree with the two that were right, and page
      like the listings. */
  lemma SearchCorrectedAgrees(res: Resource, key: string, enc: string -> string,
                              offset: Option<Int64>, limit: Option<Int64>, level: AuditLevel)
    ensures SendsSearchParams(res) ==>
      SearchCorrected(res, key, enc, offset, limit, Some(level)) == Search(res, key, enc, offset, limit, Some(level))
    ensures res != Invoices ==>
      SearchCorrected(res, key, enc, offset, limit, Some(level)).value.query == GetPage(res, offset, limit, Some(level)).value.query
  {
  }

  /** `searchAccounts(key)`: offset 0, limit 100, no audit. */
  function SearchFirstPage(res: Resource, key: string, enc: string -> string): (r: Result<Call<()>, Error>)
    ensures r.Success?
    ensures r.value.path == SearchPath(res, key, enc)
  {
    Search(res, key, enc, Some(0), Some(100), Some(NONE))
  }
}
