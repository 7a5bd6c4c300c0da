/** `CustomFieldApi`: the generated listing and search of custom fields. */
module CustomFieldApi {
  import opened Wrappers
  import opened Multimap
  import opened Http
  import opened Java
  import opened Decimal
  import opened ApiOptions
  import Names

  const PAGINATION_PATH := "/1.0/kb/customFields/pagination"
  const SEARCH_PREFIX := "/1.0/kb/customFields/search/"
  const SEARCH_TEMPLATE := SEARCH_PREFIX + Placeholder("searchKey")

  /** The three pairs both methods add: offset, limit and `auditLevel`, each
      through `String.valueOf`, so nulls are sent as "null". */
  function PagingPairs(offset: Option<Int64>, limit: Option<Int64>, auditLevel: Option<AuditLevel>): set<Pair> {
    {("offset", LongValueOf(offset)), ("limit", LongValueOf(limit)), ("auditLevel", AuditLevelValueOf(auditLevel))}
  }

  /** The options both methods send: the caller's, with the paging pairs
      and a JSON content type. */
  function PagingOptions(offset: Option<Int64>, limit: Option<Int64>, auditLevel: Option<AuditLevel>, opts: Options): (r: Options)
    ensures forall p :: Contains(r.queryParams, p) <==> Contains(opts.queryParams, p) || p in PagingPairs(offset, limit, auditLevel)
    ensures Names.HTTP_HEADER_CONTENT_TYPE in r.headers && r.headers[Names.HTTP_HEADER_CONTENT_TYPE] == APPLICATION_JSON
    ensures r.headers.Keys == opts.headers.Keys + {Names.HTTP_HEADER_CONTENT_TYPE}
    ensures r.headers == opts.headers[Names.HTTP_HEADER_CONTENT_TYPE := APPLICATION_JSON]
    ensures r.followLocation == opts.followLocation
  {
    WithHeader(WithQueryPairs(opts, PagingPairs(offset, limit, auditLevel)), Names.HTTP_HEADER_CONTENT_TYPE, APPLICATION_JSON)
  }

  /** The offset and limit a server reads back are the caller's. */
  lemma PagingPairsRecoverable(offset: Int64, limit: Int64, auditLevel: Option<AuditLevel>)
    ensures forall v | ("offset", v) in PagingPairs(Some(offset), Some(limit), auditLevel) :: ParseInt(v) == Some(offset as int)
    ensures forall v | ("limit", v) in PagingPairs(Some(offset), Some(limit), auditLevel) :: ParseInt(v) == Some(limit as int)
  {
  }

  /** `getCustomFields(offset, limit, auditLevel, inputOptions)`: nothing is
      required; a GET of the constant pagination path. */
  function GetCustomFields(offset: Option<Int64>, limit: Option<Int64>, auditLevel: Option<AuditLevel>, opts: Options)
    : (r: ApiRequest<()>)
    ensures r.verb == GET && r.path == PAGINATION_PATH && r.body.None?
    ensures forall p :: Contains(r.options.queryParams, p) <==> Contains(opts.queryParams, p) || p in PagingPairs(offset, limit, auditLevel)
    ensures Names.HTTP_HEADER_CONTENT_TYPE in r.options.headers && r.options.headers[Names.HTTP_HEADER_CONTENT_TYPE] == APPLICATION_JSON
    ensures r.options == PagingOptions(offset, limit, auditLevel, opts)
  {
    ApiRequest(GET, PAGINATION_PATH, None, PagingOptions(offset, limit, auditLevel, opts))
  }

  /** The search key fills the placeholder verbatim, without URL encoding. */
  lemma SearchPath(searchKey: string)
    requires LiteralReplacement(searchKey)
    ensures Substitute(SEARCH_TEMPLATE, "searchKey", searchKey) == SEARCH_PREFIX + searchKey
  {
    SubstituteOnce(SEARCH_PREFIX, "searchKey", searchKey, "");
    assert SEARCH_TEMPLATE + "" == SEARCH_TEMPLATE;
    assert SEARCH_PREFIX + searchKey + "" == SEARCH_PREFIX + searchKey;
  }

  /** `searchCustomFields(searchKey, offset, limit, auditLevel,
      inputOptions)`: the key is required. */
  function SearchCustomFields(searchKey: Option<string>, offset: Option<Int64>, limit: Option<Int64>,
                              auditLevel: Option<AuditLevel>, opts: Options)
    : (r: Result<ApiRequest<()>, Error>)
    requires searchKey.Some? ==> LiteralReplacement(searchKey.value)
    ensures r.Success? <==> searchKey.Some?
    ensures r.Failure? ==> r.error == NullPointer(MissingParameter("searchKey", "searchCustomFields"))
    ensures r.Success? ==> r.value.verb == GET && r.value.path == SEARCH_PREFIX + searchKey.value && r.value.body.None?
    ensures r.Success? ==> r.value.options == GetCustomFields(offset, limit, auditLevel, opts).options
  {
    var key :- CheckNotNull(searchKey, MissingParameter("searchKey", "searchCustomFields"));
    SearchPath(key);
    Success(ApiRequest(GET, Substitute(SEARCH_TEMPLATE, "searchKey", key), None, PagingOptions(offset, limit, auditLevel, opts)))
  }
}
