/** `ExportApi`: the plain-text export of one account's data. */
module ExportApi {
  import opened Wrappers
  import opened Http
  import opened Java
  import opened AdminApi
  import opened ApiOptions
  import Names

  const EXPORT_PREFIX := "/1.0/kb/export/"
  const EXPORT_TEMPLATE := EXPORT_PREFIX + Placeholder("accountId")

  /** The account id fills the one placeholder. */
  lemma ExportPath(id: Uuid)
    ensures Substitute(EXPORT_TEMPLATE, "accountId", id) == EXPORT_PREFIX + id
  {
    UuidIsPlain(id);
    SubstituteOnce(EXPORT_PREFIX, "accountId", id, "");
    assert EXPORT_TEMPLATE + "" == EXPORT_TEMPLATE;
    assert EXPORT_PREFIX + id + "" == EXPORT_PREFIX + id;
  }

  /** `exportDataForAccount(accountId, inputOptions)`: the account id is
      required; the caller's query and followLocation pass unchanged and the
      content type is plain text. */
  function ExportDataForAccount(accountId: Option<Uuid>, opts: Options): (r: Result<ApiRequest<()>, Error>)
    ensures r.Success? <==> accountId.Some?
    ensures r.Failure? ==> r.error == NullPointer(MissingParameter("accountId", "exportDataForAccount"))
    ensures r.Success? ==> r.value.verb == GET && r.value.path == EXPORT_PREFIX + accountId.value && r.value.body.None?
    ensures r.Success? ==> r.value.options.queryParams == opts.queryParams && r.value.options.followLocation == opts.followLocation
    ensures r.Success? ==> r.value.options.headers == opts.headers[Names.HTTP_HEADER_CONTENT_TYPE := TEXT_PLAIN]
  {
    var id :- CheckNotNull(accountId, MissingParameter("accountId", "exportDataForAccount"));
    ExportPath(id);
    UuidIsPlain(id);
    Success(ApiRequest(GET, Substitute(EXPORT_TEMPLATE, "accountId", id), None, WithHeader(opts, Names.HTTP_HEADER_CONTENT_TYPE, TEXT_PLAIN)))
  }
}
