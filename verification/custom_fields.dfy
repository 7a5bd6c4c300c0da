/** `deleteAccountCustomFields`: the ids to delete travel as one
    comma-separated `customFieldList` parameter. */
module CustomFields {
  import opened Wrappers
  import opened Multimap
  import opened Names
  import opened Http
  import opened Java
  import opened Audit
  import opened Text

  /** Guava `Joiner.on(",").join(ids)`: a null element throws a
      `NullPointerException` without a message. */
  function JoinIds(ids: seq<Option<Uuid>>): (r: Result<string, Error>)
    ensures r.Success? <==> forall i | 0 <= i < |ids| :: ids[i].Some?
    ensures r.Failure? ==> r.error == NullPointerNoMessage
    ensures r.Success? ==> r.value == Join(",", Present(ids))
  {
    if forall i | 0 <= i < |ids| :: ids[i].Some? then Success(Join(",", Present(ids)))
    else Failure(NullPointerNoMessage)
  }

  /** The ids of a list without nulls. */
  function Present(ids: seq<Option<Uuid>>): (r: seq<Uuid>)
    requires forall i | 0 <= i < |ids| :: ids[i].Some?
    ensures |r| == |ids|
    ensures forall i | 0 <= i < |ids| :: Some(r[i]) == ids[i]
  {
    seq(|ids|, i requires 0 <= i < |ids| => ids[i].value)
  }

  function CustomFieldsPath(accountId: Option<Uuid>): string {
    ACCOUNTS_PATH + "/" + ValueOf(accountId) + "/" + CUSTOM_FIELDS
  }

  /** `deleteAccountCustomFields(accountId, customFieldIds, createdBy, reason,
      comment)`: without ids (null) only the audit pairs are sent; with ids
      their comma-joined list is added. */
  function DeleteAccountCustomFields(accountId: Option<Uuid>, ids: Option<seq<Option<Uuid>>>,
                                     createdBy: Option<string>, reason: Option<string>, comment: Option<string>)
    : (r: Result<Call<()>, Error>)
    ensures r.Success? <==>
      (ids.Some? ==> forall i | 0 <= i < |ids.value| :: ids.value[i].Some?) && AuditPresent(createdBy, reason, comment)
    ensures ids.Some? && JoinIds(ids.value).Failure? ==> r == Failure(NullPointerNoMessage)
    ensures r.Success? ==> r.value.verb == DELETE && r.value.path == CustomFieldsPath(accountId)
    ensures r.Success? ==> r.value.body.None? && !r.value.follow && r.value.timeoutSec.None?
    ensures r.Success? && ids.None? ==> Values(Entries(r.value.query), QUERY_CUSTOM_FIELDS) == {}
    ensures r.Success? && ids.Some? ==> Values(Entries(r.value.query), QUERY_CUSTOM_FIELDS) == {Join(",", Present(ids.value))}
    ensures (ids.None? || JoinIds(ids.value).Success?) && !AuditPresent(createdBy, reason, comment) ==>
      r == Failure(AuditParams(createdBy, reason, comment).error)
    ensures r.Success? ==> AuditEntries(createdBy.value, reason.value, comment.value) <= Entries(r.value.query)
    ensures r.Success? ==> forall p :: p in Entries(r.value.query) ==>
      p.0 == QUERY_CUSTOM_FIELDS || p in AuditEntries(createdBy.value, reason.value, comment.value)
  {
    var params :- if ids.None? then Success(Empty)
                  else var joined :- JoinIds(ids.value); Success(Listed([(QUERY_CUSTOM_FIELDS, joined)]));
    var query :- ParamsWithAudit(params, createdBy, reason, comment);
    Success(Call(DELETE, CustomFieldsPath(accountId), None, query, false, None))
  }

  /** `deleteAccountCustomField(accountId, customFieldId, …)`: a one-element
      list, which Guava refuses to build around a null id. */
  function DeleteAccountCustomField(accountId: Option<Uuid>, customFieldId: Option<Uuid>,
                                    createdBy: Option<string>, reason: Option<string>, comment: Option<string>)
    : (r: Result<Call<()>, Error>)
    ensures r.Success? <==> customFieldId.Some? && AuditPresent(createdBy, reason, comment)
    ensures customFieldId.None? ==> r == Failure(NullPointerNoMessage)
    ensures customFieldId.Some? && !AuditPresent(createdBy, reason, comment) ==>
      r == Failure(AuditParams(createdBy, reason, comment).error)
    ensures r.Success? ==> r.value.verb == DELETE && r.value.path == CustomFieldsPath(accountId)
    ensures r.Success? ==> r.value.body.None? && !r.value.follow && r.value.timeoutSec.None?
    ensures r.Success? ==> AuditEntries(createdBy.value, reason.value, comment.value) <= Entries(r.value.query)
    ensures r.Success? ==> Values(Entries(r.value.query), QUERY_CUSTOM_FIELDS) == {customFieldId.value}
    ensures r.Success? ==>
      Entries(r.value.query) == {(QUERY_CUSTOM_FIELDS, customFieldId.value)} + AuditEntries(createdBy.value, reason.value, comment.value)
  {
    var id :- Deref(customFieldId);
    var r := DeleteAccountCustomFields(accountId, Some([Some(id)]), createdBy, reason, comment);
    assert Present([Some(id)]) == [id];
    r
  }

  /** `deleteAccountCustomFields(accountId, createdBy, reason, comment)`:
      no ids, so every custom field of the account is deleted. */
  function DeleteAllAccountCustomFields(accountId: Option<Uuid>,
                                        createdBy: Option<string>, reason: Option<string>, comment: Option<string>)
    : (r: Result<Call<()>, Error>)
    ensures r.Success? <==> AuditPresent(createdBy, reason, comment)
    ensures r.Success? ==> Values(Entries(r.value.query), QUERY_CUSTOM_FIELDS) == {}
  {
    DeleteAccountCustomFields(accountId, None, createdBy, reason, comment)
  }

  /** The server can recover the ids: splitting the parameter at commas
      gives back the non-empty list that was joined (a UUID has no comma). */
  lemma CustomFieldListRoundTrip(ids: seq<Uuid>)
    requires |ids| > 0
    ensures Split(Join(",", ids), ',') == ids
  {
    assert forall i | 0 <= i < |ids| :: ',' !in ids[i];
    SplitJoin(ids, ',');
  }

  /** An empty, non-null id list still sends `customFieldList`, with the
      empty value, which splits back to one empty id rather than to no
      ids: the round trip above needs a non-empty list. */
  lemma EmptyIdList(accountId: Option<Uuid>, createdBy: Option<string>, reason: Option<string>, comment: Option<string>)
    requires AuditPresent(createdBy, reason, comment)
    ensures var r := DeleteAccountCustomFields(accountId, Some([]), createdBy, reason, comment);
      r.Success? && Values(Entries(r.value.query), QUERY_CUSTOM_FIELDS) == {""}
    ensures Split(Join(",", []), ',') == [""]
  {
    assert Present([]) == [];
  }
}
