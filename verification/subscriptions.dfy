/** `KillBillClient.createSubscription`, `updateSubscription` and
    `cancelSubscription`: the call-completion flags derived from the
    timeout, the parameters present only for non-null arguments, and the
    HTTP timeout of a creation. */
module Subscriptions {
  import opened Wrappers
  import opened Multimap
  import opened Names
  import opened Http
  import opened Java
  import opened Decimal
  import opened Audit

  /** The subscription fields the client reads; each may be null. */
  datatype Subscription = Subscription(accountId: Option<Uuid>, subscriptionId: Option<Uuid>, externalKey: Option<string>,
                                       productName: Option<string>, productCategory: Option<string>,
                                       billingPeriod: Option<string>, priceList: Option<string>)

  /** `callCompletion` and `callTimeoutSec`, both always put. */
  function FlagPuts(timeoutSec: Int32): seq<(string, Option<string>)> {
    [(QUERY_CALL_COMPLETION, Some(BooleanName(timeoutSec > 0))),
     (QUERY_CALL_TIMEOUT, Some(IntToString(timeoutSec)))]
  }

  function AuditPuts(createdBy: string, reason: string, comment: string): seq<(string, Option<string>)> {
    [(AUDIT_OPTION_CREATED_BY, Some(createdBy)), (AUDIT_OPTION_REASON, Some(reason)), (AUDIT_OPTION_COMMENT, Some(comment))]
  }

  const FlagAndAuditKeys: set<string> :=
    {QUERY_CALL_COMPLETION, QUERY_CALL_TIMEOUT, AUDIT_OPTION_CREATED_BY, AUDIT_OPTION_REASON, AUDIT_OPTION_COMMENT}

  /** `Math.max(DEFAULT_HTTP_TIMEOUT_SEC, timeoutSec)`. */
  function HttpTimeout(timeoutSec: Int32): (t: int)
    ensures t >= DEFAULT_HTTP_TIMEOUT_SEC && t >= timeoutSec
    ensures t == DEFAULT_HTTP_TIMEOUT_SEC || t == timeoutSec
  {
    if DEFAULT_HTTP_TIMEOUT_SEC >= timeoutSec then DEFAULT_HTTP_TIMEOUT_SEC else timeoutSec
  }

  /** What the query of a subscription call says: completion is requested
      iff the timeout is positive, the timeout is sent in decimal, each
      optional parameter holds its argument iff that is non-null, the audit
      trail is attached, and no other key is present. */
  ghost predicate SubscriptionParams(es: set<Pair>, timeoutSec: Int32, optionals: seq<(string, Option<string>)>,
                                     createdBy: string, reason: string, comment: string) {
    && Values(es, QUERY_CALL_COMPLETION) == {BooleanName(timeoutSec > 0)}
    && Values(es, QUERY_CALL_TIMEOUT) == {IntToString(timeoutSec)}
    && (forall i | 0 <= i < |optionals| :: Values(es, optionals[i].0) == ValuesOf(optionals[i].1))
    && Values(es, AUDIT_OPTION_CREATED_BY) == {createdBy}
    && Values(es, AUDIT_OPTION_REASON) == {reason}
    && Values(es, AUDIT_OPTION_COMMENT) == {comment}
    && Keys(es) == FlagAndAuditKeys + PresentKeys(optionals)
  }

  predicate OptionalKeysFit(optionals: seq<(string, Option<string>)>) {
    && DistinctKeys(optionals)
    && forall i | 0 <= i < |optionals| :: optionals[i].0 !in FlagAndAuditKeys
  }

  /** The flags and optional parameters in a `HashMultimap`, merged with the
      audit trail by `paramsWithAudit`. */
  function SubscriptionQuery(timeoutSec: Int32, optionals: seq<(string, Option<string>)>,
                             createdBy: Option<string>, reason: Option<string>, comment: Option<string>): (r: Result<Multimap, Error>)
    requires OptionalKeysFit(optionals)
    ensures r.Success? <==> createdBy.Some? && reason.Some? && comment.Some?
    ensures r.Failure? ==> r.error == AuditParams(createdBy, reason, comment).error
    ensures r.Success? ==> r.value.Hashed?
    ensures r.Success? ==> SubscriptionParams(Entries(r.value), timeoutSec, optionals, createdBy.value, reason.value, comment.value)
  {
    var q :- ParamsWithAudit(Hashed(PutPresent(FlagPuts(timeoutSec) + optionals)), createdBy, reason, comment);
    QueryContents(timeoutSec, optionals, createdBy.value, reason.value, comment.value, q);
    Success(q)
  }

  /** The full list of puts behind a subscription query. */
  function AllPuts(timeoutSec: Int32, optionals: seq<(string, Option<string>)>,
                   createdBy: string, reason: string, comment: string): seq<(string, Option<string>)> {
    FlagPuts(timeoutSec) + optionals + AuditPuts(createdBy, reason, comment)
  }

  lemma FlagPutsShape(timeoutSec: Int32)
    ensures DistinctKeys(FlagPuts(timeoutSec))
    ensures AllKeys(FlagPuts(timeoutSec)) == {QUERY_CALL_COMPLETION, QUERY_CALL_TIMEOUT}
    ensures PresentKeys(FlagPuts(timeoutSec)) == {QUERY_CALL_COMPLETION, QUERY_CALL_TIMEOUT}
  {
  }

  lemma AuditPutsShape(createdBy: string, reason: string, comment: string)
    ensures DistinctKeys(AuditPuts(createdBy, reason, comment))
    ensures AllKeys(AuditPuts(createdBy, reason, comment)) == {AUDIT_OPTION_CREATED_BY, AUDIT_OPTION_REASON, AUDIT_OPTION_COMMENT}
    ensures PresentKeys(AuditPuts(createdBy, reason, comment)) == {AUDIT_OPTION_CREATED_BY, AUDIT_OPTION_REASON, AUDIT_OPTION_COMMENT}
    ensures PutPresent(AuditPuts(createdBy, reason, comment)) == AuditEntries(createdBy, reason, comment)
  {
    var l := AuditPuts(createdBy, reason, comment);
    assert l[1..][1..] == l[2..];
    assert PutPresent(l[2..]) == {(l[2].0, l[2].1.value)};
    assert PutPresent(l[1..]) == {(l[1].0, l[1].1.value)} + PutPresent(l[2..]);
    assert AllKeys(l[2..]) == {l[2].0};
    assert AllKeys(l[1..]) == {l[1].0} + AllKeys(l[2..]);
    assert PresentKeys(l[2..]) == {l[2].0};
    assert PresentKeys(l[1..]) == {l[1].0} + PresentKeys(l[2..]);
  }

  lemma OptionalKeysAvoidFlags(optionals: seq<(string, Option<string>)>)
    requires OptionalKeysFit(optionals)
    ensures AllKeys(optionals) !! FlagAndAuditKeys
  {
    forall k | k in AllKeys(optionals) ensures k !in FlagAndAuditKeys {
      var i :| 0 <= i < |optionals| && optionals[i].0 == k;
    }
  }

  lemma AllPutsDistinct(timeoutSec: Int32, optionals: seq<(string, Option<string>)>,
                        createdBy: string, reason: string, comment: string)
    requires OptionalKeysFit(optionals)
    ensures DistinctKeys(AllPuts(timeoutSec, optionals, createdBy, reason, comment))
  {
    var flags, audit := FlagPuts(timeoutSec), AuditPuts(createdBy, reason, comment);
    FlagPutsShape(timeoutSec);
    AuditPutsShape(createdBy, reason, comment);
    AllKeysAppend(flags, optionals);
    OptionalKeysAvoidFlags(optionals);
    DistinctKeysAppend(flags, optionals);
    assert AllKeys(flags + optionals) !! AllKeys(audit);
    DistinctKeysAppend(flags + optionals, audit);
  }

  lemma AllPutsPresentKeys(timeoutSec: Int32, optionals: seq<(string, Option<string>)>,
                           createdBy: string, reason: string, comment: string)
    ensures PresentKeys(AllPuts(timeoutSec, optionals, createdBy, reason, comment)) == FlagAndAuditKeys + PresentKeys(optionals)
  {
    var flags, audit := FlagPuts(timeoutSec), AuditPuts(createdBy, reason, comment);
    FlagPutsShape(timeoutSec);
    AuditPutsShape(createdBy, reason, comment);
    PresentKeysAppend(flags, optionals);
    PresentKeysAppend(flags + optionals, audit);
  }

  lemma AllPutsEntries(timeoutSec: Int32, optionals: seq<(string, Option<string>)>,
                       createdBy: string, reason: string, comment: string)
    ensures PutPresent(AllPuts(timeoutSec, optionals, createdBy, reason, comment))
         == PutPresent(FlagPuts(timeoutSec) + optionals) + AuditEntries(createdBy, reason, comment)
  {
    AuditPutsShape(createdBy, reason, comment);
    PutPresentAppend(FlagPuts(timeoutSec) + optionals, AuditPuts(createdBy, reason, comment));
  }

  /** The positions of the merged puts: the two flags first, then the
      optional parameters, then the three audit pairs. */
  lemma AllPutsLayout(timeoutSec: Int32, optionals: seq<(string, Option<string>)>,
                      createdBy: string, reason: string, comment: string)
    ensures var all := AllPuts(timeoutSec, optionals, createdBy, reason, comment);
      && |all| == |optionals| + 5
      && all[0] == (QUERY_CALL_COMPLETION, Some(BooleanName(timeoutSec > 0)))
      && all[1] == (QUERY_CALL_TIMEOUT, Some(IntToString(timeoutSec)))
      && (forall i | 0 <= i < |optionals| :: all[2 + i] == optionals[i])
      && all[|optionals| + 2] == (AUDIT_OPTION_CREATED_BY, Some(createdBy))
      && all[|optionals| + 3] == (AUDIT_OPTION_REASON, Some(reason))
      && all[|optionals| + 4] == (AUDIT_OPTION_COMMENT, Some(comment))
  {
  }

  /** The merged puts, read as a set of pairs, say what a subscription query
      says. */
  lemma AllPutsParams(timeoutSec: Int32, optionals: seq<(string, Option<string>)>,
                      createdBy: string, reason: string, comment: string)
    requires OptionalKeysFit(optionals)
    ensures SubscriptionParams(PutPresent(AllPuts(timeoutSec, optionals, createdBy, reason, comment)),
                               timeoutSec, optionals, createdBy, reason, comment)
  {
    var all := AllPuts(timeoutSec, optionals, createdBy, reason, comment);
    AllPutsDistinct(timeoutSec, optionals, createdBy, reason, comment);
    AllPutsPresentKeys(timeoutSec, optionals, createdBy, reason, comment);
    AllPutsLayout(timeoutSec, optionals, createdBy, reason, comment);
    PutPresentContents(all);
    var es := PutPresent(all);
    forall i | 0 <= i < |optionals| ensures Values(es, optionals[i].0) == ValuesOf(optionals[i].1) {
      assert all[2 + i] == optionals[i];
    }
    assert Values(es, all[0].0) == ValuesOf(all[0].1);
    assert Values(es, all[1].0) == ValuesOf(all[1].1);
    assert Values(es, all[|optionals| + 2].0) == ValuesOf(all[|optionals| + 2].1);
    assert Values(es, all[|optionals| + 3].0) == ValuesOf(all[|optionals| + 3].1);
    assert Values(es, all[|optionals| + 4].0) == ValuesOf(all[|optionals| + 4].1);
  }

  lemma QueryContents(timeoutSec: Int32, optionals: seq<(string, Option<string>)>,
                      createdBy: string, reason: string, comment: string, q: Multimap)
    requires OptionalKeysFit(optionals)
    requires ParamsWithAudit(Hashed(PutPresent(FlagPuts(timeoutSec) + optionals)), Some(createdBy), Some(reason), Some(comment)) == Success(q)
    ensures SubscriptionParams(Entries(q), timeoutSec, optionals, createdBy, reason, comment)
  {
    AllPutsEntries(timeoutSec, optionals, createdBy, reason, comment);
    assert Entries(q) == PutPresent(AllPuts(timeoutSec, optionals, createdBy, reason, comment));
    AllPutsParams(timeoutSec, optionals, createdBy, reason, comment);
  }

  /** The message of a failed null check on a subscription field. */
  function MissingField(field: string): string {
    "Subscription#" + field + " cannot be null"
  }

  /** `createSubscription(subscription, requestedDate, timeoutSec, createdBy,
      reason, comment)`: six required fields are null-checked in order, then
      the query is built and the subscription is posted with an HTTP
      timeout of at least the default. */
  function CreateSubscription(s: Subscription, requestedDate: Option<string>, timeoutSec: Int32,
                              createdBy: Option<string>, reason: Option<string>, comment: Option<string>): (r: Result<Call<Subscription>, Error>)
    ensures r.Success? <==>
      && s.accountId.Some? && s.externalKey.Some? && s.productName.Some? && s.productCategory.Some?
      && s.billingPeriod.Some? && s.priceList.Some? && AuditPresent(createdBy, reason, comment)
    ensures s.accountId.None? ==> r == Failure(NullPointer(MissingField("accountId")))
    ensures s.accountId.Some? && s.externalKey.None? ==> r == Failure(NullPointer(MissingField("externalKey")))
    ensures s.accountId.Some? && s.externalKey.Some? && s.productName.None? ==>
      r == Failure(NullPointer(MissingField("productName")))
    ensures s.accountId.Some? && s.externalKey.Some? && s.productName.Some? && s.productCategory.None? ==>
      r == Failure(NullPointer(MissingField("productCategory")))
    ensures (s.accountId.Some? && s.externalKey.Some? && s.productName.Some? && s.productCategory.Some?
             && s.billingPeriod.None?) ==> r == Failure(NullPointer(MissingField("billingPeriod")))
    ensures (s.accountId.Some? && s.externalKey.Some? && s.productName.Some? && s.productCategory.Some?
             && s.billingPeriod.Some? && s.priceList.None?) ==> r == Failure(NullPointer(MissingField("priceList")))
    ensures (s.accountId.Some? && s.externalKey.Some? && s.productName.Some? && s.productCategory.Some?
             && s.billingPeriod.Some? && s.priceList.Some? && !AuditPresent(createdBy, reason, comment)) ==>
      r == Failure(AuditParams(createdBy, reason, comment).error)
    ensures r.Success? ==> r.value.verb == POST && r.value.path == SUBSCRIPTIONS_PATH && r.value.body == Some(s) && r.value.follow
    ensures r.Success? ==> r.value.timeoutSec.Some? && r.value.timeoutSec.value >= DEFAULT_HTTP_TIMEOUT_SEC
    ensures r.Success? ==> r.value.timeoutSec == Some(HttpTimeout(timeoutSec))
    ensures r.Success? ==> r.value.query.Hashed? && SubscriptionParams(Entries(r.value.query), timeoutSec,
      [(QUERY_REQUESTED_DT, requestedDate)], createdBy.value, reason.value, comment.value)
  {
    var _ :- CheckNotNull(s.accountId, MissingField("accountId"));
    var _ :- CheckNotNull(s.externalKey, MissingField("externalKey"));
    var _ :- CheckNotNull(s.productName, MissingField("productName"));
    var _ :- CheckNotNull(s.productCategory, MissingField("productCategory"));
    var _ :- CheckNotNull(s.billingPeriod, MissingField("billingPeriod"));
    var _ :- CheckNotNull(s.priceList, MissingField("priceList"));
    var query :- SubscriptionQuery(timeoutSec, [(QUERY_REQUESTED_DT, requestedDate)], createdBy, reason, comment);
    Success(Call(POST, SUBSCRIPTIONS_PATH, Some(s), query, true, Some(HttpTimeout(timeoutSec))))
  }

  /** `createSubscription(subscription, createdBy, reason, comment)`: no
      requested date and a timeout of -1, so no completion is awaited and
      the HTTP timeout is the default. */
  function CreateSubscriptionDefaults(s: Subscription, createdBy: Option<string>, reason: Option<string>, comment: Option<string>): (r: Result<Call<Subscription>, Error>)
    ensures r.Success? ==> r.value.timeoutSec == Some(DEFAULT_HTTP_TIMEOUT_SEC)
    ensures r.Success? ==> Values(Entries(r.value.query), QUERY_CALL_COMPLETION) == {"false"}
    ensures r.Success? ==> Values(Entries(r.value.query), QUERY_CALL_TIMEOUT) == {"-1"}
    ensures r.Success? ==> Values(Entries(r.value.query), QUERY_REQUESTED_DT) == {}
  {
    var r := CreateSubscription(s, None, -1, createdBy, reason, comment);
    assert IntToString(-1) == "-1" by {
      assert NatToString(1) == "1";
    }
    r
  }

  /** `updateSubscription(subscription, requestedDate, billingPolicy,
      timeoutSec, createdBy, reason, comment)`. */
  function UpdateSubscription(s: Subscription, requestedDate: Option<string>, billingPolicy: Option<string>, timeoutSec: Int32,
                              createdBy: Option<string>, reason: Option<string>, comment: Option<string>): (r: Result<Call<Subscription>, Error>)
    ensures r.Success? <==>
      && s.subscriptionId.Some? && s.productName.Some? && s.billingPeriod.Some? && s.priceList.Some?
      && AuditPresent(createdBy, reason, comment)
    ensures s.subscriptionId.None? ==> r == Failure(NullPointer(MissingField("subscriptionId")))
    ensures s.subscriptionId.Some? && s.productName.None? ==> r == Failure(NullPointer(MissingField("productName")))
    ensures s.subscriptionId.Some? && s.productName.Some? && s.billingPeriod.None? ==>
      r == Failure(NullPointer(MissingField("billingPeriod")))
    ensures s.subscriptionId.Some? && s.productName.Some? && s.billingPeriod.Some? && s.priceList.None? ==>
      r == Failure(NullPointer(MissingField("priceList")))
    ensures (s.subscriptionId.Some? && s.productName.Some? && s.billingPeriod.Some? && s.priceList.Some?
             && !AuditPresent(createdBy, reason, comment)) ==> r == Failure(AuditParams(createdBy, reason, comment).error)
    ensures r.Success? ==> r.value.verb == PUT && r.value.path == SUBSCRIPTIONS_PATH + "/" + s.subscriptionId.value
    ensures r.Success? ==> r.value.body == Some(s) && !r.value.follow && r.value.timeoutSec.None?
    ensures r.Success? ==> r.value.query.Hashed? && SubscriptionParams(Entries(r.value.query), timeoutSec,
      [(QUERY_REQUESTED_DT, requestedDate), (QUERY_BILLING_POLICY, billingPolicy)], createdBy.value, reason.value, comment.value)
  {
    var id :- CheckNotNull(s.subscriptionId, MissingField("subscriptionId"));
    var _ :- CheckNotNull(s.productName, MissingField("productName"));
    var _ :- CheckNotNull(s.billingPeriod, MissingField("billingPeriod"));
    var _ :- CheckNotNull(s.priceList, MissingField("priceList"));
    var query :- SubscriptionQuery(timeoutSec, [(QUERY_REQUESTED_DT, requestedDate), (QUERY_BILLING_POLICY, billingPolicy)],
                                   createdBy, reason, comment);
    Success(Call(PUT, SUBSCRIPTIONS_PATH + "/" + id, Some(s), query, false, None))
  }

  /** `updateSubscription(subscription, billingPolicy, timeoutSec, createdBy,
      reason, comment)` as written: it forwards -1 instead of `timeoutSec`. */
  function UpdateSubscriptionWithPolicy(s: Subscription, billingPolicy: Option<string>, timeoutSec: Int32,
                                        createdBy: Option<string>, reason: Option<string>, comment: Option<string>): (r: Result<Call<Subscription>, Error>)
    ensures r.Success? ==> Values(Entries(r.value.query), QUERY_CALL_COMPLETION) == {"false"}
  {
    UpdateSubscription(s, None, billingPolicy, -1, createdBy, reason, comment)
  }

  /** The as-written overload ignores its timeout: any timeout gives the same
      call as -1. */
  lemma UpdateSubscriptionWithPolicyIgnoresTimeout(s: Subscription, billingPolicy: Option<string>, timeoutSec: Int32,
                                                  createdBy: Option<string>, reason: Option<string>, comment: Option<string>)
    ensures UpdateSubscriptionWithPolicy(s, billingPolicy, timeoutSec, createdBy, reason, comment)
         == UpdateSubscriptionWithPolicy(s, billingPolicy, -1, createdBy, reason, comment)
  {
  }

  /** A caller asking for a 30-second completion wait gets `callCompletion`
      "false". */
  lemma UpdateSubscriptionWithPolicyDropsTimeout()
    ensures var s := Subscription(None, Some("1"), None, Some("Shotgun"), None, Some("MONTHLY"), Some("DEFAULT"));
      var r := UpdateSubscriptionWithPolicy(s, None, 30, Some("admin"), Some("upgrade"), Some("none"));
      r.Success? && Values(Entries(r.value.query), QUERY_CALL_COMPLETION) == {"false"} && !(30 <= 0)
  {
    var s := Subscription(None, Some("1"), None, Some("Shotgun"), None, Some("MONTHLY"), Some("DEFAULT"));
    var r := UpdateSubscriptionWithPolicy(s, None, 30, Some("admin"), Some("upgrade"), Some("none"));
    assert r.Success?;
  }

  /** The overload with its evident intent: the timeout is forwarded, so
      completion is awaited iff it is positive. */
  function UpdateSubscriptionWithPolicyCorrected(s: Subscription, billingPolicy: Option<string>, timeoutSec: Int32,
                                                 createdBy: Option<string>, reason: Option<string>, comment: Option<string>): (r: Result<Call<Subscription>, Error>)
    ensures r.Success? ==> Values(Entries(r.value.query), QUERY_CALL_COMPLETION) == {BooleanName(timeoutSec > 0)}
    ensures r.Success? ==> Values(Entries(r.value.query), QUERY_CALL_TIMEOUT) == {IntToString(timeoutSec)}
    ensures r.Success? ==> Values(Entries(r.value.query), QUERY_BILLING_POLICY) == ValuesOf(billingPolicy)
  {
    var r := UpdateSubscription(s, None, billingPolicy, timeoutSec, createdBy, reason, comment);
    assert r.Success? ==> Values(Entries(r.value.query), QUERY_BILLING_POLICY) == ValuesOf(billingPolicy) by {
      var optionals := [(QUERY_REQUESTED_DT, None), (QUERY_BILLING_POLICY, billingPolicy)];
      assert optionals[1].0 == QUERY_BILLING_POLICY;
    }
    r
  }

  /** `cancelSubscription(subscriptionId, requestedDate, entitlementPolicy,
      billingPolicy, timeoutSec, createdBy, reason, comment)`: nothing is
      null-checked; a null id is written as "null" in the path. */
  function CancelSubscription(subscriptionId: Option<Uuid>, requestedDate: Option<string>, entitlementPolicy: Option<string>,
                              billingPolicy: Option<string>, timeoutSec: Int32,
                              createdBy: Option<string>, reason: Option<string>, comment: Option<string>): (r: Result<Call<()>, Error>)
    ensures r.Success? <==> AuditPresent(createdBy, reason, comment)
    ensures r.Success? ==> r.value.verb == DELETE && r.value.body.None? && !r.value.follow && r.value.timeoutSec.None?
    ensures r.Success? ==> r.value.path == SUBSCRIPTIONS_PATH + "/" + ValueOf(subscriptionId)
    ensures r.Success? ==> r.value.query.Hashed? && SubscriptionParams(Entries(r.value.query), timeoutSec,
      [(QUERY_REQUESTED_DT, requestedDate), (QUERY_ENTITLEMENT_POLICY, entitlementPolicy), (QUERY_BILLING_POLICY, billingPolicy)],
      createdBy.value, reason.value, comment.value)
  {
    var optionals := [(QUERY_REQUESTED_DT, requestedDate), (QUERY_ENTITLEMENT_POLICY, entitlementPolicy),
                      (QUERY_BILLING_POLICY, billingPolicy)];
    var query :- SubscriptionQuery(timeoutSec, optionals, createdBy, reason, comment);
    Success(Call(DELETE, SUBSCRIPTIONS_PATH + "/" + ValueOf(subscriptionId), None, query, false, None))
  }
}
