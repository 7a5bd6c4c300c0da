/** External charges: `createExternalCharges` groups the charges by
    account and posts each account's charges in one request. */
module Charges {
  import opened Wrappers
  import opened Multimap
  import opened Names
  import opened Http
  import opened Java
  import opened Audit

  /** The parts of an `InvoiceItem` the client looks at; the rest of the
      item travels in the request body untouched. */
  datatype InvoiceItem = InvoiceItem(invoiceItemId: Option<Uuid>, accountId: Option<Uuid>,
                                     amount: Option<BigDecimal>, currency: Option<string>,
                                     description: Option<string>)

  /** The three fields an external charge must carry. */
  predicate Valid(c: InvoiceItem) {
    c.accountId.Some? && c.amount.Some? && c.currency.Some?
  }

  predicate AllValid(charges: seq<InvoiceItem>) {
    forall i | 0 <= i < |charges| :: Valid(charges[i])
  }

  /** The checks made on each charge, in the order they are made; a valid
      charge yields its account. */
  function CheckCharge(c: InvoiceItem): (r: Result<Uuid, Error>)
    ensures r.Success? <==> Valid(c)
    ensures r.Success? ==> c.accountId == Some(r.value)
    ensures c.accountId.None? ==> r.error == NullPointer("InvoiceItem#accountId cannot be null")
    ensures c.accountId.Some? && c.amount.None? ==> r.error == NullPointer("InvoiceItem#amount cannot be null")
    ensures c.accountId.Some? && c.amount.Some? && c.currency.None? ==> r.error == NullPointer("InvoiceItem#currency cannot be null")
  {
    var accountId :- CheckNotNull(c.accountId, "InvoiceItem#accountId cannot be null");
    var _ :- CheckNotNull(c.amount, "InvoiceItem#amount cannot be null");
    var _ :- CheckNotNull(c.currency, "InvoiceItem#currency cannot be null");
    Success(accountId)
  }

  /** The accounts the charges name. */
  function AccountsOf(charges: seq<InvoiceItem>): set<Uuid> {
    if |charges| == 0 then {}
    else
      var last := charges[|charges| - 1];
      AccountsOf(charges[..|charges| - 1]) + (if last.accountId.Some? then {last.accountId.value} else {})
  }

  /** An account is among `AccountsOf(charges)` iff some charge names it. */
  lemma {:induction false} AccountsOfNamed(charges: seq<InvoiceItem>, a: Uuid)
    ensures a in AccountsOf(charges) <==> exists i | 0 <= i < |charges| :: charges[i].accountId == Some(a)
  {
    if |charges| > 0 {
      var init := charges[..|charges| - 1];
      AccountsOfNamed(init, a);
      if a in AccountsOf(init) {
        var i :| 0 <= i < |init| && init[i].accountId == Some(a);
        assert charges[i] == init[i];
      }
      if exists i | 0 <= i < |charges| :: charges[i].accountId == Some(a) {
        var i :| 0 <= i < |charges| && charges[i].accountId == Some(a);
        if i < |init| {
          assert init[i] == charges[i];
        }
      }
    }
  }

  /** The charges of account `a`, in the order they were given. */
  function ChargesOf(charges: seq<InvoiceItem>, a: Uuid): (r: seq<InvoiceItem>)
    ensures forall c | c in r :: c in charges && c.accountId == Some(a)
    ensures |r| > 0 <==> a in AccountsOf(charges)
  {
    if |charges| == 0 then []
    else
      var last := charges[|charges| - 1];
      ChargesOf(charges[..|charges| - 1], a) + (if last.accountId == Some(a) then [last] else [])
  }

  /** Appending a charge adds its account and extends that account's list
      only. */
  lemma AppendCharge(charges: seq<InvoiceItem>, c: InvoiceItem)
    requires c.accountId.Some?
    ensures AccountsOf(charges + [c]) == AccountsOf(charges) + {c.accountId.value}
    ensures forall a :: ChargesOf(charges + [c], a) == ChargesOf(charges, a) + (if c.accountId == Some(a) then [c] else [])
  {
    assert (charges + [c])[..|charges + [c]| - 1] == charges;
  }

  lemma TakeOneMore<T>(s: seq<T>, i: int)
    requires 0 <= i < |s|
    ensures s[..i + 1] == s[..i] + [s[i]]
  {
  }

  /** `groups` holds, per account, exactly the charges of `done` that name
      it. */
  predicate Tracks(groups: map<Uuid, seq<InvoiceItem>>, done: seq<InvoiceItem>) {
    && groups.Keys == AccountsOf(done)
    && forall a | a in groups :: groups[a] == ChargesOf(done, a)
  }

  /** The loop body's update: create the list on first sight, then append. */
  function AddToGroup(groups: map<Uuid, seq<InvoiceItem>>, a: Uuid, c: InvoiceItem): map<Uuid, seq<InvoiceItem>> {
    groups[a := (if a in groups then groups[a] else []) + [c]]
  }

  lemma AddToGroupTracks(groups: map<Uuid, seq<InvoiceItem>>, done: seq<InvoiceItem>, c: InvoiceItem)
    requires c.accountId.Some?
    requires Tracks(groups, done)
    ensures Tracks(AddToGroup(groups, c.accountId.value, c), done + [c])
  {
    AppendCharge(done, c);
  }

  /** The position of the first charge that fails its checks, or the
      number of charges when every charge passes. */
  function FirstInvalid(charges: seq<InvoiceItem>): (i: nat)
    ensures i <= |charges|
    ensures AllValid(charges[..i])
    ensures i < |charges| ==> !Valid(charges[i])
    ensures i == |charges| <==> AllValid(charges)
  {
    if |charges| == 0 || !Valid(charges[0]) then 0 else 1 + FirstInvalid(charges[1..])
  }

  /** A failing check after a valid prefix is the first failure. */
  lemma FirstFailure(charges: seq<InvoiceItem>, i: int)
    requires 0 <= i < |charges|
    requires AllValid(charges[..i]) && !Valid(charges[i])
    ensures FirstInvalid(charges) == i
  {
  }

  /** One more valid charge extends the valid prefix. */
  lemma ValidPrefixGrows(charges: seq<InvoiceItem>, i: int)
    requires 0 <= i < |charges|
    requires AllValid(charges[..i]) && Valid(charges[i])
    ensures AllValid(charges[..i + 1])
  {
    TakeOneMore(charges, i);
    assert forall j | 0 <= j < i :: charges[..i + 1][j] == charges[..i][j];
  }

  /** The first loop of `createExternalCharges`: every charge is checked and
      appended to its account's list in a `HashMap`. Fails with the first
      failing check. */
  method GroupByAccount(charges: seq<InvoiceItem>) returns (r: Result<map<Uuid, seq<InvoiceItem>>, Error>)
    ensures r.Success? <==> AllValid(charges)
    ensures r.Failure? ==> r.error == CheckCharge(charges[FirstInvalid(charges)]).error
    ensures r.Success? ==> r.value.Keys == AccountsOf(charges)
    ensures r.Success? ==> forall a | a in r.value :: r.value[a] == ChargesOf(charges, a)
  {
    var groups: map<Uuid, seq<InvoiceItem>> := map[];
    for i := 0 to |charges|
      invariant AllValid(charges[..i])
      invariant Tracks(groups, charges[..i])
    {
      var c := charges[i];
      var check := CheckCharge(c);
      if check.Failure? {
        FirstFailure(charges, i);
        return Failure(check.error);
      }
      ValidPrefixGrows(charges, i);
      AddToGroupTracks(groups, charges[..i], c);
      TakeOneMore(charges, i);
      groups := AddToGroup(groups, check.value, c);
    }
    assert charges[..|charges|] == charges;
    return Success(groups);
  }

  function ChargeEntries(requestedDate: string, autoPay: bool, createdBy: string, reason: string, comment: string): set<Pair> {
    {(QUERY_REQUESTED_DT, requestedDate), (QUERY_PAY_INVOICE, BooleanName(autoPay))} + AuditEntries(createdBy, reason, comment)
  }

  /** The query of the per-account request: `requestedDate` and `autoPay`
      are dereferenced first, then the audit pairs are added. */
  function ChargeQuery(requestedDate: Option<string>, autoPay: Option<bool>,
                       createdBy: Option<string>, reason: Option<string>, comment: Option<string>): (r: Result<Multimap, Error>)
    ensures r.Success? <==> requestedDate.Some? && autoPay.Some? && AuditPresent(createdBy, reason, comment)
    ensures requestedDate.None? || autoPay.None? ==> r == Failure(NullPointerNoMessage)
    ensures requestedDate.Some? && autoPay.Some? && r.Failure? ==> r.error == AuditParams(createdBy, reason, comment).error
    ensures r.Success? ==> Entries(r.value) == ChargeEntries(requestedDate.value, autoPay.value, createdBy.value, reason.value, comment.value)
  {
    var date :- Deref(requestedDate);
    var pay :- Deref(autoPay);
    ParamsWithAudit(Listed([(QUERY_REQUESTED_DT, date), (QUERY_PAY_INVOICE, BooleanName(pay))]), createdBy, reason, comment)
  }

  function ChargesPath(accountId: Uuid): string {
    INVOICES_PATH + "/" + CHARGES + "/" + accountId
  }

  /** The per-account POST of the charges `items`. */
  function ChargeCall(accountId: Uuid, items: seq<InvoiceItem>, query: Multimap): Call<seq<InvoiceItem>> {
    Call(POST, ChargesPath(accountId), Some(items), query, false, None)
  }

  predicate Distinct<T(==)>(s: seq<T>) {
    forall i, j | 0 <= i < j < |s| :: s[i] != s[j]
  }

  /** Valid charges name at least one account iff there is a charge. */
  lemma NoAccountsNoCharges(charges: seq<InvoiceItem>, order: seq<Uuid>)
    requires AllValid(charges)
    requires forall a :: a in order <==> a in AccountsOf(charges)
    ensures |order| == 0 <==> |charges| == 0
  {
    if |charges| > 0 {
      AccountsOfNamed(charges, charges[0].accountId.value);
      assert charges[0].accountId.value in order;
    }
    if |order| > 0 {
      assert order[0] in AccountsOf(charges);
      AccountsOfNamed(charges, order[0]);
    }
  }

  /** The requests of `createExternalCharges(externalCharges, requestedDate,
      autoPay, createdBy, reason, comment)`: one POST per account, in
      `order`, the order in which the `HashMap` enumerates the accounts. The
      query is built for the first account, so with no charges nothing is
      dereferenced and nothing fails. */
  method ChargeRequests(charges: seq<InvoiceItem>, order: seq<Uuid>, requestedDate: Option<string>, autoPay: Option<bool>,
                        createdBy: Option<string>, reason: Option<string>, comment: Option<string>)
    returns (r: Result<seq<Call<seq<InvoiceItem>>>, Error>)
    requires Distinct(order)
    requires forall a :: a in order <==> a in AccountsOf(charges)
    ensures r.Success? <==>
      AllValid(charges) && (|charges| > 0 ==> requestedDate.Some? && autoPay.Some? && AuditPresent(createdBy, reason, comment))
    ensures !AllValid(charges) ==> r == Failure(CheckCharge(charges[FirstInvalid(charges)]).error)
    ensures AllValid(charges) && |charges| > 0 && (requestedDate.None? || autoPay.None?) ==> r == Failure(NullPointerNoMessage)
    ensures (AllValid(charges) && |charges| > 0 && requestedDate.Some? && autoPay.Some?
             && !AuditPresent(createdBy, reason, comment)) ==> r == Failure(AuditParams(createdBy, reason, comment).error)
    ensures r.Success? ==> |r.value| == |order|
    ensures r.Success? ==> forall k | 0 <= k < |order| ::
      r.value[k] == ChargeCall(order[k], ChargesOf(charges, order[k]), ChargeQuery(requestedDate, autoPay, createdBy, reason, comment).value)
  {
    var groups :- GroupByAccount(charges);
    NoAccountsNoCharges(charges, order);
    if |order| == 0 {
      return Success([]);
    }
    var query :- ChargeQuery(requestedDate, autoPay, createdBy, reason, comment);
    var calls := PostPerAccount(groups, order, query);
    return Success(calls);
  }

  /** The per-account requests for the accounts in `order`. */
  function ChargeCalls(charges: seq<InvoiceItem>, order: seq<Uuid>, query: Multimap): (r: seq<Call<seq<InvoiceItem>>>)
    ensures |r| == |order|
    ensures forall k | 0 <= k < |order| :: r[k] == ChargeCall(order[k], ChargesOf(charges, order[k]), query)
  {
    seq(|order|, k requires 0 <= k < |order| => ChargeCall(order[k], ChargesOf(charges, order[k]), query))
  }

  /** `createExternalCharges(externalCharges, requestedDate, autoPay,
      createdBy, reason, comment)`: the requests above are sent in turn and
      the charges the server answers, `respond`, are returned concatenated
      in request order. */
  method CreateExternalCharges(charges: seq<InvoiceItem>, order: seq<Uuid>, requestedDate: Option<string>, autoPay: Option<bool>,
                               createdBy: Option<string>, reason: Option<string>, comment: Option<string>,
                               respond: Call<seq<InvoiceItem>> -> seq<InvoiceItem>)
    returns (r: Result<seq<InvoiceItem>, Error>)
    requires Distinct(order)
    requires forall a :: a in order <==> a in AccountsOf(charges)
    ensures r.Success? <==>
      AllValid(charges) && (|charges| > 0 ==> requestedDate.Some? && autoPay.Some? && AuditPresent(createdBy, reason, comment))
    ensures !AllValid(charges) ==> r == Failure(CheckCharge(charges[FirstInvalid(charges)]).error)
    ensures AllValid(charges) && |charges| > 0 && (requestedDate.None? || autoPay.None?) ==> r == Failure(NullPointerNoMessage)
    ensures (AllValid(charges) && |charges| > 0 && requestedDate.Some? && autoPay.Some?
             && !AuditPresent(createdBy, reason, comment)) ==> r == Failure(AuditParams(createdBy, reason, comment).error)
    ensures r.Success? && |charges| == 0 ==> r.value == []
    ensures r.Success? && |charges| > 0 ==>
      r.value == Created(ChargeCalls(charges, order, ChargeQuery(requestedDate, autoPay, createdBy, reason, comment).value), respond)
  {
    var calls :- ChargeRequests(charges, order, requestedDate, autoPay, createdBy, reason, comment);
    NoAccountsNoCharges(charges, order);
    if |charges| == 0 {
      return Success([]);
    }
    assert calls == ChargeCalls(charges, order, ChargeQuery(requestedDate, autoPay, createdBy, reason, comment).value);
    return Success(Created(calls, respond));
  }

  /** The second loop of `createExternalCharges`: one POST per account of
      the grouping, in enumeration order. */
  method PostPerAccount(groups: map<Uuid, seq<InvoiceItem>>, order: seq<Uuid>, query: Multimap)
    returns (calls: seq<Call<seq<InvoiceItem>>>)
    requires forall a | a in order :: a in groups
    ensures |calls| == |order|
    ensures forall k | 0 <= k < |order| :: calls[k] == ChargeCall(order[k], groups[order[k]], query)
  {
    calls := [];
    for k := 0 to |order|
      invariant |calls| == k
      invariant forall j | 0 <= j < k :: calls[j] == ChargeCall(order[j], groups[order[j]], query)
    {
      calls := calls + [ChargeCall(order[k], groups[order[k]], query)];
    }
  }

  /** Every charge lands in exactly one request: the request bodies, taken
      in any enumeration of the accounts, are a permutation of the charges. */
  function Bodies(charges: seq<InvoiceItem>, order: seq<Uuid>): seq<InvoiceItem> {
    if |order| == 0 then [] else ChargesOf(charges, order[0]) + Bodies(charges, order[1..])
  }

  /** Appending a charge adds it to the body of its own account only. */
  lemma {:induction false} BodiesAppend(charges: seq<InvoiceItem>, c: InvoiceItem, order: seq<Uuid>)
    requires Distinct(order)
    requires c.accountId.Some? && c.accountId.value in order
    ensures multiset(Bodies(charges + [c], order)) == multiset(Bodies(charges, order)) + multiset{c}
  {
    var a := c.accountId.value;
    assert (charges + [c])[..|charges + [c]| - 1] == charges;
    var rest := order[1..];
    if order[0] == a {
      assert a !in rest by {
        forall j | 0 <= j < |rest| ensures rest[j] != a {
          assert rest[j] == order[j + 1];
        }
      }
      BodiesUnchanged(charges, c, rest);
    } else {
      assert a in rest;
      assert Distinct(rest) by {
        forall i, j | 0 <= i < j < |rest| ensures rest[i] != rest[j] {
          assert rest[i] == order[i + 1] && rest[j] == order[j + 1];
        }
      }
      BodiesAppend(charges, c, rest);
    }
  }

  /** A charge of an account the enumeration leaves out changes no body. */
  lemma {:induction false} BodiesUnchanged(charges: seq<InvoiceItem>, c: InvoiceItem, order: seq<Uuid>)
    requires c.accountId.Some? && c.accountId.value !in order
    ensures Bodies(charges + [c], order) == Bodies(charges, order)
  {
    assert (charges + [c])[..|charges + [c]| - 1] == charges;
    if |order| > 0 {
      assert order[0] != c.accountId.value;
      BodiesUnchanged(charges, c, order[1..]);
    }
  }

  /** For valid charges and an enumeration listing every account once, the
      bodies of the requests hold each charge exactly once. */
  lemma {:induction false} ChargesArePartitioned(charges: seq<InvoiceItem>, order: seq<Uuid>)
    requires AllValid(charges)
    requires Distinct(order)
    requires AccountsOf(charges) <= set a | a in order
    ensures multiset(Bodies(charges, order)) == multiset(charges)
  {
    if |charges| == 0 {
      BodiesEmpty(order);
    } else {
      var init := charges[..|charges| - 1];
      var c := charges[|charges| - 1];
      assert charges == init + [c];
      assert AllValid(init) by {
        forall i | 0 <= i < |init| ensures Valid(init[i]) {
          assert init[i] == charges[i];
        }
      }
      assert AccountsOf(charges) == AccountsOf(init) + {c.accountId.value};
      ChargesArePartitioned(init, order);
      BodiesAppend(init, c, order);
    }
  }

  lemma {:induction false} BodiesEmpty(order: seq<Uuid>)
    ensures Bodies([], order) == []
  {
    if |order| > 0 {
      BodiesEmpty(order[1..]);
    }
  }

  /** The answers of the server to `calls`, concatenated in request order;
      each request's answer is a sub-multiset of the whole. */
  function Created(calls: seq<Call<seq<InvoiceItem>>>, respond: Call<seq<InvoiceItem>> -> seq<InvoiceItem>): (r: seq<InvoiceItem>)
    ensures |calls| > 0 ==> |respond(calls[0])| <= |r| && r[..|respond(calls[0])|] == respond(calls[0])
    ensures forall k | 0 <= k < |calls| :: multiset(respond(calls[k])) <= multiset(r)
  {
    if |calls| == 0 then []
    else
      var rest := Created(calls[1..], respond);
      assert forall k | 1 <= k < |calls| :: calls[k] == calls[1..][k - 1];
      respond(calls[0]) + rest
  }

  /** A server that creates exactly the charges it is sent answers with
      every charge once: the answers are a permutation of the input. */
  function Echo(call: Call<seq<InvoiceItem>>): seq<InvoiceItem> {
    if call.body.Some? then call.body.value else []
  }

  lemma {:induction false} CreatedEchoIsBodies(charges: seq<InvoiceItem>, order: seq<Uuid>, query: Multimap)
    ensures Created(ChargeCalls(charges, order, query), Echo) == Bodies(charges, order)
  {
    if |order| > 0 {
      var calls := ChargeCalls(charges, order, query);
      assert calls[1..] == ChargeCalls(charges, order[1..], query);
      CreatedEchoIsBodies(charges, order[1..], query);
    }
  }

  lemma EchoCreatesEveryCharge(charges: seq<InvoiceItem>, order: seq<Uuid>, query: Multimap)
    requires AllValid(charges)
    requires Distinct(order)
    requires forall a :: a in order <==> a in AccountsOf(charges)
    ensures multiset(Created(ChargeCalls(charges, order, query), Echo)) == multiset(charges)
  {
    CreatedEchoIsBodies(charges, order, query);
    ChargesArePartitioned(charges, order);
  }

  /** `createExternalCharge(externalCharge, …)`: the one-element case; the
      first charge the server returns, or null when it returns none. */
  method CreateExternalCharge(externalCharge: Option<InvoiceItem>, requestedDate: Option<string>, autoPay: Option<bool>,
                              createdBy: Option<string>, reason: Option<string>, comment: Option<string>,
                              respond: Call<seq<InvoiceItem>> -> seq<InvoiceItem>)
    returns (r: Result<Option<InvoiceItem>, Error>)
    ensures r.Success? <==>
      externalCharge.Some? && Valid(externalCharge.value) && requestedDate.Some? && autoPay.Some? && AuditPresent(createdBy, reason, comment)
    ensures externalCharge.None? ==> r == Failure(NullPointerNoMessage)
    ensures externalCharge.Some? && !Valid(externalCharge.value) ==> r == Failure(CheckCharge(externalCharge.value).error)
    ensures r.Success? ==>
      var charge := externalCharge.value;
      var call := ChargeCall(charge.accountId.value, [charge], ChargeQuery(requestedDate, autoPay, createdBy, reason, comment).value);
      && (r.value.None? <==> respond(call) == [])
      && (r.value.Some? ==> r.value.value == respond(call)[0])
  {
    var charge :- Deref(externalCharge);
    if charge.accountId.None? {
      return Failure(CheckCharge(charge).error);
    }
    var charges := [charge];
    assert AccountsOf(charges) == {charge.accountId.value};
    var created :- CreateExternalCharges(charges, [charge.accountId.value], requestedDate, autoPay, createdBy, reason, comment, respond);
    assert ChargesOf(charges, charge.accountId.value) == [charge] by {
      assert charges[..0] == [];
    }
    var calls := ChargeCalls(charges, [charge.accountId.value], ChargeQuery(requestedDate, autoPay, createdBy, reason, comment).value);
    assert Created(calls[1..], respond) == [];
    return Success(if |created| == 0 then None else Some(created[0]));
  }
}
