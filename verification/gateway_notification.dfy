/** The generated `GatewayNotification` model: five nullable fields with a
    fluent and a void setter each, lazily created header and property maps,
    and an `equals` that ignores the audit logs inherited from
    `KillBillObject`. */
module GatewayNotificationModel {
  import opened Wrappers
  import opened Java
  import opened Decimal

  /** A property value of type `Object`, known by its class and
      `toString()`. */
  datatype JavaObject = JavaObject(className: string, text: string)

  /** `HashMap` allows a null key and null values, so both are optional. */
  type Headers = map<Option<string>, Option<seq<string>>>
  type Properties = map<Option<string>, Option<JavaObject>>

  datatype GatewayNotification = GatewayNotification(
    kbPaymentId: Option<Uuid>,
    status: Option<Int32>,
    entity: Option<string>,
    headers: Option<Headers>,
    properties: Option<Properties>,
    auditLogs: Option<seq<AuditLog>>)

  datatype Field = KbPaymentId | Status | Entity | HeadersField | PropertiesField

  /** `a` and `b` agree on every field but `f` (and on `auditLogs`). */
  predicate SameExcept(a: GatewayNotification, b: GatewayNotification, f: Field) {
    && (f == KbPaymentId || a.kbPaymentId == b.kbPaymentId)
    && (f == Status || a.status == b.status)
    && (f == Entity || a.entity == b.entity)
    && (f == HeadersField || a.headers == b.headers)
    && (f == PropertiesField || a.properties == b.properties)
    && a.auditLogs == b.auditLogs
  }

  /** The void setters. */
  function SetKbPaymentId(g: GatewayNotification, v: Option<Uuid>): (r: GatewayNotification)
    ensures r.kbPaymentId == v && SameExcept(r, g, KbPaymentId)
  {
    g.(kbPaymentId := v)
  }

  function SetStatus(g: GatewayNotification, v: Option<Int32>): (r: GatewayNotification)
    ensures r.status == v && SameExcept(r, g, Status)
  {
    g.(status := v)
  }

  function SetEntity(g: GatewayNotification, v: Option<string>): (r: GatewayNotification)
    ensures r.entity == v && SameExcept(r, g, Entity)
  {
    g.(entity := v)
  }

  function SetHeaders(g: GatewayNotification, v: Option<Headers>): (r: GatewayNotification)
    ensures r.headers == v && SameExcept(r, g, HeadersField)
  {
    g.(headers := v)
  }

  function SetProperties(g: GatewayNotification, v: Option<Properties>): (r: GatewayNotification)
    ensures r.properties == v && SameExcept(r, g, PropertiesField)
  {
    g.(properties := v)
  }

  /** The fluent setters assign the field and return the receiver; each
      leaves the object as its void counterpart does. */
  function KbPaymentIdFluent(g: GatewayNotification, v: Option<Uuid>): (r: GatewayNotification)
    ensures r == SetKbPaymentId(g, v)
  {
    GatewayNotification(v, g.status, g.entity, g.headers, g.properties, g.auditLogs)
  }

  function StatusFluent(g: GatewayNotification, v: Option<Int32>): (r: GatewayNotification)
    ensures r == SetStatus(g, v)
  {
    GatewayNotification(g.kbPaymentId, v, g.entity, g.headers, g.properties, g.auditLogs)
  }

  function EntityFluent(g: GatewayNotification, v: Option<string>): (r: GatewayNotification)
    ensures r == SetEntity(g, v)
  {
    GatewayNotification(g.kbPaymentId, g.status, v, g.headers, g.properties, g.auditLogs)
  }

  function HeadersFluent(g: GatewayNotification, v: Option<Headers>): (r: GatewayNotification)
    ensures r == SetHeaders(g, v)
  {
    GatewayNotification(g.kbPaymentId, g.status, g.entity, v, g.properties, g.auditLogs)
  }

  function PropertiesFluent(g: GatewayNotification, v: Option<Properties>): (r: GatewayNotification)
    ensures r == SetProperties(g, v)
  {
    GatewayNotification(g.kbPaymentId, g.status, g.entity, g.headers, v, g.auditLogs)
  }

  /** `putHeadersItem(key, item)`: a null map is first replaced by an empty
      `HashMap`; then the key maps to the item and every other key keeps its
      entry. */
  function PutHeadersItem(g: GatewayNotification, key: Option<string>, item: Option<seq<string>>)
    : (r: GatewayNotification)
    ensures r.headers.Some? && SameExcept(r, g, HeadersField)
    ensures key in r.headers.value && r.headers.value[key] == item
    ensures forall k | k != key :: k in r.headers.value <==> g.headers.Some? && k in g.headers.value
    ensures forall k | k != key && k in r.headers.value :: r.headers.value[k] == g.headers.value[k]
  {
    var current := if g.headers.None? then map[] else g.headers.value;
    g.(headers := Some(current[key := item]))
  }

  /** `putPropertiesItem(key, item)`: the same lazy creation and put for the
      property map. */
  function PutPropertiesItem(g: GatewayNotification, key: Option<string>, item: Option<JavaObject>)
    : (r: GatewayNotification)
    ensures r.properties.Some? && SameExcept(r, g, PropertiesField)
    ensures key in r.properties.value && r.properties.value[key] == item
    ensures forall k | k != key :: k in r.properties.value <==> g.properties.Some? && k in g.properties.value
    ensures forall k | k != key && k in r.properties.value :: r.properties.value[k] == g.properties.value[k]
  {
    var current := if g.properties.None? then map[] else g.properties.value;
    g.(properties := Some(current[key := item]))
  }

  /** Putting the same key twice keeps only the second item. */
  lemma PutHeadersItemOverwrites(g: GatewayNotification, key: Option<string>, first: Option<seq<string>>,
                                 second: Option<seq<string>>)
    ensures PutHeadersItem(PutHeadersItem(g, key, first), key, second) == PutHeadersItem(g, key, second)
  {
    var current := if g.headers.None? then map[] else g.headers.value;
    assert current[key := first][key := second] == current[key := second];
  }

  /** `equals(o)`: false for null and another class, otherwise the five own
      fields compared with `Objects.equals`; `auditLogs` is not compared. */
  function Equals(a: GatewayNotification, o: JObject<GatewayNotification>): (r: bool)
    ensures o.Null? || o.OtherClass? ==> !r
    ensures r <==> o.Instance? && o.value.(auditLogs := a.auditLogs) == a
  {
    match o
    case Null => false
    case OtherClass(_) => false
    case Instance(b) =>
      && a.kbPaymentId == b.kbPaymentId
      && a.status == b.status
      && a.entity == b.entity
      && a.headers == b.headers
      && a.properties == b.properties
  }

  /** Notifications that differ only in their audit logs are equal. */
  lemma EqualsIgnoresAuditLogs(a: GatewayNotification, logs: Option<seq<AuditLog>>)
    ensures Equals(a, Instance(a.(auditLogs := logs)))
    ensures Equals(a.(auditLogs := logs), Instance(a))
  {
  }
}
