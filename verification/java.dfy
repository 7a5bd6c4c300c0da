/** Java library values the client handles without interpreting them. */
module Java {
  import opened Wrappers

  predicate IsUuidChar(c: char) {
    ('0' <= c <= '9') || ('a' <= c <= 'f') || ('A' <= c <= 'F') || c == '-'
  }

  /** `java.util.UUID`, represented by its `toString()` text: hexadecimal
      digits and dashes only. */
  type Uuid = s: string | forall i | 0 <= i < |s| :: IsUuidChar(s[i])

  /** `java.math.BigDecimal`; its `equals` compares the unscaled value and
      the scale, so 2.0 and 2.00 differ. */
  datatype BigDecimal = BigDecimal(unscaled: int, scale: int)

  /** `org.joda.time.LocalDate`. */
  datatype LocalDate = LocalDate(year: int, month: int, day: int)

  /** `org.killbill.billing.util.api.AuditLevel`. */
  datatype AuditLevel = NONE | MINIMAL | FULL

  /** The enum constant's name, which is what its `toString()` returns. */
  function AuditLevelName(level: AuditLevel): string {
    match level
    case NONE => "NONE"
    case MINIMAL => "MINIMAL"
    case FULL => "FULL"
  }

  /** `String.valueOf(auditLevel)`: the constant's name, or "null". */
  function AuditLevelValueOf(o: Option<AuditLevel>): (s: string)
    ensures o.None? ==> s == "null"
    ensures o.Some? ==> s == AuditLevelName(o.value)
  {
    if o.Some? then AuditLevelName(o.value) else "null"
  }

  /** `Boolean.toString()`. */
  function BooleanName(b: bool): string {
    if b then "true" else "false"
  }

  /** `String.valueOf(Object)` and string concatenation with `+`: a null
      reference is written as "null". */
  function ValueOf(o: Option<string>): (s: string)
    ensures o.Some? ==> s == o.value
    ensures o.None? ==> s == "null"
  {
    match o
    case Some(v) => v
    case None => "null"
  }

  /** The argument of an `equals(Object o)` call: null, an instance of the
      receiver's class, or an instance of some other class. */
  datatype JObject<T> = Null | Instance(value: T) | OtherClass(className: string)

  /** A `java.util.List` element of the inherited `auditLogs` field; its
      contents are not interpreted here. */
  datatype AuditLog = AuditLog(changeType: Option<string>, changeDate: Option<string>, changedBy: Option<string>,
                               reasonCode: Option<string>, comments: Option<string>, userToken: Option<string>)
}
