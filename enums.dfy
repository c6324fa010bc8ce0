/** The REST enumerations that search filters, queries and jobs rely on
    (resttypes/enums.py). Every one derives from PrintableEnum, whose `__str__`
    and `untype` both return the member's value. A class body is kept as the
    list of its (attribute name, value literal) assignments in declaration
    order; a member is named by its class and attribute name. */
module Enums {
  import opened PyBase

  datatype EnumType =
    | DeploymentInstanceStatus
    | Aggregation
    | ResourceType
    | Condition
    | JobStatus
    | ResultOrder
    | ServerStatus

  /** Each class body as its (attribute name, value literal) assignments, in
      declaration order. */
  function Definitions(e: EnumType): seq<(string, string)>
  {
    match e
    case DeploymentInstanceStatus => DeploymentInstanceStatusBody
    case Aggregation => AggregationBody
    case ResourceType => ResourceTypeBody
    case Condition => ConditionBody
    case JobStatus => JobStatusBody
    case ResultOrder => ResultOrderBody
    case ServerStatus => ServerStatusBody
  }

  // resttypes/enums.py:41-51
  const DeploymentInstanceStatusBody: seq<(string, string)> := [
    ("BUILDING", "BUILDING"),
    ("RECOVERY", "RECOVERY"),
    ("STARTING", "STARTING"),
    ("REBOOTING", "REBOOTING"),
    ("INSTALLING", "INSTALLING"),
    ("RUNNING", "RUNNING"),
    ("STOPPED", "STOPPED"),
    ("ERROR", "ERROR"),
    ("STOPPING", "STOPPING"),
    ("MIGRATING", "MIGRATING"),
    ("DELETING", "DELETING")
  ]

  // resttypes/enums.py:568-572
  const AggregationBody: seq<(string, string)> := [
    ("COUNT", "COUNT"),
    ("MAX", "MAX"),
    ("AVERAGE", "AVERAGE"),
    ("SUM", "SUM"),
    ("MIN", "MIN")
  ]

  // resttypes/enums.py:701-755
  const ResourceTypeBody: seq<(string, string)> :=
    [
      ("FIREWALL_TEMPLATE", "FIREWALL_TEMPLATE"),
      ("BILLING_METHOD", "BILLING_METHOD"),
      ("DEPLOYMENT_INSTANCE", "DEPLOYMENT_INSTANCE"),
      ("TRANSACTION", "TRANSACTION"),
      ("GROUP", "GROUP"),
      ("NETWORK", "NETWORK"),
      ("STATEMENT_DETAIL", "STATEMENT_DETAIL"),
      ("FDL", "FDL"),
      ("CURRENCY", "CURRENCY"),
      ("VDC", "VDC"),
      ("REFERRAL_PROMOTION", "REFERRAL_PROMOTION"),
      ("DEPLOYMENT_TEMPLATE", "DEPLOYMENT_TEMPLATE"),
      ("PROMOTION", "PROMOTION"),
      ("DISK", "DISK")
    ] +
    [
      ("CUSTOMER", "CUSTOMER"),
      ("PRODUCT_COMP_TYPE", "PRODUCT_COMP_TYPE"),
      ("SNAPSHOT", "SNAPSHOT"),
      ("SSHKEY", "SSHKEY"),
      ("PAYMENT_METHOD", "PAYMENT_METHOD"),
      ("IMAGE", "IMAGE"),
      ("JOB", "JOB"),
      ("PLUGGABLE_RESOURCE", "PLUGGABLE_RESOURCE"),
      ("INVOICE", "INVOICE"),
      ("MEASUREMENT", "MEASUREMENT"),
      ("FETCH_RESOURCE", "FETCH_RESOURCE"),
      ("TRANSLATION", "TRANSLATION"),
      ("PAYMENT_METHOD_INSTANCE", "PAYMENT_METHOD_INSTANCE"),
      ("PLUGGABLE_PROVIDER", "PLUGGABLE_PROVIDER")
    ] +
    [
      ("UNIT_TRANSACTION", "UNIT_TRANSACTION"),
      ("REFERRAL_PROMOCODE", "REFERRAL_PROMOCODE"),
      ("TRANSACTION_LOG", "TRANSACTION_LOG"),
      ("CREDIT_NOTE", "CREDIT_NOTE"),
      ("PERMISSION", "PERMISSION"),
      ("FIREWALL", "FIREWALL"),
      ("PRODUCT_PURCHASE", "PRODUCT_PURCHASE"),
      ("TRIGGER_METHOD", "TRIGGER_METHOD"),
      ("BILLING_ENTITY", "BILLING_ENTITY"),
      ("PURCHASED_UNITS", "PURCHASED_UNITS"),
      ("MEASUREMENT_FUNCTION", "MEASUREMENT_FUNCTION"),
      ("SUBNET", "SUBNET"),
      ("PRODUCT", "PRODUCT"),
      ("UNIT_TRANSACTION_SUMMARY", "UNIT_TRANSACTION_SUMMARY")
    ] +
    [
      ("PAYMENT_PROVIDER", "PAYMENT_PROVIDER"),
      ("NIC", "NIC"),
      ("PROMOCODE", "PROMOCODE"),
      ("SERVER", "SERVER"),
      ("CLUSTER", "CLUSTER"),
      ("IMAGEINSTANCE", "IMAGEINSTANCE"),
      ("BLOB", "BLOB"),
      ("CONFIG_PROVIDER", "CONFIG_PROVIDER"),
      ("STORAGE_GROUP", "STORAGE_GROUP"),
      ("REPORT_METHOD", "REPORT_METHOD"),
      ("ANY", "ANY"),
      ("USER", "USER"),
      ("PRODUCTOFFER", "PRODUCTOFFER")
    ]

  // resttypes/enums.py:950-965
  const ConditionBody: seq<(string, string)> := [
    ("NOT_ENDS_WITH", "NOT_ENDS_WITH"),
    ("IS_EQUAL_TO", "IS_EQUAL_TO"),
    ("LATER_THAN", "LATER_THAN"),
    ("CONTAINS", "CONTAINS"),
    ("IS_GREATER_THAN", "IS_GREATER_THAN"),
    ("IS_LESS_THAN_OR_EQUAL_TO", "IS_LESS_THAN_OR_EQUAL_TO"),
    ("NOT_BETWEEN", "NOT_BETWEEN"),
    ("NOT_CONTAINS", "NOT_CONTAINS"),
    ("IS_LESS_THAN", "IS_LESS_THAN"),
    ("IS_NOT_EQUAL_TO", "IS_NOT_EQUAL_TO"),
    ("BETWEEN", "BETWEEN"),
    ("IS_GREATER_THAN_OR_EQUAL_TO", "IS_GREATER_THAN_OR_EQUAL_TO"),
    ("NOT_STARTS_WITH", "NOT_STARTS_WITH"),
    ("ENDS_WITH", "ENDS_WITH"),
    ("STARTS_WITH", "STARTS_WITH"),
    ("EARLIER_THAN", "EARLIER_THAN")
  ]

  // resttypes/enums.py:1195-1201
  const JobStatusBody: seq<(string, string)> := [
    ("SUCCESSFUL", "SUCCESSFUL"),
    ("NOT_STARTED", "NOT_STARTED"),
    ("FAILED", "FAILED"),
    ("WAITING", "WAITING"),
    ("SUSPENDED", "SUSPENDED"),
    ("CANCELLED", "CANCELLED"),
    ("IN_PROGRESS", "IN_PROGRESS")
  ]

  // resttypes/enums.py:1251-1252
  const ResultOrderBody: seq<(string, string)> := [
    ("ASC", "ASC"),
    ("DESC", "DESC")
  ]

  // resttypes/enums.py:1704-1714
  const ServerStatusBody: seq<(string, string)> := [
    ("BUILDING", "BUILDING"),
    ("RECOVERY", "RECOVERY"),
    ("STARTING", "STARTING"),
    ("REBOOTING", "REBOOTING"),
    ("INSTALLING", "INSTALLING"),
    ("RUNNING", "RUNNING"),
    ("STOPPED", "STOPPED"),
    ("ERROR", "ERROR"),
    ("STOPPING", "STOPPING"),
    ("MIGRATING", "MIGRATING"),
    ("DELETING", "DELETING")
  ]

  /** The member names of a class body, in declaration order. */
  function Names(e: EnumType): (r: seq<string>)
    ensures |r| == |Definitions(e)|
    ensures forall i :: 0 <= i < |r| ==> r[i] == Definitions(e)[i].0
  {
    seq(|Definitions(e)|, i requires 0 <= i < |Definitions(e)| => Definitions(e)[i].0)
  }

  /** The member values of a class body, in declaration order. */
  function Values(e: EnumType): (r: seq<string>)
    ensures |r| == |Definitions(e)|
    ensures forall i :: 0 <= i < |r| ==> r[i] == Definitions(e)[i].1
  {
    seq(|Definitions(e)|, i requires 0 <= i < |Definitions(e)| => Definitions(e)[i].1)
  }

  datatype Member = Member(enum: EnumType, name: string)

  predicate IsMember(m: Member) {
    m.name in Names(m.enum)
  }

  /** The value assigned to the first definition of `name`. */
  function ValueFor(defs: seq<(string, string)>, name: string): (r: Option<string>)
    ensures r.Some? <==> exists i :: 0 <= i < |defs| && defs[i].0 == name
    ensures r.Some? ==> exists i :: 0 <= i < |defs| && defs[i] == (name, r.value)
  {
    if |defs| == 0 then None
    else if defs[0].0 == name then Some(defs[0].1)
    else
      ValueFor(defs[1..], name)
  }

  /** The name of the first definition whose value is `value`. */
  function NameFor(defs: seq<(string, string)>, value: string): (r: Option<string>)
    ensures r.Some? <==> exists i :: 0 <= i < |defs| && defs[i].1 == value
    ensures r.Some? ==> exists i :: 0 <= i < |defs| && defs[i] == (r.value, value)
  {
    if |defs| == 0 then None
    else if defs[0].1 == value then Some(defs[0].0)
    else NameFor(defs[1..], value)
  }

  /** Every member's value is its own name. */
  lemma ValuesAreNames(e: EnumType)
    ensures forall i :: 0 <= i < |Definitions(e)| ==> Definitions(e)[i].0 == Definitions(e)[i].1
    ensures Values(e) == Names(e)
  {
    var defs := Definitions(e);
    forall i | 0 <= i < |defs|
      ensures defs[i].0 == defs[i].1
    {
      SelfNamedAt(e, i);
    }
  }

  /** One assignment of a class body binds the string of its own name. */
  lemma SelfNamedAt(e: EnumType, i: nat)
    requires i < |Definitions(e)|
    ensures Definitions(e)[i].0 == Definitions(e)[i].1
  {
    if e == ResourceType {
      ResourceTypeSelfNamed(i);
    }
  }

  lemma ResourceTypeSelfNamed(i: nat)
    requires i < |ResourceTypeBody|
    ensures ResourceTypeBody[i].0 == ResourceTypeBody[i].1
  {
    if i < 14 {
    } else if i < 28 {
    } else if i < 42 {
    } else {
    }
  }

  /** A name that a class body assigns is one of the class's member names. */
  lemma DefinedName(e: EnumType, n: string, v: string)
    requires (n, v) in Definitions(e)
    ensures n in Names(e)
  {
    var i :| 0 <= i < |Definitions(e)| && Definitions(e)[i] == (n, v);
    assert Names(e)[i] == n;
  }

  /** `member.value`. */
  function ValueOf(m: Member): (v: string)
    requires IsMember(m)
    ensures v == m.name
  {
    ValuesAreNames(m.enum);
    ValueFor(Definitions(m.enum), m.name).value
  }

  /** `str(member)` (PrintableEnum.__str__): the member's value, which is its name. */
  function Str(m: Member): (s: string)
    requires IsMember(m)
    ensures s == m.name && s in Values(m.enum)
  {
    ValuesAreNames(m.enum);
    ValueOf(m)
  }

  /** `member.untype()` (PrintableEnum.untype): the value sent to the REST API. */
  function Untype(m: Member): (s: string)
    requires IsMember(m)
    ensures s == m.name && s in Values(m.enum)
  {
    ValuesAreNames(m.enum);
    ValueOf(m)
  }

  /** `EnumClass(value)`: the member holding `value`, or ValueError. */
  function FromValue(e: EnumType, value: string): (r: Result<Member>)
    ensures r.Ok? <==> value in Values(e)
    ensures r.Err? ==> r.error == ValueError
    ensures r.Ok? ==> r.value.enum == e && IsMember(r.value) && Str(r.value) == value
  {
    ValuesAreNames(e);
    match NameFor(Definitions(e), value)
    case None => Err(ValueError)
    case Some(n) => Ok(Member(e, n))
  }

  /** Looking a member up by its own string value gives the member back, and
      every value names a member. */
  lemma {:induction false} FromValueRoundTrip(m: Member)
    requires IsMember(m)
    ensures FromValue(m.enum, Str(m)) == Ok(m)
  {
    ValuesAreNames(m.enum);
  }

  /** Names an Enum class answers `hasattr` for besides its members: the two
      methods PrintableEnum adds, the attributes of `object` and of a class,
      the ones the Enum base class and its metaclass define, and the tables
      the metaclass stores. */
  const ClassAttributes: set<string> := {
    "untype", "__str__",
    "__doc__", "__module__", "__class__", "__dict__", "__name__", "__new__", "__init__",
    "__repr__", "__format__", "__hash__", "__reduce__", "__reduce_ex__", "__eq__", "__ne__",
    "__delattr__", "__getattribute__", "__setattr__", "__sizeof__", "__subclasshook__",
    "__bases__", "__base__", "__mro__", "mro", "__subclasses__", "__basicsize__",
    "__itemsize__", "__flags__", "__weakrefoffset__", "__dictoffset__",
    "__instancecheck__", "__subclasscheck__", "__call__", "__weakref__",
    "__dir__", "__members__", "__len__", "__iter__", "__reversed__", "__getitem__",
    "__contains__", "__getattr__", "__nonzero__", "__bool__",
    "_member_names_", "_member_map_", "_member_type_", "_value2member_map_"
  }

  /** `hasattr(EnumClass, name)` for a byte-string `name`. */
  predicate HasAttr(e: EnumType, name: string) {
    name in Names(e) || name in ClassAttributes
  }

  predicate Distinct(xs: seq<string>) {
    forall i, j :: 0 <= i < j < |xs| ==> xs[i] != xs[j]
  }

  lemma ConditionMembers()
    ensures |Names(Condition)| == 16 && Distinct(Names(Condition))
  {
  }

  lemma JobStatusMembers()
    ensures |Names(JobStatus)| == 7 && Distinct(Names(JobStatus))
    ensures "SUCCESSFUL" in Names(JobStatus) && "FAILED" in Names(JobStatus)
  {
    assert Names(JobStatus)[0] == "SUCCESSFUL" && Names(JobStatus)[2] == "FAILED";
  }

  lemma ServerAndDeploymentStatusesAgree()
    ensures Values(ServerStatus) == Values(DeploymentInstanceStatus)
    ensures |Values(ServerStatus)| == 11 && Distinct(Values(ServerStatus))
  {
  }
}
