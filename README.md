# cloudify-flexiant-plugin core, modelled in Dafny

This project models the logic of the Cloudify plugin for Flexiant Cloud
Orchestrator (FCO) that can be written down as contracts. That excludes the
lifecycle hooks and the HTTP polling around it. The model covers:

- **REST types** (`resttypes/`): the typed schema layer that every FCO
  request and reply passes through.
  - `to_str`, `rat_check`, `is_acceptable` and `construct_data` decide
    whether a value fits a declared field type, and convert it.
  - `ComplexObject` checks a key/value map against its schema table of
    `ALL_ATTRIBS`, `REQUIRED_ATTRIBS`, `OPTIONAL_ATTRIBS` and `TYPES`.
  - `GenericContainer` wraps nested lists and dicts.
  - `ComplexField` operators and `&` build search-filter conditions.
  - The enumerations (`PrintableEnum`, `Condition`, `JobStatus`,
    `ServerStatus`, `ResourceType`, `Aggregation`, `ResultOrder`,
    `DeploymentInstanceStatus`) are included with their literal assignments.
  - A few concrete tables are included: `FilterCondition`, `SearchFilter`,
    `QueryLimit` and `OrderedField`, plus the endpoints `GetResource`,
    `ListResources`, `AddToFavourites` and `UpdateUser`.
- **Endpoints** (`resttypes/endpoints.py`):
  - `prepare_input` sorts keywords into URL parameters and payload data, and
    fills dotted parameters from the payload.
  - `get_endpoint` picks a URL template by the verb-preference rule.
  - `Endpoint.__init__`, `is_acceptable` and `validate_return` are included.
- **Typed containers** (`typed/`):
  - `ImmutableType` is a set-once slot.
  - `TypedList` and `TypedDict` are classes whose mutators check element
    types.
  - `factory`, `List` and `Dict` are included.
- **The REST client** (`fcoclient/clients.py`):
  - `can_handle` and `get_client` choose an authentication strategy.
  - The three constructors build the auth tuple.
  - The request wrapper sorts status codes (section 6 of RFC 7231, and 429
    from section 4 of RFC 6585) into success, give up and retry. It retries
    at most `retry_count` times.
- **The code generators** (`generators/`):
  - `get_type` parses English type phrases.
  - `source_type` renders type descriptors as source text.
  - `line`, `lines`, `wrap` and `set_wrap` append to the output list.
  - `create_relationships` and `topological_sort` layer complex objects by
    dependency.
  - `gen_single` and `gen` cover complex objects, enums and endpoints.

Each source file is one module:

| module | source |
|---|---|
| `PyBase` | Python helpers: `Option`, `Result`, exceptions, `startswith`, `split`, `rsplit`, `replace`, `int()` |
| `Enums` | `resttypes/enums.py` |
| `Timestamps` | `datetime.strftime`, `datetime.strptime` and the `timedelta` shift |
| `Schemas` | schema tables from `resttypes/cobjects.py` |
| `Values` | the Python values the REST types handle, and `isinstance` |
| `RestTypes` | `resttypes/__init__.py`, and the class-level checks it dispatches to |
| `Cobjects` | `resttypes/cobjects.py` |
| `Typed` | `typed/__init__.py` |
| `Factories` | `typed/factories.py` |
| `Endpoints`, `EndpointInput`, `EndpointObject` | `resttypes/endpoints.py` |
| `Clients` | `fcoclient/clients.py` |
| `GenCommon`, `Miner`, `GenCobjects`, `GenEnums`, `GenEndpoints` | `generators/` |

Code that changes state is modelled as imperative Dafny:
- `ImmutableType`, `TypedList`, `TypedDict`, the `Endpoint` object, the REST
  client, the generators' output list and `get_type`'s set of unknown phrases
  are classes with `modifies` clauses.
- Python dicts that `prepare_input` updates are heap objects.
- Each loop of the source is a method. It is proved against a function that
  specifies it, and the properties are proved about that function.

## Model

| member | source | states |
|---|---|---|
| Enums.ValueFor | resttypes/enums.py:8-18 | attribute lookup on an enum class finds a value exactly when some definition has that name, and the value found is that definition's |
| Enums.NameFor | resttypes/enums.py:8-18 | value lookup on an enum class finds a member exactly when some definition holds that value |
| Enums.ValuesAreNames | resttypes/enums.py:950-965 | in every modelled class body, proved from its literal assignments, each member's value equals its name, so the value list is the name list |
| Enums.SelfNamedAt | resttypes/enums.py:950-965 | each assignment of a modelled class body binds the string of its own name |
| Enums.ResourceTypeSelfNamed | resttypes/enums.py:701-755 | each of ResourceType's 55 assignments binds the string of its own name |
| Enums.ValueOf | resttypes/enums.py:8-18 | `member.value` is the member's name |
| Enums.Str | resttypes/enums.py:12-14 | `str(member)` is the member's value, one of the class's values |
| Enums.Untype | resttypes/enums.py:16-18 | `member.untype()` is the member's value, one of the class's values |
| Enums.FromValue | resttypes/__init__.py:120-122 | `EnumClass(value)` succeeds exactly on the class's values, gives the member whose str is that value, and otherwise raises ValueError |
| Enums.FromValueRoundTrip | resttypes/enums.py:8-18 | looking a member up by its own str gives the member back |
| Enums.ConditionMembers | resttypes/enums.py:897-967 | Condition has 16 distinct members |
| Enums.JobStatusMembers | resttypes/enums.py:1177-1203 | JobStatus has 7 distinct members, among them SUCCESSFUL and FAILED |
| Enums.ServerAndDeploymentStatusesAgree | resttypes/enums.py:1685-1716 | ServerStatus and DeploymentInstanceStatus have the same 11 distinct values |
| Timestamps.Strftime | resttypes/cobjects.py:168 | `strftime('%Y-%m-%dT%H:%M:%S')` fails with ValueError exactly before year 1900 and otherwise writes 19 characters with the separators at 4, 7, 10, 13 and 16 |
| Timestamps.Strptime | resttypes/__init__.py:97-102 | `strptime` with the same format yields only valid calendar times |
| Timestamps.StrptimeCanonical | resttypes/__init__.py:97-102 | on zero-padded text, strptime reads the six fields and keeps them exactly when they form a valid time |
| Timestamps.StrptimeOneDigitFields | resttypes/__init__.py:97-102 | strptime also accepts one-digit month, day, hour, minute and second fields and reads their values |
| Timestamps.StrptimeOneDigitText | resttypes/__init__.py:97-102 | the same for a 14-character text read position by position |
| Timestamps.StrptimeStrftime | resttypes/cobjects.py:168 | a time from 1900 on written by strftime parses back to itself |
| Timestamps.StrftimeStrptime | resttypes/__init__.py:97-102 | zero-padded text that parses, from 1900 on, is exactly what strftime writes for the time read |
| Timestamps.NextMinute | resttypes/__init__.py:128-129 | one minute later is a valid time with the same seconds |
| Timestamps.PrevMinute | resttypes/__init__.py:128-129 | one minute earlier is a valid time with the same seconds |
| Timestamps.NextPrevMinute | resttypes/__init__.py:128-129 | stepping one minute forward then back returns the same time |
| Timestamps.AddMinutes | resttypes/__init__.py:128-129 | adding a `timedelta` of n minutes yields a valid time with the same seconds, and adding zero changes nothing |
| Schemas.TablesWellFormed | resttypes/cobjects.py:982-985 | in every modelled cobject class the required attributes are among all attributes, the optional ones are the rest, and TYPES gives a type for exactly the attributes in ALL_ATTRIBS |
| RestTypes.EncodeAscii | resttypes/__init__.py:29-30 | `encode('ascii', 'replace')` gives ASCII text of the same length, and fails exactly on a byte string holding a non-ASCII byte |
| RestTypes.HasAttrValue | resttypes/__init__.py:94-96 | `hasattr(EnumClass, v)` answers for a byte string or an ASCII unicode string, whether a member has that name; any other value raises TypeError, and non-ASCII unicode raises UnicodeError |
| RestTypes.TextOf | resttypes/__init__.py:97-100 | the text that the slices `inst[:-5]`, `inst[-4:-2]` and `inst[-2:]` read from a string is the string itself |
| RestTypes.ParseStamp | resttypes/__init__.py:97-102 | a timestamp text that splits yields a valid local time |
| RestTypes.ShiftStamp | resttypes/__init__.py:127-130 | the local time plus the offset minutes is a valid datetime with the same seconds; leaving the calendar raises OverflowError, and a zero offset leaves the time unchanged |
| RestTypes.GenericCreate | resttypes/cobjects.py:322-344 | GenericContainer accepts any list or dict; one built over a complex object or a GenericContainer takes a copy of its dict, raising TypeError when that is a typed dict (whose `copy` fails) and AttributeError when it has no `copy` |
| RestTypes.ToStrLoop | resttypes/__init__.py:14-33 | the loop that fills a fresh list slot by slot, or a fresh dict entry by entry, computes `to_str` |
| RestTypes.ToStr | resttypes/__init__.py:14-33 | `to_str`: no contract of its own; ToStrLaws, ToStrListShape, ToStrDictShape, ToStrScalars and ToStrIdempotent state what it does, and ToStrLoop is the source's loop proved equal to it |
| RestTypes.ToStrLaws | resttypes/__init__.py:14-33 | `to_str` fails exactly when some byte string inside holds a non-ASCII byte, fails then with UnicodeError, and otherwise returns a value whose strings are all ASCII byte strings |
| RestTypes.ToStrListShape | resttypes/__init__.py:21-24 | on a list, `to_str` keeps the length and the order and converts each element in its slot |
| RestTypes.ToStrDictShape | resttypes/__init__.py:25-28 | on a dict, every converted key is a key of the result, and every entry of the result is the converted key and value of some entry of the input |
| RestTypes.ToStrScalars | resttypes/__init__.py:29-32 | a byte string is kept; a unicode string becomes a byte string with each non-ASCII character replaced by `?`; any other scalar is returned unchanged |
| RestTypes.EncodedFixed | resttypes/__init__.py:14-33 | a value whose strings are already ASCII byte strings is returned unchanged |
| RestTypes.ToStrIdempotent | resttypes/__init__.py:14-33 | converting twice gives the same as converting once |
| RestTypes.LookupName | resttypes/__init__.py:59 | `given_dict[k]` finds a value exactly when some key compares equal to the name, and the value found belongs to such a key |
| RestTypes.CheckField | resttypes/__init__.py:59-71 | one pass of rat_check's loop body decides the field's test as NameCheck does |
| RestTypes.CheckFields | resttypes/__init__.py:58-71 | the fields put in `type_check` are exactly the fields of `given & all_` whose test fails; an error escapes only from a field whose test raises |
| RestTypes.RatCheck | resttypes/__init__.py:36-77 | rat_check returns True exactly when no required field is missing, no field fails its type test and, with `fail_additional`, no field is additional; otherwise it raises TypeError or the error of a raising field test |
| RestTypes.IsAcceptable | resttypes/__init__.py:80-105 | `is_acceptable`: no contract of its own; FieldPassesIsAcceptable, AcceptStamp, InstanceKept, BuiltinMismatch and Cobjects.ComplexAcceptsExactly state its answers per field type, and Cobjects.GenericOverTypedDictItems that a GenericContainer over a typed dict is judged by its entries as the typed dict is |
| RestTypes.ConstructData | resttypes/__init__.py:108-136 | `construct_data`: no contract of its own; ConstructDataInstance, InstanceKept, BuiltinMismatch, ConstructStamp and StampRoundTrip state what it builds and when it raises, and Cobjects.GenericOverTypedDictItems and GenericOverTypedDictCopy what it does with a GenericContainer over a typed dict |
| RestTypes.FieldPassesIsAcceptable | resttypes/__init__.py:62-71 | rat_check's type test equals is_acceptable on every type except datetime, where only a datetime or an allowed None passes |
| RestTypes.CreateInstance | resttypes/__init__.py:120-122 | `type_(inst)` on a typed class or an enum builds an instance of that type |
| RestTypes.ConstructDataInstance | resttypes/__init__.py:108-136 | construct_data returns None only for an allowed None, and otherwise an instance of the declared type |
| RestTypes.InstanceKept | resttypes/__init__.py:120-124 | an instance of a non-datetime type passes is_acceptable and is returned unchanged by construct_data |
| RestTypes.BuiltinMismatch | resttypes/__init__.py:133-136 | a builtin field fails is_acceptable on a value of another type, and construct_data raises ValueError on it, or UnicodeEncodeError when the value is a unicode string with a non-ASCII character that the byte-string message cannot hold |
| RestTypes.ParseStampText | resttypes/__init__.py:97-100 | a timestamp text splits back into its local time and offset fields, whatever its sign character |
| RestTypes.ConstructStamp | resttypes/__init__.py:125-130 | construct_data turns a timestamp text into the local time moved by `hours * 60 + minutes` minutes |
| RestTypes.ConstructTimeText | resttypes/__init__.py:125-130 | the datetime branch of construct_data on a timestamp text is the shifted local time |
| RestTypes.AcceptStamp | resttypes/__init__.py:97-102 | a text that splits into a local time and offset fields passes the datetime test |
| RestTypes.StampRoundTrip | resttypes/cobjects.py:166-168 | the text a complex object writes for a datetime passes is_acceptable and is constructed back to the same datetime |
| RestTypes.ExtendItemsInstances | typed/__init__.py:527-549 | the list `extend` builds holds one element per element given, each None or an instance of the item type |
| RestTypes.ExtendItemsKept | typed/__init__.py:533-543 | elements that are already instances, or None for a typed item type, are taken over unchanged |
| RestTypes.ListCreate | typed/__init__.py:512-549 | `List(i)(v)` as written: no contract of its own; ListCreateLaws, ExtendItemsInstances and ListCreateAgrees state it, and ExtendAsWrittenRefusesNone shows where it departs from is_acceptable |
| RestTypes.DictCreate | typed/__init__.py:399-410 | `Dict(k, i)(v)`: no contract of its own; Typed.DictCreateCases states its None, TypeError, UnicodeEncodeError, AttributeError and success cases, and Cobjects.GenericOverTypedDictItems that a GenericContainer over a typed dict converts through its items like the typed dict itself |
| RestTypes.ComplexCreate | resttypes/cobjects.py:146-162 | `cls(v)` without keywords: no contract of its own; Cobjects.ComplexConstructLaws, ComplexCreateTyped and GetFieldAfterCreate state what it builds, and Cobjects.GenericOverTypedDictCopy that a GenericContainer over a typed dict raises TypeError from `TypedDict.copy` |
| RestTypes.ComplexBuild | resttypes/cobjects.py:155-162 | the check and conversion of ComplexObject's constructor: no contract of its own; Cobjects.ComplexConstructLaws states the success case and Cobjects.RefusalMessage the refusal |
| RestTypes.ComplexAccepts | resttypes/cobjects.py:229-249 | `ComplexObject.is_acceptable`: no contract of its own; Cobjects.ComplexAcceptsExactly states when it answers True, over the entries of a dict, typed dict, complex object or GenericContainer over a dict or typed dict, and Cobjects.IsAcceptableLoop is the source's loop proved equal to it |
| RestTypes.FindErroneous | resttypes/cobjects.py:251-272 | `find_erroneous_data`: no contract of its own; Cobjects.FindErroneousAgrees ties it to is_acceptable, and Cobjects.FindErroneousLoop is the source's loop proved equal to it |
| RestTypes.ListCreateLaws | typed/__init__.py:512-549 | `List(i)(v)` succeeds only on an iterable that is not a string, and builds a typed list of item type `i` with one None or instance per element |
| RestTypes.ExtendItemAgrees | typed/__init__.py:534-543 | wherever `extend` as written converts an element, the intended conversion gives the same result |
| RestTypes.ListCreateAgrees | typed/__init__.py:512-549 | every list that `List(i)(v)` builds as written is also built, with the same elements, by the intended conversion |
| RestTypes.ListIntendedKeepsAccepted | typed/__init__.py:493-510 | for a builtin item type, the intended conversion succeeds on exactly the lists TypedList.is_acceptable passes, and keeps their elements |
| RestTypes.ExtendAsWrittenRefusesName | typed/__init__.py:536-541 | for a list of enum member names, TypedList.is_acceptable passes, but `extend` as written raises AttributeError where the intended conversion gives the member |
| RestTypes.ExtendAsWrittenRefusesNone | typed/__init__.py:534-535 | for `[None]` with item type str, TypedList.is_acceptable passes, but `extend` as written raises AttributeError where the intended conversion keeps the None |
| RestTypes.MemberByName | resttypes/__init__.py:120-122 | a member's name is an attribute of its enum class and converts to that member |
| Cobjects.IsAcceptableLoop | resttypes/cobjects.py:229-249 | the loop that removes each name from copies of the required and optional names computes ComplexObject.is_acceptable, for every value with items, a GenericContainer over a typed dict included |
| Cobjects.AcceptEntries | resttypes/cobjects.py:239-249 | the loop over the entries, with the KeyError it raises for a name not left, decides as the acceptance function does |
| Cobjects.ComplexAcceptsExactly | resttypes/cobjects.py:229-249 | a complex object accepts data exactly when every key names a declared field, no two keys name the same field and every value passes its field's test; empty data is accepted because `_noneable` is true |
| Cobjects.FindErroneousLoop | resttypes/cobjects.py:251-272 | the loop that adds to an `errors` set computes find_erroneous_data |
| Cobjects.FindErroneousAgrees | resttypes/cobjects.py:229-272 | find_erroneous_data finds nothing on accepted data, returns the empty set exactly when the data is accepted, and every error it reports is an entry of the data with the reason it fails |
| Cobjects.RefusalMessage | resttypes/cobjects.py:155-159 | refused data raises: UnicodeError only when an entry has a non-ASCII unicode key or value, and otherwise the bare Exception |
| Cobjects.RefusalMessageUnicode | resttypes/cobjects.py:155-159 | `QueryLimit({'maxRecords': u'\xe9'})` raises UnicodeError while the refusal message is built |
| Cobjects.ConstructLoop | resttypes/cobjects.py:274-285 | the loop that overwrites each entry of a copy with its converted value computes ComplexObject.construct_data |
| Cobjects.ConvertEntries | resttypes/cobjects.py:282-284 | the conversion loop over a copy of the entries yields the converted entries or the first conversion error |
| Cobjects.ComplexConstructLaws | resttypes/cobjects.py:274-285 | construct_data succeeds exactly when every entry converts, and then keeps the class, the keys and their order, with each value converted by its field's type |
| Cobjects.ComplexCreateTyped | resttypes/cobjects.py:131-162 | an object built from data has the class asked for, the keys of the data, and every field None or an instance of its declared type |
| Cobjects.ComplexNew | resttypes/cobjects.py:131-162 | `cls(data, **kwargs)`: no contract of its own; KwargsFail, KwargsKeys, UpdateGet, SettleData and ComplexNewWithoutKeywords state its steps, ComplexConstructLaws and RefusalMessage its outcome, and GenericOverTypedDictCopy the TypeError from copying a typed dict |
| Cobjects.GetField | resttypes/cobjects.py:175-189 | reading a field succeeds exactly when the name is in ALL_ATTRIBS and the field is set; otherwise it raises AttributeError |
| Cobjects.GetFieldAfterCreate | resttypes/cobjects.py:175-189 | reading a field of an object built from data gives the data's value for that field converted by the field's type |
| Cobjects.GenericGet | resttypes/cobjects.py:297-310 | on data with a `get` method, a dict or a TypedDict, an attribute is the value stored under that name, or None when there is none; other data is returned whatever is asked |
| Cobjects.GenericTypedDictGet | resttypes/cobjects.py:308-310 | a GenericContainer over a TypedDict keeps it, and an attribute read is the typed dict's `get` of the name, or None |
| Cobjects.GenericConstructLoop | resttypes/cobjects.py:322-344 | the loop that copies a list or dict and replaces each list or dict element with a new GenericContainer computes GenericContainer.construct_data |
| Cobjects.GenericNew | resttypes/cobjects.py:288-344 | `GenericContainer(data, **kwargs)`: no contract of its own; GenericNewWithoutKeywords ties it to the conversion that GenericRoundTrip and WrapLeavesNoBareContainers describe, and GenericOverTypedDictCopy states the TypeError from copying a typed dict |
| Cobjects.GenericRoundTrip | resttypes/cobjects.py:322-344 | wrapping loses nothing: unwrapping the containers gives back the data they were built from |
| Cobjects.WrapLeavesNoBareContainers | resttypes/cobjects.py:334-343 | after wrapping, no element or value of the container is a bare list or dict |
| Cobjects.SettleData | resttypes/cobjects.py:147-150 | None becomes an empty dict and a complex object or GenericContainer a copy of its `_data` dict; the copy raises TypeError for a typed dict and AttributeError for data without `copy` |
| Cobjects.GenericOverTypedDictItems | typed/__init__.py:452-459 | a GenericContainer over a typed dict has items, its entries are the typed dict's, and `Dict(k, v)` and its acceptance test treat it as the typed dict itself |
| Cobjects.GenericOverTypedDictCopy | typed/__init__.py:428-429 | a GenericContainer over a typed dict, given to a complex class, to GenericContainer or to the data step of the constructor, raises TypeError: `TypedDict.copy` passes its types as positional arguments, `Typed.__init__` reads types only from keywords when there are two of them and so sets `key_type` to None, and the type descriptor refuses a value that is not a type |
| Cobjects.KwargsFail | resttypes/cobjects.py:145 | the keyword arguments fail exactly when one of them holds a non-ASCII byte string |
| Cobjects.KwargsKeys | resttypes/cobjects.py:145 | the keyword dict has distinct keys, each keyword's name with its trailing underscores stripped |
| Cobjects.UpdateGet | resttypes/cobjects.py:152-153 | after `data.update(kwargs)` a keyword's key holds the keyword's value and every other key what it held before |
| Cobjects.SameEntriesBuild | resttypes/cobjects.py:149-150 | building from a complex object's `_data` copy gives the same result as building from any data with the same entries |
| Cobjects.ComplexNewWithoutKeywords | resttypes/cobjects.py:131-162 | the constructor without keywords is the conversion construct_data applies to a complex-object field |
| Cobjects.GenericNewWithoutKeywords | resttypes/cobjects.py:288-344 | GenericContainer's constructor without keywords is the conversion construct_data applies to a GenericContainer field |
| Cobjects.OperandError | resttypes/cobjects.py:24-26 | building the message `other.__class__.name` raises either the TypeError or an AttributeError |
| Cobjects.AndAsWritten | resttypes/cobjects.py:15-40 | `a & b` succeeds exactly when both operands are filters and gives their conditions in order; only two single conditions make a FilterList, and any other join gives a plain list |
| Cobjects.And | resttypes/cobjects.py:15-40 | the intended `a & b` succeeds exactly when both operands are filters, and otherwise raises TypeError |
| Cobjects.AndJoins | resttypes/cobjects.py:15-40 | joining two filters gives a FilterList of their conditions in order |
| Cobjects.AndAssociative | resttypes/cobjects.py:15-40 | joining is associative, so `a & b & c` holds the same conditions however it is grouped |
| Cobjects.ChainOfConditions | resttypes/cobjects.py:15-40 | two or more conditions joined with `&` make one FilterList holding them all in order |
| Cobjects.ChainAsWrittenFails | resttypes/cobjects.py:19-37 | as written, a third condition turns the FilterList into a plain list and a fourth raises TypeError |
| Cobjects.Chain | resttypes/cobjects.py:15-40 | `c1 & c2 & ... & cn` with the intended `&`: no contract of its own; ChainOfConditions states that it gives one FilterList of every condition in order |
| Cobjects.ChainAsWritten | resttypes/cobjects.py:15-40 | the same chain with `&` as written: no contract of its own; ChainAsWrittenFails states that the third operand gives a plain list and the fourth raises TypeError |
| Cobjects.AndAsWrittenWrongError | resttypes/cobjects.py:24-26 | as written, a filter joined with a non-filter raises AttributeError where TypeError was meant |
| Cobjects.FieldOf | resttypes/cobjects.py:115-122 | `Cls.item` gives the field exactly for a name in ALL_ATTRIBS, and otherwise raises AttributeError |
| Cobjects.ConditionForDistinct | resttypes/cobjects.py:59-108 | every operator asks for a member of Condition, and different operators ask for different conditions |
| Cobjects.ConditionFor | resttypes/cobjects.py:59-108 | the Condition member each ComplexField operator asks for: no contract of its own; ConditionForDistinct states that it is a member and that operators do not share one |
| Cobjects.Operands | resttypes/cobjects.py:52-53 | a list gives its elements as operands, anything else stands alone |
| Cobjects.UntypeAsWritten | resttypes/cobjects.py:164-173 | the field's untype as written raises TypeError on anything but a datetime |
| Cobjects.Untype | resttypes/cobjects.py:164-168 | the intended untype writes a datetime as the untype as written does and keeps anything else |
| Cobjects.StrOf | resttypes/cobjects.py:54 | `str(v)` fails only on non-ASCII unicode, with UnicodeError; it keeps a byte string and gives a member's name |
| Cobjects.UntypeEach | resttypes/cobjects.py:54 | `map(self.untype, values)` yields printable values that are not datetimes |
| Cobjects.StrEach | resttypes/cobjects.py:54 | `map(str, ...)` succeeds exactly when every operand prints, and gives their texts in order |
| Cobjects.ConditionBuilt | resttypes/cobjects.py:55-57 | FilterCondition built from a field name, a condition and texts holds the name, the condition and a typed list of the texts |
| Cobjects.ConditionShape | resttypes/cobjects.py:51-57 | a condition on a declared field, with operands that print to ASCII, is the FilterCondition holding the field's name, the operator's condition and the operand texts in order |
| Cobjects.ConditionNew | resttypes/cobjects.py:55-57 | FilterCondition's constructor on the keywords of `_condition` builds from the dict of those keywords |
| Cobjects.OperandTexts | resttypes/cobjects.py:54 | operands that all have a text untype and print to those texts |
| Cobjects.ConditionAsWrittenRefuses | resttypes/cobjects.py:120 | as written, a condition on any operand other than a datetime raises TypeError |
| Cobjects.MakeCondition | resttypes/cobjects.py:51-57 | `ComplexField._condition`: no contract of its own; ConditionShape, ConditionAsWrittenRefuses and ConditionOnTimes state what it builds under each untype |
| Cobjects.ConditionOnTimes | resttypes/cobjects.py:164-168 | on datetimes alone the untype as written and the intended one give the same condition |
| Typed.ImmutableType.New | typed/__init__.py:127-133 | no value or a type gives an empty slot holding that type; any other object raises TypeError, or AttributeError when it has no `__name__` for the message |
| Typed.ImmutableType.Get | typed/__init__.py:135-141 | `__get__` gives the class-level type when there is one, else the type set for this instance, else raises AttributeError |
| Typed.ImmutableType.Set | typed/__init__.py:143-150 | `__set__` refuses a slot that can already be read with AttributeError and a non-type with TypeError; otherwise it stores the type for this instance alone |
| Typed.ImmutableType.Delete | typed/__init__.py:152-157 | `__delete__` always raises AttributeError and removes nothing |
| Typed.TypeCheck | typed/__init__.py:25-37 | the checked argument passes exactly when it is None or an instance of the item type; otherwise TypeError |
| Typed.InsertPosition | typed/__init__.py:563-565 | `list.insert` counts a negative index from the end and clamps the position to the list |
| Typed.Reversed | typed/__init__.py:577-578 | `reverse` puts element `j` at position `n - 1 - j` |
| Typed.ReversedTwice | typed/__init__.py:577-578 | reversing twice gives the list back |
| Typed.ReversedPermutes | typed/__init__.py:577-578 | reversing keeps the elements with their multiplicities |
| Typed.Repeat | typed/__init__.py:587-589 | `list *= n` has `n` times the length, and none for `n <= 0` |
| Typed.RepeatElements | typed/__init__.py:587-589 | a repeated list holds exactly the original's elements when `n > 0`, and starts with the original |
| Typed.UntypeElement | typed/__init__.py:288-306 | `v.untype()` gives a member's value, a typed container's untyped data, raises TypeError on a complex object, and keeps anything without `untype` |
| Typed.UntypeElementFails | typed/__init__.py:288-306 | untyping fails, always with TypeError, exactly when it reaches a complex object |
| Typed.UntypeItemsLaws | typed/__init__.py:289-295 | untyping a list fails exactly when an element holds a complex object, and otherwise untypes every element in its place |
| Typed.UntypeEntriesLaws | typed/__init__.py:296-302 | untyping a dict fails exactly when a value holds a complex object, and otherwise keeps the keys in order and untypes every value |
| Typed.TypedList.New | typed/__init__.py:512-525 | `List(t)(list_)` is an empty list extended by `list_` unless it is None, and succeeds or fails exactly as `List(t)` conversion does |
| Typed.TypedList.Append | typed/__init__.py:556-558 | `append` adds None or an instance of the item type at the end; anything else raises TypeError and leaves the list as it was |
| Typed.TypedList.Extend | typed/__init__.py:527-549 | `extend` checks and converts every element before appending any; it succeeds exactly when the conversion does, appends the converted elements in order, and otherwise leaves the list as it was |
| Typed.TypedList.InPlaceAdd | typed/__init__.py:583-585 | `+=` extends the list as `extend` does |
| Typed.TypedList.SetItem | typed/__init__.py:552-554 | `__setitem__` checks the item, then the index counted from the end when negative, and changes only that position |
| Typed.TypedList.Index | typed/__init__.py:559-561 | `index(i)` gives the element at position `i`, or at `len + i` when `i` is negative, and raises IndexError outside `-len <= i < len` |
| Typed.TypedList.Insert | typed/__init__.py:563-565 | `insert` checks the item, then puts it at the clamped position with every other element keeping its order |
| Typed.TypedList.Pop | typed/__init__.py:566-568 | `pop` drops the last element and returns nothing, or raises IndexError on an empty list |
| Typed.TypedList.Remove | typed/__init__.py:570-572 | `remove` checks the item, then drops the first element equal to it under Python's `==` (so `True` matches `1`), leaving the rest in order, or raises ValueError when there is none |
| Typed.FirstEqual | typed/__init__.py:570-572 | the element `remove` drops is the first that equals the item in Python's sense, with `True == 1` |
| Typed.RemoveMatchesBoolAsInt | typed/__init__.py:570-572 | `[1].remove(True)` finds the 1 and `[0].remove(True)` finds nothing |
| Typed.TypedList.Count | typed/__init__.py:574-576 | `count` only checks the item; the count is dropped |
| Typed.TypedList.Reverse | typed/__init__.py:577-578 | the new contents are the old ones reversed, a permutation of them |
| Typed.TypedList.InPlaceMultiply | typed/__init__.py:587-589 | the new contents are the old ones repeated `n` times |
| Typed.TypedList.Untype | typed/__init__.py:288-295 | `untype` gives a plain list of the same length, fails exactly when a complex object is held, and keeps every element that has no `untype` |
| Typed.UntypeItemsLoop | typed/__init__.py:290-294 | the loop over a copy of the elements computes the untyped elements |
| Typed.UntypeListLaws | typed/__init__.py:288-295 | untyping a typed list fails exactly when it holds a complex object, and otherwise keeps the length and every element without `untype` |
| Typed.ConvertAll | typed/__init__.py:533-543 | the checking loop of `extend` yields the converted elements or the first element's error |
| Typed.UpdateOutcome | typed/__init__.py:453-459 | the update loop succeeds exactly when every key has the key type, and otherwise raises TypeError |
| Typed.UpdatePartial | typed/__init__.py:453-459 | `update` is not atomic: the entries before the first key of the wrong type stay assigned |
| Typed.SameLookups | typed/__init__.py:415-423 | dicts with the same entries answer every lookup alike, and only those |
| Typed.AssignmentsCommute | typed/__init__.py:415-423 | assigning two different keys gives the same dict in either order |
| Typed.DictRemove | typed/__init__.py:467-468 | after `pop(k)` the key `k` is gone, every other key answers as before, and no entry is new |
| Typed.WithValue | typed/__init__.py:473-478 | `fromkeys` assigns every key the same value |
| Typed.DictCreateCases | typed/__init__.py:399-413 | `Dict(k, v)(d)` is empty for None, raises TypeError on data without `items` (UnicodeEncodeError instead when `d` is a unicode string with a non-ASCII character, formatted into the byte-string message), AttributeError when `items` fails, and otherwise holds the updated entries; a GenericContainer over a dict or typed dict has `items` (Cobjects.GenericOverTypedDictItems) |
| Typed.TypedDict.New | typed/__init__.py:399-413 | `Dict(k, v)(dict_)` is an empty dict updated by `dict_` unless it is None, and agrees with the `Dict(k, v)` conversion for every `dict_`, None and non-ASCII unicode text included, a GenericContainer over a dict or typed dict being read through its items |
| Typed.TypedDict.SetItem | typed/__init__.py:415-423 | `__setitem__` raises TypeError for a key of the wrong type, silently drops an item of the wrong type, and otherwise assigns the entry |
| Typed.TypedDict.Update | typed/__init__.py:452-459 | `update` does nothing for None, raises TypeError for data without `items` (UnicodeEncodeError when it is a unicode string with a non-ASCII character, formatted into the message), and otherwise assigns each entry in turn, stopping at the first key of the wrong type; a GenericContainer over a dict or typed dict has `items` |
| Typed.TypedDict.Get | typed/__init__.py:461-465 | `get` gives the stored value for a present key and `fail_obj` otherwise; an unhashable key raises TypeError |
| Typed.TypedDict.HasKey | typed/__init__.py:449-450 | `has_key` answers whether the key is present; an unhashable key raises TypeError |
| Typed.TypedDict.Pop | typed/__init__.py:467-468 | `pop` gives the stored value and removes it, gives the default for an absent key, and raises KeyError without one |
| Typed.TypedDict.PopItem | typed/__init__.py:470-471 | `popitem` removes and returns an entry of the dict, and raises KeyError on an empty dict |
| Typed.TypedDict.Clear | typed/__init__.py:425-426 | `clear` empties the dict |
| Typed.TypedDict.Copy | typed/__init__.py:428-429 | `copy` always raises TypeError, from the type descriptor refusing the None that `Typed.__init__` sets as `key_type` when the types come as positional arguments |
| Typed.TypedDict.FromKeys | typed/__init__.py:473-478 | `fromkeys` succeeds exactly on an iterable of keys of the key type, and holds every key with the given value |
| Typed.TypedDict.Untype | typed/__init__.py:296-302 | `untype` gives a plain dict with the same keys, fails exactly when a complex object is held, and keeps every value that has no `untype` |
| Typed.UntypeEntriesLoop | typed/__init__.py:297-301 | the loop over a copy of the entries computes the untyped entries |
| Typed.UntypeDictLaws | typed/__init__.py:296-302 | untyping a typed dict fails exactly when it holds a complex object, and otherwise keeps the keys and every value without `untype` |
| Typed.RemoveUnique | typed/__init__.py:467-468 | removing a key keeps the remaining keys distinct |
| Typed.TypeKeys | typed/__init__.py:170-172 | `types_keys()` names each ImmutableType attribute once |
| Typed.MappingOf | typed/__init__.py:318-324 | the mapping is the keyword arguments when none is given, the dict when one is given, and `{key: type}` for a single type on a class with one type key |
| Typed.FactoryFixes | typed/__init__.py:308-354 | when `factory` succeeds it fixes exactly the class's type keys, each to the type mapped to it |
| Typed.FactoryRefuses | typed/__init__.py:334-352 | a type key left unmapped, a type failing the suitability check, or a mapped name that is no type key raises TypeError |
| Typed.FactoryAccepts | typed/__init__.py:334-354 | `factory` succeeds once every type key is mapped to a suitable type and nothing else is mapped |
| Typed.PopTypes | typed/__init__.py:334-352 | the loop that pops each type key from the mapping succeeds exactly when every key is mapped to a suitable type and nothing is left over |
| Typed.FactoryLoop | typed/__init__.py:308-354 | the imperative `factory` computes the Factory function |
| Factories.ListFixesItemType | typed/factories.py:8-9 | `List(t)` fixes the item type to `t` and refuses a non-type with TypeError |
| Factories.DictFixesTypes | typed/factories.py:12-13 | `Dict(k, v)` fixes both types, and refuses a non-type or an unhashable key type with TypeError |
| Endpoints.Render | resttypes/endpoints.py:120 | a value formatted into a URL is its `str()`; only non-ASCII unicode fails, with UnicodeError; a byte string is kept and a member gives its name |
| Endpoints.SplitAtCount | resttypes/endpoints.py:92 | `param.split('.')` gives one more piece than there are dots |
| Endpoints.SplitAtPieces | resttypes/endpoints.py:92 | the pieces of `split('.')` hold no dot |
| Endpoints.SplitAtJoin | resttypes/endpoints.py:92 | joining the pieces with the separator gives the string back |
| Endpoints.SplitAtAbsent | resttypes/endpoints.py:92 | a name without a dot is one piece, so unpacking it into two names fails |
| Endpoints.Attributes | resttypes/endpoints.py:120 | attribute access in a replacement field keeps the value renderable, and no attribute leaves it unchanged |
| Endpoints.Lookup | resttypes/endpoints.py:120 | the value a replacement field stands for is always renderable |
| Endpoints.RulesAgree | resttypes/endpoints.py:120 | on a field without a dot, Python's lookup rule and the whole-name rule give the same value and text |
| Endpoints.FormatLiteral | resttypes/endpoints.py:120 | `format` copies text without braces as it is |
| Endpoints.FormatField | resttypes/endpoints.py:120 | `format` replaces `{field}` with the field's text and goes on with the rest |
| Endpoints.Format | resttypes/endpoints.py:120 | `template.format(**parameters)`: no contract of its own; FormatLiteral, FormatField, FormatOne, FormatTwo and RulesAgreeWithoutDots state its results for templates whose replacement fields are plain names, while literal text may hold any character |
| Endpoints.RulesAgreeWithoutDots | resttypes/endpoints.py:120 | a template with no dot formats the same under both lookup rules |
| Endpoints.ValidEndpoints | resttypes/endpoints.py:117-123 | the first loop of get_endpoint keeps at most as many URLs as there are templates |
| Endpoints.ValidEndpointsExactly | resttypes/endpoints.py:117-123 | the kept URLs are exactly the templates that format without KeyError or TypeError into text without `{`, formatted, with their verbs and in declared order |
| Endpoints.FirstWith | resttypes/endpoints.py:128-147 | the list comprehension followed by `[0]` finds the first URL with the verb, or there is none |
| Endpoints.Choose | resttypes/endpoints.py:124-149 | the URL chosen is one of the valid URLs |
| Endpoints.ChoosePrefers | resttypes/endpoints.py:126-147 | with several URLs, a payload takes the first POST, else the first PUT; no payload takes the first GET, else the first DELETE |
| Endpoints.ChooseFallsBack | resttypes/endpoints.py:149 | a single URL, or several without a preferred verb, gives the first URL |
| Endpoints.ChooseOneVerb | resttypes/endpoints.py:124-149 | when every valid URL has the same verb, the first is taken |
| Endpoints.GetEndpoint | resttypes/endpoints.py:106-149 | the loop appending the surviving templates to `valid_endpoints`, followed by the choice, gives the URL Python's lookup rule resolves, or raises when none survives |
| Endpoints.Resolve | resttypes/endpoints.py:109-149 | `get_endpoint`: no contract of its own; ValidEndpointsExactly, Choose, ChoosePrefers and ChooseFallsBack state which URL it returns, and GetEndpoint is the source's loop proved equal to it |
| Endpoints.ValidRulesAgree | resttypes/endpoints.py:117-123 | for templates without a dot, both lookup rules keep the same URLs |
| Endpoints.ResolveRulesAgree | resttypes/endpoints.py:106-149 | for templates without a dot, both lookup rules choose the same URL |
| Endpoints.PlainField | resttypes/endpoints.py:120 | a plain field naming a parameter becomes the parameter's text, and an absent parameter raises KeyError |
| Endpoints.FormatOne | resttypes/endpoints.py:120 | `lit{name}tail` formats as `lit`, the parameter's text and `tail` |
| Endpoints.FormatTwo | resttypes/endpoints.py:120 | `lit{first}mid{second}tail` formats with both parameters' texts in place, and reports the first failure |
| Endpoints.KeptText | resttypes/endpoints.py:117-123 | a template without replacement fields is always kept as it is |
| Endpoints.KeptOne | resttypes/endpoints.py:117-123 | a template with one field is kept exactly when that parameter is given |
| Endpoints.KeptTwo | resttypes/endpoints.py:117-123 | a template with two fields is kept exactly when both parameters are given |
| Endpoints.GetResourceValid | resttypes/endpoints.py:261-262 | GetResource keeps `resources/<type>/<uuid>` when a type is given and `resources/<uuid>` when a UUID is given, in declared order |
| Endpoints.GetResourceWithType | resttypes/endpoints.py:261-262 | GetResource with a type and a UUID is sent to `resources/<type>/<uuid>`, with or without a payload |
| Endpoints.GetResourceWithoutType | resttypes/endpoints.py:261-262 | GetResource with a UUID and no type is sent to `resources/<uuid>` |
| Endpoints.GetResourceNeedsUuid | resttypes/endpoints.py:261-262 | GetResource without a UUID has no URL, and building it raises |
| Endpoints.ListResourcesUntyped | resttypes/endpoints.py:1261-1263 | the untyped templates of ListResources are always kept |
| Endpoints.ListResourcesValid | resttypes/endpoints.py:1261-1263 | ListResources keeps the typed GET and POST when a type is given, and always the untyped GET and POST, in declared order |
| Endpoints.ListResourcesChoice | resttypes/endpoints.py:1261-1263 | ListResources is a POST with a payload and a GET without, to `resources/<type>/list` when a type is given and `resources/list` otherwise |
| Endpoints.AddToFavouritesValid | resttypes/endpoints.py:3246-3249 | AddToFavourites keeps each of its three PUT templates whose parameters are given, in declared order |
| Endpoints.AddToFavouritesAllPut | resttypes/endpoints.py:3246-3249 | every URL AddToFavourites keeps is a PUT |
| Endpoints.AddToFavouritesChoice | resttypes/endpoints.py:3246-3249 | AddToFavourites takes the first URL the parameters fill: with the type and UUID, else with the UUID, else the bare one |
| Endpoints.UpdateUserFormat | resttypes/endpoints.py:224 | the one UpdateUser template formats as the text of the field's value, as the rule looks it up |
| Endpoints.UpdateUserAsWritten | resttypes/endpoints.py:224-230 | as written, UpdateUser never resolves: the field is looked up under `userDetails`, which rat_check never lets into the parameters, so building it raises |
| Endpoints.UpdateUserDropped | resttypes/endpoints.py:117-123 | under Python's rule the UpdateUser template fails with KeyError and is dropped |
| Endpoints.UpdateUserKeyError | resttypes/endpoints.py:224 | the field `userDetails.resourceUUID` is looked up under `userDetails`, which is no parameter |
| Endpoints.LookupMissingHead | resttypes/endpoints.py:120 | attribute lookup of `head.tail` raises KeyError when `head` is no parameter |
| Endpoints.UpdateUserCorrected | resttypes/endpoints.py:224-230 | looked up by its whole name, UpdateUser resolves to `resources/user/<uuid>` |
| EndpointInput.ToDict | resttypes/endpoints.py:101-104 | the dict object rat_check receives holds exactly the entries of the map, each once under its name |
| EndpointInput.RatOnMap | resttypes/endpoints.py:101-104 | rat_check on that dict passes exactly when every required name is given, every given name is a field and every value passes its field's test |
| EndpointInput.AdditionalEntries | resttypes/__init__.py:55 | nothing is additional exactly when every given name is among all names |
| EndpointInput.MapFieldChecks | resttypes/__init__.py:58-71 | each field check on the dict object is the check of the map's value |
| EndpointInput.Pick | resttypes/endpoints.py:86-88 | the keyword filter keeps exactly the keywords among the names, with their values |
| EndpointInput.Subscript | resttypes/endpoints.py:93-94 | `data[k][idx]` looks the key up in a dict, a typed dict, a complex object or a GenericContainer over a dict or typed dict, raises KeyError on a missing key, and TypeError on any value that cannot be subscripted by a string |
| EndpointInput.FillDotted | resttypes/endpoints.py:90-99 | the loop over ALL_PARAMS leaves the parameters as Filled over the names it has processed; when no turn raises that is every name, and otherwise it stops at a turn that raises |
| EndpointInput.DottedFill | resttypes/endpoints.py:90-99 | one turn of prepare_input's loop over ALL_PARAMS: no contract of its own; PrepareDotted and PrepareUndotted state when it fills a parameter (the payload's item replaces an explicit value it compares equal to), DottedTakesEqualItem shows `u'x'` replacing `'x'`, and Subscript states what the payload lookup raises |
| EndpointInput.Filled | resttypes/endpoints.py:90-99 | the parameters after that loop: no contract of its own; FillDotted is the source's loop proved equal to it, and FilledAgrees states that every parameter stays with a value equal under Python `==` and every new one comes from a processed name |
| EndpointInput.FilledAgrees | resttypes/endpoints.py:90-99 | after the loop every explicit parameter stays, with a value equal to its old one under Python `==`, and every new parameter is a processed name that took the payload's item |
| EndpointInput.DottedTakesEqualItem | resttypes/endpoints.py:93-97 | an explicit byte string `'x'` for `obj.field` is replaced by the payload's unicode `u'x'`, since `u'x' != 'x'` is False |
| EndpointInput.UpdateUserRefusesUnicode | resttypes/endpoints.py:224-229 | the unicode text that replaced the explicit `userDetails.resourceUUID` fails UpdateUser's rat_check, which asks for a byte string, where the byte string passes |
| EndpointInput.CheckHalves | resttypes/endpoints.py:101-104 | the two rat_check calls pass exactly when both the parameters and the data pass, and otherwise raise TypeError or a field test's error |
| EndpointInput.PrepareInput | resttypes/endpoints.py:72-104 | prepare_input updates the dicts it is given, or new ones for None, into the prepared parameters and data, the parameters being Filled over the names the loop processed, and succeeds exactly when both pass rat_check |
| EndpointInput.PrepareKeywords | resttypes/endpoints.py:86-88 | a keyword naming a parameter ends among the parameters with its value, or with a payload item equal to it under Python `==` when the name is dotted; one naming a payload field ends among the data with its value; any other keyword is dropped |
| EndpointInput.PrepareDotted | resttypes/endpoints.py:90-99 | a dotted parameter given explicitly is replaced by the payload's item when the two compare equal under Python `==` and kept when they differ; an absent one takes the payload's item, or stays absent when there is none |
| EndpointInput.PrepareUndotted | resttypes/endpoints.py:90-99 | a parameter name without a dot is never filled from the payload |
| EndpointObject.MergedTypes | resttypes/endpoints.py:177-178 | the merged type table has every parameter and payload name, and a payload field's type wins over a parameter's |
| EndpointObject.EndpointAcceptable | resttypes/endpoints.py:165-189 | is_acceptable returns True exactly when every entry passes its type and every required name is given unless None is allowed; False names a refused entry or a missing required name; a name neither required nor optional raises KeyError |
| EndpointObject.DateTimeFieldRefused | resttypes/endpoints.py:53-59 | a payload field of datetime type given a value other than None never passes both rat_check and is_acceptable |
| EndpointObject.ValidateReturn | resttypes/endpoints.py:152-160 | validate_return raises IndexError for an endpoint without a RETURNS entry and is otherwise is_acceptable of the reply against the declared type |
| EndpointObject.ValidateReturnAccepts | resttypes/endpoints.py:152-160 | a None reply passes, and so does a reply that already is an instance of the declared type, except a datetime object |
| EndpointObject.ConstructAll | resttypes/endpoints.py:61-69 | the construct loop succeeds exactly when every entry has a type and converts, keeps the keys and stores each converted value; a failure names an entry without a type or whose conversion failed |
| EndpointObject.ConstructedInstances | resttypes/endpoints.py:61-69 | each constructed value is None where None was given, or an instance of its declared type |
| EndpointObject.PassingParamsRender | resttypes/endpoints.py:101-104 | parameters that pass rat_check against str, int, bool and enum types can all be rendered into a URL |
| EndpointObject.EntriesMapEntries | resttypes/endpoints.py:50 | the keyword dict with distinct keys and its map hold the same entries |
| EndpointObject.Endpoint.constructor | resttypes/endpoints.py:39-70 | a new endpoint object holds its class, converted parameters, payload and chosen URL |
| EndpointObject.NewEndpoint | resttypes/endpoints.py:39-70 | Endpoint.__init__ succeeds exactly when the keywords convert, prepare_input succeeds, the merged input is acceptable and every entry converts; the object then holds the converted parameters and payload and the endpoint chosen from the prepared parameters; each failure reports its own error |
| Clients.AllGiven | fcoclient/clients.py:180-188 | can_handle holds exactly when every REQUIRED_AUTH key is present and not None |
| Clients.CredText | fcoclient/clients.py:242-244 | a credential formatted into a byte-string template fails exactly when it is a unicode string with a non-ASCII character, with UnicodeError; a byte string is copied |
| Clients.UserText | fcoclient/clients.py:242-244 | `'{}/{}'.format(user, customer)` succeeds exactly when both credentials can be encoded, and otherwise raises UnicodeError |
| Clients.UnicodeUserRefused | fcoclient/clients.py:238-248 | a unicode user name `é` with every required key given is accepted by can_handle and refused by the constructor |
| Clients.RestClient.constructor | fcoclient/clients.py:169-202 | a new client keeps its credentials and retry settings, has an empty auth tuple and no service URL, and verifies against `ca_cert` when given |
| Clients.RestClient.SetAuth | fcoclient/clients.py:238-285 | each subclass reads its auth tuple and service URL from the credentials; a missing key, or a unicode user name or customer with a non-ASCII character that `'{}/{}'.format` cannot encode, raises inside the `try` and comes out as NonRecoverableError, so the client is not built and no client with a partial auth is ever used |
| Clients.ReadsRequired | fcoclient/clients.py:235-285 | the keys a constructor reads are exactly its class's REQUIRED_AUTH names |
| Clients.AuthTupleParts | fcoclient/clients.py:242-244 | the auth tuple's first part is a byte string that splits back into user name and customer at `/` when the user name has none, its second part is the password, and a token client sends its token with an empty password |
| Clients.NewClient | fcoclient/clients.py:169-285 | constructing a client of a class succeeds exactly when every key it reads is present and, for the user-based classes, the user name and customer can be encoded as ASCII; otherwise it raises NonRecoverableError |
| Clients.FirstHandler | fcoclient/clients.py:292-293 | the class chosen is the first that can handle the credentials, and none is chosen exactly when none can |
| Clients.FirstHandlerAt | fcoclient/clients.py:292-295 | once the classes before a position have declined, a class there that accepts is the one chosen |
| Clients.HandledBuilds | fcoclient/clients.py:188-285 | a class that can handle the credentials finds every key its constructor reads; its constructor then succeeds exactly when it is the token class or the user name and customer can be encoded as ASCII |
| Clients.GetClient | fcoclient/clients.py:290-298 | get_client returns a client of the first class that can handle the credentials, with the default retry settings; it raises NonRecoverableError exactly when no class can, or when that class's constructor refuses the credentials, with no later class tried |
| Clients.ClassifyNamedCodes | fcoclient/clients.py:92-135 | 200 and 202 are answers, 400, 403 and 501 are final, and 429 and 503 are retried |
| Clients.Classify | fcoclient/clients.py:92-135 | how the wrapper sorts a status code: no contract of its own; ClassifyNamedCodes states the class of every code the source names |
| Clients.JsonToStrNoUnicode | fcoclient/clients.py:98-114 | the nested to_str leaves no unicode string anywhere in the decoded reply |
| Clients.Attempts | fcoclient/clients.py:75-153 | the wrapper never sends more requests than the retry count |
| Clients.SuccessStops | fcoclient/clients.py:92-114 | the first successful reply ends the call with its decoded body, and nothing is sent after it |
| Clients.GiveUpFirst | fcoclient/clients.py:119-145 | a final status raises NonRecoverableError at once, after one request |
| Clients.MessageError | fcoclient/clients.py:137-141 | what building the error message raises: no contract of its own; SendStep states that such an error ends the call |
| Clients.Outcome | fcoclient/clients.py:75-156 | the wrapper's answer to a sequence of replies: no contract of its own; Attempts, SuccessStops, GiveUpFirst, NoInternalRetry, GiveUpAsWritten and SendStep state it, and Send is the source's loop proved equal to it |
| Clients.NoInternalRetry | fcoclient/clients.py:150-153 | without internal retries the first reply to retry raises RecoverableError carrying the retry delay |
| Clients.GiveUpAsWritten | fcoclient/clients.py:155-156 | when every attempt asks for a retry, the wrapper sends the retry count of requests and returns None |
| Clients.GiveUpCorrected | fcoclient/clients.py:155-156 | with the give-up error raised, any answer the wrapper returns is the decoded body of a successful reply it received |
| Clients.PatternAsWritten | fcoclient/clients.py:59-64 | an endpoint with a positional field `{0}` is sent with the field left in it |
| Clients.PatternCorrected | fcoclient/clients.py:59-64 | with the error raised, any endpoint the legacy block lets through is the template fully formatted with the pattern, for every template whose fields are plain names (literal text may hold `:`, `!` and `[`) |
| Clients.RequestUrlParts | fcoclient/clients.py:66-68 | a request URL that is built starts with the service URL's text and `/rest/user/5.0/` and ends with the endpoint |
| Clients.RequestUrl | fcoclient/clients.py:66-68 | the request URL fails exactly when the service URL is a unicode string with a non-ASCII character, with UnicodeError; RequestUrlParts states the prefix and suffix of the URL it builds |
| Clients.FormatEndpointLiteral | fcoclient/clients.py:58-64 | an endpoint without braces, as get_endpoint hands it over, passes through the legacy block unchanged, whatever the pattern |
| Clients.AddIpEndpoint | resttypes/endpoints.py:423-424 | AddIP's URL for an IPv6 address such as `fe80::1` passes through the legacy block unchanged, its colons copied as literal text |
| Clients.FormatEndpoint | fcoclient/clients.py:58-64 | the legacy pattern block: no contract of its own; PatternAsWritten and PatternCorrected state what reaches the URL, FormatEndpointLiteral and AddIpEndpoint that a formatted URL passes through unchanged, and Call what is sent |
| Clients.ChosenPayload | fcoclient/clients.py:70-73 | the payload is `data` when its truth test gives True, otherwise the `payload` keyword or None; the truth test uses the length of containers, so an empty GenericContainer is false, and raises TypeError for a GenericContainer over a value without a length |
| Clients.Truth | typed/__init__.py:252-256 | the truth of a value is False for None, zero and empty containers and True otherwise; a GenericContainer is as true as its data's length, and raises TypeError when the data has none |
| Clients.ChosenPayloadGeneric | fcoclient/clients.py:70-73 | an empty GenericContainer as data gives the `payload` keyword or None, and a GenericContainer over an integer raises TypeError |
| Clients.Call | fcoclient/clients.py:49-156 | a call fails with the format error, with UnicodeError from a service URL that cannot be encoded, or with the TypeError of the payload's truth test, and sends nothing; otherwise it sends the same request, to the URL built from the formatted endpoint with the chosen payload, as many times as the retry loop attempts, and returns the retry loop's outcome |
| Clients.SendStep | fcoclient/clients.py:75-153 | one reply either settles the call (an answer, NonRecoverableError or RecoverableError) or costs one attempt before the rest |
| Clients.Send | fcoclient/clients.py:75-156 | the retry loop returns the outcome of the replies and sends the same request once per attempt |
| Miner.AfterArticle | generators/miner.py:47-48 | `s.split(' ', 1)[1]` of a phrase with an article is the text after the article and its space |
| Miner.UnknownTypes.constructor | generators/miner.py:131 | the set of unrecognised phrases starts empty |
| Miner.GetType | generators/miner.py:20-63 | get_type returns the descriptor of the phrase and adds to the set exactly the phrases that descriptor records |
| Miner.TypeOf | generators/miner.py:20-63 | `get_type` on a plain phrase: no contract of its own; TypeOfWellFormed, TypeOfFails, MapPhrase, ArrayPhrase, ObjectPhrase and EnumPhrase state what it returns and records, and GetType is the method that records it |
| Miner.GetNamed | generators/miner.py:47-60 | the article branch returns the object, enum, builtin or plain descriptor and adds the plain phrase it keeps |
| Miner.TypeOfWellFormed | generators/miner.py:20-63 | a parsed phrase adds to the set exactly the phrases its descriptor keeps unparsed, and its descriptor never holds a tuple with an unknown head |
| Miner.TypeOfFails | generators/miner.py:42-63 | the only failure is a map phrase without ` to `, which raises IndexError; a phrase with neither a map prefix nor an article is recorded and returned as it is |
| Miner.MapPhrase | generators/miner.py:42-46 | `Map of X to Y` splits at the first ` to ` and parses the left side before the right, keeping the phrases both record |
| Miner.ArrayPhrase | generators/miner.py:49-50 | an article phrase ending in ` array` gives a list of the element phrase, parsed again with the article `a ` |
| Miner.ObjectPhrase | generators/miner.py:51-52 | an article phrase ending in ` object` names a complex object and records nothing |
| Miner.ArticleEnum | generators/miner.py:53-54 | an article phrase ending in ` enum` names the enumeration after the middle part of `rsplit(' ', 2)` |
| Miner.EnumPhrase | generators/miner.py:53-54 | with at least two words before `enum`, the enumeration is named by the word just before it |
| Miner.EnumPhraseOneWord | generators/miner.py:53-54 | with one word before `enum`, the enumeration is named `enum` itself |
| Miner.PlainArticlePhrase | generators/miner.py:55-60 | any other article phrase is a known builtin, recording nothing, or is recorded and returned without its article |
| GenCommon.NamedText | generators/common.py:26-30 | `str(Named(t))` is the type's `__name__`, or the phrase itself when it has none |
| GenCommon.SourceTypeFails | generators/common.py:39-59 | source_type fails exactly when a tuple with an unknown head occurs, and then with TypeError |
| GenCommon.NestedPrefixes | generators/common.py:39-55 | the enum prefix reaches only the outermost descriptor, while the complex-object prefix reaches every level |
| GenCommon.SourceTypeShape | generators/common.py:46-55 | a typed list or dict renders as its factory call around the renderings of its parts, the dict's two parts joined by the magic character |
| GenCommon.SourceType | generators/common.py:39-59 | `source_type`: no contract of its own; SourceTypeFails, NestedPrefixes and SourceTypeShape state what it renders and when it raises |
| GenCommon.FormatArgs | generators/common.py:64 | `content.format(*args)` fails, with IndexError, exactly when there are fewer arguments than fields |
| GenCommon.FormatArgsLiteral | generators/common.py:64 | a template without fields is copied unchanged |
| GenCommon.FormatArgsTwo | generators/common.py:64 | two fields take the two arguments in order |
| GenCommon.SetTextPlain | generators/common.py:92-96 | text without square brackets passes through set_wrap unchanged |
| GenCommon.SetText | generators/common.py:92-96 | set_wrap's rewriting: no contract of its own; SetTextPlain, SetTextEmpty, SetTextItems and SetTextOrder state what it does to a set display |
| GenCommon.SetTextEmpty | generators/common.py:94 | an empty set display becomes `set()` |
| GenCommon.SetTextItems | generators/common.py:95-96 | a non-empty set display becomes a brace display around the same items |
| GenCommon.SetTextOrder | generators/common.py:94-96 | the order of the rewrites matters: starting with `set([` would turn the empty set into `{}`, an empty dict |
| GenCommon.SetWrapDisplay | generators/common.py:92-96 | the text set_wrap writes for `head + str(s)` is `set()` for an empty set and the members between braces otherwise |
| GenCommon.SetWrapDict | generators/common.py:92-96 | a dict display whose keys and types carry no square brackets passes through set_wrap unchanged |
| GenCommon.ShownLine | generators/common.py:92-97 | set_wrap writes a set constant as one indented line holding the shown set |
| GenCommon.DictLine | generators/common.py:92-97 | set_wrap writes a dict constant as one indented line holding the dict display |
| GenCommon.FullStop | generators/cobjects.py:67-68 | the docstring ends in exactly one added or kept full stop, keeps its text, and an empty docstring raises IndexError |
| GenCommon.Wrapped | generators/common.py:83-87 | wrap appends the text after its first-line indent as one line, or nothing when the text is blank |
| GenCommon.AssembleExtends | generators/enums.py:42-44 | each block is written after what was there before, which it leaves as it was |
| GenCommon.AssembleSticky | generators/enums.py:42-44 | once a block raises, the blocks after it add nothing |
| GenCommon.AssembleSeparated | generators/enums.py:42-44 | blocks that all succeed are written one after another, each followed by a blank line |
| GenCommon.Popped | generators/enums.py:45 | `out.pop()` drops the last line, and raises IndexError on an empty list |
| GenCommon.PopLast | generators/enums.py:45 | the final pop leaves the lines and the error of GenEnd |
| GenCommon.GenEndSeparated | generators/enums.py:42-45 | when every block succeeds, gen leaves the blocks separated by one blank line each, with none after the last |
| GenCommon.GenEndEmpty | generators/enums.py:42-45 | with no blocks, gen pops a line of what was there before, and raises on an empty list |
| GenCommon.SetOrder | generators/cobjects.py:87 | iterating over a set visits every member exactly once |
| GenCommon.TypePairs | generators/cobjects.py:90-91 | each attribute name is paired with its rendered type, in table order |
| GenCommon.Partition | generators/cobjects.py:87-89 | the required names are names of the table, the optional ones are exactly the others, and a name is required exactly when its entry says so |
| GenCommon.ShownText | generators/common.py:92-96 | set_wrap's rewriting turns a set display into the shown set |
| GenCommon.Out.constructor | generators/cobjects.py:59 | the output list starts empty |
| GenCommon.Out.Line | generators/common.py:62-70 | line appends exactly the formatted content with a line end, or raises IndexError and appends nothing |
| GenCommon.Out.LineWith | generators/common.py:62-70 | a template with one field appends the argument between its texts |
| GenCommon.Out.LineTwo | generators/common.py:62-70 | a template with two fields appends the arguments in order between its texts |
| GenCommon.Out.Text | generators/common.py:62-70 | a template without fields appends the text as it is |
| GenCommon.Out.Blank | generators/common.py:62-70 | `line(out)` appends an empty line |
| GenCommon.Out.Lines | generators/common.py:73-80 | lines appends each item with a line end, in order, after the old lines |
| GenCommon.Out.Wrap | generators/common.py:83-89 | wrap appends the wrapped text |
| GenCommon.Out.SetWrap | generators/common.py:92-97 | set_wrap appends the rewritten text, wrapped |
| GenCommon.Out.Pop | generators/enums.py:45 | pop removes and returns the last line, and raises IndexError on an empty list |
| GenEnums.Longest | generators/enums.py:22 | `len(max(names, key=len))` is at least every name's length and is the length of one of them |
| GenEnums.DescColumn | generators/enums.py:22 | the description column is two past the longest value name, and an enum without values raises ValueError |
| GenEnums.DescFormat | generators/enums.py:24 | the template fills with the name, a colon, the padding and the description, in that order |
| GenEnums.DescAligned | generators/enums.py:22-24 | a description line holds the name and a colon, then spaces, then the description at the column, whatever the name's length |
| GenEnums.DescNonBlank | generators/enums.py:24 | a description line is never blank, so wrap always writes it |
| GenEnums.DescLinesAligned | generators/enums.py:23-24 | the loop writes one line per value, each indented by four spaces with its description at the column |
| GenEnums.DescColumnShared | generators/enums.py:22-24 | every description in the docstring starts at the same column |
| GenEnums.AssignFormat | generators/enums.py:32 | the assignment line is the template filled with the value's name twice |
| GenEnums.AssignLinesEach | generators/enums.py:31-32 | the second loop writes exactly one assignment line per value, in table order |
| GenEnums.AssignRoundTrip | generators/enums.py:32 | reading an assignment line back gives the value's name on both sides, so each member's value is its name |
| GenEnums.EnumHeadLines | generators/enums.py:10-19 | the head of a block is the class line and docstring opening, then the docstring with its full stop, then a blank line |
| GenEnums.EnumBlockShape | generators/enums.py:8-37 | the header comes first whatever happens next; the block raises IndexError exactly on an empty docstring and ValueError exactly on an empty value table |
| GenEnums.EnumBlock | generators/enums.py:8-37 | the lines and exception of one enum's gen_single: no contract of its own; EnumBlockShape and EnumBlockValues state its shape, and GenSingle is the method that appends it |
| GenEnums.EnumBodyParts | generators/enums.py:23-35 | a body is one aligned description line per value, the docstring's end, one assignment per value and a blank line |
| GenEnums.EnumBlockValues | generators/enums.py:8-37 | a block that succeeds is its head followed by its body |
| GenEnums.WriteHeader | generators/enums.py:10-13 | the class line and the docstring's opening are appended |
| GenEnums.GenSingle | generators/enums.py:8-37 | gen_single appends exactly the enum's block and reports the error that stops it |
| GenEnums.WriteBody | generators/enums.py:21-35 | the rest of gen_single appends the body |
| GenEnums.WriteDescs | generators/enums.py:23-24 | the first loop appends the aligned description lines |
| GenEnums.WriteAssigns | generators/enums.py:31-32 | the second loop appends the assignment lines |
| GenEnums.Blocks | generators/enums.py:42-43 | the blocks follow the visiting order, one per enum |
| GenEnums.Gen | generators/enums.py:40-45 | gen visits every enum exactly once, appends each block and a blank line until one raises, then drops the last line |
| GenEnums.GenSeparated | generators/enums.py:40-45 | when every enum has a docstring and values, gen writes the blocks separated by one blank line each and ends without one |
| GenEndpoints.ClassName | generators/endpoints.py:10-11 | the class name is the endpoint name with its first letter upper-cased and the rest unchanged |
| GenEndpoints.ClassLine | generators/endpoints.py:10-11 | the class line holds the class name between the template's texts |
| GenEndpoints.EntryDoc | generators/endpoints.py:32-35 | an entry writes its lines exactly when its type renders, and otherwise writes nothing and raises TypeError |
| GenEndpoints.EntryDocs | generators/endpoints.py:31-35 | a parameter or data table's entries are written up to the first type that does not render, which raises TypeError |
| GenEndpoints.ReturnDoc | generators/endpoints.py:54-56 | a return entry writes its lines exactly when its type renders, and otherwise raises TypeError |
| GenEndpoints.ReturnDocs | generators/endpoints.py:53-56 | a return table's entries are written up to the first type that does not render |
| GenEndpoints.EntryDocsSticky | generators/endpoints.py:31-35 | once an entry fails, the later entries add nothing |
| GenEndpoints.ReturnDocsSticky | generators/endpoints.py:53-56 | once a return entry fails, the later entries add nothing |
| GenEndpoints.WrappedNoBlank | generators/common.py:83-87 | wrap never writes an empty line |
| GenEndpoints.EntryDocsNoBlank | generators/endpoints.py:31-35 | a table's entries hold no empty line |
| GenEndpoints.ReturnDocsNoBlank | generators/endpoints.py:53-56 | a return table's entries hold no empty line |
| GenEndpoints.EntryLineShape | generators/endpoints.py:32-34 | an entry line is written whole at indent 8 |
| GenEndpoints.HeadingsPlain | generators/endpoints.py:24-52 | the section headings hold no braces, so line writes them as they are |
| GenEndpoints.DocSectionsFail | generators/endpoints.py:28-56 | the docstring's sections fail exactly when some table holds a type that does not render, and then with TypeError |
| GenEndpoints.DocSectionsJoined | generators/endpoints.py:28-56 | with every type renderable, the sections present are written in order, the data and returns sections each preceded by a blank line when a section comes before them |
| GenEndpoints.DocGroupsNoBlank | generators/endpoints.py:28-56 | each section is a heading and entries with no empty line |
| GenEndpoints.DocSectionsSeparated | generators/endpoints.py:28-56 | the sections present are written exactly one blank line apart |
| GenEndpoints.DefItems | generators/endpoints.py:63-65 | one item per definition, in order |
| GenEndpoints.DefItemFormat | generators/endpoints.py:63-64 | each item is the template filled with the verb and the URL |
| GenEndpoints.EndpointsShown | generators/endpoints.py:63-67 | the ENDPOINTS constant is one line at indent 4 listing the definitions in order, followed by a blank line |
| GenEndpoints.TableTexts | generators/endpoints.py:71-81 | a table gives four constants |
| GenEndpoints.ReturnPairs | generators/endpoints.py:102-103 | each return name is paired with its rendered type, in table order |
| GenEndpoints.TableConstsShown | generators/endpoints.py:71-96 | the four constants of a table are one line each: the names as shown sets and the types as a dict display |
| GenEndpoints.ConstsSeparated | generators/endpoints.py:69-105 | the constant groups are written one blank line apart, in the order of the docstring's sections |
| GenEndpoints.EpHeadLines | generators/endpoints.py:10-26 | the head of a block is the class line with the upper-cased first letter, the docstring with its full stop as the fifth line, a blank line, then the remarks exactly when the endpoint has them |
| GenEndpoints.EpBlockShape | generators/endpoints.py:8-108 | an empty name writes nothing and raises IndexError; otherwise the header comes first, an empty docstring raises IndexError after it, and a type that does not render raises TypeError |
| GenEndpoints.EpBlock | generators/endpoints.py:8-108 | the lines and exception of one endpoint's gen_single: no contract of its own; EpBlockShape and EpBlockParts state its shape, and GenSingle is the method that appends it |
| GenEndpoints.EpBlockParts | generators/endpoints.py:8-108 | a block that succeeds is its head, its sections one blank line apart, the docstring's end, ENDPOINTS, the constant groups one blank line apart and a blank line |
| GenEndpoints.WriteHeader | generators/endpoints.py:10-14 | the class line and the docstring's opening are appended |
| GenEndpoints.WriteRemarks | generators/endpoints.py:23-26 | the remarks heading, text and blank line are appended exactly when the endpoint has remarks |
| GenEndpoints.WriteEntry | generators/endpoints.py:32-35 | one entry appends its lines and reports its error |
| GenEndpoints.WriteEntries | generators/endpoints.py:31-35 | the loop over a table appends its entries up to the first error |
| GenEndpoints.WriteReturnEntry | generators/endpoints.py:54-56 | one return entry appends its lines and reports its error |
| GenEndpoints.WriteReturnEntries | generators/endpoints.py:53-56 | the loop over the return table appends its entries up to the first error |
| GenEndpoints.WriteParams | generators/endpoints.py:29-35 | the parameters section is appended |
| GenEndpoints.WriteData | generators/endpoints.py:38-46 | the data section is appended, after a blank line when there are parameters |
| GenEndpoints.WriteReturns | generators/endpoints.py:49-56 | the returns section is appended, after a blank line when another section comes before |
| GenEndpoints.WriteDocs | generators/endpoints.py:28-56 | the three sections are appended up to the first error |
| GenEndpoints.WriteTableConsts | generators/endpoints.py:78-81 | the four constants of a table are appended |
| GenEndpoints.WriteParamsConsts | generators/endpoints.py:70-81 | the parameter constants are appended when there are parameters |
| GenEndpoints.WriteDataConsts | generators/endpoints.py:84-96 | the data constants are appended when there is data, after a blank line when there are parameters |
| GenEndpoints.WriteReturnsConsts | generators/endpoints.py:99-105 | the RETURNS constant is appended when there are return values, after a blank line when another group comes before |
| GenEndpoints.WriteConsts | generators/endpoints.py:69-105 | the three constant groups are appended in order |
| GenEndpoints.WriteTail | generators/endpoints.py:58-108 | the docstring's end, ENDPOINTS, the constants and the final blank line are appended |
| GenEndpoints.GenSingle | generators/endpoints.py:8-108 | gen_single appends exactly the endpoint's block and reports the error that stops it |
| GenEndpoints.Blocks | generators/endpoints.py:113-114 | the blocks follow the visiting order, one per endpoint |
| GenEndpoints.Gen | generators/endpoints.py:111-116 | gen visits every endpoint exactly once, appends each block and a blank line until one raises, then drops the last line |
| GenEndpoints.GenSeparated | generators/endpoints.py:111-116 | when every endpoint has a name, a docstring and renderable types, gen writes the blocks one blank line apart and ends without one |
| GenCobjects.DepsRecNames | generators/cobjects.py:13-26 | create_relationships_rec gives the complex objects a descriptor names, and no set when a tuple with an unknown head occurs |
| GenCobjects.AttrDepsMember | generators/cobjects.py:34-36 | a name is a dependency exactly when some attribute type names it |
| GenCobjects.Relationships | generators/cobjects.py:29-37 | the dependency map has exactly the complex objects as keys |
| GenCobjects.ComplexDeps | generators/cobjects.py:33-36 | the inner loop gives the union of the attributes' dependencies, or fails exactly when an attribute type gives no set |
| GenCobjects.CreateRelationships | generators/cobjects.py:29-37 | create_relationships succeeds exactly when every attribute type resolves, then returns the dependency map, and otherwise raises TypeError |
| GenCobjects.AttrDocsSticky | generators/cobjects.py:76-80 | once an attribute fails to render, the later attributes add nothing |
| GenCobjects.GenSingle | generators/cobjects.py:59-99 | gen_single appends exactly the complex object's block and reports the error that stops it |
| GenCobjects.WriteHeader | generators/cobjects.py:61-64 | the class line and the docstring's opening are appended |
| GenCobjects.WriteAttrDocs | generators/cobjects.py:76-80 | the loop appends each attribute's lines up to the first type that does not render |
| GenCobjects.WriteTrailer | generators/cobjects.py:83-99 | the docstring's end, the four schema constants and a blank line are appended |
| GenCobjects.CoBlockRelative | generators/cobjects.py:59-99 | a block does not depend on what came before: gen_single only appends |
| GenCobjects.CoBlock | generators/cobjects.py:59-99 | the lines and exception of one complex object's gen_single: no contract of its own; CoBlockRelative, CoBlockStart and CoBlockSchema state its shape, and GenSingle is the method that appends it |
| GenCobjects.CoBlockStart | generators/cobjects.py:61-69 | a block begins with the class line; it raises IndexError exactly on an empty docstring, and otherwise its fifth line is the docstring ending in a full stop |
| GenCobjects.CoTrailerTail | generators/cobjects.py:83-99 | the schema constants show the three name sets as brace displays, `set()` when empty, and the type dict, one line each, then a blank line |
| GenCobjects.SchemaShown | generators/cobjects.py:93-96 | each schema constant fits on the one line set_wrap writes |
| GenCobjects.CoBlockSchema | generators/cobjects.py:86-99 | a block that completes ends with the four schema constants and a blank line |
| GenCobjects.Extended | generators/cobjects.py:44-46 | the data gains an empty entry for every name depended on but not defined |
| GenCobjects.ExtendedClosed | generators/cobjects.py:44-46 | every dependency of an extended entry is itself an entry |
| GenCobjects.TopologicalSort | generators/cobjects.py:40-56 | topological_sort raises TypeError exactly on empty data; otherwise each layer holds exactly the entries whose dependencies all lie in earlier layers, and the leftovers keep their dependencies never layered, none empty |
| GenCobjects.NextLayer | generators/cobjects.py:50-55 | one round: the ready entries form the next layer, and the rest lose that layer from their dependencies |
| GenCobjects.ReadyLayer | generators/cobjects.py:50 | the entries with nothing left to wait for are those not yet layered whose dependencies all are |
| GenCobjects.UndefinedFirst | generators/cobjects.py:44-50 | the undefined names all belong to the first layer |
| GenCobjects.StuckDependsOnStuck | generators/cobjects.py:49-56 | every leftover entry still depends on another leftover entry |
| GenCobjects.CycleNeverLayered | generators/cobjects.py:49-56 | no entry of a dependency cycle is ever layered |
| GenCobjects.CycleLeftOver | generators/cobjects.py:49-56 | every entry of a dependency cycle ends among the leftovers |
| GenCobjects.UndefinedBlockOk | generators/cobjects.py:106-112 | a placeholder block for an undefined name never raises |
| GenCobjects.WriteBlock | generators/cobjects.py:112-119 | one block and its blank line are appended |
| GenCobjects.Gen | generators/cobjects.py:102-124 | gen raises TypeError and writes nothing when the map cannot be built or is empty; otherwise it writes each name once, the undefined names first, each after all it depends on, covers every entry but the leftovers when nothing raises, and ends with the CYCLIC FIX line or the dropped blank line |
| GenCobjects.WriteSorted | generators/cobjects.py:106-124 | after sorting, the undefined names, the layers and the closing line are written |
| GenCobjects.CyclicFixLine | generators/cobjects.py:122 | the CYCLIC FIX line shows its argument after the label |
| GenCobjects.CyclicClosed | generators/cobjects.py:121-122 | the leftover entries keep exactly their leftover dependencies |
| GenCobjects.WriteUndefined | generators/cobjects.py:106-113 | the first loop writes a placeholder block for every undefined name, each once, none raising |
| GenCobjects.WriteNames | generators/cobjects.py:116-119 | a block and a blank line for each name in turn, up to the first that raises |
| GenCobjects.WriteLayer | generators/cobjects.py:116-119 | one pass writes the names of a layer not written before, each after all it depends on |
| GenCobjects.WriteLayers | generators/cobjects.py:115-119 | the second loop writes the layers in order, skipping the undefined names, each name once and after all it depends on |
| GenCobjects.LayersCover | generators/cobjects.py:44-56 | the undefined names and the layers are every entry but the leftovers |
| GenCobjects.LayerReady | generators/cobjects.py:50-55 | a layer depends only on earlier layers and shares with them only the undefined names |

## Left out

- HTTP, sleeping, logging and file output are left out.
  - The client's `requests` calls become a sequence of replies, each a status code and an optional decoded body. JSON decoding of the body is not modelled.
  - `sleep(retry_delay)` and the logger calls are dropped.
  - `write` and the `line_wrapper` map at the end of each generator's `gen` are dropped.
- Scraping in `generators/miner.py` is left out: `indexer`, `parsed_page`, `api`, `enums`, `cobjects` and the printing helpers. So is the BeautifulSoup branch of `get_type` (the `d_types` update, lines 33-37): `get_type` is modelled on plain strings.
- `cfy/`, `fcoclient/api.py`, `fcoclient/exceptions.py` and `setup.py` are not part of this model. The first two are glue over Cloudify and HTTP. Exceptions are an error datatype here.
- GenCommon.Wrapped: `textwrap.wrap` is modelled as writing the text on one line, or nothing for blank text. Breaking long text into several lines at the width limit is not modelled.
- Python 2 dict and set iteration order is arbitrary.
  - Loops over dicts follow the order of the model's pair sequences.
  - Keyword arguments are taken in the order written.
  - Loops over sets pick members in an unspecified order, and their contracts hold for every order.
- Values.IsInstance: being an instance of a typed class is a comparison of type tags. The source computes something else for typed containers, and the model does not follow it:
  - Every `List(t)` or `Dict(k, v)` instance gets a class of its own (`self.__class__ = factory(...)`, typed/__init__.py:413 and 524).
  - `MetaTyped.__instancecheck__` (typed/__init__.py:84-120) then evaluates `isinstance(t, t)` for each type attribute, for example `isinstance(str, str)`. That is False, and the bare `except` turns the TypeError it raises into False. So `isinstance(x, List(t))` and `isinstance(x, Dict(k, v))` are False for every built typed container, while the tag comparison says True.
  - For complex objects, which have no type attributes, the tag comparison and `__instancecheck__` agree.
  - The classes `factory` synthesises at run time and the descriptors keyed by `id(instance)` are not modelled.
- Typed.TypedList.Append, Typed.TypedList.SetItem, Typed.TypedList.Insert and Typed.TypedList.Extend: when the item type is itself a typed container, the source refuses every typed item with TypeError, converted ones included (`List(List(str))([List(str)(['a'])])` fails in `append`). The model accepts an item whose tags match.
- Typed.TypedDict.SetItem and Typed.TypedDict.Update: when the item type is a typed container, the source silently drops every item (`Dict(str, Dict(str, str))` keeps no entry). The model stores an item whose tags match.
- RestTypes.InstanceKept: for a typed container type the source's `isinstance` is False. construct_data therefore rebuilds the container through `List(t)(v)` or `Dict(k, v)(v)` instead of returning it unchanged. The model returns it unchanged.
- The `TypeCheck` decorator is modelled as the check it performs. Its wrapping of the function is not modelled.
- Float values appear only as type tags and as Python truth values. No arithmetic is done on them.
- Only a few schema tables are modelled: `FilterCondition`, `SearchFilter`, `QueryLimit` and `OrderedField`, plus the endpoints `GetResource`, `ListResources`, `AddToFavourites` and `UpdateUser`. The hundreds of generated tables share the machinery modelled here.
- Timestamps.Strptime: the year must be four digits. The other fields may be one or two digits, and the day may be space-padded. Other leniencies of Python's `_strptime` pattern are not modelled, and neither are microseconds or time zones.
- The sign character of a timestamp's offset is never inspected: construct_data always adds the offset hours and minutes. The model follows that. The shift is modelled only for whole-minute arithmetic on valid dates, by stepping minutes.
- Endpoints.Format: a replacement field with a conversion (`!r`), a format spec (`:>8`), an index (`[0]`) or a nested `{` is not modelled, so Format and its callers require every field to be a plain name. Literal text outside the fields may hold any character, `:` included.
- Clients.FormatEndpoint, Clients.PatternCorrected and Clients.Call: require the endpoint's fields to be plain names, as Endpoints.Format does. Every endpoint template in resttypes/endpoints.py has only plain names in its fields.
- Clients.Cred: a credential is a byte string, a unicode string or None. Numbers and other values in the credentials dict are not modelled.
- Clients.Call: requires `retry_count >= 0`. `get_client` always passes 5, and the source's `while retry_count:` loops forever on a negative count unless a final status arrives. A loop that does not terminate is not modelled.
- The text of exception messages is not modelled, only the exception class. Examples are the message built from `json.loads(r.content)['message']` and the "Invalid data" message. An error while reading the reply's message is modelled as the exception it raises.
- `Endpoint.__str__` and `ComplexObject.__str__` only print, and are left out.
- `Typed.__eq__` (typed/__init__.py:224-227) is not modelled. Because of the class-per-instance behaviour above, it is False for any two distinct typed containers, and True only for a container compared with itself. The wrappers that forward to `_data` (typed/__init__.py:202-286) are also not modelled: `__str__`, `__repr__`, the orderings, `__len__`, `__contains__`, `__getitem__`, `__delitem__` and `__iter__`.
- GenEnums.DescFormat: the generators' text is modelled without Python 2's split between byte strings and unicode. A unicode name or description holding a non-ASCII character, formatted into a byte-string template, raises UnicodeEncodeError in the source; the model fills the template instead. The same holds for GenCommon.FormatArgs and the other generator templates. The refusal message of a complex object, where the same error does arise from the data, is modelled (Cobjects.RefusalMessage).
- Keys of TypedDict and plain dict data are compared structurally. In Python `1` and `True`, or `'a'` and `u'a'`, are the same key; in the model they stay distinct. Python `==` between containers or complex objects is likewise structural and order-sensitive here. `TypedList.remove` and the `!=` in prepare_input's loop do use Python's equality (`PyEq`) for numbers, booleans and ASCII strings; a container or complex payload item is compared structurally there too.
- `TypedList.sort` is not modelled: its result depends on Python 2's ordering across types. The TypedDict views `keys`, `items`, `values`, `iterkeys`, `iteritems` and `itervalues` return `_data`'s contents in arbitrary order; the model exposes them only as the `data` field, the entries in the order they were stored. `popitem` removes some entry; the model takes the last one (`TypedDict.PopItem`).

## Findings

| source | as written | input that shows it | evidently intended | confidence | as-written member | corrected member |
|---|---|---|---|---|---|---|
| typed/__init__.py:534-541 | `TypedList.extend` reads `self.item_type._noneable` for a None element, and calls `self.item_type.is_acceptable` for an element that is not an instance. Neither attribute exists on a builtin type or an Enum class, so AttributeError is raised. | `List(str)([None])`, or `List(Condition)(['IS_EQUAL_TO'])`. Both pass `TypedList.is_acceptable`. | Keep None when None is allowed, and convert an acceptable non-instance with `construct_data`, as `is_acceptable` promises | high, not executed | RestTypes.ExtendAsWrittenRefusesNone | RestTypes.ListIntendedKeepsAccepted |
| resttypes/cobjects.py:15-40 | `FilterList & cond` returns a plain list when `self` is a FilterList, because `list.__add__` returns a list. A filter joined with anything else reads `other.__class__.name`, which raises AttributeError. | `c1 & c2 & c3 & c4`: the third `&` gives a plain list, and the fourth raises. | Any chain of `&` gives one FilterList holding every condition in order, and a bad operand raises TypeError | high, not executed | Cobjects.ChainAsWrittenFails | Cobjects.ChainOfConditions |
| resttypes/cobjects.py:164-173 | `ComplexField` conditions map each operand through `cls.untype.__func__(None, v)` (line 120). For a non-datetime, that calls `Typed.untype.__func__(None, v)`. That function takes one argument, so it raises TypeError. | `SomeObject.name == 'abc'` | A non-datetime operand passes through unchanged and is then printed with `str` | high, not executed | Cobjects.ConditionAsWrittenRefuses | Cobjects.ConditionShape |
| fcoclient/clients.py:155-156 | When the retries run out, `REST_FAILURE_EXCEPTION(...)` is built but not raised, so the wrapper returns None. | A retry count of 5 and five replies with status 503 | Raise NonRecoverableError after the last attempt | high, not executed | Clients.GiveUpAsWritten | Clients.GiveUpCorrected |
| fcoclient/clients.py:59-64 | An IndexError from `endpoint.format(**pattern)` builds a NonRecoverableError but does not raise it. The endpoint is sent with its replacement field still in it. | The endpoint `'{0}'` with no pattern | Raise NonRecoverableError, so that no template with an unformatted field reaches the server | medium, not executed | Clients.PatternAsWritten | Clients.PatternCorrected |
| resttypes/endpoints.py:224-230 | The template `resources/user/{userDetails.resourceUUID}` is formatted with Python's field rule, which looks up key `userDetails`. `rat_check` never lets that key into the parameters, so `get_endpoint` finds no valid endpoint and raises. | `UpdateUser(userDetails=..., **{'userDetails.resourceUUID': u})` | Look the field up by its whole dotted name, giving `resources/user/<u>` | high, not executed | Endpoints.UpdateUserAsWritten | Endpoints.UpdateUserCorrected |
