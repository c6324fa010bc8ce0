/** The checking and converting core of the REST types: `to_str`,
    `rat_check`, `is_acceptable` and `construct_data` (resttypes/__init__.py),
    together with the class-level `is_acceptable` and the constructors they
    dispatch to: TypedList and TypedDict (typed/__init__.py), ComplexObject and
    GenericContainer (resttypes/cobjects.py). These call one another, so they
    are specified here as one group of functions; the loops of the source are
    methods in this module and in the Cobjects and Typed modules, each proved to
    compute the function that specifies it. */
module RestTypes {
  import opened PyBase
  import opened Enums
  import opened Timestamps
  import opened Schemas
  import opened Values

  /** `Typed._noneable` (typed/__init__.py:167): every typed class accepts None. */
  const Noneable: bool := true

  // ---------------------------------------------------------------- to_str

  /** `s.encode('ascii', 'replace')`: a byte string is first decoded as ASCII,
      so a non-ASCII byte fails; a unicode string has each non-ASCII character
      replaced by `?`. */
  function EncodeAscii(v: Value): (r: Result<string>)
    requires IsText(v)
    ensures r.Ok? ==> IsAscii(r.value) && |r.value| == |Text(v)|
    ensures r.Err? <==> v.Str? && !IsAscii(v.s)
  {
    if v.Str? then (if IsAscii(v.s) then Ok(v.s) else Err(UnicodeError))
    else Ok(seq(|v.u|, i requires 0 <= i < |v.u| => if v.u[i] as int < 128 then v.u[i] else '?'))
  }

  /** `to_str(v)`: lists (including FilterList) become plain lists of converted
      elements, dicts are rebuilt with converted keys and values, strings are
      encoded, and everything else is returned as it is. */
  function ToStr(v: Value): Result<Value>
    decreases v, 1
  {
    match v
    case List(xs) => (match ToStrItems(v, 0, []) case Err(e) => Err(e) case Ok(ys) => Ok(List(ys)))
    case FilterList(xs) => (match ToStrItems(v, 0, []) case Err(e) => Err(e) case Ok(ys) => Ok(List(ys)))
    case Dict(es) => (match ToStrEntries(v, 0, []) case Err(e) => Err(e) case Ok(fs) => Ok(Dict(fs)))
    case Str(_) => (match EncodeAscii(v) case Err(e) => Err(e) case Ok(s) => Ok(Str(s)))
    case Unicode(_) => (match EncodeAscii(v) case Err(e) => Err(e) case Ok(s) => Ok(Str(s)))
    case _ => Ok(v)
  }

  /** `str_[k] = to_str(v)` for the elements of the list `l` from `j` on,
      after the converted elements `acc`. */
  function ToStrItems(l: Value, j: nat, acc: seq<Value>): Result<seq<Value>>
    requires (l.List? || l.FilterList?) && j <= |l.items|
    decreases l, 0, |l.items| - j
  {
    if j == |l.items| then Ok(acc)
    else
      match ToStr(l.items[j])
      case Err(e) => Err(e)
      case Ok(y) => ToStrItems(l, j + 1, acc + [y])
  }

  /** `str_[to_str(k)] = to_str(v)` for the entries of `d` from `j` on, into
      `acc`. */
  function ToStrEntries(d: Value, j: nat, acc: seq<(Value, Value)>): Result<seq<(Value, Value)>>
    requires d.Dict? && j <= |d.entries|
    decreases d, 0, |d.entries| - j
  {
    if j == |d.entries| then Ok(acc)
    else
      match ToStr(d.entries[j].1)
      case Err(e) => Err(e)
      case Ok(w) =>
        match ToStr(d.entries[j].0)
        case Err(e) => Err(e)
        case Ok(k) => ToStrEntries(d, j + 1, DictPut(acc, k, w))
  }

  // ---------------------------------------------------------- enum and datetime

  /** `hasattr(EnumClass, v)`: the name must be a string, and a unicode name
      must encode to ASCII. */
  function HasAttrValue(e: EnumType, v: Value): (r: Result<bool>)
    ensures r.Ok? <==> v.Str? || (v.Unicode? && IsAscii(v.u))
    ensures r.Ok? ==> r.value == HasAttr(e, Text(v))
    ensures r.Err? ==> r.error == (if v.Unicode? then UnicodeError else TypeError)
  {
    if v.Str? then Ok(HasAttr(e, v.s))
    else if v.Unicode? then (if IsAscii(v.u) then Ok(HasAttr(e, v.u)) else Err(UnicodeError))
    else Err(TypeError)
  }

  /** The text that slicing `inst[:-5]` reads: a string, or the string held by
      a GenericContainer (Typed.__getitem__ slices `_data`). */
  function TextOf(v: Value): (r: Option<string>)
    ensures IsText(v) ==> r == Some(Text(v))
  {
    if IsText(v) then Some(Text(v))
    else if v.Generic? && IsText(v.content) then Some(Text(v.content))
    else None
  }

  /** A timestamp text split into its local time and its offset fields. */
  datatype Stamp = Stamp(local: DateTime, hours: int, minutes: int)

  /** `strptime(s[:-5], '%Y-%m-%dT%H:%M:%S')`, `int(s[-4:-2])` and
      `int(s[-2:])`; the sign character `s[-5]` is never read. */
  function ParseStamp(s: string): (r: Option<Stamp>)
    ensures r.Some? ==> Valid(r.value.local)
  {
    if |s| < 5 then None
    else
      match Strptime(s[..|s| - 5])
      case None => None
      case Some(t) =>
        match ParseInt(s[|s| - 4..|s| - 2])
        case None => None
        case Some(h) =>
          match ParseInt(s[|s| - 2..])
          case None => None
          case Some(m) => Some(Stamp(t, h, m))
  }

  // ------------------------------------------------------------ is_acceptable

  /** `is_acceptable(inst, type_, noneable)` (resttypes/__init__.py). */
  function IsAcceptable(v: Value, t: FieldType, noneable: bool): Result<bool>
    decreases StrRank(v), Body(v), t, 9
  {
    if v.PyNone? && noneable then Ok(true)
    else if IsTyped(t) then (if IsInstance(v, t) then Ok(true) else ClassAccepts(t, v))
    else if t.TEnum? then (if IsInstance(v, t) then Ok(true) else HasAttrValue(t.e, v))
    else if t.TDateTime? then
      match TextOf(v)
      case None => Err(TypeError)
      case Some(s) => Ok(ParseStamp(s).Some?)
    else Ok(IsInstance(v, t))
  }

  /** `type_.is_acceptable(inst)` for a Typed class. */
  function ClassAccepts(t: FieldType, v: Value): Result<bool>
    requires IsTyped(t)
    decreases StrRank(v), Body(v), t, 7
  {
    match t
    case TList(i) => Ok(ListAccepts(i, v))
    case TDict(k, i) => Ok(DictAccepts(k, i, v))
    case TComplex(c) => ComplexAccepts(c, v)
    case TGeneric => Ok(true)
  }

  /** The check TypedList and TypedDict apply to a key: an instance, or
      accepted by the class check or `hasattr`; a raised exception counts as a
      failure. */
  predicate KeyOk(x: Value, i: FieldType)
    decreases StrRank(x), Body(x), i, 8
  {
    if IsTyped(i) then IsInstance(x, i) || ClassAccepts(i, x) == Ok(true)
    else if i.TEnum? then IsInstance(x, i) || HasAttrValue(i.e, x) == Ok(true)
    else IsInstance(x, i)
  }

  /** The check applied to a list element or a dict value: None passes. */
  predicate ElementOk(x: Value, i: FieldType)
    decreases StrRank(x), Body(x), i, 9
  {
    x.PyNone? || KeyOk(x, i)
  }

  /** `list(v)` / `for x in v`: lists give their elements, dicts, typed dicts
      and complex objects their keys, strings their characters, and a
      GenericContainer what its `_data` gives (it never holds another
      GenericContainer). Anything else is not iterable. */
  function IterElems(v: Value): Option<seq<Value>>
  {
    match v
    case List(xs) => Some(xs)
    case FilterList(xs) => Some(xs)
    case TypedListObj(_, xs) => Some(xs)
    case Dict(es) => Some(Keys(es))
    case TypedDictObj(_, _, es) => Some(Keys(es))
    case Complex(_, es) => Some(Keys(es))
    case Str(s) => Some(seq(|s|, j requires 0 <= j < |s| => Str([s[j]])))
    case Unicode(s) => Some(seq(|s|, j requires 0 <= j < |s| => Unicode([s[j]])))
    case Generic(d) =>
      (match d
      case List(xs) => Some(xs)
      case FilterList(xs) => Some(xs)
      case TypedListObj(_, xs) => Some(xs)
      case Dict(es) => Some(Keys(es))
      case TypedDictObj(_, _, es) => Some(Keys(es))
      case Complex(_, es) => Some(Keys(es))
      case Str(s) => Some(seq(|s|, j requires 0 <= j < |s| => Str([s[j]])))
      case Unicode(s) => Some(seq(|s|, j requires 0 <= j < |s| => Unicode([s[j]])))
      case _ => None)
    case _ => None
  }

  /** `TypedList.is_acceptable` (typed/__init__.py:492-510): every element
      passes; an object that cannot be iterated fails. */
  predicate ListAccepts(i: FieldType, v: Value)
    decreases StrRank(v), Body(v), TList(i), 6
  {
    IterElems(v).Some? && forall j :: 0 <= j < |IterElems(v).value| ==> ElementOk(IterElems(v).value[j], i)
  }

  /** `TypedDict.is_acceptable` (typed/__init__.py:368-397): every key and
      every value passes; an object without `items()` fails. */
  predicate DictAccepts(k: FieldType, i: FieldType, v: Value)
    decreases StrRank(v), Body(v), TDict(k, i), 6
  {
    HasItems(v) && forall j :: 0 <= j < |EntriesOf(v)| ==> KeyOk(EntriesOf(v)[j].0, k) && ElementOk(EntriesOf(v)[j].1, i)
  }

  /** `ComplexObject.is_acceptable` (resttypes/cobjects.py:229-249). */
  function ComplexAccepts(c: ComplexClass, v: Value): Result<bool>
    decreases StrRank(v), Body(v), TComplex(c), 5
  {
    if !HasItems(v) then Err(AttributeError)
    else ComplexEntriesAccept(c, v, 0, SchemaOf(c).required, SchemaOf(c).optional)
  }

  /** The loop of ComplexObject.is_acceptable from entry `j`, with the
      required and optional names not seen yet. */
  function ComplexEntriesAccept(c: ComplexClass, v: Value, j: nat, req: set<string>, opt: set<string>): Result<bool>
    requires HasItems(v) && j <= |EntriesOf(v)|
    decreases StrRank(v), Body(v), TComplex(c), 5, |EntriesOf(v)| - j
  {
    if j == |EntriesOf(v)| then Ok(req == {} || Noneable)
    else
      var name := KeyName(EntriesOf(v)[j].0);
      if name.None? || (name.value !in req && name.value !in opt) then Ok(false)
      else if name.value !in SchemaOf(c).types then Ok(false)
      else
        match IsAcceptable(EntriesOf(v)[j].1, SchemaOf(c).types[name.value], Noneable)
        case Err(e) => if e == KeyError then Ok(false) else Err(e)
        case Ok(ok) =>
          if !ok then Ok(false)
          else if name.value in req then ComplexEntriesAccept(c, v, j + 1, req - {name.value}, opt)
          else ComplexEntriesAccept(c, v, j + 1, req, opt - {name.value})
  }

  /** Why find_erroneous_data reports an entry. */
  datatype Reason = NotInSpec | WrongType(t: FieldType)

  /** `ComplexObject.find_erroneous_data` (resttypes/cobjects.py:251-272). */
  function FindErroneous(c: ComplexClass, v: Value): Result<set<(Value, Value, Reason)>>
    decreases StrRank(v), Body(v), TComplex(c), 5
  {
    if !HasItems(v) then Err(AttributeError)
    else FindErroneousFrom(c, v, 0, SchemaOf(c).required, SchemaOf(c).optional, {})
  }

  function FindErroneousFrom(c: ComplexClass, v: Value, j: nat, req: set<string>, opt: set<string>,
                             errors: set<(Value, Value, Reason)>): Result<set<(Value, Value, Reason)>>
    requires HasItems(v) && j <= |EntriesOf(v)|
    decreases StrRank(v), Body(v), TComplex(c), 5, |EntriesOf(v)| - j
  {
    if j == |EntriesOf(v)| then Ok(errors)
    else
      var k := EntriesOf(v)[j].0;
      var x := EntriesOf(v)[j].1;
      var name := KeyName(k);
      if name.None? || name.value !in SchemaOf(c).types then
        if Hashable(k) && Hashable(x) then FindErroneousFrom(c, v, j + 1, req, opt, errors + {(k, x, NotInSpec)})
        else Err(TypeError)
      else if name.value !in req && name.value !in opt then Err(KeyError)
      else
        var req' := if name.value in req then req - {name.value} else req;
        var opt' := if name.value in req then opt else opt - {name.value};
        var t := SchemaOf(c).types[name.value];
        match IsAcceptable(x, t, Noneable)
        case Err(e) => Err(e)
        case Ok(ok) =>
          if ok then FindErroneousFrom(c, v, j + 1, req', opt', errors)
          else if Hashable(k) && Hashable(x) then FindErroneousFrom(c, v, j + 1, req', opt', errors + {(k, x, WrongType(t))})
          else Err(TypeError)
  }

  // ----------------------------------------------------------- construct_data

  /** The datetime branch of construct_data: a datetime is kept, a text is
      parsed and shifted by its offset. */
  function ConstructTime(v: Value): Result<Value> {
    if v.Time? then Ok(v)
    else
      match TextOf(v)
      case None => Err(TypeError)
      case Some(s) =>
        match ParseStamp(s)
        case None => Err(ValueError)
        case Some(st) => ShiftStamp(st)
  }

  /** The local time of a parsed text moved by its offset of
      `hours * 60 + minutes` minutes; leaving the calendar is an
      OverflowError. */
  function ShiftStamp(st: Stamp): (r: Result<Value>)
    requires Valid(st.local)
    ensures r.Err? ==> r.error == OverflowError
    ensures r.Ok? ==> r.value.Time? && Valid(r.value.t) && r.value.t.second == st.local.second
    ensures st.hours * 60 + st.minutes == 0 ==> r == Ok(Time(st.local))
  {
    match AddMinutes(st.local, st.hours * 60 + st.minutes)
    case None => Err(OverflowError)
    case Some(u) => Ok(Time(u))
  }

  /** `construct_data(inst, type_, noneable)` (resttypes/__init__.py). */
  function ConstructData(v: Value, t: FieldType, noneable: bool): Result<Value>
    decreases StrRank(v), Body(v), t, 9
  {
    if v.PyNone? && noneable then Ok(PyNone)
    else if IsTyped(t) || t.TEnum? then (if IsInstance(v, t) then Ok(v) else Create(t, v))
    else if t.TDateTime? then ConstructTime(v)
    else if IsInstance(v, t) then Ok(v)
    else Err(RaisedWith(ValueError, v))
  }

  /** `type_(inst)` for an enum or Typed class. */
  function Create(t: FieldType, v: Value): Result<Value>
    requires IsTyped(t) || t.TEnum?
    decreases StrRank(v), Body(v), t, 8
  {
    match t
    case TEnum(e) =>
      if IsText(v) then
        match FromValue(e, Text(v))
        case Err(err) => Err(err)
        case Ok(m) => Ok(EnumMember(m))
      else Err(ValueError)
    case TList(i) => if v.PyNone? then Ok(TypedListObj(i, [])) else ListCreate(i, v)
    case TDict(k, i) => DictCreate(k, i, v)
    case TComplex(c) => ComplexCreate(c, v)
    case TGeneric => GenericCreate(v)
  }

  /** `List(i)(v)`: TypedList.__init__ and `extend` (typed/__init__.py:512-549),
      as written. Python 2 strings have no `__iter__`, so they are refused
      like any non-iterable. */
  function ListCreate(i: FieldType, v: Value): Result<Value>
    decreases StrRank(v), Body(v), TList(i), 7
  {
    if IsText(v) || IterElems(v).None? then Err(TypeError)
    else
      match ExtendItems(i, v, 0)
      case Err(e) => Err(e)
      case Ok(xs) => Ok(TypedListObj(i, xs))
  }

  /** The validation loop of `extend` from element `j`: each element, converted
      where needed; the first failure is raised. */
  function ExtendItems(i: FieldType, v: Value, j: nat): Result<seq<Value>>
    requires !IsText(v) && IterElems(v).Some? && j <= |IterElems(v).value|
    decreases StrRank(v), Body(v), TList(i), 7, |IterElems(v).value| - j
  {
    if j == |IterElems(v).value| then Ok([])
    else
      match ExtendItemAsWritten(i, IterElems(v).value[j])
      case Err(e) => Err(e)
      case Ok(y) =>
        match ExtendItems(i, v, j + 1)
        case Err(e) => Err(e)
        case Ok(ys) => Ok([y] + ys)
  }

  /** One element of `extend` (typed/__init__.py:534-543) as written: None
      needs the item type's `_noneable` and a non-instance its `is_acceptable`,
      which only Typed classes have, so a builtin item type refuses None and an
      enum item type refuses every non-member with AttributeError. */
  function ExtendItemAsWritten(i: FieldType, x: Value): (r: Result<Value>)
    decreases StrRank(x), Body(x), i, 9
  {
    if x.PyNone? then (if IsTyped(i) then Ok(PyNone) else Err(AttributeError))
    else if IsInstance(x, i) then Ok(x)
    else if i.TEnum? then Err(AttributeError)
    else if IsTyped(i) then
      match ClassAccepts(i, x)
      case Err(e) => Err(e)
      case Ok(ok) => if ok then Create(i, x) else Err(TypeError)
    else Err(TypeError)
  }

  /** One element of `extend` with the tests TypedList.is_acceptable applies:
      None is kept (the list itself is noneable), an enum item type converts a
      member name it has as an attribute, a Typed item type converts what its
      check accepts, and anything else raises TypeError. */
  function ExtendItem(i: FieldType, x: Value): Result<Value>
    decreases StrRank(x), Body(x), i, 9
  {
    if x.PyNone? then Ok(PyNone)
    else if IsInstance(x, i) then Ok(x)
    else if i.TEnum? then (if HasAttrValue(i.e, x) == Ok(true) then Create(i, x) else Err(TypeError))
    else if IsTyped(i) then
      match ClassAccepts(i, x)
      case Err(e) => Err(e)
      case Ok(ok) => if ok then Create(i, x) else Err(TypeError)
    else Err(TypeError)
  }

  /** The loop of `extend` with the intended test of each element. */
  function ExtendItemsIntended(i: FieldType, v: Value, j: nat): Result<seq<Value>>
    requires !IsText(v) && IterElems(v).Some? && j <= |IterElems(v).value|
    decreases |IterElems(v).value| - j
  {
    if j == |IterElems(v).value| then Ok([])
    else
      match ExtendItem(i, IterElems(v).value[j])
      case Err(e) => Err(e)
      case Ok(y) =>
        match ExtendItemsIntended(i, v, j + 1)
        case Err(e) => Err(e)
        case Ok(ys) => Ok([y] + ys)
  }

  /** `List(i)(v)` as evidently intended: each element is tested the way
      TypedList.is_acceptable tests it. */
  function ListCreateIntended(i: FieldType, v: Value): Result<Value> {
    if IsText(v) || IterElems(v).None? then Err(TypeError)
    else
      match ExtendItemsIntended(i, v, 0)
      case Err(e) => Err(e)
      case Ok(xs) => Ok(TypedListObj(i, xs))
  }

  /** `TypedDict.__setitem__` (typed/__init__.py:415-423): a key of the wrong
      type raises, an item of the wrong type is silently dropped. */
  function TypedSetItem(k: FieldType, i: FieldType, es: seq<(Value, Value)>, key: Value, item: Value): Result<seq<(Value, Value)>>
  {
    if !IsInstance(key, k) then Err(TypeError)
    else if IsInstance(item, i) || item.PyNone? then Ok(DictPut(es, key, item))
    else Ok(es)
  }

  /** `TypedDict.update(other)`'s loop over `other.items()`. */
  function TypedUpdate(k: FieldType, i: FieldType, es: seq<(Value, Value)>, other: seq<(Value, Value)>): Result<seq<(Value, Value)>>
    decreases |other|
  {
    if |other| == 0 then Ok(es)
    else
      match TypedSetItem(k, i, es, other[0].0, other[0].1)
      case Err(e) => Err(e)
      case Ok(es') => TypedUpdate(k, i, es', other[1..])
  }

  /** `Dict(k, i)(v)`: TypedDict.__init__ and `update`. None gives an empty
      dict. Objects without an `items` attribute raise TypeError, or the
      UnicodeEncodeError of formatting them into its message; a
      GenericContainer has the attribute but fails when its `_data` is
      neither a dict nor a typed dict. */
  function DictCreate(k: FieldType, i: FieldType, v: Value): Result<Value>
  {
    if v.PyNone? then Ok(TypedDictObj(k, i, []))
    else if !(v.Dict? || v.TypedDictObj? || v.Complex? || v.Generic?) then Err(RaisedWith(TypeError, v))
    else if !HasItems(v) then Err(AttributeError)
    else
      match TypedUpdate(k, i, [], EntriesOf(v))
      case Err(e) => Err(e)
      case Ok(es) => Ok(TypedDictObj(k, i, es))
  }

  /** `cls(v)` for a complex-object class (ComplexObject.__init__ without
      keyword arguments): None stands for an empty dict, and another complex
      object or GenericContainer is replaced by a copy of its `_data`, which
      fails as CopyError says; the checks and the conversion then read the entries,
      which are the same in the object and in the copy. */
  function ComplexCreate(c: ComplexClass, v: Value): Result<Value>
    decreases StrRank(v), Body(v), TComplex(c), 7
  {
    if v.PyNone? then Ok(Complex(c, []))
    else if (v.Complex? || v.Generic?) && CopyError(v).Some? then Err(CopyError(v).value)
    else ComplexBuild(c, v)
  }

  /** The checks and conversion of ComplexObject.__init__ on its final data.
      Refused data raises the bare Exception whose message lists the erroneous
      entries; a byte-string template given a non-ASCII unicode key or value
      raises UnicodeError while that message is built. */
  function ComplexBuild(c: ComplexClass, v: Value): Result<Value>
    decreases StrRank(v), Body(v), TComplex(c), 6
  {
    match ComplexAccepts(c, v)
    case Err(e) => Err(e)
    case Ok(ok) =>
      if ok then ComplexConstruct(c, v)
      else
        match FindErroneous(c, v)
        case Err(e) => Err(e)
        case Ok(errs) => if MessageFails(errs) then Err(UnicodeError) else Err(InvalidData)
  }

  /** A unicode value that `'{}'.format` on a byte string cannot encode. */
  predicate NonAsciiText(x: Value) {
    x.Unicode? && !IsAscii(x.u)
  }

  /** Formatting `'{} ({}) not {}'` over the erroneous entries fails exactly
      when one of them has a non-ASCII unicode key or value. */
  predicate MessageFails(errs: set<(Value, Value, Reason)>) {
    exists e :: e in errs && (NonAsciiText(e.0) || NonAsciiText(e.1))
  }

  /** `ComplexObject.construct_data` (resttypes/cobjects.py:274-285) and the
      object it is stored in. A TypedDict's `copy` raises TypeError. */
  function ComplexConstruct(c: ComplexClass, v: Value): Result<Value>
    decreases StrRank(v), Body(v), TComplex(c), 5
  {
    if v.TypedDictObj? then Err(TypeError)
    else if !HasItems(v) then Err(AttributeError)
    else
      match ConstructEntries(c, v, 0, [])
      case Err(e) => Err(e)
      case Ok(es) => Ok(Complex(c, es))
  }

  /** The entries from `j` on, each value converted by its declared type,
      after the entries `acc` already converted. */
  function ConstructEntries(c: ComplexClass, v: Value, j: nat, acc: seq<(Value, Value)>): Result<seq<(Value, Value)>>
    requires HasItems(v) && j <= |EntriesOf(v)|
    decreases StrRank(v), Body(v), TComplex(c), 5, |EntriesOf(v)| - j
  {
    if j == |EntriesOf(v)| then Ok(acc)
    else
      var name := KeyName(EntriesOf(v)[j].0);
      if name.None? || name.value !in SchemaOf(c).types then Err(KeyError)
      else
        match ConstructData(EntriesOf(v)[j].1, SchemaOf(c).types[name.value], Noneable)
        case Err(e) => Err(e)
        case Ok(y) => ConstructEntries(c, v, j + 1, acc + [(EntriesOf(v)[j].0, y)])
  }

  /** `GenericContainer(v)`: the data is always acceptable and is wrapped by
      GenericContainer.construct_data. */
  function GenericCreate(v: Value): (r: Result<Value>)
    ensures v.List? || v.Dict? ==> r.Ok?
    decreases StrRank(v), Body(v), TGeneric, 7
  {
    if v.PyNone? then Ok(Generic(Dict([])))
    else if (v.Complex? || v.Generic?) && CopyError(v).Some? then Err(CopyError(v).value)
    else Ok(Generic(GenericWrap(v)))
  }

  /** A list element or dict value whose exact type is list or dict becomes a
      GenericContainer; anything else is kept. */
  function Wrap(x: Value): Value
    decreases StrRank(x), Body(x), TGeneric, 8
  {
    if x.List? || x.Dict? then GenericCreate(x).value else x
  }

  /** `GenericContainer.construct_data` (resttypes/cobjects.py:322-344) on the
      data `__init__` settled on: a list is copied into a plain list and a dict
      (or the `_data` of a complex object) into a dict, wrapping as Wrap says. */
  function GenericWrap(v: Value): Value
    decreases StrRank(v), Body(v), TGeneric, 6
  {
    match v
    case List(xs) => List(seq(|xs|, j requires 0 <= j < |xs| => Wrap(xs[j])))
    case FilterList(xs) => List(seq(|xs|, j requires 0 <= j < |xs| => Wrap(xs[j])))
    case Dict(es) => Dict(seq(|es|, j requires 0 <= j < |es| => (es[j].0, Wrap(es[j].1))))
    case Complex(_, es) => Dict(seq(|es|, j requires 0 <= j < |es| => (es[j].0, Wrap(es[j].1))))
    case Generic(Dict(es)) => Dict(seq(|es|, j requires 0 <= j < |es| => (es[j].0, Wrap(es[j].1))))
    case _ => v
  }

  // ------------------------------------------------------ to_str: the loops

  /** `to_str` as the source runs it: a list is converted into a fresh list of
      the same length filled slot by slot, a dict into a fresh dict filled entry
      by entry. */
  method ToStrLoop(v: Value) returns (r: Result<Value>)
    ensures r == ToStr(v)
    decreases v
  {
    if v.List? || v.FilterList? {
      var xs := v.items;
      var out: seq<Value> := seq(|xs|, _ => PyNone);
      var k := 0;
      while k < |xs|
        invariant 0 <= k <= |xs| && |out| == |xs|
        invariant ToStrItems(v, 0, []) == ToStrItems(v, k, out[..k])
      {
        var y := ToStrLoop(xs[k]);
        if y.Err? {
          return Err(y.error);
        }
        assert out[k := y.value][..k + 1] == out[..k] + [y.value];
        out := out[k := y.value];
        k := k + 1;
      }
      assert out[..k] == out;
      r := Ok(List(out));
    } else if v.Dict? {
      var acc: seq<(Value, Value)> := [];
      var k := 0;
      while k < |v.entries|
        invariant 0 <= k <= |v.entries|
        invariant ToStrEntries(v, 0, []) == ToStrEntries(v, k, acc)
      {
        var w := ToStrLoop(v.entries[k].1);
        if w.Err? {
          return Err(w.error);
        }
        var key := ToStrLoop(v.entries[k].0);
        if key.Err? {
          return Err(key.error);
        }
        acc := DictPut(acc, key.value, w.value);
        k := k + 1;
      }
      r := Ok(Dict(acc));
    } else if IsText(v) {
      var e := EncodeAscii(v);
      r := if e.Err? then Err(e.error) else Ok(Str(e.value));
    } else {
      r := Ok(v);
    }
  }

  // ------------------------------------------------------- to_str: the laws

  /** A byte string with a non-ASCII byte somewhere inside lists and dicts:
      the one input `encode('ascii', 'replace')` rejects. */
  predicate HasNonAsciiBytes(v: Value)
    decreases v
  {
    match v
    case Str(s) => !IsAscii(s)
    case List(xs) => exists j :: 0 <= j < |xs| && HasNonAsciiBytes(xs[j])
    case FilterList(xs) => exists j :: 0 <= j < |xs| && HasNonAsciiBytes(xs[j])
    case Dict(es) => exists j :: 0 <= j < |es| && (HasNonAsciiBytes(es[j].0) || HasNonAsciiBytes(es[j].1))
    case _ => false
  }

  /** What `to_str` leaves behind: only ASCII byte strings, plain lists, and
      dicts with distinct keys, all the way down. */
  predicate Encoded(v: Value)
    decreases v
  {
    match v
    case Str(s) => IsAscii(s)
    case Unicode(_) => false
    case FilterList(_) => false
    case List(xs) => forall j :: 0 <= j < |xs| ==> Encoded(xs[j])
    case Dict(es) => UniqueKeys(es) && forall j :: 0 <= j < |es| ==> Encoded(es[j].0) && Encoded(es[j].1)
    case _ => true
  }

  /** `to_str` fails exactly on a non-ASCII byte string, with UnicodeError;
      what it returns is always Encoded. */
  lemma {:induction false} ToStrLaws(v: Value)
    ensures ToStr(v).Err? <==> HasNonAsciiBytes(v)
    ensures ToStr(v).Err? ==> ToStr(v).error == UnicodeError
    ensures ToStr(v).Ok? ==> Encoded(ToStr(v).value)
    decreases v, 1
  {
    if v.List? || v.FilterList? {
      ToStrItemsLaws(v, 0, []);
    } else if v.Dict? {
      ToStrEntriesLaws(v, 0, []);
    }
  }

  lemma {:induction false} ToStrItemsLaws(l: Value, j: nat, acc: seq<Value>)
    requires (l.List? || l.FilterList?) && j <= |l.items|
    requires forall i :: 0 <= i < |acc| ==> Encoded(acc[i])
    ensures ToStrItems(l, j, acc).Err? <==> exists i :: j <= i < |l.items| && HasNonAsciiBytes(l.items[i])
    ensures ToStrItems(l, j, acc).Err? ==> ToStrItems(l, j, acc).error == UnicodeError
    ensures ToStrItems(l, j, acc).Ok? ==> forall i :: 0 <= i < |ToStrItems(l, j, acc).value| ==> Encoded(ToStrItems(l, j, acc).value[i])
    decreases l, 0, |l.items| - j
  {
    if j < |l.items| {
      ToStrLaws(l.items[j]);
      if ToStr(l.items[j]).Ok? {
        ToStrItemsLaws(l, j + 1, acc + [ToStr(l.items[j]).value]);
      }
    }
  }

  lemma {:induction false} ToStrEntriesLaws(d: Value, j: nat, acc: seq<(Value, Value)>)
    requires d.Dict? && j <= |d.entries|
    requires UniqueKeys(acc) && forall i :: 0 <= i < |acc| ==> Encoded(acc[i].0) && Encoded(acc[i].1)
    ensures ToStrEntries(d, j, acc).Err? <==>
              exists i :: j <= i < |d.entries| && (HasNonAsciiBytes(d.entries[i].0) || HasNonAsciiBytes(d.entries[i].1))
    ensures ToStrEntries(d, j, acc).Err? ==> ToStrEntries(d, j, acc).error == UnicodeError
    ensures ToStrEntries(d, j, acc).Ok? ==> Encoded(Dict(ToStrEntries(d, j, acc).value))
    decreases d, 0, |d.entries| - j
  {
    if j < |d.entries| {
      ToStrLaws(d.entries[j].1);
      ToStrLaws(d.entries[j].0);
      if ToStr(d.entries[j].1).Ok? && ToStr(d.entries[j].0).Ok? {
        var w := ToStr(d.entries[j].1).value;
        var k := ToStr(d.entries[j].0).value;
        EncodedPut(acc, k, w);
        ToStrEntriesLaws(d, j + 1, DictPut(acc, k, w));
      }
      ToStrEntriesAt(d, j, acc);
    }
  }

  /** One entry of the dict conversion, given the conversion of its key and
      value and the conversion from the next entry. */
  lemma ToStrEntriesAt(d: Value, j: nat, acc: seq<(Value, Value)>)
    requires d.Dict? && j < |d.entries|
    requires var x := d.entries[j].1;
             (ToStr(x).Err? <==> HasNonAsciiBytes(x)) && (ToStr(x).Err? ==> ToStr(x).error == UnicodeError)
    requires var k := d.entries[j].0;
             (ToStr(k).Err? <==> HasNonAsciiBytes(k)) && (ToStr(k).Err? ==> ToStr(k).error == UnicodeError)
    requires ToStr(d.entries[j].1).Ok? && ToStr(d.entries[j].0).Ok? ==>
               var acc' := DictPut(acc, ToStr(d.entries[j].0).value, ToStr(d.entries[j].1).value);
               (ToStrEntries(d, j + 1, acc').Err? <==>
                  exists i :: j + 1 <= i < |d.entries| && (HasNonAsciiBytes(d.entries[i].0) || HasNonAsciiBytes(d.entries[i].1)))
               && (ToStrEntries(d, j + 1, acc').Err? ==> ToStrEntries(d, j + 1, acc').error == UnicodeError)
               && (ToStrEntries(d, j + 1, acc').Ok? ==> Encoded(Dict(ToStrEntries(d, j + 1, acc').value)))
    ensures ToStrEntries(d, j, acc).Err? <==>
              exists i :: j <= i < |d.entries| && (HasNonAsciiBytes(d.entries[i].0) || HasNonAsciiBytes(d.entries[i].1))
    ensures ToStrEntries(d, j, acc).Err? ==> ToStrEntries(d, j, acc).error == UnicodeError
    ensures ToStrEntries(d, j, acc).Ok? ==> Encoded(Dict(ToStrEntries(d, j, acc).value))
  {
    if ToStr(d.entries[j].1).Ok? && ToStr(d.entries[j].0).Ok? {
      var acc' := DictPut(acc, ToStr(d.entries[j].0).value, ToStr(d.entries[j].1).value);
      assert ToStrEntries(d, j, acc) == ToStrEntries(d, j + 1, acc');
      if exists i :: j <= i < |d.entries| && (HasNonAsciiBytes(d.entries[i].0) || HasNonAsciiBytes(d.entries[i].1)) {
        var i :| j <= i < |d.entries| && (HasNonAsciiBytes(d.entries[i].0) || HasNonAsciiBytes(d.entries[i].1));
        assert i != j;
      }
    }
  }

  /** Putting an encoded key and value in a dict of encoded entries with
      distinct keys keeps it so. */
  lemma EncodedPut(acc: seq<(Value, Value)>, k: Value, w: Value)
    requires UniqueKeys(acc) && forall i :: 0 <= i < |acc| ==> Encoded(acc[i].0) && Encoded(acc[i].1)
    requires Encoded(k) && Encoded(w)
    ensures UniqueKeys(DictPut(acc, k, w))
    ensures forall i :: 0 <= i < |DictPut(acc, k, w)| ==> Encoded(DictPut(acc, k, w)[i].0) && Encoded(DictPut(acc, k, w)[i].1)
  {
    var acc' := DictPut(acc, k, w);
    DictPutUnique(acc, k, w);
    DictPutKeys(acc, k, w);
    forall i | 0 <= i < |acc'|
      ensures Encoded(acc'[i].0) && Encoded(acc'[i].1)
    {
      assert acc'[i] in acc';
      if acc'[i] != (k, w) {
        var n :| 0 <= n < |acc| && acc[n] == acc'[i];
      }
    }
  }

  /** On a list, `to_str` keeps the length and the order and converts each
      element; a FilterList comes back as a plain list. */
  lemma ToStrListShape(v: Value)
    requires (v.List? || v.FilterList?) && ToStr(v).Ok?
    ensures ToStr(v).value.List? && |ToStr(v).value.items| == |v.items|
    ensures forall j :: 0 <= j < |v.items| ==> ToStr(v.items[j]) == Ok(ToStr(v).value.items[j])
  {
    var none: seq<Value> := [];
    ToStrItemsShape(v, 0, none);
    forall j | 0 <= j < |v.items|
      ensures ToStr(v.items[j]) == Ok(ToStr(v).value.items[j])
    {
      assert |none| + j - 0 == j;
    }
  }

  lemma {:induction false} ToStrItemsShape(l: Value, j: nat, acc: seq<Value>)
    requires (l.List? || l.FilterList?) && j <= |l.items|
    requires ToStrItems(l, j, acc).Ok?
    ensures |ToStrItems(l, j, acc).value| == |acc| + |l.items| - j
    ensures ToStrItems(l, j, acc).value[..|acc|] == acc
    ensures forall i :: j <= i < |l.items| ==> ToStr(l.items[i]) == Ok(ToStrItems(l, j, acc).value[|acc| + i - j])
    decreases |l.items| - j
  {
    if j < |l.items| {
      var y := ToStr(l.items[j]).value;
      ToStrItemsShape(l, j + 1, acc + [y]);
      var ys := ToStrItems(l, j, acc).value;
      assert ys[..|acc| + 1] == acc + [y];
      assert ys[..|acc|] == (acc + [y])[..|acc|];
    }
  }

  /** On a dict, every entry's converted key is a key of the result, and
      every entry of the result is a converted key with the converted value
      of some entry (a later entry whose key converts to the same key wins). */
  lemma ToStrDictShape(v: Value)
    requires v.Dict? && ToStr(v).Ok?
    ensures ToStr(v).value.Dict?
    ensures forall j :: 0 <= j < |v.entries| ==>
              ToStr(v.entries[j].0).Ok? && ToStr(v.entries[j].0).value in Keys(ToStr(v).value.entries)
    ensures forall e :: e in ToStr(v).value.entries ==>
              exists j :: 0 <= j < |v.entries| && ToStr(v.entries[j].0) == Ok(e.0) && ToStr(v.entries[j].1) == Ok(e.1)
  {
    ToStrEntriesKeys(v, 0, []);
    ToStrEntriesFrom(v, 0, []);
  }

  /** Every key already gathered, and every entry's converted key from `j`
      on, is a key of the converted dict. */
  lemma {:induction false} ToStrEntriesKeys(d: Value, j: nat, acc: seq<(Value, Value)>)
    requires d.Dict? && j <= |d.entries|
    requires ToStrEntries(d, j, acc).Ok?
    ensures forall x :: x in Keys(acc) ==> x in Keys(ToStrEntries(d, j, acc).value)
    ensures forall i :: j <= i < |d.entries| ==>
              ToStr(d.entries[i].0).Ok? && ToStr(d.entries[i].0).value in Keys(ToStrEntries(d, j, acc).value)
    decreases |d.entries| - j
  {
    if j < |d.entries| {
      var w := ToStr(d.entries[j].1).value;
      var k := ToStr(d.entries[j].0).value;
      DictPutKeys(acc, k, w);
      ToStrEntriesKeys(d, j + 1, DictPut(acc, k, w));
    }
  }

  /** Every entry of the converted dict was gathered already or is the
      converted key and value of an entry from `j` on. */
  lemma {:induction false} ToStrEntriesFrom(d: Value, j: nat, acc: seq<(Value, Value)>)
    requires d.Dict? && j <= |d.entries|
    requires ToStrEntries(d, j, acc).Ok?
    ensures forall e :: e in ToStrEntries(d, j, acc).value ==>
              e in acc || exists n :: j <= n < |d.entries| && ToStr(d.entries[n].0) == Ok(e.0) && ToStr(d.entries[n].1) == Ok(e.1)
    decreases |d.entries| - j
  {
    if j < |d.entries| {
      var w := ToStr(d.entries[j].1).value;
      var k := ToStr(d.entries[j].0).value;
      var acc' := DictPut(acc, k, w);
      assert ToStrEntries(d, j, acc) == ToStrEntries(d, j + 1, acc');
      DictPutKeys(acc, k, w);
      ToStrEntriesFrom(d, j + 1, acc');
      forall e | e in ToStrEntries(d, j, acc).value
        ensures e in acc || exists n :: j <= n < |d.entries| && ToStr(d.entries[n].0) == Ok(e.0) && ToStr(d.entries[n].1) == Ok(e.1)
      {
        if e in acc' && e !in acc {
          assert e == (k, w);
          assert ToStr(d.entries[j].0) == Ok(e.0) && ToStr(d.entries[j].1) == Ok(e.1);
        }
      }
    }
  }

  /** On a string, `to_str` gives an ASCII byte string of the same length: a
      byte string is kept as it is, a unicode string has each non-ASCII
      character replaced by `?`; any value that is neither a list, a dict nor a
      string is returned unchanged. */
  lemma ToStrScalars(v: Value)
    requires !(v.List? || v.FilterList? || v.Dict?) && ToStr(v).Ok?
    ensures IsText(v) ==> ToStr(v).value.Str? && IsAscii(ToStr(v).value.s) && |ToStr(v).value.s| == |Text(v)|
    ensures v.Str? ==> ToStr(v) == Ok(v)
    ensures v.Unicode? ==> forall j :: 0 <= j < |v.u| ==>
              ToStr(v).value.s[j] == if v.u[j] as int < 128 then v.u[j] else '?'
    ensures !IsText(v) ==> ToStr(v) == Ok(v)
  {
  }

  /** An Encoded value is left as it is by `to_str`. */
  lemma {:induction false} EncodedFixed(v: Value)
    requires Encoded(v)
    ensures ToStr(v) == Ok(v)
    decreases v, 1
  {
    if v.List? {
      EncodedItemsFixed(v, 0);
    } else if v.Dict? {
      EncodedEntriesFixed(v, 0);
    }
  }

  lemma {:induction false} EncodedItemsFixed(l: Value, j: nat)
    requires l.List? && Encoded(l) && j <= |l.items|
    ensures ToStrItems(l, j, l.items[..j]) == Ok(l.items)
    decreases l, 0, |l.items| - j
  {
    if j < |l.items| {
      EncodedFixed(l.items[j]);
      assert l.items[..j] + [l.items[j]] == l.items[..j + 1];
      EncodedItemsFixed(l, j + 1);
    } else {
      assert l.items[..j] == l.items;
    }
  }

  lemma {:induction false} EncodedEntriesFixed(d: Value, j: nat)
    requires d.Dict? && Encoded(d) && j <= |d.entries|
    ensures ToStrEntries(d, j, d.entries[..j]) == Ok(d.entries)
    decreases d, 0, |d.entries| - j
  {
    var es := d.entries;
    if j < |es| {
      EncodedFixed(es[j].0);
      EncodedFixed(es[j].1);
      DictPutNew(es[..j], es[j].0, es[j].1);
      assert es[..j] + [(es[j].0, es[j].1)] == es[..j + 1];
      EncodedEntriesFixed(d, j + 1);
    } else {
      assert es[..j] == es;
    }
  }

  /** Converting twice is converting once. */
  lemma ToStrIdempotent(v: Value)
    requires ToStr(v).Ok?
    ensures ToStr(ToStr(v).value) == ToStr(v)
  {
    ToStrLaws(v);
    EncodedFixed(ToStr(v).value);
  }

  // ------------------------------------------------------------- rat_check

  /** The elements `set(given_dict)` collects: a dict's keys, the elements of
      any other iterable whose elements are all hashable, and nothing when
      `set()` raises TypeError (the source catches it). */
  function GivenKeys(given: Value): seq<Value>
  {
    if HasItems(given) then Keys(EntriesOf(given))
    else
      match IterElems(given)
      case None => []
      case Some(xs) => if forall j :: 0 <= j < |xs| ==> Hashable(xs[j]) then xs else []
  }

  /** The field names among the given keys. */
  function GivenNames(given: Value): set<string>
  {
    set k | k in GivenKeys(given) && KeyName(k).Some? :: KeyName(k).value
  }

  /** `given - all_`: the given keys that name no field. */
  function Additional(given: Value, all: set<string>): set<Value>
  {
    set k | k in GivenKeys(given) && (KeyName(k).None? || KeyName(k).value !in all)
  }

  /** The value stored under the key that compares equal to the name `n`. */
  function LookupName(es: seq<(Value, Value)>, n: string): (r: Option<Value>)
    ensures r.Some? ==> exists j :: 0 <= j < |es| && KeyName(es[j].0) == Some(n) && es[j].1 == r.value
    ensures r.None? ==> forall j :: 0 <= j < |es| ==> KeyName(es[j].0) != Some(n)
  {
    if |es| == 0 then None
    else if KeyName(es[0].0) == Some(n) then Some(es[0].1)
    else LookupName(es[1..], n)
  }

  /** The type test rat_check applies to one given value: the rules of
      is_acceptable without the datetime-string case. */
  function FieldPasses(v: Value, t: FieldType, noneable: bool): Result<bool>
  {
    if v.PyNone? && noneable then Ok(true)
    else if IsTyped(t) then (if IsInstance(v, t) then Ok(true) else ClassAccepts(t, v))
    else if t.TEnum? then (if IsInstance(v, t) then Ok(true) else HasAttrValue(t.e, v))
    else Ok(IsInstance(v, t))
  }

  /** One turn of rat_check's loop for the field `n`: `given_dict[k]`, then
      `types[k]` unless the value is an allowed None, then the type test. */
  function NameCheck(given: Value, n: string, types: map<string, FieldType>, noneable: bool): Result<bool>
  {
    if !HasItems(given) then Err(TypeError)
    else
      match LookupName(EntriesOf(given), n)
      case None => Err(KeyError)
      case Some(v) =>
        if v.PyNone? && noneable then Ok(true)
        else if n !in types then Err(KeyError)
        else FieldPasses(v, types[n], noneable)
  }

  /** The condition under which rat_check returns True: nothing required is
      missing, every given field passes its type test, and there are no
      additional keys unless they are allowed. */
  predicate RatPasses(given: Value, all: set<string>, required: set<string>, types: map<string, FieldType>,
                      noneable: bool, failAdditional: bool)
  {
    required <= GivenNames(given)
    && (forall n :: n in GivenNames(given) && n in all ==> NameCheck(given, n, types, noneable) == Ok(true))
    && !(Additional(given, all) != {} && failAdditional)
  }

  /** The body of rat_check's loop for the field `n` (resttypes/__init__.py:59-71):
      Ok(false) when the field goes into `type_check`. */
  method CheckField(given: Value, n: string, types: map<string, FieldType>, noneable: bool) returns (c: Result<bool>)
    ensures c == NameCheck(given, n, types, noneable)
  {
    if !HasItems(given) {
      return Err(TypeError);
    }
    var v := LookupName(EntriesOf(given), n);
    if v.None? {
      return Err(KeyError);
    }
    if v.value.PyNone? && noneable {
      return Ok(true);
    }
    if n !in types {
      return Err(KeyError);
    }
    var t := types[n];
    if IsTyped(t) {
      if !IsInstance(v.value, t) {
        c := ClassAccepts(t, v.value);
        return;
      }
    } else if t.TEnum? {
      if !IsInstance(v.value, t) {
        c := HasAttrValue(t.e, v.value);
        return;
      }
    } else if !IsInstance(v.value, t) {
      return Ok(false);
    }
    return Ok(true);
  }

  /** rat_check's loop over `given & all_` (resttypes/__init__.py:58-71): the
      fields whose test fails go into `type_check`, and the first test that
      raises ends the loop. */
  method CheckFields(given: Value, names: set<string>, types: map<string, FieldType>, noneable: bool)
    returns (r: Result<set<string>>)
    ensures r.Ok? ==> r.value <= names
    ensures r.Ok? ==> forall n :: n in names ==> NameCheck(given, n, types, noneable).Ok?
    ensures r.Ok? ==> forall n :: n in names ==> (NameCheck(given, n, types, noneable).value <==> n !in r.value)
    ensures r.Err? ==> exists n :: n in names && NameCheck(given, n, types, noneable) == Err(r.error)
  {
    var typeCheck: set<string> := {};
    var todo := names;
    while todo != {}
      invariant todo <= names
      invariant forall n :: n in names - todo ==> NameCheck(given, n, types, noneable).Ok?
      invariant forall n :: n in names - todo ==> (NameCheck(given, n, types, noneable).value <==> n !in typeCheck)
      invariant typeCheck <= names - todo
      decreases todo
    {
      var n :| n in todo;
      var c := CheckField(given, n, types, noneable);
      if c.Err? {
        return Err(c.error);
      }
      if !c.value {
        typeCheck := typeCheck + {n};
      }
      todo := todo - {n};
    }
    return Ok(typeCheck);
  }

  /** `rat_check(given_dict, all_, required, types, noneable, fail_additional)`
      (resttypes/__init__.py:36-77). The fields in `given & all_` are visited
      in an order the set decides, so when more than one of their tests raises,
      which exception escapes is not determined; every other outcome is. */
  method RatCheck(given: Value, all: set<string>, required: set<string>, types: map<string, FieldType>,
                  noneable: bool, failAdditional: bool) returns (r: Result<bool>)
    ensures r.Ok? <==> RatPasses(given, all, required, types, noneable, failAdditional)
    ensures r.Ok? ==> r.value
    ensures r.Err? ==> r.error == TypeError
                       || exists n :: n in GivenNames(given) && n in all && NameCheck(given, n, types, noneable) == Err(r.error)
    ensures (forall n :: n in GivenNames(given) && n in all ==> NameCheck(given, n, types, noneable).Ok?) && r.Err? ==>
              r.error == TypeError
    ensures !HasItems(given) && IterElems(given).None? ==> (r.Ok? <==> required == {})
  {
    var given' := GivenNames(given);
    var missing := required - given';
    var additional := Additional(given, all);
    var checked := CheckFields(given, given' * all, types, noneable);
    if checked.Err? {
      return Err(checked.error);
    }
    var typeCheck := checked.value;
    if !HasItems(given) && IterElems(given).None? {
      assert GivenKeys(given) == [];
      assert given' == {};
    }
    if missing != {} || typeCheck != {} || (additional != {} && failAdditional) {
      return Err(TypeError);
    }
    forall n | n in required
      ensures n in given'
    {
      assert n !in missing;
    }
    forall n | n in given' && n in all
      ensures NameCheck(given, n, types, noneable) == Ok(true)
    {
      assert n in given' * all;
      assert n !in typeCheck;
    }
    return Ok(true);
  }

  /** rat_check's type test is is_acceptable's on every field type but
      datetime; on a datetime field only a datetime object (or an allowed None)
      passes, so a timestamp string is refused. */
  lemma FieldPassesIsAcceptable(v: Value, t: FieldType, noneable: bool)
    ensures t != TDateTime ==> FieldPasses(v, t, noneable) == IsAcceptable(v, t, noneable)
    ensures t == TDateTime ==> FieldPasses(v, t, noneable) == Ok(v.Time? || (v.PyNone? && noneable))
  {
  }

  // ------------------------------------------------- construct_data: the laws

  /** `type_(inst)` builds an instance of `type_`. */
  lemma CreateInstance(t: FieldType, v: Value)
    requires IsTyped(t) || t.TEnum?
    requires Create(t, v).Ok?
    ensures IsInstance(Create(t, v).value, t)
  {
    if t.TComplex? {
      assert ComplexCreate(t.cls, v).Ok?;
      if !v.PyNone? {
        assert ComplexBuild(t.cls, v).Ok?;
        assert ComplexConstruct(t.cls, v).Ok?;
      }
    }
  }

  /** What construct_data returns is None (only where None is allowed) or an
      instance of the declared type. */
  lemma ConstructDataInstance(v: Value, t: FieldType, noneable: bool)
    requires ConstructData(v, t, noneable).Ok?
    ensures ConstructData(v, t, noneable).value.PyNone? ==> v.PyNone? && noneable
    ensures !ConstructData(v, t, noneable).value.PyNone? ==> IsInstance(ConstructData(v, t, noneable).value, t)
  {
    if !(v.PyNone? && noneable) && (IsTyped(t) || t.TEnum?) && !IsInstance(v, t) {
      CreateInstance(t, v);
    }
  }

  /** A value construct_data accepts without conversion: is_acceptable
      passes it and construct_data returns it unchanged. */
  lemma InstanceKept(v: Value, t: FieldType, noneable: bool)
    requires IsInstance(v, t) && !t.TDateTime?
    ensures IsAcceptable(v, t, noneable) == Ok(true)
    ensures ConstructData(v, t, noneable) == Ok(v)
  {
  }

  /** A builtin field refuses a value of another type with ValueError, or
      with UnicodeEncodeError when the value is a unicode string that the
      message cannot hold. */
  lemma BuiltinMismatch(v: Value, t: FieldType, noneable: bool)
    requires (t.TBool? || t.TInt? || t.TFloat? || t.TStr?) && !IsInstance(v, t) && !(v.PyNone? && noneable)
    ensures IsAcceptable(v, t, noneable) == Ok(false)
    ensures !(v.Unicode? && !IsAscii(v.u)) ==> ConstructData(v, t, noneable) == Err(ValueError)
    ensures v.Unicode? && !IsAscii(v.u) ==> ConstructData(v, t, noneable) == Err(UnicodeError)
  {
  }

  /** The text of a timestamp: the local time as strftime writes it, a sign
      character and the offset as four digits. */
  function StampText(t: DateTime, sign: char, h: nat, m: nat): string
    requires Valid(t) && t.year >= 1900 && h < 100 && m < 100
  {
    Strftime(t).value + [sign] + PadDigits(h, 2) + PadDigits(m, 2)
  }

  /** A timestamp text splits back into the local time and the two offset
      fields, and the sign character plays no part: with ConstructStamp,
      `-0130` moves the time forward by ninety minutes just as `+0130` does. */
  lemma ParseStampText(t: DateTime, sign: char, h: nat, m: nat)
    requires Valid(t) && t.year >= 1900 && h < 100 && m < 100
    ensures ParseStamp(StampText(t, sign, h, m)) == Some(Stamp(t, h, m))
  {
    var s := StampText(t, sign, h, m);
    var hh := PadDigits(h, 2);
    var mm := PadDigits(m, 2);
    assert s[..|s| - 5] == Strftime(t).value;
    assert s[|s| - 4..|s| - 2] == hh;
    assert s[|s| - 2..] == mm;
    StrptimeStrftime(t);
    PadDigitsValue(h, 2);
    PadDigitsValue(m, 2);
    assert ParseInt(hh) == Some(h);
    assert ParseInt(mm) == Some(m);
  }

  /** construct_data turns a text that splits into a local time and offset
      fields into the local time plus `hours * 60 + minutes` minutes. */
  lemma ConstructStamp(s: string, st: Stamp, noneable: bool)
    requires ParseStamp(s) == Some(st)
    ensures Valid(st.local) && ConstructData(Str(s), TDateTime, noneable) == ShiftStamp(st)
  {
    ConstructDataTime(Str(s), noneable);
    ConstructTimeText(s, st);
  }

  /** The datetime branch on such a text. */
  lemma ConstructTimeText(s: string, st: Stamp)
    requires ParseStamp(s) == Some(st)
    ensures Valid(st.local) && ConstructTime(Str(s)) == ShiftStamp(st)
  {
    assert TextOf(Str(s)) == Some(s);
  }

  /** construct_data on the datetime type takes its datetime branch. */
  lemma ConstructDataTime(v: Value, noneable: bool)
    requires !v.PyNone?
    ensures ConstructData(v, TDateTime, noneable) == ConstructTime(v)
  {
  }

  /** A text that splits into a local time and offset fields passes the
      datetime test. */
  lemma AcceptStamp(s: string, st: Stamp, noneable: bool)
    requires ParseStamp(s) == Some(st)
    ensures IsAcceptable(Str(s), TDateTime, noneable) == Ok(true)
  {
    assert TextOf(Str(s)) == Some(s);
  }

  /** The text a complex object writes for a datetime (strftime followed by
      `+0000`) reads back as the same datetime. */
  lemma StampRoundTrip(t: DateTime, noneable: bool)
    requires Valid(t) && t.year >= 1900
    ensures IsAcceptable(Str(Strftime(t).value + "+0000"), TDateTime, noneable) == Ok(true)
    ensures ConstructData(Str(Strftime(t).value + "+0000"), TDateTime, noneable) == Ok(Time(t))
  {
    assert StampText(t, '+', 0, 0) == Strftime(t).value + "+0000";
    ParseStampText(t, '+', 0, 0);
    AcceptStamp(StampText(t, '+', 0, 0), Stamp(t, 0, 0), noneable);
    ConstructStamp(StampText(t, '+', 0, 0), Stamp(t, 0, 0), noneable);
  }

  /** The elements of a list converted by `extend`: each is None or an
      instance of the item type, one for each element given, in order. */
  lemma {:induction false} ExtendItemsInstances(i: FieldType, v: Value, j: nat)
    requires !IsText(v) && IterElems(v).Some? && j <= |IterElems(v).value|
    requires ExtendItems(i, v, j).Ok?
    ensures |ExtendItems(i, v, j).value| == |IterElems(v).value| - j
    ensures forall n :: 0 <= n < |ExtendItems(i, v, j).value| ==>
              ExtendItems(i, v, j).value[n].PyNone? || IsInstance(ExtendItems(i, v, j).value[n], i)
    decreases |IterElems(v).value| - j
  {
    if j < |IterElems(v).value| {
      var x := IterElems(v).value[j];
      if !x.PyNone? && !IsInstance(x, i) {
        CreateInstance(i, x);
      }
      ExtendItemsInstances(i, v, j + 1);
    }
  }

  /** A list whose elements are all instances, or None for a Typed item
      type, is taken over as it is. */
  lemma {:induction false} ExtendItemsKept(i: FieldType, v: Value, j: nat)
    requires !IsText(v) && IterElems(v).Some? && j <= |IterElems(v).value|
    requires forall n :: j <= n < |IterElems(v).value| ==>
               IsInstance(IterElems(v).value[n], i) || (IterElems(v).value[n].PyNone? && IsTyped(i))
    ensures ExtendItems(i, v, j) == Ok(IterElems(v).value[j..])
    decreases |IterElems(v).value| - j
  {
    var xs := IterElems(v).value;
    if j < |xs| {
      ExtendItemKept(i, xs[j]);
      ExtendItemsKept(i, v, j + 1);
      assert ExtendItems(i, v, j) == Ok([xs[j]] + xs[j + 1..]);
      assert xs[j..] == [xs[j]] + xs[j + 1..];
    } else {
      assert xs[j..] == [];
    }
  }

  /** An instance, or None for a Typed item type, is kept as it is. */
  lemma ExtendItemKept(i: FieldType, x: Value)
    requires IsInstance(x, i) || (x.PyNone? && IsTyped(i))
    ensures ExtendItemAsWritten(i, x) == Ok(x)
  {
  }

  /** `List(i)(v)` succeeds with a typed list of the item type holding one
      None or instance per element. */
  lemma ListCreateLaws(i: FieldType, v: Value)
    requires ListCreate(i, v).Ok?
    ensures !IsText(v) && IterElems(v).Some?
    ensures ListCreate(i, v).value.TypedListObj? && ListCreate(i, v).value.itemType == i
    ensures |ListCreate(i, v).value.items| == |IterElems(v).value|
    ensures forall n :: 0 <= n < |ListCreate(i, v).value.items| ==>
              ListCreate(i, v).value.items[n].PyNone? || IsInstance(ListCreate(i, v).value.items[n], i)
  {
    ExtendItemsInstances(i, v, 0);
  }

  /** What `extend` as written converts, the intended test converts the
      same way. */
  lemma ExtendItemAgrees(i: FieldType, x: Value)
    requires ExtendItemAsWritten(i, x).Ok?
    ensures ExtendItem(i, x) == ExtendItemAsWritten(i, x)
  {
  }

  /** The loop as written and the intended loop agree wherever the one as
      written succeeds. */
  lemma {:induction false} ExtendItemsAgree(i: FieldType, v: Value, j: nat)
    requires !IsText(v) && IterElems(v).Some? && j <= |IterElems(v).value|
    requires ExtendItems(i, v, j).Ok?
    ensures ExtendItemsIntended(i, v, j) == ExtendItems(i, v, j)
    decreases |IterElems(v).value| - j
  {
    if j < |IterElems(v).value| {
      ExtendItemAgrees(i, IterElems(v).value[j]);
      ExtendItemsAgree(i, v, j + 1);
    }
  }

  /** Every list `List(i)(v)` builds as written, the intended conversion
      builds too, with the same elements. */
  lemma ListCreateAgrees(i: FieldType, v: Value)
    requires ListCreate(i, v).Ok?
    ensures ListCreateIntended(i, v) == ListCreate(i, v)
  {
    ExtendItemsAgree(i, v, 0);
  }

  /** A list whose elements are all None or instances is taken over as it
      is by the intended conversion. */
  lemma {:induction false} ExtendItemsIntendedKept(i: FieldType, v: Value, j: nat)
    requires !IsText(v) && IterElems(v).Some? && j <= |IterElems(v).value|
    requires forall n :: j <= n < |IterElems(v).value| ==> IterElems(v).value[n].PyNone? || IsInstance(IterElems(v).value[n], i)
    ensures ExtendItemsIntended(i, v, j) == Ok(IterElems(v).value[j..])
    decreases |IterElems(v).value| - j
  {
    var xs := IterElems(v).value;
    if j < |xs| {
      ExtendItemIntendedKept(i, xs[j]);
      ExtendItemsIntendedKept(i, v, j + 1);
      assert ExtendItemsIntended(i, v, j) == Ok([xs[j]] + xs[j + 1..]);
      assert xs[j..] == [xs[j]] + xs[j + 1..];
    } else {
      assert xs[j..] == [];
    }
  }

  /** None or an instance is kept as it is by the intended conversion. */
  lemma ExtendItemIntendedKept(i: FieldType, x: Value)
    requires x.PyNone? || IsInstance(x, i)
    ensures ExtendItem(i, x) == Ok(x)
  {
  }

  /** For a builtin item type, the intended conversion takes over exactly
      the lists TypedList.is_acceptable passes, element for element. */
  lemma ListIntendedKeepsAccepted(i: FieldType, v: Value)
    requires !IsTyped(i) && !i.TEnum? && !IsText(v)
    ensures ListAccepts(i, v) <==> ListCreateIntended(i, v).Ok?
    ensures ListAccepts(i, v) ==> ListCreateIntended(i, v) == Ok(TypedListObj(i, IterElems(v).value))
  {
    if ListAccepts(i, v) {
      var xs := IterElems(v).value;
      forall n | 0 <= n < |xs|
        ensures xs[n].PyNone? || IsInstance(xs[n], i)
      {
        BuiltinElementOk(xs[n], i);
      }
      ExtendItemsIntendedKept(i, v, 0);
      assert xs[0..] == xs;
    } else if IterElems(v).Some? {
      var xs := IterElems(v).value;
      var j :| 0 <= j < |xs| && !ElementOk(xs[j], i);
      BuiltinElementOk(xs[j], i);
      ExtendItemsIntendedRefuses(i, v, 0, j);
    }
  }

  /** For a builtin item type the element test is None or an instance. */
  lemma BuiltinElementOk(x: Value, i: FieldType)
    requires !IsTyped(i) && !i.TEnum?
    ensures ElementOk(x, i) <==> x.PyNone? || IsInstance(x, i)
  {
  }

  /** An element the intended test refuses stops the loop with an error. */
  lemma {:induction false} ExtendItemsIntendedRefuses(i: FieldType, v: Value, j: nat, bad: nat)
    requires !IsText(v) && IterElems(v).Some? && j <= bad < |IterElems(v).value|
    requires ExtendItem(i, IterElems(v).value[bad]).Err?
    ensures ExtendItemsIntended(i, v, j).Err?
    decreases bad - j
  {
    if j < bad {
      ExtendItemsIntendedRefuses(i, v, j + 1, bad);
    }
  }

  /** A list of one element passes TypedList.is_acceptable when the element
      does. */
  lemma ListAcceptsOne(i: FieldType, x: Value)
    requires ElementOk(x, i)
    ensures ListAccepts(i, List([x]))
  {
    assert IterElems(List([x])) == Some([x]);
  }

  /** A list of one element that the intended conversion turns into `y`. */
  lemma ExtendOneIntended(i: FieldType, x: Value, y: Value)
    requires ExtendItem(i, x) == Ok(y)
    ensures ListCreateIntended(i, List([x])) == Ok(TypedListObj(i, [y]))
  {
    var v := List([x]);
    assert IterElems(v) == Some([x]);
    assert ExtendItemsIntended(i, v, 1) == Ok([]);
    assert ExtendItemsIntended(i, v, 0) == Ok([y] + []);
    assert [y] + [] == [y];
  }

  /** A list of one element that `extend` as written refuses with `err`. */
  lemma ExtendOneRefused(i: FieldType, x: Value, err: Exc)
    requires ExtendItemAsWritten(i, x) == Err(err)
    ensures ListCreate(i, List([x])) == Err(err)
  {
    assert IterElems(List([x])) == Some([x]);
  }

  /** As written, `extend` refuses the name of a member, which
      TypedList.is_acceptable has just passed for a list of enum members; the
      intended conversion turns it into the member. */
  lemma ExtendAsWrittenRefusesName(e: EnumType, n: string)
    requires n in Names(e)
    ensures ListAccepts(TEnum(e), List([Str(n)]))
    ensures ListCreate(TEnum(e), List([Str(n)])) == Err(AttributeError)
    ensures ListCreateIntended(TEnum(e), List([Str(n)])) == Ok(TypedListObj(TEnum(e), [EnumMember(Member(e, n))]))
  {
    var x := Str(n);
    var y := EnumMember(Member(e, n));
    MemberByName(e, n);
    ListAcceptsOne(TEnum(e), x);
    ExtendOneRefused(TEnum(e), x, AttributeError);
    ExtendOneIntended(TEnum(e), x, y);
  }

  /** The name of a member is an attribute of the enum and converts to it. */
  lemma MemberByName(e: EnumType, n: string)
    requires n in Names(e)
    ensures HasAttrValue(e, Str(n)) == Ok(true)
    ensures Create(TEnum(e), Str(n)) == Ok(EnumMember(Member(e, n)))
  {
    ValuesAreNames(e);
    var m := FromValue(e, n);
    assert m.Ok? && m.value.name == Enums.Str(m.value);
  }

  /** As written, `extend` refuses None, which TypedList.is_acceptable has
      just passed, for a list of strings; the intended conversion keeps it. */
  lemma ExtendAsWrittenRefusesNone()
    ensures ListAccepts(TStr, List([PyNone]))
    ensures ListCreate(TStr, List([PyNone])) == Err(AttributeError)
    ensures ListCreateIntended(TStr, List([PyNone])) == Ok(TypedListObj(TStr, [PyNone]))
  {
    ListAcceptsOne(TStr, PyNone);
    ExtendOneRefused(TStr, PyNone, AttributeError);
    ExtendOneIntended(TStr, PyNone, PyNone);
  }
}
