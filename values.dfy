/** The Python 2 runtime values the REST types handle, and the `isinstance`
    relation between values and declared field types. Dicts are kept as their
    (key, value) pairs in iteration order, because several loops stop at the
    first failing entry. */
module Values {
  import opened PyBase
  import opened Enums
  import opened Timestamps
  import opened Schemas

  datatype Value =
    | PyNone
    | Bool(b: bool)
    | Int(i: int)
    | Float(f: real)
    | Str(s: string)          // a byte string (`str`)
    | Unicode(u: string)      // a `unicode` string
    | Time(t: DateTime)
    | EnumMember(m: Member)
    | List(items: seq<Value>)
    | FilterList(items: seq<Value>)   // cobjects.FilterList, a list subclass
    | Dict(entries: seq<(Value, Value)>)
    | TypedListObj(itemType: FieldType, items: seq<Value>)
    | TypedDictObj(keyType: FieldType, itemType: FieldType, entries: seq<(Value, Value)>)
    | Complex(cls: ComplexClass, data: seq<(Value, Value)>)
    | Generic(content: Value) // a GenericContainer and its `_data`
    | Object                  // any other object

  /** `isinstance(v, t)`; `bool` is a subclass of `int`. A typed container
      or complex object is compared by its type tags, which is where this
      departs from `MetaTyped.__instancecheck__` for typed containers. */
  predicate IsInstance(v: Value, t: FieldType) {
    match t
    case TBool => v.Bool?
    case TInt => v.Int? || v.Bool?
    case TFloat => v.Float?
    case TStr => v.Str?
    case TDateTime => v.Time?
    case TEnum(e) => v.EnumMember? && v.m.enum == e
    case TList(i) => v.TypedListObj? && v.itemType == i
    case TDict(k, i) => v.TypedDictObj? && v.keyType == k && v.itemType == i
    case TComplex(c) => v.Complex? && v.cls == c
    case TGeneric => v.Generic?
  }

  predicate IsText(v: Value) {
    v.Str? || v.Unicode?
  }

  /** The exception of `raise E('... {}'.format(v))`: the message is a byte
      string, so a unicode `v` with a non-ASCII character raises
      UnicodeEncodeError before `E` is built. */
  function RaisedWith(e: Exc, v: Value): (r: Exc)
    ensures v.Unicode? && !IsAscii(v.u) ==> r == UnicodeError
    ensures !(v.Unicode? && !IsAscii(v.u)) ==> r == e
  {
    if v.Unicode? && !IsAscii(v.u) then UnicodeError else e
  }

  function Text(v: Value): string
    requires IsText(v)
  {
    if v.Str? then v.s else v.u
  }

  predicate IsNumber(v: Value) {
    v.Bool? || v.Int? || v.Float?
  }

  /** The number a bool, int or float stands for. */
  function NumberOf(v: Value): real
    requires IsNumber(v)
  {
    if v.Bool? then (if v.b then 1.0 else 0.0)
    else if v.Int? then v.i as real
    else v.f
  }

  /** Python's `==` as `list.remove` and prepare_input's `!=` apply it:
      bools, ints and floats compare by value (`True == 1`), and a byte
      string equals a unicode string when it is ASCII and has the same
      characters. Other values compare as the model's values do. */
  predicate PyEq(a: Value, b: Value) {
    if IsNumber(a) && IsNumber(b) then NumberOf(a) == NumberOf(b)
    else if a.Str? && b.Unicode? then IsAscii(a.s) && a.s == b.u
    else if a.Unicode? && b.Str? then IsAscii(b.s) && a.u == b.s
    else a == b
  }

  /** The attribute name a dict key compares equal to: a byte string, or a
      unicode string that is pure ASCII. */
  function KeyName(k: Value): (r: Option<string>)
    ensures r.Some? ==> IsText(k) && r.value == Text(k)
  {
    if k.Str? then Some(k.s)
    else if k.Unicode? && IsAscii(k.u) then Some(k.u)
    else None
  }

  /** Lists and dicts are the unhashable values. */
  predicate Hashable(v: Value) {
    !(v.List? || v.FilterList? || v.Dict?)
  }

  /** Values with a working `items()`: dicts, typed dicts, complex objects and
      a GenericContainer holding a dict or a typed dict. */
  predicate HasItems(v: Value) {
    v.Dict? || v.TypedDictObj? || v.Complex? || (v.Generic? && (v.content.Dict? || v.content.TypedDictObj?))
  }

  /** `data._data.copy()` on a complex object or GenericContainer raises:
      TypeError when `_data` is a typed dict, whose `copy` passes its types
      as positional arguments, which `Typed.__init__` does not read, so it
      sets each type to None from the missing keywords and the type
      descriptor refuses None; and AttributeError when `_data` has no
      `copy` at all. */
  function CopyError(v: Value): Option<Exc>
    requires v.Complex? || v.Generic?
  {
    if v.Generic? && v.content.TypedDictObj? then Some(TypeError)
    else if !HasItems(v) then Some(AttributeError)
    else None
  }

  function EntriesOf(v: Value): seq<(Value, Value)>
    requires HasItems(v)
  {
    match v
    case Dict(es) => es
    case TypedDictObj(_, _, es) => es
    case Complex(_, es) => es
    case Generic(d) => d.entries
  }

  /** The keys of a dict, in order. */
  function Keys(es: seq<(Value, Value)>): (r: seq<Value>)
    ensures |r| == |es| && forall j :: 0 <= j < |es| ==> r[j] == es[j].0
  {
    seq(|es|, j requires 0 <= j < |es| => es[j].0)
  }

  /** The value stored under `k`, if any. */
  function DictGet(es: seq<(Value, Value)>, k: Value): Option<Value>
  {
    if |es| == 0 then None
    else if es[0].0 == k then Some(es[0].1)
    else DictGet(es[1..], k)
  }

  /** A lookup finds a key exactly when the key is present, and then finds
      the value of its first entry. */
  lemma {:induction false} DictGetFound(es: seq<(Value, Value)>, k: Value)
    ensures DictGet(es, k).Some? <==> k in Keys(es)
    ensures DictGet(es, k).Some? ==> (k, DictGet(es, k).value) in es
  {
    if |es| > 0 {
      DictGetFound(es[1..], k);
      assert Keys(es) == [es[0].0] + Keys(es[1..]);
    }
  }

  predicate UniqueKeys(es: seq<(Value, Value)>) {
    forall i, j :: 0 <= i < j < |es| ==> es[i].0 != es[j].0
  }

  /** `d[k] = v`: an existing key keeps its place and takes the new value, a
      new key goes last. */
  function DictPut(es: seq<(Value, Value)>, k: Value, v: Value): (r: seq<(Value, Value)>)
    ensures |r| == if k in Keys(es) then |es| else |es| + 1
  {
    if |es| == 0 then [(k, v)]
    else if es[0].0 == k then [(k, v)] + es[1..]
    else
      var rest := DictPut(es[1..], k, v);
      assert Keys(es) == [es[0].0] + Keys(es[1..]);
      [es[0]] + rest
  }

  /** After `d[k] = v`, looking up `k` finds `v` and every other key finds what
      it found before. */
  lemma {:induction false} DictPutGet(es: seq<(Value, Value)>, k: Value, v: Value, k': Value)
    ensures DictGet(DictPut(es, k, v), k') == if k' == k then Some(v) else DictGet(es, k')
  {
    if |es| > 0 && es[0].0 != k {
      DictPutGet(es[1..], k, v, k');
      assert DictPut(es, k, v)[1..] == DictPut(es[1..], k, v);
    }
  }

  /** The keys after `d[k] = v` are the keys before and `k`. */
  lemma DictPutKeys(es: seq<(Value, Value)>, k: Value, v: Value)
    ensures forall x :: x in Keys(DictPut(es, k, v)) <==> x in Keys(es) || x == k
    ensures forall e :: e in DictPut(es, k, v) ==> e in es || e == (k, v)
  {
    DictPutKeySet(es, k, v);
    DictPutEntries(es, k, v);
  }

  /** The keys of a dict with one more entry in front. */
  lemma KeysCons(e: (Value, Value), es: seq<(Value, Value)>)
    ensures Keys([e] + es) == [e.0] + Keys(es)
  {
  }

  lemma {:induction false} DictPutKeySet(es: seq<(Value, Value)>, k: Value, v: Value)
    ensures forall x :: x in Keys(DictPut(es, k, v)) <==> x in Keys(es) || x == k
  {
    if |es| == 0 {
      assert Keys(DictPut(es, k, v)) == [k];
    } else {
      KeysCons(es[0], es[1..]);
      assert es == [es[0]] + es[1..];
      if es[0].0 == k {
        KeysCons((k, v), es[1..]);
      } else {
        DictPutKeySet(es[1..], k, v);
        KeysCons(es[0], DictPut(es[1..], k, v));
      }
    }
  }

  lemma {:induction false} DictPutEntries(es: seq<(Value, Value)>, k: Value, v: Value)
    ensures forall e :: e in DictPut(es, k, v) ==> e in es || e == (k, v)
  {
    if |es| > 0 && es[0].0 != k {
      DictPutEntries(es[1..], k, v);
      assert DictPut(es, k, v) == [es[0]] + DictPut(es[1..], k, v);
    }
  }

  /** Assignment keeps the keys of a dict distinct. */
  lemma {:induction false} DictPutUnique(es: seq<(Value, Value)>, k: Value, v: Value)
    requires UniqueKeys(es)
    ensures UniqueKeys(DictPut(es, k, v))
  {
    if |es| > 0 && es[0].0 != k {
      DictPutUnique(es[1..], k, v);
      DictPutKeySet(es[1..], k, v);
      DictPutUniqueAt(es, k, v);
    }
  }

  /** The first entry stays apart from the keys assigned after it. */
  lemma DictPutUniqueAt(es: seq<(Value, Value)>, k: Value, v: Value)
    requires UniqueKeys(es) && |es| > 0 && es[0].0 != k
    requires UniqueKeys(DictPut(es[1..], k, v))
    requires forall x :: x in Keys(DictPut(es[1..], k, v)) <==> x in Keys(es[1..]) || x == k
    ensures UniqueKeys(DictPut(es, k, v))
  {
    var rest := DictPut(es[1..], k, v);
    forall j | 0 <= j < |rest|
      ensures rest[j].0 != es[0].0
    {
      assert rest[j].0 in Keys(rest);
      if rest[j].0 != k {
        var i :| 0 <= i < |es[1..]| && Keys(es[1..])[i] == rest[j].0;
        assert es[i + 1].0 == rest[j].0;
      }
    }
    assert DictPut(es, k, v) == [es[0]] + rest;
  }

  /** A new key is added at the end. */
  lemma {:induction false} DictPutNew(es: seq<(Value, Value)>, k: Value, v: Value)
    requires k !in Keys(es)
    ensures DictPut(es, k, v) == es + [(k, v)]
  {
    if |es| > 0 {
      KeysCons(es[0], es[1..]);
      assert es == [es[0]] + es[1..];
      DictPutNew(es[1..], k, v);
      assert [es[0]] + (es[1..] + [(k, v)]) == es + [(k, v)];
    }
  }

  /** The rank used to bound the recursion of the checking and converting
      functions: iterating a string yields strings of one character, which are
      not smaller values, so strings rank below every other value. */
  function StrRank(v: Value): nat {
    if IsText(v) then 0 else 1
  }

  function Body(v: Value): Value {
    if IsText(v) then PyNone else v
  }
}
