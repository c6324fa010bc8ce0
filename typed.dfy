/** The typed containers of typed/__init__.py: the set-once type slot
    `ImmutableType`, the `TypeCheck` guard, `Typed.__eq__` and `Typed.untype`,
    the class factory `factory`, and the in-place containers `TypedList` and
    `TypedDict`, whose mutators check the types of what they store.

    A container object is a class here; a container held inside another value
    is the immutable `TypedListObj` / `TypedDictObj` of Values, and
    `AsValue()` connects the two. A class produced by `factory` is described
    by the map from its type keys (`item_type`, `key_type`) to the fixed
    types. */
module Typed {
  import opened PyBase
  import Enums
  import opened Schemas
  import opened Values
  import opened RestTypes

  /** A Python type object given as a type argument: a declared field type,
      or the builtin `list` or `dict`. */
  datatype PyType = Declared(t: FieldType) | ListClass | DictClass

  /** An argument where a type is expected: a type, or another object, which
      may carry a `__name__` (a function or a module) or not. */
  datatype TypeArg = AType(t: PyType) | NotAType(named: bool)

  /** `ImmutableType`: a descriptor holding a class-level type or, per
      instance id, a type set once. */
  class ImmutableType {
    var value: Option<PyType>
    var types: map<nat, PyType>

    constructor (value: Option<PyType>)
      ensures this.value == value && types == map[]
    {
      this.value := value;
      types := map[];
    }

    /** `ImmutableType(value)`: no value, or a type, gives an empty slot; any
        other object is refused. Formatting the message reads the object's
        `__name__`, so an object without one raises AttributeError rather
        than the intended TypeError. */
    static method New(arg: Option<TypeArg>) returns (r: Result<ImmutableType>)
      ensures arg.Some? && arg.value.NotAType? ==>
                r == Err(if arg.value.named then TypeError else AttributeError)
      ensures arg.None? || arg.value.AType? ==>
                r.Ok? && fresh(r.value) && r.value.types == map[]
                && r.value.value == (if arg.None? then None else Some(arg.value.t))
    {
      if arg.Some? && arg.value.NotAType? {
        return Err(if arg.value.named then TypeError else AttributeError);
      }
      var slot := new ImmutableType(if arg.None? then None else Some(arg.value.t));
      return Ok(slot);
    }

    /** `__get__`: the class-level type if there is one, else the type set
        for this instance, else AttributeError. */
    function Get(inst: nat): (r: Result<PyType>)
      reads this
      ensures r.Ok? <==> value.Some? || inst in types
      ensures r.Err? ==> r.error == AttributeError
      ensures value.Some? ==> r == Ok(value.value)
      ensures value.None? && inst in types ==> r == Ok(types[inst])
    {
      if value.Some? then Ok(value.value)
      else if inst in types then Ok(types[inst])
      else Err(AttributeError)
    }

    /** `__set__`: a slot that can already be read refuses with
        AttributeError; a non-type is refused with TypeError; otherwise the
        type is stored for this instance. Whatever could be read before
        reads the same afterwards. */
    method Set(inst: nat, arg: TypeArg) returns (r: Result<()>)
      modifies this
      ensures value == old(value)
      ensures old(Get(inst)).Ok? ==> r == Err(AttributeError) && types == old(types)
      ensures old(Get(inst)).Err? && arg.NotAType? ==> r == Err(TypeError) && types == old(types)
      ensures old(Get(inst)).Err? && arg.AType? ==> r == Ok(()) && types == old(types)[inst := arg.t]
      ensures r.Ok? ==> Get(inst) == Ok(arg.t)
      ensures forall i :: old(Get(i)).Ok? ==> Get(i) == old(Get(i))
    {
      if inst in types || value.Some? {
        return Err(AttributeError);
      }
      if arg.NotAType? {
        return Err(TypeError);
      }
      types := types[inst := arg.t];
      return Ok(());
    }

    /** `__delete__`: never removes anything. */
    method Delete(inst: nat) returns (r: Exc)
      ensures r == AttributeError
    {
      if inst !in types || value.Some? {
        r := AttributeError;   // 'property not defined yet'
      } else {
        r := AttributeError;   // 'property cannot be removed'
      }
    }
  }

  /** The test `TypeCheck` applies to an argument of a list method: None is
      let through (the containers are `_noneable`), anything else must be an
      instance of the item type. */
  function TypeCheck(t: FieldType, item: Value): (r: Result<()>)
    ensures r.Ok? <==> item.PyNone? || IsInstance(item, t)
    ensures r.Err? ==> r.error == TypeError
  {
    if item.PyNone? || IsInstance(item, t) then Ok(()) else Err(TypeError)
  }

  /** A result computed from some position on, with the part before it in
      front. */
  function Prefixed<T>(p: seq<T>, r: Result<seq<T>>): Result<seq<T>>
  {
    match r
    case Ok(ys) => Ok(p + ys)
    case Err(e) => Err(e)
  }

  lemma PrefixedNothing<T>(r: Result<seq<T>>)
    ensures Prefixed([], r) == r
  {
    if r.Ok? {
      assert [] + r.value == r.value;
    }
  }

  lemma PrefixedTwice<T>(p: seq<T>, q: seq<T>, r: Result<seq<T>>)
    ensures Prefixed(p, Prefixed(q, r)) == Prefixed(p + q, r)
  {
    if r.Ok? {
      assert p + (q + r.value) == (p + q) + r.value;
    }
  }

  /** Python's index normalisation: a negative index counts from the end. */
  function Position(key: int, n: nat): int
  {
    if key < 0 then key + n else key
  }

  /** Where `list.insert(index, x)` puts `x`: a negative index counts from
      the end, and the position is clamped to the list. */
  function InsertPosition(index: int, n: nat): (p: nat)
    ensures p <= n
    ensures 0 <= index <= n ==> p == index
    ensures index < 0 <= index + n ==> p == index + n
    ensures index > n ==> p == n
    ensures index + n < 0 ==> p == 0
  {
    var w := if index < 0 then index + n else index;
    if w < 0 then 0 else if w > n then n else w
  }

  /** Some element of `s` equals `x` in Python's sense. */
  predicate Holds(s: seq<Value>, x: Value) {
    exists j :: 0 <= j < |s| && PyEq(s[j], x)
  }

  /** The first position of an element of `s` that equals `x` in Python's
      sense: the element `list.remove` drops. */
  function FirstEqual(s: seq<Value>, x: Value): (r: nat)
    requires Holds(s, x)
    ensures r < |s| && PyEq(s[r], x)
    ensures forall j :: 0 <= j < r ==> !PyEq(s[j], x)
  {
    if PyEq(s[0], x) then 0
    else
      assert Holds(s[1..], x) by {
        var j :| 0 <= j < |s| && PyEq(s[j], x);
        assert s[1..][j - 1] == s[j];
      }
      FirstEqual(s[1..], x) + 1
  }

  /** `[1].remove(True)` drops the 1, as `True == 1` in Python. */
  lemma RemoveMatchesBoolAsInt()
    ensures Holds([Int(1)], Bool(true)) && FirstEqual([Int(1)], Bool(true)) == 0
    ensures !Holds([Int(0)], Bool(true))
  {
    assert [Int(1)][0] == Int(1) && PyEq(Int(1), Bool(true));
    assert [Int(0)][0] == Int(0) && !PyEq(Int(0), Bool(true));
  }

  /** `list.reverse()`. */
  function Reversed(s: seq<Value>): (r: seq<Value>)
    ensures |r| == |s| && forall j :: 0 <= j < |s| ==> r[j] == s[|s| - 1 - j]
  {
    if |s| == 0 then [] else [s[|s| - 1]] + Reversed(s[..|s| - 1])
  }

  /** Reversing twice gives the list back. */
  lemma ReversedTwice(s: seq<Value>)
    ensures Reversed(Reversed(s)) == s
  {
  }

  /** `list *= n`: the list repeated `n` times, empty for `n <= 0`. */
  function Repeat(s: seq<Value>, n: int): (r: seq<Value>)
    ensures |r| == if n <= 0 then 0 else |s| * n
    decreases if n <= 0 then 0 else n
  {
    if n <= 0 then [] else s + Repeat(s, n - 1)
  }

  /** A repeated list holds exactly the elements of the original, when it
      is repeated at least once, and starts with the original. */
  lemma {:induction false} RepeatElements(s: seq<Value>, n: int)
    ensures forall x :: x in Repeat(s, n) <==> n > 0 && x in s
    ensures n > 0 ==> Repeat(s, n)[..|s|] == s
    decreases if n <= 0 then 0 else n
  {
    if n > 0 {
      RepeatElements(s, n - 1);
      assert Repeat(s, n) == s + Repeat(s, n - 1);
      if n == 1 {
        assert Repeat(s, n - 1) == [];
      }
    }
  }

  /** `element.untype()` inside `Typed.untype`: an enum member gives its
      value, a typed list or dict gives its untyped data, a complex object
      raises TypeError (its `untype` passes `Typed.untype` an argument too
      many), and anything without an `untype` attribute is kept. */
  function UntypeElement(x: Value): (r: Result<Value>)
    ensures x.EnumMember? ==> r == Ok(Str(x.m.name))
    ensures x.EnumMember? && Enums.IsMember(x.m) ==> r == Ok(Str(Enums.Untype(x.m)))
    ensures x.Complex? || x.Generic? ==> r == Err(TypeError)
    ensures !HasUntype(x) ==> r == Ok(x)
    decreases x, 1
  {
    match x
    case EnumMember(m) => Ok(Str(m.name))
    case TypedListObj(_, xs) => UntypeData(x)
    case TypedDictObj(_, _, es) => UntypeData(x)
    case Complex(_, _) => Err(TypeError)
    case Generic(_) => Err(TypeError)
    case _ => Ok(x)
  }

  /** Values that carry an `untype` method. */
  predicate HasUntype(x: Value) {
    x.EnumMember? || x.TypedListObj? || x.TypedDictObj? || x.Complex? || x.Generic?
  }

  /** Values from which `untype` raises: a complex object anywhere inside
      the typed lists and dicts that untype reaches. */
  predicate HoldsComplex(x: Value)
    decreases x
  {
    match x
    case Complex(_, _) => true
    case Generic(_) => true
    case TypedListObj(_, xs) => exists j :: 0 <= j < |xs| && HoldsComplex(xs[j])
    case TypedDictObj(_, _, es) => exists j :: 0 <= j < |es| && HoldsComplex(es[j].1)
    case _ => false
  }

  /** `Typed.untype` of a typed list or dict: a plain list or dict on a copy
      of the data, each element or value untyped where it can be. */
  function UntypeData(v: Value): (r: Result<Value>)
    requires v.TypedListObj? || v.TypedDictObj?
    decreases v, 0
  {
    match v
    case TypedListObj(_, xs) =>
      (match UntypeItems(v, xs) case Ok(ys) => Ok(List(ys)) case Err(e) => Err(e))
    case TypedDictObj(_, _, es) =>
      (match UntypeEntries(v, es) case Ok(ds) => Ok(Dict(ds)) case Err(e) => Err(e))
  }

  function UntypeItems(ghost v: Value, xs: seq<Value>): (r: Result<seq<Value>>)
    requires forall j :: 0 <= j < |xs| ==> xs[j] < v
    decreases v, 0, |xs|
  {
    if |xs| == 0 then Ok([])
    else
      match UntypeElement(xs[0])
      case Err(e) => Err(e)
      case Ok(y) => Prefixed([y], UntypeItems(v, xs[1..]))
  }

  function UntypeEntries(ghost v: Value, es: seq<(Value, Value)>): (r: Result<seq<(Value, Value)>>)
    requires forall j :: 0 <= j < |es| ==> es[j].1 < v
    decreases v, 0, |es|
  {
    if |es| == 0 then Ok([])
    else
      match UntypeElement(es[0].1)
      case Err(e) => Err(e)
      case Ok(y) => Prefixed([(es[0].0, y)], UntypeEntries(v, es[1..]))
  }

  /** `untype` fails, always with TypeError, exactly when it reaches a
      complex object. */
  lemma {:induction false} UntypeElementFails(x: Value)
    ensures UntypeElement(x).Err? <==> HoldsComplex(x)
    ensures UntypeElement(x).Err? ==> UntypeElement(x).error == TypeError
    decreases x, 1
  {
    match x
    case TypedListObj(_, xs) => UntypeItemsLaws(x, xs);
    case TypedDictObj(_, _, es) => UntypeEntriesLaws(x, es);
    case _ =>
  }

  /** Untyping a list fails exactly when an element holds a complex object;
      otherwise every element is untyped in place and the length is kept. */
  lemma {:induction false} UntypeItemsLaws(v: Value, xs: seq<Value>)
    requires forall j :: 0 <= j < |xs| ==> xs[j] < v
    ensures UntypeItems(v, xs).Err? <==> exists j :: 0 <= j < |xs| && HoldsComplex(xs[j])
    ensures UntypeItems(v, xs).Err? ==> UntypeItems(v, xs).error == TypeError
    ensures UntypeItems(v, xs).Ok? ==>
              |UntypeItems(v, xs).value| == |xs|
              && forall j :: 0 <= j < |xs| ==> UntypeElement(xs[j]) == Ok(UntypeItems(v, xs).value[j])
    decreases v, 0, |xs|
  {
    if |xs| > 0 {
      UntypeElementFails(xs[0]);
      UntypeItemsLaws(v, xs[1..]);
      if UntypeItems(v, xs).Ok? {
        var ys := UntypeItems(v, xs).value;
        forall j | 0 <= j < |xs|
          ensures UntypeElement(xs[j]) == Ok(ys[j])
        {
          if j > 0 {
            assert xs[j] == xs[1..][j - 1];
          }
        }
      } else if UntypeElement(xs[0]).Ok? {
        var j :| 0 <= j < |xs[1..]| && HoldsComplex(xs[1..][j]);
        assert HoldsComplex(xs[j + 1]);
      }
      if exists j :: 0 <= j < |xs| && HoldsComplex(xs[j]) {
        var j :| 0 <= j < |xs| && HoldsComplex(xs[j]);
        if j > 0 {
          assert xs[1..][j - 1] == xs[j];
        }
      }
    }
  }

  /** Untyping a dict fails exactly when a value holds a complex object;
      otherwise the keys are kept in order and every value is untyped. */
  lemma {:induction false} UntypeEntriesLaws(v: Value, es: seq<(Value, Value)>)
    requires forall j :: 0 <= j < |es| ==> es[j].1 < v
    ensures EntriesUntyped(v, es)
    decreases v, 0, |es|
  {
    if |es| > 0 {
      UntypeElementFails(es[0].1);
      UntypeEntriesLaws(v, es[1..]);
      UntypeEntriesAt(v, es);
    }
  }

  /** The first entry of a dict followed by the rest, given the laws for the
      first value and for the rest. */
  lemma UntypeEntriesAt(v: Value, es: seq<(Value, Value)>)
    requires |es| > 0 && forall j :: 0 <= j < |es| ==> es[j].1 < v
    requires UntypeElement(es[0].1).Err? <==> HoldsComplex(es[0].1)
    requires UntypeElement(es[0].1).Err? ==> UntypeElement(es[0].1).error == TypeError
    requires EntriesUntyped(v, es[1..])
    ensures EntriesUntyped(v, es)
  {
    UntypeEntriesErrAt(v, es);
    UntypeEntriesOkAt(v, es);
  }

  /** The laws of untyping a dict's entries `es`. */
  predicate EntriesUntyped(v: Value, es: seq<(Value, Value)>)
    requires forall j :: 0 <= j < |es| ==> es[j].1 < v
  {
    && (UntypeEntries(v, es).Err? <==> exists j :: 0 <= j < |es| && HoldsComplex(es[j].1))
    && (UntypeEntries(v, es).Err? ==> UntypeEntries(v, es).error == TypeError)
    && (UntypeEntries(v, es).Ok? ==>
          |UntypeEntries(v, es).value| == |es|
          && forall j :: 0 <= j < |es| ==>
               UntypeEntries(v, es).value[j].0 == es[j].0 && UntypeElement(es[j].1) == Ok(UntypeEntries(v, es).value[j].1))
  }

  lemma UntypeEntriesErrAt(v: Value, es: seq<(Value, Value)>)
    requires |es| > 0 && forall j :: 0 <= j < |es| ==> es[j].1 < v
    requires UntypeElement(es[0].1).Err? <==> HoldsComplex(es[0].1)
    requires UntypeElement(es[0].1).Err? ==> UntypeElement(es[0].1).error == TypeError
    requires EntriesUntyped(v, es[1..])
    ensures UntypeEntries(v, es).Err? <==> exists j :: 0 <= j < |es| && HoldsComplex(es[j].1)
    ensures UntypeEntries(v, es).Err? ==> UntypeEntries(v, es).error == TypeError
  {
    if UntypeEntries(v, es).Err? && UntypeElement(es[0].1).Ok? {
      var j :| 0 <= j < |es[1..]| && HoldsComplex(es[1..][j].1);
      assert HoldsComplex(es[j + 1].1);
    }
    if exists j :: 0 <= j < |es| && HoldsComplex(es[j].1) {
      var j :| 0 <= j < |es| && HoldsComplex(es[j].1);
      if j > 0 {
        assert es[1..][j - 1] == es[j];
      }
    }
  }

  lemma UntypeEntriesOkAt(v: Value, es: seq<(Value, Value)>)
    requires |es| > 0 && forall j :: 0 <= j < |es| ==> es[j].1 < v
    requires EntriesUntyped(v, es[1..])
    ensures UntypeEntries(v, es).Ok? ==>
              |UntypeEntries(v, es).value| == |es|
              && forall j :: 0 <= j < |es| ==>
                   UntypeEntries(v, es).value[j].0 == es[j].0 && UntypeElement(es[j].1) == Ok(UntypeEntries(v, es).value[j].1)
  {
    if UntypeEntries(v, es).Ok? {
      var ds := UntypeEntries(v, es).value;
      var rest := UntypeEntries(v, es[1..]).value;
      assert ds == [(es[0].0, UntypeElement(es[0].1).value)] + rest;
      forall j | 0 <= j < |es|
        ensures ds[j].0 == es[j].0 && UntypeElement(es[j].1) == Ok(ds[j].1)
      {
        if j > 0 {
          assert ds[j] == rest[j - 1] && es[j] == es[1..][j - 1];
        }
      }
    }
  }

  /** A fixed TypedList: a list whose item type was set by `factory`. */
  class TypedList {
    const itemType: FieldType
    var data: seq<Value>

    constructor (itemType: FieldType)
      ensures this.itemType == itemType && data == []
    {
      this.itemType := itemType;
      data := [];
    }

    /** The list as a value held inside other values. */
    function AsValue(): Value
      reads this
    {
      TypedListObj(itemType, data)
    }

    /** `List(t)(list_)`: an empty list, extended by `list_` unless it is
        None; it is the list `List(t)` builds from the same value. */
    static method New(itemType: FieldType, list: Value) returns (r: Result<TypedList>)
      ensures list.PyNone? ==> r.Ok? && fresh(r.value) && r.value.itemType == itemType && r.value.data == []
      ensures !list.PyNone? ==> (r.Ok? <==> ListCreate(itemType, list).Ok?)
      ensures !list.PyNone? && r.Ok? ==>
                fresh(r.value) && r.value.AsValue() == ListCreate(itemType, list).value
      ensures r.Err? ==> r.error == ListCreate(itemType, list).error
    {
      var l := new TypedList(itemType);
      if !list.PyNone? {
        var e := l.Extend(list);
        if e.Err? {
          return Err(e.error);
        }
      }
      return Ok(l);
    }

    /** `append`: None or an instance of the item type goes last; anything
        else raises TypeError and leaves the list as it was. */
    method Append(item: Value) returns (r: Result<()>)
      modifies this
      ensures r.Ok? <==> item.PyNone? || IsInstance(item, itemType)
      ensures r.Err? ==> r.error == TypeError && data == old(data)
      ensures r.Ok? ==> data == old(data) + [item]
    {
      r := TypeCheck(itemType, item);
      if r.Ok? {
        data := data + [item];
      }
    }

    /** `extend`: every element is checked, and converted where the item
        type can build it, before anything is appended; the first element
        that does not fit raises and the list is left as it was. The
        elements appended are those `List(t)` would hold. */
    method Extend(other: Value) returns (r: Result<()>)
      modifies this
      ensures r.Ok? <==> ListCreate(itemType, other).Ok?
      ensures r.Err? ==> r.error == ListCreate(itemType, other).error && data == old(data)
      ensures r.Ok? ==> data == old(data) + ListCreate(itemType, other).value.items
    {
      if IsText(other) || IterElems(other).None? {
        return Err(TypeError);
      }
      var checked := ConvertAll(itemType, other);
      if checked.Err? {
        return Err(checked.error);
      }
      var converted := checked.value;
      ExtendItemsInstances(itemType, other, 0);
      var n := 0;
      while n < |converted|
        invariant 0 <= n <= |converted|
        invariant data == old(data) + converted[..n]
      {
        var a := Append(converted[n]);
        assert converted[..n + 1] == converted[..n] + [converted[n]];
        n := n + 1;
      }
      assert converted[..n] == converted;
      return Ok(());
    }

    /** `__iadd__`: `extend`. */
    method InPlaceAdd(other: Value) returns (r: Result<()>)
      modifies this
      ensures r.Ok? <==> ListCreate(itemType, other).Ok?
      ensures r.Err? ==> data == old(data)
      ensures r.Ok? ==> data == old(data) + ListCreate(itemType, other).value.items
    {
      r := Extend(other);
    }

    /** `__setitem__`: the item is checked first, then the index, counted
        from the end when negative; only that position changes. */
    method SetItem(key: int, item: Value) returns (r: Result<()>)
      modifies this
      ensures !(item.PyNone? || IsInstance(item, itemType)) ==> r == Err(TypeError) && data == old(data)
      ensures (item.PyNone? || IsInstance(item, itemType)) && !(-|old(data)| <= key < |old(data)|) ==>
                r == Err(IndexError) && data == old(data)
      ensures r.Ok? ==> -|old(data)| <= key < |old(data)| && |data| == |old(data)|
                        && data[Position(key, |data|)] == item
                        && forall j :: 0 <= j < |data| && j != Position(key, |data|) ==> data[j] == old(data)[j]
    {
      r := TypeCheck(itemType, item);
      if r.Err? {
        return;
      }
      if !(-|data| <= key < |data|) {
        return Err(IndexError);
      }
      data := data[Position(key, |data|) := item];
    }

    /** `index(i)`: the element at `i`, counted from the end when negative. */
    function Index(i: int): (r: Result<Value>)
      reads this
      ensures r.Ok? <==> -|data| <= i < |data|
      ensures r.Err? ==> r.error == IndexError
      ensures r.Ok? ==> r.value in data
      ensures 0 <= i < |data| ==> r == Ok(data[i])
      ensures -|data| <= i < 0 ==> r == Ok(data[|data| + i])
    {
      if -|data| <= i < |data| then Ok(data[Position(i, |data|)]) else Err(IndexError)
    }

    /** `insert`: after the type check, the item goes in at the clamped
        position and everything else keeps its order. */
    method Insert(index: int, item: Value) returns (r: Result<()>)
      modifies this
      ensures r.Ok? <==> item.PyNone? || IsInstance(item, itemType)
      ensures r.Err? ==> r.error == TypeError && data == old(data)
      ensures r.Ok? ==>
                var p := InsertPosition(index, |old(data)|);
                data == old(data)[..p] + [item] + old(data)[p..]
      ensures r.Ok? ==> multiset(data) == multiset(old(data)) + multiset{item}
    {
      r := TypeCheck(itemType, item);
      if r.Ok? {
        var p := InsertPosition(index, |data|);
        assert data == data[..p] + data[p..];
        data := data[..p] + [item] + data[p..];
      }
    }

    /** `pop()`: drops the last element; IndexError on an empty list. As
        written it returns nothing, not the element removed. */
    method Pop() returns (r: Result<()>)
      modifies this
      ensures r.Ok? <==> |old(data)| > 0
      ensures r.Err? ==> r.error == IndexError && data == old(data)
      ensures r.Ok? ==> data + [old(data)[|old(data)| - 1]] == old(data)
    {
      if |data| == 0 {
        return Err(IndexError);
      }
      data := data[..|data| - 1];
      return Ok(());
    }

    /** `remove`: after the type check, the first occurrence of the item is
        removed; ValueError when there is none. */
    method Remove(item: Value) returns (r: Result<()>)
      modifies this
      ensures r.Ok? <==> (item.PyNone? || IsInstance(item, itemType)) && Holds(old(data), item)
      ensures r.Err? ==> data == old(data)
      ensures r.Err? ==> r.error == if item.PyNone? || IsInstance(item, itemType) then ValueError else TypeError
      ensures r.Ok? ==>
                var p := FirstEqual(old(data), item);
                data == old(data)[..p] + old(data)[p + 1..]
                && multiset(data) == multiset(old(data)) - multiset{old(data)[p]}
    {
      r := TypeCheck(itemType, item);
      if r.Err? {
        return;
      }
      if !Holds(data, item) {
        return Err(ValueError);
      }
      var p := FirstEqual(data, item);
      assert data == data[..p] + [data[p]] + data[p + 1..];
      data := data[..p] + data[p + 1..];
    }

    /** `count`: the type check only; as written the count is computed and
        dropped, so the call returns nothing. */
    method Count(item: Value) returns (r: Result<()>)
      ensures r.Ok? <==> item.PyNone? || IsInstance(item, itemType)
      ensures r.Err? ==> r.error == TypeError
    {
      r := TypeCheck(itemType, item);
    }

    /** `reverse`. */
    method Reverse()
      modifies this
      ensures data == Reversed(old(data))
      ensures multiset(data) == multiset(old(data))
    {
      ReversedPermutes(data);
      data := Reversed(data);
    }

    /** `__imul__`: the list repeated `n` times. */
    method InPlaceMultiply(n: int)
      modifies this
      ensures data == Repeat(old(data), n)
      ensures forall x :: x in data <==> n > 0 && x in old(data)
    {
      RepeatElements(data, n);
      data := Repeat(data, n);
    }

    /** `untype`: a plain list, computed on a copy; the list is not
        modified. */
    method Untype() returns (r: Result<Value>)
      ensures r == UntypeData(AsValue())
      ensures r.Err? <==> HoldsComplex(AsValue())
      ensures r.Ok? ==> r.value.List? && |r.value.items| == |data|
                        && forall j :: 0 <= j < |data| && !HasUntype(data[j]) ==> r.value.items[j] == data[j]
    {
      var v := AsValue();
      var ys := UntypeItemsLoop(v);
      r := if ys.Err? then Err(ys.error) else Ok(List(ys.value));
      UntypeListLaws(v);
    }
  }

  /** The loop of `untype` over a typed list's elements, on a copy. */
  method UntypeItemsLoop(v: Value) returns (r: Result<seq<Value>>)
    requires v.TypedListObj?
    ensures r == UntypeItems(v, v.items)
  {
    var data := v.items;
    var out: seq<Value> := [];
    var k := 0;
    assert data[k..] == data;
    PrefixedNothing(UntypeItems(v, data));
    while k < |data|
      invariant 0 <= k <= |data|
      invariant UntypeItems(v, data) == Prefixed(out, UntypeItems(v, data[k..]))
    {
      var y := UntypeElement(data[k]);
      UntypeItemStep(v, k, out, y);
      if y.Err? {
        return Err(y.error);
      }
      out := out + [y.value];
      k := k + 1;
    }
    assert data[k..] == [] && out + [] == out;
    return Ok(out);
  }

  /** One element of the untype loop: an element that fails ends it with
      its error, one that untypes is appended. */
  lemma UntypeItemStep(v: Value, k: nat, out: seq<Value>, y: Result<Value>)
    requires v.TypedListObj? && k < |v.items|
    requires y == UntypeElement(v.items[k])
    requires UntypeItems(v, v.items) == Prefixed(out, UntypeItems(v, v.items[k..]))
    ensures y.Err? ==> UntypeItems(v, v.items) == Err(y.error)
    ensures y.Ok? ==> UntypeItems(v, v.items) == Prefixed(out + [y.value], UntypeItems(v, v.items[k + 1..]))
  {
    var data := v.items;
    assert data[k..][0] == data[k] && data[k..][1..] == data[k + 1..];
    if y.Ok? {
      assert UntypeItems(v, data[k..]) == Prefixed([y.value], UntypeItems(v, data[k + 1..]));
      PrefixedTwice(out, [y.value], UntypeItems(v, data[k + 1..]));
    }
  }

  /** Untyping a typed list fails exactly when it holds a complex object,
      and otherwise keeps the length and every element that needs no
      untyping. */
  lemma UntypeListLaws(v: Value)
    requires v.TypedListObj?
    ensures UntypeData(v).Err? <==> HoldsComplex(v)
    ensures UntypeData(v).Ok? ==>
              && UntypeData(v).value.List? && |UntypeData(v).value.items| == |v.items|
              && forall j :: 0 <= j < |v.items| && !HasUntype(v.items[j]) ==> UntypeData(v).value.items[j] == v.items[j]
  {
    UntypeItemsLaws(v, v.items);
  }

  /** The checking loop of `extend`: each element in turn, converted where
      needed, into a fresh list; the first that does not fit raises. */
  method ConvertAll(t: FieldType, other: Value) returns (r: Result<seq<Value>>)
    requires !IsText(other) && IterElems(other).Some?
    ensures r == ExtendItems(t, other, 0)
  {
    var xs := IterElems(other).value;
    var converted: seq<Value> := [];
    var k := 0;
    PrefixedNothing(ExtendItems(t, other, 0));
    while k < |xs|
      invariant 0 <= k <= |xs|
      invariant ExtendItems(t, other, 0) == Prefixed(converted, ExtendItems(t, other, k))
    {
      var y := ExtendItemAsWritten(t, xs[k]);
      ConvertStep(t, other, k, converted, y);
      if y.Err? {
        return Err(y.error);
      }
      converted := converted + [y.value];
      k := k + 1;
    }
    ConvertDone(t, other, converted);
    return Ok(converted);
  }

  /** One element of the checking loop: an element that does not fit ends
      the conversion with its error, one that does is appended. */
  lemma ConvertStep(t: FieldType, other: Value, k: nat, converted: seq<Value>, y: Result<Value>)
    requires !IsText(other) && IterElems(other).Some? && k < |IterElems(other).value|
    requires y == ExtendItemAsWritten(t, IterElems(other).value[k])
    requires ExtendItems(t, other, 0) == Prefixed(converted, ExtendItems(t, other, k))
    ensures y.Err? ==> ExtendItems(t, other, 0) == Err(y.error)
    ensures y.Ok? ==> ExtendItems(t, other, 0) == Prefixed(converted + [y.value], ExtendItems(t, other, k + 1))
  {
    ExtendItemsStep(t, other, k);
    if y.Ok? {
      PrefixedTwice(converted, [y.value], ExtendItems(t, other, k + 1));
    }
  }

  /** Past the last element the conversion is the elements converted. */
  lemma ConvertDone(t: FieldType, other: Value, converted: seq<Value>)
    requires !IsText(other) && IterElems(other).Some?
    requires ExtendItems(t, other, 0) == Prefixed(converted, ExtendItems(t, other, |IterElems(other).value|))
    ensures ExtendItems(t, other, 0) == Ok(converted)
  {
    assert ExtendItems(t, other, |IterElems(other).value|) == Ok([]);
    assert converted + [] == converted;
  }

  /** One step of the checking loop of `extend`. */
  lemma ExtendItemsStep(t: FieldType, v: Value, k: nat)
    requires !IsText(v) && IterElems(v).Some? && k < |IterElems(v).value|
    ensures ExtendItemAsWritten(t, IterElems(v).value[k]).Err? ==>
              ExtendItems(t, v, k) == Err(ExtendItemAsWritten(t, IterElems(v).value[k]).error)
    ensures ExtendItemAsWritten(t, IterElems(v).value[k]).Ok? ==>
              ExtendItems(t, v, k) == Prefixed([ExtendItemAsWritten(t, IterElems(v).value[k]).value], ExtendItems(t, v, k + 1))
  {
  }

  /** Reversing keeps the elements with their multiplicities. */
  lemma {:induction false} ReversedPermutes(s: seq<Value>)
    ensures multiset(Reversed(s)) == multiset(s)
  {
    if |s| > 0 {
      ReversedPermutes(s[..|s| - 1]);
      assert s == s[..|s| - 1] + [s[|s| - 1]];
    }
  }

  /** The dict after `update`'s loop over `other`: entries are assigned in
      order until the first key of the wrong type, which stops the loop
      without undoing the assignments before it. */
  function Applied(k: FieldType, i: FieldType, es: seq<(Value, Value)>, other: seq<(Value, Value)>): seq<(Value, Value)>
    decreases |other|
  {
    if |other| == 0 then es
    else
      match TypedSetItem(k, i, es, other[0].0, other[0].1)
      case Err(_) => es
      case Ok(es') => Applied(k, i, es', other[1..])
  }

  /** The update loop succeeds exactly when every key has the key type, and
      then leaves the dict it computes; otherwise it raises TypeError. */
  lemma {:induction false} UpdateOutcome(k: FieldType, i: FieldType, es: seq<(Value, Value)>, other: seq<(Value, Value)>)
    ensures TypedUpdate(k, i, es, other).Ok? <==> forall j :: 0 <= j < |other| ==> IsInstance(other[j].0, k)
    ensures TypedUpdate(k, i, es, other).Ok? ==> Applied(k, i, es, other) == TypedUpdate(k, i, es, other).value
    ensures TypedUpdate(k, i, es, other).Err? ==> TypedUpdate(k, i, es, other).error == TypeError
    decreases |other|
  {
    if |other| > 0 {
      if IsInstance(other[0].0, k) {
        var es' := TypedSetItem(k, i, es, other[0].0, other[0].1).value;
        UpdateOutcome(k, i, es', other[1..]);
        if forall j :: 0 <= j < |other[1..]| ==> IsInstance(other[1..][j].0, k) {
          forall j | 0 <= j < |other|
            ensures IsInstance(other[j].0, k)
          {
            if j > 0 {
              assert other[j] == other[1..][j - 1];
            }
          }
        } else {
          var j :| 0 <= j < |other[1..]| && !IsInstance(other[1..][j].0, k);
          assert other[1..][j] == other[j + 1];
        }
      }
    }
  }

  /** `update` is not atomic: when the key at `j` is the first of the wrong
      type, the entries before it stay assigned. */
  lemma {:induction false} UpdatePartial(k: FieldType, i: FieldType, es: seq<(Value, Value)>, other: seq<(Value, Value)>, j: nat)
    requires j < |other| && !IsInstance(other[j].0, k)
    requires forall n :: 0 <= n < j ==> IsInstance(other[n].0, k)
    ensures TypedUpdate(k, i, es, other) == Err(TypeError)
    ensures TypedUpdate(k, i, es, other[..j]).Ok?
    ensures Applied(k, i, es, other) == TypedUpdate(k, i, es, other[..j]).value
    decreases j
  {
    if j > 0 {
      var es' := TypedSetItem(k, i, es, other[0].0, other[0].1).value;
      assert other[1..][j - 1] == other[j];
      forall n | 0 <= n < j - 1
        ensures IsInstance(other[1..][n].0, k)
      {
        assert other[1..][n] == other[n + 1];
      }
      UpdatePartial(k, i, es', other[1..], j - 1);
      assert other[..j][0] == other[0] && other[..j][1..] == other[1..][..j - 1];
    } else {
      assert other[..j] == [];
    }
  }

  /** Two dicts with the same entries, whatever their order: what Python's
      `==` compares. */
  predicate SameEntries(a: seq<(Value, Value)>, b: seq<(Value, Value)>) {
    (forall x :: x in Keys(a) ==> DictGet(a, x) == DictGet(b, x))
    && (forall x :: x in Keys(b) ==> DictGet(a, x) == DictGet(b, x))
  }

  /** Dicts with the same entries answer every lookup alike. */
  lemma SameLookups(a: seq<(Value, Value)>, b: seq<(Value, Value)>)
    ensures SameEntries(a, b) ==> forall x :: DictGet(a, x) == DictGet(b, x)
    ensures (forall x :: DictGet(a, x) == DictGet(b, x)) ==> SameEntries(a, b)
  {
    if SameEntries(a, b) {
      forall x
        ensures DictGet(a, x) == DictGet(b, x)
      {
        DictGetFound(a, x);
        DictGetFound(b, x);
      }
    }
  }

  /** Assigning two different keys gives the same dict in either order. */
  lemma AssignmentsCommute(es: seq<(Value, Value)>, a: Value, x: Value, b: Value, y: Value)
    requires a != b
    ensures SameEntries(DictPut(DictPut(es, a, x), b, y), DictPut(DictPut(es, b, y), a, x))
  {
    forall z
      ensures DictGet(DictPut(DictPut(es, a, x), b, y), z) == DictGet(DictPut(DictPut(es, b, y), a, x), z)
    {
      DictPutGet(DictPut(es, a, x), b, y, z);
      DictPutGet(es, a, x, z);
      DictPutGet(DictPut(es, b, y), a, x, z);
      DictPutGet(es, b, y, z);
    }
    SameLookups(DictPut(DictPut(es, a, x), b, y), DictPut(DictPut(es, b, y), a, x));
  }

  /** `d.pop(k)` on the stored dict: the entry with key `k` removed. */
  function DictRemove(es: seq<(Value, Value)>, k: Value): (r: seq<(Value, Value)>)
    ensures forall x :: DictGet(r, x) == if x == k then None else DictGet(es, x)
    ensures forall e :: e in r ==> e in es
  {
    if |es| == 0 then []
    else if es[0].0 == k then DictRemove(es[1..], k)
    else [es[0]] + DictRemove(es[1..], k)
  }

  /** `dict.fromkeys`'s assignments: every key with the same value. */
  function WithValue(keys: seq<Value>, value: Value): (r: seq<(Value, Value)>)
    ensures |r| == |keys| && forall j :: 0 <= j < |keys| ==> r[j] == (keys[j], value)
  {
    seq(|keys|, j requires 0 <= j < |keys| => (keys[j], value))
  }

  /** Objects that have an `items` attribute; calling it works only on those
      that `HasItems`. */
  predicate HasItemsAttribute(v: Value) {
    v.Dict? || v.TypedDictObj? || v.Complex? || v.Generic?
  }

  lemma DictCreateCases(k: FieldType, i: FieldType, v: Value)
    ensures v.PyNone? ==> DictCreate(k, i, v) == Ok(TypedDictObj(k, i, []))
    ensures !v.PyNone? && !HasItemsAttribute(v) && !(v.Unicode? && !IsAscii(v.u)) ==> DictCreate(k, i, v) == Err(TypeError)
    ensures v.Unicode? && !IsAscii(v.u) ==> DictCreate(k, i, v) == Err(UnicodeError)
    ensures HasItemsAttribute(v) && !HasItems(v) ==> DictCreate(k, i, v) == Err(AttributeError)
    ensures HasItems(v) && TypedUpdate(k, i, [], EntriesOf(v)).Ok? ==>
              DictCreate(k, i, v) == Ok(TypedDictObj(k, i, TypedUpdate(k, i, [], EntriesOf(v)).value))
    ensures HasItems(v) && TypedUpdate(k, i, [], EntriesOf(v)).Err? ==>
              DictCreate(k, i, v) == Err(TypedUpdate(k, i, [], EntriesOf(v)).error)
  {
    if HasItems(v) {
      assert HasItemsAttribute(v);
      var u := TypedUpdate(k, i, [], EntriesOf(v));
      assert DictCreate(k, i, v) == (match u case Err(e) => Err(e) case Ok(es) => Ok(TypedDictObj(k, i, es)));
    }
  }

  /** A fixed TypedDict: a dict whose key and item types were set by
      `factory`. Its keys are distinct. */
  class TypedDict {
    const keyType: FieldType
    const itemType: FieldType
    var data: seq<(Value, Value)>

    predicate Valid()
      reads this
    {
      UniqueKeys(data)
    }

    constructor (keyType: FieldType, itemType: FieldType)
      ensures this.keyType == keyType && this.itemType == itemType && data == [] && Valid()
    {
      this.keyType := keyType;
      this.itemType := itemType;
      data := [];
    }

    function AsValue(): Value
      reads this
    {
      TypedDictObj(keyType, itemType, data)
    }

    /** `Dict(k, v)(dict_)`: an empty dict, updated from `dict_` unless it
        is None; it is the dict `Dict(k, v)` builds from the same value. */
    static method New(keyType: FieldType, itemType: FieldType, dict: Value) returns (r: Result<TypedDict>)
      ensures dict.PyNone? ==> r.Ok? && fresh(r.value) && r.value.AsValue() == TypedDictObj(keyType, itemType, [])
      ensures DictCreate(keyType, itemType, dict) == if r.Ok? then Ok(r.value.AsValue()) else Err(r.error)
      ensures r.Ok? ==> fresh(r.value) && r.value.Valid()
    {
      var d := new TypedDict(keyType, itemType);
      if dict.PyNone? {
        return Ok(d);
      }
      DictCreateCases(keyType, itemType, dict);
      var e := d.Update(dict);
      if !HasItems(dict) {
        return Err(e.error);
      }
      ghost var u := TypedUpdate(keyType, itemType, [], EntriesOf(dict));
      UpdateOutcome(keyType, itemType, [], EntriesOf(dict));
      if e.Err? {
        assert u.Err? && u.error == TypeError;
        return Err(TypeError);
      }
      assert u.Ok? && d.data == u.value;
      return Ok(d);
    }

    /** `__setitem__`: a key of the wrong type raises TypeError; an item of
        the wrong type (other than None) is silently dropped; otherwise the
        entry is assigned. */
    method SetItem(key: Value, item: Value) returns (r: Result<()>)
      requires Valid()
      modifies this
      ensures Valid()
      ensures r.Ok? <==> IsInstance(key, keyType)
      ensures r.Err? ==> r.error == TypeError && data == old(data)
      ensures r.Ok? && (item.PyNone? || IsInstance(item, itemType)) ==> data == DictPut(old(data), key, item)
      ensures r.Ok? && !(item.PyNone? || IsInstance(item, itemType)) ==> data == old(data)
      ensures TypedSetItem(keyType, itemType, old(data), key, item) ==
                (if r.Ok? then Ok(data) else Err(TypeError))
    {
      if !IsInstance(key, keyType) {
        return Err(TypeError);
      }
      if IsInstance(item, itemType) || item.PyNone? {
        DictPutUnique(data, key, item);
        data := DictPut(data, key, item);
      }
      return Ok(());
    }

    /** `update(other)`: None changes nothing; an object without `items`
        raises TypeError (UnicodeEncodeError when it is a unicode string
        that the message cannot hold), one whose `items` fails raises
        AttributeError;
        otherwise each entry is assigned in turn, and a key of the wrong
        type raises TypeError after the entries before it were assigned. */
    method Update(other: Value) returns (r: Result<()>)
      requires Valid()
      modifies this
      ensures Valid()
      ensures other.PyNone? ==> r == Ok(()) && data == old(data)
      ensures !other.PyNone? && !HasItemsAttribute(other) ==> r == Err(RaisedWith(TypeError, other)) && data == old(data)
      ensures other.Unicode? && !IsAscii(other.u) ==> r == Err(UnicodeError)
      ensures HasItemsAttribute(other) && !HasItems(other) ==> r == Err(AttributeError) && data == old(data)
      ensures HasItems(other) ==>
                data == Applied(keyType, itemType, old(data), EntriesOf(other))
                && (r.Ok? <==> TypedUpdate(keyType, itemType, old(data), EntriesOf(other)).Ok?)
                && (r.Err? ==> r.error == TypeError)
    {
      if other.PyNone? {
        return Ok(());
      }
      if !HasItemsAttribute(other) {
        return Err(RaisedWith(TypeError, other));
      }
      if !HasItems(other) {
        return Err(AttributeError);
      }
      var es := EntriesOf(other);
      var k := 0;
      while k < |es|
        invariant 0 <= k <= |es| && Valid()
        invariant Applied(keyType, itemType, old(data), es) == Applied(keyType, itemType, data, es[k..])
        invariant TypedUpdate(keyType, itemType, old(data), es) == TypedUpdate(keyType, itemType, data, es[k..])
      {
        assert es[k..][0] == es[k] && es[k..][1..] == es[k + 1..];
        var s := SetItem(es[k].0, es[k].1);
        if s.Err? {
          return s;
        }
        k := k + 1;
      }
      return Ok(());
    }

    /** `get(key, fail_obj)`: the stored value when the key is present, else
        `fail_obj`; an unhashable key raises TypeError. */
    function Get(key: Value, failObj: Value): (r: Result<Value>)
      reads this
      ensures !Hashable(key) ==> r == Err(TypeError)
      ensures Hashable(key) && key in Keys(data) ==> r.Ok? && (key, r.value) in data
      ensures Hashable(key) && key !in Keys(data) ==> r == Ok(failObj)
    {
      DictGetFound(data, key);
      if !Hashable(key) then Err(TypeError)
      else match DictGet(data, key)
        case Some(x) => Ok(x)
        case None => Ok(failObj)
    }

    /** `has_key(key)`. */
    function HasKey(key: Value): (r: Result<bool>)
      reads this
      ensures !Hashable(key) ==> r == Err(TypeError)
      ensures Hashable(key) ==> r == Ok(key in Keys(data))
    {
      if !Hashable(key) then Err(TypeError) else Ok(key in Keys(data))
    }

    /** `pop(key[, default])`: the stored value, removed; the default when
        the key is absent, KeyError without one. */
    method Pop(key: Value, default: Option<Value>) returns (r: Result<Value>)
      requires Valid()
      modifies this
      ensures Valid()
      ensures !Hashable(key) ==> r == Err(TypeError) && data == old(data)
      ensures Hashable(key) && key in Keys(old(data)) ==>
                r.Ok? && (key, r.value) in old(data)
                && forall x :: DictGet(data, x) == if x == key then None else DictGet(old(data), x)
      ensures Hashable(key) && key !in Keys(old(data)) ==>
                data == old(data) && r == if default.Some? then Ok(default.value) else Err(KeyError)
    {
      if !Hashable(key) {
        return Err(TypeError);
      }
      DictGetFound(data, key);
      match DictGet(data, key)
      case None =>
        return if default.Some? then Ok(default.value) else Err(KeyError);
      case Some(x) =>
        RemoveUnique(data, key);
        data := DictRemove(data, key);
        return Ok(x);
    }

    /** `popitem()`: some entry, removed from the dict; KeyError when the
        dict is empty. Python picks the entry by its hash order; the model
        takes the last in iteration order. */
    method PopItem() returns (r: Result<(Value, Value)>)
      requires Valid()
      modifies this
      ensures Valid()
      ensures |old(data)| == 0 ==> r == Err(KeyError) && data == old(data)
      ensures |old(data)| > 0 ==>
                r.Ok? && r.value in old(data)
                && forall x :: DictGet(data, x) == if x == r.value.0 then None else DictGet(old(data), x)
    {
      if |data| == 0 {
        return Err(KeyError);
      }
      var e := data[|data| - 1];
      RemoveUnique(data, e.0);
      data := DictRemove(data, e.0);
      return Ok(e);
    }

    /** `clear()`. */
    method Clear()
      modifies this
      ensures data == [] && Valid()
    {
      data := [];
    }

    /** `copy()`: builds a generic TypedDict with the types as positional
        arguments. `Typed.__init__` takes types from the keywords alone
        (positionally only when there is one type), so it sets each type to
        None, and the type descriptor raises TypeError for a value that is
        not a type. */
    method Copy() returns (r: Result<TypedDict>)
      ensures r == Err(TypeError)
    {
      return Err(TypeError);
    }

    /** `fromkeys(iterable, value)`: a new dict assigned `value` under each
        key in turn; a key of the wrong type raises TypeError, and a value
        that cannot be iterated raises TypeError. */
    static method FromKeys(keyType: FieldType, itemType: FieldType, keys: Value, value: Value) returns (r: Result<TypedDict>)
      ensures r.Ok? <==> IterElems(keys).Some?
                         && forall j :: 0 <= j < |IterElems(keys).value| ==> IsInstance(IterElems(keys).value[j], keyType)
      ensures r.Err? ==> r.error == TypeError
      ensures r.Ok? ==> fresh(r.value) && r.value.Valid()
                        && TypedUpdate(keyType, itemType, [], WithValue(IterElems(keys).value, value)).Ok?
                        && r.value.AsValue() == TypedDictObj(keyType, itemType,
                             TypedUpdate(keyType, itemType, [], WithValue(IterElems(keys).value, value)).value)
    {
      if IterElems(keys).None? {
        return Err(TypeError);
      }
      var xs := IterElems(keys).value;
      var d := new TypedDict(keyType, itemType);
      var pairs := WithValue(xs, value);
      UpdateOutcome(keyType, itemType, [], pairs);
      var k := 0;
      while k < |xs|
        invariant 0 <= k <= |xs| && d.Valid() && fresh(d)
        invariant d.keyType == keyType && d.itemType == itemType
        invariant forall n :: 0 <= n < k ==> IsInstance(xs[n], keyType)
        invariant TypedUpdate(keyType, itemType, [], pairs) == TypedUpdate(keyType, itemType, d.data, pairs[k..])
      {
        assert pairs[k..][0] == (xs[k], value) && pairs[k..][1..] == pairs[k + 1..];
        var s := d.SetItem(xs[k], value);
        if s.Err? {
          return Err(TypeError);
        }
        k := k + 1;
      }
      assert pairs[k..] == [];
      return Ok(d);
    }

    /** `untype`: a plain dict with the same keys, computed on a copy; the
        dict is not modified. */
    method Untype() returns (r: Result<Value>)
      ensures r == UntypeData(AsValue())
      ensures r.Err? <==> HoldsComplex(AsValue())
      ensures r.Ok? ==> r.value.Dict? && Keys(r.value.entries) == Keys(data)
                        && forall j :: 0 <= j < |data| && !HasUntype(data[j].1) ==> r.value.entries[j].1 == data[j].1
    {
      var v := AsValue();
      var es := UntypeEntriesLoop(v);
      r := if es.Err? then Err(es.error) else Ok(Dict(es.value));
      UntypeDictLaws(v);
    }
  }

  /** The loop of `untype` over a typed dict's entries, on a copy. */
  method UntypeEntriesLoop(v: Value) returns (r: Result<seq<(Value, Value)>>)
    requires v.TypedDictObj?
    ensures r == UntypeEntries(v, v.entries)
  {
    var data := v.entries;
    var out: seq<(Value, Value)> := [];
    var k := 0;
    assert data[k..] == data;
    PrefixedNothing(UntypeEntries(v, data));
    while k < |data|
      invariant 0 <= k <= |data|
      invariant UntypeEntries(v, data) == Prefixed(out, UntypeEntries(v, data[k..]))
    {
      var y := UntypeElement(data[k].1);
      UntypeEntryStep(v, k, out, y);
      if y.Err? {
        return Err(y.error);
      }
      out := out + [(data[k].0, y.value)];
      k := k + 1;
    }
    assert data[k..] == [] && out + [] == out;
    return Ok(out);
  }

  /** One entry of the untype loop: a value that fails ends it with its
      error, one that untypes is appended with its key. */
  lemma UntypeEntryStep(v: Value, k: nat, out: seq<(Value, Value)>, y: Result<Value>)
    requires v.TypedDictObj? && k < |v.entries|
    requires y == UntypeElement(v.entries[k].1)
    requires UntypeEntries(v, v.entries) == Prefixed(out, UntypeEntries(v, v.entries[k..]))
    ensures y.Err? ==> UntypeEntries(v, v.entries) == Err(y.error)
    ensures y.Ok? ==>
              UntypeEntries(v, v.entries) == Prefixed(out + [(v.entries[k].0, y.value)], UntypeEntries(v, v.entries[k + 1..]))
  {
    var data := v.entries;
    assert data[k..][0] == data[k] && data[k..][1..] == data[k + 1..];
    if y.Ok? {
      assert UntypeEntries(v, data[k..]) == Prefixed([(data[k].0, y.value)], UntypeEntries(v, data[k + 1..]));
      PrefixedTwice(out, [(data[k].0, y.value)], UntypeEntries(v, data[k + 1..]));
    }
  }

  /** Untyping a typed dict fails exactly when it holds a complex object,
      and otherwise keeps the keys and every value that needs no untyping. */
  lemma UntypeDictLaws(v: Value)
    requires v.TypedDictObj?
    ensures UntypeData(v).Err? <==> HoldsComplex(v)
    ensures UntypeData(v).Ok? ==>
              && UntypeData(v).value.Dict? && Keys(UntypeData(v).value.entries) == Keys(v.entries)
              && forall j :: 0 <= j < |v.entries| && !HasUntype(v.entries[j].1) ==>
                   UntypeData(v).value.entries[j].1 == v.entries[j].1
  {
    UntypeEntriesLaws(v, v.entries);
    if UntypeData(v).Ok? {
      var ds := UntypeData(v).value.entries;
      assert Keys(ds) == Keys(v.entries);
    }
  }

  /** Removing a key keeps the remaining keys distinct. */
  lemma {:induction false} RemoveUnique(es: seq<(Value, Value)>, k: Value)
    requires UniqueKeys(es)
    ensures UniqueKeys(DictRemove(es, k))
  {
    if |es| > 0 {
      RemoveUnique(es[1..], k);
      var rest := DictRemove(es[1..], k);
      if es[0].0 != k {
        forall j | 0 <= j < |rest|
          ensures rest[j].0 != es[0].0
        {
          assert rest[j] in es[1..];
        }
        assert DictRemove(es, k) == [es[0]] + rest;
      }
    }
  }

  /** The two generic classes `factory` gives fixed types to. */
  datatype GenericClass = TypedListClass | TypedDictClass

  /** `cls.types_keys()`: the class's ImmutableType attributes, none of them
      fixed yet. */
  function TypeKeys(g: GenericClass): (r: seq<string>)
    ensures forall i, j :: 0 <= i < j < |r| ==> r[i] != r[j]
  {
    match g
    case TypedListClass => ["item_type"]
    case TypedDictClass => ["key_type", "item_type"]
  }

  /** The class's suitability check `_<key>_check`: TypedDict's key type must
      be hashable, which `list` and `dict` are not; TypedList's item type
      must be orderable, which every type in this model is. */
  predicate Suitable(g: GenericClass, k: string, t: PyType) {
    !(g.TypedDictClass? && k == "key_type" && (t.ListClass? || t.DictClass?))
  }

  /** Type objects with an `items` method, which raises TypeError when called
      on the class itself. */
  predicate HasItemsMethod(t: PyType) {
    t.DictClass? || (t.Declared? && (t.t.TDict? || t.t.TComplex? || t.t.TGeneric?))
  }

  /** The `mapping` argument of `factory`: absent, a single type, or a dict
      from type keys to arguments. */
  datatype MappingArg = NoMapping | TypeGiven(t: PyType) | MapGiven(m: map<string, TypeArg>)

  /** The mapping `factory` works from: the keyword arguments when none is
      given, `{key: type}` for a single type and a class with one type key.
      A single type given to a class with two keys is then asked for
      `items()`, which raises. */
  function MappingOf(g: GenericClass, mapping: MappingArg, kwargs: map<string, TypeArg>): (r: Result<map<string, TypeArg>>)
    ensures mapping.NoMapping? ==> r == Ok(kwargs)
    ensures mapping.MapGiven? ==> r == Ok(mapping.m)
    ensures mapping.TypeGiven? && g.TypedListClass? ==> r == Ok(map["item_type" := AType(mapping.t)])
    ensures r.Err? <==> mapping.TypeGiven? && g.TypedDictClass?
  {
    match mapping
    case NoMapping => Ok(kwargs)
    case TypeGiven(t) =>
      if |TypeKeys(g)| == 1 then Ok(map[TypeKeys(g)[0] := AType(t)])
      else Err(if HasItemsMethod(t) then TypeError else AttributeError)
    case MapGiven(m) => Ok(m)
  }

  /** `factory(cls, mapping, **kwargs)`, as the types it fixes: every mapped
      value must be a type, every type key must be mapped to a type that
      passes the class's check, and nothing else may be mapped; each failure
      is a TypeError. */
  function Factory(g: GenericClass, mapping: MappingArg, kwargs: map<string, TypeArg>): (r: Result<map<string, PyType>>)
  {
    match MappingOf(g, mapping, kwargs)
    case Err(e) => Err(e)
    case Ok(m) =>
      if exists k :: k in m && m[k].NotAType? then Err(TypeError)             // 'mapped types must be of type type'
      else if exists k :: k in TypeKeys(g) && k !in m then Err(TypeError)     // 'missing type mapping'
      else if exists k :: k in TypeKeys(g) && !Suitable(g, k, m[k].t) then Err(TypeError)
      else if exists k :: k in m && k !in TypeKeys(g) then Err(TypeError)     // 'type mapping too big'
      else Ok(map k | k in m :: m[k].t)
  }

  /** What `factory` fixes, when it succeeds: exactly the class's type keys,
      each to the type mapped to it. */
  lemma FactoryFixes(g: GenericClass, mapping: MappingArg, kwargs: map<string, TypeArg>)
    requires Factory(g, mapping, kwargs).Ok?
    ensures MappingOf(g, mapping, kwargs).Ok?
    ensures forall k :: k in Factory(g, mapping, kwargs).value <==> k in TypeKeys(g)
    ensures forall k :: k in Factory(g, mapping, kwargs).value ==>
              MappingOf(g, mapping, kwargs).value[k] == AType(Factory(g, mapping, kwargs).value[k])
              && Suitable(g, k, Factory(g, mapping, kwargs).value[k])
  {
  }

  /** The ways `factory` fails once the mapping holds only types. */
  lemma FactoryRefuses(g: GenericClass, mapping: MappingArg, kwargs: map<string, TypeArg>, k: string)
    requires MappingOf(g, mapping, kwargs).Ok?
    requires forall x :: x in MappingOf(g, mapping, kwargs).value ==> MappingOf(g, mapping, kwargs).value[x].AType?
    requires (k in TypeKeys(g) && k !in MappingOf(g, mapping, kwargs).value)
             || (k in TypeKeys(g) && k in MappingOf(g, mapping, kwargs).value
                 && !Suitable(g, k, MappingOf(g, mapping, kwargs).value[k].t))
             || (k in MappingOf(g, mapping, kwargs).value && k !in TypeKeys(g))
    ensures Factory(g, mapping, kwargs) == Err(TypeError)
  {
  }

  /** `factory` succeeds once every type key is mapped to a suitable type
      and nothing else is mapped. */
  lemma FactoryAccepts(g: GenericClass, mapping: MappingArg, kwargs: map<string, TypeArg>)
    requires MappingOf(g, mapping, kwargs).Ok?
    requires forall x :: x in MappingOf(g, mapping, kwargs).value ==>
               MappingOf(g, mapping, kwargs).value[x].AType? && x in TypeKeys(g)
               && Suitable(g, x, MappingOf(g, mapping, kwargs).value[x].t)
    requires forall x :: x in TypeKeys(g) ==> x in MappingOf(g, mapping, kwargs).value
    ensures Factory(g, mapping, kwargs) ==
              Ok(map x | x in MappingOf(g, mapping, kwargs).value :: MappingOf(g, mapping, kwargs).value[x].t)
  {
  }

  /** The loop of `factory` over the class's type keys: each is popped from
      the mapping and checked in turn, and whatever is left over is
      refused. */
  method PopTypes(g: GenericClass, given: map<string, TypeArg>) returns (r: Result<map<string, PyType>>)
    requires forall x :: x in given ==> given[x].AType?
    ensures r.Ok? <==> (forall x :: x in TypeKeys(g) ==> x in given && Suitable(g, x, given[x].t))
                       && (forall x :: x in given ==> x in TypeKeys(g))
    ensures r.Err? ==> r.error == TypeError
    ensures r.Ok? ==> r.value == map x | x in given :: given[x].t
  {
    var m := given;
    var keys := TypeKeys(g);
    var attribs: map<string, PyType> := map[];
    var i := 0;
    while i < |keys|
      invariant 0 <= i <= |keys|
      invariant forall x :: x in m <==> x in given && x !in keys[..i]
      invariant forall x :: x in m ==> m[x] == given[x]
      invariant forall j :: 0 <= j < i ==> keys[j] in given && Suitable(g, keys[j], given[keys[j]].t)
      invariant forall x :: x in attribs <==> x in keys[..i]
      invariant forall x :: x in attribs ==> x in given && attribs[x] == given[x].t
    {
      var k := keys[i];
      assert k !in keys[..i];
      if k !in m {
        return Err(TypeError);   // 'missing type mapping'
      }
      var v := m[k];
      m := m - {k};
      if !Suitable(g, k, v.t) {
        return Err(TypeError);
      }
      attribs := attribs[k := v.t];
      assert keys[..i + 1] == keys[..i] + [k];
      i := i + 1;
    }
    assert keys[..i] == keys;
    if |m| > 0 {
      var x :| x in m;
      assert x !in keys;
      return Err(TypeError);     // 'type mapping too big'
    }
    forall x | x in given
      ensures x in keys
    {
      assert x !in m;
    }
    assert attribs == map x | x in given :: given[x].t;
    return Ok(attribs);
  }

  /** `factory`: the mapping is settled, every value in it must be a type,
      and then the loop fixes the type keys. */
  method FactoryLoop(g: GenericClass, mapping: MappingArg, kwargs: map<string, TypeArg>) returns (r: Result<map<string, PyType>>)
    ensures r == Factory(g, mapping, kwargs)
  {
    var given := MappingOf(g, mapping, kwargs);
    if given.Err? {
      return Err(given.error);
    }
    if exists k :: k in given.value && given.value[k].NotAType? {
      return Err(TypeError);
    }
    r := PopTypes(g, given.value);
    if r.Ok? {
      FactoryAccepts(g, mapping, kwargs);
    } else if exists x :: x in TypeKeys(g) && !(x in given.value && Suitable(g, x, given.value[x].t)) {
      var x :| x in TypeKeys(g) && !(x in given.value && Suitable(g, x, given.value[x].t));
      FactoryRefuses(g, mapping, kwargs, x);
    } else {
      var x :| x in given.value && x !in TypeKeys(g);
      FactoryRefuses(g, mapping, kwargs, x);
    }
  }
}
