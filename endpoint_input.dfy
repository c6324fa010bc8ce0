/** Building an endpoint (resttypes/endpoints.py:38-104, 150-189): the keyword
    input is sorted into URL parameters and payload data, dotted parameters
    are filled from the payload, both halves are checked with rat_check and
    against the merged schema, converted, and a URL is chosen. The caller's
    `parameters` and `data` dicts are updated in place, so they are objects
    here; their keys are byte strings. */
module EndpointInput {
  import opened PyBase
  import opened Schemas
  import opened Values
  import opened RestTypes
  import opened Endpoints
  import Cobjects

  /** A caller's dict that prepare_input updates in place. */
  class PyDict {
    var items: map<string, Value>

    constructor (items: map<string, Value>)
      ensures this.items == items
    {
      this.items := items;
    }
  }

  // ------------------------------------------------------ the dict adapter

  /** `es` holds exactly the entries of `m`, each under the byte string of
      its name, once. */
  predicate MapEntries(es: seq<(Value, Value)>, m: map<string, Value>) {
    UniqueKeys(es)
    && (forall j :: 0 <= j < |es| ==> es[j].0.Str? && es[j].0.s in m && es[j].1 == m[es[j].0.s])
    && (forall k :: k in m ==> exists j :: 0 <= j < |es| && es[j].0 == Str(k))
  }

  /** The dict object rat_check receives, its entries in some order. */
  method ToDict(m: map<string, Value>) returns (d: Value)
    ensures d.Dict? && MapEntries(d.entries, m)
  {
    var es: seq<(Value, Value)> := [];
    var left := m.Keys;
    while left != {}
      invariant left <= m.Keys
      invariant UniqueKeys(es)
      invariant forall j :: 0 <= j < |es| ==> es[j].0.Str? && es[j].0.s in m && es[j].0.s !in left && es[j].1 == m[es[j].0.s]
      invariant forall k :: k in m && k !in left ==> exists j :: 0 <= j < |es| && es[j].0 == Str(k)
      decreases |left|
    {
      var k :| k in left;
      var es' := es + [(Str(k), m[k])];
      forall k' | k' in m && k' !in left - {k}
        ensures exists j :: 0 <= j < |es'| && es'[j].0 == Str(k')
      {
        if k' == k {
          assert es'[|es|].0 == Str(k');
        } else {
          var j :| 0 <= j < |es| && es[j].0 == Str(k');
          assert es'[j].0 == Str(k');
        }
      }
      es := es';
      left := left - {k};
    }
    d := Dict(es);
  }

  /** One turn of rat_check's loop for a field of a dict given as a map. */
  function MapFieldCheck(v: Value, n: string, types: map<string, FieldType>, noneable: bool): Result<bool> {
    if v.PyNone? && noneable then Ok(true)
    else if n !in types then Err(KeyError)
    else FieldPasses(v, types[n], noneable)
  }

  /** rat_check with `fail_additional` set, on a dict given as a map: every
      required name is given, every given name is a field, and every given
      value passes its field's test. */
  predicate MapPasses(m: map<string, Value>, s: Schema, noneable: bool) {
    s.required <= m.Keys && m.Keys <= s.all
    && forall n :: n in m ==> MapFieldCheck(m[n], n, s.types, noneable) == Ok(true)
  }

  lemma LookupEntries(es: seq<(Value, Value)>, m: map<string, Value>, n: string)
    requires MapEntries(es, m)
    ensures LookupName(es, n) == if n in m then Some(m[n]) else None
  {
    var r := LookupName(es, n);
    if r.Some? {
      var j :| 0 <= j < |es| && KeyName(es[j].0) == Some(n) && es[j].1 == r.value;
      assert es[j].0 == Str(n);
    } else {
      forall j | 0 <= j < |es|
        ensures es[j].0 != Str(n)
      {
        assert KeyName(es[j].0) != Some(n);
      }
    }
  }

  lemma GivenEntries(es: seq<(Value, Value)>, m: map<string, Value>)
    requires MapEntries(es, m)
    ensures GivenNames(Dict(es)) == m.Keys
  {
    GivenEntriesCover(es, m);
    GivenEntriesInside(es, m);
  }

  lemma GivenEntriesCover(es: seq<(Value, Value)>, m: map<string, Value>)
    requires MapEntries(es, m)
    ensures m.Keys <= GivenNames(Dict(es))
  {
    var ks := GivenKeys(Dict(es));
    assert ks == Keys(es);
    forall k | k in m
      ensures k in GivenNames(Dict(es))
    {
      var j :| 0 <= j < |es| && es[j].0 == Str(k);
      assert ks[j] == Str(k);
      assert KeyName(Str(k)) == Some(k);
    }
  }

  lemma GivenEntriesInside(es: seq<(Value, Value)>, m: map<string, Value>)
    requires MapEntries(es, m)
    ensures GivenNames(Dict(es)) <= m.Keys
  {
    var ks := GivenKeys(Dict(es));
    assert ks == Keys(es);
    forall n | n in GivenNames(Dict(es))
      ensures n in m
    {
      var x :| x in ks && KeyName(x).Some? && KeyName(x).value == n;
      var j :| 0 <= j < |ks| && ks[j] == x;
      assert es[j].0 == x;
    }
  }

  lemma AdditionalEntries(es: seq<(Value, Value)>, m: map<string, Value>, all: set<string>)
    requires MapEntries(es, m)
    ensures Additional(Dict(es), all) == {} <==> m.Keys <= all
  {
    var ks := GivenKeys(Dict(es));
    assert ks == Keys(es);
    if m.Keys <= all {
      forall x | x in ks
        ensures KeyName(x).Some? && KeyName(x).value in all
      {
        var j :| 0 <= j < |ks| && ks[j] == x;
        assert es[j].0 == x;
      }
      assert Additional(Dict(es), all) == {};
    } else {
      var k :| k in m && k !in all;
      var j :| 0 <= j < |es| && es[j].0 == Str(k);
      assert ks[j] == Str(k);
      assert Str(k) in Additional(Dict(es), all);
    }
  }

  /** rat_check on the dict object holding the entries of `m` is MapPasses
      on `m`, and each of its field checks is the map's. */
  lemma RatOnMap(es: seq<(Value, Value)>, m: map<string, Value>, s: Schema, noneable: bool)
    requires MapEntries(es, m)
    ensures GivenNames(Dict(es)) == m.Keys
    ensures RatPasses(Dict(es), s.all, s.required, s.types, noneable, true) <==> MapPasses(m, s, noneable)
    ensures forall n :: n in m ==> NameCheck(Dict(es), n, s.types, noneable) == MapFieldCheck(m[n], n, s.types, noneable)
  {
    GivenEntries(es, m);
    AdditionalEntries(es, m, s.all);
    MapFieldChecks(es, m, s.types, noneable);
  }

  /** Each field check of the dict object is the map's. */
  lemma MapFieldChecks(es: seq<(Value, Value)>, m: map<string, Value>, types: map<string, FieldType>, noneable: bool)
    requires MapEntries(es, m)
    ensures forall n :: n in m ==> NameCheck(Dict(es), n, types, noneable) == MapFieldCheck(m[n], n, types, noneable)
  {
    forall n | n in m
      ensures NameCheck(Dict(es), n, types, noneable) == MapFieldCheck(m[n], n, types, noneable)
    {
      MapFieldCheckAt(es, m, n, types, noneable);
    }
  }

  /** The field check of one given name. */
  lemma MapFieldCheckAt(es: seq<(Value, Value)>, m: map<string, Value>, n: string, types: map<string, FieldType>,
                        noneable: bool)
    requires MapEntries(es, m) && n in m
    ensures NameCheck(Dict(es), n, types, noneable) == MapFieldCheck(m[n], n, types, noneable)
  {
    LookupEntries(es, m, n);
    assert HasItems(Dict(es)) && EntriesOf(Dict(es)) == es;
    assert LookupName(EntriesOf(Dict(es)), n) == Some(m[n]);
  }

  // ---------------------------------------------------------- prepare_input

  /** `{k: v for k, v in kwargs.items() if k in names}`. */
  function Pick(kwargs: map<string, Value>, names: set<string>): (r: map<string, Value>)
    ensures r.Keys == kwargs.Keys * names
    ensures forall k :: k in r ==> r[k] == kwargs[k]
  {
    map k | k in kwargs && k in names :: kwargs[k]
  }

  /** `value[key]` for a string key: a dict, a typed dict, a complex object
      or a GenericContainer holding a dict or typed dict looks the key up (KeyError when
      it is missing); every other value raises TypeError. */
  function Subscript(v: Value, key: string): (r: Result<Value>)
    ensures r.Err? ==> r.error == (if HasItems(v) then KeyError else TypeError)
  {
    if !HasItems(v) then Err(TypeError)
    else
      var x := LookupName(EntriesOf(v), key);
      if x.Some? then Ok(x.value) else Err(KeyError)
  }

  /** What one turn of the dotted-parameter loop does. */
  datatype Fill = Keep | Put(x: Value) | Raise(e: Exc)

  /** One turn of the loop over ALL_PARAMS (resttypes/endpoints.py:90-99):
      a name that does not split into exactly two parts at `.` raises
      ValueError, a missing payload key or item raises KeyError, and both
      are swallowed; a present parameter that the payload's item equals under
      Python's `==` is overwritten by that item, and one it differs from is
      kept (the ValueError raised is swallowed); an absent one takes the
      payload's item. Any other exception escapes. */
  function DottedFill(p: map<string, Value>, d: map<string, Value>, name: string): Fill {
    var parts := SplitAt(name, '.');
    if |parts| != 2 then Keep
    else if parts[0] !in d then Keep
    else
      var x := Subscript(d[parts[0]], parts[1]);
      if x.Err? then (if x.error == KeyError then Keep else Raise(x.error))
      else if name in p then (if PyEq(x.value, p[name]) then Put(x.value) else Keep)
      else Put(x.value)
  }

  /** The parameters after the loop, when no turn raises. */
  function Filled(p: map<string, Value>, d: map<string, Value>, names: set<string>): map<string, Value> {
    p + map n | n in names && DottedFill(p, d, n).Put? :: DottedFill(p, d, n).x
  }

  predicate FillRaises(p: map<string, Value>, d: map<string, Value>, names: set<string>) {
    exists n :: n in names && DottedFill(p, d, n).Raise?
  }

  /** The parameters and the data after the two updates. */
  function Params1(cls: EndpointClass, p0: map<string, Value>, kwargs: map<string, Value>): map<string, Value> {
    p0 + Pick(kwargs, cls.params.all)
  }

  function Data1(cls: EndpointClass, d0: map<string, Value>, kwargs: map<string, Value>): map<string, Value> {
    d0 + Pick(kwargs, cls.data.all)
  }

  /** The parameters prepare_input returns. */
  function PreparedParams(cls: EndpointClass, p0: map<string, Value>, d0: map<string, Value>,
                          kwargs: map<string, Value>): map<string, Value>
  {
    Filled(Params1(cls, p0, kwargs), Data1(cls, d0, kwargs), cls.params.all)
  }

  /** prepare_input returns, rather than raising, exactly when no dotted
      parameter raises and both halves pass rat_check. */
  predicate PrepareSucceeds(cls: EndpointClass, p0: map<string, Value>, d0: map<string, Value>,
                            kwargs: map<string, Value>)
  {
    !FillRaises(Params1(cls, p0, kwargs), Data1(cls, d0, kwargs), cls.params.all)
    && MapPasses(PreparedParams(cls, p0, d0, kwargs), cls.params, Noneable)
    && MapPasses(Data1(cls, d0, kwargs), cls.data, Noneable)
  }

  /** The error a failed prepare_input can raise: one a dotted parameter
      raises, rat_check's TypeError, or one a field check raises. */
  predicate PrepareError(cls: EndpointClass, p0: map<string, Value>, d0: map<string, Value>,
                         kwargs: map<string, Value>, e: Exc)
  {
    var p1 := Params1(cls, p0, kwargs);
    var d1 := Data1(cls, d0, kwargs);
    var p2 := PreparedParams(cls, p0, d0, kwargs);
    e == TypeError
    || (exists n :: n in cls.params.all && DottedFill(p1, d1, n) == Raise(e))
    || (exists n :: n in p2 && MapFieldCheck(p2[n], n, cls.params.types, Noneable) == Err(e))
    || (exists n :: n in d1 && MapFieldCheck(d1[n], n, cls.data.types, Noneable) == Err(e))
  }

  /** The loop over ALL_PARAMS (resttypes/endpoints.py:90-99), in set
      order: it stops at the first turn that raises, having filled the turns
      before it. */
  method FillDotted(p: PyDict, d: map<string, Value>, names: set<string>) returns (raised: Option<Exc>)
    modifies p
    ensures raised.None? <==> !FillRaises(old(p.items), d, names)
    ensures raised.None? ==> p.items == Filled(old(p.items), d, names)
    ensures raised.Some? ==> exists n :: n in names && DottedFill(old(p.items), d, n) == Raise(raised.value)
    ensures exists done :: done <= names && p.items == Filled(old(p.items), d, done)
  {
    ghost var p1 := p.items;
    var left := names;
    FilledNothing(p1, d, names - left);
    while left != {}
      invariant left <= names
      invariant p.items == Filled(p1, d, names - left)
      invariant forall n :: n in names && n !in left ==> !DottedFill(p1, d, n).Raise?
      decreases |left|
    {
      var name :| name in left;
      var fill := DottedFill(p.items, d, name);
      FilledOutside(p1, d, names - left, name);
      DottedFillSame(p.items, p1, d, name);
      if fill.Raise? {
        assert names - left <= names;
        return Some(fill.e);
      }
      FilledStep(p1, d, names - left, name);
      assert names - (left - {name}) == (names - left) + {name};
      if fill.Put? {
        p.items := p.items[name := fill.x];
      }
      left := left - {name};
    }
    assert names - left == names;
    return None;
  }

  /** A name the loop has not reached yet still has its first value. */
  lemma FilledOutside(p: map<string, Value>, d: map<string, Value>, done: set<string>, name: string)
    requires name !in done
    ensures (name in Filled(p, d, done) <==> name in p)
    ensures name in p ==> Filled(p, d, done)[name] == p[name]
  {
  }

  /** Before the first turn nothing is filled. */
  lemma FilledNothing(p: map<string, Value>, d: map<string, Value>, done: set<string>)
    requires done == {}
    ensures Filled(p, d, done) == p
  {
  }

  /** A turn reads only its own parameter. */
  lemma DottedFillSame(p: map<string, Value>, q: map<string, Value>, d: map<string, Value>, name: string)
    requires (name in p <==> name in q) && (name in p ==> p[name] == q[name])
    ensures DottedFill(p, d, name) == DottedFill(q, d, name)
  {
  }

  /** One more turn of the loop over ALL_PARAMS. */
  lemma FilledStep(p: map<string, Value>, d: map<string, Value>, done: set<string>, name: string)
    requires name !in done && !DottedFill(p, d, name).Raise?
    ensures Filled(p, d, done + {name})
            == if DottedFill(p, d, name).Put? then Filled(p, d, done)[name := DottedFill(p, d, name).x]
               else Filled(p, d, done)
  {
  }

  /** However far the loop has got, every parameter the caller gave is
      still there, holding a value Python's `==` finds equal to the one
      given; a name the caller did not give is one the loop filled. */
  lemma FilledAgrees(p: map<string, Value>, d: map<string, Value>, done: set<string>)
    ensures forall k :: k in p ==> k in Filled(p, d, done) && PyEq(Filled(p, d, done)[k], p[k])
    ensures forall k :: k in Filled(p, d, done) && k !in p ==> k in done && DottedFill(p, d, k).Put?
  {
  }

  /** The two rat_check calls ending prepare_input
      (resttypes/endpoints.py:101-104), parameters first. */
  method CheckHalves(cls: EndpointClass, p: map<string, Value>, d: map<string, Value>) returns (r: Result<bool>)
    ensures r.Ok? <==> MapPasses(p, cls.params, Noneable) && MapPasses(d, cls.data, Noneable)
    ensures r.Ok? ==> r.value
    ensures r.Err? ==> r.error == TypeError
                       || (exists n :: n in p && MapFieldCheck(p[n], n, cls.params.types, Noneable) == Err(r.error))
                       || (exists n :: n in d && MapFieldCheck(d[n], n, cls.data.types, Noneable) == Err(r.error))
  {
    var pd := ToDict(p);
    RatOnMap(pd.entries, p, cls.params, Noneable);
    r := RatCheck(pd, cls.params.all, cls.params.required, cls.params.types, Noneable, true);
    if r.Err? {
      return;
    }
    var dd := ToDict(d);
    RatOnMap(dd.entries, d, cls.data, Noneable);
    r := RatCheck(dd, cls.data.all, cls.data.required, cls.data.types, Noneable, true);
  }

  /** `prepare_input(parameters, data, **kwargs)`
      (resttypes/endpoints.py:72-104). A None dict is replaced by a new one;
      a given dict is the one updated and returned. */
  method PrepareInput(cls: EndpointClass, parameters: PyDict?, data: PyDict?, kwargs: map<string, Value>)
    returns (r: Result<(PyDict, PyDict)>)
    requires parameters == null || data == null || parameters != data
    modifies parameters, data
    ensures var p0 := if parameters == null then map[] else old(parameters.items);
            var d0 := if data == null then map[] else old(data.items);
            (r.Ok? <==> PrepareSucceeds(cls, p0, d0, kwargs))
            && (r.Ok? ==> r.value.0.items == PreparedParams(cls, p0, d0, kwargs)
                          && r.value.1.items == Data1(cls, d0, kwargs)
                          && r.value.0 != r.value.1
                          && (if parameters == null then fresh(r.value.0) else r.value.0 == parameters)
                          && (if data == null then fresh(r.value.1) else r.value.1 == data))
            && (r.Err? ==> PrepareError(cls, p0, d0, kwargs, r.error))
            && (parameters != null ==> exists done :: done <= cls.params.all
                                         && parameters.items == Filled(Params1(cls, p0, kwargs), Data1(cls, d0, kwargs), done))
            && (data != null ==> data.items == Data1(cls, d0, kwargs))
  {
    var p := parameters;
    if p == null {
      p := new PyDict(map[]);
    }
    var d := data;
    if d == null {
      d := new PyDict(map[]);
    }
    p.items := p.items + Pick(kwargs, cls.params.all);
    d.items := d.items + Pick(kwargs, cls.data.all);
    var raised := FillDotted(p, d.items, cls.params.all);
    if raised.Some? {
      return Err(raised.value);
    }
    var checked := CheckHalves(cls, p.items, d.items);
    if checked.Err? {
      return Err(checked.error);
    }
    return Ok((p, d));
  }

  // ------------------------------------------------- prepare_input: the laws

  /** A keyword naming a parameter ends up among the parameters, one naming
      a payload field among the data, each with the keyword's value (a
      dotted parameter may hold instead the payload's item that equals it
      under Python's `==`); a keyword naming neither is dropped, so only
      what the caller's dicts already held stays under such a name. */
  lemma PrepareKeywords(cls: EndpointClass, p0: map<string, Value>, d0: map<string, Value>,
                        kwargs: map<string, Value>, k: string)
    ensures k in kwargs && k in cls.params.all ==>
              k in PreparedParams(cls, p0, d0, kwargs) && PyEq(PreparedParams(cls, p0, d0, kwargs)[k], kwargs[k])
    ensures k in kwargs && k in cls.params.all && '.' !in k ==> PreparedParams(cls, p0, d0, kwargs)[k] == kwargs[k]
    ensures k in kwargs && k in cls.data.all ==>
              k in Data1(cls, d0, kwargs) && Data1(cls, d0, kwargs)[k] == kwargs[k]
    ensures k !in cls.params.all ==>
              (k in PreparedParams(cls, p0, d0, kwargs) <==> k in p0)
              && (k in p0 ==> PreparedParams(cls, p0, d0, kwargs)[k] == p0[k])
    ensures k !in cls.data.all ==> (k in Data1(cls, d0, kwargs) <==> k in d0)
  {
    var p1 := Params1(cls, p0, kwargs);
    var d1 := Data1(cls, d0, kwargs);
    if k in kwargs && k in cls.params.all {
      FilledAgrees(p1, d1, cls.params.all);
      if '.' !in k {
        SplitAtAbsent(k, '.');
        assert !DottedFill(p1, d1, k).Put?;
      }
    }
  }

  /** The dotted parameter `obj.field`: one given explicitly is replaced by
      the payload's item `data[obj][field]` when Python's `==` finds the two
      equal, and kept otherwise, even when the payload disagrees; an absent
      one takes the payload's item, and stays absent when the payload has no
      such item; a payload value that cannot be subscripted makes
      prepare_input raise TypeError. */
  lemma PrepareDotted(cls: EndpointClass, p0: map<string, Value>, d0: map<string, Value>,
                      kwargs: map<string, Value>, obj: string, field: string)
    requires '.' !in obj && '.' !in field && obj + ['.'] + field in cls.params.all
    ensures var name := obj + ['.'] + field;
            var p1 := Params1(cls, p0, kwargs);
            var d1 := Data1(cls, d0, kwargs);
            var p2 := PreparedParams(cls, p0, d0, kwargs);
            (name in p1 && obj in d1 && Subscript(d1[obj], field).Ok? && PyEq(Subscript(d1[obj], field).value, p1[name]) ==>
                  name in p2 && p2[name] == Subscript(d1[obj], field).value)
            && (name in p1 && !(obj in d1 && Subscript(d1[obj], field).Ok? && PyEq(Subscript(d1[obj], field).value, p1[name])) ==>
                  name in p2 && p2[name] == p1[name])
            && (name !in p1 && obj in d1 && Subscript(d1[obj], field).Ok? ==>
                  name in p2 && p2[name] == Subscript(d1[obj], field).value)
            && (name !in p1 && (obj !in d1 || Subscript(d1[obj], field) == Err(KeyError)) ==> name !in p2)
            && (obj in d1 && !HasItems(d1[obj]) ==> FillRaises(p1, d1, cls.params.all))
  {
    var name := obj + ['.'] + field;
    SplitAtFirst(obj, field, '.');
    SplitAtAbsent(field, '.');
    assert SplitAt(name, '.') == [obj, field];
  }

  /** A dotted parameter given as an ASCII byte string, whose payload item
      is the same text as unicode: `u'x' != 'x'` is False, so the loop
      stores the unicode item in its place. */
  lemma DottedTakesEqualItem(obj: string, field: string, s: string)
    requires '.' !in obj && '.' !in field && IsAscii(s)
    ensures var name := obj + ['.'] + field;
            var p := map[name := Str(s)];
            var d := map[obj := Dict([(Str(field), Unicode(s))])];
            Filled(p, d, {name}) == map[name := Unicode(s)]
  {
    var name := obj + ['.'] + field;
    var p := map[name := Str(s)];
    var d := map[obj := Dict([(Str(field), Unicode(s))])];
    SplitAtFirst(obj, field, '.');
    SplitAtAbsent(field, '.');
    assert SplitAt(name, '.') == [obj, field];
    assert LookupName([(Str(field), Unicode(s))], field) == Some(Unicode(s));
    assert DottedFill(p, d, name) == Put(Unicode(s));
    FilledStep(p, d, {}, name);
    FilledNothing(p, d, {});
    assert {} + {name} == {name};
  }

  /** UpdateUser's `userDetails.resourceUUID` is declared str, so the
      unicode item the loop stores there fails rat_check, where the byte
      string the caller gave would have passed. */
  lemma UpdateUserRefusesUnicode(s: string)
    ensures !MapPasses(map["userDetails.resourceUUID" := Unicode(s)], UpdateUserParams, Noneable)
    ensures MapPasses(map["userDetails.resourceUUID" := Str(s)], UpdateUserParams, Noneable)
  {
    var name := "userDetails.resourceUUID";
    assert MapFieldCheck(Unicode(s), name, UpdateUserParams.types, Noneable) == Ok(false);
    assert MapFieldCheck(Str(s), name, UpdateUserParams.types, Noneable) == Ok(true);
    assert map[name := Str(s)].Keys == UpdateUserParams.all;
  }

  /** A parameter name without a dot is never filled from the payload. */
  lemma PrepareUndotted(p: map<string, Value>, d: map<string, Value>, names: set<string>, name: string)
    requires '.' !in name && name in names
    ensures !FillRaises(p, d, {name})
    ensures name in Filled(p, d, names) <==> name in p
  {
    SplitAtAbsent(name, '.');
  }
}
