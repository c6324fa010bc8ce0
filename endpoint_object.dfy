/** The Endpoint object (resttypes/endpoints.py:21-68, 150-189): the
    acceptance test over the merged input, the return check, and the
    constructor that ties keyword sorting, checking, conversion and URL
    choice together. */
module EndpointObject {
  import opened PyBase
  import opened Schemas
  import opened Values
  import opened RestTypes
  import opened Endpoints
  import opened EndpointInput
  import Cobjects

  // ------------------------------------------------------------ is_acceptable

  /** `REQUIRED_PARAMS | REQUIRED_DATA`. */
  function MergedRequired(cls: EndpointClass): set<string> {
    cls.params.required + cls.data.required
  }

  /** `OPTIONAL_PARAMS | OPTIONAL_DATA`. */
  function MergedOptional(cls: EndpointClass): set<string> {
    cls.params.optional + cls.data.optional
  }

  /** PARAMS_TYPES updated with DATA_TYPES: a payload field's type wins. */
  function MergedTypes(cls: EndpointClass): (r: map<string, FieldType>)
    ensures r.Keys == cls.params.types.Keys + cls.data.types.Keys
    ensures forall k :: k in r ==> r[k] == if k in cls.data.types then cls.data.types[k] else cls.params.types[k]
  {
    cls.params.types + cls.data.types
  }

  /** One entry of the merged input passes: its name is required or
      optional, it has a type, and is_acceptable accepts its value. */
  predicate EntryAccepted(cls: EndpointClass, k: string, v: Value) {
    (k in MergedRequired(cls) || k in MergedOptional(cls))
    && k in MergedTypes(cls)
    && IsAcceptable(v, MergedTypes(cls)[k], Noneable) == Ok(true)
  }

  /** When Endpoint.is_acceptable returns True: every entry passes, and
      every required name is given unless None is allowed. */
  predicate Accepts(cls: EndpointClass, inst: map<string, Value>) {
    (forall k :: k in inst ==> EntryAccepted(cls, k, inst[k]))
    && (Noneable || MergedRequired(cls) <= inst.Keys)
  }

  /** `Endpoint.is_acceptable(inst)` (resttypes/endpoints.py:162-189), in
      set order: a name neither required nor optional, or without a type,
      raises KeyError; the first refused value returns False; an error of
      is_acceptable escapes. */
  method EndpointAcceptable(cls: EndpointClass, inst: map<string, Value>) returns (r: Result<bool>)
    ensures r == Ok(true) <==> Accepts(cls, inst)
    ensures r == Ok(false) ==>
              (exists k :: k in inst && k in MergedTypes(cls) && IsAcceptable(inst[k], MergedTypes(cls)[k], Noneable) == Ok(false))
              || (!Noneable && !(MergedRequired(cls) <= inst.Keys))
    ensures r.Err? ==>
              r.error == KeyError
              || exists k :: k in inst && k in MergedTypes(cls) && IsAcceptable(inst[k], MergedTypes(cls)[k], Noneable) == Err(r.error)
  {
    var req := MergedRequired(cls);
    var opt := MergedOptional(cls);
    var types := MergedTypes(cls);
    var left := inst.Keys;
    while left != {}
      invariant left <= inst.Keys
      invariant forall k :: k in inst && k !in left ==> EntryAccepted(cls, k, inst[k])
      invariant req == MergedRequired(cls) - (inst.Keys - left)
      invariant opt == MergedOptional(cls) - ((inst.Keys - left) - MergedRequired(cls))
      decreases |left|
    {
      var k :| k in left;
      if k in req {
        req := req - {k};
      } else {
        if k !in opt {
          assert !EntryAccepted(cls, k, inst[k]);
          return Err(KeyError);
        }
        opt := opt - {k};
      }
      if k !in types {
        assert !EntryAccepted(cls, k, inst[k]);
        return Err(KeyError);
      }
      var a := IsAcceptable(inst[k], types[k], Noneable);
      if a.Err? {
        assert !EntryAccepted(cls, k, inst[k]);
        return Err(a.error);
      }
      if !a.value {
        assert !EntryAccepted(cls, k, inst[k]);
        return Ok(false);
      }
      left := left - {k};
    }
    return Ok(req == {} || Noneable);
  }

  /** A datetime payload field never passes both tests: rat_check refuses
      anything but a datetime object, and is_acceptable cannot slice a
      datetime object, so the constructor can only be given None for it. */
  lemma DateTimeFieldRefused(cls: EndpointClass, p: map<string, Value>, d: map<string, Value>, k: string)
    requires k in d && k in cls.data.types && cls.data.types[k] == TDateTime && !d[k].PyNone?
    ensures !(MapPasses(d, cls.data, Noneable) && Accepts(cls, p + d))
  {
    if MapPasses(d, cls.data, Noneable) {
      assert MapFieldCheck(d[k], k, cls.data.types, Noneable) == Ok(true);
      FieldPassesIsAcceptable(d[k], TDateTime, Noneable);
      assert d[k].Time?;
      assert (p + d)[k] == d[k];
      assert IsAcceptable(d[k], TDateTime, Noneable) == Err(TypeError);
      assert !EntryAccepted(cls, k, (p + d)[k]);
    }
  }

  // ----------------------------------------------------------- validate_return

  /** `c_is_acceptable(return_value, RETURNS.values()[0], _noneable)`
      (resttypes/endpoints.py:150-158): an endpoint without a RETURNS entry
      raises IndexError. */
  function ValidateReturn(cls: EndpointClass, v: Value): (r: Result<bool>)
    ensures cls.returnType.None? ==> r == Err(IndexError)
    ensures cls.returnType.Some? ==> r == IsAcceptable(v, cls.returnType.value, Noneable)
  {
    if cls.returnType.None? then Err(IndexError) else IsAcceptable(v, cls.returnType.value, Noneable)
  }

  /** A None reply and a reply that already is an instance of the declared
      type pass, except a datetime object, which is_acceptable cannot
      slice. */
  lemma ValidateReturnAccepts(cls: EndpointClass, v: Value)
    requires cls.returnType.Some?
    ensures v.PyNone? ==> ValidateReturn(cls, v) == Ok(true)
    ensures IsInstance(v, cls.returnType.value) && !cls.returnType.value.TDateTime? ==> ValidateReturn(cls, v) == Ok(true)
    ensures cls.returnType.value.TDateTime? && v.Time? ==> ValidateReturn(cls, v) == Err(TypeError)
  {
    if IsInstance(v, cls.returnType.value) && !cls.returnType.value.TDateTime? {
      InstanceKept(v, cls.returnType.value, Noneable);
    }
  }

  // ---------------------------------------------------------- construct_data

  /** Every entry converts under its declared type. */
  predicate Constructs(m: map<string, Value>, types: map<string, FieldType>) {
    forall k :: k in m ==> k in types && ConstructData(m[k], types[k], Noneable).Ok?
  }

  /** The loop `self.parameters[k] = c_construct_data(v, PARAMS_TYPES[k],
      _noneable)` (resttypes/endpoints.py:60-67), in dict order: a name
      without a type raises KeyError, and the first conversion error
      escapes. */
  method ConstructAll(m: map<string, Value>, types: map<string, FieldType>) returns (r: Result<map<string, Value>>)
    ensures r.Ok? <==> Constructs(m, types)
    ensures r.Ok? ==> r.value.Keys == m.Keys
                      && forall k :: k in m ==> r.value[k] == ConstructData(m[k], types[k], Noneable).value
    ensures r.Err? ==> exists k :: k in m && (if k in types then ConstructData(m[k], types[k], Noneable) == Err(r.error)
                                              else r.error == KeyError)
  {
    var out: map<string, Value> := map[];
    var left := m.Keys;
    while left != {}
      invariant left <= m.Keys
      invariant out.Keys == m.Keys - left
      invariant forall k :: k in out ==> k in types && ConstructData(m[k], types[k], Noneable) == Ok(out[k])
      decreases |left|
    {
      var k :| k in left;
      if k !in types {
        return Err(KeyError);
      }
      var c := ConstructData(m[k], types[k], Noneable);
      if c.Err? {
        return Err(c.error);
      }
      out := out[k := c.value];
      left := left - {k};
    }
    return Ok(out);
  }

  /** What construct_data makes of each entry: None where None is given and
      allowed, otherwise an instance of the entry's type. */
  lemma ConstructedInstances(m: map<string, Value>, types: map<string, FieldType>, out: map<string, Value>)
    requires Constructs(m, types) && out.Keys == m.Keys
    requires forall k :: k in m ==> out[k] == ConstructData(m[k], types[k], Noneable).value
    ensures forall k :: k in out ==> (out[k].PyNone? && m[k].PyNone?) || IsInstance(out[k], types[k])
  {
    forall k | k in out
      ensures (out[k].PyNone? && m[k].PyNone?) || IsInstance(out[k], types[k])
    {
      ConstructDataInstance(m[k], types[k], Noneable);
    }
  }

  // -------------------------------------------------------------- the object

  /** Parameter types whose values a URL template can render: str, int,
      bool and enums. */
  predicate PlainParamTypes(s: Schema) {
    forall n :: n in s.types ==> s.types[n] == TStr || s.types[n] == TInt || s.types[n] == TBool || s.types[n].TEnum?
  }

  /** Parameters that pass rat_check against such types can be rendered
      into a URL. */
  lemma PassingParamsRender(m: map<string, Value>, s: Schema)
    requires PlainParamTypes(s) && MapPasses(m, s, Noneable)
    ensures AllRenderable(m)
  {
    forall n | n in m
      ensures Renderable(m[n])
    {
      assert MapFieldCheck(m[n], n, s.types, Noneable) == Ok(true);
    }
  }

  /** The byte-string names of a dict's entries. */
  function KeyNames(es: seq<(Value, Value)>): set<string> {
    set j | 0 <= j < |es| && es[j].0.Str? :: es[j].0.s
  }

  /** The keyword dict as a map: each byte-string key with its value. */
  function EntriesMap(es: seq<(Value, Value)>): map<string, Value> {
    map k | k in KeyNames(es) :: if DictGet(es, Str(k)).Some? then DictGet(es, Str(k)).value else PyNone
  }

  /** A dict with distinct byte-string keys and its map hold the same
      entries. */
  lemma EntriesMapEntries(es: seq<(Value, Value)>)
    requires UniqueKeys(es) && forall j :: 0 <= j < |es| ==> es[j].0.Str?
    ensures MapEntries(es, EntriesMap(es))
  {
    var m := EntriesMap(es);
    forall j | 0 <= j < |es|
      ensures es[j].0.s in m && es[j].1 == m[es[j].0.s]
    {
      var k := es[j].0;
      assert k.s in KeyNames(es);
      assert Keys(es)[j] == k;
      DictGetFound(es, k);
      var i :| 0 <= i < |es| && es[i] == (k, DictGet(es, k).value);
      assert i == j;
    }
    forall k | k in m
      ensures exists j :: 0 <= j < |es| && es[j].0 == Str(k)
    {
      var j :| 0 <= j < |es| && es[j].0.Str? && es[j].0.s == k;
      assert es[j].0 == Str(k);
    }
  }

  /** `{k.rstrip('_'): to_str(v) for k, v in kwargs.items()}`, when no value
      fails to convert. */
  function KeywordMap(kwargs: seq<(string, Value)>): map<string, Value>
    requires Cobjects.KwargsToStr(kwargs, []).Ok?
  {
    EntriesMap(Cobjects.KwargsToStr(kwargs, []).value)
  }

  /** The constructor succeeds exactly when prepare_input returns, the
      merged input is acceptable, both halves convert, and a URL is found
      for the parameters as prepare_input left them. */
  predicate Builds(cls: EndpointClass, p0: map<string, Value>, d0: map<string, Value>, kw: map<string, Value>)
    requires PlainTemplates(cls.endpoints)
  {
    var p2 := PreparedParams(cls, p0, d0, kw);
    var d1 := Data1(cls, d0, kw);
    PrepareSucceeds(cls, p0, d0, kw)
    && Accepts(cls, p2 + d1)
    && Constructs(p2, cls.params.types) && Constructs(d1, cls.data.types)
    && AllRenderable(p2)
    && Resolve(cls.endpoints, p2, |d1| > 0, AttributeLookup).Ok?
  }

  /** An endpoint call: its class, its converted parameters and payload,
      and the verb and URL chosen. */
  class Endpoint {
    const cls: EndpointClass
    var parameters: map<string, Value>
    var data: map<string, Value>
    var endpoint: (Verb, string)

    constructor (cls: EndpointClass, parameters: map<string, Value>, data: map<string, Value>, endpoint: (Verb, string))
      ensures this.cls == cls && this.parameters == parameters && this.data == data && this.endpoint == endpoint
    {
      this.cls := cls;
      this.parameters := parameters;
      this.data := data;
      this.endpoint := endpoint;
    }
  }

  /** `Endpoint.__init__(parameters, data, **kwargs)`
      (resttypes/endpoints.py:38-68): keyword names lose their trailing
      underscores and their values pass through to_str; prepare_input sorts
      them (updating the caller's dicts); the merged input must be
      acceptable, or the bare Exception is raised; both halves are
      converted; and the URL is chosen from the prepared, unconverted
      parameters. */
  method NewEndpoint(cls: EndpointClass, parameters: PyDict?, data: PyDict?, kwargs: seq<(string, Value)>)
    returns (r: Result<Endpoint>)
    requires parameters == null || data == null || parameters != data
    requires PlainTemplates(cls.endpoints) && PlainParamTypes(cls.params)
    modifies parameters, data
    ensures Cobjects.KwargsToStr(kwargs, []).Err? ==> r == Err(Cobjects.KwargsToStr(kwargs, []).error)
    ensures Cobjects.KwargsToStr(kwargs, []).Ok? ==>
              var kw := KeywordMap(kwargs);
              var p0 := if parameters == null then map[] else old(parameters.items);
              var d0 := if data == null then map[] else old(data.items);
              var p2 := PreparedParams(cls, p0, d0, kw);
              var d1 := Data1(cls, d0, kw);
              (r.Ok? <==> Builds(cls, p0, d0, kw))
              && (r.Ok? ==> fresh(r.value) && r.value.cls == cls
                            && r.value.parameters.Keys == p2.Keys
                            && (forall k :: k in p2 ==> r.value.parameters[k] == ConstructData(p2[k], cls.params.types[k], Noneable).value)
                            && r.value.data.Keys == d1.Keys
                            && (forall k :: k in d1 ==> r.value.data[k] == ConstructData(d1[k], cls.data.types[k], Noneable).value)
                            && r.value.endpoint == Resolve(cls.endpoints, p2, |d1| > 0, AttributeLookup).value)
              && (r.Err? && !PrepareSucceeds(cls, p0, d0, kw) ==> PrepareError(cls, p0, d0, kw, r.error))
              && (r.Err? && PrepareSucceeds(cls, p0, d0, kw) && !Accepts(cls, p2 + d1) ==>
                    r.error == InvalidData || r.error == KeyError
                    || exists k :: k in p2 + d1 && k in MergedTypes(cls)
                                   && IsAcceptable((p2 + d1)[k], MergedTypes(cls)[k], Noneable) == Err(r.error))
  {
    var converted := Cobjects.KwargsToStr(kwargs, []);
    if converted.Err? {
      return Err(converted.error);
    }
    var kw := EntriesMap(converted.value);
    var prepared := PrepareInput(cls, parameters, data, kw);
    if prepared.Err? {
      return Err(prepared.error);
    }
    var p := prepared.value.0.items;
    var d := prepared.value.1.items;
    PassingParamsRender(p, cls.params);
    var acceptable := EndpointAcceptable(cls, p + d);
    if acceptable.Err? {
      return Err(acceptable.error);
    }
    if !acceptable.value {
      return Err(InvalidData);
    }
    var params := ConstructAll(p, cls.params.types);
    if params.Err? {
      return Err(params.error);
    }
    var payload := ConstructAll(d, cls.data.types);
    if payload.Err? {
      return Err(payload.error);
    }
    var endpoint := GetEndpoint(cls.endpoints, p, d);
    if endpoint.Err? {
      return Err(endpoint.error);
    }
    var e := new Endpoint(cls, params.value, payload.value, endpoint.value);
    r := Ok(e);
  }
}
