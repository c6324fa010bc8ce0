/** Endpoint resolution (resttypes/endpoints.py): an endpoint class declares
    its URL templates with their HTTP verbs, the schemas of its URL parameters
    and of its payload, and the type of what it returns. Building an endpoint
    sorts keyword input into parameters and payload, checks both, converts
    them and picks one URL template. Keyword dicts are maps from names to
    values here. */
module Endpoints {
  import opened PyBase
  import Enums
  import opened Schemas
  import opened Values
  import opened RestTypes
  import Cobjects

  /** `Verbs = Enum('Verbs', 'GET POST PUT DELETE')`. */
  datatype Verb = GET | POST | PUT | DELETE

  /** The class attributes of an Endpoint subclass: ENDPOINTS, the four
      parameter tables, the four data tables and RETURNS (None when RETURNS
      is empty). */
  datatype EndpointClass = EndpointClass(
    endpoints: seq<(Verb, string)>,
    params: Schema,
    data: Schema,
    returnType: Option<FieldType>)

  // ------------------------------------------------------------- formatting

  /** The text of a replacement field that `Format` reads: a name with
      optional `.attr` parts, and no conversion (`!`), format spec (`:`),
      index (`[`) or nested brace. */
  predicate FieldNameText(f: string) {
    forall i :: 0 <= i < |f| ==> f[i] != '!' && f[i] != ':' && f[i] != '[' && f[i] != '{'
  }

  /** Every replacement field of the template, as `Format` scans it, holds
      field-name text; the literal text around the fields is unrestricted. */
  predicate PlainTemplate(t: string) {
    PlainAt(t, 0, false)
  }

  /** The scan behind PlainTemplate, from position `i` on: `inField` holds
      between a field's `{` and its closing `}`. */
  predicate PlainAt(t: string, i: nat, inField: bool)
    decreases |t| - i
  {
    if i >= |t| then true
    else if inField then
      if t[i] == '}' then PlainAt(t, i + 1, false)
      else t[i] != '!' && t[i] != ':' && t[i] != '[' && t[i] != '{' && PlainAt(t, i + 1, true)
    else if t[i] == '{' && i + 1 < |t| && t[i + 1] == '{' then PlainAt(t, i + 2, false)
    else if t[i] == '{' then PlainAt(t, i + 1, true)
    else if t[i] == '}' && i + 1 < |t| && t[i + 1] == '}' then PlainAt(t, i + 2, false)
    else if t[i] == '}' then true
    else PlainAt(t, i + 1, false)
  }

  /** The same scan on the text that remains, the form the lemmas below
      reason with. */
  predicate PlainFrom(t: string, inField: bool)
    decreases |t|
  {
    if |t| == 0 then true
    else if inField then
      if t[0] == '}' then PlainFrom(t[1..], false)
      else t[0] != '!' && t[0] != ':' && t[0] != '[' && t[0] != '{' && PlainFrom(t[1..], true)
    else if t[0] == '{' && |t| > 1 && t[1] == '{' then PlainFrom(t[2..], false)
    else if t[0] == '{' then PlainFrom(t[1..], true)
    else if t[0] == '}' && |t| > 1 && t[1] == '}' then PlainFrom(t[2..], false)
    else if t[0] == '}' then true
    else PlainFrom(t[1..], false)
  }

  /** The scan from a position is the scan of the text from there. */
  lemma {:induction false} AtFrom(t: string, i: nat, inField: bool)
    requires i <= |t|
    ensures PlainAt(t, i, inField) == PlainFrom(t[i..], inField)
    decreases |t| - i
  {
    if i < |t| {
      var s := t[i..];
      assert s[0] == t[i] && s[1..] == t[i + 1..];
      AtFrom(t, i + 1, false);
      AtFrom(t, i + 1, true);
      if i + 1 < |t| {
        assert s[1] == t[i + 1] && s[2..] == t[i + 2..];
        AtFrom(t, i + 2, false);
      }
    }
  }

  lemma TemplateFrom(t: string)
    ensures PlainTemplate(t) == PlainFrom(t, false)
  {
    AtFrom(t, 0, false);
    assert t[0..] == t;
  }

  /** Past an escaped brace or a literal character, the template stays
      plain exactly when what follows is. */
  lemma TemplateStep(t: string)
    requires |t| > 0
    ensures |t| > 1 && t[1] == t[0] && (t[0] == '{' || t[0] == '}') ==> PlainTemplate(t) == PlainTemplate(t[2..])
    ensures t[0] != '{' && t[0] != '}' ==> PlainTemplate(t) == PlainTemplate(t[1..])
  {
    TemplateFrom(t);
    TemplateFrom(t[1..]);
    if |t| > 1 {
      TemplateFrom(t[2..]);
    }
  }

  /** The first `}` of a text that does not start with one is one place
      further than the first `}` of its tail. */
  lemma FindAfterFirst(t: string)
    requires |t| > 0 && t[0] != '}'
    ensures Find(t, "}").Some? <==> Find(t[1..], "}").Some?
    ensures Find(t, "}").Some? ==> Find(t, "}").value == Find(t[1..], "}").value + 1
  {
    forall j | 0 <= j
      ensures OccursAt(t, "}", j + 1) == OccursAt(t[1..], "}", j)
    {
      if j + 2 <= |t| {
        assert t[j + 1..j + 2] == t[1..][j..j + 1];
      }
    }
    FirstDiffers(t, "}", 0);
    var a := Find(t, "}");
    var b := Find(t[1..], "}");
    if a.Some? {
      assert OccursAt(t[1..], "}", a.value - 1);
      assert b.Some? && b.value <= a.value - 1;
      assert OccursAt(t, "}", b.value + 1);
    }
    if b.Some? {
      assert OccursAt(t, "}", b.value + 1);
    }
  }

  /** Inside a field, the scan reads up to the first `}`: the text before it
      is field-name text, and the scan goes on after it. */
  lemma {:induction false} ScanField(s: string)
    requires PlainFrom(s, true)
    ensures var k := Find(s, "}");
            k.Some? ==> FieldNameText(s[..k.value]) && PlainFrom(s[k.value + 1..], false)
    decreases |s|
  {
    var k := Find(s, "}");
    if k.Some? {
      if s[0] == '}' {
        assert OccursAt(s, "}", 0) by { assert s[0..1] == "}"; }
        assert k.value == 0;
      } else {
        FindAfterFirst(s);
        ScanField(s[1..]);
        var k1 := Find(s[1..], "}").value;
        assert s[..k.value] == [s[0]] + s[1..][..k1];
        assert s[k.value + 1..] == s[1..][k1 + 1..];
      }
    }
  }

  /** A field, read by `Format` from its `{` to the next `}`, leaves a plain
      template behind it. */
  lemma FieldRest(t: string)
    requires PlainTemplate(t) && |t| > 0 && t[0] == '{' && !(|t| > 1 && t[1] == '{')
    ensures var j := Find(t, "}");
            j.Some? ==> 0 < j.value < |t| && FieldNameText(t[1..j.value]) && PlainTemplate(t[j.value + 1..])
  {
    var j := Find(t, "}");
    if j.Some? {
      assert t[j.value..j.value + 1] == "}";
      assert j.value > 0 by { assert t[j.value] == '}'; }
      TemplateFrom(t);
      FindAfterFirst(t);
      ScanField(t[1..]);
      var k := Find(t[1..], "}").value;
      assert t[1..j.value] == t[1..][..k];
      assert t[j.value + 1..] == t[1..][k + 1..];
      TemplateFrom(t[j.value + 1..]);
    }
  }

  /** The values whose text `format` produces here: None, booleans, integers,
      strings and enum members. */
  predicate Renderable(v: Value) {
    v.PyNone? || v.Bool? || v.Int? || v.Str? || v.Unicode? || v.EnumMember?
  }

  predicate AllRenderable(params: map<string, Value>) {
    forall n :: n in params ==> Renderable(params[n])
  }

  /** `format(v, '')` inside a byte-string template: the value's `str()`; a
      unicode value is encoded to ASCII. */
  function Render(v: Value): (r: Result<string>)
    requires Renderable(v)
    ensures r.Err? <==> v.Unicode? && !IsAscii(v.u)
    ensures r.Err? ==> r.error == UnicodeError
    ensures v.Str? ==> r == Ok(v.s)
    ensures v.EnumMember? ==> r == Ok(v.m.name)
    ensures v.EnumMember? && Enums.IsMember(v.m) ==> r == Ok(Enums.Str(v.m))
  {
    match v
    case PyNone => Ok("None")
    case Bool(b) => Ok(if b then "True" else "False")
    case Int(i) => Ok(IntToStr(i))
    case Str(s) => Ok(s)
    case Unicode(u) => if IsAscii(u) then Ok(u) else Err(UnicodeError)
    case EnumMember(m) => Ok(m.name)
  }

  /** `s.split(c)`: the pieces between the occurrences of `c`. */
  function SplitAt(s: string, c: char): (r: seq<string>)
    ensures |r| >= 1
    decreases |s|
  {
    if |s| == 0 then [""]
    else
      var rest := SplitAt(s[1..], c);
      if s[0] == c then [""] + rest else [[s[0]] + rest[0]] + rest[1..]
  }

  /** There is one more piece than there are separators. */
  lemma {:induction false} SplitAtCount(s: string, c: char)
    ensures |SplitAt(s, c)| == multiset(s)[c] + 1
    decreases |s|
  {
    if |s| > 0 {
      SplitAtCount(s[1..], c);
      assert s == [s[0]] + s[1..];
      assert multiset(s) == multiset{s[0]} + multiset(s[1..]);
    }
  }

  /** The pieces hold no separator. */
  lemma {:induction false} SplitAtPieces(s: string, c: char)
    ensures forall i :: 0 <= i < |SplitAt(s, c)| ==> c !in SplitAt(s, c)[i]
    decreases |s|
  {
    if |s| > 0 {
      SplitAtPieces(s[1..], c);
      var rest := SplitAt(s[1..], c);
      if s[0] != c {
        var r := SplitAt(s, c);
        assert r == [[s[0]] + rest[0]] + rest[1..];
        forall i | 0 <= i < |r|
          ensures c !in r[i]
        {
          if i == 0 {
            assert c !in rest[0];
            assert r[0] == [s[0]] + rest[0];
          } else {
            assert r[i] == rest[i];
          }
        }
      }
    }
  }

  /** Joined with the separator, the pieces give the string back. */
  lemma {:induction false} SplitAtJoin(s: string, c: char)
    ensures Join(SplitAt(s, c), [c]) == s
    decreases |s|
  {
    if |s| > 0 {
      SplitAtJoin(s[1..], c);
      var rest := SplitAt(s[1..], c);
      assert s == [s[0]] + s[1..];
      if s[0] == c {
        assert Join([""] + rest, [c]) == "" + [c] + Join(rest, [c]);
      } else {
        var r := [[s[0]] + rest[0]] + rest[1..];
        if |rest| > 1 {
          assert rest == [rest[0]] + rest[1..];
          assert Join(rest, [c]) == rest[0] + [c] + Join(rest[1..], [c]);
          assert Join(r, [c]) == ([s[0]] + rest[0]) + [c] + Join(rest[1..], [c]);
        }
        assert Join(r, [c]) == [s[0]] + Join(rest, [c]);
      }
    }
  }

  /** A string without the separator is one piece. */
  lemma SplitAtAbsent(s: string, c: char)
    requires c !in s
    ensures SplitAt(s, c) == [s]
  {
    SplitAtCount(s, c);
    SplitAtJoin(s, c);
    assert multiset(s)[c] == 0;
    assert Join(SplitAt(s, c), [c]) == SplitAt(s, c)[0];
  }

  /** Python's rule and the whole-name rule agree on fields without a dot. */
  lemma RulesAgree(field: string, params: map<string, Value>)
    requires '.' !in field && AllRenderable(params)
    ensures Lookup(field, params, AttributeLookup) == Lookup(field, params, WholeName)
    ensures FieldText(field, params, AttributeLookup) == FieldText(field, params, WholeName)
  {
    SplitAtAbsent(field, '.');
  }

  predicate AllDigits(s: string) {
    forall i :: 0 <= i < |s| ==> IsDigit(s[i])
  }

  /** How a replacement field names its value. `AttributeLookup` is Python's
      rule: the text before the first `.` is the keyword, and every further
      `.attr` is an attribute access on the value. `WholeName` looks the whole
      field text up as the keyword. */
  datatype FieldRule = AttributeLookup | WholeName

  /** `getattr(v, a)` on a value `format` can render: an enum member has its
      `name` and `value`; every other attribute is missing. */
  function Attributes(v: Value, attrs: seq<string>): (r: Result<Value>)
    requires Renderable(v)
    decreases |attrs|
    ensures r.Ok? ==> Renderable(r.value)
    ensures |attrs| == 0 ==> r == Ok(v)
  {
    if |attrs| == 0 then Ok(v)
    else if attrs[0] == "" then Err(ValueError)
    else if v.EnumMember? && (attrs[0] == "name" || attrs[0] == "value") then
      Attributes(Str(v.m.name), attrs[1..])
    else Err(AttributeError)
  }

  /** The value a replacement field stands for, looked up among the keyword
      arguments `format(**params)` receives. An empty or numeric name asks for
      a positional argument, and there are none. */
  function Lookup(field: string, params: map<string, Value>, rule: FieldRule): (r: Result<Value>)
    requires AllRenderable(params)
    ensures r.Ok? ==> Renderable(r.value)
  {
    var parts := SplitAt(field, '.');
    var name := if rule.WholeName? then field else parts[0];
    if name == "" || AllDigits(name) then Err(IndexError)
    else if name !in params then Err(KeyError)
    else if rule.WholeName? then Ok(params[name])
    else Attributes(params[name], parts[1..])
  }

  function Preceded(s: string, r: Result<string>): (r': Result<string>)
    ensures r'.Ok? <==> r.Ok?
    ensures r.Ok? ==> r'.value == s + r.value
    ensures r.Err? ==> r' == r
  {
    if r.Ok? then Ok(s + r.value) else r
  }

  /** The text a replacement field becomes. */
  function FieldText(field: string, params: map<string, Value>, rule: FieldRule): (r: Result<string>)
    requires AllRenderable(params)
  {
    var v := Lookup(field, params, rule);
    if v.Err? then Err(v.error) else Render(v.value)
  }

  /** `t.format(**params)`: literal text with `{{` and `}}` escapes, and
      replacement fields up to the next `}`, rendered left to right; the
      first failure is the one raised. */
  function Format(t: string, params: map<string, Value>, rule: FieldRule): Result<string>
    requires PlainTemplate(t) && AllRenderable(params)
    decreases |t|
  {
    if |t| == 0 then Ok("")
    else
      TemplateStep(t);
      if t[0] == '{' && |t| > 1 && t[1] == '{' then Preceded("{", Format(t[2..], params, rule))
      else if t[0] == '{' then
        var j := Find(t, "}");
        if j.None? then Err(ValueError)
        else
          FieldRest(t);
          var f := FieldText(t[1..j.value], params, rule);
          if f.Err? then f else Preceded(f.value, Format(t[j.value + 1..], params, rule))
      else if t[0] == '}' && |t| > 1 && t[1] == '}' then Preceded("}", Format(t[2..], params, rule))
      else if t[0] == '}' then Err(ValueError)
      else Preceded([t[0]], Format(t[1..], params, rule))
  }

  /** Text without braces is copied as it is. */
  lemma {:induction false} FormatLiteral(lit: string, rest: string, params: map<string, Value>, rule: FieldRule)
    requires forall i :: 0 <= i < |lit| ==> lit[i] != '{' && lit[i] != '}'
    requires PlainTemplate(lit + rest) && PlainTemplate(rest) && AllRenderable(params)
    ensures Format(lit + rest, params, rule) == Preceded(lit, Format(rest, params, rule))
  {
    if |lit| > 0 {
      var t := lit + rest;
      assert t[0] == lit[0];
      assert t[1..] == lit[1..] + rest;
      TemplateStep(t);
      FormatLiteral(lit[1..], rest, params, rule);
      var x := Format(rest, params, rule);
      if x.Ok? {
        assert [lit[0]] + (lit[1..] + x.value) == lit + x.value;
      }
    } else {
      assert lit + rest == rest;
      var x := Format(rest, params, rule);
      if x.Ok? {
        assert lit + x.value == x.value;
      }
    }
  }

  /** The first `}` of a template that opens with the field `{field}`. */
  lemma FieldEnd(field: string, rest: string)
    requires '}' !in field
    ensures var t := "{" + field + "}" + rest;
            Find(t, "}") == Some(|field| + 1) && t[1..|field| + 1] == field && t[|field| + 2..] == rest
  {
    var t := "{" + field + "}" + rest;
    var j := |field| + 1;
    assert t[j] == '}';
    assert t[j..j + 1] == "}";
    forall k | 0 <= k < j
      ensures !OccursAt(t, "}", k)
    {
      assert t[k..k + 1] == [t[k]];
      if k > 0 {
        assert t[k] == field[k - 1];
      }
    }
    var f := Find(t, "}");
    assert OccursAt(t, "}", j);
    assert f.Some?;
    assert f.value >= j;
    assert f.value <= j;
    assert t[1..j] == field;
    assert t[j + 1..] == rest;
  }

  /** A replacement field `{field}` followed by more template text. */
  lemma FormatField(field: string, rest: string, params: map<string, Value>, rule: FieldRule)
    requires |field| > 0 && field[0] != '{' && '}' !in field
    requires PlainTemplate("{" + field + "}" + rest) && PlainTemplate(rest) && AllRenderable(params)
    ensures var t := "{" + field + "}" + rest;
            var f := FieldText(field, params, rule);
            Format(t, params, rule) == if f.Err? then f else Preceded(f.value, Format(rest, params, rule))
  {
    FieldEnd(field, rest);
    var t := "{" + field + "}" + rest;
    assert t[0] == '{' && t[1] == field[0];
  }

  /** Every template Python's rule formats gives the same result under the
      whole-name rule when no replacement field names an attribute. */
  lemma {:induction false} RulesAgreeWithoutDots(t: string, params: map<string, Value>)
    requires PlainTemplate(t) && AllRenderable(params) && '.' !in t
    ensures Format(t, params, AttributeLookup) == Format(t, params, WholeName)
    decreases |t|
  {
    if |t| > 0 {
      TemplateStep(t);
      if t[0] == '{' && |t| > 1 && t[1] == '{' {
        RulesAgreeWithoutDots(t[2..], params);
      } else if t[0] == '{' {
        var j := Find(t, "}");
        if j.Some? {
          FieldRest(t);
          RulesAgree(t[1..j.value], params);
          RulesAgreeWithoutDots(t[j.value + 1..], params);
        }
      } else if t[0] == '}' && |t| > 1 && t[1] == '}' {
        RulesAgreeWithoutDots(t[2..], params);
      } else if t[0] != '}' {
        RulesAgreeWithoutDots(t[1..], params);
      }
    }
  }

  // ------------------------------------------------------------ get_endpoint

  predicate PlainTemplates(endpoints: seq<(Verb, string)>) {
    forall i :: 0 <= i < |endpoints| ==> PlainTemplate(endpoints[i].1)
  }

  /** A template survives when it formats and leaves no `{` behind. */
  predicate Survives(t: string, params: map<string, Value>, rule: FieldRule)
    requires PlainTemplate(t) && AllRenderable(params)
  {
    Format(t, params, rule).Ok? && '{' !in Format(t, params, rule).value
  }

  /** The first loop of get_endpoint (resttypes/endpoints.py:118-125): each
      template in order is formatted with the parameters; KeyError and
      TypeError skip it, any other exception escapes, and a URL still holding
      `{` is dropped. */
  function ValidEndpoints(endpoints: seq<(Verb, string)>, params: map<string, Value>, rule: FieldRule)
    : (r: Result<seq<(Verb, string)>>)
    requires PlainTemplates(endpoints) && AllRenderable(params)
    ensures r.Ok? ==> |r.value| <= |endpoints|
    decreases |endpoints|
  {
    if |endpoints| == 0 then Ok([])
    else
      var rest := ValidEndpoints(endpoints[1..], params, rule);
      var f := Format(endpoints[0].1, params, rule);
      if f.Err? && f.error != KeyError && f.error != TypeError then Err(f.error)
      else if rest.Err? then rest
      else if f.Ok? && '{' !in f.value then Ok([(endpoints[0].0, f.value)] + rest.value)
      else rest
  }

  /** The kept URLs are exactly the surviving templates, formatted, with
      their verbs and in declared order. */
  lemma {:induction false} ValidEndpointsExactly(endpoints: seq<(Verb, string)>, params: map<string, Value>, rule: FieldRule)
    requires PlainTemplates(endpoints) && AllRenderable(params)
    requires ValidEndpoints(endpoints, params, rule).Ok?
    ensures var valid := ValidEndpoints(endpoints, params, rule).value;
            (forall i :: 0 <= i < |endpoints| && Survives(endpoints[i].1, params, rule) ==>
               (endpoints[i].0, Format(endpoints[i].1, params, rule).value) in valid)
            && (forall e :: e in valid ==>
                  exists i :: 0 <= i < |endpoints| && Survives(endpoints[i].1, params, rule)
                              && e == (endpoints[i].0, Format(endpoints[i].1, params, rule).value))
    decreases |endpoints|
  {
    if |endpoints| > 0 {
      ValidEndpointsExactly(endpoints[1..], params, rule);
      var valid := ValidEndpoints(endpoints, params, rule).value;
      var rest := ValidEndpoints(endpoints[1..], params, rule).value;
      forall i | 0 <= i < |endpoints| && Survives(endpoints[i].1, params, rule)
        ensures (endpoints[i].0, Format(endpoints[i].1, params, rule).value) in valid
      {
        if i > 0 {
          assert endpoints[1..][i - 1] == endpoints[i];
        }
      }
      forall e | e in valid
        ensures exists i :: 0 <= i < |endpoints| && Survives(endpoints[i].1, params, rule)
                            && e == (endpoints[i].0, Format(endpoints[i].1, params, rule).value)
      {
        if e in rest {
          var i :| 0 <= i < |endpoints[1..]| && Survives(endpoints[1..][i].1, params, rule)
                   && e == (endpoints[1..][i].0, Format(endpoints[1..][i].1, params, rule).value);
          assert endpoints[1..][i] == endpoints[i + 1];
        } else {
          assert e == (endpoints[0].0, Format(endpoints[0].1, params, rule).value);
        }
      }
    }
  }

  /** What one template contributes to the valid URLs. */
  function Kept(e: (Verb, string), params: map<string, Value>, rule: FieldRule): Result<seq<(Verb, string)>>
    requires PlainTemplate(e.1) && AllRenderable(params)
  {
    var f := Format(e.1, params, rule);
    if f.Err? && f.error != KeyError && f.error != TypeError then Err(f.error)
    else if f.Ok? && '{' !in f.value then Ok([(e.0, f.value)])
    else Ok([])
  }

  function Both<T>(a: Result<seq<T>>, b: Result<seq<T>>): Result<seq<T>> {
    if a.Err? then a else if b.Err? then b else Ok(a.value + b.value)
  }

  /** The valid URLs of a list of templates are those of its first template
      followed by those of the rest. */
  lemma ValidCons(e: (Verb, string), rest: seq<(Verb, string)>, params: map<string, Value>, rule: FieldRule)
    requires PlainTemplate(e.1) && PlainTemplates(rest) && AllRenderable(params)
    ensures PlainTemplates([e] + rest)
    ensures ValidEndpoints([e] + rest, params, rule) == Both(Kept(e, params, rule), ValidEndpoints(rest, params, rule))
  {
    var all := [e] + rest;
    assert all[1..] == rest;
    forall i | 0 <= i < |all|
      ensures PlainTemplate(all[i].1)
    {
      if i > 0 {
        assert all[i] == rest[i - 1];
      }
    }
    var r := ValidEndpoints(rest, params, rule);
    if r.Ok? {
      assert [] + r.value == r.value;
    }
  }

  /** The first entry with the verb `v`, as the list comprehensions of
      get_endpoint followed by `[0]` find it. */
  function FirstWith(valid: seq<(Verb, string)>, v: Verb): (r: Option<(Verb, string)>)
    ensures r.Some? ==> exists i :: 0 <= i < |valid| && valid[i] == r.value && r.value.0 == v
                                    && forall j :: 0 <= j < i ==> valid[j].0 != v
    ensures r.None? ==> forall j :: 0 <= j < |valid| ==> valid[j].0 != v
  {
    if |valid| == 0 then None
    else if valid[0].0 == v then Some(valid[0])
    else
      var r := FirstWith(valid[1..], v);
      assert r.Some? ==> exists i :: 0 <= i < |valid| && valid[i] == r.value && r.value.0 == v
                                     && forall j :: 0 <= j < i ==> valid[j].0 != v by {
        if r.Some? {
          var i :| 0 <= i < |valid[1..]| && valid[1..][i] == r.value && r.value.0 == v
                   && forall j :: 0 <= j < i ==> valid[1..][j].0 != v;
          assert valid[i + 1] == r.value;
          assert forall j :: 0 < j < i + 1 ==> valid[j] == valid[1..][j - 1];
        }
      }
      assert forall j :: 0 < j < |valid| ==> valid[j] == valid[1..][j - 1];
      r
  }

  /** The selection of get_endpoint (resttypes/endpoints.py:126-149): one
      URL is taken as it is; among several, a payload prefers the first POST,
      then the first PUT, and no payload the first GET, then the first
      DELETE; failing those, the first URL. */
  function Choose(valid: seq<(Verb, string)>, hasData: bool): (r: (Verb, string))
    requires |valid| > 0
    ensures r in valid
  {
    if |valid| > 1 then
      var first := if hasData then POST else GET;
      var second := if hasData then PUT else DELETE;
      if FirstWith(valid, first).Some? then FirstWith(valid, first).value
      else if FirstWith(valid, second).Some? then FirstWith(valid, second).value
      else valid[0]
    else valid[0]
  }

  /** `get_endpoint(parameters, data)`: a choice among the valid URLs, or the
      bare Exception when there is none. */
  function Resolve(endpoints: seq<(Verb, string)>, params: map<string, Value>, hasData: bool, rule: FieldRule)
    : Result<(Verb, string)>
    requires PlainTemplates(endpoints) && AllRenderable(params)
  {
    var valid := ValidEndpoints(endpoints, params, rule);
    if valid.Err? then Err(valid.error)
    else if |valid.value| == 0 then Err(InvalidData)
    else Ok(Choose(valid.value, hasData))
  }

  /** The verb preference: with several URLs and a payload, a POST is taken
      whenever there is one, and otherwise a PUT whenever there is one;
      without a payload, likewise GET and then DELETE. The URL taken is the
      first with its verb. */
  lemma ChoosePrefers(valid: seq<(Verb, string)>, hasData: bool, v: Verb)
    requires |valid| > 1
    requires v == (if hasData then POST else GET) || v == (if hasData then PUT else DELETE)
    requires exists i :: 0 <= i < |valid| && valid[i].0 == v
    requires v == (if hasData then PUT else DELETE) ==>
               forall i :: 0 <= i < |valid| ==> valid[i].0 != (if hasData then POST else GET)
    ensures Choose(valid, hasData).0 == v
    ensures exists i :: 0 <= i < |valid| && valid[i] == Choose(valid, hasData)
                        && forall j :: 0 <= j < i ==> valid[j].0 != v
  {
    var i :| 0 <= i < |valid| && valid[i].0 == v;
    assert FirstWith(valid, v).Some?;
  }

  /** With several URLs and none of the preferred verbs, the first URL is
      taken; a single URL is always taken. */
  lemma ChooseFallsBack(valid: seq<(Verb, string)>, hasData: bool)
    requires |valid| == 1 || forall i :: 0 <= i < |valid| ==>
               valid[i].0 != (if hasData then POST else GET) && valid[i].0 != (if hasData then PUT else DELETE)
    requires |valid| > 0
    ensures Choose(valid, hasData) == valid[0]
  {
  }

  /** When every valid URL has the same verb, the first is taken. */
  lemma ChooseOneVerb(valid: seq<(Verb, string)>, hasData: bool)
    requires |valid| > 0 && forall i :: 0 <= i < |valid| ==> valid[i].0 == valid[0].0
    ensures Choose(valid, hasData) == valid[0]
  {
    if |valid| > 1 {
      var first := if hasData then POST else GET;
      var second := if hasData then PUT else DELETE;
      if valid[0].0 == first {
        assert FirstWith(valid, first) == Some(valid[0]);
      } else if valid[0].0 == second {
        assert FirstWith(valid, first).None?;
        assert FirstWith(valid, second) == Some(valid[0]);
      } else {
        assert FirstWith(valid, first).None?;
        assert FirstWith(valid, second).None?;
      }
    }
  }

  /** get_endpoint (resttypes/endpoints.py:106-149), its loop appending the
      surviving templates to `valid_endpoints`. */
  method GetEndpoint(endpoints: seq<(Verb, string)>, params: map<string, Value>, data: map<string, Value>)
    returns (r: Result<(Verb, string)>)
    requires PlainTemplates(endpoints) && AllRenderable(params)
    ensures r == Resolve(endpoints, params, |data| > 0, AttributeLookup)
  {
    var valid: seq<(Verb, string)> := [];
    var i := 0;
    assert endpoints[0..] == endpoints;
    var all := ValidEndpoints(endpoints, params, AttributeLookup);
    assert all.Ok? ==> [] + all.value == all.value;
    while i < |endpoints|
      invariant 0 <= i <= |endpoints|
      invariant ValidEndpoints(endpoints, params, AttributeLookup) == Then(valid, ValidEndpoints(endpoints[i..], params, AttributeLookup))
    {
      assert endpoints[i..][1..] == endpoints[i + 1..];
      var f := Format(endpoints[i].1, params, AttributeLookup);
      if f.Err? && f.error != KeyError && f.error != TypeError {
        ThenFails(valid, ValidEndpoints(endpoints[i..], params, AttributeLookup));
        return Err(f.error);
      }
      if f.Ok? && '{' !in f.value {
        ThenTwice(valid, [(endpoints[i].0, f.value)], ValidEndpoints(endpoints[i + 1..], params, AttributeLookup));
        valid := valid + [(endpoints[i].0, f.value)];
      }
      i := i + 1;
    }
    assert endpoints[i..] == [];
    assert valid + [] == valid;
    if |valid| == 0 {
      return Err(InvalidData);
    }
    return Ok(Choose(valid, |data| > 0));
  }

  function Then<T>(p: seq<T>, r: Result<seq<T>>): Result<seq<T>> {
    if r.Ok? then Ok(p + r.value) else r
  }

  lemma ThenTwice<T>(p: seq<T>, q: seq<T>, r: Result<seq<T>>)
    ensures Then(p, Then(q, r)) == Then(p + q, r)
  {
    if r.Ok? {
      assert p + (q + r.value) == (p + q) + r.value;
    }
  }

  lemma ThenFails<T>(p: seq<T>, r: Result<seq<T>>)
    requires r.Err?
    ensures Then(p, r) == r
  {
  }

  /** The two rules resolve alike for templates without a dot. */
  lemma {:induction false} ValidRulesAgree(endpoints: seq<(Verb, string)>, params: map<string, Value>)
    requires PlainTemplates(endpoints) && AllRenderable(params)
    requires forall i :: 0 <= i < |endpoints| ==> '.' !in endpoints[i].1
    ensures ValidEndpoints(endpoints, params, AttributeLookup) == ValidEndpoints(endpoints, params, WholeName)
    decreases |endpoints|
  {
    if |endpoints| > 0 {
      RulesAgreeWithoutDots(endpoints[0].1, params);
      ValidRulesAgree(endpoints[1..], params);
    }
  }

  lemma ResolveRulesAgree(endpoints: seq<(Verb, string)>, params: map<string, Value>, hasData: bool)
    requires PlainTemplates(endpoints) && AllRenderable(params)
    requires forall i :: 0 <= i < |endpoints| ==> '.' !in endpoints[i].1
    ensures Resolve(endpoints, params, hasData, AttributeLookup) == Resolve(endpoints, params, hasData, WholeName)
  {
    ValidRulesAgree(endpoints, params);
  }

  // ----------------------------------------------------------------- tables

  /** The URL parameters shared by GetResource and AddToFavourites. */
  const ResourceParams: Schema :=
    Schema({"resourceType", "resourceUUID"}, {"resourceUUID"}, {"resourceType"},
           map["resourceType" := TEnum(Enums.ResourceType), "resourceUUID" := TStr])

  /** GetResource (resttypes/endpoints.py:240-274). */
  const GetResource: EndpointClass :=
    EndpointClass(
      [(GET, "resources/{resourceType}/{resourceUUID}"), (GET, "resources/{resourceUUID}")],
      ResourceParams,
      Schema({"loadChildren"}, {}, {"loadChildren"}, map["loadChildren" := TBool]),
      Some(TComplex(PseudoResource)))

  /** ListResources (resttypes/endpoints.py:1228-1275). */
  const ListResources: EndpointClass :=
    EndpointClass(
      [(GET, "resources/{resourceType}/list"), (POST, "resources/{resourceType}/list"),
       (GET, "resources/list"), (POST, "resources/list")],
      Schema({"resourceType"}, {}, {"resourceType"}, map["resourceType" := TEnum(Enums.ResourceType)]),
      Schema({"searchFilter", "queryLimit"}, {}, {"searchFilter", "queryLimit"},
             map["searchFilter" := TComplex(SearchFilter), "queryLimit" := TComplex(QueryLimit)]),
      Some(TComplex(ListResult)))

  /** AddToFavourites (resttypes/endpoints.py:3228-3254). */
  const AddToFavourites: EndpointClass :=
    EndpointClass(
      [(PUT, "resources/{resourceType}/favourites/{resourceUUID}"),
       (PUT, "resources/favourites/{resourceUUID}"), (PUT, "resources/favourites")],
      ResourceParams,
      Schema({}, {}, {}, map[]),
      Some(TComplex(SimpleResource)))

  /** The URL templates and parameters of UpdateUser
      (resttypes/endpoints.py:224-229); its payload tables name a complex
      class outside this model. */
  const UpdateUserEndpoints: seq<(Verb, string)> := [(PUT, "resources/user/{userDetails.resourceUUID}")]
  const UpdateUserParams: Schema :=
    Schema({"userDetails.resourceUUID"}, {"userDetails.resourceUUID"}, {}, map["userDetails.resourceUUID" := TStr])

  /** A plain field naming a given parameter becomes the parameter's text. */
  lemma PlainField(name: string, params: map<string, Value>, rule: FieldRule)
    requires AllRenderable(params) && '.' !in name && |name| > 0 && !IsDigit(name[0])
    ensures FieldText(name, params, rule)
            == if name in params then Render(params[name]) else Err(KeyError)
  {
    RulesAgree(name, params);
  }

  /** `{name}` followed by more text, where `name` is a plain parameter name. */
  lemma FormatPlainField(name: string, rest: string, params: map<string, Value>, rule: FieldRule)
    requires AllRenderable(params) && '.' !in name && |name| > 0 && !IsDigit(name[0]) && name[0] != '{' && '}' !in name
    requires PlainTemplate("{" + name + "}" + rest) && PlainTemplate(rest)
    ensures Format("{" + name + "}" + rest, params, rule)
            == if name !in params then Err(KeyError)
               else if Render(params[name]).Err? then Render(params[name])
               else Preceded(Render(params[name]).value, Format(rest, params, rule))
  {
    PlainField(name, params, rule);
    FormatField(name, rest, params, rule);
  }

  /** The text of a rendered value, when it renders and holds no `{`. */
  predicate CleanText(v: Value) {
    Renderable(v) && Render(v).Ok? && '{' !in Render(v).value
  }

  /** Names a template can use as plain replacement fields. */
  predicate PlainName(name: string) {
    '.' !in name && |name| > 0 && !IsDigit(name[0]) && name[0] != '{' && '}' !in name
    && FieldNameText(name)
  }

  /** Text a template can hold outside its replacement fields. */
  predicate Literal(lit: string) {
    forall i :: 0 <= i < |lit| ==> lit[i] != '{' && lit[i] != '}'
  }

  lemma NoOpenBrace(x: string, y: string)
    requires (forall i :: 0 <= i < |x| ==> x[i] != '{') || '{' !in x
    requires (forall i :: 0 <= i < |y| ==> y[i] != '{') || '{' !in y
    ensures '{' !in x + y
  {
  }

  /** Literal text in front of a template adds no replacement field. */
  lemma {:induction false} LiteralPlain(lit: string, rest: string)
    requires Literal(lit)
    ensures PlainTemplate(lit + rest) == PlainTemplate(rest)
    decreases |lit|
  {
    if |lit| > 0 {
      assert (lit + rest)[0] == lit[0];
      assert (lit + rest)[1..] == lit[1..] + rest;
      TemplateFrom(lit + rest);
      TemplateFrom(lit[1..] + rest);
      LiteralPlain(lit[1..], rest);
    } else {
      assert lit + rest == rest;
    }
  }

  /** A template opening with the field `{field}` is plain exactly when the
      field's text is a field name and the rest is plain. */
  lemma FieldPlain(field: string, rest: string)
    requires |field| > 0 && field[0] != '{' && '}' !in field
    ensures PlainTemplate("{" + field + "}" + rest) == (FieldNameText(field) && PlainTemplate(rest))
  {
    var t := "{" + field + "}" + rest;
    assert t[0] == '{' && t[1] == field[0];
    assert t[1..] == field + "}" + rest;
    TemplateFrom(t);
    InField(field, rest);
  }

  /** Inside a field, the scan passes the field-name text up to its `}`. */
  lemma {:induction false} InField(field: string, rest: string)
    requires '}' !in field
    ensures PlainFrom(field + "}" + rest, true) == (FieldNameText(field) && PlainTemplate(rest))
    decreases |field|
  {
    var s := field + "}" + rest;
    if |field| == 0 {
      assert s[0] == '}' && s[1..] == rest;
      TemplateFrom(rest);
    } else {
      assert s[0] == field[0] && s[1..] == field[1..] + "}" + rest;
      InField(field[1..], rest);
      assert FieldNameText(field) == (FieldNameText([field[0]]) && FieldNameText(field[1..])) by {
        assert field == [field[0]] + field[1..];
      }
    }
  }

  /** The text of a parameter: its rendering, or the error formatting it
      raises. */
  function ParamText(name: string, params: map<string, Value>): Result<string>
    requires AllRenderable(params)
  {
    if name !in params then Err(KeyError) else Render(params[name])
  }

  /** The text of a parameter that renders, and the empty string otherwise. */
  function TextOf(name: string, params: map<string, Value>): (r: string)
    requires AllRenderable(params)
    ensures ParamText(name, params).Ok? ==> r == ParamText(name, params).value
  {
    var p := ParamText(name, params);
    if p.Ok? then p.value else ""
  }

  /** `lit + "{" + name + "}" + rest` formats as `lit`, the parameter's text
      and then `rest`. */
  lemma FormatPiece(lit: string, name: string, rest: string, params: map<string, Value>, rule: FieldRule)
    requires Literal(lit) && PlainName(name) && PlainTemplate(rest) && AllRenderable(params)
    ensures PlainTemplate(lit + ("{" + name + "}" + rest))
    ensures var p := ParamText(name, params);
            Format(lit + ("{" + name + "}" + rest), params, rule)
            == if p.Err? then p else Preceded(lit + p.value, Format(rest, params, rule))
  {
    PieceTemplate(lit, name, rest);
    FormatLiteral(lit, "{" + name + "}" + rest, params, rule);
    FormatPlainField(name, rest, params, rule);
    PrecededTwice(lit, ParamText(name, params), Format(rest, params, rule));
  }

  /** `lit{name}rest` is a template with plain replacement fields. */
  lemma PieceTemplate(lit: string, name: string, rest: string)
    requires Literal(lit) && PlainName(name) && PlainTemplate(rest)
    ensures PlainTemplate("{" + name + "}" + rest) && PlainTemplate(lit + ("{" + name + "}" + rest))
  {
    FieldPlain(name, rest);
    LiteralPlain(lit, "{" + name + "}" + rest);
  }

  /** Prefixing `lit` to a field's text followed by `f` is prefixing both. */
  lemma PrecededTwice(lit: string, p: Result<string>, f: Result<string>)
    ensures Preceded(lit, if p.Err? then p else Preceded(p.value, f))
            == if p.Err? then p else Preceded(lit + p.value, f)
  {
    if p.Ok? && f.Ok? {
      assert lit + (p.value + f.value) == (lit + p.value) + f.value;
    }
  }

  /** Literal text is a template without replacement fields. */
  lemma LiteralTemplate(lit: string)
    requires Literal(lit)
    ensures PlainTemplate(lit)
  {
    LiteralPlain(lit, "");
    assert lit + "" == lit;
  }

  /** A template without replacement fields formats as itself. */
  lemma FormatText(lit: string, params: map<string, Value>, rule: FieldRule)
    requires Literal(lit) && AllRenderable(params)
    ensures PlainTemplate(lit) && Format(lit, params, rule) == Ok(lit)
  {
    LiteralTemplate(lit);
    assert lit + "" == lit;
    FormatLiteral(lit, "", params, rule);
  }

  /** `lit{name}tail` formats as `lit`, the parameter's text and `tail`. */
  lemma FormatOne(lit: string, name: string, tail: string, params: map<string, Value>, rule: FieldRule)
    requires Literal(lit) && PlainName(name) && Literal(tail) && AllRenderable(params)
    ensures PlainTemplate(lit + ("{" + name + "}" + tail))
    ensures var p := ParamText(name, params);
            Format(lit + ("{" + name + "}" + tail), params, rule)
            == if p.Err? then p else Ok(lit + p.value + tail)
  {
    LiteralTemplate(tail);
    FormatPiece(lit, name, tail, params, rule);
    FormatText(tail, params, rule);
    var p := ParamText(name, params);
    if p.Ok? {
      assert (lit + p.value) + tail == lit + p.value + tail;
    }
  }

  /** `lit{first}mid{second}tail` formats as the literal text with both
      parameters' texts in place; the first failure is reported. */
  lemma FormatTwo(lit: string, first: string, mid: string, second: string, tail: string,
                  params: map<string, Value>, rule: FieldRule)
    requires Literal(lit) && PlainName(first) && Literal(mid) && PlainName(second) && Literal(tail)
    requires AllRenderable(params)
    ensures PlainTemplate(lit + ("{" + first + "}" + (mid + ("{" + second + "}" + tail))))
    ensures var a := ParamText(first, params);
            var b := ParamText(second, params);
            Format(lit + ("{" + first + "}" + (mid + ("{" + second + "}" + tail))), params, rule)
            == if a.Err? then a else if b.Err? then b else Ok(lit + a.value + mid + b.value + tail)
  {
    FormatOne(mid, second, tail, params, rule);
    FormatPiece(lit, first, mid + ("{" + second + "}" + tail), params, rule);
    var a := ParamText(first, params);
    var b := ParamText(second, params);
    if a.Ok? && b.Ok? {
      assert (lit + a.value) + (mid + b.value + tail) == lit + a.value + mid + b.value + tail;
    }
  }

  /** The literal text and the field names of the resource templates. */
  lemma ResourceWords()
    ensures Literal("resources/") && Literal("/") && Literal("") && Literal("/list")
    ensures Literal("resources/list") && Literal("resources/favourites/") && Literal("/favourites/")
    ensures Literal("resources/favourites") && Literal("resources/user/")
    ensures PlainName("resourceType") && PlainName("resourceUUID")
  {
    ShortWords();
    ListWord();
    FavouritesWords();
    UserWord();
    ResourceNames();
  }

  // One lemma per group of literals keeps each string's evaluation in a
  // proof of its own.

  lemma ShortWords()
    ensures Literal("resources/") && Literal("/") && Literal("") && Literal("/list")
  {
  }

  lemma ListWord()
    ensures Literal("resources/list")
  {
  }

  lemma FavouritesWords()
    ensures Literal("resources/favourites/") && Literal("/favourites/") && Literal("resources/favourites")
  {
  }

  lemma UserWord()
    ensures Literal("resources/user/")
  {
  }

  lemma ResourceNames()
    ensures PlainName("resourceType") && PlainName("resourceUUID")
  {
  }

  /** A parameter that is absent, or present with text free of `{`. */
  predicate Usable(name: string, params: map<string, Value>) {
    name in params ==> CleanText(params[name])
  }

  /** A template without replacement fields is always kept, as it is. */
  lemma KeptText(v: Verb, lit: string, params: map<string, Value>, rule: FieldRule)
    requires Literal(lit) && AllRenderable(params)
    ensures PlainTemplate(lit) && Kept((v, lit), params, rule) == Ok([(v, lit)])
  {
    LiteralTemplate(lit);
    FormatText(lit, params, rule);
  }

  /** `lit{name}tail` is kept exactly when `name` is given. */
  lemma KeptOne(v: Verb, lit: string, name: string, tail: string, params: map<string, Value>, rule: FieldRule)
    requires Literal(lit) && PlainName(name) && Literal(tail) && AllRenderable(params) && Usable(name, params)
    ensures PlainTemplate(lit + ("{" + name + "}" + tail))
    ensures Kept((v, lit + ("{" + name + "}" + tail)), params, rule)
            == if name in params then Ok([(v, lit + ParamText(name, params).value + tail)]) else Ok([])
  {
    FormatOne(lit, name, tail, params, rule);
    if name in params {
      var p := ParamText(name, params).value;
      NoOpenBrace(lit, p);
      NoOpenBrace(lit + p, tail);
    }
  }

  /** `lit{first}mid{second}tail` is kept exactly when both names are given. */
  lemma KeptTwo(v: Verb, lit: string, first: string, mid: string, second: string, tail: string,
                params: map<string, Value>, rule: FieldRule)
    requires Literal(lit) && PlainName(first) && Literal(mid) && PlainName(second) && Literal(tail)
    requires AllRenderable(params) && Usable(first, params) && Usable(second, params)
    ensures PlainTemplate(lit + ("{" + first + "}" + (mid + ("{" + second + "}" + tail))))
    ensures Kept((v, lit + ("{" + first + "}" + (mid + ("{" + second + "}" + tail)))), params, rule)
            == if first in params && second in params
               then Ok([(v, lit + ParamText(first, params).value + mid + ParamText(second, params).value + tail)])
               else Ok([])
  {
    FormatTwo(lit, first, mid, second, tail, params, rule);
    if first in params && second in params {
      var a := ParamText(first, params).value;
      var b := ParamText(second, params).value;
      NoOpenBrace(lit, a);
      NoOpenBrace(lit + a, mid);
      NoOpenBrace(lit + a + mid, b);
      NoOpenBrace(lit + a + mid + b, tail);
    }
  }

  lemma GetResourceTemplates()
    ensures "resources/" + ("{" + "resourceType" + "}" + ("/" + ("{" + "resourceUUID" + "}" + "")))
            == "resources/{resourceType}/{resourceUUID}"
    ensures "resources/" + ("{" + "resourceUUID" + "}" + "") == "resources/{resourceUUID}"
    ensures GetResource.endpoints == [(GET, "resources/{resourceType}/{resourceUUID}"), (GET, "resources/{resourceUUID}")]
  {
  }

  /** The first template of GetResource, `resources/{resourceType}/{resourceUUID}`. */
  lemma GetResourceKeptFirst(params: map<string, Value>, rule: FieldRule)
    requires AllRenderable(params) && Usable("resourceType", params) && Usable("resourceUUID", params)
    ensures PlainTemplate(GetResource.endpoints[0].1)
    ensures Kept(GetResource.endpoints[0], params, rule)
            == Ok(if "resourceType" in params && "resourceUUID" in params
                  then [(GET, "resources/" + TextOf("resourceType", params) + "/" + TextOf("resourceUUID", params))]
                  else [])
  {
    ResourceWords();
    var t := "resources/" + ("{" + "resourceType" + "}" + ("/" + ("{" + "resourceUUID" + "}" + "")));
    KeptTwo(GET, "resources/", "resourceType", "/", "resourceUUID", "", params, rule);
    GetResourceTemplates();
    assert GetResource.endpoints[0] == (GET, t);
    var x := TextOf("resourceType", params);
    var y := TextOf("resourceUUID", params);
    assert "resources/" + x + "/" + y + "" == "resources/" + x + "/" + y;
  }

  /** The second template of GetResource, `resources/{resourceUUID}`. */
  lemma GetResourceKeptSecond(params: map<string, Value>, rule: FieldRule)
    requires AllRenderable(params) && Usable("resourceUUID", params)
    ensures PlainTemplate(GetResource.endpoints[1].1)
    ensures Kept(GetResource.endpoints[1], params, rule)
            == Ok(if "resourceUUID" in params then [(GET, "resources/" + TextOf("resourceUUID", params))] else [])
  {
    ResourceWords();
    var t := "resources/" + ("{" + "resourceUUID" + "}" + "");
    KeptOne(GET, "resources/", "resourceUUID", "", params, rule);
    GetResourceTemplates();
    assert GetResource.endpoints[1] == (GET, t);
    var y := TextOf("resourceUUID", params);
    assert "resources/" + y + "" == "resources/" + y;
  }

  /** The URLs GetResource can be sent to, in declared order. */
  lemma GetResourceValid(params: map<string, Value>, rule: FieldRule)
    requires AllRenderable(params) && Usable("resourceType", params) && Usable("resourceUUID", params)
    ensures PlainTemplates(GetResource.endpoints)
    ensures ValidEndpoints(GetResource.endpoints, params, rule)
            == Ok((if "resourceType" in params && "resourceUUID" in params
                   then [(GET, "resources/" + ParamText("resourceType", params).value + "/" + ParamText("resourceUUID", params).value)]
                   else [])
                  + (if "resourceUUID" in params then [(GET, "resources/" + ParamText("resourceUUID", params).value)] else []))
  {
    GetResourceKeptFirst(params, rule);
    GetResourceKeptSecond(params, rule);
    var e := GetResource.endpoints;
    assert |e| == 2 && e[2..] == [];
    var p := Kept(e[0], params, rule).value;
    var q := Kept(e[1], params, rule).value;
    ValidOfParts(e, params, rule, p, q, []);
    assert p + q + [] == p + q;
  }

  /** GetResource with both a type and a UUID is sent to
      `resources/<type>/<uuid>`, with or without a payload. */
  lemma GetResourceWithType(params: map<string, Value>, hasData: bool, rule: FieldRule)
    requires AllRenderable(params)
    requires "resourceType" in params && CleanText(params["resourceType"])
    requires "resourceUUID" in params && CleanText(params["resourceUUID"])
    ensures PlainTemplates(GetResource.endpoints)
    ensures Resolve(GetResource.endpoints, params, hasData, rule)
            == Ok((GET, "resources/" + Render(params["resourceType"]).value + "/" + Render(params["resourceUUID"]).value))
  {
    GetResourceValid(params, rule);
    var valid := ValidEndpoints(GetResource.endpoints, params, rule).value;
    if hasData {
      ChooseFallsBack(valid, hasData);
    } else {
      assert FirstWith(valid, GET) == Some(valid[0]);
    }
  }

  /** GetResource with a UUID and no type is sent to `resources/<uuid>`. */
  lemma GetResourceWithoutType(params: map<string, Value>, hasData: bool, rule: FieldRule)
    requires AllRenderable(params)
    requires "resourceType" !in params
    requires "resourceUUID" in params && CleanText(params["resourceUUID"])
    ensures PlainTemplates(GetResource.endpoints)
    ensures Resolve(GetResource.endpoints, params, hasData, rule)
            == Ok((GET, "resources/" + Render(params["resourceUUID"]).value))
  {
    GetResourceValid(params, rule);
  }

  /** GetResource without a UUID has no URL, and building it raises. */
  lemma GetResourceNeedsUuid(params: map<string, Value>, hasData: bool, rule: FieldRule)
    requires AllRenderable(params) && Usable("resourceType", params)
    requires "resourceUUID" !in params
    ensures PlainTemplates(GetResource.endpoints)
    ensures Resolve(GetResource.endpoints, params, hasData, rule) == Err(InvalidData)
  {
    GetResourceValid(params, rule);
  }

  lemma ListResourcesTemplates()
    ensures "resources/" + ("{" + "resourceType" + "}" + "/list") == "resources/{resourceType}/list"
    ensures ListResources.endpoints
            == [(GET, "resources/{resourceType}/list"), (POST, "resources/{resourceType}/list"),
                (GET, "resources/list"), (POST, "resources/list")]
  {
  }

  lemma ListResourcesUntyped(params: map<string, Value>, rule: FieldRule)
    requires AllRenderable(params)
    ensures PlainTemplates(ListResources.endpoints[2..])
    ensures ValidEndpoints(ListResources.endpoints[2..], params, rule)
            == Ok([(GET, "resources/list"), (POST, "resources/list")])
  {
    ResourceWords();
    ListResourcesTemplates();
    KeptText(GET, "resources/list", params, rule);
    KeptText(POST, "resources/list", params, rule);
    var e := ListResources.endpoints;
    ValidCons(e[3], [], params, rule);
    assert [e[3]] + [] == e[3..];
    ValidCons(e[2], e[3..], params, rule);
    assert [e[2]] + e[3..] == e[2..];
    assert ValidEndpoints(e[3..], params, rule) == Ok([(POST, "resources/list")]);
  }

  /** Two kept templates in front of the rest. */
  lemma ValidPair(e0: (Verb, string), e1: (Verb, string), rest: seq<(Verb, string)>,
                  params: map<string, Value>, rule: FieldRule)
    requires PlainTemplate(e0.1) && PlainTemplate(e1.1) && PlainTemplates(rest) && AllRenderable(params)
    requires Kept(e0, params, rule).Ok? && Kept(e1, params, rule).Ok? && ValidEndpoints(rest, params, rule).Ok?
    ensures PlainTemplates([e0, e1] + rest)
    ensures ValidEndpoints([e0, e1] + rest, params, rule)
            == Ok(Kept(e0, params, rule).value + Kept(e1, params, rule).value + ValidEndpoints(rest, params, rule).value)
  {
    var all := [e0, e1] + rest;
    assert all[0] == e0 && all[1] == e1 && all[2..] == rest;
    ValidOfParts(all, params, rule, Kept(e0, params, rule).value, Kept(e1, params, rule).value,
                 ValidEndpoints(rest, params, rule).value);
  }

  /** Two kept templates in front of the rest, by what each gives. */
  lemma ValidOfParts(e: seq<(Verb, string)>, params: map<string, Value>, rule: FieldRule,
                     a: seq<(Verb, string)>, b: seq<(Verb, string)>, c: seq<(Verb, string)>)
    requires |e| >= 2 && PlainTemplate(e[0].1) && PlainTemplate(e[1].1) && PlainTemplates(e[2..]) && AllRenderable(params)
    requires Kept(e[0], params, rule) == Ok(a) && Kept(e[1], params, rule) == Ok(b)
    requires ValidEndpoints(e[2..], params, rule) == Ok(c)
    ensures PlainTemplates(e) && ValidEndpoints(e, params, rule) == Ok(a + b + c)
  {
    forall i | 0 <= i < |e|
      ensures PlainTemplate(e[i].1)
    {
      if i >= 2 {
        assert e[i] == e[2..][i - 2];
      }
    }
    var tail := e[1..];
    assert tail[0] == e[1] && tail[1..] == e[2..];
    ValidStep(e, params, rule);
    ValidStep(tail, params, rule);
    assert a + (b + c) == a + b + c;
  }

  /** The valid URLs of a non-empty list: its first template's, then the
      rest's. */
  lemma ValidStep(e: seq<(Verb, string)>, params: map<string, Value>, rule: FieldRule)
    requires |e| > 0 && PlainTemplates(e) && AllRenderable(params)
    ensures PlainTemplate(e[0].1) && PlainTemplates(e[1..])
    ensures ValidEndpoints(e, params, rule) == Both(Kept(e[0], params, rule), ValidEndpoints(e[1..], params, rule))
  {
    var r := ValidEndpoints(e[1..], params, rule);
    if r.Ok? {
      assert [] + r.value == r.value;
    }
  }

  /** The two typed templates of ListResources. */
  lemma ListResourcesTyped(params: map<string, Value>, rule: FieldRule)
    requires AllRenderable(params) && Usable("resourceType", params)
    ensures PlainTemplate(ListResources.endpoints[0].1) && PlainTemplate(ListResources.endpoints[1].1)
    ensures var typed := "resources/" + TextOf("resourceType", params) + "/list";
            && Kept(ListResources.endpoints[0], params, rule)
               == Ok(if "resourceType" in params then [(GET, typed)] else [])
            && Kept(ListResources.endpoints[1], params, rule)
               == Ok(if "resourceType" in params then [(POST, typed)] else [])
  {
    ResourceWords();
    ListResourcesTemplates();
    KeptOne(GET, "resources/", "resourceType", "/list", params, rule);
    KeptOne(POST, "resources/", "resourceType", "/list", params, rule);
  }

  /** The URLs ListResources can be sent to, in declared order. */
  lemma ListResourcesValid(params: map<string, Value>, rule: FieldRule)
    requires AllRenderable(params) && Usable("resourceType", params)
    ensures PlainTemplates(ListResources.endpoints)
    ensures var typed := "resources/" + TextOf("resourceType", params) + "/list";
            ValidEndpoints(ListResources.endpoints, params, rule)
            == Ok((if "resourceType" in params then [(GET, typed), (POST, typed)] else [])
                  + [(GET, "resources/list"), (POST, "resources/list")])
  {
    ListResourcesTypedPair(params, rule);
    ListResourcesUntyped(params, rule);
    var e := ListResources.endpoints;
    assert e == [e[0], e[1]] + e[2..];
    ValidPair(e[0], e[1], e[2..], params, rule);
  }

  /** The two typed templates of ListResources together. */
  lemma ListResourcesTypedPair(params: map<string, Value>, rule: FieldRule)
    requires AllRenderable(params) && Usable("resourceType", params)
    ensures PlainTemplate(ListResources.endpoints[0].1) && PlainTemplate(ListResources.endpoints[1].1)
    ensures Kept(ListResources.endpoints[0], params, rule).Ok? && Kept(ListResources.endpoints[1], params, rule).Ok?
    ensures var typed := "resources/" + TextOf("resourceType", params) + "/list";
            Kept(ListResources.endpoints[0], params, rule).value + Kept(ListResources.endpoints[1], params, rule).value
            == if "resourceType" in params then [(GET, typed), (POST, typed)] else []
  {
    ListResourcesTyped(params, rule);
    var typed := "resources/" + TextOf("resourceType", params) + "/list";
    if "resourceType" in params {
      assert [(GET, typed)] + [(POST, typed)] == [(GET, typed), (POST, typed)];
    }
  }

  /** ListResources is a POST with a payload and a GET without one, to
      `resources/<type>/list` when a type is given and to `resources/list`
      otherwise. */
  lemma ListResourcesChoice(params: map<string, Value>, hasData: bool, rule: FieldRule)
    requires AllRenderable(params) && Usable("resourceType", params)
    ensures PlainTemplates(ListResources.endpoints)
    ensures Resolve(ListResources.endpoints, params, hasData, rule)
            == Ok((if hasData then POST else GET,
                   if "resourceType" in params
                   then "resources/" + Render(params["resourceType"]).value + "/list"
                   else "resources/list"))
  {
    ListResourcesValid(params, rule);
    var valid := ValidEndpoints(ListResources.endpoints, params, rule).value;
    if hasData {
      assert FirstWith(valid, POST) == Some(valid[1]);
    } else {
      assert FirstWith(valid, GET) == Some(valid[0]);
    }
  }

  lemma AddToFavouritesBothText()
    ensures "resources/" + ("{" + "resourceType" + "}" + ("/favourites/" + ("{" + "resourceUUID" + "}" + "")))
            == "resources/{resourceType}/favourites/{resourceUUID}"
  {
    UuidField();
    FavouritesUuidTail();
    TypeThenUuid();
    ResourcesTypeUuid();
  }

  // The pieces of the favourites template, joined one step at a time.

  lemma UuidField()
    ensures "{" + "resourceUUID" + "}" + "" == "{resourceUUID}"
  {
  }

  lemma FavouritesUuidTail()
    ensures "/favourites/" + "{resourceUUID}" == "/favourites/{resourceUUID}"
  {
  }

  lemma TypeThenUuid()
    ensures "{" + "resourceType" + "}" + "/favourites/{resourceUUID}" == "{resourceType}/favourites/{resourceUUID}"
  {
    TypeField();
    TypeFieldThenUuid();
  }

  lemma TypeField()
    ensures "{" + "resourceType" + "}" == "{resourceType}"
  {
  }

  lemma TypeFieldThenUuid()
    ensures "{resourceType}" + "/favourites/{resourceUUID}" == "{resourceType}/favourites/{resourceUUID}"
  {
  }

  lemma ResourcesTypeUuid()
    ensures "resources/" + "{resourceType}/favourites/{resourceUUID}" == "resources/{resourceType}/favourites/{resourceUUID}"
  {
  }

  lemma AddToFavouritesUuidText()
    ensures "resources/favourites/" + ("{" + "resourceUUID" + "}" + "") == "resources/favourites/{resourceUUID}"
  {
    assert "{" + "resourceUUID" + "}" + "" == "{resourceUUID}";
  }

  lemma AddToFavouritesTemplates()
    ensures AddToFavourites.endpoints
            == [(PUT, "resources/" + ("{" + "resourceType" + "}" + ("/favourites/" + ("{" + "resourceUUID" + "}" + "")))),
                (PUT, "resources/favourites/" + ("{" + "resourceUUID" + "}" + "")), (PUT, "resources/favourites")]
  {
    AddToFavouritesBothText();
    AddToFavouritesUuidText();
  }

  /** The template naming both the type and the UUID. */
  lemma AddToFavouritesFirst(params: map<string, Value>, rule: FieldRule)
    requires AllRenderable(params) && Usable("resourceType", params) && Usable("resourceUUID", params)
    ensures PlainTemplate(AddToFavourites.endpoints[0].1)
    ensures var t := TextOf("resourceType", params);
            var u := TextOf("resourceUUID", params);
            Kept(AddToFavourites.endpoints[0], params, rule)
            == Ok(if "resourceType" in params && "resourceUUID" in params
                  then [(PUT, "resources/" + t + "/favourites/" + u)] else [])
  {
    ResourceWords();
    AddToFavouritesTemplates();
    KeptTwo(PUT, "resources/", "resourceType", "/favourites/", "resourceUUID", "", params, rule);
    var t := TextOf("resourceType", params);
    var u := TextOf("resourceUUID", params);
    assert "resources/" + t + "/favourites/" + u + "" == "resources/" + t + "/favourites/" + u;
  }

  /** The template naming the UUID only, and the bare one. */
  lemma AddToFavouritesRest(params: map<string, Value>, rule: FieldRule)
    requires AllRenderable(params) && Usable("resourceUUID", params)
    ensures PlainTemplate(AddToFavourites.endpoints[1].1) && PlainTemplates(AddToFavourites.endpoints[2..])
    ensures var u := TextOf("resourceUUID", params);
            Kept(AddToFavourites.endpoints[1], params, rule)
            == Ok(if "resourceUUID" in params then [(PUT, "resources/favourites/" + u)] else [])
    ensures ValidEndpoints(AddToFavourites.endpoints[2..], params, rule) == Ok([(PUT, "resources/favourites")])
  {
    ResourceWords();
    AddToFavouritesTemplates();
    KeptOne(PUT, "resources/favourites/", "resourceUUID", "", params, rule);
    KeptText(PUT, "resources/favourites", params, rule);
    var e := AddToFavourites.endpoints;
    ValidCons(e[2], [], params, rule);
    assert [e[2]] + [] == e[2..];
    var u := TextOf("resourceUUID", params);
    assert "resources/favourites/" + u + "" == "resources/favourites/" + u;
  }

  /** The URLs AddToFavourites can be sent to, in declared order. */
  lemma AddToFavouritesValid(params: map<string, Value>, rule: FieldRule)
    requires AllRenderable(params) && Usable("resourceType", params) && Usable("resourceUUID", params)
    ensures PlainTemplates(AddToFavourites.endpoints)
    ensures var t := TextOf("resourceType", params);
            var u := TextOf("resourceUUID", params);
            ValidEndpoints(AddToFavourites.endpoints, params, rule)
            == Ok((if "resourceType" in params && "resourceUUID" in params
                   then [(PUT, "resources/" + t + "/favourites/" + u)] else [])
                  + (if "resourceUUID" in params then [(PUT, "resources/favourites/" + u)] else [])
                  + [(PUT, "resources/favourites")])
  {
    AddToFavouritesFirst(params, rule);
    AddToFavouritesRest(params, rule);
    var t := TextOf("resourceType", params);
    var u := TextOf("resourceUUID", params);
    ValidOfParts(AddToFavourites.endpoints, params, rule,
                 if "resourceType" in params && "resourceUUID" in params
                 then [(PUT, "resources/" + t + "/favourites/" + u)] else [],
                 if "resourceUUID" in params then [(PUT, "resources/favourites/" + u)] else [],
                 [(PUT, "resources/favourites")]);
  }

  lemma AddToFavouritesAllPut(params: map<string, Value>, rule: FieldRule)
    requires AllRenderable(params) && Usable("resourceType", params) && Usable("resourceUUID", params)
    ensures PlainTemplates(AddToFavourites.endpoints)
    ensures var r := ValidEndpoints(AddToFavourites.endpoints, params, rule);
            r.Ok? && |r.value| > 0 && forall i :: 0 <= i < |r.value| ==> r.value[i].0 == PUT
  {
    AddToFavouritesValid(params, rule);
  }

  /** AddToFavourites, whose templates are all PUT, takes the first URL the
      parameters fill: `resources/<type>/favourites/<uuid>` when both are
      given, else `resources/favourites/<uuid>`, else `resources/favourites`. */
  lemma AddToFavouritesChoice(params: map<string, Value>, hasData: bool, rule: FieldRule)
    requires AllRenderable(params) && Usable("resourceType", params) && Usable("resourceUUID", params)
    ensures PlainTemplates(AddToFavourites.endpoints)
    ensures Resolve(AddToFavourites.endpoints, params, hasData, rule)
            == Ok((PUT, if "resourceType" in params && "resourceUUID" in params
                        then "resources/" + Render(params["resourceType"]).value + "/favourites/" + Render(params["resourceUUID"]).value
                        else if "resourceUUID" in params
                        then "resources/favourites/" + Render(params["resourceUUID"]).value
                        else "resources/favourites"))
  {
    AddToFavouritesValid(params, rule);
    AddToFavouritesAllPut(params, rule);
    var valid := ValidEndpoints(AddToFavourites.endpoints, params, rule).value;
    ChooseOneVerb(valid, hasData);
  }

  /** Splitting at the first separator: the text before it is the first
      piece. */
  lemma {:induction false} SplitAtFirst(a: string, b: string, c: char)
    requires c !in a
    ensures SplitAt(a + [c] + b, c) == [a] + SplitAt(b, c)
    decreases |a|
  {
    if |a| == 0 {
      assert a + [c] + b == [c] + b;
      assert ([c] + b)[1..] == b;
    } else {
      SplitAtFirst(a[1..], b, c);
      assert (a + [c] + b)[1..] == a[1..] + [c] + b;
      assert [a[0]] + a[1..] == a;
    }
  }

  lemma UpdateUserText()
    ensures "resources/user/" + ("{" + "userDetails.resourceUUID" + "}" + "") == "resources/user/{userDetails.resourceUUID}"
  {
    assert "{" + "userDetails.resourceUUID" + "}" + "" == "{userDetails.resourceUUID}";
    assert "resources/user/" + "{userDetails.resourceUUID}" == "resources/user/{userDetails.resourceUUID}";
  }

  lemma UpdateUserFieldName()
    ensures "userDetails.resourceUUID" == "userDetails" + ['.'] + "resourceUUID"
    ensures '}' !in "userDetails.resourceUUID" && "userDetails.resourceUUID"[0] != '{'
    ensures '.' !in "userDetails" && !AllDigits("userDetails") && !AllDigits("userDetails.resourceUUID")
  {
    assert !IsDigit("userDetails"[0]);
    assert !IsDigit("userDetails.resourceUUID"[0]);
  }

  lemma UpdateUserTemplate()
    ensures UpdateUserEndpoints == [(PUT, "resources/user/" + ("{" + "userDetails.resourceUUID" + "}" + ""))]
    ensures Literal("resources/user/") && PlainTemplate("{" + "userDetails.resourceUUID" + "}" + "")
    ensures '}' !in "userDetails.resourceUUID" && "userDetails.resourceUUID"[0] != '{'
  {
    UpdateUserText();
    UpdateUserFieldName();
    UserWord();
    UpdateUserFieldPlain();
  }

  lemma UpdateUserFieldPlain()
    ensures PlainTemplate("{" + "userDetails.resourceUUID" + "}" + "")
  {
    UpdateUserFieldName();
    assert FieldNameText("userDetails.resourceUUID");
    FieldPlain("userDetails.resourceUUID", "");
    assert PlainTemplate("");
  }

  /** The one template of UpdateUser formats as the text of the field's
      value, as the rule looks it up. */
  lemma UpdateUserFormat(params: map<string, Value>, rule: FieldRule)
    requires AllRenderable(params)
    ensures PlainTemplates(UpdateUserEndpoints)
    ensures var f := FieldText("userDetails.resourceUUID", params, rule);
            Format(UpdateUserEndpoints[0].1, params, rule)
            == if f.Err? then f else Ok("resources/user/" + f.value)
  {
    UpdateUserTemplate();
    var field := "userDetails.resourceUUID";
    LiteralPlain("resources/user/", "{" + field + "}" + "");
    FormatLiteral("resources/user/", "{" + field + "}" + "", params, rule);
    FormatField(field, "", params, rule);
    var f := FieldText(field, params, rule);
    if f.Ok? {
      assert f.value + "" == f.value;
    }
  }

  /** As written, UpdateUser never resolves: after rat_check the parameters
      hold only the key `userDetails.resourceUUID`, and `format` looks the
      field up under `userDetails`, raises KeyError and drops the only
      template, so get_endpoint raises. */
  lemma UpdateUserAsWritten(params: map<string, Value>, hasData: bool)
    requires AllRenderable(params) && params.Keys <= UpdateUserParams.all
    ensures PlainTemplates(UpdateUserEndpoints)
    ensures Resolve(UpdateUserEndpoints, params, hasData, AttributeLookup) == Err(InvalidData)
  {
    UpdateUserTemplate();
    UpdateUserDropped(params);
    var e := UpdateUserEndpoints[0];
    ValidCons(e, [], params, AttributeLookup);
    assert [e] + [] == UpdateUserEndpoints;
  }

  /** Under attribute lookup the template fails to format with KeyError,
      so it is dropped. */
  lemma UpdateUserDropped(params: map<string, Value>)
    requires AllRenderable(params) && params.Keys <= UpdateUserParams.all
    ensures PlainTemplate(UpdateUserEndpoints[0].1)
    ensures Kept(UpdateUserEndpoints[0], params, AttributeLookup) == Ok([])
  {
    UpdateUserTemplate();
    UpdateUserFormat(params, AttributeLookup);
    UpdateUserKeyError(params);
  }

  /** The field is looked up under `userDetails`, which is no parameter. */
  lemma UpdateUserKeyError(params: map<string, Value>)
    requires AllRenderable(params) && params.Keys <= UpdateUserParams.all
    ensures Lookup("userDetails.resourceUUID", params, AttributeLookup) == Err(KeyError)
  {
    UpdateUserFieldName();
    assert "userDetails" !in params;
    LookupMissingHead("userDetails", "resourceUUID", params);
  }

  /** Attribute lookup of `head.tail` fails with KeyError when `head` is no
      parameter. */
  lemma LookupMissingHead(head: string, tail: string, params: map<string, Value>)
    requires AllRenderable(params) && '.' !in head && head != "" && !AllDigits(head) && head !in params
    ensures Lookup(head + ['.'] + tail, params, AttributeLookup) == Err(KeyError)
  {
    SplitAtFirst(head, tail, '.');
  }

  /** Looking the field up by its whole name, as the parameter tables name
      it, UpdateUser resolves to `resources/user/<uuid>`. */
  lemma UpdateUserCorrected(params: map<string, Value>, hasData: bool)
    requires AllRenderable(params)
    requires "userDetails.resourceUUID" in params && CleanText(params["userDetails.resourceUUID"])
    ensures PlainTemplates(UpdateUserEndpoints)
    ensures Resolve(UpdateUserEndpoints, params, hasData, WholeName)
            == Ok((PUT, "resources/user/" + Render(params["userDetails.resourceUUID"]).value))
  {
    UpdateUserTemplate();
    UpdateUserFormat(params, WholeName);
    UpdateUserFieldName();
    var field := "userDetails.resourceUUID";
    assert Lookup(field, params, WholeName) == Ok(params[field]);
    var t := Render(params[field]).value;
    assert FieldText(field, params, WholeName) == Ok(t);
    ResourceWords();
    NoOpenBrace("resources/user/", t);
    var e := UpdateUserEndpoints[0];
    assert Kept(e, params, WholeName) == Ok([(PUT, "resources/user/" + t)]);
    ValidCons(e, [], params, WholeName);
    assert [e] + [] == UpdateUserEndpoints;
  }
}
