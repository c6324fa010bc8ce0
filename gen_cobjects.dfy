/** The complex-object generator (generators/cobjects.py): the dependency
    map between scraped complex objects, its sort into layers, and the
    class definitions written in that order. */
module GenCobjects {
  import opened PyBase
  import opened GenCommon

  /** A scraped complex object: its docstring and its attributes in table
      order (`{'docstring': …, 'attribs': {…}}`). */
  datatype CoDef = CoDef(docstring: string, attribs: seq<(string, Attr)>)

  // ------------------------------------------------ create_relationships

  /** The complex objects a descriptor names, at any depth. */
  function CoNames(t: TypeDesc): set<string>
    decreases t
  {
    if t.Co? then {t.name}
    else if t.DictOf? then CoNames(t.key) + CoNames(t.item)
    else if t.ListOf? then CoNames(t.elem)
    else {}
  }

  /** `create_relationships_rec(t)`. A tuple with an unknown head falls
      through every branch and gives None (`Ok(None)`); a dict that meets
      None on either side raises TypeError at `|`. */
  function DepsRec(t: TypeDesc): Result<Option<set<string>>>
    decreases t
  {
    if t.Co? then Ok(Some({t.name}))
    else if t.DictOf? then
      var k := DepsRec(t.key);
      if k.Err? then k
      else
        var v := DepsRec(t.item);
        if v.Err? then v
        else if k.value.None? || v.value.None? then Err(TypeError)
        else Ok(Some(k.value.value + v.value.value))
    else if t.ListOf? then DepsRec(t.elem)
    else if t.OtherTuple? then Ok(None)
    else Ok(Some({}))
  }

  /** The dependencies of a descriptor are the complex objects it names;
      a descriptor holding a tuple with an unknown head gives no set. */
  lemma {:induction false} DepsRecNames(t: TypeDesc)
    ensures !HasOtherTuple(t) ==> DepsRec(t) == Ok(Some(CoNames(t)))
    ensures HasOtherTuple(t) ==> DepsRec(t) == Err(TypeError) || DepsRec(t) == Ok(None)
    decreases t
  {
    if t.DictOf? {
      DepsRecNames(t.key);
      DepsRecNames(t.item);
    } else if t.ListOf? {
      DepsRecNames(t.elem);
    }
  }

  /** Every attribute type is free of tuples with unknown heads. */
  predicate Resolvable(attribs: seq<(string, Attr)>) {
    forall i :: 0 <= i < |attribs| ==> !HasOtherTuple(attribs[i].1.typ)
  }

  /** The union of the complex objects the attribute types name. */
  function AttrDeps(attribs: seq<(string, Attr)>): set<string>
    decreases |attribs|
  {
    if |attribs| == 0 then {}
    else AttrDeps(attribs[..|attribs| - 1]) + CoNames(attribs[|attribs| - 1].1.typ)
  }

  /** A name is a dependency exactly when some attribute type names it. */
  lemma {:induction false} AttrDepsMember(attribs: seq<(string, Attr)>, n: string)
    ensures n in AttrDeps(attribs) <==> exists i :: 0 <= i < |attribs| && n in CoNames(attribs[i].1.typ)
    decreases |attribs|
  {
    if |attribs| > 0 {
      var front := attribs[..|attribs| - 1];
      AttrDepsMember(front, n);
      if n in AttrDeps(front) {
        var i :| 0 <= i < |front| && n in CoNames(front[i].1.typ);
        assert attribs[i] == front[i];
      }
      if exists i :: 0 <= i < |attribs| && n in CoNames(attribs[i].1.typ) {
        var i :| 0 <= i < |attribs| && n in CoNames(attribs[i].1.typ);
        if i < |attribs| - 1 {
          assert front[i] == attribs[i];
        }
      }
    }
  }

  /** The dependency map `create_relationships` builds: every complex
      object, and only those, to the dependencies of its attributes. */
  function Relationships(coDict: map<string, CoDef>): (r: map<string, set<string>>)
    ensures r.Keys == coDict.Keys
  {
    map c | c in coDict :: AttrDeps(coDict[c].attribs)
  }

  /** The inner loop of `create_relationships`: the complex objects the
      attributes refer to, or None where an attribute type cannot be
      resolved. */
  method ComplexDeps(attribs: seq<(string, Attr)>) returns (r: Option<set<string>>)
    ensures r.Some? <==> Resolvable(attribs)
    ensures r.Some? ==> r.value == AttrDeps(attribs)
  {
    var acc: set<string> := {};
    var i := 0;
    while i < |attribs|
      invariant 0 <= i <= |attribs|
      invariant acc == AttrDeps(attribs[..i]) && Resolvable(attribs[..i])
    {
      var deps := DepsRec(attribs[i].1.typ);
      DepsRecNames(attribs[i].1.typ);
      if deps.Err? || deps.value.None? {
        assert !Resolvable(attribs);
        return None;
      }
      acc := acc + deps.value.value;
      assert attribs[..i + 1][..i] == attribs[..i];
      i := i + 1;
    }
    assert attribs[..|attribs|] == attribs;
    return Some(acc);
  }

  /** `create_relationships(co_dict)`: raises TypeError when an attribute
      type holds a tuple with an unknown head. */
  method CreateRelationships(coDict: map<string, CoDef>) returns (r: Result<map<string, set<string>>>)
    ensures r.Ok? <==> forall c :: c in coDict ==> Resolvable(coDict[c].attribs)
    ensures r.Err? ==> r.error == TypeError
    ensures r.Ok? ==> r.value == Relationships(coDict)
  {
    var d: map<string, set<string>> := map[];
    var left := coDict.Keys;
    while left != {}
      invariant left <= coDict.Keys
      invariant d.Keys == coDict.Keys - left
      invariant forall c :: c in d ==> d[c] == AttrDeps(coDict[c].attribs) && Resolvable(coDict[c].attribs)
      decreases |left|
    {
      var co :| co in left;
      var acc := ComplexDeps(coDict[co].attribs);
      if acc.None? {
        return Err(TypeError);
      }
      d := d[co := acc.value];
      left := left - {co};
    }
    return Ok(d);
  }

  // ------------------------------------------------------------ gen_single

  /** `prev` with the class line, a blank line, the docstring's first
      line and a blank line after it. */
  function CoHeader(name: string): seq<string> {
    ["class " + name + "(ComplexObject):" + Newline] + [Newline]
    + ["    \"\"\"FCO REST API " + name + " complex object." + Newline] + [Newline]
  }

  /** `prev` with the docstring lines of the attributes, in order, up to
      the first type that cannot be rendered. */
  function AttrDocs(prev: seq<string>, attribs: seq<(string, Attr)>): (r: Emitted)
    ensures r.failure.Some? ==> r.failure == Some(TypeError)
    ensures r.failure.None? <==> forall i :: 0 <= i < |attribs| ==> SourceType(attribs[i].1.typ, "", "enums.").Ok?
    decreases |attribs|
  {
    if |attribs| == 0 then Emitted(prev, None)
    else
      var p := AttrDocs(prev, attribs[..|attribs| - 1]);
      var n := attribs[|attribs| - 1].0;
      var a := attribs[|attribs| - 1].1;
      var st := SourceType(a.typ, "", "enums.");
      SourceTypeFails(a.typ, "", "enums.");
      if p.failure.Some? then p
      else if st.Err? then Emitted(p.lines, Some(st.error))
      else Emitted(p.lines + Wrapped(AttrLine(st.value, n, a), 8) + Wrapped(a.desc, 12), None)
  }

  /** Once an attribute fails, later attributes add nothing. */
  lemma {:induction false} AttrDocsSticky(prev: seq<string>, attribs: seq<(string, Attr)>, i: nat)
    requires i <= |attribs| && AttrDocs(prev, attribs[..i]).failure.Some?
    ensures AttrDocs(prev, attribs) == AttrDocs(prev, attribs[..i])
    decreases |attribs| - i
  {
    if i == |attribs| {
      assert attribs[..i] == attribs;
    } else {
      assert attribs[..|attribs| - 1][..i] == attribs[..i];
      AttrDocsSticky(prev, attribs[..|attribs| - 1], i);
    }
  }

  /** `prev` with the docstring's end and the four schema constants. */
  function CoTrailer(prev: seq<string>, attribs: seq<(string, Attr)>): seq<string>
    requires forall i :: 0 <= i < |attribs| ==> SourceType(attribs[i].1.typ, "", "enums.").Ok?
  {
    SetWraps(prev + DocClose, SchemaTexts(attribs)) + [Newline]
  }

  /** The schema constants as Python 2 prints them before `set_wrap`. */
  function SchemaTexts(attribs: seq<(string, Attr)>): (r: seq<string>)
    requires forall i :: 0 <= i < |attribs| ==> SourceType(attribs[i].1.typ, "", "enums.").Ok?
    ensures |r| == 4
  {
    ["ALL_ATTRIBS = " + SetDisplay(Names(attribs)),
     "REQUIRED_ATTRIBS = " + SetDisplay(RequiredNames(attribs)),
     "OPTIONAL_ATTRIBS = " + SetDisplay(OptionalNames(attribs)),
     "TYPES = " + DictDisplay(TypePairs(attribs, ""))]
  }

  /** The four `set_wrap` calls one after the other. */
  lemma TrailerUnrolled(prev: seq<string>, attribs: seq<(string, Attr)>)
    requires forall i :: 0 <= i < |attribs| ==> SourceType(attribs[i].1.typ, "", "enums.").Ok?
    ensures CoTrailer(prev, attribs)
            == prev + DocClose
               + Wrapped(SetText(SchemaTexts(attribs)[0]), 4) + Wrapped(SetText(SchemaTexts(attribs)[1]), 4)
               + Wrapped(SetText(SchemaTexts(attribs)[2]), 4) + Wrapped(SetText(SchemaTexts(attribs)[3]), 4)
               + [Newline]
  {
    var t := SchemaTexts(attribs);
    var p := prev + DocClose;
    assert t[..4] == t && t[..4][..3] == t[..3] && t[..3][..2] == t[..2] && t[..2][..1] == t[..1] && t[..1][..0] == [];
    assert SetWraps(p, t[..1]) == p + Wrapped(SetText(t[0]), 4);
    assert SetWraps(p, t[..2]) == SetWraps(p, t[..1]) + Wrapped(SetText(t[1]), 4);
    assert SetWraps(p, t[..3]) == SetWraps(p, t[..2]) + Wrapped(SetText(t[2]), 4);
    assert SetWraps(p, t) == SetWraps(p, t[..3]) + Wrapped(SetText(t[3]), 4);
  }

  /** The attributes heading of the docstring. */
  const AttributesHeading := "    Attributes (type name " + "(required): description:"

  /** `prev` with the lines `gen_single(co_name, co, out)` appends, and the
      exception that stops it: IndexError for an empty docstring,
      TypeError for an attribute type that cannot be rendered. */
  function CoBlock(prev: seq<string>, name: string, co: CoDef): Emitted {
    var ds := FullStop(co.docstring);
    if ds.Err? then Emitted(prev + CoHeader(name), Some(IndexError))
    else
      var docs := AttrDocs(prev + DocHead(name, ds.value), co.attribs);
      if docs.failure.Some? then docs
      else Emitted(CoTrailer(docs.lines, co.attribs), None)
  }

  /** The header, the docstring's sentence and the attributes heading. */
  function DocHead(name: string, ds: string): seq<string> {
    CoHeader(name) + Wrapped(ds, 4) + [Newline] + [AttributesHeading + Newline]
  }

  /** `gen_single(co_name, co, out)`. */
  method GenSingle(out: Out, name: string, co: CoDef) returns (failure: Option<Exc>)
    modifies out
    ensures out.lines == CoBlock(old(out.lines), name, co).lines
    ensures failure == CoBlock(old(out.lines), name, co).failure
  {
    WriteHeader(out, name);
    var ds := FullStop(co.docstring);
    if ds.Err? {
      return Some(IndexError);
    }
    out.Wrap(ds.value, 4);
    out.Blank();
    out.Text(AttributesHeading);
    assert out.lines == old(out.lines) + DocHead(name, ds.value);
    failure := WriteAttrDocs(out, co.attribs);
    if failure.Some? {
      return;
    }
    WriteTrailer(out, co.attribs);
  }

  /** The first four lines of `gen_single`. */
  method WriteHeader(out: Out, name: string)
    modifies out
    ensures out.lines == old(out.lines) + CoHeader(name)
  {
    out.LineWith("class ", name, "(ComplexObject):");
    out.Blank();
    out.LineWith("    \"\"\"FCO REST API ", name, " complex object.");
    out.Blank();
  }

  /** The loop of `gen_single` over the attributes. */
  method WriteAttrDocs(out: Out, attribs: seq<(string, Attr)>) returns (failure: Option<Exc>)
    modifies out
    ensures out.lines == AttrDocs(old(out.lines), attribs).lines
    ensures failure == AttrDocs(old(out.lines), attribs).failure
  {
    var i := 0;
    while i < |attribs|
      invariant 0 <= i <= |attribs|
      invariant AttrDocs(old(out.lines), attribs[..i]).failure.None?
      invariant out.lines == AttrDocs(old(out.lines), attribs[..i]).lines
    {
      var n := attribs[i].0;
      var a := attribs[i].1;
      assert attribs[..i + 1][..i] == attribs[..i];
      var st := SourceType(a.typ, "", "enums.");
      if st.Err? {
        SourceTypeFails(a.typ, "", "enums.");
        AttrDocsSticky(old(out.lines), attribs, i + 1);
        return Some(st.error);
      }
      out.Wrap(AttrLine(st.value, n, a), 8);
      out.Wrap(a.desc, 12);
      i := i + 1;
    }
    assert attribs[..|attribs|] == attribs;
    return None;
  }

  /** The end of `gen_single`: the docstring's end and the schema
      constants. */
  method WriteTrailer(out: Out, attribs: seq<(string, Attr)>)
    requires forall i :: 0 <= i < |attribs| ==> SourceType(attribs[i].1.typ, "", "enums.").Ok?
    modifies out
    ensures out.lines == CoTrailer(old(out.lines), attribs)
  {
    out.Text("    \"\"\"");
    out.Blank();
    assert out.lines == old(out.lines) + DocClose;
    var texts := SchemaTexts(attribs);
    out.SetWrap(texts[0], 4);
    out.SetWrap(texts[1], 4);
    out.SetWrap(texts[2], 4);
    out.SetWrap(texts[3], 4);
    TrailerUnrolled(old(out.lines), attribs);
    out.Blank();
  }

  // ----------------------------------------------------- relative blocks

  /** The attribute lines do not depend on what came before. */
  lemma {:induction false} AttrDocsRelative(prev: seq<string>, start: seq<string>, attribs: seq<(string, Attr)>)
    ensures AttrDocs(prev + start, attribs) == Emitted(prev + AttrDocs(start, attribs).lines, AttrDocs(start, attribs).failure)
    decreases |attribs|
  {
    if |attribs| > 0 {
      AttrDocsRelative(prev, start, attribs[..|attribs| - 1]);
    }
  }

  /** The schema constants do not depend on what came before. */
  lemma {:induction false} SetWrapsRelative(prev: seq<string>, start: seq<string>, texts: seq<string>)
    ensures SetWraps(prev + start, texts) == prev + SetWraps(start, texts)
    decreases |texts|
  {
    if |texts| > 0 {
      SetWrapsRelative(prev, start, texts[..|texts| - 1]);
    }
  }

  /** The trailer does not depend on what came before. */
  lemma CoTrailerRelative(prev: seq<string>, start: seq<string>, attribs: seq<(string, Attr)>)
    requires forall i :: 0 <= i < |attribs| ==> SourceType(attribs[i].1.typ, "", "enums.").Ok?
    ensures CoTrailer(prev + start, attribs) == prev + CoTrailer(start, attribs)
  {
    SetWrapsRelative(prev, start + DocClose, SchemaTexts(attribs));
    assert prev + start + DocClose == prev + (start + DocClose);
  }

  /** The trailer only extends what was there. */
  lemma CoTrailerExtends(prev: seq<string>, attribs: seq<(string, Attr)>)
    requires forall i :: 0 <= i < |attribs| ==> SourceType(attribs[i].1.typ, "", "enums.").Ok?
    ensures |CoTrailer(prev, attribs)| >= |prev| && CoTrailer(prev, attribs)[..|prev|] == prev
  {
    SetWrapsRelative(prev, DocClose, SchemaTexts(attribs));
  }

  /** A block does not depend on what came before: `gen_single` only
      appends. */
  lemma CoBlockRelative(prev: seq<string>, name: string, co: CoDef)
    ensures CoBlock(prev, name, co) == Emitted(prev + CoBlock([], name, co).lines, CoBlock([], name, co).failure)
  {
    var ds := FullStop(co.docstring);
    if ds.Err? {
      assert [] + CoHeader(name) == CoHeader(name);
    } else {
      var d := DocHead(name, ds.value);
      assert [] + d == d;
      AttrDocsRelative(prev, d, co.attribs);
      var docs0 := AttrDocs(d, co.attribs);
      if docs0.failure.None? {
        CoTrailerRelative(prev, docs0.lines, co.attribs);
      }
    }
  }

  // ---------------------------------------------------- gen_single lemmas

  /** The attribute lines only ever extend what was there. */
  lemma {:induction false} AttrDocsExtends(prev: seq<string>, attribs: seq<(string, Attr)>)
    ensures |AttrDocs(prev, attribs).lines| >= |prev|
    ensures AttrDocs(prev, attribs).lines[..|prev|] == prev
    decreases |attribs|
  {
    if |attribs| > 0 {
      AttrDocsExtends(prev, attribs[..|attribs| - 1]);
    }
  }

  /** A block begins with the class line and, when the docstring is not
      empty, its sentence ends in a full stop four lines further on. */
  lemma CoBlockStart(prev: seq<string>, name: string, co: CoDef)
    ensures var b := CoBlock(prev, name, co).lines;
            |b| >= |prev| + 4 && b[..|prev|] == prev
            && b[|prev|] == "class " + name + "(ComplexObject):" + Newline
    ensures |co.docstring| == 0 <==> CoBlock(prev, name, co).failure == Some(IndexError)
    ensures |co.docstring| > 0 ==>
              var ds := FullStop(co.docstring).value;
              var b := CoBlock(prev, name, co).lines;
              |b| > |prev| + 4 && b[|prev| + 4] == Spaces(4) + ds + Newline && ds[|ds| - 1] == '.'
  {
    CoBlockRelative(prev, name, co);
    CoBlockFirst(name, co);
    var b0 := CoBlock([], name, co).lines;
    assert (prev + b0)[..|prev|] == prev;
    assert (prev + b0)[|prev|] == b0[0];
    if |co.docstring| > 0 {
      assert (prev + b0)[|prev| + 4] == b0[4];
    }
  }

  /** The block on its own starts with the class line and, four lines on,
      the docstring's sentence. */
  lemma CoBlockFirst(name: string, co: CoDef)
    ensures var b := CoBlock([], name, co).lines;
            |b| >= 4 && b[0] == "class " + name + "(ComplexObject):" + Newline
    ensures |co.docstring| == 0 <==> CoBlock([], name, co).failure == Some(IndexError)
    ensures |co.docstring| > 0 ==>
              var ds := FullStop(co.docstring).value;
              var b := CoBlock([], name, co).lines;
              |b| > 4 && b[4] == Spaces(4) + ds + Newline && ds[|ds| - 1] == '.'
  {
    if |co.docstring| == 0 {
      assert CoBlock([], name, co).lines == [] + CoHeader(name);
    } else {
      var ds := FullStop(co.docstring).value;
      var d := DocHead(name, ds);
      DocHeadLines(name, ds);
      AttrDocsExtends([] + d, co.attribs);
      var docs := AttrDocs([] + d, co.attribs);
      assert docs.lines[0] == d[0] && docs.lines[4] == d[4];
      if docs.failure.None? {
        CoTrailerExtends(docs.lines, co.attribs);
        var b := CoTrailer(docs.lines, co.attribs);
        assert b[0] == docs.lines[0] && b[4] == docs.lines[4];
      } else {
        assert docs.failure == Some(TypeError);
      }
    }
  }

  /** The class line opens the head and the docstring's sentence is its
      fifth line. */
  lemma DocHeadLines(name: string, ds: string)
    requires |ds| > 0 && ds[|ds| - 1] == '.'
    ensures |DocHead(name, ds)| > 4
    ensures DocHead(name, ds)[0] == "class " + name + "(ComplexObject):" + Newline
    ensures DocHead(name, ds)[4] == Spaces(4) + ds + Newline
  {
    EndsNonBlank(ds);
    assert Wrapped(ds, 4) == [Spaces(4) + ds + Newline];
  }

  /** The schema constants as the generated module shows them: the three
      name sets as brace displays (`set()` when empty) and the type
      dict, each on its own line, then a blank line. */
  lemma CoTrailerTail(prev: seq<string>, attribs: seq<(string, Attr)>)
    requires forall i :: 0 <= i < |attribs| ==> SourceType(attribs[i].1.typ, "", "enums.").Ok?
    requires forall i :: 0 <= i < |attribs| ==> NoBrackets(attribs[i].0)
    requires forall i :: 0 <= i < |attribs| ==> NoBrackets(SourceType(attribs[i].1.typ, "", "enums.").value)
    ensures CoTrailer(prev, attribs)
            == prev + DocClose
               + [Spaces(4) + "ALL_ATTRIBS = " + ShownSet(Names(attribs)) + Newline]
               + [Spaces(4) + "REQUIRED_ATTRIBS = " + ShownSet(RequiredNames(attribs)) + Newline]
               + [Spaces(4) + "OPTIONAL_ATTRIBS = " + ShownSet(OptionalNames(attribs)) + Newline]
               + [Spaces(4) + "TYPES = " + DictDisplay(TypePairs(attribs, "")) + Newline]
               + [Newline]
  {
    TrailerUnrolled(prev, attribs);
    SchemaShown(attribs);
  }

  /** Each schema constant fits on the one line `set_wrap` writes. */
  lemma SchemaShown(attribs: seq<(string, Attr)>)
    requires forall i :: 0 <= i < |attribs| ==> SourceType(attribs[i].1.typ, "", "enums.").Ok?
    requires forall i :: 0 <= i < |attribs| ==> NoBrackets(attribs[i].0)
    requires forall i :: 0 <= i < |attribs| ==> NoBrackets(SourceType(attribs[i].1.typ, "", "enums.").value)
    ensures Wrapped(SetText(SchemaTexts(attribs)[0]), 4) == [Spaces(4) + "ALL_ATTRIBS = " + ShownSet(Names(attribs)) + Newline]
    ensures Wrapped(SetText(SchemaTexts(attribs)[1]), 4) == [Spaces(4) + "REQUIRED_ATTRIBS = " + ShownSet(RequiredNames(attribs)) + Newline]
    ensures Wrapped(SetText(SchemaTexts(attribs)[2]), 4) == [Spaces(4) + "OPTIONAL_ATTRIBS = " + ShownSet(OptionalNames(attribs)) + Newline]
    ensures Wrapped(SetText(SchemaTexts(attribs)[3]), 4) == [Spaces(4) + "TYPES = " + DictDisplay(TypePairs(attribs, "")) + Newline]
  {
    NamesNoBrackets(attribs);
    AllShown(attribs);
    RequiredShown(attribs);
    OptionalShown(attribs);
    TypesShown(attribs);
  }

  /** The line of `ALL_ATTRIBS`. */
  lemma AllShown(attribs: seq<(string, Attr)>)
    requires forall i :: 0 <= i < |attribs| ==> SourceType(attribs[i].1.typ, "", "enums.").Ok?
    requires forall i :: 0 <= i < |attribs| ==> NoBrackets(attribs[i].0)
    requires forall i :: 0 <= i < |Names(attribs)| ==> NoBrackets(Names(attribs)[i])
    ensures Wrapped(SetText(SchemaTexts(attribs)[0]), 4) == [Spaces(4) + "ALL_ATTRIBS = " + ShownSet(Names(attribs)) + Newline]
  {
    assert NoBrackets("ALL_ATTRIBS = ");
    ShownLine("ALL_ATTRIBS = ", Names(attribs));
  }

  /** The line of `REQUIRED_ATTRIBS`. */
  lemma RequiredShown(attribs: seq<(string, Attr)>)
    requires forall i :: 0 <= i < |attribs| ==> SourceType(attribs[i].1.typ, "", "enums.").Ok?
    requires forall i :: 0 <= i < |attribs| ==> NoBrackets(attribs[i].0)
    requires forall i :: 0 <= i < |RequiredNames(attribs)| ==> NoBrackets(RequiredNames(attribs)[i])
    ensures Wrapped(SetText(SchemaTexts(attribs)[1]), 4) == [Spaces(4) + "REQUIRED_ATTRIBS = " + ShownSet(RequiredNames(attribs)) + Newline]
  {
    assert NoBrackets("REQUIRED_ATTRIBS = ");
    ShownLine("REQUIRED_ATTRIBS = ", RequiredNames(attribs));
  }

  /** The line of `OPTIONAL_ATTRIBS`. */
  lemma OptionalShown(attribs: seq<(string, Attr)>)
    requires forall i :: 0 <= i < |attribs| ==> SourceType(attribs[i].1.typ, "", "enums.").Ok?
    requires forall i :: 0 <= i < |attribs| ==> NoBrackets(attribs[i].0)
    requires forall i :: 0 <= i < |OptionalNames(attribs)| ==> NoBrackets(OptionalNames(attribs)[i])
    ensures Wrapped(SetText(SchemaTexts(attribs)[2]), 4) == [Spaces(4) + "OPTIONAL_ATTRIBS = " + ShownSet(OptionalNames(attribs)) + Newline]
  {
    assert NoBrackets("OPTIONAL_ATTRIBS = ");
    ShownLine("OPTIONAL_ATTRIBS = ", OptionalNames(attribs));
  }

  /** The line of `TYPES`. */
  lemma TypesShown(attribs: seq<(string, Attr)>)
    requires forall i :: 0 <= i < |attribs| ==> SourceType(attribs[i].1.typ, "", "enums.").Ok?
    requires forall i :: 0 <= i < |attribs| ==> NoBrackets(attribs[i].0)
    requires forall i :: 0 <= i < |attribs| ==> NoBrackets(SourceType(attribs[i].1.typ, "", "enums.").value)
    ensures Wrapped(SetText(SchemaTexts(attribs)[3]), 4) == [Spaces(4) + "TYPES = " + DictDisplay(TypePairs(attribs, "")) + Newline]
  {
    assert NoBrackets("TYPES = ");
    DictLine("TYPES = ", TypePairs(attribs, ""));
  }

  /** A block that completes ends with the schema constants. */
  lemma CoBlockSchema(prev: seq<string>, name: string, co: CoDef)
    requires CoBlock(prev, name, co).failure.None?
    requires forall i :: 0 <= i < |co.attribs| ==> NoBrackets(co.attribs[i].0)
    requires forall i :: 0 <= i < |co.attribs| ==> NoBrackets(SourceType(co.attribs[i].1.typ, "", "enums.").value)
    ensures var b := CoBlock(prev, name, co).lines;
            |b| >= 5
            && b[|b| - 5] == Spaces(4) + "ALL_ATTRIBS = " + ShownSet(Names(co.attribs)) + Newline
            && b[|b| - 4] == Spaces(4) + "REQUIRED_ATTRIBS = " + ShownSet(RequiredNames(co.attribs)) + Newline
            && b[|b| - 3] == Spaces(4) + "OPTIONAL_ATTRIBS = " + ShownSet(OptionalNames(co.attribs)) + Newline
            && b[|b| - 2] == Spaces(4) + "TYPES = " + DictDisplay(TypePairs(co.attribs, "")) + Newline
            && b[|b| - 1] == Newline
  {
    var ds := FullStop(co.docstring).value;
    var docs := AttrDocs(prev + DocHead(name, ds), co.attribs);
    assert docs.failure.None?;
    CoTrailerTail(docs.lines, co.attribs);
    var b := CoBlock(prev, name, co).lines;
    assert b == CoTrailer(docs.lines, co.attribs);
    assert |b| == |docs.lines| + 7;
  }

  // ---------------------------------------------------- topological_sort

  /** What `topological_sort` returns: the layers, the names that are
      depended on but not defined, and what is left when no further
      layer can be formed, each name to its unresolved dependencies. */
  datatype Sorted = Sorted(layers: seq<set<string>>, undefined: set<string>, cyclic: map<string, set<string>>)

  /** Every name some entry depends on. */
  function AllDeps(data: map<string, set<string>>): set<string> {
    set k, x | k in data && x in data[k] :: x
  }

  /** The names depended on but not defined. */
  function Undefined(data: map<string, set<string>>): set<string> {
    AllDeps(data) - data.Keys
  }

  /** The data with an empty entry for every undefined name. */
  function Extended(data: map<string, set<string>>): (ext: map<string, set<string>>)
    ensures ext.Keys == data.Keys + Undefined(data)
    ensures forall k :: k in data ==> ext[k] == data[k]
    ensures forall k :: k in Undefined(data) ==> ext[k] == {}
  {
    map k | k in data.Keys + Undefined(data) :: if k in data then data[k] else {}
  }

  /** Every dependency of an extended entry is itself an entry. */
  lemma ExtendedClosed(data: map<string, set<string>>)
    ensures forall k, x :: k in Extended(data) && x in Extended(data)[k] ==> x in Extended(data)
  {
    var ext := Extended(data);
    forall k, x | k in ext && x in ext[k]
      ensures x in ext
    {
      assert k in data && x in data[k];
      assert x in AllDeps(data);
    }
  }

  /** The union of the layers. */
  function Flatten(ls: seq<set<string>>): set<string>
    decreases |ls|
  {
    if |ls| == 0 then {} else Flatten(ls[..|ls| - 1]) + ls[|ls| - 1]
  }

  /** A layer put last adds its names to the union. */
  lemma FlattenAppend(ls: seq<set<string>>, layer: set<string>)
    ensures Flatten(ls + [layer]) == Flatten(ls) + layer
  {
    assert (ls + [layer])[..|ls|] == ls;
  }

  /** One more layer adds its names to the union. */
  lemma FlattenStep(ls: seq<set<string>>, k: nat)
    requires k < |ls|
    ensures Flatten(ls[..k + 1]) == Flatten(ls[..k]) + ls[k]
  {
    assert ls[..k + 1][..k] == ls[..k];
  }

  /** A name is in the union exactly when some layer holds it. */
  lemma {:induction false} FlattenMember(ls: seq<set<string>>, x: string)
    ensures x in Flatten(ls) <==> exists i :: 0 <= i < |ls| && x in ls[i]
    decreases |ls|
  {
    if |ls| > 0 {
      var front := ls[..|ls| - 1];
      FlattenMember(front, x);
      if x in Flatten(front) {
        var i :| 0 <= i < |front| && x in front[i];
        assert ls[i] == front[i];
      }
      if exists i :: 0 <= i < |ls| && x in ls[i] {
        var i :| 0 <= i < |ls| && x in ls[i];
        if i < |front| {
          assert front[i] == ls[i];
        }
      }
    }
  }

  /** The layering `topological_sort` produces from the extended data:
      every layer is a non-empty set of entries, none repeats an earlier
      one, each entry's dependencies lie in earlier layers, and each
      layer takes every entry whose dependencies are all in earlier
      layers. */
  predicate Layered(ext: map<string, set<string>>, layers: seq<set<string>>) {
    && (forall i :: 0 <= i < |layers| ==> layers[i] != {} && layers[i] <= ext.Keys)
    && (forall i :: 0 <= i < |layers| ==> layers[i] !! Flatten(layers[..i]))
    && (forall i, x :: 0 <= i < |layers| && x in layers[i] ==> ext[x] <= Flatten(layers[..i]))
    && (forall i, x :: 0 <= i < |layers| && x in ext && x !in Flatten(layers[..i]) && ext[x] <= Flatten(layers[..i]) ==> x in layers[i])
  }

  /** What `topological_sort(data)` returns for non-empty data: the
      undefined names, a layering of the extended data, and the entries
      never layered, each with its dependencies that were never layered,
      none of them empty. */
  predicate SortedOf(data: map<string, set<string>>, s: Sorted) {
    var ext := Extended(data);
    && s.undefined == Undefined(data)
    && Layered(ext, s.layers)
    && s.cyclic.Keys == ext.Keys - Flatten(s.layers)
    && (forall x :: x in s.cyclic ==> s.cyclic[x] == ext[x] - Flatten(s.layers) && s.cyclic[x] != {})
  }

  /** `topological_sort(data)`: TypeError when `data` is empty (the union
      of no sets); otherwise the layers, the undefined names and what is
      left over, each leftover entry with its dependencies that were never
      layered, none of them empty. */
  method TopologicalSort(data: map<string, set<string>>) returns (r: Result<Sorted>)
    ensures r.Err? <==> |data| == 0
    ensures r.Err? ==> r.error == TypeError
    ensures r.Ok? ==> SortedOf(data, r.value)
  {
    if |data| == 0 {
      return Err(TypeError);
    }
    var undefined := Undefined(data);
    var ext := Extended(data);
    var cur := ext;
    var layers: seq<set<string>> := [];
    while |cur| > 0
      invariant cur.Keys == ext.Keys - Flatten(layers)
      invariant forall x :: x in cur ==> cur[x] == ext[x] - Flatten(layers)
      invariant Layered(ext, layers)
      decreases |cur|
    {
      var layer := set x | x in cur && cur[x] == {};
      if layer == {} {
        break;
      }
      var next := map x | x in cur && x !in layer :: cur[x] - layer;
      NextLayer(ext, layers, cur, layer, next);
      layers := layers + [layer];
      cur := next;
    }
    return Ok(Sorted(layers, undefined, cur));
  }

  /** A proper subset is smaller. */
  lemma LessKeys(a: set<string>, b: set<string>)
    requires a < b
    ensures |a| < |b|
  {
    var x :| x in b && x !in a;
    var c := b - a;
    assert b == a + c && a * c == {};
    assert x in c;
  }

  /** One round of `topological_sort`: the ready entries form the next
      layer, and the remaining entries lose that layer from their
      dependencies. */
  lemma NextLayer(ext: map<string, set<string>>, layers: seq<set<string>>, cur: map<string, set<string>>,
                  layer: set<string>, next: map<string, set<string>>)
    requires Layered(ext, layers)
    requires cur.Keys == ext.Keys - Flatten(layers)
    requires forall x :: x in cur ==> cur[x] == ext[x] - Flatten(layers)
    requires layer == set x | x in cur && cur[x] == {}
    requires layer != {}
    requires next == map x | x in cur && x !in layer :: cur[x] - layer
    ensures Layered(ext, layers + [layer])
    ensures next.Keys == ext.Keys - Flatten(layers + [layer])
    ensures forall x :: x in next ==> next[x] == ext[x] - Flatten(layers + [layer])
    ensures |next| < |cur|
  {
    ReadyLayer(ext, layers, cur, layer);
    LayerStep(ext, layers, layer);
    NextEntries(ext, layers, cur, layer, next);
  }

  /** The entries left after a round, and their remaining dependencies. */
  lemma NextEntries(ext: map<string, set<string>>, layers: seq<set<string>>, cur: map<string, set<string>>,
                    layer: set<string>, next: map<string, set<string>>)
    requires cur.Keys == ext.Keys - Flatten(layers)
    requires forall x :: x in cur ==> cur[x] == ext[x] - Flatten(layers)
    requires layer <= cur.Keys && layer != {}
    requires next == map x | x in cur && x !in layer :: cur[x] - layer
    ensures next.Keys == ext.Keys - Flatten(layers + [layer])
    ensures forall x :: x in next ==> next[x] == ext[x] - Flatten(layers + [layer])
    ensures |next| < |cur|
  {
    FlattenAppend(layers, layer);
    assert next.Keys == cur.Keys - layer by {
      forall x
        ensures x in next.Keys <==> x in cur.Keys - layer
      {
      }
    }
    var y :| y in layer;
    assert y in cur.Keys && y !in next.Keys;
    LessKeys(next.Keys, cur.Keys);
  }

  /** The entries with no dependency left are those not yet layered
      whose dependencies all are. */
  lemma ReadyLayer(ext: map<string, set<string>>, layers: seq<set<string>>, cur: map<string, set<string>>,
                   layer: set<string>)
    requires cur.Keys == ext.Keys - Flatten(layers)
    requires forall x :: x in cur ==> cur[x] == ext[x] - Flatten(layers)
    requires layer == set x | x in cur && cur[x] == {}
    ensures forall x :: x in layer <==> x in ext && x !in Flatten(layers) && ext[x] <= Flatten(layers)
  {
    forall x
      ensures x in layer <==> x in ext && x !in Flatten(layers) && ext[x] <= Flatten(layers)
    {
      if x in cur {
        if ext[x] <= Flatten(layers) {
          assert cur[x] == {};
        } else {
          var y :| y in ext[x] && y !in Flatten(layers);
          assert y in cur[x];
        }
      }
    }
  }

  /** Appending the layer of every ready entry keeps the layering. */
  lemma LayerStep(ext: map<string, set<string>>, layers: seq<set<string>>, layer: set<string>)
    requires Layered(ext, layers)
    requires layer != {}
    requires forall x :: x in layer <==> x in ext && x !in Flatten(layers) && ext[x] <= Flatten(layers)
    ensures Layered(ext, layers + [layer])
  {
    var ls := layers + [layer];
    var n := |layers|;
    assert ls[..n] == layers;
    forall i | 0 <= i < n
      ensures ls[..i] == layers[..i] && ls[i] == layers[i]
    {
    }
    forall i | 0 <= i < |ls|
      ensures ls[i] != {} && ls[i] <= ext.Keys
      ensures ls[i] !! Flatten(ls[..i])
    {
    }
    forall i, x | 0 <= i < |ls| && x in ls[i]
      ensures ext[x] <= Flatten(ls[..i])
    {
    }
    forall i, x | 0 <= i < |ls| && x in ext && x !in Flatten(ls[..i]) && ext[x] <= Flatten(ls[..i])
      ensures x in ls[i]
    {
    }
  }

  /** The undefined names all make up part of the first layer, so
      `gen` can write them first. */
  lemma UndefinedFirst(data: map<string, set<string>>, s: Sorted)
    requires SortedOf(data, s)
    ensures forall x :: x in s.undefined ==> |s.layers| > 0 && x in s.layers[0]
  {
    var ext := Extended(data);
    forall x | x in s.undefined
      ensures |s.layers| > 0 && x in s.layers[0]
    {
      assert x in ext && ext[x] == {};
      assert x !in s.cyclic;
      assert |s.layers| > 0;
      assert s.layers[..0] == [];
    }
  }

  /** Every leftover entry still depends on another leftover entry: the
      leftovers are the entries on or behind a dependency cycle. */
  lemma StuckDependsOnStuck(data: map<string, set<string>>, s: Sorted)
    requires SortedOf(data, s)
    ensures forall x :: x in s.cyclic ==> s.cyclic[x] <= s.cyclic.Keys
    ensures forall x :: x in s.cyclic ==> exists y :: y in s.cyclic[x] && y in s.cyclic
  {
    ExtendedClosed(data);
    forall x | x in s.cyclic
      ensures s.cyclic[x] <= s.cyclic.Keys
    {
    }
    forall x | x in s.cyclic
      ensures exists y :: y in s.cyclic[x] && y in s.cyclic
    {
      var y :| y in s.cyclic[x];
    }
  }

  /** The entry after position `j` of a cycle, wrapping round. */
  function Next(c: seq<string>, j: nat): string
    requires j < |c|
  {
    if j + 1 < |c| then c[j + 1] else c[0]
  }

  /** `c` is a dependency cycle: each entry depends on the next and the
      last on the first. */
  predicate Cycle(ext: map<string, set<string>>, c: seq<string>) {
    |c| > 0 && forall j :: 0 <= j < |c| ==> c[j] in ext && Next(c, j) in ext[c[j]]
  }

  /** No entry of a dependency cycle is ever layered: each would need the
      next in an earlier layer. */
  lemma {:induction false} CycleNeverLayered(ext: map<string, set<string>>, layers: seq<set<string>>, c: seq<string>, n: nat)
    requires Layered(ext, layers) && Cycle(ext, c) && n <= |layers|
    ensures forall j :: 0 <= j < |c| ==> c[j] !in Flatten(layers[..n])
    decreases n
  {
    if n > 0 {
      CycleNeverLayered(ext, layers, c, n - 1);
      assert layers[..n][..n - 1] == layers[..n - 1];
      assert Flatten(layers[..n]) == Flatten(layers[..n - 1]) + layers[n - 1];
      forall j | 0 <= j < |c|
        ensures c[j] !in layers[n - 1]
      {
        var k := if j + 1 < |c| then j + 1 else 0;
        assert Next(c, j) == c[k];
        assert c[k] in ext[c[j]] && c[k] !in Flatten(layers[..n - 1]);
      }
    }
  }

  /** The entries of a dependency cycle end among the leftovers. */
  lemma CycleLeftOver(data: map<string, set<string>>, s: Sorted, c: seq<string>)
    requires SortedOf(data, s) && Cycle(Extended(data), c)
    ensures forall j :: 0 <= j < |c| ==> c[j] in s.cyclic
  {
    CycleNeverLayered(Extended(data), s.layers, c, |s.layers|);
    assert s.layers[..|s.layers|] == s.layers;
  }

  // ------------------------------------------------------------------ gen

  /** The placeholder `gen` writes for a complex object that is named but
      not defined. */
  function UndefinedDef(name: string): CoDef {
    CoDef("Undefined Complex Object " + name + ".", [])
  }

  /** The definition `gen` writes for a name: its own, or the placeholder
      when it has none. */
  function DefOf(coDict: map<string, CoDef>, name: string): CoDef {
    if name in coDict then coDict[name] else UndefinedDef(name)
  }

  /** The block `gen_single` writes for a name on its own, from its own
      definition or the placeholder. */
  function BlockOf(coDict: map<string, CoDef>, name: string): Emitted {
    CoBlock([], name, DefOf(coDict, name))
  }

  /** `chunks` are the blocks of `names`, in order. */
  predicate ChunksOf(coDict: map<string, CoDef>, names: seq<string>, chunks: seq<Emitted>) {
    && |chunks| == |names|
    && forall i {:trigger BlockOf(coDict, names[i])} :: 0 <= i < |names| ==> chunks[i] == BlockOf(coDict, names[i])
  }

  /** The block of one more name. */
  lemma ChunksAppend(coDict: map<string, CoDef>, names: seq<string>, chunks: seq<Emitted>, name: string, c: Emitted)
    requires ChunksOf(coDict, names, chunks) && c == BlockOf(coDict, name)
    ensures ChunksOf(coDict, names + [name], chunks + [c])
  {
    var ns, cs := names + [name], chunks + [c];
    forall i | 0 <= i < |ns|
      ensures cs[i] == BlockOf(coDict, ns[i])
    {
      if i < |names| {
        assert cs[i] == chunks[i] && ns[i] == names[i];
      }
    }
  }

  /** The blocks of the first `n` names. */
  lemma ChunksPrefix(coDict: map<string, CoDef>, names: seq<string>, chunks: seq<Emitted>, n: nat)
    requires ChunksOf(coDict, names, chunks) && n <= |names|
    ensures ChunksOf(coDict, names[..n], chunks[..n])
  {
    var ns, cs := names[..n], chunks[..n];
    forall i | 0 <= i < n
      ensures cs[i] == BlockOf(coDict, ns[i])
    {
      assert cs[i] == chunks[i] && ns[i] == names[i];
    }
  }

  /** The end of `gen`: the leftover entries on a `CYCLIC FIX` line, or
      else the last blank line dropped (IndexError when there is none).
      `render` stands for `str` of the leftover dict. */
  function Closing(lines: seq<string>, cyclic: map<string, set<string>>, render: map<string, set<string>> -> string): Emitted {
    if |cyclic| > 0 then Emitted(lines + ["CYCLIC FIX: " + render(cyclic) + Newline], None)
    else Popped(lines)
  }

  /** Everything `gen` appends after sorting, given the blocks of the names
      in the order it writes them. */
  function GenLines(prev: seq<string>, chunks: seq<Emitted>,
                    cyclic: map<string, set<string>>, render: map<string, set<string>> -> string): Emitted
  {
    var b := Assemble(prev, chunks);
    if b.failure.Some? then b else Closing(b.lines, cyclic, render)
  }

  /** The members of a sequence. */
  function Elems(xs: seq<string>): set<string> {
    set x | x in xs
  }

  /** `gen` can sort: the dependency map builds and is not empty. */
  predicate Sortable(coDict: map<string, CoDef>) {
    |coDict| > 0 && forall c :: c in coDict ==> Resolvable(coDict[c].attribs)
  }

  /** A placeholder block never raises. */
  lemma UndefinedBlockOk(name: string)
    ensures CoBlock([], name, UndefinedDef(name)).failure.None?
  {
    var ds := UndefinedDef(name).docstring;
    assert ds[|ds| - 1] == '.';
    assert FullStop(ds) == Ok(ds);
  }

  /** One block and its blank line. */
  method WriteBlock(out: Out, coDict: map<string, CoDef>, name: string,
                    ghost base: seq<string>, ghost done: seq<string>, ghost chunks: seq<Emitted>)
    returns (failure: Option<Exc>, ghost chunks': seq<Emitted>)
    requires ChunksOf(coDict, done, chunks)
    requires Assemble(base, chunks).failure.None? && out.lines == Assemble(base, chunks).lines
    modifies out
    ensures ChunksOf(coDict, done + [name], chunks')
    ensures out.lines == Assemble(base, chunks').lines && failure == Assemble(base, chunks').failure
    ensures name !in coDict ==> failure.None?
  {
    ghost var before := out.lines;
    failure := GenSingle(out, name, DefOf(coDict, name));
    CoBlockRelative(before, name, DefOf(coDict, name));
    ghost var c := BlockOf(coDict, name);
    ChunksAppend(coDict, done, chunks, name, c);
    AssembleStep(base, chunks, c);
    chunks' := chunks + [c];
    if name !in coDict {
      UndefinedBlockOk(name);
    }
    if failure.None? {
      out.Blank();
    }
  }

  /** `gen(enums, handler, out)`: the undefined complex objects first,
      then the layers in order, each block followed by a blank line, and
      last the leftover entries or the dropped blank line. A complex
      object is written only after every complex object it depends on;
      `chunks` are the blocks of the names written. */
  method Gen(out: Out, coDict: map<string, CoDef>, render: map<string, set<string>> -> string)
    returns (failure: Option<Exc>, emitted: seq<string>, cyclic: map<string, set<string>>, ghost chunks: seq<Emitted>)
    modifies out
    ensures !Sortable(coDict) ==> failure == Some(TypeError) && emitted == [] && out.lines == old(out.lines)
    ensures Sortable(coDict) ==>
              var ext := Extended(Relationships(coDict));
              && Distinct(emitted) && Elems(emitted) <= ext.Keys
              && DepsFirst(ext, emitted)
              && |emitted| >= |Undefined(Relationships(coDict))|
              && Elems(emitted[..|Undefined(Relationships(coDict))|]) == Undefined(Relationships(coDict))
              && cyclic.Keys <= ext.Keys
              && (forall x :: x in cyclic ==> cyclic[x] != {} && cyclic[x] == ext[x] * cyclic.Keys)
              && ChunksOf(coDict, emitted, chunks)
              && (Assemble(old(out.lines), chunks).failure.None? ==> Elems(emitted) == ext.Keys - cyclic.Keys)
              && out.lines == GenLines(old(out.lines), chunks, cyclic, render).lines
              && failure == GenLines(old(out.lines), chunks, cyclic, render).failure
  {
    emitted, cyclic, chunks := [], map[], [];
    var rel := CreateRelationships(coDict);
    if rel.Err? {
      return Some(TypeError), [], map[], [];
    }
    var sorted := TopologicalSort(rel.value);
    if sorted.Err? {
      return Some(TypeError), [], map[], [];
    }
    var s := sorted.value;
    cyclic := s.cyclic;
    CyclicClosed(rel.value, s);
    UndefinedFirst(rel.value, s);
    SortedPlan(rel.value, s);
    LayersCover(rel.value, s);
    failure, emitted, chunks := WriteSorted(out, coDict, Extended(rel.value), s.layers, s.undefined, cyclic, render);
  }

  /** `gen` after sorting: the undefined names, the layers, and the
      closing line. */
  method WriteSorted(out: Out, coDict: map<string, CoDef>, ghost ext: map<string, set<string>>,
                     layers: seq<set<string>>, undefined: set<string>,
                     cyclic: map<string, set<string>>, render: map<string, set<string>> -> string)
    returns (failure: Option<Exc>, emitted: seq<string>, ghost chunks: seq<Emitted>)
    requires LayerPlan(ext, layers, undefined)
    requires forall x :: x in undefined ==> x !in coDict && x in ext && ext[x] == {}
    modifies out
    ensures Distinct(emitted) && DepsFirst(ext, emitted) && Elems(emitted) <= ext.Keys
    ensures |emitted| >= |undefined| && Elems(emitted[..|undefined|]) == undefined
    ensures ChunksOf(coDict, emitted, chunks)
    ensures Assemble(old(out.lines), chunks).failure.None? ==> Elems(emitted) == undefined + Flatten(layers)
    ensures out.lines == GenLines(old(out.lines), chunks, cyclic, render).lines
    ensures failure == GenLines(old(out.lines), chunks, cyclic, render).failure
  {
    ghost var base := out.lines;
    var names;
    names, chunks := WriteUndefined(out, coDict, undefined, base);
    UndefinedDepsFirst(ext, undefined, names);
    failure, emitted, chunks := WriteLayers(out, coDict, ext, layers, undefined, base, names, chunks);
    if failure.Some? {
      return;
    }
    if |cyclic| > 0 {
      CyclicFixLine(render(cyclic));
      var _ := out.Line("CYCLIC FIX: {}", [render(cyclic)]);
    } else {
      var p := out.Pop();
      if p.Err? {
        failure := Some(IndexError);
      }
    }
  }

  /** The `CYCLIC FIX` line shows its argument after the label. */
  lemma CyclicFixLine(x: string)
    ensures FormatArgs("CYCLIC FIX: {}", [x]) == Ok("CYCLIC FIX: " + x)
  {
    FormatOne("CYCLIC FIX: ", "", x);
    assert "CYCLIC FIX: {}" == "CYCLIC FIX: " + "{}" + "";
    assert "CYCLIC FIX: " + x + "" == "CYCLIC FIX: " + x;
  }

  /** The leftover entries keep exactly their leftover dependencies. */
  lemma CyclicClosed(data: map<string, set<string>>, s: Sorted)
    requires SortedOf(data, s)
    ensures s.cyclic.Keys <= Extended(data).Keys
    ensures forall x :: x in s.cyclic ==> s.cyclic[x] != {} && s.cyclic[x] == Extended(data)[x] * s.cyclic.Keys
  {
    ExtendedClosed(data);
  }

  /** The first loop of `gen`: a placeholder block for every undefined
      name. */
  method WriteUndefined(out: Out, coDict: map<string, CoDef>, undefined: set<string>, ghost base: seq<string>)
    returns (names: seq<string>, ghost chunks: seq<Emitted>)
    requires forall x :: x in undefined ==> x !in coDict
    requires out.lines == base
    modifies out
    ensures Distinct(names) && Elems(names) == undefined && |names| == |undefined|
    ensures ChunksOf(coDict, names, chunks)
    ensures Assemble(base, chunks).failure.None? && out.lines == Assemble(base, chunks).lines
  {
    var order := SetOrder(undefined);
    names, chunks := [], [];
    var i := 0;
    while i < |order|
      invariant 0 <= i <= |order|
      invariant names == order[..i]
      invariant ChunksOf(coDict, names, chunks)
      invariant Assemble(base, chunks).failure.None? && out.lines == Assemble(base, chunks).lines
    {
      var failure;
      failure, chunks := WriteBlock(out, coDict, order[i], base, names, chunks);
      assert order[..i + 1] == names + [order[i]];
      names := names + [order[i]];
      i := i + 1;
    }
    assert order[..|order|] == order;
    assert forall x :: x in names <==> x in undefined;
  }

  /** Every name comes after all the names it depends on. */
  predicate DepsFirst(ext: map<string, set<string>>, names: seq<string>) {
    forall q :: 0 <= q < |names| ==> names[q] in ext && ext[names[q]] <= Elems(names[..q])
  }

  /** A name whose dependencies are all written may be written next. */
  lemma DepsFirstAppend(ext: map<string, set<string>>, names: seq<string>, x: string)
    requires DepsFirst(ext, names) && x in ext && ext[x] <= Elems(names)
    ensures DepsFirst(ext, names + [x])
  {
    var e := names + [x];
    assert e[..|names|] == names;
    forall q | 0 <= q < |names|
      ensures e[..q] == names[..q]
    {
    }
  }

  /** Appending a new name keeps the names distinct. */
  lemma DistinctAppend(names: seq<string>, x: string)
    requires Distinct(names) && x !in Elems(names)
    ensures Distinct(names + [x]) && Elems(names + [x]) == Elems(names) + {x}
  {
  }

  /** The names of `xs` not in `drop`, in order. */
  function Without(xs: seq<string>, drop: set<string>): (r: seq<string>)
    decreases |xs|
  {
    if |xs| == 0 then []
    else Without(xs[..|xs| - 1], drop) + (if xs[|xs| - 1] in drop then [] else [xs[|xs| - 1]])
  }

  /** Dropping names keeps the others, each once. */
  lemma {:induction false} WithoutMembers(xs: seq<string>, drop: set<string>)
    requires Distinct(xs)
    ensures Distinct(Without(xs, drop))
    ensures Elems(Without(xs, drop)) == Elems(xs) - drop
    decreases |xs|
  {
    if |xs| > 0 {
      var front := xs[..|xs| - 1];
      var last := xs[|xs| - 1];
      assert xs == front + [last];
      assert Distinct(front);
      WithoutMembers(front, drop);
      assert last !in Elems(front);
      assert Elems(xs) == Elems(front) + {last};
      var w := Without(front, drop);
      if last !in drop {
        assert Without(xs, drop) == w + [last];
        DistinctAppend(w, last);
      } else {
        assert Without(xs, drop) == w;
      }
    }
  }

  /** A prefix of names written dependencies first is written
      dependencies first too, and stays distinct. */
  lemma PrefixKeeps(ext: map<string, set<string>>, xs: seq<string>, n: nat)
    requires n <= |xs| && DepsFirst(ext, xs) && Distinct(xs)
    ensures DepsFirst(ext, xs[..n]) && Distinct(xs[..n])
  {
    var ys := xs[..n];
    forall q | 0 <= q < n
      ensures ys[q] in ext && ext[ys[q]] <= Elems(ys[..q])
    {
      assert ys[..q] == xs[..q] && ys[q] == xs[q];
    }
    forall p, q | 0 <= p < q < n
      ensures ys[p] != ys[q]
    {
      assert ys[p] == xs[p] && ys[q] == xs[q];
    }
  }

  /** The names of a layer not yet written, after those written before:
      all distinct, dependencies first, and now covering the layer. */
  lemma LayerTodo(ext: map<string, set<string>>, done: seq<string>, layer: set<string>, undefined: set<string>,
                  order: seq<string>)
    requires Distinct(done) && DepsFirst(ext, done)
    requires layer <= ext.Keys && forall x :: x in layer ==> ext[x] <= Elems(done)
    requires layer * Elems(done) <= undefined && undefined <= Elems(done)
    requires Distinct(order) && Elems(order) == layer
    ensures Distinct(done + Without(order, undefined)) && DepsFirst(ext, done + Without(order, undefined))
    ensures Elems(done + Without(order, undefined)) == Elems(done) + layer
  {
    var todo := Without(order, undefined);
    WithoutMembers(order, undefined);
    var e := done + todo;
    assert Elems(e) == Elems(done) + Elems(todo);
    forall q | 0 <= q < |e|
      ensures e[q] in ext && ext[e[q]] <= Elems(e[..q])
    {
      if q < |done| {
        assert e[..q] == done[..q];
      } else {
        assert e[q] == todo[q - |done|] && e[q] in Elems(todo);
        assert done <= e[..q];
        assert Elems(done) <= Elems(e[..q]);
      }
    }
    forall p, q | 0 <= p < q < |e|
      ensures e[p] != e[q]
    {
      if q >= |done| {
        assert e[q] in Elems(todo);
        if p < |done| {
          assert e[p] in Elems(done);
        } else {
          assert e[p] == todo[p - |done|];
        }
      }
    }
  }

  /** `gen_single` and a blank line for each name in turn, up to the
      first that raises; `count` names were written. */
  method WriteNames(out: Out, coDict: map<string, CoDef>, todo: seq<string>,
                    ghost base: seq<string>, ghost done: seq<string>, ghost chunks: seq<Emitted>)
    returns (failure: Option<Exc>, count: nat, ghost chunks': seq<Emitted>)
    requires ChunksOf(coDict, done, chunks)
    requires Assemble(base, chunks).failure.None? && out.lines == Assemble(base, chunks).lines
    modifies out
    ensures count <= |todo| && ChunksOf(coDict, done + todo[..count], chunks')
    ensures out.lines == Assemble(base, chunks').lines && failure == Assemble(base, chunks').failure
    ensures failure.None? ==> count == |todo|
  {
    failure, count, chunks' := None, 0, chunks;
    assert done + todo[..0] == done;
    while count < |todo|
      invariant count <= |todo| && failure.None?
      invariant ChunksOf(coDict, done + todo[..count], chunks')
      invariant Assemble(base, chunks').failure.None? && out.lines == Assemble(base, chunks').lines
    {
      ghost var written := done + todo[..count];
      failure, chunks' := WriteBlock(out, coDict, todo[count], base, written, chunks');
      assert done + todo[..count + 1] == written + [todo[count]];
      count := count + 1;
      if failure.Some? {
        return;
      }
    }
  }

  /** One pass of the second loop of `gen`: the names of a layer not
      written before, each after all it depends on. */
  method WriteLayer(out: Out, coDict: map<string, CoDef>, ghost ext: map<string, set<string>>,
                    layer: set<string>, undefined: set<string>, emitted: seq<string>,
                    ghost base: seq<string>, ghost chunks: seq<Emitted>)
    returns (failure: Option<Exc>, emitted': seq<string>, ghost chunks': seq<Emitted>)
    requires Distinct(emitted) && DepsFirst(ext, emitted)
    requires layer <= ext.Keys && forall x :: x in layer ==> ext[x] <= Elems(emitted)
    requires layer * Elems(emitted) <= undefined && undefined <= Elems(emitted)
    requires ChunksOf(coDict, emitted, chunks)
    requires Assemble(base, chunks).failure.None? && out.lines == Assemble(base, chunks).lines
    modifies out
    ensures |emitted'| >= |emitted| && emitted'[..|emitted|] == emitted
    ensures Distinct(emitted') && DepsFirst(ext, emitted') && Elems(emitted') <= Elems(emitted) + layer
    ensures ChunksOf(coDict, emitted', chunks')
    ensures out.lines == Assemble(base, chunks').lines && failure == Assemble(base, chunks').failure
    ensures failure.None? ==> Elems(emitted') == Elems(emitted) + layer
  {
    var order := SetOrder(layer);
    var todo := Without(order, undefined);
    LayerTodo(ext, emitted, layer, undefined, order);
    var count;
    failure, count, chunks' := WriteNames(out, coDict, todo, base, emitted, chunks);
    LayerPrefix(ext, emitted, todo, count, layer);
    emitted' := emitted + todo[..count];
  }

  /** The names of a layer written up to the first failure. */
  lemma LayerPrefix(ext: map<string, set<string>>, emitted: seq<string>, todo: seq<string>, count: nat,
                    layer: set<string>)
    requires count <= |todo| && Distinct(emitted + todo) && DepsFirst(ext, emitted + todo)
    requires Elems(emitted + todo) == Elems(emitted) + layer
    ensures var e := emitted + todo[..count];
            && |e| >= |emitted| && e[..|emitted|] == emitted
            && Distinct(e) && DepsFirst(ext, e) && Elems(e) <= Elems(emitted) + layer
    ensures count == |todo| ==> Elems(emitted + todo[..count]) == Elems(emitted) + layer
  {
    PrefixKeeps(ext, emitted + todo, |emitted| + count);
    var e := emitted + todo[..count];
    assert (emitted + todo)[..|emitted| + count] == e;
    assert e[..|emitted|] == emitted;
    assert Elems(e) <= Elems(emitted + todo);
    if count == |todo| {
      assert todo[..count] == todo;
    }
  }

  /** Each layer holds entries that depend only on the undefined names
      and earlier layers, and shares with those only undefined names. */
  predicate LayerPlan(ext: map<string, set<string>>, layers: seq<set<string>>, undefined: set<string>) {
    forall k :: 0 <= k < |layers| ==>
      && layers[k] <= ext.Keys
      && (forall x :: x in layers[k] ==> ext[x] <= undefined + Flatten(layers[..k]))
      && layers[k] * (undefined + Flatten(layers[..k])) <= undefined
  }

  /** The layers of a sort, with the undefined names in the first one,
      follow the plan. */
  lemma SortedPlan(data: map<string, set<string>>, s: Sorted)
    requires SortedOf(data, s)
    requires forall x :: x in s.undefined ==> |s.layers| > 0 && x in s.layers[0]
    ensures LayerPlan(Extended(data), s.layers, s.undefined)
  {
    forall k | 0 <= k < |s.layers|
      ensures s.layers[k] <= Extended(data).Keys
      ensures forall x :: x in s.layers[k] ==> Extended(data)[x] <= s.undefined + Flatten(s.layers[..k])
      ensures s.layers[k] * (s.undefined + Flatten(s.layers[..k])) <= s.undefined
    {
      LayerReady(data, s, k);
    }
  }

  /** Layer `k` is ready once the undefined names and the earlier layers
      are written. */
  lemma PlanAt(ext: map<string, set<string>>, layers: seq<set<string>>, undefined: set<string>, k: nat,
               emitted: seq<string>)
    requires LayerPlan(ext, layers, undefined) && k < |layers|
    requires Elems(emitted) == undefined + Flatten(layers[..k])
    ensures layers[k] <= ext.Keys && forall x :: x in layers[k] ==> ext[x] <= Elems(emitted)
    ensures layers[k] * Elems(emitted) <= undefined && undefined <= Elems(emitted)
  {
  }

  /** What a pass over layer `k` leaves written. */
  lemma LayersStep(ext: map<string, set<string>>, layers: seq<set<string>>, undefined: set<string>, k: nat,
                   before: seq<string>, after: seq<string>)
    requires k < |layers| && layers[k] <= ext.Keys
    requires Elems(before) <= ext.Keys && Elems(before) == undefined + Flatten(layers[..k])
    requires Elems(after) == Elems(before) + layers[k]
    ensures Elems(after) <= ext.Keys && Elems(after) == undefined + Flatten(layers[..k + 1])
  {
    FlattenStep(layers, k);
  }

  /** Extending keeps the names written first. */
  lemma LayersPrefix(names: seq<string>, before: seq<string>, after: seq<string>)
    requires |before| >= |names| && before[..|names|] == names
    requires |after| >= |before| && after[..|before|] == before
    ensures |after| >= |names| && after[..|names|] == names
  {
    assert after[..|names|] == after[..|before|][..|names|];
  }

  /** The second loop of `gen`: the layers in order, leaving out the
      undefined names written before. */
  method WriteLayers(out: Out, coDict: map<string, CoDef>, ghost ext: map<string, set<string>>,
                     layers: seq<set<string>>, undefined: set<string>,
                     ghost base: seq<string>, names: seq<string>, ghost chunks0: seq<Emitted>)
    returns (failure: Option<Exc>, emitted: seq<string>, ghost chunks: seq<Emitted>)
    requires LayerPlan(ext, layers, undefined)
    requires Distinct(names) && Elems(names) == undefined && undefined <= ext.Keys && DepsFirst(ext, names)
    requires ChunksOf(coDict, names, chunks0)
    requires Assemble(base, chunks0).failure.None? && out.lines == Assemble(base, chunks0).lines
    modifies out
    ensures |emitted| >= |names| && emitted[..|names|] == names
    ensures Distinct(emitted) && DepsFirst(ext, emitted) && Elems(emitted) <= ext.Keys
    ensures ChunksOf(coDict, emitted, chunks)
    ensures out.lines == Assemble(base, chunks).lines && failure == Assemble(base, chunks).failure
    ensures failure.None? ==> Elems(emitted) == undefined + Flatten(layers)
  {
    emitted, failure, chunks := names, None, chunks0;
    var k := 0;
    assert layers[..0] == [];
    while k < |layers|
      invariant 0 <= k <= |layers| && failure.None?
      invariant |emitted| >= |names| && emitted[..|names|] == names
      invariant Distinct(emitted) && DepsFirst(ext, emitted) && Elems(emitted) <= ext.Keys
      invariant Elems(emitted) == undefined + Flatten(layers[..k])
      invariant ChunksOf(coDict, emitted, chunks)
      invariant Assemble(base, chunks).failure.None? && out.lines == Assemble(base, chunks).lines
    {
      ghost var before := emitted;
      PlanAt(ext, layers, undefined, k, emitted);
      failure, emitted, chunks := WriteLayer(out, coDict, ext, layers[k], undefined, emitted, base, chunks);
      LayersPrefix(names, before, emitted);
      if failure.Some? {
        return;
      }
      LayersStep(ext, layers, undefined, k, before, emitted);
      k := k + 1;
    }
    assert layers[..|layers|] == layers;
  }

  /** The undefined names and the layers are every entry but the leftover
      ones. */
  lemma LayersCover(data: map<string, set<string>>, s: Sorted)
    requires SortedOf(data, s)
    requires forall x :: x in s.undefined ==> |s.layers| > 0 && x in s.layers[0]
    ensures s.undefined + Flatten(s.layers) == Extended(data).Keys - s.cyclic.Keys
  {
    forall x | x in s.undefined
      ensures x in Flatten(s.layers)
    {
      FlattenMember(s.layers, x);
    }
    LayersInside(Extended(data), s.layers);
  }

  /** Layer `k` depends only on earlier layers and shares with them only
      the undefined names, which sit in the first layer. */
  lemma LayerReady(data: map<string, set<string>>, s: Sorted, k: nat)
    requires SortedOf(data, s) && k < |s.layers|
    requires forall x :: x in s.undefined ==> |s.layers| > 0 && x in s.layers[0]
    ensures s.layers[k] <= Extended(data).Keys
    ensures forall x :: x in s.layers[k] ==> Extended(data)[x] <= s.undefined + Flatten(s.layers[..k])
    ensures s.layers[k] * (s.undefined + Flatten(s.layers[..k])) <= s.undefined
  {
  }

  /** The undefined names depend on nothing. */
  lemma UndefinedDepsFirst(ext: map<string, set<string>>, undefined: set<string>, names: seq<string>)
    requires forall x :: x in undefined ==> x in ext && ext[x] == {}
    requires Elems(names) == undefined
    ensures DepsFirst(ext, names)
  {
    forall q | 0 <= q < |names|
      ensures names[q] in ext && ext[names[q]] <= Elems(names[..q])
    {
      assert names[q] in Elems(names);
    }
  }

  /** The layers hold entries only. */
  lemma LayersInside(ext: map<string, set<string>>, layers: seq<set<string>>)
    requires Layered(ext, layers)
    ensures Flatten(layers) <= ext.Keys
  {
    forall x | x in Flatten(layers)
      ensures x in ext
    {
      FlattenMember(layers, x);
    }
  }
}
