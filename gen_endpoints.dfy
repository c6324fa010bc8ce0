/** The endpoint generator (generators/endpoints.py): one class definition
    per scraped endpoint, with a docstring listing its remarks, parameters,
    data and return values, its URL templates, and the schema constants of
    its parameters, data and return values. */
module GenEndpoints {
  import opened PyBase
  import opened GenCommon

  /** One entry of a scraped return table: its type and its description
      (`{'type': …, 'desc': …}`). */
  datatype Ret = Ret(typ: TypeDesc, desc: string)

  /** A scraped endpoint. The optional parts are keys the scraped dict may
      lack; the tables keep their scraped order, and `definition` holds
      the (verb, URL template) pairs. */
  datatype EndpointDef = EndpointDef(
    docstring: string,
    remarks: Option<string>,
    parameters: Option<seq<(string, Attr)>>,
    data: Option<seq<(string, Attr)>>,
    returned: Option<seq<(string, Ret)>>,
    definition: seq<(string, string)>)

  // ------------------------------------------------------------- the head

  /** The class name: the endpoint name with its first letter upper-cased. */
  function ClassName(name: string): (r: string)
    requires |name| > 0
    ensures |r| == |name| && r[0] == UpperChar(name[0]) && r[1..] == name[1..]
  {
    [UpperChar(name[0])] + name[1..]
  }

  /** The class line, a blank line, the docstring's first line and a
      blank line. */
  function EpHeader(name: string): seq<string>
    requires |name| > 0
  {
    ["class " + ClassName(name) + "(Endpoint):" + Newline] + [Newline]
    + ["    \"\"\"FCO REST API " + name + " endpoint." + Newline] + [Newline]
  }

  /** The remarks heading. */
  const RemarksHeading := "    Remarks:"

  /** The remarks, when the endpoint has them: a heading, the text and a
      blank line. */
  function RemarksLines(remarks: Option<string>): seq<string> {
    if remarks.None? then [] else [RemarksHeading + Newline] + Wrapped(remarks.value, 4) + [Newline]
  }

  /** The header, the docstring's sentence, a blank line and the remarks. */
  function EpHead(name: string, ds: string, remarks: Option<string>): seq<string>
    requires |name| > 0
  {
    EpHeader(name) + Wrapped(ds, 4) + [Newline] + RemarksLines(remarks)
  }

  /** The class line as `line` fills it: the upper-cased first letter and
      the rest of the name between the template's texts. */
  lemma ClassLine(name: string)
    requires |name| > 0
    ensures "class " + [UpperChar(name[0])] + "" + name[1..] + "(Endpoint):" + Newline
            == "class " + ClassName(name) + "(Endpoint):" + Newline
  {
    assert "class " + [UpperChar(name[0])] + "" + name[1..] == "class " + ClassName(name);
  }

  // ------------------------------------------------------ the docstring tables

  /** One part after another: the second is written only when the first
      did not raise. */
  function Then(a: Emitted, b: Emitted): Emitted {
    if a.failure.Some? then a else Emitted(a.lines + b.lines, b.failure)
  }
  /** Every type of a parameter or data table can be rendered. */
  predicate TableRenders(table: seq<(string, Attr)>) {
    forall i :: 0 <= i < |table| ==> SourceType(table[i].1.typ, "cobjects.", "enums.").Ok?
  }

  /** Every type of a return table can be rendered. */
  predicate ReturnsRender(table: seq<(string, Ret)>) {
    forall i :: 0 <= i < |table| ==> SourceType(table[i].1.typ, "cobjects.", "enums.").Ok?
  }

  /** The docstring lines of one entry of a parameter or data table: its
      type, name and flag at indent 8 and its description at indent 12,
      or TypeError when its type cannot be rendered. */
  function EntryDoc(n: string, a: Attr): (r: Emitted)
    ensures r.failure.Some? ==> r == Emitted([], Some(TypeError))
    ensures r.failure.None? <==> SourceType(a.typ, "cobjects.", "enums.").Ok?
  {
    var st := SourceType(a.typ, "cobjects.", "enums.");
    SourceTypeFails(a.typ, "cobjects.", "enums.");
    if st.Err? then Emitted([], Some(st.error))
    else Emitted(Wrapped(AttrLine(st.value, n, a), 8) + Wrapped(a.desc, 12), None)
  }

  /** The docstring lines of a parameter or data table, in order, up to
      the first type that cannot be rendered. */
  function EntryDocs(table: seq<(string, Attr)>): (r: Emitted)
    ensures r.failure.Some? ==> r.failure == Some(TypeError)
    ensures r.failure.None? <==> TableRenders(table)
    decreases |table|
  {
    if |table| == 0 then Emitted([], None)
    else Then(EntryDocs(table[..|table| - 1]), EntryDoc(table[|table| - 1].0, table[|table| - 1].1))
  }

  /** `'{} {}:'.format(type, name)`: the docstring line of a return value. */
  function ReturnLine(st: string, n: string): string {
    st + " " + n + ":"
  }

  /** The docstring lines of one return value. */
  function ReturnDoc(n: string, v: Ret): (r: Emitted)
    ensures r.failure.Some? ==> r == Emitted([], Some(TypeError))
    ensures r.failure.None? <==> SourceType(v.typ, "cobjects.", "enums.").Ok?
  {
    var st := SourceType(v.typ, "cobjects.", "enums.");
    SourceTypeFails(v.typ, "cobjects.", "enums.");
    if st.Err? then Emitted([], Some(st.error))
    else Emitted(Wrapped(ReturnLine(st.value, n), 8) + Wrapped(v.desc, 12), None)
  }

  /** The docstring lines of a return table, in order, up to the first
      type that cannot be rendered. */
  function ReturnDocs(table: seq<(string, Ret)>): (r: Emitted)
    ensures r.failure.Some? ==> r.failure == Some(TypeError)
    ensures r.failure.None? <==> ReturnsRender(table)
    decreases |table|
  {
    if |table| == 0 then Emitted([], None)
    else Then(ReturnDocs(table[..|table| - 1]), ReturnDoc(table[|table| - 1].0, table[|table| - 1].1))
  }

  /** Once an entry fails, later entries add nothing. */
  lemma {:induction false} EntryDocsSticky(table: seq<(string, Attr)>, i: nat)
    requires i <= |table| && EntryDocs(table[..i]).failure.Some?
    ensures EntryDocs(table) == EntryDocs(table[..i])
    decreases |table| - i
  {
    if i == |table| {
      assert table[..i] == table;
    } else {
      assert table[..|table| - 1][..i] == table[..i];
      EntryDocsSticky(table[..|table| - 1], i);
    }
  }

  /** Once a return entry fails, later entries add nothing. */
  lemma {:induction false} ReturnDocsSticky(table: seq<(string, Ret)>, i: nat)
    requires i <= |table| && ReturnDocs(table[..i]).failure.Some?
    ensures ReturnDocs(table) == ReturnDocs(table[..i])
    decreases |table| - i
  {
    if i == |table| {
      assert table[..i] == table;
    } else {
      assert table[..|table| - 1][..i] == table[..i];
      ReturnDocsSticky(table[..|table| - 1], i);
    }
  }

  /** No line is an empty line. */
  predicate NoBlankLine(lines: seq<string>) {
    forall i :: 0 <= i < |lines| ==> lines[i] != Newline
  }

  /** What `wrap` writes is never an empty line. */
  lemma WrappedNoBlank(text: string, indent: nat)
    ensures NoBlankLine(Wrapped(text, indent))
  {
    if NonBlank(text) {
      var i :| 0 <= i < |text| && !IsSpace(text[i]);
      assert |Spaces(indent) + text + Newline| > |Newline|;
    }
  }

  /** The entries of a table hold no empty line. */
  lemma {:induction false} EntryDocsNoBlank(table: seq<(string, Attr)>)
    ensures NoBlankLine(EntryDocs(table).lines)
    decreases |table|
  {
    if |table| > 0 {
      var (n, a) := table[|table| - 1];
      EntryDocsNoBlank(table[..|table| - 1]);
      var st := SourceType(a.typ, "cobjects.", "enums.");
      if st.Ok? {
        WrappedNoBlank(AttrLine(st.value, n, a), 8);
        WrappedNoBlank(a.desc, 12);
      }
    }
  }

  /** The entries of a return table hold no empty line. */
  lemma {:induction false} ReturnDocsNoBlank(table: seq<(string, Ret)>)
    ensures NoBlankLine(ReturnDocs(table).lines)
    decreases |table|
  {
    if |table| > 0 {
      var (n, v) := table[|table| - 1];
      ReturnDocsNoBlank(table[..|table| - 1]);
      var st := SourceType(v.typ, "cobjects.", "enums.");
      if st.Ok? {
        WrappedNoBlank(ReturnLine(st.value, n), 8);
        WrappedNoBlank(v.desc, 12);
      }
    }
  }

  /** The entry line of a parameter or data table ends in a colon. */
  lemma EntryLineShape(st: string, n: string, a: Attr)
    ensures Wrapped(AttrLine(st, n, a), 8) == [Spaces(8) + AttrLine(st, n, a) + Newline]
  {
    var t := AttrLine(st, n, a);
    assert t[|t| - 1] == ':';
    EndsNonBlank(t);
  }

  // ------------------------------------------------------ docstring sections

  /** The section headings. */
  const ParamsHeading := "    Parameters (type name " + "(required): description):"
  const DataHeading := "    Data (type name " + "(required): description):"
  const ReturnsHeading := "    Returns (type name" + ": description):"

  /** The headings hold no braces, so `line` writes them as they are. */
  lemma HeadingsPlain()
    ensures '{' !in RemarksHeading && '{' !in ParamsHeading && '{' !in DataHeading && '{' !in ReturnsHeading
  {
  }

  /** A blank line when an earlier section was written. */
  function Gap(earlier: bool): seq<string> {
    if earlier then [Newline] else []
  }

  /** Lines in front of what a loop emitted. */
  function Headed(pre: seq<string>, e: Emitted): Emitted {
    Emitted(pre + e.lines, e.failure)
  }

  /** The parameters section, when the endpoint has parameters. */
  function ParamsDoc(e: EndpointDef): Emitted {
    if e.parameters.None? then Emitted([], None)
    else Headed([ParamsHeading + Newline], EntryDocs(e.parameters.value))
  }

  /** The data section, after a blank line when parameters were listed. */
  function DataDoc(e: EndpointDef): Emitted {
    if e.data.None? then Emitted([], None)
    else Headed(Gap(e.parameters.Some?) + [DataHeading + Newline], EntryDocs(e.data.value))
  }

  /** The returns section, after a blank line when parameters or data
      were listed. */
  function ReturnsDoc(e: EndpointDef): Emitted {
    if e.returned.None? then Emitted([], None)
    else Headed(Gap(e.parameters.Some? || e.data.Some?) + [ReturnsHeading + Newline], ReturnDocs(e.returned.value))
  }

  /** Every table the endpoint has can be rendered. */
  predicate Renders(e: EndpointDef) {
    && (e.parameters.Some? ==> TableRenders(e.parameters.value))
    && (e.data.Some? ==> TableRenders(e.data.value))
    && (e.returned.Some? ==> ReturnsRender(e.returned.value))
  }

  /** The three sections of the docstring, in order, up to the first type
      that cannot be rendered. */
  function DocSections(e: EndpointDef): Emitted {
    Then(ParamsDoc(e), Then(DataDoc(e), ReturnsDoc(e)))
  }

  /** The docstring's sections fail exactly when some table holds a type
      that cannot be rendered, and then with TypeError. */
  lemma DocSectionsFail(e: EndpointDef)
    ensures DocSections(e).failure.None? <==> Renders(e)
    ensures DocSections(e).failure.Some? ==> DocSections(e).failure == Some(TypeError)
  {
  }

  /** The parameters section as a block of its own: the heading and the
      entries. */
  function ParamsGroup(table: seq<(string, Attr)>): seq<string> {
    [ParamsHeading + Newline] + EntryDocs(table).lines
  }

  /** The data section as a block of its own. */
  function DataGroup(table: seq<(string, Attr)>): seq<string> {
    [DataHeading + Newline] + EntryDocs(table).lines
  }

  /** The returns section as a block of its own. */
  function ReturnsGroup(table: seq<(string, Ret)>): seq<string> {
    [ReturnsHeading + Newline] + ReturnDocs(table).lines
  }

  /** A block when the part is present, and nothing otherwise. */
  function Present<T>(o: Option<T>, block: seq<string>): seq<seq<string>> {
    if o.Some? then [block] else []
  }

  /** The sections the endpoint has, in order. */
  function DocGroups(e: EndpointDef): seq<seq<string>> {
    Present(e.parameters, if e.parameters.Some? then ParamsGroup(e.parameters.value) else [])
    + Present(e.data, if e.data.Some? then DataGroup(e.data.value) else [])
    + Present(e.returned, if e.returned.Some? then ReturnsGroup(e.returned.value) else [])
  }

  /** Separated one, two or three blocks. */
  lemma SeparatedSmall(x: seq<string>, y: seq<string>, z: seq<string>)
    ensures Separated([x]) == x
    ensures Separated([x, y]) == x + [Newline] + y
    ensures Separated([x, y, z]) == x + [Newline] + y + [Newline] + z
  {
    assert [x, y][..1] == [x];
    assert [x, y, z][..2] == [x, y];
  }

  /** Up to three blocks, each present or not, one blank line apart. */
  lemma SeparatedPresent(o1: bool, x: seq<string>, o2: bool, y: seq<string>, o3: bool, z: seq<string>)
    ensures Separated((if o1 then [x] else []) + (if o2 then [y] else []) + (if o3 then [z] else []))
            == (if o1 then x else [])
               + (if o2 then Gap(o1) + y else [])
               + (if o3 then Gap(o1 || o2) + z else [])
  {
    SeparatedSmall(x, y, z);
    SeparatedSmall(x, z, z);
    SeparatedSmall(y, z, z);
    SeparatedSmall(z, z, z);
    if o1 && o2 && o3 {
      assert [x] + [y] + [z] == [x, y, z];
    } else if o1 && o2 {
      assert [x] + [y] + [] == [x, y];
    } else if o1 && o3 {
      assert [x] + [] + [z] == [x, z];
    } else if o2 && o3 {
      assert [] + [y] + [z] == [y, z];
    } else if o1 {
      assert [x] + [] + [] == [x];
    } else if o2 {
      assert [] + [y] + [] == [y];
    } else if o3 {
      assert [] + [] + [z] == [z];
    }
  }

  /** With every table renderable, the sections are written one after
      the other. */
  lemma DocSectionsJoined(e: EndpointDef)
    requires Renders(e)
    ensures DocSections(e).lines
            == (if e.parameters.Some? then ParamsGroup(e.parameters.value) else [])
               + (if e.data.Some? then Gap(e.parameters.Some?) + DataGroup(e.data.value) else [])
               + (if e.returned.Some? then Gap(e.parameters.Some? || e.data.Some?) + ReturnsGroup(e.returned.value) else [])
  {
    var pd, dd, rd := ParamsDoc(e), DataDoc(e), ReturnsDoc(e);
    var P := if e.parameters.Some? then ParamsGroup(e.parameters.value) else [];
    var D := if e.data.Some? then Gap(e.parameters.Some?) + DataGroup(e.data.value) else [];
    var R := if e.returned.Some? then Gap(e.parameters.Some? || e.data.Some?) + ReturnsGroup(e.returned.value) else [];
    assert pd.failure.None? && dd.failure.None?;
    if e.data.Some? {
      LinesGrouped(Gap(e.parameters.Some?), [DataHeading + Newline], EntryDocs(e.data.value).lines);
    }
    if e.returned.Some? {
      LinesGrouped(Gap(e.parameters.Some? || e.data.Some?), [ReturnsHeading + Newline], ReturnDocs(e.returned.value).lines);
    }
    assert pd.lines == P && dd.lines == D && rd.lines == R;
    ThenLines(dd, rd);
    ThenLines(pd, Then(dd, rd));
    LinesGrouped(P, D, R);
  }

  /** After a part that did not raise, the next part's lines follow. */
  lemma ThenLines(a: Emitted, b: Emitted)
    requires a.failure.None?
    ensures Then(a, b).lines == a.lines + b.lines && Then(a, b).failure == b.failure
  {
  }

  /** A heading line followed by lines with no empty line. */
  lemma HeadedNoBlank(h: string, lines: seq<string>)
    requires h != Newline && NoBlankLine(lines)
    ensures |[h] + lines| > 0 && NoBlankLine([h] + lines)
  {
    assert forall i :: 0 < i < |[h] + lines| ==> ([h] + lines)[i] == lines[i - 1];
  }

  /** Each section is a heading and entries with no empty line. */
  lemma DocGroupsNoBlank(e: EndpointDef)
    ensures forall i :: 0 <= i < |DocGroups(e)| ==> |DocGroups(e)[i]| > 0 && NoBlankLine(DocGroups(e)[i])
  {
    if e.parameters.Some? {
      EntryDocsNoBlank(e.parameters.value);
      HeadedNoBlank(ParamsHeading + Newline, EntryDocs(e.parameters.value).lines);
    }
    if e.data.Some? {
      EntryDocsNoBlank(e.data.value);
      HeadedNoBlank(DataHeading + Newline, EntryDocs(e.data.value).lines);
    }
    if e.returned.Some? {
      ReturnDocsNoBlank(e.returned.value);
      HeadedNoBlank(ReturnsHeading + Newline, ReturnDocs(e.returned.value).lines);
    }
  }

  /** The sections present are written one blank line apart, each a
      heading and its entries, with no empty line inside any of them: so
      two sections are always separated by exactly one blank line. */
  lemma DocSectionsSeparated(e: EndpointDef)
    requires Renders(e)
    ensures DocSections(e).lines == Separated(DocGroups(e))
    ensures forall i :: 0 <= i < |DocGroups(e)| ==> |DocGroups(e)[i]| > 0 && NoBlankLine(DocGroups(e)[i])
  {
    DocSectionsJoined(e);
    SeparatedPresent(e.parameters.Some?, if e.parameters.Some? then ParamsGroup(e.parameters.value) else [],
                     e.data.Some?, if e.data.Some? then DataGroup(e.data.value) else [],
                     e.returned.Some?, if e.returned.Some? then ReturnsGroup(e.returned.value) else []);
    DocGroupsNoBlank(e);
  }

  // -------------------------------------------------------------- ENDPOINTS

  /** `'(Verbs.{}, \'{}\')'.format(d[0], d[1])`. */
  function DefItem(verb: string, url: string): string {
    "(Verbs." + verb + ", '" + url + "')"
  }

  /** The item of each definition, in order. */
  function DefItems(defs: seq<(string, string)>): (r: seq<string>)
    ensures |r| == |defs| && forall i :: 0 <= i < |defs| ==> r[i] == DefItem(defs[i].0, defs[i].1)
  {
    seq(|defs|, i requires 0 <= i < |defs| => DefItem(defs[i].0, defs[i].1))
  }

  /** The `ENDPOINTS` constant. */
  function EndpointsText(defs: seq<(string, string)>): string {
    "ENDPOINTS = [" + Join(DefItems(defs), ", ") + "]"
  }

  /** The line of the `ENDPOINTS` constant and a blank line. */
  function EndpointsLines(defs: seq<(string, string)>): seq<string> {
    Wrapped(EndpointsText(defs), 4) + [Newline]
  }

  /** Each item is the template filled with the verb and the URL. */
  lemma DefItemFormat(verb: string, url: string)
    ensures FormatArgs("(Verbs.{}, '{}')", [verb, url]) == Ok(DefItem(verb, url))
  {
    FormatArgsTwo("(Verbs.", ", '", "')", verb, url);
    assert "(Verbs." + "{}" + ", '" + "{}" + "')" == "(Verbs.{}, '{}')";
  }

  /** The `ENDPOINTS` constant is one line at indent 4, listing the
      definitions in order, and a blank line follows it. */
  lemma EndpointsShown(defs: seq<(string, string)>)
    ensures EndpointsLines(defs) == [Spaces(4) + "ENDPOINTS = [" + Join(DefItems(defs), ", ") + "]" + Newline, Newline]
  {
    var j := Join(DefItems(defs), ", ");
    var t := EndpointsText(defs);
    assert t == "ENDPOINTS = [" + j + "]";
    assert NonBlank(t) by {
      assert t[0] == 'E' && !IsSpace(t[0]);
    }
    assert Spaces(4) + t + Newline == Spaces(4) + "ENDPOINTS = [" + j + "]" + Newline;
  }

  // ----------------------------------------------------- schema constants

  /** The four constants of a parameter or data table before `set_wrap`
      rewrites them: all names, the required ones, the optional ones, and
      each name with its rendered type. */
  function TableTexts(heads: (string, string, string, string), table: seq<(string, Attr)>): (r: seq<string>)
    requires TableRenders(table)
    ensures |r| == 4
  {
    [heads.0 + SetDisplay(Names(table)),
     heads.1 + SetDisplay(RequiredNames(table)),
     heads.2 + SetDisplay(OptionalNames(table)),
     heads.3 + DictDisplay(TypePairs(table, "cobjects."))]
  }

  /** The four constants of a table, as `set_wrap` writes them. */
  function TableConsts(heads: (string, string, string, string), table: seq<(string, Attr)>): seq<string>
    requires TableRenders(table)
  {
    var t := TableTexts(heads, table);
    Wrapped(SetText(t[0]), 4) + Wrapped(SetText(t[1]), 4) + Wrapped(SetText(t[2]), 4) + Wrapped(SetText(t[3]), 4)
  }

  const ParamsHeads := ("ALL_PARAMS = ", "REQUIRED_PARAMS = ", "OPTIONAL_PARAMS = ", "PARAMS_TYPES = ")
  const DataHeads := ("ALL_DATA = ", "REQUIRED_DATA = ", "OPTIONAL_DATA = ", "DATA_TYPES = ")

  /** Each name of a return table with its rendered type. */
  function ReturnPairs(table: seq<(string, Ret)>): (r: seq<(string, string)>)
    requires ReturnsRender(table)
    ensures |r| == |table|
    ensures forall i :: 0 <= i < |table| ==> r[i] == (table[i].0, SourceType(table[i].1.typ, "cobjects.", "enums.").value)
  {
    seq(|table|, i requires 0 <= i < |table| => (table[i].0, SourceType(table[i].1.typ, "cobjects.", "enums.").value))
  }

  /** The constants of the parameters, when the endpoint has parameters. */
  function ParamsConsts(e: EndpointDef): seq<string>
    requires Renders(e)
  {
    if e.parameters.None? then [] else TableConsts(ParamsHeads, e.parameters.value)
  }

  /** The constants of the data, after a blank line when parameters were
      listed. */
  function DataConsts(e: EndpointDef): seq<string>
    requires Renders(e)
  {
    if e.data.None? then [] else Gap(e.parameters.Some?) + TableConsts(DataHeads, e.data.value)
  }

  /** The `RETURNS` constant, after a blank line when parameters or data
      were listed. */
  function ReturnsConsts(e: EndpointDef): seq<string>
    requires Renders(e)
  {
    if e.returned.None? then []
    else Gap(e.parameters.Some? || e.data.Some?) + Wrapped(SetText("RETURNS = " + DictDisplay(ReturnPairs(e.returned.value))), 4)
  }

  /** The end of a block: the docstring's end, `ENDPOINTS`, the schema
      constants and a final blank line. */
  function EpTail(e: EndpointDef): seq<string>
    requires Renders(e)
  {
    DocClose + EndpointsLines(e.definition) + ParamsConsts(e) + DataConsts(e) + ReturnsConsts(e) + [Newline]
  }

  /** The four constants of a table, each on its own line: the names as
      shown sets and the types as a dict display. */
  lemma TableConstsShown(heads: (string, string, string, string), table: seq<(string, Attr)>)
    requires TableRenders(table)
    requires NoBrackets(heads.0) && NoBrackets(heads.1) && NoBrackets(heads.2) && NoBrackets(heads.3)
    requires forall i :: 0 <= i < |table| ==> NoBrackets(table[i].0)
    requires forall i :: 0 <= i < |table| ==> NoBrackets(SourceType(table[i].1.typ, "cobjects.", "enums.").value)
    ensures TableConsts(heads, table)
            == [Spaces(4) + heads.0 + ShownSet(Names(table)) + Newline,
                Spaces(4) + heads.1 + ShownSet(RequiredNames(table)) + Newline,
                Spaces(4) + heads.2 + ShownSet(OptionalNames(table)) + Newline,
                Spaces(4) + heads.3 + DictDisplay(TypePairs(table, "cobjects.")) + Newline]
  {
    var t := TableTexts(heads, table);
    NamesNoBrackets(table);
    ShownLine(heads.0, Names(table));
    ShownLine(heads.1, RequiredNames(table));
    ShownLine(heads.2, OptionalNames(table));
    DictLine(heads.3, TypePairs(table, "cobjects."));
    FourLines(Wrapped(SetText(t[0]), 4), Wrapped(SetText(t[1]), 4), Wrapped(SetText(t[2]), 4), Wrapped(SetText(t[3]), 4),
              Spaces(4) + heads.0 + ShownSet(Names(table)) + Newline,
              Spaces(4) + heads.1 + ShownSet(RequiredNames(table)) + Newline,
              Spaces(4) + heads.2 + ShownSet(OptionalNames(table)) + Newline,
              Spaces(4) + heads.3 + DictDisplay(TypePairs(table, "cobjects.")) + Newline);
  }

  /** Four one-line blocks, one after the other. */
  lemma FourLines(a: seq<string>, b: seq<string>, c: seq<string>, d: seq<string>, x: string, y: string, z: string, w: string)
    requires a == [x] && b == [y] && c == [z] && d == [w]
    ensures a + b + c + d == [x, y, z, w]
  {
  }

  /** The constant groups the endpoint has, in order. */
  function ConstGroups(e: EndpointDef): seq<seq<string>>
    requires Renders(e)
  {
    Present(e.parameters, if e.parameters.Some? then TableConsts(ParamsHeads, e.parameters.value) else [])
    + Present(e.data, if e.data.Some? then TableConsts(DataHeads, e.data.value) else [])
    + Present(e.returned, if e.returned.Some? then Wrapped(SetText("RETURNS = " + DictDisplay(ReturnPairs(e.returned.value))), 4) else [])
  }

  /** The constant groups are written one blank line apart, in the order
      of the docstring's sections. */
  lemma ConstsSeparated(e: EndpointDef)
    requires Renders(e)
    ensures ParamsConsts(e) + DataConsts(e) + ReturnsConsts(e) == Separated(ConstGroups(e))
  {
    SeparatedPresent(e.parameters.Some?, if e.parameters.Some? then TableConsts(ParamsHeads, e.parameters.value) else [],
                     e.data.Some?, if e.data.Some? then TableConsts(DataHeads, e.data.value) else [],
                     e.returned.Some?, if e.returned.Some? then Wrapped(SetText("RETURNS = " + DictDisplay(ReturnPairs(e.returned.value))), 4) else []);
  }

  // ------------------------------------------------------------ gen_single

  /** The lines `gen_single(endpoint_name, endpoint, out)` appends, and the
      exception that stops it: IndexError for an empty name before
      anything is written, IndexError for an empty docstring after the
      header, TypeError for a type that cannot be rendered. */
  function EpBlock(name: string, e: EndpointDef): Emitted {
    if |name| == 0 then Emitted([], Some(IndexError))
    else
      var ds := FullStop(e.docstring);
      if ds.Err? then Emitted(EpHeader(name), Some(IndexError))
      else
        var docs := DocSections(e);
        if !Renders(e) then Emitted(EpHead(name, ds.value, e.remarks) + docs.lines, Some(TypeError))
        else Emitted(EpHead(name, ds.value, e.remarks) + docs.lines + EpTail(e), None)
  }

  /** The head of a block: the class line with the name's first letter
      upper-cased, the docstring ending in a full stop as its fifth line,
      a blank line, then the remarks exactly when the endpoint has them. */
  lemma EpHeadLines(name: string, ds: string, remarks: Option<string>)
    requires |name| > 0 && |ds| > 0 && ds[|ds| - 1] == '.'
    ensures var h := EpHead(name, ds, remarks);
            && |h| >= 6 && h[..4] == EpHeader(name)
            && h[0] == "class " + [UpperChar(name[0])] + name[1..] + "(Endpoint):" + Newline
            && h[4] == Spaces(4) + ds + Newline && h[5] == Newline
            && (remarks.None? <==> |h| == 6)
            && (remarks.Some? ==> h[6] == RemarksHeading + Newline && h[|h| - 1] == Newline
                                  && h[7..|h| - 1] == Wrapped(remarks.value, 4))
  {
    EndsNonBlank(ds);
    assert Wrapped(ds, 4) == [Spaces(4) + ds + Newline];
    var h := EpHead(name, ds, remarks);
    assert h == EpHeader(name) + [Spaces(4) + ds + Newline] + [Newline] + RemarksLines(remarks);
    assert "class " + ClassName(name) + "(Endpoint):" + Newline
           == "class " + [UpperChar(name[0])] + name[1..] + "(Endpoint):" + Newline;
  }

  /** How a block begins and when it fails: nothing is written for an
      empty name; an empty docstring stops it after the header; a type
      that cannot be rendered stops it with TypeError; every block that
      gets past the name starts with the class line. */
  lemma EpBlockShape(name: string, e: EndpointDef)
    ensures |name| == 0 <==> EpBlock(name, e) == Emitted([], Some(IndexError))
    ensures |name| > 0 ==>
              var b := EpBlock(name, e).lines;
              |b| >= 4 && b[..4] == EpHeader(name)
    ensures EpBlock(name, e).failure == Some(IndexError) <==> |name| == 0 || |e.docstring| == 0
    ensures EpBlock(name, e).failure == Some(TypeError) <==> |name| > 0 && |e.docstring| > 0 && !Renders(e)
    ensures EpBlock(name, e).failure.None? <==> |name| > 0 && |e.docstring| > 0 && Renders(e)
  {
    if |name| > 0 {
      var b := EpBlock(name, e).lines;
      var ds := FullStop(e.docstring);
      if ds.Ok? {
        var h := EpHead(name, ds.value, e.remarks);
        var rest := if Renders(e) then DocSections(e).lines + EpTail(e) else DocSections(e).lines;
        if Renders(e) {
          LinesGrouped(h, DocSections(e).lines, EpTail(e));
        }
        assert b == h + rest;
        var more := Wrapped(ds.value, 4) + [Newline] + RemarksLines(e.remarks);
        LinesGroupedFour(EpHeader(name), Wrapped(ds.value, 4), [Newline], RemarksLines(e.remarks));
        LinesGrouped(EpHeader(name), more, rest);
        PrefixTaken(EpHeader(name), more + rest);
      }
    }
  }

  /** A block that succeeds is its head, its sections one blank line
      apart, the docstring's end, `ENDPOINTS`, the constant groups one
      blank line apart, and a blank line. */
  lemma EpBlockParts(name: string, e: EndpointDef)
    requires EpBlock(name, e).failure.None?
    ensures |name| > 0 && |e.docstring| > 0 && Renders(e)
    ensures EpBlock(name, e).lines
            == EpHead(name, FullStop(e.docstring).value, e.remarks) + Separated(DocGroups(e))
               + DocClose + EndpointsLines(e.definition) + Separated(ConstGroups(e)) + [Newline]
  {
    EpBlockShape(name, e);
    DocSectionsSeparated(e);
    ConstsSeparated(e);
    var h := EpHead(name, FullStop(e.docstring).value, e.remarks);
    var el := EndpointsLines(e.definition);
    var cs := ParamsConsts(e) + DataConsts(e) + ReturnsConsts(e);
    assert EpBlock(name, e).lines == h + DocSections(e).lines + EpTail(e);
    LinesGroupedFour(DocClose + el, ParamsConsts(e), DataConsts(e), ReturnsConsts(e));
    assert EpTail(e) == DocClose + el + cs + [Newline];
    LinesGroupedFive(h + DocSections(e).lines, DocClose, el, cs, [Newline]);
  }

  /** The header: the class line is filled from the upper-cased first
      letter and the rest of the name. */
  method WriteHeader(out: Out, name: string)
    requires |name| > 0
    modifies out
    ensures out.lines == old(out.lines) + EpHeader(name)
  {
    out.LineTwo("class ", [UpperChar(name[0])], "", name[1..], "(Endpoint):");
    ClassLine(name);
    out.Blank();
    out.LineWith("    \"\"\"FCO REST API ", name, " endpoint.");
    out.Blank();
  }

  /** The remarks, when the endpoint has them. */
  method WriteRemarks(out: Out, remarks: Option<string>)
    modifies out
    ensures out.lines == old(out.lines) + RemarksLines(remarks)
  {
    HeadingsPlain();
    if remarks.Some? {
      out.Text(RemarksHeading);
      out.Wrap(remarks.value, 4);
      out.Blank();
    }
  }

  /** One entry of a parameter or data table. */
  method WriteEntry(out: Out, n: string, a: Attr) returns (failure: Option<Exc>)
    modifies out
    ensures out.lines == old(out.lines) + EntryDoc(n, a).lines
    ensures failure == EntryDoc(n, a).failure
  {
    var st := SourceType(a.typ, "cobjects.", "enums.");
    if st.Err? {
      return Some(st.error);
    }
    out.Wrap(AttrLine(st.value, n, a), 8);
    out.Wrap(a.desc, 12);
    failure := None;
  }

  /** The table up to one more entry. */
  lemma EntryDocsStep(table: seq<(string, Attr)>, i: nat)
    requires i < |table|
    ensures EntryDocs(table[..i + 1]) == Then(EntryDocs(table[..i]), EntryDoc(table[i].0, table[i].1))
  {
    assert table[..i + 1][..i] == table[..i];
  }

  /** The loop over a parameter or data table. */
  method WriteEntries(out: Out, table: seq<(string, Attr)>) returns (failure: Option<Exc>)
    modifies out
    ensures out.lines == old(out.lines) + EntryDocs(table).lines
    ensures failure == EntryDocs(table).failure
  {
    var i := 0;
    while i < |table|
      invariant 0 <= i <= |table|
      invariant EntryDocs(table[..i]).failure.None?
      invariant out.lines == old(out.lines) + EntryDocs(table[..i]).lines
    {
      failure := WriteEntry(out, table[i].0, table[i].1);
      EntryDocsStep(table, i);
      ThenLines(EntryDocs(table[..i]), EntryDoc(table[i].0, table[i].1));
      LinesGrouped(old(out.lines), EntryDocs(table[..i]).lines, EntryDoc(table[i].0, table[i].1).lines);
      if failure.Some? {
        EntryDocsSticky(table, i + 1);
        return;
      }
      i := i + 1;
    }
    assert table[..|table|] == table;
    return None;
  }

  /** One entry of the return table. */
  method WriteReturnEntry(out: Out, n: string, v: Ret) returns (failure: Option<Exc>)
    modifies out
    ensures out.lines == old(out.lines) + ReturnDoc(n, v).lines
    ensures failure == ReturnDoc(n, v).failure
  {
    var st := SourceType(v.typ, "cobjects.", "enums.");
    if st.Err? {
      return Some(st.error);
    }
    out.Wrap(ReturnLine(st.value, n), 8);
    out.Wrap(v.desc, 12);
    failure := None;
  }

  /** The return table up to one more entry. */
  lemma ReturnDocsStep(table: seq<(string, Ret)>, i: nat)
    requires i < |table|
    ensures ReturnDocs(table[..i + 1]) == Then(ReturnDocs(table[..i]), ReturnDoc(table[i].0, table[i].1))
  {
    assert table[..i + 1][..i] == table[..i];
  }

  /** The loop over the return table. */
  method WriteReturnEntries(out: Out, table: seq<(string, Ret)>) returns (failure: Option<Exc>)
    modifies out
    ensures out.lines == old(out.lines) + ReturnDocs(table).lines
    ensures failure == ReturnDocs(table).failure
  {
    var i := 0;
    while i < |table|
      invariant 0 <= i <= |table|
      invariant ReturnDocs(table[..i]).failure.None?
      invariant out.lines == old(out.lines) + ReturnDocs(table[..i]).lines
    {
      failure := WriteReturnEntry(out, table[i].0, table[i].1);
      ReturnDocsStep(table, i);
      ThenLines(ReturnDocs(table[..i]), ReturnDoc(table[i].0, table[i].1));
      LinesGrouped(old(out.lines), ReturnDocs(table[..i]).lines, ReturnDoc(table[i].0, table[i].1).lines);
      if failure.Some? {
        ReturnDocsSticky(table, i + 1);
        return;
      }
      i := i + 1;
    }
    assert table[..|table|] == table;
    return None;
  }

  /** The parameters section. */
  method WriteParams(out: Out, e: EndpointDef) returns (failure: Option<Exc>)
    modifies out
    ensures out.lines == old(out.lines) + ParamsDoc(e).lines
    ensures failure == ParamsDoc(e).failure
  {
    HeadingsPlain();
    failure := None;
    if e.parameters.Some? {
      out.Text(ParamsHeading);
      failure := WriteEntries(out, e.parameters.value);
      LinesGrouped(old(out.lines), [ParamsHeading + Newline], EntryDocs(e.parameters.value).lines);
    }
  }

  /** The data section. */
  method WriteData(out: Out, e: EndpointDef) returns (failure: Option<Exc>)
    modifies out
    ensures out.lines == old(out.lines) + DataDoc(e).lines
    ensures failure == DataDoc(e).failure
  {
    HeadingsPlain();
    failure := None;
    if e.data.Some? {
      if e.parameters.Some? {
        out.Blank();
      }
      out.Text(DataHeading);
      failure := WriteEntries(out, e.data.value);
      LinesGroupedFour(old(out.lines), Gap(e.parameters.Some?), [DataHeading + Newline], EntryDocs(e.data.value).lines);
    }
  }

  /** The returns section. */
  method WriteReturns(out: Out, e: EndpointDef) returns (failure: Option<Exc>)
    modifies out
    ensures out.lines == old(out.lines) + ReturnsDoc(e).lines
    ensures failure == ReturnsDoc(e).failure
  {
    HeadingsPlain();
    failure := None;
    if e.returned.Some? {
      if e.parameters.Some? || e.data.Some? {
        out.Blank();
      }
      out.Text(ReturnsHeading);
      failure := WriteReturnEntries(out, e.returned.value);
      LinesGroupedFour(old(out.lines), Gap(e.parameters.Some? || e.data.Some?), [ReturnsHeading + Newline], ReturnDocs(e.returned.value).lines);
    }
  }

  /** The three sections of the docstring. */
  method WriteDocs(out: Out, e: EndpointDef) returns (failure: Option<Exc>)
    modifies out
    ensures out.lines == old(out.lines) + DocSections(e).lines
    ensures failure == DocSections(e).failure
  {
    failure := WriteParams(out, e);
    if failure.Some? {
      return;
    }
    failure := WriteLater(out, e);
    ThenLines(ParamsDoc(e), Then(DataDoc(e), ReturnsDoc(e)));
    LinesGrouped(old(out.lines), ParamsDoc(e).lines, Then(DataDoc(e), ReturnsDoc(e)).lines);
  }

  /** The data and returns sections. */
  method WriteLater(out: Out, e: EndpointDef) returns (failure: Option<Exc>)
    modifies out
    ensures out.lines == old(out.lines) + Then(DataDoc(e), ReturnsDoc(e)).lines
    ensures failure == Then(DataDoc(e), ReturnsDoc(e)).failure
  {
    failure := WriteData(out, e);
    if failure.Some? {
      return;
    }
    failure := WriteReturns(out, e);
    ThenLines(DataDoc(e), ReturnsDoc(e));
    LinesGrouped(old(out.lines), DataDoc(e).lines, ReturnsDoc(e).lines);
  }

  /** The four constants of a table. */
  method WriteTableConsts(out: Out, heads: (string, string, string, string), table: seq<(string, Attr)>)
    requires TableRenders(table)
    modifies out
    ensures out.lines == old(out.lines) + TableConsts(heads, table)
  {
    var t := TableTexts(heads, table);
    out.SetWrap(t[0], 4);
    out.SetWrap(t[1], 4);
    out.SetWrap(t[2], 4);
    out.SetWrap(t[3], 4);
    LinesGroupedFive(old(out.lines), Wrapped(SetText(t[0]), 4), Wrapped(SetText(t[1]), 4), Wrapped(SetText(t[2]), 4), Wrapped(SetText(t[3]), 4));
  }

  /** The constants of the parameters. */
  method WriteParamsConsts(out: Out, e: EndpointDef)
    requires Renders(e)
    modifies out
    ensures out.lines == old(out.lines) + ParamsConsts(e)
  {
    if e.parameters.Some? {
      WriteTableConsts(out, ParamsHeads, e.parameters.value);
    }
  }

  /** The constants of the data. */
  method WriteDataConsts(out: Out, e: EndpointDef)
    requires Renders(e)
    modifies out
    ensures out.lines == old(out.lines) + DataConsts(e)
  {
    if e.data.Some? {
      if e.parameters.Some? {
        out.Blank();
      }
      assert out.lines == old(out.lines) + Gap(e.parameters.Some?);
      WriteTableConsts(out, DataHeads, e.data.value);
      LinesGrouped(old(out.lines), Gap(e.parameters.Some?), TableConsts(DataHeads, e.data.value));
    }
  }

  /** The `RETURNS` constant. */
  method WriteReturnsConsts(out: Out, e: EndpointDef)
    requires Renders(e)
    modifies out
    ensures out.lines == old(out.lines) + ReturnsConsts(e)
  {
    if e.returned.Some? {
      if e.parameters.Some? || e.data.Some? {
        out.Blank();
      }
      out.SetWrap("RETURNS = " + DictDisplay(ReturnPairs(e.returned.value)), 4);
    }
  }

  /** The schema constants of the parameters, the data and the return
      values. */
  method WriteConsts(out: Out, e: EndpointDef)
    requires Renders(e)
    modifies out
    ensures out.lines == old(out.lines) + ParamsConsts(e) + DataConsts(e) + ReturnsConsts(e)
  {
    WriteParamsConsts(out, e);
    WriteDataConsts(out, e);
    WriteReturnsConsts(out, e);
  }

  /** The end of `gen_single`: the docstring's end, `ENDPOINTS`, the
      constants and the final blank line. */
  method WriteTail(out: Out, e: EndpointDef)
    requires Renders(e)
    modifies out
    ensures out.lines == old(out.lines) + EpTail(e)
  {
    out.Text("    \"\"\"");
    out.Blank();
    assert [DocClose[0]] + [Newline] == DocClose;
    LinesGrouped(old(out.lines), [DocClose[0]], [Newline]);
    ghost var closed := out.lines;
    out.Wrap(EndpointsText(e.definition), 4);
    out.Blank();
    LinesGrouped(closed, Wrapped(EndpointsText(e.definition), 4), [Newline]);
    WriteConsts(out, e);
    out.Blank();
    LinesGroupedSeven(old(out.lines), DocClose, EndpointsLines(e.definition), ParamsConsts(e), DataConsts(e), ReturnsConsts(e), [Newline]);
  }

  /** `gen_single(endpoint_name, endpoint, out)`. */
  method GenSingle(out: Out, name: string, e: EndpointDef) returns (failure: Option<Exc>)
    modifies out
    ensures out.lines == old(out.lines) + EpBlock(name, e).lines
    ensures failure == EpBlock(name, e).failure
  {
    if |name| == 0 {
      return Some(IndexError);
    }
    WriteHeader(out, name);
    var ds := FullStop(e.docstring);
    if ds.Err? {
      return Some(IndexError);
    }
    out.Wrap(ds.value, 4);
    out.Blank();
    WriteRemarks(out, e.remarks);
    ghost var head := EpHead(name, ds.value, e.remarks);
    LinesGroupedFive(old(out.lines), EpHeader(name), Wrapped(ds.value, 4), [Newline], RemarksLines(e.remarks));
    failure := WriteDocs(out, e);
    DocSectionsFail(e);
    if failure.Some? {
      LinesGrouped(old(out.lines), head, DocSections(e).lines);
      return;
    }
    WriteTail(out, e);
    LinesGroupedFour(old(out.lines), head, DocSections(e).lines, EpTail(e));
  }

  // ------------------------------------------------------------------- gen

  /** The block of each endpoint, in the order `gen` visits them. */
  function Blocks(endpoints: map<string, EndpointDef>, order: seq<string>): (r: seq<Emitted>)
    requires forall i :: 0 <= i < |order| ==> order[i] in endpoints
    ensures |r| == |order|
    ensures forall i :: 0 <= i < |order| ==> r[i] == EpBlock(order[i], endpoints[order[i]])
  {
    seq(|order|, i requires 0 <= i < |order| => EpBlock(order[i], endpoints[order[i]]))
  }

  /** One block and its blank line, after blocks that did not raise. */
  method WriteBlock(out: Out, name: string, e: EndpointDef, ghost base: seq<string>, ghost blocks: seq<Emitted>, ghost k: nat)
    returns (failure: Option<Exc>)
    requires k < |blocks| && blocks[k] == EpBlock(name, e)
    requires Assemble(base, blocks[..k]).failure.None? && out.lines == Assemble(base, blocks[..k]).lines
    modifies out
    ensures out.lines == Assemble(base, blocks[..k + 1]).lines
    ensures failure == Assemble(base, blocks[..k + 1]).failure
  {
    AssembleNext(base, blocks, k);
    failure := GenSingle(out, name, e);
    if failure.None? {
      out.Blank();
    }
  }

  /** `gen(endpoints, handler, out)`: each endpoint's block followed by a
      blank line, in the dict's order, until one raises; then the last
      blank line is dropped. Writing through `handler` is left out. */
  method Gen(out: Out, endpoints: map<string, EndpointDef>) returns (failure: Option<Exc>, order: seq<string>)
    modifies out
    ensures Distinct(order) && |order| == |endpoints| && forall x :: x in order <==> x in endpoints
    ensures out.lines == GenEnd(Assemble(old(out.lines), Blocks(endpoints, order))).lines
    ensures failure == GenEnd(Assemble(old(out.lines), Blocks(endpoints, order))).failure
  {
    order := SetOrder(endpoints.Keys);
    ghost var base := out.lines;
    ghost var blocks := Blocks(endpoints, order);
    var k := 0;
    assert blocks[..0] == [];
    while k < |order|
      invariant k <= |order|
      invariant Assemble(base, blocks[..k]).failure.None? && out.lines == Assemble(base, blocks[..k]).lines
    {
      failure := WriteBlock(out, order[k], endpoints[order[k]], base, blocks, k);
      if failure.Some? {
        AssembleSticky(base, blocks, k + 1);
        return;
      }
      k := k + 1;
    }
    assert blocks[..k] == blocks;
    failure := PopLast(out, Assemble(base, blocks));
  }

  /** When every endpoint has a name, a docstring and renderable types,
      `gen` writes their blocks separated by one blank line each and ends
      without a blank line of its own. */
  lemma GenSeparated(prev: seq<string>, endpoints: map<string, EndpointDef>, order: seq<string>)
    requires |order| > 0 && forall i :: 0 <= i < |order| ==> order[i] in endpoints
    requires forall x :: x in endpoints ==> |x| > 0 && |endpoints[x].docstring| > 0 && Renders(endpoints[x])
    ensures GenEnd(Assemble(prev, Blocks(endpoints, order)))
            == Emitted(prev + Separated(LinesOf(Blocks(endpoints, order))), None)
  {
    var blocks := Blocks(endpoints, order);
    forall i | 0 <= i < |blocks|
      ensures blocks[i].failure.None?
    {
      EpBlockShape(order[i], endpoints[order[i]]);
    }
    GenEndSeparated(prev, blocks);
  }
}
