/** The enum generator (generators/enums.py): one class definition per
    scraped enum, with the values and their descriptions aligned in the
    docstring and each value assigned its own name. */
module GenEnums {
  import opened PyBase
  import opened GenCommon

  /** A scraped enum: its docstring and its values with their
      descriptions, in table order (`{'docstring': …, 'values': {…}}`). */
  datatype EnumDef = EnumDef(docstring: string, values: seq<(string, string)>)

  // ------------------------------------------------------------- alignment

  /** `len(max(names, key=len))`: the length of a longest name. */
  function Longest(names: seq<string>): (r: nat)
    requires |names| > 0
    ensures forall i :: 0 <= i < |names| ==> |names[i]| <= r
    ensures exists i :: 0 <= i < |names| && |names[i]| == r
    decreases |names|
  {
    var n := |names|;
    if n == 1 then |names[0]|
    else
      var m := Longest(names[..n - 1]);
      assert forall i :: 0 <= i < n - 1 ==> names[..n - 1][i] == names[i];
      if |names[n - 1]| > m then |names[n - 1]| else m
  }

  /** `in_`: the column the descriptions start at, two past the longest
      value name; `max` of no names raises ValueError. */
  function DescColumn(values: seq<(string, string)>): (r: Result<nat>)
    ensures r.Err? <==> |values| == 0
    ensures r.Err? ==> r.error == ValueError
    ensures r.Ok? ==> forall i :: 0 <= i < |values| ==> |values[i].0| + 2 <= r.value
    ensures r.Ok? ==> exists i :: 0 <= i < |values| && |values[i].0| + 2 == r.value
  {
    if |values| == 0 then Err(ValueError)
    else
      var names := Names(values);
      var m := Longest(names);
      var i :| 0 <= i < |names| && |names[i]| == m;
      assert |values[i].0| + 2 == m + 2;
      Ok(m + 2)
  }

  /** Every name fits before the column, with room for a colon and a
      space. */
  predicate FitsBefore(col: nat, values: seq<(string, string)>) {
    forall i :: 0 <= i < |values| ==> |values[i].0| + 2 <= col
  }

  /** `'{}:{}{}'.format(v, ' ' * (in_ - len(v) - 1), d)`: the name, a
      colon, and spaces up to the column. */
  function DescText(col: nat, v: string, d: string): string
    requires |v| + 2 <= col
  {
    v + ":" + Spaces(col - |v| - 1) + d
  }

  /** The template fills with the name, the colon, the padding and the
      description, in that order. */
  lemma DescFormat(v: string, pad: string, d: string)
    ensures FormatArgs("{}:{}{}", [v, pad, d]) == Ok(v + ":" + pad + d)
  {
    FormatArgsLiteral("", []);
    FormatArgsField("", d, []);
    assert [d] + [] == [d] && d + "" == d;
    FormatArgsField("{}", pad, [d]);
    assert [pad] + [d] == [pad, d];
    FormatArgsSplit(":", "{}" + "{}", [pad, d]);
    FormatArgsField(":" + ("{}" + "{}"), v, [pad, d]);
    assert [v] + [pad, d] == [v, pad, d];
    assert "{}" + (":" + ("{}" + "{}")) == "{}:{}{}";
    Grouped(v, ":", pad + d);
    Grouped(v + ":", pad, d);
  }

  /** A description line puts the name and a colon first and the
      description at the column, whatever the name's length. */
  lemma DescAligned(col: nat, v: string, d: string)
    requires |v| + 2 <= col
    ensures |DescText(col, v, d)| == col + |d|
    ensures DescText(col, v, d)[..|v| + 1] == v + ":"
    ensures forall k :: |v| + 1 <= k < col ==> DescText(col, v, d)[k] == ' '
    ensures DescText(col, v, d)[col..] == d
  {
    var pad := Spaces(col - |v| - 1);
    var t := DescText(col, v, d);
    assert t == v + ":" + pad + d;
    assert (v + ":") + pad + d == t;
    forall k | |v| + 1 <= k < col
      ensures t[k] == ' '
    {
      assert t[k] == pad[k - |v| - 1];
    }
  }

  /** A description line is never blank: it holds the colon. */
  lemma DescNonBlank(col: nat, v: string, d: string)
    requires |v| + 2 <= col
    ensures NonBlank(DescText(col, v, d))
  {
    DescAligned(col, v, d);
    var t := DescText(col, v, d);
    assert t[|v|] == (v + ":")[|v|] == ':';
    assert !IsSpace(t[|v|]);
  }

  /** The aligned docstring lines of the values, in table order. */
  function DescLines(col: nat, values: seq<(string, string)>): seq<string>
    requires FitsBefore(col, values)
    decreases |values|
  {
    var n := |values|;
    if n == 0 then []
    else DescLines(col, values[..n - 1]) + Wrapped(DescText(col, values[n - 1].0, values[n - 1].1), 4)
  }

  /** One line per value, each with its description at column `col` past
      the four-space indent. */
  lemma {:induction false} DescLinesAligned(col: nat, values: seq<(string, string)>)
    requires FitsBefore(col, values)
    ensures |DescLines(col, values)| == |values|
    ensures forall i :: 0 <= i < |values| ==>
              DescLines(col, values)[i] == Spaces(4) + DescText(col, values[i].0, values[i].1) + Newline
    decreases |values|
  {
    var n := |values|;
    if n > 0 {
      var init := values[..n - 1];
      DescLinesAligned(col, init);
      DescNonBlank(col, values[n - 1].0, values[n - 1].1);
      forall i | 0 <= i < n - 1
        ensures DescLines(col, values)[i] == Spaces(4) + DescText(col, values[i].0, values[i].1) + Newline
      {
        assert init[i] == values[i];
      }
    }
  }

  /** A description line as written, with its indent and line end. */
  lemma DescLineAt(col: nat, v: string, d: string)
    requires |v| + 2 <= col
    ensures var line := Spaces(4) + DescText(col, v, d) + Newline;
            && |line| == 4 + col + |d| + |Newline|
            && line[4 + col..] == d + Newline
            && line[..4 + |v| + 1] == Spaces(4) + v + ":"
  {
    DescAligned(col, v, d);
    var t := DescText(col, v, d);
    var line := Spaces(4) + t + Newline;
    assert line[4 + col..] == t[col..] + Newline;
    assert line[..4 + |v| + 1] == Spaces(4) + t[..|v| + 1];
  }

  /** Every description in the docstring starts at the same column. */
  lemma DescColumnShared(values: seq<(string, string)>)
    requires |values| > 0
    ensures var col := DescColumn(values).value;
            var lines := DescLines(col, values);
            && |lines| == |values|
            && forall i :: 0 <= i < |values| ==>
                 && |lines[i]| == 4 + col + |values[i].1| + |Newline|
                 && lines[i][4 + col..] == values[i].1 + Newline
                 && lines[i][..4 + |values[i].0| + 1] == Spaces(4) + values[i].0 + ":"
  {
    var col := DescColumn(values).value;
    DescLinesAligned(col, values);
    forall i | 0 <= i < |values|
      ensures var line := Spaces(4) + DescText(col, values[i].0, values[i].1) + Newline;
              && |line| == 4 + col + |values[i].1| + |Newline|
              && line[4 + col..] == values[i].1 + Newline
              && line[..4 + |values[i].0| + 1] == Spaces(4) + values[i].0 + ":"
    {
      DescLineAt(col, values[i].0, values[i].1);
    }
  }

  // ----------------------------------------------------------- assignments

  /** `'    {} = \'{}\''.format(v, v)`. */
  function AssignLine(v: string): string {
    "    " + v + " = '" + v + "'"
  }

  /** The assignment lines, one per value, in table order. */
  function AssignLines(values: seq<(string, string)>): (r: seq<string>)
    decreases |values|
  {
    var n := |values|;
    if n == 0 then [] else AssignLines(values[..n - 1]) + [AssignLine(values[n - 1].0) + Newline]
  }

  /** The line the generator writes for a value is the template filled
      with the value's name twice. */
  lemma AssignFormat(v: string)
    ensures FormatArgs("    {} = '{}'", [v, v]) == Ok(AssignLine(v))
  {
    FormatArgsTwo("    ", " = '", "'", v, v);
    assert "    " + "{}" + " = '" + "{}" + "'" == "    {} = '{}'";
  }

  /** Exactly one assignment line per value, in table order. */
  lemma {:induction false} AssignLinesEach(values: seq<(string, string)>)
    ensures |AssignLines(values)| == |values|
    ensures forall i :: 0 <= i < |values| ==> AssignLines(values)[i] == AssignLine(values[i].0) + Newline
    decreases |values|
  {
    var n := |values|;
    if n > 0 {
      var init := values[..n - 1];
      AssignLinesEach(init);
      forall i | 0 <= i < n - 1
        ensures AssignLines(values)[i] == AssignLine(values[i].0) + Newline
      {
        assert init[i] == values[i];
      }
    }
  }

  /** The name assigned and the quoted value of an assignment line of the
      generated shape: both are as long as each other. */
  function ReadAssign(line: string): (r: (string, string))
    requires |line| >= 9 && (|line| - 9) % 2 == 0
  {
    var k := (|line| - 9) / 2;
    (line[4..4 + k], line[4 + k + 4..|line| - 1])
  }

  /** Reading an assignment line back gives the value's name on both
      sides: each value equals its name. */
  lemma AssignRoundTrip(v: string)
    ensures |AssignLine(v)| == 2 * |v| + 9
    ensures ReadAssign(AssignLine(v)) == (v, v)
  {
    var line := AssignLine(v);
    var k := |v|;
    assert line == "    " + v + " = '" + v + "'";
    assert line[4..4 + k] == v;
    assert line[4 + k + 4..|line| - 1] == v;
  }

  // ------------------------------------------------------------ gen_single

  /** The class line, a blank line, the docstring's first line and a
      blank line. */
  function EnumHeader(name: string): seq<string> {
    ["class " + name + "(Enum):" + Newline] + [Newline]
    + ["    \"\"\"FCO REST API " + name + " enum." + Newline] + [Newline]
  }

  /** The header, the docstring's sentence and a blank line. */
  function EnumHead(name: string, ds: string): seq<string> {
    EnumHeader(name) + Wrapped(ds, 4) + [Newline]
  }

  /** The aligned values, the docstring's end, the assignments and the
      final blank line. */
  function EnumBody(col: nat, values: seq<(string, string)>): seq<string>
    requires FitsBefore(col, values)
  {
    DescLines(col, values) + DocClose + AssignLines(values) + [Newline]
  }

  /** The lines `gen_single(enum_name, enum, out)` appends, and the
      exception that stops it: IndexError for an empty docstring, after
      the header; ValueError for an enum without values, after the
      docstring's sentence. */
  function EnumBlock(name: string, e: EnumDef): Emitted {
    var ds := FullStop(e.docstring);
    if ds.Err? then Emitted(EnumHeader(name), Some(IndexError))
    else
      var col := DescColumn(e.values);
      if col.Err? then Emitted(EnumHead(name, ds.value), Some(ValueError))
      else Emitted(EnumHead(name, ds.value) + EnumBody(col.value, e.values), None)
  }

  /** The head of a block: the class line first, and the docstring ending
      in a full stop as its fifth line, then a blank line. */
  lemma EnumHeadLines(name: string, ds: string)
    requires |ds| > 0 && ds[|ds| - 1] == '.'
    ensures var h := EnumHead(name, ds);
            && |h| == 6 && h[..4] == EnumHeader(name)
            && h[4] == Spaces(4) + ds + Newline && h[5] == Newline
  {
    EndsNonBlank(ds);
    assert Wrapped(ds, 4) == [Spaces(4) + ds + Newline];
  }

  /** The header comes first whatever happens next; the block fails
      exactly on an empty docstring or an empty value table, and
      otherwise its fifth line is the docstring ending in a full stop. */
  lemma EnumBlockShape(name: string, e: EnumDef)
    ensures var b := EnumBlock(name, e).lines;
            |b| >= 4 && b[..4] == EnumHeader(name) && b[0] == "class " + name + "(Enum):" + Newline
    ensures EnumBlock(name, e).failure == Some(IndexError) <==> |e.docstring| == 0
    ensures EnumBlock(name, e).failure == Some(ValueError) <==> |e.docstring| > 0 && |e.values| == 0
    ensures EnumBlock(name, e).failure.None? ==>
              var ds := FullStop(e.docstring).value;
              var b := EnumBlock(name, e).lines;
              |b| > 5 && b[4] == Spaces(4) + ds + Newline && ds[|ds| - 1] == '.' && b[5] == Newline
  {
    var b := EnumBlock(name, e).lines;
    var ds := FullStop(e.docstring);
    if ds.Ok? {
      var h := EnumHead(name, ds.value);
      EnumHeadLines(name, ds.value);
      assert b[..6] == h;
      assert b[..4] == h[..4];
    }
  }

  /** The body of a block: one aligned description line per value, the
      docstring's end, one assignment line per value, and a blank line. */
  lemma EnumBodyParts(col: nat, values: seq<(string, string)>)
    requires FitsBefore(col, values)
    ensures var b := EnumBody(col, values);
            var n := |values|;
            && |b| == 2 * n + 3
            && b[..n] == DescLines(col, values)
            && b[n..n + 2] == DocClose
            && (forall i :: 0 <= i < n ==> b[n + 2 + i] == AssignLine(values[i].0) + Newline)
            && b[2 * n + 2] == Newline
  {
    DescLinesAligned(col, values);
    AssignLinesEach(values);
    BodyLayout(DescLines(col, values), AssignLines(values));
  }

  /** Where the parts of a body lie: `n` lines, the docstring's end, `n`
      lines and a blank line. */
  lemma BodyLayout(descs: seq<string>, assigns: seq<string>)
    requires |descs| == |assigns|
    ensures var b := descs + DocClose + assigns + [Newline];
            var n := |descs|;
            && |b| == 2 * n + 3 && b[..n] == descs && b[n..n + 2] == DocClose
            && (forall i :: 0 <= i < n ==> b[n + 2 + i] == assigns[i])
            && b[2 * n + 2] == Newline
  {
    var b := descs + DocClose + assigns + [Newline];
    var rest := DocClose + assigns + [Newline];
    LinesGroupedFour(descs, DocClose, assigns, [Newline]);
    PrefixTaken(descs, rest);
  }

  /** A block that succeeds is its head followed by its body. */
  lemma EnumBlockValues(name: string, e: EnumDef)
    requires EnumBlock(name, e).failure.None?
    ensures |e.values| > 0 && FitsBefore(DescColumn(e.values).value, e.values)
    ensures var b := EnumBlock(name, e).lines;
            |b| >= 6 && b[6..] == EnumBody(DescColumn(e.values).value, e.values)
  {
    var ds := FullStop(e.docstring).value;
    EnumHeadLines(name, ds);
  }

  /** The class line and the first line of the docstring. */
  method WriteHeader(out: Out, name: string)
    modifies out
    ensures out.lines == old(out.lines) + EnumHeader(name)
  {
    out.LineWith("class ", name, "(Enum):");
    out.Blank();
    out.LineWith("    \"\"\"FCO REST API ", name, " enum.");
    out.Blank();
  }

  /** `gen_single(enum_name, enum, out)`. */
  method GenSingle(out: Out, name: string, e: EnumDef) returns (failure: Option<Exc>)
    modifies out
    ensures out.lines == old(out.lines) + EnumBlock(name, e).lines
    ensures failure == EnumBlock(name, e).failure
  {
    WriteHeader(out, name);
    var ds := FullStop(e.docstring);
    if ds.Err? {
      return Some(IndexError);
    }
    out.Wrap(ds.value, 4);
    out.Blank();
    ghost var head := EnumHead(name, ds.value);
    LinesGroupedFour(old(out.lines), EnumHeader(name), Wrapped(ds.value, 4), [Newline]);
    var col := DescColumn(e.values);
    if col.Err? {
      return Some(ValueError);
    }
    WriteBody(out, col.value, e.values);
    LinesGrouped(old(out.lines), head, EnumBody(col.value, e.values));
    failure := None;
  }

  /** The rest of `gen_single` once the column is known. */
  method WriteBody(out: Out, col: nat, values: seq<(string, string)>)
    requires FitsBefore(col, values)
    modifies out
    ensures out.lines == old(out.lines) + EnumBody(col, values)
  {
    WriteDescs(out, col, values);
    out.Text("    \"\"\"");
    out.Blank();
    assert [DocClose[0]] + [Newline] == DocClose;
    LinesGrouped(old(out.lines) + DescLines(col, values), [DocClose[0]], [Newline]);
    WriteAssigns(out, values);
    out.Blank();
    LinesGroupedFive(old(out.lines), DescLines(col, values), DocClose, AssignLines(values), [Newline]);
  }

  /** The first loop of `gen_single`: one aligned line per value. */
  method WriteDescs(out: Out, col: nat, values: seq<(string, string)>)
    requires FitsBefore(col, values)
    modifies out
    ensures out.lines == old(out.lines) + DescLines(col, values)
  {
    var i := 0;
    while i < |values|
      invariant i <= |values|
      invariant out.lines == old(out.lines) + DescLines(col, values[..i])
    {
      var (v, d) := values[i];
      var text := FormatArgs("{}:{}{}", [v, Spaces(col - |v| - 1), d]);
      DescFormat(v, Spaces(col - |v| - 1), d);
      out.Wrap(text.value, 4);
      assert values[..i + 1][..i] == values[..i];
      i := i + 1;
    }
    assert values[..|values|] == values;
  }

  /** The second loop of `gen_single`: one assignment per value. */
  method WriteAssigns(out: Out, values: seq<(string, string)>)
    modifies out
    ensures out.lines == old(out.lines) + AssignLines(values)
  {
    var i := 0;
    while i < |values|
      invariant i <= |values|
      invariant out.lines == old(out.lines) + AssignLines(values[..i])
    {
      var v := values[i].0;
      AssignFormat(v);
      var _ := out.Line("    {} = '{}'", [v, v]);
      assert values[..i + 1][..i] == values[..i];
      i := i + 1;
    }
    assert values[..|values|] == values;
  }

  // ------------------------------------------------------------------- gen

  /** The block of each enum, in the order `gen` visits them. */
  function Blocks(enums: map<string, EnumDef>, order: seq<string>): (r: seq<Emitted>)
    requires forall i :: 0 <= i < |order| ==> order[i] in enums
    ensures |r| == |order|
    ensures forall i :: 0 <= i < |order| ==> r[i] == EnumBlock(order[i], enums[order[i]])
  {
    seq(|order|, i requires 0 <= i < |order| => EnumBlock(order[i], enums[order[i]]))
  }

  /** One block and its blank line, after blocks that did not raise. */
  method WriteBlock(out: Out, name: string, e: EnumDef, ghost base: seq<string>, ghost blocks: seq<Emitted>, ghost k: nat)
    returns (failure: Option<Exc>)
    requires k < |blocks| && blocks[k] == EnumBlock(name, e)
    requires Assemble(base, blocks[..k]).failure.None? && out.lines == Assemble(base, blocks[..k]).lines
    modifies out
    ensures out.lines == Assemble(base, blocks[..k + 1]).lines
    ensures failure == Assemble(base, blocks[..k + 1]).failure
  {
    AssembleNext(base, blocks, k);
    failure := GenSingle(out, name, e);
    if failure.None? {
      out.Blank();
    }
  }

  /** `gen(enums, handler, out)`: each enum's block followed by a blank
      line, in the dict's order, until one raises; then the last blank
      line is dropped. Writing through `handler` is left out. */
  method Gen(out: Out, enums: map<string, EnumDef>) returns (failure: Option<Exc>, order: seq<string>)
    modifies out
    ensures Distinct(order) && |order| == |enums| && forall x :: x in order <==> x in enums
    ensures out.lines == GenEnd(Assemble(old(out.lines), Blocks(enums, order))).lines
    ensures failure == GenEnd(Assemble(old(out.lines), Blocks(enums, order))).failure
  {
    order := SetOrder(enums.Keys);
    ghost var base := out.lines;
    ghost var blocks := Blocks(enums, order);
    var k := 0;
    assert blocks[..0] == [];
    while k < |order|
      invariant k <= |order|
      invariant Assemble(base, blocks[..k]).failure.None? && out.lines == Assemble(base, blocks[..k]).lines
    {
      failure := WriteBlock(out, order[k], enums[order[k]], base, blocks, k);
      if failure.Some? {
        AssembleSticky(base, blocks, k + 1);
        return;
      }
      k := k + 1;
    }
    assert blocks[..k] == blocks;
    failure := PopLast(out, Assemble(base, blocks));
  }

  /** When every enum has a docstring and values, `gen` writes their
      blocks separated by one blank line each and ends without a blank
      line of its own. */
  lemma GenSeparated(prev: seq<string>, enums: map<string, EnumDef>, order: seq<string>)
    requires |order| > 0 && forall i :: 0 <= i < |order| ==> order[i] in enums
    requires forall x :: x in enums ==> |enums[x].docstring| > 0 && |enums[x].values| > 0
    ensures GenEnd(Assemble(prev, Blocks(enums, order)))
            == Emitted(prev + Separated(LinesOf(Blocks(enums, order))), None)
  {
    var blocks := Blocks(enums, order);
    forall i | 0 <= i < |blocks|
      ensures blocks[i].failure.None?
    {
      EnumBlockShape(order[i], enums[order[i]]);
    }
    GenEndSeparated(prev, blocks);
  }
}
