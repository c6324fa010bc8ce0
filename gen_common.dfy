/** The shared pieces of the code generators (generators/common.py): the
    type descriptors the scraper produces, their rendering as source text,
    and the output list that lines are appended to. */
module GenCommon {
  import opened PyBase

  /** `os.linesep` on the POSIX systems the generators run on. */
  const Newline := "\n"

  /** MAGIC_CHARACTER: the marker placed before a typed dict's item type. */
  const Magic := "Å¾"

  /** The Python types the scraper maps builtin phrases to. */
  datatype Builtin = BBool | BDateTime | BFloat | BStr | BInt | BBytes | BEnum

  /** A type descriptor as the scraper builds it: the tuples `(dict, k, v)`,
      `(list, t)`, `('co', name)` and `(Enum, name)`; a tuple with another
      head; a builtin type; or a phrase kept as it was. */
  datatype TypeDesc =
    | DictOf(key: TypeDesc, item: TypeDesc)
    | ListOf(elem: TypeDesc)
    | Co(name: string)
    | EnumOf(name: string)
    | OtherTuple(head: string)
    | BuiltinType(b: Builtin)
    | Phrase(s: string)

  predicate IsTuple(t: TypeDesc) {
    t.DictOf? || t.ListOf? || t.Co? || t.EnumOf? || t.OtherTuple?
  }

  /** `__name__` of a builtin type; `bytes` is `str` in Python 2. */
  function BuiltinName(b: Builtin): string {
    if b == BBool then "bool"
    else if b == BDateTime then "datetime"
    else if b == BFloat then "float"
    else if b == BStr || b == BBytes then "str"
    else if b == BInt then "int"
    else "Enum"
  }

  /** `str(Named(t))` for a value that is not a tuple: the type's
      `__name__`, or the phrase itself, which has none. */
  function NamedText(t: TypeDesc): (r: string)
    requires !IsTuple(t)
    ensures t.Phrase? ==> r == t.s
  {
    if t.BuiltinType? then BuiltinName(t.b) else t.s
  }

  /** `str(source_type(t, coPrefix, enumPrefix))`. The recursive calls pass
      only the complex-object prefix, so a nested enum always gets the
      default `enums.` prefix. A tuple with an unknown head raises
      TypeError. */
  function SourceType(t: TypeDesc, coPrefix: string, enumPrefix: string): Result<string>
    decreases t
  {
    if t.EnumOf? then Ok(enumPrefix + t.name)
    else if t.Co? then Ok(coPrefix + t.name)
    else if t.DictOf? then
      var k := SourceType(t.key, coPrefix, "enums.");
      if k.Err? then k
      else
        var v := SourceType(t.item, coPrefix, "enums.");
        if v.Err? then v else Ok("Dict(" + k.value + "," + Magic + v.value + ")")
    else if t.ListOf? then
      var e := SourceType(t.elem, coPrefix, "enums.");
      if e.Err? then e else Ok("List(" + e.value + ")")
    else if t.OtherTuple? then Err(TypeError)
    else Ok(NamedText(t))
  }

  /** A descriptor holds a tuple with an unknown head somewhere. */
  predicate HasOtherTuple(t: TypeDesc)
    decreases t
  {
    if t.OtherTuple? then true
    else if t.DictOf? then HasOtherTuple(t.key) || HasOtherTuple(t.item)
    else if t.ListOf? then HasOtherTuple(t.elem)
    else false
  }

  /** Rendering fails exactly when a tuple with an unknown head occurs, and
      then with TypeError. */
  lemma {:induction false} SourceTypeFails(t: TypeDesc, coPrefix: string, enumPrefix: string)
    ensures SourceType(t, coPrefix, enumPrefix).Err? <==> HasOtherTuple(t)
    ensures SourceType(t, coPrefix, enumPrefix).Err? ==> SourceType(t, coPrefix, enumPrefix).error == TypeError
    decreases t
  {
    if t.DictOf? {
      SourceTypeFails(t.key, coPrefix, "enums.");
      SourceTypeFails(t.item, coPrefix, "enums.");
    } else if t.ListOf? {
      SourceTypeFails(t.elem, coPrefix, "enums.");
    }
  }

  /** The enum prefix reaches only the outermost descriptor: inside a
      typed list or dict an enum is always written `enums.<name>`, and the
      complex-object prefix reaches every level. */
  lemma NestedPrefixes(n: string, coPrefix: string, enumPrefix: string)
    ensures SourceType(EnumOf(n), coPrefix, enumPrefix) == Ok(enumPrefix + n)
    ensures SourceType(ListOf(EnumOf(n)), coPrefix, enumPrefix) == Ok("List(" + ("enums." + n) + ")")
    ensures SourceType(ListOf(Co(n)), coPrefix, enumPrefix) == Ok("List(" + (coPrefix + n) + ")")
    ensures SourceType(DictOf(BuiltinType(BStr), EnumOf(n)), coPrefix, enumPrefix)
            == Ok("Dict(" + "str" + "," + Magic + ("enums." + n) + ")")
  {
    assert SourceType(EnumOf(n), coPrefix, "enums.") == Ok("enums." + n);
    assert SourceType(Co(n), coPrefix, "enums.") == Ok(coPrefix + n);
    assert SourceType(BuiltinType(BStr), coPrefix, "enums.") == Ok("str");
  }

  /** A rendered typed list or dict is wrapped in its factory call around
      the renderings of its parts. */
  lemma SourceTypeShape(t: TypeDesc, coPrefix: string, enumPrefix: string)
    requires (t.DictOf? || t.ListOf?) && SourceType(t, coPrefix, enumPrefix).Ok?
    ensures var r := SourceType(t, coPrefix, enumPrefix).value;
            (t.ListOf? ==> StartsWith(r, "List(") && EndsWith(r, ")")
                           && r[5..|r| - 1] == SourceType(t.elem, coPrefix, "enums.").value)
            && (t.DictOf? ==> StartsWith(r, "Dict(") && EndsWith(r, ")")
                              && r[5..|r| - 1] == SourceType(t.key, coPrefix, "enums.").value + "," + Magic
                                                  + SourceType(t.item, coPrefix, "enums.").value)
  {
    var r := SourceType(t, coPrefix, enumPrefix).value;
    if t.ListOf? {
      var e := SourceType(t.elem, coPrefix, "enums.").value;
      assert r == "List(" + e + ")";
      assert r[..5] == "List(";
      assert r[5..|r| - 1] == e;
    } else {
      var k := SourceType(t.key, coPrefix, "enums.").value;
      var v := SourceType(t.item, coPrefix, "enums.").value;
      assert r == "Dict(" + (k + "," + Magic + v) + ")";
      assert r[..5] == "Dict(";
      assert r[5..|r| - 1] == k + "," + Magic + v;
    }
  }


  // ----------------------------------------------------------- format(*args)

  /** The number of automatic fields `{}` in a template. */
  function FieldCount(t: string): nat
    decreases |t|
  {
    if |t| == 0 then 0
    else if |t| >= 2 && t[..2] == "{}" then 1 + FieldCount(t[2..])
    else FieldCount(t[1..])
  }

  /** `t.format(*args)` for a template whose fields are all `{}`: each
      field takes the next argument; running out raises IndexError, and
      arguments left over are ignored. */
  function FormatArgs(t: string, args: seq<string>): (r: Result<string>)
    ensures r.Err? <==> |args| < FieldCount(t)
    ensures r.Err? ==> r.error == IndexError
    decreases |t|
  {
    if |t| == 0 then Ok("")
    else if |t| >= 2 && t[..2] == "{}" then
      if |args| == 0 then Err(IndexError)
      else
        var rest := FormatArgs(t[2..], args[1..]);
        if rest.Err? then rest else Ok(args[0] + rest.value)
    else
      var rest := FormatArgs(t[1..], args);
      if rest.Err? then rest else Ok([t[0]] + rest.value)
  }

  /** A template without fields is copied unchanged, whatever the
      arguments. */
  lemma {:induction false} FormatArgsLiteral(t: string, args: seq<string>)
    requires '{' !in t
    ensures FieldCount(t) == 0 && FormatArgs(t, args) == Ok(t)
    decreases |t|
  {
    if |t| > 0 {
      assert t[0] != '{';
      assert '{' !in t[1..] by {
        forall i | 0 <= i < |t[1..]|
          ensures t[1..][i] != '{'
        {
          assert t[1..][i] == t[i + 1];
        }
      }
      FormatArgsLiteral(t[1..], args);
      assert [t[0]] + t[1..] == t;
    }
  }

  /** Literal text in front of a template is copied. */
  lemma {:induction false} FormatArgsSplit(a: string, t: string, args: seq<string>)
    requires '{' !in a
    ensures FormatArgs(a + t, args) == if FormatArgs(t, args).Err? then FormatArgs(t, args)
                                        else Ok(a + FormatArgs(t, args).value)
    decreases |a|
  {
    if |a| > 0 {
      assert (a + t)[0] == a[0] && a[0] != '{';
      assert (a + t)[1..] == a[1..] + t;
      assert '{' !in a[1..] by {
        forall i | 0 <= i < |a[1..]|
          ensures a[1..][i] != '{'
        {
          assert a[1..][i] == a[i + 1];
        }
      }
      FormatArgsSplit(a[1..], t, args);
      assert FormatArgs(a + t, args) == (var rest := FormatArgs(a[1..] + t, args);
                                         if rest.Err? then rest else Ok([a[0]] + rest.value));
      if FormatArgs(t, args).Ok? {
        assert [a[0]] + (a[1..] + FormatArgs(t, args).value) == a + FormatArgs(t, args).value;
      }
    } else {
      assert a + t == t;
      if FormatArgs(t, args).Ok? {
        assert a + FormatArgs(t, args).value == FormatArgs(t, args).value;
      }
    }
  }

  /** A field at the front of a template takes the first argument. */
  lemma FormatArgsField(u: string, x: string, args: seq<string>)
    ensures FormatArgs("{}" + u, [x] + args) == if FormatArgs(u, args).Err? then FormatArgs(u, args)
                                                 else Ok(x + FormatArgs(u, args).value)
  {
    var t := "{}" + u;
    assert t[..2] == "{}" && t[2..] == u;
    assert ([x] + args)[1..] == args;
  }

  /** A template with one field between literal texts. */
  lemma FormatArgsOne(a: string, b: string, x: string, args: seq<string>)
    requires '{' !in a && '{' !in b
    ensures FormatArgs(a + "{}" + b, [x] + args) == Ok(a + x + b)
  {
    FormatArgsLiteral(b, args);
    FormatArgsField(b, x, args);
    FormatArgsSplit(a, "{}" + b, [x] + args);
    Grouped(a, "{}", b);
    Grouped(a, x, b);
  }

  /** A template with one field and exactly one argument. */
  lemma FormatOne(a: string, b: string, x: string)
    requires '{' !in a && '{' !in b
    ensures FormatArgs(a + "{}" + b, [x]) == Ok(a + x + b)
  {
    FormatArgsOne(a, b, x, []);
    assert [x] + [] == [x];
  }

  /** A template with two fields between literal texts. */
  lemma FormatArgsTwo(a: string, b: string, c: string, x: string, y: string)
    requires '{' !in a && '{' !in b && '{' !in c
    ensures FormatArgs(a + "{}" + b + "{}" + c, [x, y]) == Ok(a + x + b + y + c)
  {
    var u := b + "{}" + c;
    FormatArgsOne(b, c, y, []);
    assert [y] + [] == [y];
    FormatArgsField(u, x, [y]);
    assert [x] + [y] == [x, y];
    FormatArgsSplit(a, "{}" + u, [x, y]);
    GroupedFive(a, "{}", b, "{}", c);
    GroupedFive(a, x, b, y, c);
  }

  // --------------------------------------------------------------- set_wrap

  /** Neither square bracket occurs in `s`. */
  predicate NoBrackets(s: string) {
    '[' !in s && ']' !in s
  }

  /** `set_wrap`'s rewriting of Python 2's set display, in the source's
      order: `set([])` first, then `set([`, then `])`. */
  function SetText(text: string): string {
    Replace(Replace(Replace(text, "set([])", "set()"), "set([", "{"), "])", "}")
  }

  /** A pattern one of whose characters is missing from `s` does not
      occur in `s`. */
  lemma CharAbsent(s: string, pat: string, k: nat)
    requires k < |pat| && pat[k] !in s
    ensures forall j :: !OccursAt(s, pat, j)
  {
    forall j
      ensures !OccursAt(s, pat, j)
    {
      if 0 <= j && j + |pat| <= |s| {
        assert s[j..j + |pat|][k] == s[j + k];
        assert s[j + k] in s;
      }
    }
  }

  /** Replacing after a prefix in which no occurrence starts. */
  lemma {:induction false} ReplaceAfter(a: string, t: string, pat: string, rep: string)
    requires |pat| > 0
    requires forall j :: 0 <= j < |a| ==> !OccursAt(a + t, pat, j)
    ensures Replace(a + t, pat, rep) == a + Replace(t, pat, rep)
    decreases |a|
  {
    if |a| == 0 {
      assert a + t == t;
    } else {
      var s := a + t;
      assert s[1..] == a[1..] + t;
      forall j | 0 <= j < |a[1..]|
        ensures !OccursAt(a[1..] + t, pat, j)
      {
        assert !OccursAt(s, pat, j + 1);
        if j + |pat| <= |a[1..] + t| {
          assert (a[1..] + t)[j..j + |pat|] == s[j + 1..j + 1 + |pat|];
        }
      }
      ReplaceAfter(a[1..], t, pat, rep);
      if |s| >= |pat| {
        assert !OccursAt(s, pat, 0);
        assert s[..|pat|] == s[0..|pat|];
        assert [s[0]] + (a[1..] + Replace(t, pat, rep)) == a + Replace(t, pat, rep);
      } else {
        assert Replace(t, pat, rep) == t;
        assert a[1..] + t == a[1..] + Replace(t, pat, rep);
        assert [a[0]] + (a[1..] + t) == s;
      }
    }
  }

  /** Text without square brackets passes through set_wrap unchanged. */
  lemma SetTextPlain(s: string)
    requires NoBrackets(s)
    ensures SetText(s) == s
  {
    CharAbsent(s, "set([])", 4);
    ReplaceAbsent(s, "set([])", "set()");
    CharAbsent(s, "set([", 4);
    ReplaceAbsent(s, "set([", "{");
    CharAbsent(s, "])", 0);
    ReplaceAbsent(s, "])", "}");
  }

  /** An empty set is written `set()`: the first rewrite runs before the
      other two could turn it into `{}`, the empty dict. */
  lemma SetTextEmpty(p: string)
    requires NoBrackets(p)
    ensures SetText(p + "set([])") == p + "set()"
  {
    var e := "set([])";
    var s := p + e;
    forall j | 0 <= j < |p|
      ensures !OccursAt(s, e, j)
    {
      if j + |e| <= |s| {
        assert s[j..j + |e|][4] == s[j + 4];
        if j + 4 < |p| {
          assert s[j + 4] == p[j + 4] && p[j + 4] in p;
        } else {
          assert s[j + 4] == e[j + 4 - |p|];
        }
      }
    }
    ReplaceAfter(p, e, e, "set()");
    assert e[..|e|] == e && e[|e|..] == "";
    assert Replace("", e, "set()") == "";
    assert Replace(e, e, "set()") == "set()";
    var s1 := p + "set()";
    assert Replace(s, e, "set()") == s1;
    assert NoBrackets(s1);
    CharAbsent(s1, "set([", 4);
    ReplaceAbsent(s1, "set([", "{");
    CharAbsent(s1, "])", 0);
    ReplaceAbsent(s1, "])", "}");
  }

  /** A non-empty set display becomes a brace display around the same
      items. */
  lemma SetTextItems(p: string, items: string)
    requires NoBrackets(p) && NoBrackets(items) && |items| > 0
    ensures SetText(p + "set([" + items + "])") == p + "{" + items + "}"
  {
    var s := p + "set([" + items + "])";
    NoEmptySetIn(p, items);
    ReplaceAbsent(s, "set([])", "set()");
    OpenBrace(p, items);
    CloseBrace(p + "{" + items);
  }

  /** `set([])` does not occur in a non-empty display: its `[` would have
      to be the display's own, and the first item is not `]`. */
  lemma NoEmptySetIn(p: string, items: string)
    requires NoBrackets(p) && NoBrackets(items) && |items| > 0
    ensures forall j :: !OccursAt(p + "set([" + items + "])", "set([])", j)
  {
    var tail := "set([" + items + "])";
    var s := p + tail;
    assert s == p + "set([" + items + "])";
    var e := "set([])";
    forall j
      ensures !OccursAt(s, e, j)
    {
      if 0 <= j && j + |e| <= |s| {
        assert s[j..j + |e|][4] == s[j + 4];
        assert s[j..j + |e|][5] == s[j + 5];
        if j + 4 < |p| {
          assert s[j + 4] == p[j + 4] && p[j + 4] in p;
        } else if j < |p| {
          assert s[j + 4] == tail[j + 4 - |p|];
        } else if j == |p| {
          assert s[j + 5] == tail[5] == items[0] && items[0] in items;
        } else {
          assert s[j + 4] == tail[j + 4 - |p|] == items[j + 4 - |p| - 5];
          assert items[j + 4 - |p| - 5] in items;
        }
      }
    }
  }

  /** The display's `set([` becomes `{`, and nothing else changes. */
  lemma OpenBrace(p: string, items: string)
    requires NoBrackets(p) && NoBrackets(items)
    ensures Replace(p + "set([" + items + "])", "set([", "{") == p + "{" + items + "])"
  {
    var o := "set([";
    var rest := items + "])";
    var tail := o + rest;
    var s := p + tail;
    assert s == p + "set([" + items + "])";
    forall j | 0 <= j < |p|
      ensures !OccursAt(s, o, j)
    {
      if j + |o| <= |s| {
        assert s[j..j + |o|][4] == s[j + 4];
        if j + 4 < |p| {
          assert s[j + 4] == p[j + 4] && p[j + 4] in p;
        } else {
          assert s[j + 4] == tail[j + 4 - |p|];
        }
      }
    }
    ReplaceAfter(p, tail, o, "{");
    assert tail[..|o|] == o && tail[|o|..] == rest;
    assert '[' !in rest;
    CharAbsent(rest, o, 4);
    ReplaceAbsent(rest, o, "{");
    assert Replace(tail, o, "{") == "{" + rest;
    assert p + ("{" + rest) == p + "{" + items + "])";
  }

  /** A closing `])` after text without `]` becomes `}`. */
  lemma CloseBrace(a: string)
    requires ']' !in a
    ensures Replace(a + "])", "])", "}") == a + "}"
  {
    var c := "])";
    forall j | 0 <= j < |a|
      ensures !OccursAt(a + c, c, j)
    {
      if j + |c| <= |a + c| {
        assert (a + c)[j..j + |c|][0] == a[j];
        assert a[j] in a;
      }
    }
    ReplaceAfter(a, c, c, "}");
    assert c[..|c|] == c && c[|c|..] == "";
    assert Replace("", c, "}") == "";
    assert Replace(c, c, "}") == "}";
  }

  /** The order of the rewrites matters: starting with `set([` would turn
      the empty set into `{}`, which Python reads as an empty dict. */
  lemma SetTextOrder()
    ensures SetText("set([])") == "set()"
    ensures Replace(Replace("set([])", "set([", "{"), "])", "}") == "{}"
  {
    SetTextEmpty("");
    assert "" + "set([])" == "set([])";
    var s := "set([])";
    assert s[..5] == "set([" && s[5..] == "])";
    assert Replace(s, "set([", "{") == "{" + Replace("])", "set([", "{");
    assert Replace("])", "set([", "{") == "])";
    var t := "{])";
    assert "{" + "])" == t;
    assert t[..2] != "])" && t[1..] == "])";
    assert Replace(t, "])", "}") == "{" + Replace("])", "])", "}");
    assert Replace("])", "])", "}") == "}" + Replace("", "])", "}");
  }

  // ---------------------------------------------------- Python 2 displays

  /** `str(s)` of a set of byte strings, its members in the order given. */
  function SetDisplay(names: seq<string>): string {
    if |names| == 0 then "set([])" else "set([" + Items(names) + "])"
  }

  /** The quoted members joined with `, `. */
  function Items(names: seq<string>): string {
    Join(seq(|names|, i requires 0 <= i < |names| => ReprStr(names[i])), ", ")
  }

  /** `str(d)` of a dict from byte strings to `Named` values, whose repr
      is their text, in the order given. */
  function DictDisplay(pairs: seq<(string, string)>): string {
    "{" + Join(seq(|pairs|, i requires 0 <= i < |pairs| => ReprStr(pairs[i].0) + ": " + pairs[i].1), ", ") + "}"
  }

  /** A character in neither the separator nor any piece is not in the
      joined text. */
  lemma {:induction false} JoinAvoids(xs: seq<string>, sep: string, c: char)
    requires c !in sep && forall i :: 0 <= i < |xs| ==> c !in xs[i]
    ensures c !in Join(xs, sep)
    decreases |xs|
  {
    if |xs| > 1 {
      JoinAvoids(xs[1..], sep, c);
    }
  }

  /** Names without square brackets give items without them. */
  lemma ItemsNoBrackets(names: seq<string>)
    requires forall i :: 0 <= i < |names| ==> NoBrackets(names[i])
    ensures NoBrackets(Items(names)) && (|names| > 0 ==> |Items(names)| > 0)
  {
    var q := seq(|names|, i requires 0 <= i < |names| => ReprStr(names[i]));
    JoinAvoids(q, ", ", '[');
    JoinAvoids(q, ", ", ']');
    if |names| > 0 {
      assert |q[0]| >= 2;
      if |q| > 1 {
        assert Join(q, ", ") == q[0] + ", " + Join(q[1..], ", ");
      }
    }
  }

  /** The line `set_wrap` writes for `head + str(s)`: `set()` for an
      empty set, otherwise the members between braces. */
  lemma SetWrapDisplay(head: string, names: seq<string>)
    requires NoBrackets(head)
    requires forall i :: 0 <= i < |names| ==> NoBrackets(names[i])
    ensures |names| == 0 ==> SetText(head + SetDisplay(names)) == head + "set()"
    ensures |names| > 0 ==> SetText(head + SetDisplay(names)) == head + "{" + Items(names) + "}"
  {
    if |names| == 0 {
      SetTextEmpty(head);
    } else {
      ItemsNoBrackets(names);
      assert head + SetDisplay(names) == head + "set([" + Items(names) + "])";
      SetTextItems(head, Items(names));
    }
  }

  /** A dict display whose keys and rendered types have no square
      brackets passes through set_wrap unchanged. */
  lemma SetWrapDict(head: string, pairs: seq<(string, string)>)
    requires NoBrackets(head)
    requires forall i :: 0 <= i < |pairs| ==> NoBrackets(pairs[i].0) && NoBrackets(pairs[i].1)
    ensures SetText(head + DictDisplay(pairs)) == head + DictDisplay(pairs)
  {
    var q := seq(|pairs|, i requires 0 <= i < |pairs| => ReprStr(pairs[i].0) + ": " + pairs[i].1);
    JoinAvoids(q, ", ", '[');
    JoinAvoids(q, ", ", ']');
    SetTextPlain(head + DictDisplay(pairs));
  }

  // ------------------------------------------------------------- docstrings

  /** The docstring with a full stop: `ds[-1]` raises IndexError on an
      empty docstring, and a full stop is added only when missing. */
  function FullStop(ds: string): (r: Result<string>)
    ensures r.Err? <==> |ds| == 0
    ensures r.Err? ==> r.error == IndexError
    ensures r.Ok? ==> |r.value| > 0 && r.value[|r.value| - 1] == '.'
    ensures r.Ok? ==> |ds| <= |r.value| <= |ds| + 1 && r.value[..|ds|] == ds
    ensures r.Ok? && ds[|ds| - 1] == '.' ==> r.value == ds
  {
    if |ds| == 0 then Err(IndexError)
    else if ds[|ds| - 1] != '.' then Ok(ds + ".")
    else Ok(ds)
  }

  /** The docstring's closing quotes and a blank line. */
  const DocClose: seq<string> := ["    \"\"\"" + Newline, Newline]

  /** `n` spaces. */
  function Spaces(n: nat): (r: string)
    ensures |r| == n && forall i :: 0 <= i < n ==> r[i] == ' '
  {
    seq(n, i => ' ')
  }

  /** Some character of `text` is not whitespace. */
  predicate NonBlank(text: string) {
    exists i :: 0 <= i < |text| && !IsSpace(text[i])
  }

  /** The lines `wrap(out, text, indent, …)` appends: the text after its
      first-line indent, or nothing when the text is blank. */
  function Wrapped(text: string, indent: nat): (r: seq<string>)
    ensures |r| <= 1
    ensures |r| == 1 <==> NonBlank(text)
    ensures |r| == 1 ==> r[0] == Spaces(indent) + text + Newline
  {
    if NonBlank(text) then [Spaces(indent) + text + Newline] else []
  }

  /** Text ending in a full stop, a colon or a closing bracket is not
      blank. */
  lemma EndsNonBlank(s: string)
    requires |s| > 0 && (s[|s| - 1] == '.' || s[|s| - 1] == ':' || s[|s| - 1] == '}' || s[|s| - 1] == ')')
    ensures NonBlank(s)
  {
    assert !IsSpace(s[|s| - 1]);
  }

  /** One attribute of a scraped table: its type, its description and
      whether it is required (`{'type': …, 'desc': …, 'required': …}`). */
  datatype Attr = Attr(typ: TypeDesc, desc: string, required: bool)

  /** What a generator appended, and the exception that stopped it, if
      any. */
  datatype Emitted = Emitted(lines: seq<string>, failure: Option<Exc>)

  /** `prev` with each block and a blank line after it, in order, stopping
      at the first block that raises. */
  function Assemble(prev: seq<string>, chunks: seq<Emitted>): Emitted
    decreases |chunks|
  {
    if |chunks| == 0 then Emitted(prev, None)
    else
      var e := Assemble(prev, chunks[..|chunks| - 1]);
      var c := chunks[|chunks| - 1];
      if e.failure.Some? then e
      else if c.failure.Some? then Emitted(e.lines + c.lines, c.failure)
      else Emitted(e.lines + c.lines + [Newline], None)
  }

  /** Each block is written after the ones before it: what `gen` leaves
      is `prev` followed by the blocks as `gen_single` writes them on an
      empty list. */
  lemma {:induction false} AssembleExtends(prev: seq<string>, chunks: seq<Emitted>)
    ensures Assemble(prev, chunks).lines == prev + Assemble([], chunks).lines
    ensures Assemble(prev, chunks).failure == Assemble([], chunks).failure
    decreases |chunks|
  {
    if |chunks| > 0 {
      AssembleExtends(prev, chunks[..|chunks| - 1]);
    }
  }

  /** Writing one more block after blocks that did not raise. */
  lemma AssembleStep(prev: seq<string>, chunks: seq<Emitted>, c: Emitted)
    requires Assemble(prev, chunks).failure.None?
    ensures Assemble(prev, chunks + [c]) ==
              if c.failure.Some? then Emitted(Assemble(prev, chunks).lines + c.lines, c.failure)
              else Emitted(Assemble(prev, chunks).lines + c.lines + [Newline], None)
  {
    assert (chunks + [c])[..|chunks|] == chunks;
  }

  /** Writing the next of the blocks after ones that did not raise. */
  lemma AssembleNext(prev: seq<string>, chunks: seq<Emitted>, k: nat)
    requires k < |chunks| && Assemble(prev, chunks[..k]).failure.None?
    ensures Assemble(prev, chunks[..k + 1]) ==
              if chunks[k].failure.Some? then Emitted(Assemble(prev, chunks[..k]).lines + chunks[k].lines, chunks[k].failure)
              else Emitted(Assemble(prev, chunks[..k]).lines + chunks[k].lines + [Newline], None)
  {
    assert chunks[..k + 1][..k] == chunks[..k];
  }

  /** Once a block raises, the blocks after it add nothing. */
  lemma {:induction false} AssembleSticky(prev: seq<string>, chunks: seq<Emitted>, k: nat)
    requires k <= |chunks| && Assemble(prev, chunks[..k]).failure.Some?
    ensures Assemble(prev, chunks) == Assemble(prev, chunks[..k])
    decreases |chunks| - k
  {
    if k == |chunks| {
      assert chunks[..k] == chunks;
    } else {
      assert chunks[..|chunks| - 1][..k] == chunks[..k];
      AssembleSticky(prev, chunks[..|chunks| - 1], k);
    }
  }

  /** Three runs of lines read the same however they are grouped. */
  lemma LinesGrouped(a: seq<string>, b: seq<string>, c: seq<string>)
    ensures a + (b + c) == a + b + c
  {
  }

  /** A concatenation split where its first part ends. */
  lemma PrefixTaken(a: seq<string>, b: seq<string>)
    ensures (a + b)[..|a|] == a && (a + b)[|a|..] == b
  {
  }

  /** Four runs of lines read the same however they are grouped. */
  lemma LinesGroupedFour(a: seq<string>, b: seq<string>, c: seq<string>, d: seq<string>)
    ensures a + (b + c + d) == a + b + c + d
  {
  }

  /** Five runs of lines read the same however they are grouped. */
  lemma LinesGroupedFive(a: seq<string>, b: seq<string>, c: seq<string>, d: seq<string>, e: seq<string>)
    ensures a + (b + c + d + e) == a + b + c + d + e
  {
  }

  /** Seven runs of lines read the same however they are grouped. */
  lemma LinesGroupedSeven(a: seq<string>, b: seq<string>, c: seq<string>, d: seq<string>, e: seq<string>, f: seq<string>, g: seq<string>)
    ensures a + (b + c + d + e + f + g) == a + b + c + d + e + f + g
  {
  }

  /** The blocks, with one blank line between each two. */
  function Separated(blocks: seq<seq<string>>): seq<string>
    decreases |blocks|
  {
    if |blocks| == 0 then []
    else if |blocks| == 1 then blocks[0]
    else Separated(blocks[..|blocks| - 1]) + [Newline] + blocks[|blocks| - 1]
  }

  /** The lines of each block. */
  function LinesOf(chunks: seq<Emitted>): (r: seq<seq<string>>)
    ensures |r| == |chunks| && forall i :: 0 <= i < |chunks| ==> r[i] == chunks[i].lines
  {
    seq(|chunks|, i requires 0 <= i < |chunks| => chunks[i].lines)
  }

  /** Blocks that all succeed are written one after the other, each
      followed by a blank line. */
  lemma {:induction false} AssembleSeparated(prev: seq<string>, chunks: seq<Emitted>)
    requires |chunks| > 0 && forall i :: 0 <= i < |chunks| ==> chunks[i].failure.None?
    ensures Assemble(prev, chunks) == Emitted(prev + Separated(LinesOf(chunks)) + [Newline], None)
    decreases |chunks|
  {
    var n := |chunks|;
    var c := chunks[n - 1];
    if n == 1 {
      assert chunks[..0] == [];
      assert Separated(LinesOf(chunks)) == c.lines;
    } else {
      var init := chunks[..n - 1];
      AssembleSeparated(prev, init);
      assert LinesOf(chunks)[..n - 1] == LinesOf(init);
      assert Separated(LinesOf(chunks)) == Separated(LinesOf(init)) + [Newline] + c.lines;
    }
  }

  /** `out.pop()` at the end of `gen`: the last line goes, and an empty
      list raises IndexError. */
  function Popped(lines: seq<string>): (r: Emitted)
    ensures r.failure.Some? <==> |lines| == 0
    ensures r.failure.Some? ==> r == Emitted(lines, Some(IndexError))
    ensures r.failure.None? ==> r.lines + [lines[|lines| - 1]] == lines
  {
    if |lines| == 0 then Emitted(lines, Some(IndexError)) else Emitted(lines[..|lines| - 1], None)
  }

  /** The end of the enum and endpoint generators' `gen`: a block that
      raised ends it, otherwise the last blank line is dropped. */
  function GenEnd(e: Emitted): Emitted {
    if e.failure.Some? then e else Popped(e.lines)
  }

  /** The end of `gen` after every block: `out.pop()`. */
  method PopLast(out: Out, ghost e: Emitted) returns (failure: Option<Exc>)
    requires e.failure.None? && out.lines == e.lines
    modifies out
    ensures out.lines == GenEnd(e).lines && failure == GenEnd(e).failure
  {
    var p := out.Pop();
    failure := if p.Err? then Some(IndexError) else None;
  }

  /** What `gen` leaves when every block succeeds: the blocks separated
      by one blank line each, with no blank line after the last. */
  lemma GenEndSeparated(prev: seq<string>, chunks: seq<Emitted>)
    requires |chunks| > 0 && forall i :: 0 <= i < |chunks| ==> chunks[i].failure.None?
    ensures GenEnd(Assemble(prev, chunks)) == Emitted(prev + Separated(LinesOf(chunks)), None)
  {
    AssembleSeparated(prev, chunks);
  }

  /** With no blocks at all, `gen` pops a line of what was there before,
      and raises on an empty list. */
  lemma GenEndEmpty(prev: seq<string>)
    ensures GenEnd(Assemble(prev, [])) == Popped(prev)
  {
  }

  /** No name occurs twice. */
  predicate Distinct(xs: seq<string>) {
    forall i, j :: 0 <= i < j < |xs| ==> xs[i] != xs[j]
  }

  /** Iterating over a set: every member once, in the set's own order. */
  method SetOrder(s: set<string>) returns (xs: seq<string>)
    ensures Distinct(xs) && |xs| == |s|
    ensures forall x :: x in xs <==> x in s
  {
    xs := [];
    var left := s;
    while left != {}
      invariant left <= s
      invariant Distinct(xs) && |xs| + |left| == |s|
      invariant forall x :: x in xs <==> x in s - left
      decreases |left|
    {
      var x :| x in left;
      assert x !in xs;
      xs := xs + [x];
      left := left - {x};
    }
  }

  /** A set display as `set_wrap` leaves it: `set()` or a brace display. */
  function ShownSet(names: seq<string>): string {
    if |names| == 0 then "set()" else "{" + Items(names) + "}"
  }

  // ------------------------------------------------------------- tables

  /** The names of a table keyed by name (attributes, enum values), in
      table order. */
  function Names<T>(attribs: seq<(string, T)>): (r: seq<string>)
    ensures |r| == |attribs| && forall i :: 0 <= i < |attribs| ==> r[i] == attribs[i].0
  {
    seq(|attribs|, i requires 0 <= i < |attribs| => attribs[i].0)
  }

  /** `'T' if required else 'F'`. */
  function Flag(required: bool): string {
    if required then "T" else "F"
  }

  /** `'{} {} ({}):'.format(type, name, flag)`: the docstring line of one
      entry of a table, with its rendered type, name and flag. */
  function AttrLine(st: string, n: string, a: Attr): string {
    st + " " + n + " (" + Flag(a.required) + "):"
  }

  /** The required attribute names, in table order. */
  function RequiredNames(attribs: seq<(string, Attr)>): seq<string>
    decreases |attribs|
  {
    if |attribs| == 0 then []
    else RequiredNames(attribs[..|attribs| - 1]) + (if attribs[|attribs| - 1].1.required then [attribs[|attribs| - 1].0] else [])
  }

  /** The optional attribute names, in table order. */
  function OptionalNames(attribs: seq<(string, Attr)>): seq<string>
    decreases |attribs|
  {
    if |attribs| == 0 then []
    else OptionalNames(attribs[..|attribs| - 1]) + (if attribs[|attribs| - 1].1.required then [] else [attribs[|attribs| - 1].0])
  }

  /** Each name of a table with its rendered type. */
  function TypePairs(attribs: seq<(string, Attr)>, coPrefix: string): (r: seq<(string, string)>)
    requires forall i :: 0 <= i < |attribs| ==> SourceType(attribs[i].1.typ, coPrefix, "enums.").Ok?
    ensures |r| == |attribs|
    ensures forall i :: 0 <= i < |attribs| ==> r[i] == (attribs[i].0, SourceType(attribs[i].1.typ, coPrefix, "enums.").value)
  {
    seq(|attribs|, i requires 0 <= i < |attribs| => (attribs[i].0, SourceType(attribs[i].1.typ, coPrefix, "enums.").value))
  }

  /** The partition `gen_single` makes of a table: the required names are
      names of the table, the optional ones are exactly the others, and a
      name is required exactly when its entry says so. */
  lemma {:induction false} Partition(attribs: seq<(string, Attr)>)
    requires Distinct(Names(attribs))
    ensures forall x :: x in RequiredNames(attribs) ==> x in Names(attribs)
    ensures forall x :: x in OptionalNames(attribs) <==> x in Names(attribs) && x !in RequiredNames(attribs)
    ensures forall x :: x in RequiredNames(attribs) <==> exists i :: 0 <= i < |attribs| && attribs[i].0 == x && attribs[i].1.required
    decreases |attribs|
  {
    if |attribs| > 0 {
      var front := attribs[..|attribs| - 1];
      var last := attribs[|attribs| - 1];
      assert Names(attribs) == Names(front) + [last.0];
      assert Distinct(Names(front)) by {
        forall i, j | 0 <= i < j < |Names(front)|
          ensures Names(front)[i] != Names(front)[j]
        {
          assert Names(front)[i] == Names(attribs)[i] && Names(front)[j] == Names(attribs)[j];
        }
      }
      assert last.0 !in Names(front) by {
        forall i | 0 <= i < |Names(front)|
          ensures Names(front)[i] != last.0
        {
          assert Names(front)[i] == Names(attribs)[i] && last.0 == Names(attribs)[|attribs| - 1];
        }
      }
      Partition(front);
      forall x
        ensures x in RequiredNames(attribs) <==> exists i :: 0 <= i < |attribs| && attribs[i].0 == x && attribs[i].1.required
      {
        if exists i :: 0 <= i < |attribs| && attribs[i].0 == x && attribs[i].1.required {
          var i :| 0 <= i < |attribs| && attribs[i].0 == x && attribs[i].1.required;
          if i < |front| {
            assert front[i] == attribs[i];
          }
        }
        if x in RequiredNames(front) {
          var i :| 0 <= i < |front| && front[i].0 == x && front[i].1.required;
          assert attribs[i] == front[i];
        }
      }
    }
  }

  /** The names, the required names and the optional names carry no
      square brackets when the attribute names do not. */
  lemma {:induction false} NamesNoBrackets(attribs: seq<(string, Attr)>)
    requires forall i :: 0 <= i < |attribs| ==> NoBrackets(attribs[i].0)
    ensures forall i :: 0 <= i < |Names(attribs)| ==> NoBrackets(Names(attribs)[i])
    ensures forall i :: 0 <= i < |RequiredNames(attribs)| ==> NoBrackets(RequiredNames(attribs)[i])
    ensures forall i :: 0 <= i < |OptionalNames(attribs)| ==> NoBrackets(OptionalNames(attribs)[i])
    decreases |attribs|
  {
    if |attribs| > 0 {
      NamesNoBrackets(attribs[..|attribs| - 1]);
    }
  }

  /** Four pieces of text read the same however they are grouped. */
  lemma Regroup(a: string, b: string, c: string, d: string)
    ensures a + b + c + d == a + (b + c + d)
  {
  }

  /** Text placed between a prefix and a suffix reads the same however it
      is grouped. */
  lemma JoinThree(pre: string, a: string, b: string, post: string)
    ensures pre + (a + b) + post == pre + a + b + post
  {
  }

  /** A shown set ends with its closing bracket. */
  lemma ShownSetEnds(names: seq<string>)
    ensures |ShownSet(names)| > 0
    ensures ShownSet(names)[|ShownSet(names)| - 1] == ')' || ShownSet(names)[|ShownSet(names)| - 1] == '}'
  {
    if |names| > 0 {
      var body := "{" + Items(names) + "}";
      assert body[|body| - 1] == '}';
    }
  }

  /** `set_wrap`'s rewriting turns a set display into the shown set. */
  lemma ShownText(head: string, names: seq<string>)
    requires NoBrackets(head)
    requires forall i :: 0 <= i < |names| ==> NoBrackets(names[i])
    ensures SetText(head + SetDisplay(names)) == head + ShownSet(names)
  {
    SetWrapDisplay(head, names);
    if |names| > 0 {
      Regroup(head, "{", Items(names), "}");
    }
  }

  /** The single line `set_wrap` writes for a set constant. */
  lemma ShownLine(head: string, names: seq<string>)
    requires NoBrackets(head)
    requires forall i :: 0 <= i < |names| ==> NoBrackets(names[i])
    ensures Wrapped(SetText(head + SetDisplay(names)), 4) == [Spaces(4) + head + ShownSet(names) + Newline]
  {
    ShownText(head, names);
    ShownSetEnds(names);
    var shown := head + ShownSet(names);
    assert shown[|shown| - 1] == ShownSet(names)[|ShownSet(names)| - 1];
    EndsNonBlank(shown);
    JoinThree(Spaces(4), head, ShownSet(names), Newline);
  }

  /** `prev` with each text written by `set_wrap` at indent 4. */
  function SetWraps(prev: seq<string>, texts: seq<string>): seq<string>
    decreases |texts|
  {
    if |texts| == 0 then prev else SetWraps(prev, texts[..|texts| - 1]) + Wrapped(SetText(texts[|texts| - 1]), 4)
  }
  /** Four texts written by `set_wrap` one after the other. */
  lemma SetWrapsFour(prev: seq<string>, texts: seq<string>)
    requires |texts| == 4
    ensures SetWraps(prev, texts)
            == prev + Wrapped(SetText(texts[0]), 4) + Wrapped(SetText(texts[1]), 4)
               + Wrapped(SetText(texts[2]), 4) + Wrapped(SetText(texts[3]), 4)
  {
    assert texts[..4] == texts && texts[..3][..2] == texts[..2] && texts[..2][..1] == texts[..1] && texts[..1][..0] == [];
    assert SetWraps(prev, texts[..1]) == prev + Wrapped(SetText(texts[0]), 4);
    assert SetWraps(prev, texts[..2]) == SetWraps(prev, texts[..1]) + Wrapped(SetText(texts[1]), 4);
    assert SetWraps(prev, texts[..3]) == SetWraps(prev, texts[..2]) + Wrapped(SetText(texts[2]), 4);
  }

  /** The single line `set_wrap` writes for a dict constant. */
  lemma DictLine(head: string, pairs: seq<(string, string)>)
    requires NoBrackets(head)
    requires forall i :: 0 <= i < |pairs| ==> NoBrackets(pairs[i].0) && NoBrackets(pairs[i].1)
    ensures Wrapped(SetText(head + DictDisplay(pairs)), 4) == [Spaces(4) + head + DictDisplay(pairs) + Newline]
  {
    SetWrapDict(head, pairs);
    var d := DictDisplay(pairs);
    var text := head + d;
    assert text[|text| - 1] == d[|d| - 1] == '}';
    EndsNonBlank(text);
    JoinThree(Spaces(4), head, d, Newline);
  }

  // ------------------------------------------------------------ the output

  /** The output list the generators append lines to. */
  class Out {
    var lines: seq<string>

    constructor ()
      ensures lines == []
    {
      lines := [];
    }

    /** `line(out, content, *args)`: exactly one element, the formatted
        content and a line end; too few arguments raise IndexError
        before anything is appended. */
    method Line(content: string, args: seq<string>) returns (r: Result<bool>)
      modifies this
      ensures r.Ok? <==> FormatArgs(content, args).Ok?
      ensures r.Ok? ==> lines == old(lines) + [FormatArgs(content, args).value + Newline]
      ensures r.Err? ==> r.error == IndexError && lines == old(lines)
    {
      var f := FormatArgs(content, args);
      if f.Err? {
        return Err(f.error);
      }
      lines := lines + [f.value + Newline];
      return Ok(true);
    }

    /** `line(out, before + '{}' + after, x)` with brace-free texts
        around the one field: the argument between them. */
    method LineWith(before: string, x: string, after: string)
      requires '{' !in before && '{' !in after
      modifies this
      ensures lines == old(lines) + [before + x + after + Newline]
    {
      FormatOne(before, after, x);
      var _ := Line(before + "{}" + after, [x]);
    }

    /** `line(out, a + '{}' + b + '{}' + c, x, y)` with brace-free texts
        around the two fields: the arguments in order between them. */
    method LineTwo(a: string, x: string, b: string, y: string, c: string)
      requires '{' !in a && '{' !in b && '{' !in c
      modifies this
      ensures lines == old(lines) + [a + x + b + y + c + Newline]
    {
      FormatArgsTwo(a, b, c, x, y);
      var _ := Line(a + "{}" + b + "{}" + c, [x, y]);
    }

    /** `line(out, text)` with a brace-free text: the text as it is. */
    method Text(text: string)
      requires '{' !in text
      modifies this
      ensures lines == old(lines) + [text + Newline]
    {
      FormatArgsLiteral(text, []);
      var _ := Line(text, []);
    }

    /** `line(out)`: an empty line. */
    method Blank()
      modifies this
      ensures lines == old(lines) + [Newline]
    {
      FormatArgsLiteral("", []);
      var _ := Line("", []);
      assert "" + Newline == Newline;
    }

    /** `lines(out, content)`: each item with a line end, in order. */
    method Lines(content: seq<string>)
      modifies this
      ensures |lines| == |old(lines)| + |content|
      ensures lines[..|old(lines)|] == old(lines)
      ensures forall i :: 0 <= i < |content| ==> lines[|old(lines)| + i] == content[i] + Newline
    {
      var i := 0;
      while i < |content|
        invariant 0 <= i <= |content|
        invariant |lines| == |old(lines)| + i
        invariant lines[..|old(lines)|] == old(lines)
        invariant forall j :: 0 <= j < i ==> lines[|old(lines)| + j] == content[j] + Newline
      {
        lines := lines + [content[i] + Newline];
        i := i + 1;
      }
    }

    /** `wrap(out, text, initial, …)`: the wrapped block, through
        `lines`. */
    method Wrap(text: string, initial: nat)
      modifies this
      ensures lines == old(lines) + Wrapped(text, initial)
    {
      if NonBlank(text) {
        ghost var before := lines;
        Lines([Spaces(initial) + text]);
        assert lines[|before| + 0] == [Spaces(initial) + text][0] + Newline;
        assert lines == lines[..|before|] + [lines[|before|]];
        assert Wrapped(text, initial) == [Spaces(initial) + text + Newline];
      } else {
        ghost var before := lines;
        Lines([]);
        assert lines == lines[..|before|];
        assert Wrapped(text, initial) == [];
        assert lines == old(lines) + [];
      }
    }

    /** `set_wrap(out, text, initial, …)`: the rewritten text, wrapped. */
    method SetWrap(text: string, initial: nat)
      modifies this
      ensures lines == old(lines) + Wrapped(SetText(text), initial)
    {
      Wrap(SetText(text), initial);
    }

    /** `out.pop()`: the last line goes; an empty list raises
        IndexError. */
    method Pop() returns (r: Result<string>)
      modifies this
      ensures |old(lines)| == 0 ==> r == Err(IndexError) && lines == old(lines)
      ensures |old(lines)| > 0 ==> r == Ok(old(lines)[|old(lines)| - 1]) && lines == old(lines)[..|old(lines)| - 1]
    {
      if |lines| == 0 {
        return Err(IndexError);
      }
      r := Ok(lines[|lines| - 1]);
      lines := lines[..|lines| - 1];
    }
  }
}
