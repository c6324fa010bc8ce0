/** The scraper's parser for the English type phrases of the API
    documentation (generators/miner.py, `get_type`). */
module Miner {
  import opened PyBase
  import opened GenCommon

  /** The builtin phrases and the Python types they name. */
  const Builtins: map<string, Builtin> := map[
    "boolean value, either true or false" := BBool,
    "date string in the format \"yyyy-MM-dd'T'HH:mm:ssZ\", for example \"2013-12-11T10:09:08+0000\"" := BDateTime,
    "floating point number" := BFloat,
    "string of characters" := BStr,
    "whole number" := BInt,
    "byte value" := BBytes,
    "enum" := BEnum]

  /** The phrase starts with a map prefix. */
  predicate IsMap(s: string) {
    StartsWith(s, "Map of ") || StartsWith(s, "map of ")
  }

  /** The phrase starts with an article. */
  predicate HasArticle(s: string) {
    StartsWith(s, "A ") || StartsWith(s, "a ") || StartsWith(s, "An ") || StartsWith(s, "an ")
  }

  /** `s.split(' ', 1)[1]` for a phrase with an article: the text after
      the article's space. */
  function AfterArticle(s: string): (rest: string)
    requires HasArticle(s)
    ensures |rest| < |s|
    ensures (StartsWith(s, "A ") || StartsWith(s, "a ")) ==> s == s[..2] + rest
    ensures !(StartsWith(s, "A ") || StartsWith(s, "a ")) ==> s == s[..3] + rest
  {
    if StartsWith(s, "A ") || StartsWith(s, "a ") then s[2..] else s[3..]
  }

  /** The outcome of `get_type`: the descriptor or the exception, and the
      phrases added to `u_types` on the way. */
  datatype Mined = Mined(r: Result<TypeDesc>, added: set<string>)

  /** `get_type(s, d_types, u_types)` on a plain string. */
  function TypeOf(s: string): Mined
    decreases |s|
  {
    if IsMap(s) then
      var parts := SplitOnce(s[7..], " to ");
      var left := TypeOf(parts[0]);
      if left.r.Err? then left
      else if |parts| < 2 then Mined(Err(IndexError), left.added)
      else
        var right := TypeOf(parts[1]);
        if right.r.Err? then Mined(right.r, left.added + right.added)
        else Mined(Ok(DictOf(left.r.value, right.r.value)), left.added + right.added)
    else if HasArticle(s) then
      var rest := AfterArticle(s);
      if EndsWith(rest, " array") then
        var elem := TypeOf("a " + rest[..|rest| - 6]);
        if elem.r.Err? then elem else Mined(Ok(ListOf(elem.r.value)), elem.added)
      else NamedType(rest)
    else Mined(Ok(Phrase(s)), {s})
  }

  /** The article branch of `get_type` once ` array` is ruled out: a
      complex object, an enumeration, a builtin or a recorded phrase. */
  function NamedType(rest: string): Mined
  {
    if EndsWith(rest, " object") then Mined(Ok(Co(rest[..|rest| - 7])), {})
    else if EndsWith(rest, " enum") then
      assert rest[|rest| - 5..][0] == ' ';
      Mined(Ok(EnumOf(RSplitSpace2(rest)[1])), {})
    else if rest in Builtins then Mined(Ok(BuiltinType(Builtins[rest])), {})
    else Mined(Ok(Phrase(rest)), {rest})
  }

  /** The caller's `u_types` set, which `get_type` adds to. */
  class UnknownTypes {
    var names: set<string>

    constructor ()
      ensures names == {}
    {
      names := {};
    }
  }

  /** `get_type`, adding the unrecognised phrases to `u`. */
  method GetType(s: string, u: UnknownTypes) returns (r: Result<TypeDesc>)
    modifies u
    ensures r == TypeOf(s).r
    ensures u.names == old(u.names) + TypeOf(s).added
    decreases |s|
  {
    if IsMap(s) {
      var parts := SplitOnce(s[7..], " to ");
      var left := GetType(parts[0], u);
      if left.Err? {
        return left;
      }
      if |parts| < 2 {
        return Err(IndexError);
      }
      var right := GetType(parts[1], u);
      if right.Err? {
        return right;
      }
      return Ok(DictOf(left.value, right.value));
    }
    if HasArticle(s) {
      var rest := AfterArticle(s);
      if EndsWith(rest, " array") {
        var elem := GetType("a " + rest[..|rest| - 6], u);
        if elem.Err? {
          return elem;
        }
        return Ok(ListOf(elem.value));
      }
      r := GetNamed(rest, u);
      return;
    }
    u.names := u.names + {s};
    return Ok(Phrase(s));
  }

  /** The article branch of `get_type` once ` array` is ruled out. */
  method GetNamed(rest: string, u: UnknownTypes) returns (r: Result<TypeDesc>)
    modifies u
    ensures r == NamedType(rest).r
    ensures u.names == old(u.names) + NamedType(rest).added
  {
    if EndsWith(rest, " object") {
      return Ok(Co(rest[..|rest| - 7]));
    } else if EndsWith(rest, " enum") {
      assert rest[|rest| - 5..][0] == ' ';
      var words := RSplitSpace2(rest);
      return Ok(EnumOf(words[1]));
    }
    if rest in Builtins {
      return Ok(BuiltinType(Builtins[rest]));
    }
    u.names := u.names + {rest};
    return Ok(Phrase(rest));
  }

  // --------------------------------------------------------------- lemmas

  /** The phrases a descriptor keeps unparsed. */
  function PhraseNames(t: TypeDesc): set<string>
    decreases t
  {
    if t.Phrase? then {t.s}
    else if t.DictOf? then PhraseNames(t.key) + PhraseNames(t.item)
    else if t.ListOf? then PhraseNames(t.elem)
    else {}
  }

  /** A parsed phrase records in `u_types` exactly the phrases its
      descriptor keeps unparsed, and never holds a tuple with an unknown
      head, so `source_type` can render it. */
  lemma {:induction false} TypeOfWellFormed(s: string)
    ensures TypeOf(s).r.Ok? ==> TypeOf(s).added == PhraseNames(TypeOf(s).r.value)
    ensures TypeOf(s).r.Ok? ==> !HasOtherTuple(TypeOf(s).r.value)
    decreases |s|
  {
    if IsMap(s) {
      var parts := SplitOnce(s[7..], " to ");
      TypeOfWellFormed(parts[0]);
      if |parts| == 2 {
        TypeOfWellFormed(parts[1]);
      }
    } else if HasArticle(s) {
      var rest := AfterArticle(s);
      if EndsWith(rest, " array") {
        TypeOfWellFormed("a " + rest[..|rest| - 6]);
      }
    }
  }

  /** The only failure is a map phrase without ` to `, and it raises
      IndexError. */
  lemma {:induction false} TypeOfFails(s: string)
    ensures TypeOf(s).r.Err? ==> TypeOf(s).r.error == IndexError
    ensures !IsMap(s) && !HasArticle(s) ==> TypeOf(s) == Mined(Ok(Phrase(s)), {s})
    ensures IsMap(s) && Find(s[7..], " to ").None? ==> TypeOf(s).r.Err?
    decreases |s|
  {
    if IsMap(s) {
      var parts := SplitOnce(s[7..], " to ");
      TypeOfFails(parts[0]);
      if |parts| == 2 {
        TypeOfFails(parts[1]);
      }
    } else if HasArticle(s) {
      var rest := AfterArticle(s);
      if EndsWith(rest, " array") {
        TypeOfFails("a " + rest[..|rest| - 6]);
      }
    }
  }

  /** A phrase with an article is not a map phrase. */
  lemma ArticleNotMap(s: string)
    requires HasArticle(s)
    ensures !IsMap(s)
  {
    assert s[0] == 'A' || s[0] == 'a';
    assert "Map of "[0] == 'M' && "map of "[0] == 'm';
    if |s| >= 7 {
      assert s[..7][0] == s[0];
    }
  }

  /** `s.split(' to ', 1)` when the first ` to ` follows `x`. */
  lemma SplitAtTo(x: string, y: string)
    requires forall j :: 0 <= j < |x| ==> !OccursAt(x + " to " + y, " to ", j)
    ensures SplitOnce(x + " to " + y, " to ") == [x, y]
  {
    var body := x + " to " + y;
    assert OccursAt(body, " to ", |x|) by {
      assert body[|x|..|x| + 4] == " to ";
    }
    var f := Find(body, " to ");
    assert f.Some?;
    assert !(|x| < f.value);
    assert !(f.value < |x|);
    assert body[..|x|] == x && body[|x| + 4..] == y;
  }

  /** `Map of X to Y` splits at the first ` to ` and parses both sides,
      the left side first; the phrases both sides record are kept. */
  lemma MapPhrase(s: string, x: string, y: string)
    requires IsMap(s) && s[7..] == x + " to " + y
    requires forall j :: 0 <= j < |x| ==> !OccursAt(x + " to " + y, " to ", j)
    ensures TypeOf(x).r.Ok? && TypeOf(y).r.Ok? ==>
            TypeOf(s) == Mined(Ok(DictOf(TypeOf(x).r.value, TypeOf(y).r.value)), TypeOf(x).added + TypeOf(y).added)
    ensures TypeOf(x).r.Err? ==> TypeOf(s) == TypeOf(x)
  {
    SplitAtTo(x, y);
  }

  /** An article phrase ending in ` array` gives a typed list of the
      element phrase, which is parsed again with the article `a `. */
  lemma ArrayPhrase(s: string, x: string)
    requires HasArticle(s) && AfterArticle(s) == x + " array"
    ensures TypeOf("a " + x).r.Ok? ==> TypeOf(s) == Mined(Ok(ListOf(TypeOf("a " + x).r.value)), TypeOf("a " + x).added)
    ensures TypeOf("a " + x).r.Err? ==> TypeOf(s) == TypeOf("a " + x)
  {
    ArticleNotMap(s);
    var rest := x + " array";
    assert EndsWith(rest, " array") by {
      assert rest[|rest| - 6..] == " array";
    }
    assert rest[..|rest| - 6] == x;
  }

  /** An article phrase ending in ` object` names a complex object and
      records nothing. */
  lemma ObjectPhrase(s: string, x: string)
    requires HasArticle(s) && AfterArticle(s) == x + " object"
    ensures TypeOf(s) == Mined(Ok(Co(x)), {})
  {
    ArticleNotMap(s);
    var rest := x + " object";
    assert rest[|rest| - 1] == 't' && " array"[5] == 'y';
    assert !EndsWith(rest, " array") by {
      if |rest| >= 6 {
        assert rest[|rest| - 6..][5] == rest[|rest| - 1];
      }
    }
    assert EndsWith(rest, " object") by {
      assert rest[|rest| - 7..] == " object";
    }
    assert rest[..|rest| - 7] == x;
  }

  /** The last space of `s` is at `k` when `s[k]` is one and none
      follows it. */
  lemma LastSpaceAt(s: string, k: nat)
    requires k < |s| && s[k] == ' '
    requires forall j :: k < j < |s| ==> s[j] != ' '
    ensures LastIndexOf(s, ' ') == Some(k)
  {
  }

  /** The last space of `a + " " + b`, when `b` has none, is the one
      between them. */
  lemma LastSpace(a: string, b: string)
    requires ' ' !in b
    ensures LastIndexOf(a + " " + b, ' ') == Some(|a|)
  {
    var h := a + " ";
    var s := h + b;
    assert |h| == |a| + 1 && h[|a|] == ' ';
    forall j | |h| <= j < |s|
      ensures s[j] != ' '
    {
      var i := j - |h|;
      assert s[j] == b[i];
      assert b[i] in b;
    }
    LastSpaceAt(s, |a|);
  }

  /** An article phrase ending in ` enum` never ends in ` array` or
      ` object`. */
  lemma EnumEnding(rest: string)
    requires EndsWith(rest, " enum")
    ensures !EndsWith(rest, " array") && !EndsWith(rest, " object")
  {
    assert rest[|rest| - 1] == rest[|rest| - 5..][4] == 'm';
    if |rest| >= 6 {
      assert rest[|rest| - 6..][5] == rest[|rest| - 1];
    }
    if |rest| >= 7 {
      assert rest[|rest| - 7..][6] == rest[|rest| - 1];
    }
  }

  /** An article phrase ending in ` enum` names the enumeration after
      the middle part of `rsplit(' ', 2)`. */
  lemma ArticleEnum(s: string)
    requires HasArticle(s) && EndsWith(AfterArticle(s), " enum")
    ensures ' ' in AfterArticle(s)
    ensures TypeOf(s) == Mined(Ok(EnumOf(RSplitSpace2(AfterArticle(s))[1])), {})
  {
    var rest := AfterArticle(s);
    assert rest[|rest| - 5] == rest[|rest| - 5..][0] == ' ';
    ArticleNotMap(s);
    EnumEnding(AfterArticle(s));
  }

  /** Text followed by ` enum` ends in ` enum`. */
  lemma EnumSuffix(a: string)
    ensures EndsWith(a + " enum", " enum")
  {
    var rest := a + " enum";
    assert rest[|rest| - 5..] == " enum";
  }

  /** ` enum` is a space followed by `enum`. */
  lemma EnumWord()
    ensures " enum" == " " + "enum"
  {
  }

  /** The last space of `a + " enum"` is the one before `enum`. */
  lemma EnumLastSpace(a: string)
    ensures LastIndexOf(a + " enum", ' ') == Some(|a|)
  {
    EnumWord();
    Grouped(a, " ", "enum");
    LastSpace(a, "enum");
  }

  /** `rsplit(' ', 2)` of `V X enum` with no space in `X`: `X` is the
      middle part. */
  lemma EnumWordTwo(v: string, x: string)
    requires ' ' !in x
    ensures RSplitSpace2(v + " " + x + " enum")[1] == x
  {
    var a := v + " " + x;
    var rest := a + " enum";
    EnumLastSpace(a);
    assert rest[..|a|] == a;
    LastSpace(v, x);
    assert a[|v| + 1..] == x;
    assert rest[|v| + 1..|a|] == x;
  }

  /** `rsplit(' ', 2)` of `W enum` with no space in `W`: `enum` is the
      second part. */
  lemma EnumWordOne(w: string)
    requires ' ' !in w
    ensures RSplitSpace2(w + " enum")[1] == "enum"
  {
    var rest := w + " enum";
    EnumLastSpace(w);
    assert rest[..|w|] == w;
    assert rest[|w| + 1..] == "enum";
  }

  /** `A … W X enum`: the enumeration is named by the word before `enum`
      when at least two words precede it. */
  lemma EnumPhrase(s: string, v: string, x: string)
    requires HasArticle(s) && AfterArticle(s) == v + " " + x + " enum" && ' ' !in x
    ensures TypeOf(s) == Mined(Ok(EnumOf(x)), {})
  {
    EnumSuffix(v + " " + x);
    ArticleEnum(s);
    EnumWordTwo(v, x);
  }

  /** `A X enum` with a single word before `enum`: `rsplit(' ', 2)[1]` is
      then `enum` itself, not the word. */
  lemma EnumPhraseOneWord(s: string, w: string)
    requires HasArticle(s) && AfterArticle(s) == w + " enum" && ' ' !in w
    ensures TypeOf(s) == Mined(Ok(EnumOf("enum")), {})
  {
    EnumSuffix(w);
    ArticleEnum(s);
    EnumWordOne(w);
  }

  /** Any other article phrase is a known builtin, which records nothing,
      or is recorded and kept without its article. */
  lemma PlainArticlePhrase(s: string)
    requires HasArticle(s)
    requires !EndsWith(AfterArticle(s), " array") && !EndsWith(AfterArticle(s), " object")
    requires !EndsWith(AfterArticle(s), " enum")
    ensures AfterArticle(s) in Builtins ==> TypeOf(s) == Mined(Ok(BuiltinType(Builtins[AfterArticle(s)])), {})
    ensures AfterArticle(s) !in Builtins ==> TypeOf(s) == Mined(Ok(Phrase(AfterArticle(s))), {AfterArticle(s)})
  {
    ArticleNotMap(s);
  }
}
