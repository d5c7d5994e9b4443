/** Answer templates (template.py, variable_template_parser.py): literal text and placeholders
    `{{#node.name#}}`, parsed out of a string and printed back. */
module Templates {
  type Selector = seq<string>

  datatype Segment = Text(text: string) | Variable(selector: Selector)

  datatype Option<+T> = None | Some(value: T)

  // ---------- the placeholder grammar ----------

  predicate IsDigit(c: char) { '0' <= c <= '9' }

  predicate IsWordChar(c: char) { 'a' <= c <= 'z' || 'A' <= c <= 'Z' || IsDigit(c) || c == '_' }

  predicate AllWord(w: string) { forall i :: 0 <= i < |w| ==> IsWordChar(w[i]) }

  /** `[a-zA-Z0-9_]{1,256}(\.[a-zA-Z_][a-zA-Z0-9_]{0,255}){1,10}`, by its parts. */
  predicate Legal(parts: Selector) {
    && 2 <= |parts| <= 11
    && (forall i :: 0 <= i < |parts| ==> 1 <= |parts[i]| <= 256 && AllWord(parts[i]))
    && (forall i :: 1 <= i < |parts| ==> !IsDigit(parts[i][0]))
  }

  /** `".".join(parts)`. */
  function Join(parts: Selector): string
    decreases |parts|
  {
    if parts == [] then "" else if |parts| == 1 then parts[0] else parts[0] + "." + Join(parts[1..])
  }

  function Placeholder(parts: Selector): (r: string)
    ensures |r| == 6 + |Join(parts)|
  {
    "{{#" + Join(parts) + "#}}"
  }

  /** The longest prefix of word characters. */
  function Word(s: string): (w: string)
    ensures w <= s && AllWord(w) && (|w| < |s| ==> !IsWordChar(s[|w|]))
    decreases |s|
  {
    if s == "" || !IsWordChar(s[0]) then "" else [s[0]] + Word(s[1..])
  }

  lemma JoinedFirst(w: string, rest: Selector, s: string)
    requires rest != [] && |w| < |s| && w <= s && s[|w|] == '.' && Join(rest) <= s[|w| + 1..]
    ensures Join([w] + rest) <= s
  {
    assert s == w + "." + s[|w| + 1..] && ([w] + rest)[1..] == rest;
    assert Join([w] + rest) == w + "." + Join(rest);
  }

  /** The words, separated by dots, at the start of `s`. */
  function Words(s: string): (r: Selector)
    ensures |r| >= 1 && Join(r) <= s
    decreases |s|
  {
    var w := Word(s);
    if |w| < |s| && s[|w|] == '.' then
      var rest := Words(s[|w| + 1..]);
      JoinedFirst(w, rest, s);
      [w] + rest
    else [w]
  }

  /** The match of the placeholder pattern at the start of `s`. Words are followed by a
      character that is not part of a word, so there is at most one. */
  function Match(s: string): Option<Selector> {
    if |s| < 3 || s[..3] != "{{#" then None
    else
      var parts := Words(s[3..]);
      if Legal(parts) && "#}}" <= s[3 + |Join(parts)|..] then Some(parts) else None
  }

  lemma {:induction false} WordStops(w: string, s: string)
    requires AllWord(w) && w <= s && (|w| < |s| ==> !IsWordChar(s[|w|]))
    ensures Word(s) == w
    decreases |w|
  {
    if w != "" {
      assert s[0] == w[0];
      WordStops(w[1..], s[1..]);
    }
  }

  /** The first word of a joined selector is read, and the others follow its dot. */
  lemma JoinedPrefix(parts: Selector, s: string)
    requires |parts| > 1 && AllWord(parts[0]) && Join(parts) <= s
    ensures var w := parts[0];
      |w| < |s| && s[|w|] == '.' && Word(s) == w &&
      Join(parts[1..]) <= s[|w| + 1..] && |Join(parts)| == |w| + 1 + |Join(parts[1..])|
  {
    var w := parts[0];
    assert Join(parts) == w + "." + Join(parts[1..]);
    assert s[|w|] == Join(parts)[|w|] == '.';
    assert w <= s by { assert w == Join(parts)[..|w|] == s[..|w|]; }
    WordStops(w, s);
    assert Join(parts[1..]) == Join(parts)[|w| + 1..] == s[|w| + 1..|Join(parts)|];
  }

  lemma {:induction false} WordsStop(parts: Selector, s: string)
    requires parts != [] && (forall i :: 0 <= i < |parts| ==> AllWord(parts[i])) && Join(parts) <= s
    requires |Join(parts)| < |s| && s[|Join(parts)|] == '#'
    ensures Words(s) == parts
    decreases |parts|
  {
    var w := parts[0];
    if |parts| == 1 {
      WordStops(w, s);
    } else {
      hide AllWord, Word, IsWordChar;
      JoinedPrefix(parts, s);
      WordsStop(parts[1..], s[|w| + 1..]);
    }
  }

  lemma PatternIsMatched(s: string, parts: Selector)
    requires Legal(parts) && Placeholder(parts) <= s
    ensures Match(s) == Some(parts)
  {
    var p := Placeholder(parts);
    var n := 3 + |Join(parts)|;
    assert s[..3] == p[..3] == "{{#";
    assert Join(parts) <= s[3..] && s[n] == '#' && "#}}" <= s[n..] by {
      assert Join(parts) == p[3..n] == s[3..n];
      assert "#}}" == p[n..] == s[n..n + 3];
    }
    hide Placeholder;
    WordsStop(parts, s[3..]);
  }

  lemma MatchIsPatterned(s: string, parts: Selector)
    requires Match(s) == Some(parts)
    ensures Legal(parts) && Placeholder(parts) <= s
  {
    hide Legal, Words;
    var n := 3 + |Join(parts)|;
    assert s == s[..3] + s[3..n] + s[n..n + 3] + s[n + 3..];
    assert s[3..n] == Join(parts);
  }

  /** The matcher finds a placeholder exactly when `s` starts with a legal one. */
  lemma MatchIsPattern(s: string, parts: Selector)
    ensures Match(s) == Some(parts) <==> Legal(parts) && Placeholder(parts) <= s
  {
    hide *;
    if Legal(parts) && Placeholder(parts) <= s { PatternIsMatched(s, parts); }
    if Match(s) == Some(parts) { MatchIsPatterned(s, parts); }
  }

  lemma {:induction false} JoinHasNoBrace(parts: Selector, i: nat)
    requires (forall k :: 0 <= k < |parts| ==> AllWord(parts[k])) && i < |Join(parts)|
    ensures IsWordChar(Join(parts)[i]) || Join(parts)[i] == '.'
    decreases |parts|
  {
    if |parts| > 1 && i > |parts[0]| { JoinHasNoBrace(parts[1..], i - |parts[0]| - 1); }
  }

  // ---------- parsing and printing ----------

  function Flush(text: string): seq<Segment> { if text == "" then [] else [Text(text)] }

  /** The segments of `text + s`, where no placeholder starts within `text`. */
  function ParseFrom(s: string, text: string): seq<Segment>
    decreases |s|
  {
    if s == "" then Flush(text)
    else
      match Match(s)
      case Some(parts) =>
        MatchIsPattern(s, parts);
        Flush(text) + [Variable(parts)] + ParseFrom(s[|Placeholder(parts)|..], "")
      case None => ParseFrom(s[1..], text + [s[0]])
  }

  /** `Template.from_answer_template`. */
  function Parse(s: string): seq<Segment> { ParseFrom(s, "") }

  function PrintSegment(seg: Segment): string {
    match seg
    case Text(text) => text
    case Variable(selector) => Placeholder(selector)
  }

  /** `Template.__str__`. */
  function Print(t: seq<Segment>): string
    decreases |t|
  {
    if t == [] then "" else PrintSegment(t[0]) + Print(t[1..])
  }

  lemma {:induction false} PrintConcat(a: seq<Segment>, b: seq<Segment>)
    ensures Print(a + b) == Print(a) + Print(b)
    decreases |a|
  {
    if a == [] {
      assert a + b == b;
    } else {
      assert (a + b)[1..] == a[1..] + b;
      PrintConcat(a[1..], b);
    }
  }

  lemma {:induction false} PrintParseFrom(s: string, text: string)
    ensures Print(ParseFrom(s, text)) == text + s
    decreases |s|
  {
    hide Match, Print, Placeholder;
    if s == "" {
      PrintFlush(text);
    } else {
      var m := Match(s);
      if m.Some? {
        MatchIsPattern(s, m.value);
        var p := Placeholder(m.value);
        PrintParseFrom(s[|p|..], "");
        PrintMatched(text, m.value, ParseFrom(s[|p|..], ""));
        assert p + s[|p|..] == s;
        assert ParseFrom(s, text) == Flush(text) + [Variable(m.value)] + ParseFrom(s[|p|..], "");
        assert text + p + s[|p|..] == text + s;
      } else {
        PrintParseFrom(s[1..], text + [s[0]]);
        assert text + [s[0]] + s[1..] == text + s;
      }
    }
  }

  lemma PrintFlush(text: string)
    ensures Print(Flush(text)) == text
  {
  }

  lemma PrintMatched(text: string, parts: Selector, rest: seq<Segment>)
    ensures Print(Flush(text) + [Variable(parts)] + rest) == text + Placeholder(parts) + Print(rest)
  {
    hide Placeholder;
    PrintConcat(Flush(text) + [Variable(parts)], rest);
    PrintConcat(Flush(text), [Variable(parts)]);
    PrintFlush(text);
    assert Print([Variable(parts)]) == Placeholder(parts);
  }

  /** Printing undoes parsing, for every string. */
  lemma PrintParse(s: string)
    ensures Print(Parse(s)) == s
  {
    PrintParseFrom(s, "");
  }

  // ---------- normal forms ----------

  /** No placeholder starts in `text` and ends in it. */
  ghost predicate NoneHidden(text: string) {
    forall j :: 0 <= j < |text| ==> Match(text[j..]) == None
  }

  ghost predicate SegmentOk(seg: Segment) {
    match seg
    case Text(text) => text != "" && NoneHidden(text)
    case Variable(selector) => Legal(selector)
  }

  /** Texts are not empty, hide no placeholder and are not adjacent; selectors are legal. */
  ghost predicate Normal(t: seq<Segment>)
    decreases |t|
  {
    t == [] || (SegmentOk(t[0]) && Normal(t[1..]) && !(t[0].Text? && |t| > 1 && t[1].Text?))
  }

  lemma BracesOpenOnly(parts: Selector, i: nat)
    requires Legal(parts) && 2 <= i < |Placeholder(parts)|
    ensures Placeholder(parts)[i] != '{'
  {
    if 3 <= i < 3 + |Join(parts)| { JoinHasNoBrace(parts, i - 3); }
  }

  /** A placeholder cannot begin in a text and end in the variable that follows: braces open it
      only. */
  lemma NoneCrosses(text: string, rest: string, parts: Selector)
    requires text != "" && (rest == "" || "{{#" <= rest)
    requires Legal(parts) && Placeholder(parts) <= text + rest
    ensures Placeholder(parts) <= text
  {
    hide Legal;
    var p := Placeholder(parts);
    if |p| > |text| {
      hide Placeholder;
      assert p[|text|] == (text + rest)[|text|] == rest[0];
      if |text| >= 2 {
        BracesOpenOnly(parts, |text|);
      } else {
        assert p[2] == (text + rest)[2] == rest[1];
        BracesOpenOnly(parts, 2);
      }
    } else {
      hide Placeholder;
      assert p == (text + rest)[..|p|] == text[..|p|];
    }
  }

  lemma NoneAcross(text: string, rest: string)
    requires text != "" && Match(text) == None && (rest == "" || "{{#" <= rest)
    ensures Match(text + rest) == None
  {
    hide Match, Legal, Placeholder;
    var m := Match(text + rest);
    if m.Some? {
      MatchIsPattern(text + rest, m.value);
      NoneCrosses(text, rest, m.value);
      MatchIsPattern(text, m.value);
    }
  }

  lemma {:induction false} ParseText(text: string, rest: string, before: string)
    requires NoneHidden(text) && (rest == "" || "{{#" <= rest)
    ensures ParseFrom(text + rest, before) == ParseFrom(rest, before + text)
    decreases |text|
  {
    if text == "" {
      assert text + rest == rest && before + text == before;
    } else {
      assert text[0..] == text;
      NoneAcross(text, rest);
      assert (text + rest)[1..] == text[1..] + rest;
      assert before + [text[0]] + text[1..] == before + text;
      forall j | 0 <= j < |text[1..]| ensures Match(text[1..][j..]) == None {
        assert text[1..][j..] == text[j + 1..];
      }
      ParseText(text[1..], rest, before + [text[0]]);
    }
  }

  lemma StartsWithBrace(t: seq<Segment>)
    requires Normal(t) && (t != [] ==> t[0].Variable?)
    ensures Print(t) == "" || "{{#" <= Print(t)
  {
  }

  /** Parsing undoes printing, for normal templates. */
  lemma {:induction false} ParsePrintNormal(t: seq<Segment>)
    requires Normal(t)
    ensures Parse(Print(t)) == t
    decreases |t|
  {
    hide Match, Legal, Placeholder, NoneHidden;
    if t != [] {
      var rest := Print(t[1..]);
      match t[0]
      case Variable(selector) =>
        ParsePlaceholder(selector, rest, "");
        ParsePrintNormal(t[1..]);
        assert [] + [t[0]] + t[1..] == t;
      case Text(text) =>
        StartsWithBrace(t[1..]);
        ParseText(text, rest, "");
        assert "" + text == text;
        if |t| == 1 {
          assert rest == "" && text + rest == text;
          assert t == [t[0]];
        } else {
          var v := t[1].selector;
          ParsePlaceholder(v, Print(t[2..]), text);
          assert t[1..][1..] == t[2..];
          ParsePrintNormal(t[2..]);
          assert rest == Placeholder(v) + Print(t[2..]);
          assert [t[0]] + [t[1]] + t[2..] == t;
        }
    }
  }

  lemma ParsePlaceholder(selector: Selector, rest: string, before: string)
    requires Legal(selector)
    ensures ParseFrom(Placeholder(selector) + rest, before) == Flush(before) + [Variable(selector)] + Parse(rest)
  {
    var s := Placeholder(selector) + rest;
    MatchIsPattern(s, selector);
    assert s[|Placeholder(selector)|..] == rest;
  }

  /** What the parser returns is normal. */
  lemma {:induction false} ParseFromIsNormal(s: string, text: string)
    requires forall j :: 0 <= j < |text| ==> Match(text[j..] + s) == None
    ensures Normal(ParseFrom(s, text))
    decreases |s|
  {
    hide Match, Legal, Placeholder, NoneHidden;
    FlushIsNormal(s, text);
    if s != "" {
      var m := Match(s);
      if m.Some? {
        MatchIsPattern(s, m.value);
        var p := Placeholder(m.value);
        ParseFromIsNormal(s[|p|..], "");
        NormalConcat(text, m.value, ParseFrom(s[|p|..], ""));
      } else {
        var more := text + [s[0]];
        forall j | 0 <= j < |more| ensures Match(more[j..] + s[1..]) == None {
          if j < |text| {
            assert more[j..] + s[1..] == text[j..] + s;
          } else {
            assert more[j..] + s[1..] == s;
          }
        }
        ParseFromIsNormal(s[1..], more);
      }
    }
  }

  lemma NormalConcat(text: string, parts: Selector, rest: seq<Segment>)
    requires Normal(Flush(text)) && Legal(parts) && Normal(rest)
    ensures Normal(Flush(text) + [Variable(parts)] + rest)
  {
    hide Legal, NoneHidden;
    var tail := [Variable(parts)] + rest;
    assert tail[1..] == rest;
    assert Flush(text) + [Variable(parts)] + rest == Flush(text) + tail;
    if text != "" { assert (Flush(text) + tail)[1..] == tail; } else { assert Flush(text) + tail == tail; }
  }

  lemma FlushIsNormal(s: string, text: string)
    requires forall j :: 0 <= j < |text| ==> Match(text[j..] + s) == None
    ensures Normal(Flush(text))
  {
    forall j | 0 <= j < |text| ensures Match(text[j..]) == None {
      var m := Match(text[j..]);
      if m.Some? {
        MatchIsPattern(text[j..], m.value);
        MatchIsPattern(text[j..] + s, m.value);
      }
    }
  }

  /** Reparsing the print of a template gives it back exactly when the template is normal. */
  lemma ParsePrint(t: seq<Segment>)
    ensures Parse(Print(t)) == t <==> Normal(t)
  {
    ParseFromIsNormal(Print(t), "");
    if Normal(t) { ParsePrintNormal(t); }
  }
}
