/** The loops that build a streaming template from an answer string (template.py,
    variable_template_parser.py) and that render the string at once from the pool
    (`VariablePool.convert_template`). */
module Rendering {
  import opened Templates
  import opened VariablePool
  import opened Graphs

  // ---------- splitting ----------

  /** The group that the pattern captures: with the hashes in the parser's pattern, without them
      in the pool's. */
  function Captured(parts: Selector, hashes: bool): string {
    if hashes then "#" + Join(parts) + "#" else Join(parts)
  }

  /** `re.split`: texts and captured groups alternate, beginning and ending with a text. */
  function SplitFrom(s: string, text: string, hashes: bool): (r: seq<string>)
    ensures |r| % 2 == 1
    decreases |s|
  {
    if s == "" then [text]
    else
      match Match(s)
      case Some(parts) =>
        MatchIsPattern(s, parts);
        [text, Captured(parts, hashes)] + SplitFrom(s[|Placeholder(parts)|..], "", hashes)
      case None => SplitFrom(s[1..], text + [s[0]], hashes)
  }

  /** `s.split(".")`. */
  function SplitDots(s: string): (r: seq<string>)
    ensures |r| >= 1
    decreases |s|
  {
    if s == "" then [""]
    else
      var rest := SplitDots(s[1..]);
      if s[0] == '.' then [""] + rest else [[s[0]] + rest[0]] + rest[1..]
  }

  /** `s.replace("#", "")`. */
  function Unhash(s: string): string
    decreases |s|
  {
    if s == "" then "" else if s[0] == '#' then Unhash(s[1..]) else [s[0]] + Unhash(s[1..])
  }

  lemma {:induction false} UnhashConcat(a: string, b: string)
    ensures Unhash(a + b) == Unhash(a) + Unhash(b)
    decreases |a|
  {
    if a == "" {
      assert a + b == b;
    } else {
      assert (a + b)[1..] == a[1..] + b;
      UnhashConcat(a[1..], b);
    }
  }

  lemma {:induction false} UnhashClean(s: string)
    requires forall i :: 0 <= i < |s| ==> s[i] != '#'
    ensures Unhash(s) == s
    decreases |s|
  {
    if s != "" { UnhashClean(s[1..]); }
  }

  lemma {:induction false} SplitDotsWord(w: string, s: string)
    requires forall i :: 0 <= i < |w| ==> w[i] != '.'
    ensures SplitDots(w + s) == [w + SplitDots(s)[0]] + SplitDots(s)[1..]
    decreases |w|
  {
    if w == "" {
      assert w + s == s && w + SplitDots(s)[0] == SplitDots(s)[0];
    } else {
      assert (w + s)[1..] == w[1..] + s;
      SplitDotsWord(w[1..], s);
      assert [w[0]] + (w[1..] + SplitDots(s)[0]) == w + SplitDots(s)[0];
    }
  }

  /** Splitting a joined selector gives its parts back. */
  lemma {:induction false} SplitJoin(parts: Selector)
    requires parts != [] && forall i :: 0 <= i < |parts| ==> AllWord(parts[i])
    ensures SplitDots(Join(parts)) == parts
    decreases |parts|
  {
    var w := parts[0];
    assert forall i :: 0 <= i < |w| ==> IsWordChar(w[i]);
    if |parts| == 1 {
      SplitDotsWord(w, "");
      assert w + "" == w && SplitDots("") == [""];
    } else {
      var s := "." + Join(parts[1..]);
      assert Join(parts) == w + s;
      SplitJoin(parts[1..]);
      SplitAtDot(Join(parts[1..]));
      SplitDotsWord(w, s);
      hide SplitDots, Join;
      assert w + "" == w && [w] + parts[1..] == parts;
    }
  }

  lemma SplitAtDot(s: string)
    ensures SplitDots("." + s) == [""] + SplitDots(s)
  {
    assert ("." + s)[1..] == s;
  }

  /** The selector is recovered from the captured key. */
  lemma KeyToSelector(parts: Selector)
    requires Legal(parts)
    ensures SplitDots(Unhash(Captured(parts, true))) == parts && Captured(parts, true) != ""
  {
    hide SplitDots;
    forall i | 0 <= i < |Join(parts)| ensures Join(parts)[i] != '#' {
      JoinHasNoBrace(parts, i);
    }
    UnhashClean(Join(parts));
    UnhashConcat("#" + Join(parts), "#");
    UnhashConcat("#", Join(parts));
    assert Unhash("#") == "" by { assert "#"[1..] == ""; }
    assert Unhash(Captured(parts, true)) == Join(parts);
    SplitJoin(parts);
  }

  // ---------- building the streaming template ----------

  /** `extract_variable_selectors`, as the dictionary that the template builder makes of it. */
  method SelectorsByKey(keys: seq<string>) returns (m: map<string, Selector>)
    ensures forall k :: k in m <==> k in keys && |SplitDots(Unhash(k))| >= 2
    ensures forall k :: k in m ==> m[k] == SplitDots(Unhash(k))
  {
    m := map[];
    for i := 0 to |keys|
      invariant forall k :: k in m <==> k in keys[..i] && |SplitDots(Unhash(k))| >= 2
      invariant forall k :: k in m ==> m[k] == SplitDots(Unhash(k))
    {
      var parts := SplitDots(Unhash(keys[i]));
      assert keys[..i + 1] == keys[..i] + [keys[i]];
      if |parts| < 2 { continue; }
      m := m[keys[i] := parts];
    }
    assert keys[..|keys|] == keys;
  }

  /** The segments that the parts stand for; every second one is a captured key. */
  function FromParts(parts: seq<string>, key: bool): seq<Segment>
    decreases |parts|
  {
    if parts == [] then [] else FromPart(parts[0], key) + FromParts(parts[1..], !key)
  }

  function FromPart(part: string, key: bool): seq<Segment> {
    if part == "" then [] else if key then [Variable(SplitDots(Unhash(part)))] else [Text(part)]
  }

  lemma {:induction false} SplitIsParse(s: string, text: string)
    ensures FromParts(SplitFrom(s, text, true), false) == ParseFrom(s, text)
    decreases |s|
  {
    hide Match, Placeholder;
    var parts := SplitFrom(s, text, true);
    if s == "" {
      assert FromParts(parts[1..], true) == [];
    } else {
      var m := Match(s);
      if m.Some? {
        MatchIsPattern(s, m.value);
        var rest := s[|Placeholder(m.value)|..];
        SplitIsParse(rest, "");
        KeyToSelector(m.value);
        assert parts[1..][1..] == SplitFrom(rest, "", true);
        assert FromPart(parts[1], true) == [Variable(m.value)];
        assert FromParts(parts[1..], true) == [Variable(m.value)] + ParseFrom(rest, "");
      } else {
        SplitIsParse(s[1..], text + [s[0]]);
      }
    }
  }

  /** The captured keys stand at the odd positions. */
  lemma {:induction false} OddPartsAreKeys(s: string, text: string, i: nat)
    requires i < |SplitFrom(s, text, true)| && i % 2 == 1
    ensures |SplitDots(Unhash(SplitFrom(s, text, true)[i]))| >= 2
    decreases |s|
  {
    hide Match, Placeholder, SplitDots, Unhash, Captured;
    if s != "" {
      var m := Match(s);
      if m.Some? {
        MatchIsPattern(s, m.value);
        if i == 1 { KeyToSelector(m.value); } else { OddPartsAreKeys(s[|Placeholder(m.value)|..], "", i - 2); }
      } else {
        OddPartsAreKeys(s[1..], text + [s[0]], i);
      }
    }
  }

  /** The distinct captured groups, in any order (`extract`). */
  ghost predicate ListsKeys(parts: seq<string>, keys: seq<string>) {
    forall k :: k in keys <==> exists i :: 0 <= i < |parts| && i % 2 == 1 && parts[i] == k
  }

  lemma KeysAreKnown(template: string, keys: seq<string>, m: map<string, Selector>)
    requires ListsKeys(SplitFrom(template, "", true), keys)
    requires forall k :: k in m <==> k in keys && |SplitDots(Unhash(k))| >= 2
    ensures var parts := SplitFrom(template, "", true);
      forall i :: 0 <= i < |parts| && i % 2 == 1 ==> parts[i] in m
  {
    var parts := SplitFrom(template, "", true);
    forall i | 0 <= i < |parts| && i % 2 == 1 ensures parts[i] in m {
      OddPartsAreKeys(template, "", i);
      assert parts[i] in keys;
    }
  }

  lemma FromPartsStep(before: seq<Segment>, parts: seq<string>, i: nat, key: bool)
    requires i < |parts|
    ensures before + FromParts(parts[i..], key) == (before + FromPart(parts[i], key)) + FromParts(parts[i + 1..], !key)
  {
    assert parts[i..][1..] == parts[i + 1..];
  }

  lemma SplitParses(template: string)
    ensures FromParts(SplitFrom(template, "", true)[0..], false) == Parse(template)
  {
    SplitIsParse(template, "");
    assert SplitFrom(template, "", true)[0..] == SplitFrom(template, "", true);
  }

  /** `Template.from_answer_template`: the loop yields the parsed template. */
  method FromAnswerTemplate(template: string, keys: seq<string>) returns (segments: seq<Segment>)
    requires ListsKeys(SplitFrom(template, "", true), keys)
    ensures segments == Parse(template)
  {
    hide SplitFrom, SplitDots, Unhash, ListsKeys, ParseFrom, Parse, FromParts;
    var varMap := SelectorsByKey(keys);
    var parts := SplitFrom(template, "", true);
    segments := [];
    SplitParses(template);
    assert segments + FromParts(parts[0..], false) == FromParts(parts[0..], false);
    KeysAreKnown(template, keys, varMap);
    for i := 0 to |parts|
      invariant segments + FromParts(parts[i..], i % 2 == 1) == Parse(template)
    {
      FromPartsStep(segments, parts, i, i % 2 == 1);
      if parts[i] == "" {
        assert segments + [] == segments;
      } else if i % 2 == 1 {
        if parts[i] in varMap {
          segments := segments + [Variable(varMap[parts[i]])];
        } else {
          assert false; // the fallback of the source, a literal placeholder, is never reached
        }
      } else {
        segments := segments + [Text(parts[i])];
      }
    }
    NoPartsLeft(segments, parts, |parts| % 2 == 1);
  }

  lemma NoPartsLeft(before: seq<Segment>, parts: seq<string>, key: bool)
    ensures before + FromParts(parts[|parts|..], key) == before
  {
  }

  // ---------- rendering at once ----------

  /** A part that contains a dot and resolves in the pool is replaced, whether it was a
      placeholder or literal text; anything else stands for itself. */
  function RenderPart(pool: Pool, part: string): string {
    if '.' in part && Get(pool, SplitDots(part)).Some? then Get(pool, SplitDots(part)).value.markdown else part
  }

  /** What a parsed template renders to. */
  function RenderSegment(pool: Pool, seg: Segment): string {
    match seg
    case Text(text) => RenderPart(pool, text)
    case Variable(selector) => if Get(pool, selector).Some? then Get(pool, selector).value.markdown else Join(selector)
  }

  function Render(pool: Pool, t: seq<Segment>): string
    decreases |t|
  {
    if t == [] then "" else RenderSegment(pool, t[0]) + Render(pool, t[1..])
  }

  function RenderParts(pool: Pool, parts: seq<string>): string
    decreases |parts|
  {
    if parts == [] then ""
    else (if parts[0] == "" then "" else RenderPart(pool, parts[0])) + RenderParts(pool, parts[1..])
  }

  lemma {:induction false} RenderConcat(pool: Pool, a: seq<Segment>, b: seq<Segment>)
    ensures Render(pool, a + b) == Render(pool, a) + Render(pool, b)
    decreases |a|
  {
    if a == [] {
      assert a + b == b;
    } else {
      assert (a + b)[1..] == a[1..] + b;
      RenderConcat(pool, a[1..], b);
    }
  }

  lemma PlaceholderRenders(pool: Pool, parts: Selector)
    requires Legal(parts)
    ensures RenderPart(pool, Join(parts)) == RenderSegment(pool, Variable(parts)) && Join(parts) != ""
  {
    SplitJoin(parts);
    assert Join(parts)[|parts[0]|] == '.';
  }

  /** Rendering the split string is rendering the parsed template. */
  lemma {:induction false} SplitRenders(pool: Pool, s: string, text: string)
    ensures RenderParts(pool, SplitFrom(s, text, false)) == Render(pool, ParseFrom(s, text))
    decreases |s|
  {
    hide RenderPart, RenderSegment, Match;
    var parts := SplitFrom(s, text, false);
    if s == "" {
      TextRenders(pool, text);
      assert RenderParts(pool, parts[1..]) == "";
    } else {
      var m := Match(s);
      if m.Some? {
        MatchIsPattern(s, m.value);
        PlaceholderRenders(pool, m.value);
        TextRenders(pool, text);
        var rest := s[|Placeholder(m.value)|..];
        var v := [Variable(m.value)];
        SplitRenders(pool, rest, "");
        RenderConcat(pool, Flush(text) + v, ParseFrom(rest, ""));
        RenderConcat(pool, Flush(text), v);
        assert v[1..] == [] && parts[1..][1..] == SplitFrom(rest, "", false);
      } else {
        SplitRenders(pool, s[1..], text + [s[0]]);
      }
    }
  }

  lemma TextRenders(pool: Pool, text: string)
    ensures Render(pool, Flush(text)) == if text == "" then "" else RenderPart(pool, text)
  {
    if text != "" { assert Flush(text)[1..] == []; }
  }

  lemma SplitRendersParse(pool: Pool, template: string)
    ensures "" + RenderParts(pool, SplitFrom(template, "", false)[0..]) == Render(pool, Parse(template))
  {
    hide SplitFrom, Render, RenderParts, ParseFrom;
    SplitRenders(pool, template, "");
    assert SplitFrom(template, "", false)[0..] == SplitFrom(template, "", false);
  }

  lemma RenderRound(pool: Pool, before: string, parts: seq<string>, i: nat)
    requires i < |parts|
    ensures before + RenderParts(pool, parts[i..]) ==
      (if parts[i] == "" then before else before + RenderPart(pool, parts[i])) + RenderParts(pool, parts[i + 1..])
  {
    hide RenderPart;
    assert parts[i..][1..] == parts[i + 1..];
  }

  lemma NothingToRender(pool: Pool, before: string, parts: seq<string>)
    requires |parts| == 0
    ensures before + RenderParts(pool, parts) == before
  {
  }

  /** `convert_template(template).markdown` renders the parsed template. */
  method ConvertTemplate(pool: Pool, template: string) returns (markdown: string)
    ensures markdown == Render(pool, Parse(template))
  {
    hide SplitFrom, SplitDots, Get, Render, Parse, ParseFrom, RenderParts;
    var parts := SplitFrom(template, "", false);
    markdown := "";
    SplitRendersParse(pool, template);
    for i := 0 to |parts|
      invariant markdown + RenderParts(pool, parts[i..]) == Render(pool, Parse(template))
    {
      RenderRound(pool, markdown, parts, i);
      if parts[i] != "" {
        var value := if '.' in parts[i] then Get(pool, SplitDots(parts[i])) else None;
        markdown := markdown + if value.Some? then value.value.markdown else parts[i];
      }
    }
    NothingToRender(pool, markdown, parts[|parts|..]);
  }
}
