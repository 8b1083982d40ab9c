/**
  Retained text into chunks (platform_core/corpus/chunking.py).

  The tokenizer is additive: a text has as many tokens as characters, and cutting its token
  sequence cuts the text. canonical_id is injective in the stripped text.
 */
module Chunking {
  import opened Prelude
  import opened Text

  const TARGET_TOKENS: nat := 420
  const MIN_TOKENS: nat := 60
  const OVERLAP_TOKENS: nat := 60

  function Count(text: string): nat { |text| }

  function CanonicalId(text: string): string { Strip(text) }

  // ---------------------------------------------------------------- sections

  datatype Section = Section(heading: Option<string>, body: string)

  /** text.split("\n"), with `line` the part already read of the current line. */
  function SplitLines(text: string, line: string): seq<string>
    decreases |text|
  {
    if text == "" then [line]
    else if text[0] == '\n' then [line] + SplitLines(text[1..], "")
    else SplitLines(text[1..], line + [text[0]])
  }

  function Lines(text: string): seq<string> { SplitLines(text, "") }

  function Hashes(line: string): (n: nat)
    ensures n <= |line|
  {
    if line != "" && line[0] == '#' then 1 + Hashes(line[1..]) else 0
  }

  /** ^(#{1,6})\s+(.*\S)\s*$, and group 2 stripped. */
  function HeadingOf(line: string): (h: Option<string>)
    ensures h.Some? ==> Stripped(h.value)
  {
    var n := Hashes(line);
    if 1 <= n <= 6 && n < |line| && Space(line[n]) && Strip(line[n..]) != "" then Some(Strip(line[n..])) else None
  }

  predicate AnyInk(body: seq<string>) {
    exists i :: 0 <= i < |body| && Strip(body[i]) != ""
  }

  /** The section the lines since the last heading make, if they have any content. */
  function Closed(heading: Option<string>, body: seq<string>): seq<Section> {
    if AnyInk(body) then [Section(heading, Strip(Join("\n", body)))] else []
  }

  /** The sections of the lines still to come, after `body` lines under `heading`. */
  function SectionsFrom(lines: seq<string>, heading: Option<string>, body: seq<string>): seq<Section>
    decreases |lines|
  {
    if lines == [] then Closed(heading, body)
    else if HeadingOf(lines[0]).Some? then Closed(heading, body) + SectionsFrom(lines[1..], HeadingOf(lines[0]), [])
    else SectionsFrom(lines[1..], heading, body + [lines[0]])
  }

  function SectionsOf(text: string): seq<Section> {
    var sections := SectionsFrom(Lines(text), None, []);
    if sections != [] then sections else if Strip(text) != "" then [Section(None, text)] else []
  }

  method Sections(text: string) returns (sections: seq<Section>)
    ensures sections == SectionsOf(text)
  {
    hide HeadingOf, Strip, Join, Lines, AnyInk;
    var lines := Lines(text);
    sections := [];
    var heading: Option<string> := None;
    var body: seq<string> := [];
    for i := 0 to |lines|
      invariant sections + SectionsFrom(lines[i..], heading, body) == SectionsFrom(lines, None, [])
    {
      assert lines[i..][1..] == lines[i + 1..];
      var found := HeadingOf(lines[i]);
      if found.Some? {
        if AnyInk(body) {
          sections := sections + [Section(heading, Strip(Join("\n", body)))];
        }
        heading := found;
        body := [];
      } else {
        body := body + [lines[i]];
      }
    }
    if AnyInk(body) {
      sections := sections + [Section(heading, Strip(Join("\n", body)))];
    }
    assert lines[|lines|..] == [];
    if sections == [] && Strip(text) != "" {
      sections := [Section(None, text)];
    }
  }

  function Bodies(sections: seq<Section>): seq<string> {
    seq(|sections|, i requires 0 <= i < |sections| => sections[i].body)
  }

  /** The ink of the lines that are not headings. */
  function BodyInk(lines: seq<string>): string {
    if lines == [] then "" else (if HeadingOf(lines[0]).Some? then "" else Ink(lines[0])) + BodyInk(lines[1..])
  }

  lemma AnyInkSplits(init: seq<string>, last: string)
    ensures AnyInk(init + [last]) <==> AnyInk(init) || Strip(last) != ""
  {
    hide Strip;
    var body := init + [last];
    if AnyInk(init) {
      var i :| 0 <= i < |init| && Strip(init[i]) != "";
      assert Strip(body[i]) != "";
    }
    if Strip(last) != "" {
      assert Strip(body[|init|]) != "";
    }
  }

  lemma {:induction false} NoInkMeansNoInk(body: seq<string>)
    ensures !AnyInk(body) <==> InkAll(body) == ""
    decreases |body|
  {
    if body != [] {
      var init, last := body[..|body| - 1], body[|body| - 1];
      assert init + [last] == body;
      StripEmptyIff(last);
      AnyInkSplits(init, last);
      InkAllOneMore(init, last);
      hide Strip, Ink, AnyInk, InkAll;
      NoInkMeansNoInk(init);
      assert |InkAll(body)| == |InkAll(init)| + |Ink(last)|;
    }
  }

  lemma ClosedKeepsInk(heading: Option<string>, body: seq<string>)
    ensures InkAll(Bodies(Closed(heading, body))) == InkAll(body)
  {
    NoInkMeansNoInk(body);
    NoInkInNothing();
    NewlineHasNoInk();
    hide Ink, InkAll, Strip, Join, AnyInk;
    if AnyInk(body) {
      var joined := Join("\n", body);
      JoinKeepsInk("\n", body);
      StripKeepsInk(joined);
      InkOfSingle(Strip(joined));
      assert Bodies(Closed(heading, body)) == [Strip(joined)];
    } else {
      assert Bodies(Closed(heading, body)) == [];
    }
  }

  lemma NewlineHasNoInk()
    ensures Ink("\n") == "" && Ink(" ") == ""
  {
  }

  lemma InkOfSingle(part: string)
    ensures InkAll([part]) == Ink(part)
  {
    InkAllOneMore([], part);
    assert [] + [part] == [part];
  }

  lemma {:induction false} SectionsKeepInk(lines: seq<string>, heading: Option<string>, body: seq<string>)
    ensures InkAll(Bodies(SectionsFrom(lines, heading, body))) == InkAll(body) + BodyInk(lines)
    decreases |lines|
  {
    ClosedKeepsInk(heading, body);
    NoInkInNothing();
    hide InkAll, Ink, Strip, HeadingOf, Closed, Bodies;
    if lines != [] {
      var found := HeadingOf(lines[0]);
      if found.Some? {
        SectionsKeepInk(lines[1..], found, []);
        BodiesConcat(Closed(heading, body), SectionsFrom(lines[1..], found, []));
        assert "" + BodyInk(lines[1..]) == BodyInk(lines[1..]);
      } else {
        SectionsKeepInk(lines[1..], heading, body + [lines[0]]);
        InkAllOneMore(body, lines[0]);
        Associate(InkAll(body), Ink(lines[0]), BodyInk(lines[1..]));
      }
    }
  }

  lemma BodiesConcat(a: seq<Section>, b: seq<Section>)
    ensures InkAll(Bodies(a + b)) == InkAll(Bodies(a)) + InkAll(Bodies(b))
  {
    InkAllConcat(Bodies(a), Bodies(b));
    assert Bodies(a + b) == Bodies(a) + Bodies(b);
  }

  /** Sectioning drops heading lines and whitespace, and nothing else; without any body the text itself stays. */
  lemma SectioningLosesNothing(text: string)
    ensures InkAll(Bodies(SectionsOf(text)))
            == if BodyInk(Lines(text)) != "" then BodyInk(Lines(text)) else Ink(text)
  {
    var sections := SectionsFrom(Lines(text), None, []);
    SectionsKeepInk(Lines(text), None, []);
    StripEmptyIff(text);
    NoInkInNothing();
    InkOfSingle(text);
    hide Ink, InkAll, Strip, SectionsFrom, BodyInk, Lines;
    assert "" + BodyInk(Lines(text)) == BodyInk(Lines(text));
    if sections == [] {
      assert Bodies(sections) == [];
      assert Bodies([Section(None, text)]) == [text];
    } else {
      SectionsHaveInk(Lines(text), None, []);
      InkOfFirst(Bodies(sections));
    }
  }

  lemma {:induction false} SectionsHaveInk(lines: seq<string>, heading: Option<string>, body: seq<string>)
    ensures forall k :: 0 <= k < |SectionsFrom(lines, heading, body)| ==> Ink(SectionsFrom(lines, heading, body)[k].body) != ""
    decreases |lines|
  {
    ClosedKeepsInk(heading, body);
    NoInkMeansNoInk(body);
    if AnyInk(body) {
      var b := Closed(heading, body)[0].body;
      assert Bodies(Closed(heading, body)) == [] + [b];
      InkAllOneMore([], b);
    }
    if lines != [] {
      if HeadingOf(lines[0]).Some? {
        SectionsHaveInk(lines[1..], HeadingOf(lines[0]), []);
      } else {
        SectionsHaveInk(lines[1..], heading, body + [lines[0]]);
      }
    }
  }

  lemma InkOfFirst(parts: seq<string>)
    requires parts != [] && Ink(parts[|parts| - 1]) != ""
    ensures InkAll(parts) != ""
  {
  }

  // ---------------------------------------------------------------- paragraphs

  /** body.split("\n\n"), with `part` already read. */
  function SplitBlank(body: string, part: string): seq<string>
    decreases |body|
  {
    if body == "" then [part]
    else if |body| >= 2 && body[0] == '\n' && body[1] == '\n' then [part] + SplitBlank(body[2..], "")
    else SplitBlank(body[1..], part + [body[0]])
  }

  function KeepStripped(parts: seq<string>): (r: seq<string>)
    ensures forall i :: 0 <= i < |r| ==> Stripped(r[i])
  {
    if parts == [] then []
    else KeepStripped(parts[..|parts| - 1]) + (if Strip(parts[|parts| - 1]) != "" then [Strip(parts[|parts| - 1])] else [])
  }

  function Paragraphs(body: string): (r: seq<string>)
    ensures forall i :: 0 <= i < |r| ==> Stripped(r[i])
  {
    KeepStripped(SplitBlank(body, ""))
  }

  lemma {:induction false} KeepStrippedKeepsInk(parts: seq<string>)
    ensures InkAll(KeepStripped(parts)) == InkAll(parts)
    decreases |parts|
  {
    if parts != [] {
      var init, last := parts[..|parts| - 1], parts[|parts| - 1];
      KeepStrippedKeepsInk(init);
      StripEmptyIff(last);
      StripKeepsInk(last);
      InkAllOneMore(KeepStripped(init), Strip(last));
      assert Strip(last) == "" ==> KeepStripped(parts) == KeepStripped(init);
    }
  }

  lemma {:induction false} SplitBlankKeepsInk(body: string, part: string)
    ensures InkAll(SplitBlank(body, part)) == Ink(part) + Ink(body)
    decreases |body|
  {
    NoInkInNothing();
    InkOfSingle(part);
    if body == "" {
    } else if |body| >= 2 && body[0] == '\n' && body[1] == '\n' {
      TwoBlanks(body);
      hide Ink, InkAll;
      SplitBlankKeepsInk(body[2..], "");
      InkAllConcat([part], SplitBlank(body[2..], ""));
    } else {
      hide Ink, InkAll;
      SplitBlankKeepsInk(body[1..], part + [body[0]]);
      InkShift(part, body);
    }
  }

  lemma TwoBlanks(body: string)
    requires |body| >= 2 && body[0] == '\n' && body[1] == '\n'
    ensures Ink(body[2..]) == Ink(body)
  {
    assert body[1..][1..] == body[2..];
  }

  /** Moving one character from the rest to the part read. */
  lemma InkShift(part: string, rest: string)
    requires rest != ""
    ensures Ink(part + [rest[0]]) + Ink(rest[1..]) == Ink(part) + Ink(rest)
  {
    InkConcat(part, [rest[0]]);
    InkConcat([rest[0]], rest[1..]);
    assert [rest[0]] + rest[1..] == rest;
    Associate(Ink(part), Ink([rest[0]]), Ink(rest[1..]));
  }

  /** A body's paragraphs hold all its ink, in order. */
  lemma ParagraphsLoseNothing(body: string)
    ensures InkAll(Paragraphs(body)) == Ink(body)
  {
    SplitBlankKeepsInk(body, "");
    KeepStrippedKeepsInk(SplitBlank(body, ""));
  }

  // ---------------------------------------------------------------- oversized paragraphs

  predicate EndsSentence(s: string) {
    s != "" && (s[|s| - 1] == '.' || s[|s| - 1] == '!' || s[|s| - 1] == '?')
  }

  /** re.split(r"(?<=[.!?])\s+", …), with `sentence` already read. */
  function SplitSentences(text: string, sentence: string): seq<string>
    decreases |text|
  {
    if text == "" then [sentence]
    else if EndsSentence(sentence) && Space(text[0]) then [sentence] + SplitSentences(text[Lead(text)..], "")
    else SplitSentences(text[1..], sentence + [text[0]])
  }

  lemma {:induction false} SplitSentencesKeepsInk(text: string, sentence: string)
    ensures InkAll(SplitSentences(text, sentence)) == Ink(sentence) + Ink(text)
    decreases |text|
  {
    NoInkInNothing();
    InkOfSingle(sentence);
    hide Ink, InkAll;
    if text == "" {
    } else if EndsSentence(sentence) && Space(text[0]) {
      var rest := text[Lead(text)..];
      SplitSentencesKeepsInk(rest, "");
      InkAllConcat([sentence], SplitSentences(rest, ""));
      LeadHasNoInk(text);
    } else {
      SplitSentencesKeepsInk(text[1..], sentence + [text[0]]);
      InkShift(sentence, text);
    }
  }

  lemma LeadHasNoInk(text: string)
    ensures Ink(text[Lead(text)..]) == Ink(text)
  {
    var n := Lead(text);
    BlankHasNoInk(text[..n]);
    InkConcat(text[..n], text[n..]);
    assert text == text[..n] + text[n..];
  }

  function Sentences(paragraph: string): seq<string> { SplitSentences(paragraph, "") }

  /** " ".join(current).strip() */
  function Glued(current: seq<string>): string { Strip(Join(" ", current)) }

  /** Sentences packed greedily up to the target, after those in `current`. */
  function Pack(sentences: seq<string>, current: seq<string>): seq<string>
    decreases |sentences|
  {
    if sentences == [] then (if current == [] then [] else [Glued(current)])
    else if current != [] && Count(Glued(current + [sentences[0]])) > TARGET_TOKENS then
      [Glued(current)] + Pack(sentences[1..], [sentences[0]])
    else Pack(sentences[1..], current + [sentences[0]])
  }

  /** Consecutive slices of at most TARGET_TOKENS tokens, stripped. */
  function Cut(piece: string): seq<string>
    decreases |piece|
  {
    if piece == "" then []
    else if |piece| <= TARGET_TOKENS then [Strip(piece)]
    else [Strip(piece[..TARGET_TOKENS])] + Cut(piece[TARGET_TOKENS..])
  }

  function CutOne(piece: string): seq<string> {
    if Count(piece) <= TARGET_TOKENS then [piece] else Cut(piece)
  }

  function CutAll(out: seq<string>): seq<string> {
    if out == [] then [] else CutAll(out[..|out| - 1]) + CutOne(out[|out| - 1])
  }

  /** Drops the empty pieces of `final`. */
  function NonEmpty(parts: seq<string>): (r: seq<string>)
    ensures forall i :: 0 <= i < |r| ==> r[i] in parts && r[i] != ""
  {
    if parts == [] then []
    else NonEmpty(parts[..|parts| - 1]) + (if parts[|parts| - 1] != "" then [parts[|parts| - 1]] else [])
  }

  /** The pieces of an oversized paragraph. */
  function SplitOf(paragraph: string): seq<string> {
    NonEmpty(CutAll(Pack(Sentences(paragraph), [])))
  }

  method PackSentences(sentences: seq<string>) returns (out: seq<string>)
    ensures out == Pack(sentences, [])
  {
    hide Glued;
    out := [];
    var current: seq<string> := [];
    assert sentences[0..] == sentences;
    for i := 0 to |sentences|
      invariant out + Pack(sentences[i..], current) == Pack(sentences, [])
    {
      assert sentences[i..][1..] == sentences[i + 1..];
      var candidate := Glued(current + [sentences[i]]);
      if current != [] && Count(candidate) > TARGET_TOKENS {
        out := out + [Glued(current)];
        current := [sentences[i]];
      } else {
        current := current + [sentences[i]];
      }
    }
    assert sentences[|sentences|..] == [];
    if current != [] {
      out := out + [Glued(current)];
    }
  }

  /** for start in range(0, len(tokens), TARGET_TOKENS) */
  method CutTokens(piece: string) returns (cuts: seq<string>)
    ensures cuts == Cut(piece)
  {
    hide Strip;
    cuts := [];
    var start := 0;
    assert piece[0..] == piece;
    while start < |piece|
      invariant start <= |piece|
      invariant cuts + Cut(piece[start..]) == Cut(piece)
    {
      var end := if start + TARGET_TOKENS <= |piece| then start + TARGET_TOKENS else |piece|;
      assert piece[start..][..end - start] == piece[start..end];
      if end < |piece| {
        assert piece[start..][TARGET_TOKENS..] == piece[end..];
      } else {
        assert piece[start..end] == piece[start..] && piece[end..] == "";
      }
      cuts := cuts + [Strip(piece[start..end])];
      start := end;
    }
    assert piece[|piece|..] == "";
  }

  /** _split_oversized */
  method SplitOversized(paragraph: string) returns (pieces: seq<string>)
    ensures pieces == SplitOf(paragraph)
  {
    hide Sentences, Pack, Cut, NonEmpty;
    var out := PackSentences(Sentences(paragraph));
    var final: seq<string> := [];
    for k := 0 to |out|
      invariant final == CutAll(out[..k])
    {
      assert out[..k + 1][..k] == out[..k];
      if Count(out[k]) <= TARGET_TOKENS {
        final := final + [out[k]];
      } else {
        var cuts := CutTokens(out[k]);
        final := final + cuts;
      }
    }
    assert out[..|out|] == out;
    pieces := NonEmpty(final);
  }

  // ---------------------------------------------------------------- what the split keeps

  lemma GluedKeepsInk(current: seq<string>)
    ensures Ink(Glued(current)) == InkAll(current)
  {
    NewlineHasNoInk();
    JoinKeepsInk(" ", current);
    StripKeepsInk(Join(" ", current));
  }

  lemma {:induction false} PackKeepsInk(sentences: seq<string>, current: seq<string>)
    ensures InkAll(Pack(sentences, current)) == InkAll(current) + InkAll(sentences)
    decreases |sentences|
  {
    NoInkInNothing();
    GluedKeepsInk(current);
    InkOfSingle(Glued(current));
    hide InkAll, Ink, Glued;
    if sentences != [] {
      var first, rest := sentences[0], sentences[1..];
      InkOfSingle(first);
      InkAllConcat([first], rest);
      assert [first] + rest == sentences;
      if current != [] && Count(Glued(current + [first])) > TARGET_TOKENS {
        PackKeepsInk(rest, [first]);
        InkAllConcat([Glued(current)], Pack(rest, [first]));
      } else {
        PackKeepsInk(rest, current + [first]);
        InkAllConcat(current, [first]);
        Associate(InkAll(current), Ink(first), InkAll(rest));
      }
    }
  }

  lemma {:induction false} CutKeepsInk(piece: string)
    ensures InkAll(Cut(piece)) == Ink(piece)
    decreases |piece|
  {
    NoInkInNothing();
    StripKeepsInk(piece);
    InkOfSingle(Strip(piece));
    if |piece| > TARGET_TOKENS {
      var first, rest := piece[..TARGET_TOKENS], piece[TARGET_TOKENS..];
      StripKeepsInk(first);
      InkOfSingle(Strip(first));
      hide InkAll, Ink, Strip;
      CutKeepsInk(rest);
      InkAllConcat([Strip(first)], Cut(rest));
      InkConcat(first, rest);
      assert first + rest == piece;
    }
  }

  predicate FitsStripped(part: string) {
    Count(part) <= TARGET_TOKENS && (part == "" || Stripped(part))
  }

  lemma {:induction false} CutFits(piece: string, k: nat)
    requires k < |Cut(piece)|
    ensures FitsStripped(Cut(piece)[k])
    decreases |piece|
  {
    if |piece| > TARGET_TOKENS && k > 0 {
      CutFits(piece[TARGET_TOKENS..], k - 1);
    }
  }

  lemma {:induction false} CutAllKeepsInk(out: seq<string>)
    ensures InkAll(CutAll(out)) == InkAll(out)
    decreases |out|
  {
    NoInkInNothing();
    hide Ink;
    if out != [] {
      var init, last := out[..|out| - 1], out[|out| - 1];
      CutAllKeepsInk(init);
      CutKeepsInk(last);
      InkOfSingle(last);
      InkAllConcat(CutAll(init), CutOne(last));
    }
  }

  lemma {:induction false} CutAllFits(out: seq<string>, k: nat)
    requires k < |CutAll(out)| && forall j :: 0 <= j < |out| ==> out[j] == "" || Stripped(out[j])
    ensures FitsStripped(CutAll(out)[k])
    decreases |out|
  {
    hide Stripped, Cut;
    var init, last := out[..|out| - 1], out[|out| - 1];
    if k < |CutAll(init)| {
      CutAllFits(init, k);
    } else if Count(last) > TARGET_TOKENS {
      CutFits(last, k - |CutAll(init)|);
    }
  }

  lemma {:induction false} CutAllKeepsFitting(out: seq<string>, j: nat)
    requires j < |out| && Count(out[j]) <= TARGET_TOKENS
    ensures out[j] in CutAll(out)
    decreases |out|
  {
    hide Cut;
    var init := out[..|out| - 1];
    if j < |init| {
      CutAllKeepsFitting(init, j);
    }
  }

  lemma {:induction false} PackIsStripped(sentences: seq<string>, current: seq<string>, k: nat)
    requires k < |Pack(sentences, current)|
    ensures Pack(sentences, current)[k] == "" || Stripped(Pack(sentences, current)[k])
    decreases |sentences|
  {
    hide Join;
    if sentences != [] {
      if current != [] && Count(Glued(current + [sentences[0]])) > TARGET_TOKENS {
        if k > 0 {
          PackIsStripped(sentences[1..], [sentences[0]], k - 1);
        }
      } else {
        PackIsStripped(sentences[1..], current + [sentences[0]], k);
      }
    }
  }

  lemma {:induction false} NonEmptyKeepsInk(parts: seq<string>)
    ensures InkAll(NonEmpty(parts)) == InkAll(parts)
    decreases |parts|
  {
    NoInkInNothing();
    hide Ink;
    if parts != [] {
      var init, last := parts[..|parts| - 1], parts[|parts| - 1];
      NonEmptyKeepsInk(init);
      if last == "" {
        assert NonEmpty(parts) == NonEmpty(init);
      } else {
        InkAllOneMore(NonEmpty(init), last);
      }
    }
  }

  lemma {:induction false} NonEmptyKeeps(parts: seq<string>, k: nat)
    requires k < |parts| && parts[k] != ""
    ensures parts[k] in NonEmpty(parts)
    decreases |parts|
  {
    if k < |parts| - 1 {
      NonEmptyKeeps(parts[..|parts| - 1], k);
    }
  }

  predicate GoodPart(part: string) {
    Stripped(part) && Count(part) <= TARGET_TOKENS
  }

  /** The pieces hold the paragraph's ink in order, each within the target and stripped. */
  lemma SplitIsFaithful(paragraph: string)
    ensures InkAll(SplitOf(paragraph)) == Ink(paragraph)
    ensures forall k :: 0 <= k < |SplitOf(paragraph)| ==> GoodPart(SplitOf(paragraph)[k])
  {
    var out := Pack(Sentences(paragraph), []);
    NoInkInNothing();
    hide Pack, CutAll, Ink, InkAll, NonEmpty;
    SplitSentencesKeepsInk(paragraph, "");
    PackKeepsInk(Sentences(paragraph), []);
    CutAllKeepsInk(out);
    NonEmptyKeepsInk(CutAll(out));
    forall k | 0 <= k < |SplitOf(paragraph)| ensures GoodPart(SplitOf(paragraph)[k]) {
      var part := SplitOf(paragraph)[k];
      var j :| 0 <= j < |CutAll(out)| && CutAll(out)[j] == part;
      forall m | 0 <= m < |out| ensures out[m] == "" || Stripped(out[m]) {
        PackIsStripped(Sentences(paragraph), [], m);
      }
      CutAllFits(out, j);
    }
  }

  /** p occurs whole in a text that is itself within the target. */
  ghost predicate InFitting(texts: seq<string>, p: string) {
    exists i :: 0 <= i < |texts| && Count(texts[i]) <= TARGET_TOKENS && Contains(texts[i], p)
  }

  lemma InFittingAt(texts: seq<string>, i: nat, p: string)
    requires i < |texts| && Count(texts[i]) <= TARGET_TOKENS && Contains(texts[i], p)
    ensures InFitting(texts, p)
  {
  }

  lemma InFittingBehind(text: string, texts: seq<string>, p: string)
    requires InFitting(texts, p)
    ensures InFitting([text] + texts, p)
  {
    hide Contains;
    var i :| 0 <= i < |texts| && Count(texts[i]) <= TARGET_TOKENS && Contains(texts[i], p);
    InFittingAt([text] + texts, i + 1, p);
  }

  /** The current group fits, unless it is a single sentence. */
  predicate GroupFits(current: seq<string>) {
    |current| > 1 ==> Count(Glued(current)) <= TARGET_TOKENS
  }

  lemma GluedHolds(current: seq<string>, sentence: string)
    requires sentence in current && GroupFits(current) && Strip(sentence) != "" && Count(sentence) <= TARGET_TOKENS
    ensures Count(Glued(current)) <= TARGET_TOKENS && Contains(Glued(current), Strip(sentence))
  {
    hide Contains, Strip;
    var i :| 0 <= i < |current| && current[i] == sentence;
    JoinContains(" ", current, i);
    ContainsStripped(sentence);
    ContainsTransitive(Join(" ", current), sentence, Strip(sentence));
    StripIsStripped(sentence);
    StripKeeps(Join(" ", current), Strip(sentence));
    StripShrinks(sentence);
    assert |current| == 1 ==> Join(" ", current) == sentence;
  }

  lemma StripIsStripped(t: string)
    requires Strip(t) != ""
    ensures Stripped(Strip(t))
  {
  }

  lemma StripShrinks(t: string)
    ensures |Strip(t)| <= |t|
  {
  }

  /** A sentence that fits ends up whole in a packed piece that fits. */
  lemma {:induction false} PackHolds(sentences: seq<string>, current: seq<string>, sentence: string)
    requires GroupFits(current) && Strip(sentence) != "" && Count(sentence) <= TARGET_TOKENS
    requires sentence in sentences || sentence in current
    ensures InFitting(Pack(sentences, current), Strip(sentence))
    decreases |sentences|
  {
    hide Contains, Strip, Glued;
    if sentences == [] {
      GluedHolds(current, sentence);
      InFittingAt(Pack(sentences, current), 0, Strip(sentence));
    } else {
      var first, rest := sentences[0], sentences[1..];
      assert sentence in sentences ==> sentence == first || sentence in rest;
      if current != [] && Count(Glued(current + [first])) > TARGET_TOKENS {
        if sentence in current {
          GluedHolds(current, sentence);
          InFittingAt(Pack(sentences, current), 0, Strip(sentence));
        } else {
          PackHolds(rest, [first], sentence);
          InFittingBehind(Glued(current), Pack(rest, [first]), Strip(sentence));
        }
      } else {
        assert GroupFits(current + [first]);
        PackHolds(rest, current + [first], sentence);
      }
    }
  }

  /** A sentence that fits is never cut: it occurs whole in one of the pieces. */
  lemma SplitKeepsSentence(paragraph: string, sentence: string) returns (k: nat)
    requires sentence in Sentences(paragraph) && Strip(sentence) != "" && Count(sentence) <= TARGET_TOKENS
    ensures k < |SplitOf(paragraph)| && Contains(SplitOf(paragraph)[k], Strip(sentence))
  {
    var out := Pack(Sentences(paragraph), []);
    hide Contains, Strip, Pack, CutAll, NonEmpty, Sentences;
    PackHolds(Sentences(paragraph), [], sentence);
    var j :| 0 <= j < |out| && Count(out[j]) <= TARGET_TOKENS && Contains(out[j], Strip(sentence));
    CutAllKeepsFitting(out, j);
    var m :| 0 <= m < |CutAll(out)| && CutAll(out)[m] == out[j];
    ContainsOnlyIfLonger(out[j], Strip(sentence));
    NonEmptyKeeps(CutAll(out), m);
    k :| 0 <= k < |SplitOf(paragraph)| && SplitOf(paragraph)[k] == out[j];
  }

  // ---------------------------------------------------------------- sections into pieces

  datatype Piece = Piece(heading: Option<string>, text: string)

  const BREAK := "\n\n"
  const LARGEST_PIECE: nat := TARGET_TOKENS + OVERLAP_TOKENS + |BREAK|

  /** _overlap_prefix */
  function OverlapPrefix(text: string): (r: string)
    ensures Count(r) <= OVERLAP_TOKENS
  {
    if |text| <= OVERLAP_TOKENS then text else Strip(text[|text| - OVERLAP_TOKENS..])
  }

  /** The chunk being filled, as a piece. */
  function Open(heading: Option<string>, current: string): seq<Piece> {
    if current == "" then [] else [Piece(heading, current)]
  }

  function Under(heading: Option<string>, texts: seq<string>): seq<Piece> {
    seq(|texts|, i requires 0 <= i < |texts| => Piece(heading, texts[i]))
  }

  /** current + blank line + paragraph, stripped */
  function Extend(before: string, paragraph: string): string { Strip(before + BREAK + paragraph) }

  /** The open chunk takes the paragraph, if it may. */
  function Candidate(current: string, paragraph: string): string {
    if current != "" then Extend(current, paragraph) else paragraph
  }

  predicate Overflows(current: string, paragraph: string) {
    current != "" && Count(Candidate(current, paragraph)) > TARGET_TOKENS
  }

  /** The pieces of the paragraphs still to come, with `current` open. */
  function PiecesFrom(heading: Option<string>, paragraphs: seq<string>, current: string): seq<Piece>
    decreases |paragraphs|
  {
    if paragraphs == [] then Open(heading, current)
    else
      var paragraph, rest := paragraphs[0], paragraphs[1..];
      if Count(paragraph) > TARGET_TOKENS then
        Open(heading, current) + Under(heading, SplitOf(paragraph)) + PiecesFrom(heading, rest, "")
      else if Overflows(current, paragraph) then
        [Piece(heading, current)] + PiecesFrom(heading, rest, Extend(OverlapPrefix(current), paragraph))
      else PiecesFrom(heading, rest, Candidate(current, paragraph))
  }

  function SectionPiecesOf(section: Section): seq<Piece> {
    PiecesFrom(section.heading, Paragraphs(section.body), "")
  }

  function PiecesOf(sections: seq<Section>): seq<Piece> {
    if sections == [] then []
    else PiecesOf(sections[..|sections| - 1]) + SectionPiecesOf(sections[|sections| - 1])
  }

  /** One paragraph further, with what has been put out so far in front. */
  lemma PiecesFromStep(done: seq<Piece>, heading: Option<string>, paragraphs: seq<string>, current: string)
    requires paragraphs != []
    ensures var paragraph, rest := paragraphs[0], paragraphs[1..];
            done + PiecesFrom(heading, paragraphs, current) ==
              if Count(paragraph) > TARGET_TOKENS then
                done + Open(heading, current) + Under(heading, SplitOf(paragraph)) + PiecesFrom(heading, rest, "")
              else if Overflows(current, paragraph) then
                done + [Piece(heading, current)] + PiecesFrom(heading, rest, Extend(OverlapPrefix(current), paragraph))
              else done + PiecesFrom(heading, rest, Candidate(current, paragraph))
  {
    hide SplitOf, Strip, OverlapPrefix, Extend, Candidate, Under, Open;
    var paragraph, rest := paragraphs[0], paragraphs[1..];
    if Count(paragraph) > TARGET_TOKENS {
      var a, b, c := Open(heading, current), Under(heading, SplitOf(paragraph)), PiecesFrom(heading, rest, "");
      assert done + (a + b + c) == done + a + b + c;
    } else if Overflows(current, paragraph) {
      var a, c := [Piece(heading, current)], PiecesFrom(heading, rest, Extend(OverlapPrefix(current), paragraph));
      assert done + (a + c) == done + a + c;
    }
  }

  /** The paragraph loop of one section. */
  method SectionPieces(section: Section) returns (pieces: seq<Piece>)
    ensures pieces == SectionPiecesOf(section)
  {
    hide SplitOf, Paragraphs, Strip, OverlapPrefix, PiecesFrom, Under;
    var heading, paragraphs := section.heading, Paragraphs(section.body);
    var current := "";
    pieces := [];
    assert paragraphs[0..] == paragraphs;
    for i := 0 to |paragraphs|
      invariant pieces + PiecesFrom(heading, paragraphs[i..], current) == SectionPiecesOf(section)
    {
      assert paragraphs[i..][1..] == paragraphs[i + 1..];
      var paragraph := paragraphs[i];
      PiecesFromStep(pieces, heading, paragraphs[i..], current);
      assert current == "" ==> pieces + Open(heading, current) == pieces;
      if Count(paragraph) > TARGET_TOKENS {
        if current != "" {
          pieces := pieces + [Piece(heading, current)];
          current := "";
        }
        var split := SplitOversized(paragraph);
        pieces := pieces + Under(heading, split);
      } else {
        var candidate := if current != "" then Strip(current + BREAK + paragraph) else paragraph;
        if current != "" && Count(candidate) > TARGET_TOKENS {
          pieces := pieces + [Piece(heading, current)];
          current := Strip(OverlapPrefix(current) + BREAK + paragraph);
        } else {
          current := candidate;
        }
      }
    }
    assert paragraphs[|paragraphs|..] == [];
    PiecesFromNothing(pieces, heading, current);
    if current != "" {
      pieces := pieces + [Piece(heading, current)];
    }
  }

  lemma PiecesFromNothing(done: seq<Piece>, heading: Option<string>, current: string)
    ensures done + PiecesFrom(heading, [], current) == if current == "" then done else done + [Piece(heading, current)]
  {
  }

  /** The section loop. */
  method Pieces(text: string) returns (pieces: seq<Piece>)
    ensures pieces == PiecesOf(SectionsOf(text))
  {
    hide SectionsOf, SectionPiecesOf;
    var sections := Sections(text);
    pieces := [];
    for s := 0 to |sections|
      invariant pieces == PiecesOf(sections[..s])
    {
      assert sections[..s + 1][..s] == sections[..s];
      var more := SectionPieces(sections[s]);
      pieces := pieces + more;
    }
    assert sections[..|sections|] == sections;
  }

  // ---------------------------------------------------------------- what the pieces hold

  predicate Sized(pieces: seq<Piece>, heading: Option<string>) {
    forall k :: 0 <= k < |pieces| ==> pieces[k].heading == heading && 0 < Count(pieces[k].text) <= LARGEST_PIECE
  }

  /** Adding a paragraph behind what is there. */
  lemma Extended(before: string, paragraph: string)
    requires Stripped(paragraph)
    ensures var t := Extend(before, paragraph);
            && t != "" && Count(t) <= |before| + |BREAK| + |paragraph| && Contains(t, paragraph)
            && (forall q :: Stripped(q) && Contains(before, q) ==> Contains(t, q))
  {
    hide Contains, Strip, Stripped;
    var raw := before + BREAK + paragraph;
    ContainsItself(paragraph);
    ContainsRight(before + BREAK, paragraph, paragraph);
    StripKeeps(raw, paragraph);
    ContainsOnlyIfLonger(Strip(raw), paragraph);
    StripShrinks(raw);
    NotEmpty(paragraph);
    forall q | Stripped(q) && Contains(before, q) ensures Contains(Strip(raw), q) {
      ContainsLeft(before, BREAK, q);
      ContainsLeft(before + BREAK, paragraph, q);
      StripKeeps(raw, q);
    }
  }

  lemma NotEmpty(s: string)
    requires Stripped(s)
    ensures s != ""
  {
  }

  predicate AllStripped(paragraphs: seq<string>) {
    forall i :: 0 <= i < |paragraphs| ==> Stripped(paragraphs[i])
  }

  lemma SizedConcat(a: seq<Piece>, b: seq<Piece>, heading: Option<string>)
    requires Sized(a, heading) && Sized(b, heading)
    ensures Sized(a + b, heading)
  {
  }

  lemma SplitIsSized(heading: Option<string>, paragraph: string)
    ensures Sized(Under(heading, SplitOf(paragraph)), heading)
  {
    SplitIsFaithful(paragraph);
    hide SplitOf, Ink, InkAll;
  }

  lemma {:induction false} PiecesAreSized(heading: Option<string>, paragraphs: seq<string>, current: string)
    requires AllStripped(paragraphs) && |current| <= LARGEST_PIECE
    ensures Sized(PiecesFrom(heading, paragraphs, current), heading)
    decreases |paragraphs|
  {
    if paragraphs != [] {
      var paragraph, rest := paragraphs[0], paragraphs[1..];
      Extended(OverlapPrefix(current), paragraph);
      SplitIsSized(heading, paragraph);
      hide SplitOf, Strip, Contains, Stripped, Under, OverlapPrefix;
      if Count(paragraph) > TARGET_TOKENS {
        PiecesAreSized(heading, rest, "");
        SizedConcat(Open(heading, current), Under(heading, SplitOf(paragraph)), heading);
        SizedConcat(Open(heading, current) + Under(heading, SplitOf(paragraph)), PiecesFrom(heading, rest, ""), heading);
      } else if Overflows(current, paragraph) {
        var next := Extend(OverlapPrefix(current), paragraph);
        PiecesAreSized(heading, rest, next);
        SizedConcat([Piece(heading, current)], PiecesFrom(heading, rest, next), heading);
      } else {
        PiecesAreSized(heading, rest, Candidate(current, paragraph));
      }
    }
  }

  /** p occurs whole in a piece under heading h. */
  ghost predicate InPieces(pieces: seq<Piece>, h: Option<string>, p: string) {
    exists k :: 0 <= k < |pieces| && pieces[k].heading == h && Contains(pieces[k].text, p)
  }

  lemma InPiecesAt(pieces: seq<Piece>, k: nat, p: string)
    requires k < |pieces| && Contains(pieces[k].text, p)
    ensures InPieces(pieces, pieces[k].heading, p)
  {
  }

  /** `run` stands in `pieces` from place k on. */
  predicate HasRun(pieces: seq<Piece>, k: nat, run: seq<Piece>) {
    k + |run| <= |pieces| && pieces[k..k + |run|] == run
  }

  /** A paragraph that fits occurs whole; a larger one is there as its split, piece after piece. */
  ghost predicate Recovered(pieces: seq<Piece>, h: Option<string>, p: string) {
    if Count(p) <= TARGET_TOKENS then InPieces(pieces, h, p)
    else exists k: nat :: HasRun(pieces, k, Under(h, SplitOf(p)))
  }

  lemma RecoveredConcat(a: seq<Piece>, b: seq<Piece>, h: Option<string>, p: string)
    ensures Recovered(a, h, p) || Recovered(b, h, p) ==> Recovered(a + b, h, p)
  {
    hide Contains, SplitOf, Under;
    if Count(p) <= TARGET_TOKENS {
      if InPieces(a, h, p) {
        var k :| 0 <= k < |a| && a[k].heading == h && Contains(a[k].text, p);
        InPiecesAt(a + b, k, p);
      } else if InPieces(b, h, p) {
        var k :| 0 <= k < |b| && b[k].heading == h && Contains(b[k].text, p);
        InPiecesAt(a + b, |a| + k, p);
      }
    } else {
      var run := Under(h, SplitOf(p));
      if k: nat :| HasRun(a, k, run) {
        assert (a + b)[k..k + |run|] == a[k..k + |run|];
        assert HasRun(a + b, k, run);
      } else if k: nat :| HasRun(b, k, run) {
        assert (a + b)[|a| + k..|a| + k + |run|] == b[k..k + |run|];
        assert HasRun(a + b, |a| + k, run);
      }
    }
  }

  lemma InPiecesConcat(a: seq<Piece>, b: seq<Piece>, h: Option<string>, p: string)
    ensures InPieces(a, h, p) || InPieces(b, h, p) ==> InPieces(a + b, h, p)
  {
    hide Contains;
    if InPieces(a, h, p) {
      var k :| 0 <= k < |a| && a[k].heading == h && Contains(a[k].text, p);
      InPiecesAt(a + b, k, p);
    } else if InPieces(b, h, p) {
      var k :| 0 <= k < |b| && b[k].heading == h && Contains(b[k].text, p);
      InPiecesAt(a + b, |a| + k, p);
    }
  }

  /** What the open chunk holds reaches a piece. */
  lemma {:induction false} OpenIsKept(heading: Option<string>, paragraphs: seq<string>, current: string, q: string)
    requires AllStripped(paragraphs) && Stripped(q) && Contains(current, q)
    ensures InPieces(PiecesFrom(heading, paragraphs, current), heading, q)
    decreases |paragraphs|
  {
    hide Contains, Strip, Stripped, SplitOf, InPieces, Under;
    NotEmpty(q);
    ContainsOnlyIfLonger(current, q);
    InPiecesAt([Piece(heading, current)], 0, q);
    if paragraphs != [] {
      var paragraph, rest := paragraphs[0], paragraphs[1..];
      if Count(paragraph) > TARGET_TOKENS {
        var split := Under(heading, SplitOf(paragraph));
        InPiecesConcat([Piece(heading, current)], split, heading, q);
        InPiecesConcat([Piece(heading, current)] + split, PiecesFrom(heading, rest, ""), heading, q);
      } else if Overflows(current, paragraph) {
        InPiecesConcat([Piece(heading, current)], PiecesFrom(heading, rest, Extend(OverlapPrefix(current), paragraph)), heading, q);
      } else {
        Extended(current, paragraph);
        OpenIsKept(heading, rest, Candidate(current, paragraph), q);
      }
    }
  }

  /** The open chunk after a paragraph that fits. */
  function Next(current: string, paragraph: string): string {
    if Overflows(current, paragraph) then Extend(OverlapPrefix(current), paragraph) else Candidate(current, paragraph)
  }

  lemma NextHolds(current: string, paragraph: string)
    requires Stripped(paragraph)
    ensures Contains(Next(current, paragraph), paragraph)
  {
    Extended(OverlapPrefix(current), paragraph);
    Extended(current, paragraph);
    ContainsItself(paragraph);
    hide Contains, Extend, OverlapPrefix, Stripped;
  }

  /** What the rest of the paragraphs recover, all of them recover. */
  lemma RestIsKept(heading: Option<string>, paragraphs: seq<string>, current: string, p: string)
    requires paragraphs != []
    requires var next := if Count(paragraphs[0]) > TARGET_TOKENS then "" else Next(current, paragraphs[0]);
             Recovered(PiecesFrom(heading, paragraphs[1..], next), heading, p)
    ensures Recovered(PiecesFrom(heading, paragraphs, current), heading, p)
  {
    var paragraph, rest := paragraphs[0], paragraphs[1..];
    hide SplitOf, Under, Open, Recovered, Extend, OverlapPrefix, Candidate;
    if Count(paragraph) > TARGET_TOKENS {
      RecoveredConcat(Open(heading, current) + Under(heading, SplitOf(paragraph)), PiecesFrom(heading, rest, ""), heading, p);
    } else if Overflows(current, paragraph) {
      RecoveredConcat([Piece(heading, current)], PiecesFrom(heading, rest, Next(current, paragraph)), heading, p);
    }
  }

  lemma FirstIsKept(heading: Option<string>, paragraphs: seq<string>, current: string)
    requires AllStripped(paragraphs) && paragraphs != []
    ensures Recovered(PiecesFrom(heading, paragraphs, current), heading, paragraphs[0])
  {
    var paragraph, rest := paragraphs[0], paragraphs[1..];
    if Count(paragraph) > TARGET_TOKENS {
      hide SplitOf, Under, Open, Recovered, Stripped, AllStripped;
      RunIsThere(Open(heading, current), heading, paragraph);
      RecoveredConcat(Open(heading, current) + Under(heading, SplitOf(paragraph)), PiecesFrom(heading, rest, ""), heading, paragraph);
    } else {
      NextHolds(current, paragraph);
      hide Contains, Recovered, Stripped, Next, PiecesFrom, InPieces;
      OpenIsKept(heading, rest, Next(current, paragraph), paragraph);
      SmallIsRecovered(PiecesFrom(heading, rest, Next(current, paragraph)), heading, paragraph);
      RestIsKept(heading, paragraphs, current, paragraph);
    }
  }

  lemma {:induction false} ParagraphIsKept(heading: Option<string>, paragraphs: seq<string>, current: string, i: nat)
    requires AllStripped(paragraphs) && i < |paragraphs|
    ensures Recovered(PiecesFrom(heading, paragraphs, current), heading, paragraphs[i])
    decreases |paragraphs|
  {
    hide Recovered, PiecesFrom, Stripped, Next;
    if i == 0 {
      FirstIsKept(heading, paragraphs, current);
    } else {
      var next := if Count(paragraphs[0]) > TARGET_TOKENS then "" else Next(current, paragraphs[0]);
      ParagraphIsKept(heading, paragraphs[1..], next, i - 1);
      RestIsKept(heading, paragraphs, current, paragraphs[i]);
    }
  }

  lemma SmallIsRecovered(pieces: seq<Piece>, h: Option<string>, p: string)
    requires Count(p) <= TARGET_TOKENS && InPieces(pieces, h, p)
    ensures Recovered(pieces, h, p)
  {
  }

  lemma RunIsThere(a: seq<Piece>, h: Option<string>, p: string)
    requires Count(p) > TARGET_TOKENS
    ensures Recovered(a + Under(h, SplitOf(p)), h, p)
  {
    hide SplitOf;
    assert HasRun(a + Under(h, SplitOf(p)), |a|, Under(h, SplitOf(p)));
  }

  /** Every paragraph of every section is recovered from the pieces, under its own heading. */
  lemma {:induction false} PiecesRecover(sections: seq<Section>, s: nat, i: nat)
    requires s < |sections| && i < |Paragraphs(sections[s].body)|
    ensures Recovered(PiecesOf(sections), sections[s].heading, Paragraphs(sections[s].body)[i])
    decreases |sections|
  {
    hide Recovered, PiecesFrom, KeepStripped, Stripped;
    var init, last := sections[..|sections| - 1], sections[|sections| - 1];
    var p := Paragraphs(sections[s].body)[i];
    if s < |init| {
      PiecesRecover(init, s, i);
    } else {
      ParagraphIsKept(last.heading, Paragraphs(last.body), "", i);
    }
    RecoveredConcat(PiecesOf(init), SectionPiecesOf(last), sections[s].heading, p);
  }

  /** No piece before the runt merge exceeds target + overlap + separator. */
  lemma {:induction false} PiecesAreBounded(sections: seq<Section>, k: nat)
    requires k < |PiecesOf(sections)|
    ensures 0 < Count(PiecesOf(sections)[k].text) <= LARGEST_PIECE
    decreases |sections|
  {
    hide PiecesFrom, KeepStripped, Stripped;
    var init, last := sections[..|sections| - 1], sections[|sections| - 1];
    if k < |PiecesOf(init)| {
      PiecesAreBounded(init, k);
    } else {
      PiecesAreSized(last.heading, Paragraphs(last.body), "");
    }
  }

  // ---------------------------------------------------------------- merging runts

  predicate IsRunt(merged: seq<Piece>, piece: Piece) {
    merged != [] && merged[|merged| - 1].heading == piece.heading && Count(piece.text) < MIN_TOKENS
  }

  /** merged[-1] with the runt behind it, or the piece on its own. */
  function Absorb(merged: seq<Piece>, piece: Piece): (r: seq<Piece>)
    ensures r != [] && r[|r| - 1].heading == piece.heading
  {
    if IsRunt(merged, piece) then
      merged[..|merged| - 1] + [Piece(piece.heading, merged[|merged| - 1].text + BREAK + piece.text)]
    else merged + [piece]
  }

  function Merged(pieces: seq<Piece>): seq<Piece> {
    if pieces == [] then [] else Absorb(Merged(pieces[..|pieces| - 1]), pieces[|pieces| - 1])
  }

  lemma MergedOfNone()
    ensures Merged([]) == []
  {
  }

  method MergeRunts(pieces: seq<Piece>) returns (merged: seq<Piece>)
    ensures merged == Merged(pieces)
  {
    hide Merged;
    MergedOfNone();
    merged := [];
    assert pieces[..0] == [];
    for i := 0 to |pieces|
      invariant merged == Merged(pieces[..i])
    {
      MergedStep(pieces, i);
      var piece, n := pieces[i], |merged|;
      if n > 0 && merged[n - 1].heading == piece.heading && Count(piece.text) < MIN_TOKENS {
        merged := merged[..n - 1] + [Piece(piece.heading, merged[n - 1].text + BREAK + piece.text)];
      } else {
        merged := merged + [piece];
      }
    }
    assert pieces[..|pieces|] == pieces;
  }

  /** The merged piece that takes piece i. */
  function Group(pieces: seq<Piece>, i: nat): nat
    requires i < |pieces|
  {
    |Merged(pieces[..i + 1])| - 1
  }

  function TextsOf(pieces: seq<Piece>): seq<string> {
    seq(|pieces|, i requires 0 <= i < |pieces| => pieces[i].text)
  }

  lemma MergedStep(pieces: seq<Piece>, n: nat)
    requires n < |pieces|
    ensures Merged(pieces[..n + 1]) == Absorb(Merged(pieces[..n]), pieces[n])
  {
    assert pieces[..n + 1][..n] == pieces[..n];
  }

  /** Groups follow the pieces' order without gaps. */
  lemma {:induction false} GroupsAscend(pieces: seq<Piece>, i: nat, j: nat)
    requires i <= j < |pieces|
    ensures Group(pieces, i) <= Group(pieces, j) <= Group(pieces, i) + (j - i)
    decreases j
  {
    hide Merged;
    if i < j {
      GroupsAscend(pieces, i, j - 1);
      MergedStep(pieces, j);
    }
  }

  /** What a merged piece holds it never loses. */
  lemma {:induction false} MergeGrows(pieces: seq<Piece>, n: nat, g: nat, q: string)
    requires n <= |pieces| && g < |Merged(pieces[..n])| && Contains(Merged(pieces[..n])[g].text, q)
    ensures g < |Merged(pieces)| && Merged(pieces)[g].heading == Merged(pieces[..n])[g].heading
    ensures Contains(Merged(pieces)[g].text, q)
    decreases |pieces| - n
  {
    hide Merged, Contains;
    if n == |pieces| {
      assert pieces[..n] == pieces;
    } else {
      MergedStep(pieces, n);
      var last := Merged(pieces[..n])[g].text;
      ContainsLeft(last, BREAK, q);
      ContainsLeft(last + BREAK, pieces[n].text, q);
      MergeGrows(pieces, n + 1, g, q);
    }
  }

  /** What one more piece does to the newest merged piece. */
  lemma AbsorbLast(merged: seq<Piece>, piece: Piece)
    ensures var r := Absorb(merged, piece);
            && |r| == (if IsRunt(merged, piece) then |merged| else |merged| + 1)
            && r[|r| - 1].heading == piece.heading
            && r[|r| - 1].text == (if IsRunt(merged, piece) then merged[|merged| - 1].text + BREAK + piece.text else piece.text)
            && (IsRunt(merged, piece) ==> merged[|merged| - 1].heading == piece.heading)
  {
  }

  /** The newest merged piece after piece j. */
  function Newest(pieces: seq<Piece>, j: nat): Piece
    requires j < |pieces|
  {
    var merged := Merged(pieces[..j + 1]);
    assert pieces[..j + 1][..j] == pieces[..j];
    merged[|merged| - 1]
  }

  lemma NewestIs(pieces: seq<Piece>, j: nat)
    requires j < |pieces|
    ensures var r := Absorb(Merged(pieces[..j]), pieces[j]);
            Newest(pieces, j) == r[|r| - 1] && Group(pieces, j) == |r| - 1
  {
    hide Merged, Absorb;
    MergedStep(pieces, j);
  }

  lemma NewestWas(pieces: seq<Piece>, j: nat)
    requires 0 < j < |pieces|
    ensures var was := Merged(pieces[..j]);
            |was| == Group(pieces, j - 1) + 1 && was[|was| - 1] == Newest(pieces, j - 1)
  {
    hide Merged;
    assert pieces[..j - 1 + 1] == pieces[..j];
    MergedStep(pieces, j - 1);
  }

  lemma NewestStep(pieces: seq<Piece>, j: nat)
    requires j < |pieces|
    ensures Newest(pieces, j).heading == pieces[j].heading
    ensures j > 0 && Group(pieces, j) == Group(pieces, j - 1) ==>
              && pieces[j].heading == Newest(pieces, j - 1).heading
              && Newest(pieces, j).text == Newest(pieces, j - 1).text + BREAK + pieces[j].text
  {
    hide Newest, Group, Merged, Absorb;
    NewestIs(pieces, j);
    AbsorbLast(Merged(pieces[..j]), pieces[j]);
    if j > 0 {
      NewestWas(pieces, j);
    }
  }

  lemma NewestEnds(pieces: seq<Piece>, j: nat) returns (before: string)
    requires j < |pieces|
    ensures Newest(pieces, j).text == before + pieces[j].text
  {
    hide Newest, Group, Merged, Absorb;
    NewestIs(pieces, j);
    var was := Merged(pieces[..j]);
    AbsorbLast(was, pieces[j]);
    if IsRunt(was, pieces[j]) {
      before := was[|was| - 1].text + BREAK;
    } else {
      before := "";
      assert "" + pieces[j].text == pieces[j].text;
    }
  }

  /** The newest merged piece ends in the texts of its group, joined. */
  lemma {:induction false} GroupIsTheEnd(pieces: seq<Piece>, i: nat, j: nat) returns (before: string)
    requires i <= j < |pieces| && Group(pieces, i) == Group(pieces, j)
    ensures Newest(pieces, j).heading == pieces[i].heading
    ensures Newest(pieces, j).text == before + Join(BREAK, TextsOf(pieces[i..j + 1]))
    decreases j
  {
    hide Newest, Group, Join;
    NewestStep(pieces, j);
    if i == j {
      assert TextsOf(pieces[j..j + 1]) == [pieces[j].text];
      JoinOne(pieces[j].text);
      before := NewestEnds(pieces, j);
    } else {
      GroupsAscend(pieces, i, j - 1);
      GroupsAscend(pieces, j - 1, j);
      before := GroupIsTheEnd(pieces, i, j - 1);
      assert TextsOf(pieces[i..j + 1]) == TextsOf(pieces[i..j]) + [pieces[j].text];
      JoinOneMore(TextsOf(pieces[i..j]), pieces[j].text);
      Regroup(before, Join(BREAK, TextsOf(pieces[i..j])), BREAK, pieces[j].text);
    }
  }

  lemma JoinOne(part: string)
    ensures Join(BREAK, [part]) == part
  {
  }

  lemma JoinOneMore(parts: seq<string>, part: string)
    requires parts != []
    ensures Join(BREAK, parts + [part]) == Join(BREAK, parts) + BREAK + part
  {
    assert (parts + [part])[..|parts|] == parts;
  }

  lemma Regroup(a: string, b: string, c: string, d: string)
    ensures (a + b) + c + d == a + (b + c + d)
  {
  }

  /** Pieces i..j of one group stand in its merged piece, joined and in order. */
  lemma MergedHolds(pieces: seq<Piece>, i: nat, j: nat)
    requires i <= j < |pieces| && Group(pieces, i) == Group(pieces, j)
    ensures var g := Group(pieces, j);
            && g < |Merged(pieces)| && Merged(pieces)[g].heading == pieces[i].heading
            && Contains(Merged(pieces)[g].text, Join(BREAK, TextsOf(pieces[i..j + 1])))
  {
    hide Merged, Join, TextsOf, Contains;
    var before := GroupIsTheEnd(pieces, i, j);
    var joined := Join(BREAK, TextsOf(pieces[i..j + 1]));
    ContainsItself(joined);
    ContainsRight(before, joined, joined);
    MergeGrows(pieces, j + 1, Group(pieces, j), joined);
  }

  /** No short piece is left standing behind a piece of the same heading. */
  predicate NoRunts(merged: seq<Piece>) {
    forall k :: 0 < k < |merged| && merged[k].heading == merged[k - 1].heading ==> Count(merged[k].text) >= MIN_TOKENS
  }

  lemma {:induction false} RuntsAreMerged(pieces: seq<Piece>)
    ensures NoRunts(Merged(pieces))
    decreases |pieces|
  {
    if pieces != [] {
      RuntsAreMerged(pieces[..|pieces| - 1]);
    }
  }

  // ---------------------------------------------------------------- chunks

  datatype Chunk = Chunk(id: string, ordinal: nat, text: string, heading: Option<string>)

  /** The chunk's text: its heading as a breadcrumb, then the body. */
  function BodyText(piece: Piece): string {
    if piece.heading.Some? && piece.heading.value != "" then piece.heading.value + BREAK + piece.text else piece.text
  }

  function IdOf(piece: Piece): string { CanonicalId(BodyText(piece)) }

  /** The chunk with this id, or -1. */
  function Place(chunks: seq<Chunk>, id: string): (c: int)
    ensures -1 <= c < |chunks|
    ensures c >= 0 ==> chunks[c].id == id
    ensures c < 0 ==> forall d :: 0 <= d < |chunks| ==> chunks[d].id != id
  {
    if chunks == [] then -1
    else
      var n := |chunks| - 1;
      if chunks[n].id == id then n else Place(chunks[..n], id)
  }

  function ChunksFrom(merged: seq<Piece>): seq<Chunk> {
    if merged == [] then []
    else
      var chunks, piece := ChunksFrom(merged[..|merged| - 1]), merged[|merged| - 1];
      if Place(chunks, IdOf(piece)) >= 0 then chunks
      else chunks + [Chunk(IdOf(piece), |chunks|, BodyText(piece), piece.heading)]
  }

  function ChunksOf(text: string): seq<Chunk> {
    if text == "" then [] else ChunksFrom(Merged(PiecesOf(SectionsOf(text))))
  }

  /** Ids are the texts' own and pairwise distinct; ordinals count from 0. */
  predicate WellNumbered(chunks: seq<Chunk>) {
    && (forall c :: 0 <= c < |chunks| ==> chunks[c].ordinal == c && chunks[c].id == CanonicalId(chunks[c].text))
    && (forall c, d :: 0 <= c < d < |chunks| ==> chunks[c].id != chunks[d].id)
  }

  lemma {:induction false} ChunksAreWellNumbered(merged: seq<Piece>)
    ensures WellNumbered(ChunksFrom(merged))
    decreases |merged|
  {
    hide CanonicalId, BodyText;
    if merged != [] {
      ChunksAreWellNumbered(merged[..|merged| - 1]);
    }
  }

  /** The chunk that stands for merged piece m. */
  function Home(merged: seq<Piece>, m: nat): int
    requires m < |merged|
  {
    Place(ChunksFrom(merged), IdOf(merged[m]))
  }

  lemma {:induction false} ChunksGrow(merged: seq<Piece>, n: nat)
    requires n <= |merged|
    ensures ChunksFrom(merged[..n]) <= ChunksFrom(merged)
    decreases |merged| - n
  {
    if n == |merged| {
      assert merged[..n] == merged;
    } else {
      ChunksGrow(merged, n + 1);
      assert merged[..n + 1][..n] == merged[..n];
    }
  }

  /** In a well-numbered list an id has one place. */
  lemma PlaceIs(chunks: seq<Chunk>, c: nat, id: string)
    requires WellNumbered(chunks) && c < |chunks| && chunks[c].id == id
    ensures Place(chunks, id) == c
  {
  }

  lemma HomeOfRepeat(merged: seq<Piece>, m: nat)
    requires m < |merged| && Place(ChunksFrom(merged[..m]), IdOf(merged[m])) >= 0
    ensures Home(merged, m) == Place(ChunksFrom(merged[..m]), IdOf(merged[m]))
  {
    ChunksGrow(merged, m);
    ChunksAreWellNumbered(merged);
    hide ChunksFrom, WellNumbered, IdOf, Place;
    PlaceIs(ChunksFrom(merged), Place(ChunksFrom(merged[..m]), IdOf(merged[m])), IdOf(merged[m]));
  }

  lemma HomeOfNew(merged: seq<Piece>, m: nat)
    requires m < |merged| && Place(ChunksFrom(merged[..m]), IdOf(merged[m])) < 0
    ensures Home(merged, m) == |ChunksFrom(merged[..m])| < |ChunksFrom(merged)|
    ensures ChunksFrom(merged)[Home(merged, m)].id == IdOf(merged[m])
  {
    ChunksGrow(merged, m + 1);
    ChunksAreWellNumbered(merged);
    ChunksStep(merged, m);
    hide ChunksFrom, WellNumbered, IdOf, Place;
    PlaceIs(ChunksFrom(merged), |ChunksFrom(merged[..m])|, IdOf(merged[m]));
  }

  /**
    Every merged piece has its chunk. The chunks come in document order: piece m either opens
    the next chunk or repeats, word for word, what an earlier piece has already opened.
   */
  lemma ChunksFollowTheDocument(merged: seq<Piece>, m: nat)
    requires m < |merged|
    ensures 0 <= Home(merged, m) < |ChunksFrom(merged)|
    ensures ChunksFrom(merged)[Home(merged, m)].id == IdOf(merged[m])
    ensures Home(merged, m) <= |ChunksFrom(merged[..m])|
    ensures Home(merged, m) < |ChunksFrom(merged[..m])| <==> exists k :: 0 <= k < m && IdOf(merged[k]) == IdOf(merged[m])
  {
    hide ChunksFrom, IdOf;
    var id := IdOf(merged[m]);
    HomeAmongFirst(merged[..m], id);
    assert forall k :: 0 <= k < m ==> merged[..m][k] == merged[k];
    if Place(ChunksFrom(merged[..m]), id) >= 0 {
      HomeOfRepeat(merged, m);
    } else {
      HomeOfNew(merged, m);
    }
  }

  lemma ChunksStep(merged: seq<Piece>, m: nat)
    requires m < |merged|
    ensures var before, after := ChunksFrom(merged[..m]), ChunksFrom(merged[..m + 1]);
            if Place(before, IdOf(merged[m])) >= 0 then after == before
            else |after| == |before| + 1 && after[|before|].id == IdOf(merged[m])
  {
    hide IdOf, BodyText, Place;
    assert merged[..m + 1][m] == merged[m];
    assert merged[..m + 1][..m] == merged[..m];
  }

  /** An id is among the chunks exactly when some piece has it. */
  lemma {:induction false} HomeAmongFirst(merged: seq<Piece>, id: string)
    ensures Place(ChunksFrom(merged), id) >= 0 <==> exists k :: 0 <= k < |merged| && IdOf(merged[k]) == id
    decreases |merged|
  {
    hide IdOf, BodyText;
    if merged != [] {
      var init, last := merged[..|merged| - 1], merged[|merged| - 1];
      HomeAmongFirst(init, id);
      HomeAmongFirst(init, IdOf(last));
      var chunks := ChunksFrom(merged);
      if k :| 0 <= k < |merged| && IdOf(merged[k]) == id {
        assert k < |init| ==> IdOf(init[k]) == id;
        if Place(ChunksFrom(init), id) >= 0 {
          assert chunks[Place(ChunksFrom(init), id)].id == id;
        } else {
          assert k == |init|;
          assert chunks[|ChunksFrom(init)|].id == id;
        }
      } else {
        assert forall k :: 0 <= k < |init| ==> IdOf(init[k]) == IdOf(merged[k]);
        assert IdOf(last) == IdOf(merged[|init|]);
      }
    }
  }

  /** The last loop: breadcrumbs, identities, and duplicates dropped. */
  method Emit(merged: seq<Piece>) returns (chunks: seq<Chunk>)
    ensures chunks == ChunksFrom(merged)
  {
    hide CanonicalId, BodyText;
    chunks := [];
    var seen: set<string> := {};
    for i := 0 to |merged|
      invariant chunks == ChunksFrom(merged[..i])
      invariant seen == set c | 0 <= c < |chunks| :: chunks[c].id
    {
      assert merged[..i + 1][..i] == merged[..i];
      var text := BodyText(merged[i]);
      var identity := CanonicalId(text);
      if identity in seen {
        continue;
      }
      seen := seen + {identity};
      ghost var before := chunks;
      chunks := chunks + [Chunk(identity, |chunks|, text, merged[i].heading)];
      assert forall c :: 0 <= c < |before| ==> chunks[c] == before[c];
      assert chunks[|before|].id == identity;
    }
    assert merged[..|merged|] == merged;
  }

  // ---------------------------------------------------------------- the whole document

  /** Chunk c holds q whole and names the heading. */
  ghost predicate Shows(chunks: seq<Chunk>, c: int, h: Option<string>, q: string) {
    0 <= c < |chunks| && Contains(chunks[c].text, q) && (h.Some? ==> Contains(chunks[c].text, h.value))
  }

  ghost predicate InChunks(chunks: seq<Chunk>, h: Option<string>, q: string) {
    exists c :: Shows(chunks, c, h, q)
  }

  /**
    The parts stand in the document's pieces one after the other, from place k, and those the
    runt merge put together stand together, in order, in the chunk of their group.
   */
  ghost predicate ReadBack(pieces: seq<Piece>, chunks: seq<Chunk>, h: Option<string>, parts: seq<string>, k: nat) {
    HasRun(pieces, k, Under(h, parts)) && forall i, j :: 0 <= i <= j < |parts| ==> Together(pieces, chunks, h, parts, k, i, j)
  }

  ghost predicate Together(pieces: seq<Piece>, chunks: seq<Chunk>, h: Option<string>, parts: seq<string>, k: nat, i: nat, j: nat)
    requires i <= j < |parts| && k + |parts| <= |pieces|
  {
    Group(pieces, k + i) == Group(pieces, k + j) ==>
      && Group(pieces, k + i) < |Merged(pieces)|
      && Shows(chunks, Home(Merged(pieces), Group(pieces, k + i)), h, Join(BREAK, parts[i..j + 1]))
  }

  /** A paragraph that fits is whole in a chunk under its heading; a larger one is read back from its split. */
  ghost predicate Recoverable(pieces: seq<Piece>, chunks: seq<Chunk>, h: Option<string>, p: string) {
    if Count(p) <= TARGET_TOKENS then InChunks(chunks, h, p)
    else exists k: nat :: ReadBack(pieces, chunks, h, SplitOf(p), k)
  }

  lemma SameStripShows(a: string, b: string, q: string)
    requires Strip(a) == Strip(b) && Stripped(q) && Contains(a, q)
    ensures Contains(b, q)
  {
    hide *;
    StripKeeps(a, q);
    StripKeeps(b, q);
  }

  lemma BodyShows(piece: Piece, p: string)
    requires Contains(piece.text, p)
    ensures Contains(BodyText(piece), p)
    ensures piece.heading.Some? && piece.heading.value != "" ==> Contains(BodyText(piece), piece.heading.value)
  {
    hide Contains;
    if piece.heading.Some? && piece.heading.value != "" {
      var h := piece.heading.value;
      ContainsRight(h + BREAK, piece.text, p);
      ContainsItself(h);
      ContainsLeft(h, BREAK + piece.text, h);
      Associate(h, BREAK, piece.text);
    }
  }

  predicate GoodHeading(heading: Option<string>) {
    heading.Some? ==> Stripped(heading.value)
  }

  /** What a merged piece holds, its chunk shows. */
  lemma ChunkShows(merged: seq<Piece>, m: nat, q: string)
    requires m < |merged| && GoodHeading(merged[m].heading) && Stripped(q) && Contains(merged[m].text, q)
    ensures Shows(ChunksFrom(merged), Home(merged, m), merged[m].heading, q)
  {
    ChunksFollowTheDocument(merged, m);
    ChunksAreWellNumbered(merged);
    hide ChunksFrom, Home, Contains, Strip, Stripped, BodyText;
    var chunk := ChunksFrom(merged)[Home(merged, m)];
    BodyShows(merged[m], q);
    SameStripShows(BodyText(merged[m]), chunk.text, q);
    if merged[m].heading.Some? {
      var h := merged[m].heading.value;
      NotEmpty(h);
      SameStripShows(BodyText(merged[m]), chunk.text, h);
    }
  }

  lemma {:induction false} JoinIsStripped(parts: seq<string>)
    requires parts != [] && forall i :: 0 <= i < |parts| ==> Stripped(parts[i])
    ensures Stripped(Join(BREAK, parts))
    decreases |parts|
  {
    if |parts| > 1 {
      var init, last := parts[..|parts| - 1], parts[|parts| - 1];
      JoinIsStripped(init);
      EndsStripped(Join(BREAK, init), BREAK, last);
    }
  }

  lemma EndsStripped(a: string, b: string, c: string)
    requires Stripped(a) && Stripped(c)
    ensures Stripped(a + b + c)
  {
    var t := a + b + c;
    assert t[0] == a[0] && t[|t| - 1] == c[|c| - 1];
  }

  predicate HeadingsIn(pieces: seq<Piece>) {
    forall k :: 0 <= k < |pieces| ==> GoodHeading(pieces[k].heading)
  }

  lemma SmallIsShown(pieces: seq<Piece>, h: Option<string>, p: string)
    requires HeadingsIn(pieces) && Stripped(p) && InPieces(pieces, h, p)
    ensures InChunks(ChunksFrom(Merged(pieces)), h, p)
  {
    hide ChunksFrom, Merged, Contains, Stripped, Home;
    var k :| 0 <= k < |pieces| && pieces[k].heading == h && Contains(pieces[k].text, p);
    MergedHolds(pieces, k, k);
    var g := Group(pieces, k);
    assert TextsOf(pieces[k..k + 1]) == [pieces[k].text];
    assert Join(BREAK, [pieces[k].text]) == pieces[k].text;
    ContainsTransitive(Merged(pieces)[g].text, pieces[k].text, p);
    ChunkShows(Merged(pieces), g, p);
    assert Shows(ChunksFrom(Merged(pieces)), Home(Merged(pieces), g), h, p);
  }

  lemma RunInGroup(pieces: seq<Piece>, h: Option<string>, parts: seq<string>, k: nat, i: nat, j: nat)
    requires HeadingsIn(pieces) && i <= j < |parts| && k + |parts| <= |pieces|
    requires TextsOf(pieces[k + i..k + j + 1]) == parts[i..j + 1] && pieces[k + i].heading == h
    requires Stripped(Join(BREAK, parts[i..j + 1])) && Group(pieces, k + i) == Group(pieces, k + j)
    ensures Group(pieces, k + i) < |Merged(pieces)|
    ensures Shows(ChunksFrom(Merged(pieces)), Home(Merged(pieces), Group(pieces, k + i)), h, Join(BREAK, parts[i..j + 1]))
  {
    hide *;
    MergedHolds(pieces, k + i, k + j);
    MergedHeadings(pieces, Group(pieces, k + i));
    ChunkShows(Merged(pieces), Group(pieces, k + i), Join(BREAK, parts[i..j + 1]));
  }

  lemma RunIsRead(pieces: seq<Piece>, h: Option<string>, parts: seq<string>, k: nat, i: nat, j: nat)
    requires HeadingsIn(pieces) && HasRun(pieces, k, Under(h, parts)) && i <= j < |parts|
    requires forall m :: 0 <= m < |parts| ==> Stripped(parts[m])
    ensures k + |parts| <= |pieces| && Together(pieces, ChunksFrom(Merged(pieces)), h, parts, k, i, j)
  {
    hide *;
    RunFits(pieces, k, h, parts);
    RunTexts(pieces, h, parts, k, i, j);
    JoinIsStripped(parts[i..j + 1]);
    if Group(pieces, k + i) == Group(pieces, k + j) {
      RunInGroup(pieces, h, parts, k, i, j);
    }
    TogetherIff(pieces, ChunksFrom(Merged(pieces)), h, parts, k, i, j);
  }

  lemma TogetherIff(pieces: seq<Piece>, chunks: seq<Chunk>, h: Option<string>, parts: seq<string>, k: nat, i: nat, j: nat)
    requires i <= j < |parts| && k + |parts| <= |pieces|
    ensures Together(pieces, chunks, h, parts, k, i, j) <==>
            (Group(pieces, k + i) == Group(pieces, k + j) ==>
               && Group(pieces, k + i) < |Merged(pieces)|
               && Shows(chunks, Home(Merged(pieces), Group(pieces, k + i)), h, Join(BREAK, parts[i..j + 1])))
  {
    hide Group, Merged, Shows, Home, Join;
  }

  lemma {:induction false} MergedHeadings(pieces: seq<Piece>, g: nat)
    requires HeadingsIn(pieces) && g < |Merged(pieces)|
    ensures GoodHeading(Merged(pieces)[g].heading)
    decreases |pieces|
  {
    hide Stripped;
    var init := pieces[..|pieces| - 1];
    if g < |Merged(init)| {
      MergedHeadings(init, g);
    }
  }

  lemma RunTexts(pieces: seq<Piece>, h: Option<string>, parts: seq<string>, k: nat, i: nat, j: nat)
    requires HasRun(pieces, k, Under(h, parts)) && i <= j < |parts|
    ensures TextsOf(pieces[k + i..k + j + 1]) == parts[i..j + 1] && pieces[k + i].heading == h
  {
    forall m | 0 <= m < |parts| ensures pieces[k + m] == Piece(h, parts[m]) {
      assert pieces[k + m] == pieces[k..k + |parts|][m];
    }
  }

  lemma RecoveredShows(pieces: seq<Piece>, h: Option<string>, p: string)
    requires HeadingsIn(pieces) && Stripped(p) && Recovered(pieces, h, p)
    ensures Recoverable(pieces, ChunksFrom(Merged(pieces)), h, p)
  {
    if Count(p) <= TARGET_TOKENS {
      SmallIsShown(pieces, h, p);
    } else {
      SplitIsFaithful(p);
      hide SplitOf, ChunksFrom, Merged, Contains, Home, Join, HeadingsIn, Shows, Group, Ink, InkAll, HasRun;
      var parts := SplitOf(p);
      var k: nat :| HasRun(pieces, k, Under(h, parts));
      RunFits(pieces, k, h, parts);
      forall i, j | 0 <= i <= j < |parts|
        ensures Together(pieces, ChunksFrom(Merged(pieces)), h, parts, k, i, j)
      {
        RunIsRead(pieces, h, parts, k, i, j);
      }
      assert ReadBack(pieces, ChunksFrom(Merged(pieces)), h, parts, k);
    }
  }

  lemma RunFits(pieces: seq<Piece>, k: nat, h: Option<string>, parts: seq<string>)
    requires HasRun(pieces, k, Under(h, parts))
    ensures k + |parts| <= |pieces|
  {
  }

  lemma {:induction false} HeadingsAreStripped(lines: seq<string>, heading: Option<string>, body: seq<string>, k: nat)
    requires GoodHeading(heading) && k < |SectionsFrom(lines, heading, body)|
    ensures GoodHeading(SectionsFrom(lines, heading, body)[k].heading)
    decreases |lines|
  {
    hide HeadingOf, Stripped, AnyInk, Strip, Join;
    if lines != [] {
      if HeadingOf(lines[0]).Some? {
        if k >= |Closed(heading, body)| {
          HeadingsAreStripped(lines[1..], HeadingOf(lines[0]), [], k - |Closed(heading, body)|);
        }
      } else {
        HeadingsAreStripped(lines[1..], heading, body + [lines[0]], k);
      }
    }
  }

  lemma {:induction false} PiecesHaveHeadings(sections: seq<Section>)
    requires forall s :: 0 <= s < |sections| ==> GoodHeading(sections[s].heading)
    ensures HeadingsIn(PiecesOf(sections))
    decreases |sections|
  {
    hide PiecesFrom, KeepStripped, Stripped;
    if sections != [] {
      var init, last := sections[..|sections| - 1], sections[|sections| - 1];
      PiecesHaveHeadings(init);
      PiecesAreSized(last.heading, Paragraphs(last.body), "");
    }
  }

  lemma DocumentHeadings(text: string)
    ensures HeadingsIn(PiecesOf(SectionsOf(text)))
  {
    var sections := SectionsOf(text);
    forall s | 0 <= s < |sections| ensures GoodHeading(sections[s].heading) {
      if SectionsFrom(Lines(text), None, []) != [] {
        HeadingsAreStripped(Lines(text), None, [], s);
      }
    }
    hide SectionsOf;
    PiecesHaveHeadings(sections);
  }

  /** Every paragraph of every section is recoverable from the document's chunks. */
  lemma DocumentRecovers(text: string, s: nat, i: nat)
    requires text != "" && s < |SectionsOf(text)| && i < |Paragraphs(SectionsOf(text)[s].body)|
    ensures Recoverable(PiecesOf(SectionsOf(text)), ChunksOf(text), SectionsOf(text)[s].heading,
                        Paragraphs(SectionsOf(text)[s].body)[i])
  {
    hide Recovered, Recoverable, ChunksFrom, Merged, PiecesOf, KeepStripped, SectionsOf, Stripped, HeadingsIn;
    DocumentHeadings(text);
    PiecesRecover(SectionsOf(text), s, i);
    RecoveredShows(PiecesOf(SectionsOf(text)), SectionsOf(text)[s].heading, Paragraphs(SectionsOf(text)[s].body)[i]);
  }

  /** A sentence that fits is whole in a chunk that names its heading, even when its paragraph was split. */
  lemma SentenceIsShown(pieces: seq<Piece>, chunks: seq<Chunk>, h: Option<string>, p: string, sentence: string)
    requires Recoverable(pieces, chunks, h, p)
    requires sentence in Sentences(p) && Strip(sentence) != "" && Count(sentence) <= TARGET_TOKENS && Count(p) > TARGET_TOKENS
    ensures InChunks(chunks, h, Strip(sentence))
  {
    var m := SplitKeepsSentence(p, sentence);
    hide SplitOf, Contains, Strip, Together, Sentences, HasRun;
    var parts := SplitOf(p);
    var k: nat :| ReadBack(pieces, chunks, h, parts, k);
    RunFits(pieces, k, h, parts);
    assert Together(pieces, chunks, h, parts, k, m, m);
    PartIsShown(pieces, chunks, h, parts, k, m, Strip(sentence));
  }

  lemma PartIsShown(pieces: seq<Piece>, chunks: seq<Chunk>, h: Option<string>, parts: seq<string>, k: nat, m: nat, q: string)
    requires m < |parts| && k + |parts| <= |pieces| && Together(pieces, chunks, h, parts, k, m, m) && Contains(parts[m], q)
    ensures InChunks(chunks, h, q)
  {
    hide Contains, Home, Group, Merged, Join;
    assert parts[m..m + 1] == [parts[m]];
    JoinOne(parts[m]);
    var c := Home(Merged(pieces), Group(pieces, k + m));
    assert Shows(chunks, c, h, parts[m]);
    ContainsTransitive(chunks[c].text, parts[m], q);
    assert Shows(chunks, c, h, q);
  }

  /** Every sentence that fits is whole in a chunk under the heading. */
  ghost predicate SentencesShown(chunks: seq<Chunk>, h: Option<string>, p: string) {
    forall k :: 0 <= k < |Sentences(p)| && Strip(Sentences(p)[k]) != "" && Count(Sentences(p)[k]) <= TARGET_TOKENS ==>
      InChunks(chunks, h, Strip(Sentences(p)[k]))
  }

  lemma SentencesAreShown(pieces: seq<Piece>, chunks: seq<Chunk>, h: Option<string>, p: string)
    requires Recoverable(pieces, chunks, h, p) && Count(p) > TARGET_TOKENS
    ensures SentencesShown(chunks, h, p)
  {
    hide Recoverable, InChunks, Sentences, Strip;
    forall k | 0 <= k < |Sentences(p)| && Strip(Sentences(p)[k]) != "" && Count(Sentences(p)[k]) <= TARGET_TOKENS
      ensures InChunks(chunks, h, Strip(Sentences(p)[k]))
    {
      SentenceIsShown(pieces, chunks, h, p, Sentences(p)[k]);
    }
  }

  /** Every paragraph of section s is recoverable, and no sentence that fits is cut. */
  ghost predicate SectionRecoverable(text: string, chunks: seq<Chunk>, s: nat)
    requires s < |SectionsOf(text)|
  {
    var section := SectionsOf(text)[s];
    forall i :: 0 <= i < |Paragraphs(section.body)| ==>
      && Recoverable(PiecesOf(SectionsOf(text)), chunks, section.heading, Paragraphs(section.body)[i])
      && (Count(Paragraphs(section.body)[i]) > TARGET_TOKENS ==>
            SentencesShown(chunks, section.heading, Paragraphs(section.body)[i]))
  }

  lemma SectionRecovers(text: string, s: nat)
    requires text != "" && s < |SectionsOf(text)|
    ensures SectionRecoverable(text, ChunksOf(text), s)
  {
    hide Recoverable, SentencesShown, SectionsOf, Paragraphs, PiecesOf, ChunksOf, Count;
    var section, chunks, pieces := SectionsOf(text)[s], ChunksOf(text), PiecesOf(SectionsOf(text));
    forall i | 0 <= i < |Paragraphs(section.body)|
      ensures Recoverable(pieces, chunks, section.heading, Paragraphs(section.body)[i])
      ensures Count(Paragraphs(section.body)[i]) > TARGET_TOKENS ==>
                SentencesShown(chunks, section.heading, Paragraphs(section.body)[i])
    {
      var p := Paragraphs(section.body)[i];
      DocumentRecovers(text, s, i);
      if Count(p) > TARGET_TOKENS {
        SentencesAreShown(pieces, chunks, section.heading, p);
      }
    }
  }

  /**
    chunk_document on extracted text. Every paragraph within the target occurs whole in a
    chunk that also names its section's heading; a larger one is read back, piece after
    piece, from its split, no sentence that fits being cut; ids are distinct and ordinals are
    0, 1, 2, ….
   */
  method ChunkDocument(text: string) returns (chunks: seq<Chunk>)
    ensures chunks == ChunksOf(text) && WellNumbered(chunks)
    ensures forall s :: 0 <= s < |SectionsOf(text)| ==> SectionRecoverable(text, chunks, s)
  {
    EmptyDocument();
    hide *;
    ChunksAre(text);
    if text == "" {
      chunks := [];
      return;
    }
    var pieces := Pieces(text);
    var merged := MergeRunts(pieces);
    chunks := Emit(merged);
    ChunksAreWellNumbered(merged);
    forall s | 0 <= s < |SectionsOf(text)| ensures SectionRecoverable(text, chunks, s) {
      SectionRecovers(text, s);
    }
  }

  lemma EmptyDocument()
    ensures SectionsOf("") == [] && WellNumbered([])
  {
  }

  lemma ChunksAre(text: string)
    ensures ChunksOf(text) == if text == "" then [] else ChunksFrom(Merged(PiecesOf(SectionsOf(text))))
  {
  }
}
