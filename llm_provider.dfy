/** The generation service: it resolves a template's section titles, builds
    the two chat messages, sends them to the chosen provider and
    accumulates the streamed reply. The provider SDKs are not modelled:
    their stream comes in as a sequence of chunks. */
module LlmProvider {
  import opened Wrappers
  import opened Text
  import opened Store
  import opened StreamEvents
  import PdfService

  type LineKind = PdfService.LineKind
  type Filing = PdfService.Filing

  // ------------------------------------------------------ loose headings

  predicate IsCapsOrSpace(c: char) {
    IsUpper(c) || IsSpace(c)
  }

  /** The heading test of the section resolver, on a trimmed line: a run
      of digits followed by a dot, or an upper-case letter followed by at
      least three upper-case letters or blanks. Case-sensitive, and
      anchored at the start of the line only. */
  predicate IsLooseHeading(t: string) {
    var n := DigitRun(t);
    (0 < n < |t| && t[n] == '.') ||
    (|t| >= 4 && IsUpper(t[0]) && IsCapsOrSpace(t[1]) && IsCapsOrSpace(t[2]) && IsCapsOrSpace(t[3]))
  }

  /** `/^\d+\./` matches. */
  ghost predicate NumberedRegex(t: string) {
    exists n :: 0 < n < |t| && (forall i :: 0 <= i < n ==> IsDigit(t[i])) && t[n] == '.'
  }

  /** `/^[A-Z][A-Z\s]{3,}/` matches: some `m >= 3` characters after the
      first letter are all upper-case letters or blanks. */
  ghost predicate CapsRegex(t: string) {
    exists m :: 3 <= m < |t| && IsUpper(t[0]) && CapsRun(t, m)
  }

  /** The characters at positions 1 to `m` are upper-case letters or blanks. */
  ghost predicate CapsRun(t: string, m: nat)
    requires m < |t|
  {
    forall i :: 1 <= i <= m ==> IsCapsOrSpace(t[i])
  }

  lemma NumberedRegexDigitRun(t: string, n: nat)
    requires 0 < n < |t| && (forall i :: 0 <= i < n ==> IsDigit(t[i])) && t[n] == '.'
    ensures DigitRun(t) == n
  {
    DigitRunCovers(t, n);
  }

  /** The computed test agrees with the two regular expressions. */
  lemma LooseHeadingIffRegex(t: string)
    ensures IsLooseHeading(t) <==> NumberedRegex(t) || CapsRegex(t)
  {
    var n := DigitRun(t);
    if 0 < n < |t| && t[n] == '.' {
      assert 0 < n < |t| && (forall i :: 0 <= i < n ==> IsDigit(t[i])) && t[n] == '.';
    }
    if NumberedRegex(t) {
      var k :| 0 < k < |t| && (forall i :: 0 <= i < k ==> IsDigit(t[i])) && t[k] == '.';
      NumberedRegexDigitRun(t, k);
    }
    if |t| >= 4 && IsUpper(t[0]) && IsCapsOrSpace(t[1]) && IsCapsOrSpace(t[2]) && IsCapsOrSpace(t[3]) {
      assert CapsRun(t, 3);
    }
    if CapsRegex(t) {
      var m :| 3 <= m < |t| && IsUpper(t[0]) && CapsRun(t, m);
      assert IsCapsOrSpace(t[1]) && IsCapsOrSpace(t[2]) && IsCapsOrSpace(t[3]);
    }
  }

  // ------------------------------------------------------- line scanning

  /** How the resolver sees one line once it is trimmed. */
  function LooseKind(line: string): LineKind {
    var t := Trim(line);
    if IsLooseHeading(t) then PdfService.Heading(t)
    else if t != "" then PdfService.Body(t)
    else PdfService.Blank
  }

  /** `f` applied to every element, in order. */
  function MapSeq<A, B>(f: A -> B, xs: seq<A>): (ys: seq<B>)
    ensures |ys| == |xs|
    ensures forall i :: 0 <= i < |xs| ==> ys[i] == f(xs[i])
  {
    seq(|xs|, i requires 0 <= i < |xs| => f(xs[i]))
  }

  lemma MapSeqPush<A, B>(f: A -> B, xs: seq<A>, i: nat)
    requires i < |xs|
    ensures MapSeq(f, xs[..i + 1]) == MapSeq(f, xs[..i]) + [f(xs[i])]
  {
    assert xs[..i + 1][..i] == xs[..i];
  }

  function LooseClassify(lines: seq<string>): (kinds: seq<LineKind>)
    ensures |kinds| == |lines|
    ensures forall i :: 0 <= i < |lines| ==> kinds[i] == LooseKind(lines[i])
  {
    MapSeq(LooseKind, lines)
  }

  lemma LooseClassifyPush(lines: seq<string>, i: nat)
    requires i < |lines|
    ensures LooseClassify(lines[..i + 1]) == LooseClassify(lines[..i]) + [LooseKind(lines[i])]
  {
    MapSeqPush(LooseKind, lines, i);
  }

  /** A parsed section: its title line and its body lines. */
  datatype Part = Part(title: string, lines: seq<string>)

  /** The resolver's loop state: the sections pushed so far and the one
      being built, if a heading has been seen. */
  datatype Draft = Draft(done: seq<Part>, current: Option<Part>)

  function Finish(d: Draft): seq<Part> {
    if d.current.Some? then d.done + [d.current.value] else d.done
  }

  /** A heading always starts a new section; a body line joins the current
      section, and is dropped when there is none yet. */
  function LooseStep(d: Draft, k: LineKind): Draft {
    match k
    case Heading(t) => Draft(Finish(d), Some(Part(t, [])))
    case Body(t) =>
      if d.current.Some? then Draft(d.done, Some(d.current.value.(lines := d.current.value.lines + [t])))
      else d
    case Blank => d
  }

  function LooseScan(kinds: seq<LineKind>): Draft {
    if |kinds| == 0 then Draft([], None)
    else LooseStep(LooseScan(kinds[..|kinds| - 1]), kinds[|kinds| - 1])
  }

  lemma LooseClassifyAppend(lines: seq<string>, l: string)
    ensures LooseClassify(lines + [l]) == LooseClassify(lines) + [LooseKind(l)]
  {
    assert (lines + [l])[..|lines|] == lines;
  }

  lemma LooseScanPush(kinds: seq<LineKind>, k: LineKind)
    ensures LooseScan(kinds + [k]) == LooseStep(LooseScan(kinds), k)
  {
    assert (kinds + [k])[..|kinds|] == kinds;
  }

  const DefaultTitles: seq<string> := [
    "1. Overview",
    "2. Test Scope",
    "3. Test Scenarios",
    "4. Test Cases",
    "5. Test Data",
    "6. Entry/Exit Criteria",
    "7. Risks & Assumptions"
  ]

  function Untitled(titles: seq<string>): (ps: seq<Part>)
    ensures |ps| == |titles|
    ensures forall i :: 0 <= i < |titles| ==> ps[i] == Part(titles[i], [])
  {
    seq(|titles|, i requires 0 <= i < |titles| => Part(titles[i], []))
  }

  /** The seven sections used when the text has no heading. */
  const DefaultParts: seq<Part> := Untitled(DefaultTitles)

  /** The sections parsed from the lines, or the defaults if none. */
  function PartsOf(lines: seq<string>): seq<Part> {
    var ps := Finish(LooseScan(LooseClassify(lines)));
    if |ps| > 0 then ps else DefaultParts
  }

  /** What `parseTemplateSections` returns: the template's own section
      list when it has one, else sections parsed from its text. */
  datatype Outline = Stored(sections: seq<Section>) | Parsed(parts: seq<Part>)

  function PartTitle(p: Part): string {
    p.title
  }

  function SectionTitle(s: Section): string {
    s.title
  }

  /** The titles of the parsed parts, in order. */
  function PartTitles(ps: seq<Part>): seq<string> {
    MapSeq(PartTitle, ps)
  }

  /** The titles of the stored sections, in order. */
  function SectionTitles(ss: seq<Section>): seq<string> {
    MapSeq(SectionTitle, ss)
  }

  function Titles(o: Outline): seq<string> {
    match o
    case Stored(ss) => SectionTitles(ss)
    case Parsed(ps) => PartTitles(ps)
  }

  /** The text the resolver parses: `content || rawText || ''`. */
  function TemplateText(t: Template): string {
    OrElse(t.content, t.rawText)
  }

  function ResolveSections(t: Template): Outline {
    if |t.sections| > 0 then Stored(t.sections)
    else Parsed(PartsOf(Split(TemplateText(t), '\n')))
  }

  /** `parseTemplateSections(template)`. */
  method ParseTemplateSections(template: Template) returns (outline: Outline)
    ensures outline == ResolveSections(template)
  {
    if |template.sections| > 0 {
      return Stored(template.sections);
    }
    var text := OrElse(template.content, template.rawText);
    var parts := PartsOfLines(Split(text, '\n'));
    if |parts| > 0 {
      outline := Parsed(parts);
    } else {
      outline := Parsed(DefaultParts);
    }
  }

  /** The loop of `parseTemplateSections` over the lines. */
  method PartsOfLines(lines: seq<string>) returns (parts: seq<Part>)
    ensures parts == Finish(LooseScan(LooseClassify(lines)))
  {
    parts := [];
    var current: Option<Part> := None;
    for i := 0 to |lines|
      invariant Draft(parts, current) == LooseScan(LooseClassify(lines[..i]))
    {
      LooseClassifyPush(lines, i);
      LooseScanPush(LooseClassify(lines[..i]), LooseKind(lines[i]));
      var trimmed := Trim(lines[i]);
      if IsLooseHeading(trimmed) {
        if current.Some? {
          parts := parts + [current.value];
        }
        current := Some(Part(trimmed, []));
      } else if current.Some? && trimmed != "" {
        current := Some(current.value.(lines := current.value.lines + [trimmed]));
      }
    }
    assert lines[..|lines|] == lines;
    if current.Some? {
      parts := parts + [current.value];
    }
  }

  // ------------------------------------------- the per-line reference view

  /** The last heading among `kinds`, if any. */
  function LastHeading(kinds: seq<LineKind>): Option<string> {
    if |kinds| == 0 then None
    else if kinds[|kinds| - 1].Heading? then Some(kinds[|kinds| - 1].text)
    else LastHeading(kinds[..|kinds| - 1])
  }

  /** Every body line that has a heading above it, filed under the last
      such heading; body lines before the first heading have no place. */
  function LooseFiled(kinds: seq<LineKind>): seq<Filing> {
    if |kinds| == 0 then []
    else
      var prefix := kinds[..|kinds| - 1];
      var k := kinds[|kinds| - 1];
      var h := LastHeading(prefix);
      LooseFiled(prefix) + (if k.Body? && h.Some? then [PdfService.Filing(h.value, k.text)] else [])
  }

  /** The lines of each part, filed under the part's title. */
  function PartsFiled(ps: seq<Part>): seq<Filing> {
    if |ps| == 0 then []
    else
      var last := ps[|ps| - 1];
      PartsFiled(ps[..|ps| - 1]) + PdfService.Tagged(last.title, last.lines)
  }

  lemma PartsFiledPush(ps: seq<Part>, p: Part)
    ensures PartsFiled(ps + [p]) == PartsFiled(ps) + PdfService.Tagged(p.title, p.lines)
  {
    assert (ps + [p])[..|ps|] == ps;
  }

  lemma TaggedPush(title: string, ls: seq<string>, l: string)
    ensures PdfService.Tagged(title, ls + [l]) == PdfService.Tagged(title, ls) + [PdfService.Filing(title, l)]
  {
  }

  lemma PartTitlesPush(ps: seq<Part>, p: Part)
    ensures PartTitles(ps + [p]) == PartTitles(ps) + [p.title]
  {
  }

  /** One step of the scan keeps the sections' titles equal to the
      headings seen and their lines equal to the filed body lines. */
  lemma StepFacts(d: Draft, k: LineKind, kinds: seq<LineKind>)
    requires d.current.Some? <==> LastHeading(kinds).Some?
    requires d.current.Some? ==> d.current.value.title == LastHeading(kinds).value
    requires PartTitles(Finish(d)) == PdfService.Headings(kinds)
    requires PartsFiled(Finish(d)) == LooseFiled(kinds)
    ensures LooseStep(d, k).current.Some? <==> LastHeading(kinds + [k]).Some?
    ensures LooseStep(d, k).current.Some? ==> LooseStep(d, k).current.value.title == LastHeading(kinds + [k]).value
    ensures PartTitles(Finish(LooseStep(d, k))) == PdfService.Headings(kinds + [k])
    ensures PartsFiled(Finish(LooseStep(d, k))) == LooseFiled(kinds + [k])
  {
    var ks := kinds + [k];
    assert ks[..|kinds|] == kinds;
    assert LastHeading(ks) == if k.Heading? then Some(k.text) else LastHeading(kinds);
    assert PdfService.Headings(ks) == PdfService.Headings(kinds) + (if k.Heading? then [k.text] else []);
    assert LooseFiled(ks) == LooseFiled(kinds) +
      (if k.Body? && LastHeading(kinds).Some? then [PdfService.Filing(LastHeading(kinds).value, k.text)] else []);
    match k
    case Heading(t) =>
      var p := Part(t, []);
      PartTitlesPush(Finish(d), p);
      PartsFiledPush(Finish(d), p);
      assert PdfService.Tagged(t, []) == [];
    case Body(t) =>
      if d.current.Some? {
        var c := d.current.value;
        var c' := c.(lines := c.lines + [t]);
        PartTitlesPush(d.done, c);
        PartTitlesPush(d.done, c');
        PartsFiledPush(d.done, c);
        PartsFiledPush(d.done, c');
        TaggedPush(c.title, c.lines, t);
      }
    case Blank =>
  }

  lemma {:induction false} ScanFacts(kinds: seq<LineKind>)
    ensures LooseScan(kinds).current.Some? <==> LastHeading(kinds).Some?
    ensures LooseScan(kinds).current.Some? ==> LooseScan(kinds).current.value.title == LastHeading(kinds).value
    ensures PartTitles(Finish(LooseScan(kinds))) == PdfService.Headings(kinds)
    ensures PartsFiled(Finish(LooseScan(kinds))) == LooseFiled(kinds)
  {
    if |kinds| > 0 {
      var prefix := kinds[..|kinds| - 1];
      var k := kinds[|kinds| - 1];
      ScanFacts(prefix);
      StepFacts(LooseScan(prefix), k, prefix);
      assert prefix + [k] == kinds;
    }
  }

  /** The resolved titles are the heading lines of the text, every one of
      them and in order, even those with no body; without any heading they
      are the seven default titles. */
  lemma ParsedTitles(lines: seq<string>)
    ensures var hs := PdfService.Headings(LooseClassify(lines));
      PartTitles(PartsOf(lines)) == if hs != [] then hs else DefaultTitles
  {
    ScanFacts(LooseClassify(lines));
    assert PartTitles(DefaultParts) == DefaultTitles;
  }

  /** Each body line is kept under the last heading above it, and the lines
      before the first heading are dropped. */
  lemma ParsedFiling(lines: seq<string>)
    requires PdfService.Headings(LooseClassify(lines)) != []
    ensures PartsFiled(PartsOf(lines)) == LooseFiled(LooseClassify(lines))
  {
    ScanFacts(LooseClassify(lines));
  }

  lemma {:induction false} NoHeadingNoFiling(kinds: seq<LineKind>)
    requires PdfService.Headings(kinds) == []
    ensures LooseFiled(kinds) == [] && LastHeading(kinds).None?
  {
    if |kinds| > 0 {
      var prefix := kinds[..|kinds| - 1];
      assert PdfService.Headings(prefix) == [];
      NoHeadingNoFiling(prefix);
    }
  }

  /** Text without a heading line resolves to the seven default sections,
      whatever else it holds. */
  lemma NoHeadingGivesDefaults(lines: seq<string>)
    requires PdfService.Headings(LooseClassify(lines)) == []
    ensures PartsOf(lines) == DefaultParts
  {
    ScanFacts(LooseClassify(lines));
  }

  /** A template always resolves to at least one section, when its own
      list is empty too. */
  lemma ResolvedNeverEmpty(t: Template)
    ensures |Titles(ResolveSections(t))| > 0
  {
  }

  /** A template with its own section list keeps it as it is. */
  lemma StoredSectionsKept(t: Template)
    requires |t.sections| > 0
    ensures ResolveSections(t) == Stored(t.sections)
    ensures Titles(ResolveSections(t)) == SectionTitles(t.sections)
  {
  }

  lemma {:induction false} HeadingsOfLooseClassify(lines: seq<string>)
    ensures forall h :: h in PdfService.Headings(LooseClassify(lines)) ==> '\n' !in h
    requires forall k :: 0 <= k < |lines| ==> '\n' !in lines[k]
  {
    if |lines| > 0 {
      var prefix := lines[..|lines| - 1];
      HeadingsOfLooseClassify(prefix);
      var ks := LooseClassify(lines);
      assert ks[..|prefix|] == LooseClassify(prefix);
      TrimKeepsOut(lines[|lines| - 1], '\n');
    }
  }

  lemma DefaultTitlesSingleLine()
    ensures forall i :: 0 <= i < |DefaultTitles| ==> '\n' !in DefaultTitles[i]
  {
    forall i | 0 <= i < |DefaultTitles|
      ensures '\n' !in DefaultTitles[i]
    {
      if i == 0 {} else if i == 1 {} else if i == 2 {} else if i == 3 {} else if i == 4 {} else if i == 5 {} else {}
    }
  }

  /** Titles parsed from lines hold no line feed. */
  lemma ParsedTitlesSingleLine(lines: seq<string>)
    requires forall k :: 0 <= k < |lines| ==> '\n' !in lines[k]
    ensures forall i :: 0 <= i < |PartsOf(lines)| ==> '\n' !in PartsOf(lines)[i].title
  {
    ParsedTitles(lines);
    HeadingsOfLooseClassify(lines);
    DefaultTitlesSingleLine();
    var ts := PartTitles(PartsOf(lines));
    forall i | 0 <= i < |PartsOf(lines)|
      ensures '\n' !in PartsOf(lines)[i].title
    {
      assert ts[i] == PartsOf(lines)[i].title;
      assert ts[i] in ts;
    }
  }

  /** A kind of a trimmed, non-empty line. */
  lemma KindOfTrimmed(t: string)
    requires IsTrimmed(t) && t != ""
    ensures LooseKind(t) == if IsLooseHeading(t) then PdfService.Heading(t) else PdfService.Body(t)
  {
  }

  /** The worked example: two numbered headings, each with one body line. */
  const OutlineExample := "1. OVERVIEW" + "\n" + ("Some text" + "\n" + ("2. RISKS" + "\n" + "Risk text"))

  const ExampleLines: seq<string> := ["1. OVERVIEW", "Some text", "2. RISKS", "Risk text"]

  /** Four newline-free lines joined by newlines split back into them. */
  lemma SplitFourLines(a: string, b: string, c: string, d: string)
    requires '\n' !in a && '\n' !in b && '\n' !in c && '\n' !in d
    ensures Split(a + "\n" + (b + "\n" + (c + "\n" + d)), '\n') == [a, b, c, d]
  {
    SplitWithoutSeparator(d, '\n');
    SplitAfterPiece(c, '\n', d);
    SplitAfterPiece(b, '\n', c + "\n" + d);
    SplitAfterPiece(a, '\n', b + "\n" + (c + "\n" + d));
    assert [a] + ([b] + ([c] + [d])) == [a, b, c, d];
  }

  lemma OutlineExampleLines()
    ensures Split(OutlineExample, '\n') == ExampleLines
  {
    SplitFourLines("1. OVERVIEW", "Some text", "2. RISKS", "Risk text");
  }

  lemma ExampleLine0()
    ensures LooseKind("1. OVERVIEW") == PdfService.Heading("1. OVERVIEW")
  {
    assert DigitRun("1. OVERVIEW") == 1 by {
      assert "1. OVERVIEW"[1..] == ". OVERVIEW";
    }
    KindOfTrimmed("1. OVERVIEW");
  }

  lemma ExampleLine1()
    ensures LooseKind("Some text") == PdfService.Body("Some text")
  {
    assert DigitRun("Some text") == 0;
    KindOfTrimmed("Some text");
  }

  lemma ExampleLine2()
    ensures LooseKind("2. RISKS") == PdfService.Heading("2. RISKS")
  {
    assert DigitRun("2. RISKS") == 1 by {
      assert "2. RISKS"[1..] == ". RISKS";
    }
    KindOfTrimmed("2. RISKS");
  }

  lemma ExampleLine3()
    ensures LooseKind("Risk text") == PdfService.Body("Risk text")
  {
    assert DigitRun("Risk text") == 0;
    assert !IsCapsOrSpace("Risk text"[1]);
    KindOfTrimmed("Risk text");
  }

  const ExampleKinds: seq<LineKind> := [
    PdfService.Heading("1. OVERVIEW"), PdfService.Body("Some text"),
    PdfService.Heading("2. RISKS"), PdfService.Body("Risk text")]

  lemma ClassifyAll(ls: seq<string>, ks: seq<LineKind>)
    requires |ls| == |ks|
    requires forall i :: 0 <= i < |ls| ==> LooseKind(ls[i]) == ks[i]
    ensures LooseClassify(ls) == ks
  {
  }

  lemma OutlineExampleKinds()
    ensures LooseClassify(ExampleLines) == ExampleKinds
  {
    forall i | 0 <= i < 4
      ensures LooseKind(ExampleLines[i]) == ExampleKinds[i]
    {
      if i == 0 {
        ExampleLine0();
      } else if i == 1 {
        ExampleLine1();
      } else if i == 2 {
        ExampleLine2();
      } else {
        ExampleLine3();
      }
    }
    ClassifyAll(ExampleLines, ExampleKinds);
  }

  /** Two headings, each followed by one body line, give two sections. */
  lemma ScanTwoSections(a: string, x: string, b: string, y: string)
    ensures Finish(LooseScan([PdfService.Heading(a), PdfService.Body(x), PdfService.Heading(b), PdfService.Body(y)])) ==
      [Part(a, [x]), Part(b, [y])]
  {
    var k0, k1, k2, k3 := PdfService.Heading(a), PdfService.Body(x), PdfService.Heading(b), PdfService.Body(y);
    LooseScanPush([], k0);
    assert [] + [k0] == [k0];
    assert LooseScan([]) == Draft([], None);
    assert LooseScan([k0]) == Draft([], Some(Part(a, [])));
    LooseScanPush([k0], k1);
    assert [k0] + [k1] == [k0, k1];
    assert [] + [x] == [x];
    assert LooseScan([k0, k1]) == Draft([], Some(Part(a, [x])));
    LooseScanPush([k0, k1], k2);
    assert [k0, k1] + [k2] == [k0, k1, k2];
    assert LooseScan([k0, k1, k2]) == Draft([Part(a, [x])], Some(Part(b, [])));
    LooseScanPush([k0, k1, k2], k3);
    assert [k0, k1, k2] + [k3] == [k0, k1, k2, k3];
    assert [] + [y] == [y];
  }

  lemma OutlineExampleScan()
    ensures Finish(LooseScan(ExampleKinds)) ==
      [Part("1. OVERVIEW", ["Some text"]), Part("2. RISKS", ["Risk text"])]
  {
    ScanTwoSections("1. OVERVIEW", "Some text", "2. RISKS", "Risk text");
  }

  /** `"1. OVERVIEW\nSome text\n2. RISKS\nRisk text"` resolves to the two
      numbered sections, each holding its one body line. */
  lemma OutlineExampleParts()
    ensures PartsOf(Split(OutlineExample, '\n')) ==
      [Part("1. OVERVIEW", ["Some text"]), Part("2. RISKS", ["Risk text"])]
  {
    OutlineExampleLines();
    OutlineExampleKinds();
    OutlineExampleScan();
  }

  // ------------------------------------------------------------- prompts

  datatype Message = Message(role: string, content: string)

  const SystemPrompt: string :=
    "You are an expert QA Engineer with 10+ years of experience. Your task is to generate a comprehensive, professional test plan that STRICTLY follows the provided template structure.\n" +
    "\n" +
    "CRITICAL RULES:\n" +
    "1. Follow the template section structure EXACTLY - use the same section headers\n" +
    "2. Each test case must have: TC-ID, Description, Preconditions, Steps (numbered), Expected Result\n" +
    "3. Map acceptance criteria to SPECIFIC test cases with clear traceability\n" +
    "4. Include BOTH positive and negative test scenarios\n" +
    "5. Add edge cases and boundary value analysis\n" +
    "6. Use professional QA terminology\n" +
    "7. Format output in proper Markdown with clear hierarchy"

  /** The section titles, one per line. */
  function StructureBlock(o: Outline): string {
    Join(Titles(o), "\n")
  }

  /** The block of titles reads back, line by line, as the titles. */
  lemma StructureBlockLines(o: Outline)
    requires |Titles(o)| > 0
    requires forall i :: 0 <= i < |Titles(o)| ==> '\n' !in Titles(o)[i]
    ensures Split(StructureBlock(o), '\n') == Titles(o)
  {
    SplitJoin(Titles(o), '\n');
  }

  /** The reference text: `content || rawText || 'Standard test plan format'`. */
  function ReferenceText(t: Template): (r: string)
    ensures r != ""
    ensures t.content != "" ==> r == t.content
    ensures t.content == "" && t.rawText != "" ==> r == t.rawText
    ensures t.content == "" && t.rawText == "" ==> r == "Standard test plan format"
  {
    OrElse(TemplateText(t), "Standard test plan format")
  }

  /** The fixed pieces of the user prompt, in order, between the
      interpolated values. */
  const PromptPieces: seq<string> := [
    "## JIRA TICKET INFORMATION\n\n**Ticket ID:** ",
    "\n**Summary:** ",
    "\n**Priority:** ",
    "\n**Status:** ",
    "\n\n**Description:**\n",
    "\n\n**Acceptance Criteria:**\n",
    "\n\n---\n\n## TEMPLATE STRUCTURE (MUST FOLLOW EXACTLY)\n\n",
    "\n\n---\n\n## TEMPLATE REFERENCE CONTENT\n\n",
    GenerationInstructions,
    Reminders
  ]

  const GenerationInstructions: string :=
    "\n" +
    "\n" +
    "---\n" +
    "\n" +
    "## GENERATION INSTRUCTIONS\n" +
    "\n" +
    "Generate a complete test plan with the following structure:\n" +
    "\n" +
    "### 1. Overview\n" +
    "- Brief description of the feature being tested\n" +
    "- Reference to JIRA ticket: "

  const Reminders: string :=
    "\n" +
    "- Test plan version and date\n" +
    "\n" +
    "### 2. Test Scope\n" +
    "#### In Scope\n" +
    "- Features to be tested based on the ticket\n" +
    "- Functionality covered\n" +
    "\n" +
    "#### Out of Scope  \n" +
    "- Features explicitly not covered\n" +
    "\n" +
    "### 3. Test Scenarios (High Level)\n" +
    "List 5-10 test scenarios covering:\n" +
    "- Happy path flows\n" +
    "- Alternative flows\n" +
    "- Error handling\n" +
    "- Edge cases\n" +
    "\n" +
    "### 4. Detailed Test Cases\n" +
    "For each scenario, create specific test cases with this EXACT format:\n" +
    "\n" +
    "| TC-ID | Test Case Title | Priority |\n" +
    "|-------|----------------|----------|\n" +
    "| TC-001 | [Clear, descriptive title] | High/Medium/Low |\n" +
    "\n" +
    "**Preconditions:**\n" +
    "- List setup requirements\n" +
    "\n" +
    "**Test Steps:**\n" +
    "1. Step 1 description\n" +
    "2. Step 2 description\n" +
    "3. Step 3 description\n" +
    "\n" +
    "**Expected Result:**\n" +
    "- Clear description of expected outcome\n" +
    "\n" +
    "**Traceability:** Maps to Acceptance Criteria: [AC reference]\n" +
    "\n" +
    "### 5. Test Data Requirements\n" +
    "- Specific data needed for testing\n" +
    "- User accounts, test inputs, etc.\n" +
    "\n" +
    "### 6. Entry and Exit Criteria\n" +
    "- When to start testing\n" +
    "- When to stop testing\n" +
    "\n" +
    "### 7. Risks and Mitigation\n" +
    "- Potential risks\n" +
    "- Mitigation strategies\n" +
    "\n" +
    "---\n" +
    "\n" +
    "**REMEMBER:**\n" +
    "- Generate at least 8-12 detailed test cases\n" +
    "- Each test case must be executable\n" +
    "- Include negative test cases (invalid inputs, error conditions)\n" +
    "- Include boundary value test cases\n" +
    "- Map each test case to specific acceptance criteria"

  /** The values interpolated into the user prompt, in order. */
  function PromptSlots(ticket: Ticket, structure: string, reference: string): (slots: seq<string>)
    ensures |slots| == |PromptPieces| - 1
    ensures slots[0] == ticket.key && slots[8] == ticket.key
    ensures slots[1] == ticket.summary && slots[2] == ticket.priority && slots[3] == ticket.status
    ensures slots[4] != "" && slots[5] != ""
    ensures ticket.description != "" ==> slots[4] == ticket.description
    ensures ticket.description == "" ==> slots[4] == "No description provided"
    ensures ticket.acceptanceCriteria != "" ==> slots[5] == ticket.acceptanceCriteria
    ensures ticket.acceptanceCriteria == "" ==> slots[5] == "No acceptance criteria provided"
    ensures slots[6] == structure && slots[7] == reference
  {
    [ticket.key, ticket.summary, ticket.priority, ticket.status,
     OrElse(ticket.description, "No description provided"),
     OrElse(ticket.acceptanceCriteria, "No acceptance criteria provided"),
     structure, reference, ticket.key]
  }

  /** Pieces and values alternated: `pieces[0] + values[0] + pieces[1] + ...`. */
  function Interleave(pieces: seq<string>, values: seq<string>): string
    requires |pieces| == |values| + 1
  {
    if |values| == 0 then pieces[0]
    else pieces[0] + values[0] + Interleave(pieces[1..], values[1..])
  }

  /** Each value sits between its two neighbouring pieces: everything before
      it ends with the piece before it, and everything after it starts with
      the piece after it. */
  lemma {:induction false} InterleaveAt(pieces: seq<string>, values: seq<string>, k: nat)
    requires |pieces| == |values| + 1 && k < |values|
    ensures Interleave(pieces, values) ==
      Interleave(pieces[..k + 1], values[..k]) + values[k] + Interleave(pieces[k + 1..], values[k + 1..])
    ensures EndsWith(Interleave(pieces[..k + 1], values[..k]), pieces[k])
    ensures StartsWith(Interleave(pieces[k + 1..], values[k + 1..]), pieces[k + 1])
  {
    var after := Interleave(pieces[k + 1..], values[k + 1..]);
    if k == 0 {
      assert pieces[..1][0] == pieces[0];
    } else {
      InterleaveAt(pieces[1..], values[1..], k - 1);
      assert pieces[1..][..k] == pieces[1..k + 1];
      assert values[1..][..k - 1] == values[1..k];
      assert pieces[1..][k..] == pieces[k + 1..];
      assert values[1..][k..] == values[k + 1..];
      var before := Interleave(pieces[1..k + 1], values[1..k]);
      assert pieces[..k + 1][1..] == pieces[1..k + 1];
      assert values[..k][1..] == values[1..k];
      assert Interleave(pieces[..k + 1], values[..k]) == pieces[0] + values[0] + before;
    }
  }

  function UserPrompt(ticket: Ticket, structure: string, reference: string): string {
    Interleave(PromptPieces, PromptSlots(ticket, structure, reference))
  }

  /** In the user prompt, the value in slot `k` comes right after the `k`-th
      fixed piece and right before the next one. */
  lemma UserPromptSlot(ticket: Ticket, structure: string, reference: string, k: nat)
    requires k < |PromptPieces| - 1
    ensures var slots := PromptSlots(ticket, structure, reference);
      var before := Interleave(PromptPieces[..k + 1], slots[..k]);
      var after := Interleave(PromptPieces[k + 1..], slots[k + 1..]);
      UserPrompt(ticket, structure, reference) == before + slots[k] + after &&
      EndsWith(before, PromptPieces[k]) && StartsWith(after, PromptPieces[k + 1])
  {
    InterleaveAt(PromptPieces, PromptSlots(ticket, structure, reference), k);
  }

  /** The two messages sent for a ticket and a template; the system
      message is the same whatever the inputs. */
  function Messages(ticket: Ticket, template: Template): (ms: seq<Message>)
    ensures |ms| == 2 && ms[0] == Message("system", SystemPrompt) && ms[1].role == "user"
  {
    var structure := StructureBlock(ResolveSections(template));
    [Message("system", SystemPrompt),
     Message("user", UserPrompt(ticket, structure, ReferenceText(template)))]
  }

  // ------------------------------------------------------------ dispatch

  const GroqDefaultModel := "llama-3.3-70b-versatile"
  const OllamaDefaultModel := "llama3.2"

  /** The chat request handed to a provider SDK. */
  datatype ChatRequest = ChatRequest(model: string, messages: seq<Message>)

  /** What a provider's stream delivers: chunks, each with or without a
      text delta, and possibly an error raised after them (or instead of
      the stream, when there are no chunks). */
  datatype ProviderStream = ProviderStream(chunks: seq<Option<string>>, failure: Option<string>)

  datatype GenerationResult =
    | Generated(content: string, metadata: PlanMetadata)
    | GenerationFailed(error: string)

  /** The deltas of the chunks, a missing one read as "". */
  function Deltas(chunks: seq<Option<string>>): (ds: seq<string>)
    ensures |ds| == |chunks|
    ensures forall i :: 0 <= i < |chunks| ==> ds[i] == chunks[i].GetOr("")
  {
    seq(|chunks|, i requires 0 <= i < |chunks| => chunks[i].GetOr(""))
  }

  lemma DeltasPush(chunks: seq<Option<string>>, i: nat)
    requires i < |chunks|
    ensures Deltas(chunks[..i + 1]) == Deltas(chunks[..i]) + [chunks[i].GetOr("")]
  {
  }

  lemma ConcatPush(ss: seq<string>, s: string)
    ensures Concat(ss + [s]) == Concat(ss) + s
  {
    assert (ss + [s])[..|ss|] == ss;
  }

  /** Which model is asked for, or why nothing is sent: Groq needs a
      configured client, Ollama needs nothing, any other name fails. */
  function Dispatch(provider: string, model: string, groqReady: bool): (r: Result<string, string>)
    ensures r.Success? <==> (provider == "groq" && groqReady) || provider == "ollama"
    ensures r.Success? ==> r.value != ""
    ensures r.Success? && model != "" ==> r.value == model
    ensures provider == "groq" && !groqReady ==> r == Failure("Groq not configured")
    ensures provider != "groq" && provider != "ollama" ==> r == Failure("Unknown provider: " + provider)
  {
    if provider == "groq" then
      if !groqReady then Failure("Groq not configured") else Success(OrElse(model, GroqDefaultModel))
    else if provider == "ollama" then Success(OrElse(model, OllamaDefaultModel))
    else Failure("Unknown provider: " + provider)
  }

  /** The deltas passed to `onChunk`: all of them once a request is sent,
      none otherwise. */
  function Delivered(provider: string, model: string, groqReady: bool, stream: ProviderStream): seq<string> {
    if Dispatch(provider, model, groqReady).Success? then Deltas(stream.chunks) else []
  }

  function Outcome(provider: string, model: string, groqReady: bool, stream: ProviderStream): GenerationResult {
    match Dispatch(provider, model, groqReady)
    case Failure(e) => GenerationFailed(e)
    case Success(_) =>
      if stream.failure.Some? then GenerationFailed(stream.failure.value)
      else Generated(Concat(Deltas(stream.chunks)), PlanMetadata(provider, model, |stream.chunks|))
  }

  /** A generation succeeds exactly when a request is sent and its stream
      ends without error; the content is then all the deltas passed on, one
      per chunk, and the recorded model is the argument as given, not the
      default that was asked for. A failure carries no content. */
  lemma OutcomeFacts(provider: string, model: string, groqReady: bool, stream: ProviderStream)
    ensures var r := Outcome(provider, model, groqReady, stream);
      && (r.Generated? <==> Dispatch(provider, model, groqReady).Success? && stream.failure.None?)
      && (r.Generated? ==> r.content == Concat(Delivered(provider, model, groqReady, stream)))
      && (r.Generated? ==> r.metadata == PlanMetadata(provider, model, |Delivered(provider, model, groqReady, stream)|))
      && (Dispatch(provider, model, groqReady).Failure? ==>
            r == GenerationFailed(Dispatch(provider, model, groqReady).error) &&
            Delivered(provider, model, groqReady, stream) == [])
  {
  }

  /** With no model given, Groq is asked for its default model while the
      result records the empty model. */
  lemma DefaultModelNotRecorded(stream: ProviderStream)
    requires stream.failure.None?
    ensures Dispatch("groq", "", true) == Success(GroqDefaultModel)
    ensures Outcome("groq", "", true, stream).metadata.modelUsed == ""
  {
  }

  // ------------------------------------------------------------- service

  /** The stream loop: each delta is appended to the content, counted, and
      passed to the sink when there is one. */
  method Consume(chunks: seq<Option<string>>, sink: EventStream?) returns (content: string, tokens: nat)
    modifies sink
    ensures content == Concat(Deltas(chunks)) && tokens == |chunks|
    ensures sink != null ==> sink.fullContent == old(sink.fullContent) + content
    ensures sink != null ==> sink.events == old(sink.events) + ChunkEvents(Deltas(chunks))
  {
    content := "";
    tokens := 0;
    for i := 0 to |chunks|
      invariant content == Concat(Deltas(chunks[..i])) && tokens == i
      invariant sink != null ==> sink.fullContent == old(sink.fullContent) + content
      invariant sink != null ==> sink.events == old(sink.events) + ChunkEvents(Deltas(chunks[..i]))
    {
      var delta := chunks[i].GetOr("");
      DeltasPush(chunks, i);
      ConcatPush(Deltas(chunks[..i]), delta);
      ChunkEventsPush(Deltas(chunks[..i]), delta);
      content := content + delta;
      tokens := tokens + 1;
      if sink != null {
        sink.OnChunk(delta);
      }
    }
    assert chunks[..|chunks|] == chunks;
  }

  class LlmProviderService {
    /** The Groq client, represented by the API key it was made with. */
    var groqKey: Option<string>
    var ollamaBaseUrl: string

    constructor (settings: map<string, string>)
      ensures groqKey == if GroqApiKeyKey in settings then Some(settings[GroqApiKeyKey]) else None
      ensures ollamaBaseUrl == if OllamaBaseUrlKey in settings then settings[OllamaBaseUrlKey] else "http://localhost:11434"
    {
      groqKey := None;
      ollamaBaseUrl := "http://localhost:11434";
      new;
      InitializeProviders(settings);
    }

    /** `initializeProviders`: a stored row sets the client or the URL,
        even when its value is empty; a missing row keeps what was there. */
    method InitializeProviders(settings: map<string, string>)
      modifies this
      ensures groqKey == if GroqApiKeyKey in settings then Some(settings[GroqApiKeyKey]) else old(groqKey)
      ensures ollamaBaseUrl == if OllamaBaseUrlKey in settings then settings[OllamaBaseUrlKey] else old(ollamaBaseUrl)
    {
      if GroqApiKeyKey in settings {
        groqKey := Some(settings[GroqApiKeyKey]);
      }
      if OllamaBaseUrlKey in settings {
        ollamaBaseUrl := settings[OllamaBaseUrlKey];
      }
    }

    /** `generateTestPlan`: the request sent, if any, and the result; the
        sink receives every delta in order. */
    method GenerateTestPlan(ticket: Ticket, template: Template, provider: string, model: string,
                            stream: ProviderStream, sink: EventStream?)
      returns (result: GenerationResult, request: Option<ChatRequest>)
      modifies sink
      ensures result == Outcome(provider, model, groqKey.Some?, stream)
      ensures request.Some? <==> Dispatch(provider, model, groqKey.Some?).Success?
      ensures request.Some? ==>
        request.value == ChatRequest(Dispatch(provider, model, groqKey.Some?).value, Messages(ticket, template))
      ensures sink != null ==>
        sink.fullContent == old(sink.fullContent) + Concat(Delivered(provider, model, groqKey.Some?, stream))
      ensures sink != null ==>
        sink.events == old(sink.events) + ChunkEvents(Delivered(provider, model, groqKey.Some?, stream))
    {
      var outline := ParseTemplateSections(template);
      var messages := [
        Message("system", SystemPrompt),
        Message("user", UserPrompt(ticket, StructureBlock(outline), ReferenceText(template)))
      ];
      var target: string;
      if provider == "groq" {
        if groqKey.None? {
          assert ChunkEvents([]) == [];
          return GenerationFailed("Groq not configured"), None;
        }
        target := OrElse(model, GroqDefaultModel);
      } else if provider == "ollama" {
        target := OrElse(model, OllamaDefaultModel);
      } else {
        assert ChunkEvents([]) == [];
        return GenerationFailed("Unknown provider: " + provider), None;
      }
      request := Some(ChatRequest(target, messages));
      var content, tokens := Consume(stream.chunks, sink);
      if stream.failure.Some? {
        result := GenerationFailed(stream.failure.value);
      } else {
        result := Generated(content, PlanMetadata(provider, model, tokens));
      }
    }
  }
}
