/** Upload-time processing of a PDF template (services/pdf-service.js):
    the text the PDF parser returns is cut into titled sections, and the
    template is stored under a name derived from the uploaded file name. */
module PdfService {
  import opened Text
  import opened Wrappers
  import opened Store

  // ------------------------------------------------------------ headings

  /** The keyword prefixes of the six case-insensitive heading patterns.
      The patterns have no end anchor, so the optional trailing `S` of
      SCENARIOS, CASES, RISKS and ASSUMPTIONS and the optional `A` of
      CRITERIA never change whether a line matches; every pattern has
      the same effect when it matches, so their order does not matter. */
  const Keywords: seq<string> := [
    "OVERVIEW", "INTRODUCTION", "SCOPE",
    "TEST SCENARIO", "TEST CASE",
    "ACCEPTANCE CRITERI",
    "TEST DATA", "PREREQUISITES",
    "ENVIRONMENT", "SETUP",
    "RISK", "ASSUMPTION"
  ]

  /** `s` starts with `kw` when compared case-insensitively. */
  predicate MatchesKeyword(s: string, kw: string) {
    |kw| <= |s| && forall i :: 0 <= i < |kw| ==> UpperChar(s[i]) == kw[i]
  }

  predicate StartsWithKeyword(s: string) {
    exists k :: 0 <= k < |Keywords| && MatchesKeyword(s, Keywords[k])
  }

  /** `(?:\d+\.)?\s*(KEYWORD)` matched at the start of `s`: an optional
      numbering prefix is skipped, then all whitespace, then a keyword
      must follow, compared case-insensitively. */
  predicate HeadingPatternAt(s: string) {
    var n := DigitRun(s);
    var rest := if 0 < n < |s| && s[n] == '.' then s[n + 1..] else s;
    StartsWithKeyword(TrimStart(rest))
  }

  /** Where `^` may match under the `m` flag: the start of the string or
      right after a line terminator. */
  predicate LineStart(s: string, p: int) {
    p == 0 || (0 < p <= |s| && (s[p - 1] == '\n' || s[p - 1] == '\r'))
  }

  /** Whether the pattern matches at some line start at or after `p`. */
  predicate HeadingFrom(line: string, p: nat)
    decreases |line| - p
  {
    p <= |line| && ((LineStart(line, p) && HeadingPatternAt(line[p..])) || HeadingFrom(line, p + 1))
  }

  /** `pattern.test(line)` for one of the six heading patterns. */
  predicate IsHeading(line: string) {
    HeadingFrom(line, 0)
  }

  // The heading test read off the regular expressions, as a reference.

  ghost predicate DigitsDot(d: string) {
    |d| >= 2 && d[|d| - 1] == '.' && forall i :: 0 <= i < |d| - 1 ==> IsDigit(d[i])
  }

  /** `s` splits into an optional `\d+\.`, a run of whitespace, and a
      remainder that starts with a keyword. */
  ghost predicate RegexMatchAt(s: string) {
    exists i, j :: 0 <= i <= j <= |s| && (i == 0 || DigitsDot(s[..i])) &&
      AllSpace(s[i..j]) && StartsWithKeyword(s[j..])
  }

  ghost predicate MatchesHeadingRegex(line: string) {
    exists p :: 0 <= p <= |line| && LineStart(line, p) && RegexMatchAt(line[p..])
  }

  lemma KeywordStartsWithLetter(s: string)
    requires StartsWithKeyword(s)
    ensures |s| > 0 && !IsSpace(s[0]) && !IsDigit(s[0])
  {
    var k :| 0 <= k < |Keywords| && MatchesKeyword(s, Keywords[k]);
    assert IsUpper(Keywords[k][0]);
    assert UpperChar(s[0]) == Keywords[k][0];
  }

  lemma {:induction false} TrimStartAfterSpaces(s: string, j: nat)
    requires j <= |s| && AllSpace(s[..j]) && (j == |s| || !IsSpace(s[j]))
    ensures TrimStart(s) == s[j..]
  {
    if j > 0 {
      assert IsSpace(s[..j][0]);
      assert s[1..][..j - 1] == s[..j][1..];
      TrimStartAfterSpaces(s[1..], j - 1);
    }
  }

  /** Blanks skipped by `TrimStart` after position `i`, then a keyword. */
  lemma SpacesThenKeyword(s: string, i: nat)
    requires i <= |s| && (i == 0 || DigitsDot(s[..i]))
    requires StartsWithKeyword(TrimStart(s[i..]))
    ensures RegexMatchAt(s)
  {
    var rest := s[i..];
    var t := TrimStart(rest);
    var j := i + (|rest| - |t|);
    forall k | 0 <= k < j - i
      ensures IsSpace(s[i..j][k])
    {
      assert s[i..j][k] == rest[k];
    }
    assert s[j..] == t;
    assert 0 <= i <= j <= |s| && (i == 0 || DigitsDot(s[..i])) &&
      AllSpace(s[i..j]) && StartsWithKeyword(s[j..]);
  }

  lemma DottedPrefix(s: string, n: nat)
    requires 0 < n < |s| && s[n] == '.' && forall i :: 0 <= i < n ==> IsDigit(s[i])
    ensures DigitsDot(s[..n + 1])
  {
    assert s[..n + 1][n] == '.';
    assert forall k :: 0 <= k < n ==> s[..n + 1][k] == s[k];
  }

  lemma PatternGivesRegexMatch(s: string)
    requires HeadingPatternAt(s)
    ensures RegexMatchAt(s)
  {
    var n := DigitRun(s);
    if 0 < n < |s| && s[n] == '.' {
      DottedPrefix(s, n);
      SpacesThenKeyword(s, n + 1);
    } else {
      assert s[0..] == s;
      SpacesThenKeyword(s, 0);
    }
  }

  /** Blanks up to `m`, then a keyword: `TrimStart` stops at `m`. */
  lemma TrimStartReachesKeyword(s: string, m: nat)
    requires m <= |s| && AllSpace(s[..m]) && StartsWithKeyword(s[m..])
    ensures TrimStart(s) == s[m..]
  {
    KeywordStartsWithLetter(s[m..]);
    assert s[m..][0] == s[m];
    TrimStartAfterSpaces(s, m);
  }

  lemma UndottedGivesPattern(s: string, j: nat)
    requires j <= |s| && AllSpace(s[..j]) && StartsWithKeyword(s[j..])
    ensures HeadingPatternAt(s)
  {
    KeywordStartsWithLetter(s[j..]);
    assert s[j..][0] == s[j];
    if j > 0 {
      assert IsSpace(s[..j][0]);
    }
    assert DigitRun(s) == 0;
    TrimStartReachesKeyword(s, j);
  }

  lemma DigitRunAtDot(s: string, i: nat)
    requires 0 < i <= |s| && DigitsDot(s[..i])
    ensures DigitRun(s) == i - 1 && s[i - 1] == '.'
  {
    assert s[i - 1] == s[..i][i - 1];
    assert forall k :: 0 <= k < i - 1 ==> s[k] == s[..i][k];
    DigitRunCovers(s, i - 1);
  }

  lemma DottedGivesPattern(s: string, i: nat, j: nat)
    requires 0 < i <= j <= |s| && DigitsDot(s[..i])
    requires AllSpace(s[i..j]) && StartsWithKeyword(s[j..])
    ensures HeadingPatternAt(s)
  {
    DigitRunAtDot(s, i);
    var rest := s[i..];
    assert rest[..j - i] == s[i..j];
    assert rest[j - i..] == s[j..];
    TrimStartReachesKeyword(rest, j - i);
  }

  lemma RegexMatchGivesPattern(s: string, i: nat, j: nat)
    requires i <= j <= |s| && (i == 0 || DigitsDot(s[..i]))
    requires AllSpace(s[i..j]) && StartsWithKeyword(s[j..])
    ensures HeadingPatternAt(s)
  {
    if i == 0 {
      assert s[..j] == s[i..j];
      UndottedGivesPattern(s, j);
    } else {
      DottedGivesPattern(s, i, j);
    }
  }

  lemma HeadingPatternAtIffRegex(s: string)
    ensures HeadingPatternAt(s) <==> RegexMatchAt(s)
  {
    if HeadingPatternAt(s) {
      PatternGivesRegexMatch(s);
    }
    if RegexMatchAt(s) {
      var i, j :| 0 <= i <= j <= |s| && (i == 0 || DigitsDot(s[..i])) &&
        AllSpace(s[i..j]) && StartsWithKeyword(s[j..]);
      RegexMatchGivesPattern(s, i, j);
    }
  }

  /** The regular expression matches at some line start at or after `p`. */
  ghost predicate RegexFrom(line: string, p: nat) {
    exists q :: p <= q <= |line| && LineStart(line, q) && RegexMatchAt(line[q..])
  }

  lemma {:induction false} HeadingFromIffRegex(line: string, p: nat)
    requires p <= |line|
    ensures HeadingFrom(line, p) <==> RegexFrom(line, p)
    decreases |line| - p
  {
    var here := LineStart(line, p) && HeadingPatternAt(line[p..]);
    HeadingPatternAtIffRegex(line[p..]);
    assert HeadingFrom(line, p) == (here || HeadingFrom(line, p + 1));
    if p == |line| {
      assert !HeadingFrom(line, p + 1);
      if RegexFrom(line, p) {
        var q :| p <= q <= |line| && LineStart(line, q) && RegexMatchAt(line[q..]);
        assert q == p;
      }
    } else {
      HeadingFromIffRegex(line, p + 1);
      if here {
        assert p <= p <= |line| && LineStart(line, p) && RegexMatchAt(line[p..]);
      }
      if RegexFrom(line, p + 1) {
        var q :| p + 1 <= q <= |line| && LineStart(line, q) && RegexMatchAt(line[q..]);
        assert p <= q;
      }
      if RegexFrom(line, p) {
        var q :| p <= q <= |line| && LineStart(line, q) && RegexMatchAt(line[q..]);
        if q != p {
          assert RegexFrom(line, p + 1);
        }
      }
    }
  }

  /** The heading test is exactly the regular expression: a line is a
      heading iff, at the start of the line or after a line terminator
      inside it, an optional `digits.` prefix and optional whitespace are
      followed by one of the keywords, in any letter case. */
  lemma HeadingIffRegex(line: string)
    ensures IsHeading(line) <==> MatchesHeadingRegex(line)
  {
    HeadingFromIffRegex(line, 0);
    assert RegexFrom(line, 0) == MatchesHeadingRegex(line);
  }

  /** Without a line terminator inside, only the start of the line counts. */
  lemma {:induction false} HeadingFromWithoutTerminator(line: string, p: nat)
    requires 0 < p <= |line|
    requires forall i :: 0 <= i < |line| ==> line[i] != '\n' && line[i] != '\r'
    ensures !HeadingFrom(line, p)
    decreases |line| - p
  {
    assert line[p - 1] != '\n' && line[p - 1] != '\r';
    assert !LineStart(line, p);
    if p < |line| {
      HeadingFromWithoutTerminator(line, p + 1);
      assert !HeadingFrom(line, p + 1);
    }
  }

  lemma HeadingWithoutTerminator(line: string)
    requires forall i :: 0 <= i < |line| ==> line[i] != '\n' && line[i] != '\r'
    ensures IsHeading(line) <==> HeadingPatternAt(line)
  {
    assert line[0..] == line;
    assert IsHeading(line) == (HeadingPatternAt(line) || HeadingFrom(line, 1));
    if |line| > 0 {
      HeadingFromWithoutTerminator(line, 1);
    }
  }

  // ----------------------------------------------------------- splitting

  /** How the splitter sees one line once it is trimmed. */
  datatype LineKind = Heading(text: string) | Body(text: string) | Blank

  function Kind(line: string): LineKind {
    var t := Trim(line);
    if IsHeading(t) then Heading(t) else if t != "" then Body(t) else Blank
  }

  /** The kind of every line, in order. */
  function Classify(lines: seq<string>): (kinds: seq<LineKind>)
    ensures |kinds| == |lines|
  {
    if |lines| == 0 then []
    else Classify(lines[..|lines| - 1]) + [Kind(lines[|lines| - 1])]
  }

  lemma {:induction false} ClassifyAt(lines: seq<string>, i: nat)
    requires i < |lines|
    ensures Classify(lines)[i] == Kind(lines[i])
  {
    if i < |lines| - 1 {
      ClassifyAt(lines[..|lines| - 1], i);
    }
  }

  lemma ClassifyPush(lines: seq<string>, i: nat)
    requires i < |lines|
    ensures Classify(lines[..i + 1]) == Classify(lines[..i]) + [Kind(lines[i])]
  {
    assert lines[..i + 1][..i] == lines[..i];
  }

  /** The state of the splitter's loop: the sections pushed so far, and the
      title and collected lines of the section being built. */
  datatype Acc = Acc(done: seq<Section>, title: string, content: seq<string>)

  /** How a section is emitted: its lines joined by newlines and trimmed. */
  function Emit(title: string, content: seq<string>): Section {
    Section(title, Trim(Join(content, "\n")))
  }

  function Step(a: Acc, k: LineKind): Acc {
    match k
    case Heading(t) =>
      Acc(if |a.content| > 0 then a.done + [Emit(a.title, a.content)] else a.done, t, [])
    case Body(t) => a.(content := a.content + [t])
    case Blank => a
  }

  function Scan(kinds: seq<LineKind>): Acc {
    if |kinds| == 0 then Acc([], "General", [])
    else Step(Scan(kinds[..|kinds| - 1]), kinds[|kinds| - 1])
  }

  function Close(a: Acc): seq<Section> {
    if |a.content| > 0 then a.done + [Emit(a.title, a.content)] else a.done
  }

  lemma ScanPush(kinds: seq<LineKind>, k: LineKind)
    ensures Scan(kinds + [k]) == Step(Scan(kinds), k)
  {
    assert (kinds + [k])[..|kinds|] == kinds;
  }

  /** What `extractSections(text)` returns. */
  function Extract(text: string): seq<Section> {
    Close(Scan(Classify(Split(text, '\n'))))
  }

  /** `extractSections(text)`: the text's lines are scanned once. */
  method ExtractSections(text: string) returns (sections: seq<Section>)
    ensures sections == Extract(text)
  {
    sections := SectionsOfLines(Split(text, '\n'));
  }

  /** The loop of `extractSections`: one pass over the lines, pushing the
      section being built whenever a heading starts the next one, and the
      last one at the end, each only if it collected some content. */
  method SectionsOfLines(lines: seq<string>) returns (sections: seq<Section>)
    ensures sections == Close(Scan(Classify(lines)))
  {
    sections := [];
    var title := "General";
    var content: seq<string> := [];
    for i := 0 to |lines|
      invariant Acc(sections, title, content) == Scan(Classify(lines[..i]))
    {
      ClassifyPush(lines, i);
      ScanPush(Classify(lines[..i]), Kind(lines[i]));
      var trimmed := Trim(lines[i]);
      if IsHeading(trimmed) {
        if |content| > 0 {
          sections := sections + [Section(title, Trim(Join(content, "\n")))];
        }
        title := trimmed;
        content := [];
      } else if trimmed != "" {
        content := content + [trimmed];
      }
    }
    assert lines[..|lines|] == lines;
    if |content| > 0 {
      sections := sections + [Section(title, Trim(Join(content, "\n")))];
    }
  }

  // ------------------------------------------- the per-line reference view

  /** A content line together with the title it is filed under. */
  datatype Filing = Filing(title: string, line: string)

  /** The title in force after `kinds`: the last heading among them, or
      "General" before the first one. */
  function LastTitle(kinds: seq<LineKind>): string {
    if |kinds| == 0 then "General"
    else if kinds[|kinds| - 1].Heading? then kinds[|kinds| - 1].text
    else LastTitle(kinds[..|kinds| - 1])
  }

  /** The heading lines, in order. */
  function Headings(kinds: seq<LineKind>): seq<string> {
    if |kinds| == 0 then []
    else
      var k := kinds[|kinds| - 1];
      Headings(kinds[..|kinds| - 1]) + (if k.Heading? then [k.text] else [])
  }

  /** The non-empty, non-heading trimmed lines, in order. */
  function BodyLines(kinds: seq<LineKind>): seq<string> {
    if |kinds| == 0 then []
    else
      var k := kinds[|kinds| - 1];
      BodyLines(kinds[..|kinds| - 1]) + (if k.Body? then [k.text] else [])
  }

  /** Every body line, filed under the last heading above it. */
  function Filed(kinds: seq<LineKind>): seq<Filing> {
    if |kinds| == 0 then []
    else
      var prefix := kinds[..|kinds| - 1];
      var k := kinds[|kinds| - 1];
      Filed(prefix) + (if k.Body? then [Filing(LastTitle(prefix), k.text)] else [])
  }

  function Tagged(title: string, ls: seq<string>): (r: seq<Filing>)
    ensures |r| == |ls|
    ensures forall i :: 0 <= i < |ls| ==> r[i] == Filing(title, ls[i])
  {
    seq(|ls|, i requires 0 <= i < |ls| => Filing(title, ls[i]))
  }

  /** The lines of each section, read back by splitting its content,
      filed under the section's title. */
  function FiledSections(ss: seq<Section>): seq<Filing> {
    if |ss| == 0 then []
    else
      var last := ss[|ss| - 1];
      FiledSections(ss[..|ss| - 1]) + Tagged(last.title, Split(last.content, '\n'))
  }

  function Lines(fs: seq<Filing>): (r: seq<string>)
    ensures |r| == |fs|
    ensures forall i :: 0 <= i < |fs| ==> r[i] == fs[i].line
  {
    seq(|fs|, i requires 0 <= i < |fs| => fs[i].line)
  }

  predicate IsContentLines(content: seq<string>) {
    forall k :: 0 <= k < |content| ==> content[k] != "" && IsTrimmed(content[k]) && '\n' !in content[k]
  }

  /** Body lines are non-empty, trimmed and newline-free. */
  predicate WellFormedKinds(kinds: seq<LineKind>) {
    forall k :: 0 <= k < |kinds| && kinds[k].Body? ==>
      kinds[k].text != "" && IsTrimmed(kinds[k].text) && '\n' !in kinds[k].text
  }

  lemma KindFacts(line: string)
    requires '\n' !in line
    ensures Kind(line).Body? ==>
      Kind(line).text != "" && IsTrimmed(Kind(line).text) && '\n' !in Kind(line).text
    ensures Kind(line).Heading? ==> IsHeading(Kind(line).text)
  {
    TrimKeepsOut(line, '\n');
  }

  /** Each heading text comes from some heading line. */
  lemma {:induction false} HeadingOrigin(kinds: seq<LineKind>, t: string)
    requires t in Headings(kinds)
    ensures exists i :: 0 <= i < |kinds| && kinds[i] == Heading(t)
  {
    var n := |kinds| - 1;
    if t in Headings(kinds[..n]) {
      HeadingOrigin(kinds[..n], t);
      var i :| 0 <= i < n && kinds[..n][i] == Heading(t);
      assert kinds[i] == Heading(t);
    } else {
      assert kinds[n] == Heading(t);
    }
  }

  lemma ClassifyFacts(lines: seq<string>)
    requires forall k :: 0 <= k < |lines| ==> '\n' !in lines[k]
    ensures WellFormedKinds(Classify(lines))
    ensures forall t :: t in Headings(Classify(lines)) ==> IsHeading(t)
  {
    var kinds := Classify(lines);
    forall k | 0 <= k < |kinds| && kinds[k].Body?
      ensures kinds[k].text != "" && IsTrimmed(kinds[k].text) && '\n' !in kinds[k].text
    {
      ClassifyAt(lines, k);
      KindFacts(lines[k]);
    }
    forall t | t in Headings(kinds)
      ensures IsHeading(t)
    {
      HeadingOrigin(kinds, t);
      var i :| 0 <= i < |kinds| && kinds[i] == Heading(t);
      ClassifyAt(lines, i);
      KindFacts(lines[i]);
    }
  }

  lemma ClassifySplit(text: string)
    ensures WellFormedKinds(Classify(Split(text, '\n')))
    ensures forall t :: t in Headings(Classify(Split(text, '\n'))) ==> IsHeading(t)
  {
    ClassifyFacts(Split(text, '\n'));
  }

  lemma EmitRoundTrip(title: string, content: seq<string>)
    requires |content| > 0 && IsContentLines(content)
    ensures Emit(title, content).content != ""
    ensures Split(Emit(title, content).content, '\n') == content
  {
    JoinTrimmed(content, "\n");
    SplitJoin(content, '\n');
  }

  lemma FiledSectionsPush(ss: seq<Section>, s: Section)
    ensures FiledSections(ss + [s]) == FiledSections(ss) + Tagged(s.title, Split(s.content, '\n'))
  {
    assert (ss + [s])[..|ss|] == ss;
  }

  lemma {:induction false} ScanTitle(kinds: seq<LineKind>)
    ensures Scan(kinds).title == LastTitle(kinds)
    ensures Scan(kinds).title == "General" || Scan(kinds).title in Headings(kinds)
  {
    if |kinds| > 0 {
      ScanTitle(kinds[..|kinds| - 1]);
    }
  }

  lemma {:induction false} ScanContentLines(kinds: seq<LineKind>)
    requires WellFormedKinds(kinds)
    ensures IsContentLines(Scan(kinds).content)
  {
    if |kinds| > 0 {
      ScanContentLines(kinds[..|kinds| - 1]);
    }
  }

  lemma {:induction false} ScanFiling(kinds: seq<LineKind>)
    requires WellFormedKinds(kinds)
    ensures FiledSections(Scan(kinds).done) + Tagged(Scan(kinds).title, Scan(kinds).content) == Filed(kinds)
  {
    if |kinds| > 0 {
      var prefix := kinds[..|kinds| - 1];
      ScanFiling(prefix);
      ScanTitle(prefix);
      ScanContentLines(prefix);
      var a := Scan(prefix);
      match kinds[|kinds| - 1]
      case Heading(t) =>
        if |a.content| > 0 {
          EmitRoundTrip(a.title, a.content);
          FiledSectionsPush(a.done, Emit(a.title, a.content));
        }
        assert Tagged(t, []) == [];
      case Body(t) =>
        assert Tagged(a.title, a.content + [t]) == Tagged(a.title, a.content) + [Filing(a.title, t)];
      case Blank =>
    }
  }

  /** Sections with content only, where "General" can be only the first
      title and every title is otherwise one of the heading texts `hs`. */
  ghost predicate SectionsShape(ss: seq<Section>, hs: seq<string>) {
    && (forall k :: 0 <= k < |ss| ==> ss[k].content != "")
    && (forall k :: 0 < k < |ss| ==> ss[k].title in hs)
    && (|ss| > 0 ==> ss[0].title == "General" || ss[0].title in hs)
  }

  /** The titles of the sections, in order. */
  function TitlesOf(ss: seq<Section>): seq<string> {
    if |ss| == 0 then [] else TitlesOf(ss[..|ss| - 1]) + [ss[|ss| - 1].title]
  }

  /** `xs` is `ys` with some elements left out and the rest kept in order
      (matched from the end). */
  predicate IsSubseq(xs: seq<string>, ys: seq<string>)
    decreases |ys|
  {
    if |xs| == 0 then true
    else if |ys| == 0 then false
    else if xs[|xs| - 1] == ys[|ys| - 1] then IsSubseq(xs[..|xs| - 1], ys[..|ys| - 1])
    else IsSubseq(xs, ys[..|ys| - 1])
  }

  lemma {:induction false} SubseqExtend(xs: seq<string>, ys: seq<string>, y: string)
    requires IsSubseq(xs, ys)
    ensures IsSubseq(xs, ys + [y])
    decreases |ys|, 1
  {
    var zs := ys + [y];
    assert zs[..|zs| - 1] == ys;
    if |xs| > 0 && xs[|xs| - 1] == y {
      SubseqDropLast(xs, ys);
    }
  }

  lemma {:induction false} SubseqDropLast(xs: seq<string>, ys: seq<string>)
    requires |xs| > 0 && IsSubseq(xs, ys)
    ensures IsSubseq(xs[..|xs| - 1], ys)
    decreases |ys|, 0
  {
    var ys' := ys[..|ys| - 1];
    assert ys' + [ys[|ys| - 1]] == ys;
    if xs[|xs| - 1] == ys[|ys| - 1] {
      SubseqExtend(xs[..|xs| - 1], ys', ys[|ys| - 1]);
    } else {
      SubseqDropLast(xs, ys');
      SubseqExtend(xs[..|xs| - 1], ys', ys[|ys| - 1]);
    }
  }

  lemma SubseqPush(xs: seq<string>, ys: seq<string>, t: string)
    requires IsSubseq(xs, ys)
    ensures IsSubseq(xs + [t], ys + [t])
  {
    assert (xs + [t])[..|xs|] == xs;
    assert (ys + [t])[..|ys|] == ys;
  }

  /** The titles pushed so far, then the current one, are "General"
      followed by the headings met, with some left out, in order. */
  lemma {:induction false} ScanTitleOrder(kinds: seq<LineKind>)
    ensures IsSubseq(TitlesOf(Scan(kinds).done) + [Scan(kinds).title], ["General"] + Headings(kinds))
  {
    if |kinds| == 0 {
      assert IsSubseq(["General"][..0], ([] + ["General"])[..0]);
    } else {
      var prefix := kinds[..|kinds| - 1];
      ScanTitleOrder(prefix);
      var a := Scan(prefix);
      var xs := TitlesOf(a.done);
      var ys := ["General"] + Headings(prefix);
      match kinds[|kinds| - 1]
      case Heading(t) =>
        assert ["General"] + Headings(kinds) == ys + [t];
        if |a.content| > 0 {
          var d := a.done + [Emit(a.title, a.content)];
          assert d[..|d| - 1] == a.done;
          assert TitlesOf(d) == xs + [a.title];
          SubseqPush(xs + [a.title], ys, t);
        } else {
          SubseqDropLast(xs + [a.title], ys);
          assert (xs + [a.title])[..|xs|] == xs;
          SubseqPush(xs, ys, t);
        }
      case Body(t) =>
        assert Headings(kinds) == Headings(prefix);
      case Blank =>
        assert Headings(kinds) == Headings(prefix);
    }
  }

  /** The titles of the closed sections keep that order. */
  lemma CloseTitleOrder(kinds: seq<LineKind>)
    ensures IsSubseq(TitlesOf(Close(Scan(kinds))), ["General"] + Headings(kinds))
  {
    ScanTitleOrder(kinds);
    var a := Scan(kinds);
    var xs := TitlesOf(a.done);
    if |a.content| > 0 {
      var d := a.done + [Emit(a.title, a.content)];
      assert d[..|d| - 1] == a.done;
    } else {
      SubseqDropLast(xs + [a.title], ["General"] + Headings(kinds));
      assert (xs + [a.title])[..|xs|] == xs;
    }
  }

  /** What the loop keeps true, given the heading texts `hs` met so far. */
  ghost predicate DoneShape(a: Acc, hs: seq<string>) {
    && SectionsShape(a.done, hs)
    && (|a.done| > 0 ==> a.title in hs)
    && (a.title == "General" || a.title in hs)
  }

  lemma PushSection(ss: seq<Section>, hs: seq<string>, e: Section)
    requires SectionsShape(ss, hs) && e.content != ""
    requires |ss| > 0 ==> e.title in hs
    requires e.title == "General" || e.title in hs
    ensures SectionsShape(ss + [e], hs)
  {
    var d := ss + [e];
    assert d[|ss|] == e;
  }

  lemma MoreHeadings(ss: seq<Section>, hs: seq<string>, t: string)
    requires SectionsShape(ss, hs)
    ensures SectionsShape(ss, hs + [t])
  {
    assert forall x :: x in hs ==> x in hs + [t];
  }

  lemma PushDoneShape(a: Acc, hs: seq<string>, t: string, e: Section)
    requires DoneShape(a, hs) && e.content != "" && e.title == a.title
    ensures DoneShape(Acc(a.done + [e], t, []), hs + [t])
  {
    PushSection(a.done, hs, e);
    MoreHeadings(a.done + [e], hs, t);
  }

  lemma StepDoneShape(a: Acc, hs: seq<string>, k: LineKind)
    requires DoneShape(a, hs) && IsContentLines(a.content)
    ensures DoneShape(Step(a, k), hs + (if k.Heading? then [k.text] else []))
  {
    match k
    case Heading(t) =>
      if |a.content| > 0 {
        EmitRoundTrip(a.title, a.content);
        PushDoneShape(a, hs, t, Emit(a.title, a.content));
      } else {
        MoreHeadings(a.done, hs, t);
      }
    case Body(t) =>
      assert hs + [] == hs;
    case Blank =>
      assert hs + [] == hs;
  }

  lemma {:induction false} ScanDoneShape(kinds: seq<LineKind>)
    requires WellFormedKinds(kinds)
    ensures DoneShape(Scan(kinds), Headings(kinds))
  {
    if |kinds| > 0 {
      var prefix := kinds[..|kinds| - 1];
      ScanDoneShape(prefix);
      ScanContentLines(prefix);
      StepDoneShape(Scan(prefix), Headings(prefix), kinds[|kinds| - 1]);
    }
  }

  lemma CloseShape(kinds: seq<LineKind>)
    requires WellFormedKinds(kinds)
    ensures SectionsShape(Close(Scan(kinds)), Headings(kinds))
    ensures IsSubseq(TitlesOf(Close(Scan(kinds))), ["General"] + Headings(kinds))
  {
    CloseTitleOrder(kinds);
    ScanDoneShape(kinds);
    ScanContentLines(kinds);
    var a := Scan(kinds);
    if |a.content| > 0 {
      EmitRoundTrip(a.title, a.content);
      PushSection(a.done, Headings(kinds), Emit(a.title, a.content));
    }
  }

  /** Every body line of the text lands, once and in order, in the
      section titled by the last heading above it ("General" before any
      heading), and nothing else appears in any section's content. */
  lemma ExtractFilesBodyLines(text: string)
    ensures FiledSections(Extract(text)) == Filed(Classify(Split(text, '\n')))
  {
    var kinds := Classify(Split(text, '\n'));
    ClassifySplit(text);
    ScanFiling(kinds);
    ScanContentLines(kinds);
    var a := Scan(kinds);
    if |a.content| > 0 {
      EmitRoundTrip(a.title, a.content);
      FiledSectionsPush(a.done, Emit(a.title, a.content));
    } else {
      assert Tagged(a.title, a.content) == [];
    }
  }

  lemma {:induction false} FiledLines(kinds: seq<LineKind>)
    ensures Lines(Filed(kinds)) == BodyLines(kinds)
  {
    if |kinds| > 0 {
      FiledLines(kinds[..|kinds| - 1]);
    }
  }

  /** Reading the sections' contents back line by line gives exactly the
      non-empty, non-heading trimmed lines of the text, each once, in
      their original order. */
  lemma ExtractKeepsBodyLines(text: string)
    ensures Lines(FiledSections(Extract(text))) == BodyLines(Classify(Split(text, '\n')))
  {
    ExtractFilesBodyLines(text);
    FiledLines(Classify(Split(text, '\n')));
  }

  /** Sections with no content are never returned; "General" can only be
      the first title, and every other title is a heading line. */
  lemma ExtractSectionShape(text: string)
    ensures forall k :: 0 <= k < |Extract(text)| ==> Extract(text)[k].content != ""
    ensures forall k :: 0 < k < |Extract(text)| ==> IsHeading(Extract(text)[k].title)
    ensures forall k :: 0 < k < |Extract(text)| ==> Extract(text)[k].title != "General"
    ensures |Extract(text)| > 0 ==>
      Extract(text)[0].title == "General" || IsHeading(Extract(text)[0].title)
    ensures IsSubseq(TitlesOf(Extract(text)), ["General"] + Headings(Classify(Split(text, '\n'))))
  {
    ClassifySplit(text);
    CloseShape(Classify(Split(text, '\n')));
    GeneralIsNotHeading();
  }

  lemma GeneralIsNotHeadingPattern()
    ensures !HeadingPatternAt("General")
  {
    var g := "General";
    assert DigitRun(g) == 0;
    assert TrimStart(g) == g;
    forall k | 0 <= k < |Keywords| ensures !MatchesKeyword(g, Keywords[k]) {
      assert Keywords[k][0] != 'G';
    }
  }

  /** "General", the title given to text before the first heading, is
      itself no heading, so it cannot be confused with one. */
  lemma GeneralIsNotHeading()
    ensures !IsHeading("General")
  {
    var g := "General";
    assert forall i :: 0 <= i < |g| ==> g[i] != '\n' && g[i] != '\r';
    HeadingWithoutTerminator(g);
    GeneralIsNotHeadingPattern();
  }

  lemma {:induction false} NoHeadingScan(kinds: seq<LineKind>)
    requires forall k :: 0 <= k < |kinds| ==> !kinds[k].Heading?
    ensures Scan(kinds) == Acc([], "General", BodyLines(kinds))
  {
    if |kinds| > 0 {
      NoHeadingScan(kinds[..|kinds| - 1]);
    }
  }

  /** Text without any heading line gives one "General" section holding
      all non-empty trimmed lines joined by newlines, or nothing when
      there are none. */
  lemma NoHeadingGivesGeneral(text: string)
    requires forall k :: 0 <= k < |Split(text, '\n')| ==> !IsHeading(Trim(Split(text, '\n')[k]))
    ensures var body := BodyLines(Classify(Split(text, '\n')));
      Extract(text) == if body == [] then [] else [Section("General", Join(body, "\n"))]
  {
    var lines := Split(text, '\n');
    var kinds := Classify(lines);
    ClassifySplit(text);
    forall k | 0 <= k < |kinds| ensures !kinds[k].Heading? {
      ClassifyAt(lines, k);
    }
    NoHeadingClose(kinds);
  }

  /** The same, stated on the classified lines. */
  lemma NoHeadingClose(kinds: seq<LineKind>)
    requires WellFormedKinds(kinds)
    requires forall k :: 0 <= k < |kinds| ==> !kinds[k].Heading?
    ensures var body := BodyLines(kinds);
      Close(Scan(kinds)) == if body == [] then [] else [Section("General", Join(body, "\n"))]
  {
    NoHeadingScan(kinds);
    ScanContentLines(kinds);
    var body := BodyLines(kinds);
    if body != [] {
      JoinTrimmed(body, "\n");
    }
  }

  lemma {:induction false} SplitOfBlank(s: string, sep: char)
    requires AllSpace(s)
    ensures forall k :: 0 <= k < |Split(s, sep)| ==> AllSpace(Split(s, sep)[k])
  {
    if |s| > 0 {
      SplitOfBlank(s[1..], sep);
    }
  }

  lemma {:induction false} BlankKinds(kinds: seq<LineKind>)
    requires forall k :: 0 <= k < |kinds| ==> kinds[k] == Blank
    ensures Scan(kinds) == Acc([], "General", [])
  {
    if |kinds| > 0 {
      BlankKinds(kinds[..|kinds| - 1]);
    }
  }

  /** Empty or whitespace-only text has no sections. */
  lemma BlankTextHasNoSections(text: string)
    requires AllSpace(text)
    ensures Extract(text) == []
  {
    var lines := Split(text, '\n');
    SplitOfBlank(text, '\n');
    var kinds := Classify(lines);
    forall k | 0 <= k < |kinds| ensures kinds[k] == Blank {
      ClassifyAt(lines, k);
      BlankLineIsBlank(lines[k]);
    }
    BlankKinds(kinds);
  }

  lemma BlankLineIsBlank(line: string)
    requires AllSpace(line)
    ensures Kind(line) == Blank
  {
    EmptyIsNotHeading();
    assert Trim(line) == "";
  }

  lemma EmptyIsNotHeading()
    ensures !IsHeading("")
  {
    if HeadingPatternAt("") {
      KeywordStartsWithLetter(TrimStart(""));
    }
  }

  // -------------------------------------------------------- saveTemplate

  /** `originalName.replace('.pdf', '')`: the first ".pdf" is removed,
      wherever it occurs. */
  function TemplateName(originalName: string): string {
    ReplaceFirst(originalName, ".pdf", "")
  }

  /** `replace` with no match: a name is kept as it is exactly when it holds
      no ".pdf" at all; otherwise it loses four characters. */
  lemma TemplateNameUnchangedIff(name: string)
    ensures TemplateName(name) == name <==> !Contains(name, ".pdf")
    ensures Contains(name, ".pdf") ==> |TemplateName(name)| == |name| - 4
  {
  }

  /** A name that is a base without ".pdf" followed by the extension loses
      exactly the extension. */
  lemma TemplateNameStripsExtension(base: string)
    requires !Contains(base, ".pdf")
    ensures TemplateName(base + ".pdf") == base
  {
    var s := base + ".pdf";
    assert s[|base|..] == ".pdf";
    forall i | 0 <= i < |base| ensures !OccursAt(s, ".pdf", i) {
      if i + 4 <= |base| {
        assert s[i..i + 4] == base[i..i + 4];
        assert !OccursAt(base, ".pdf", i);
      } else {
        assert s[|base|] == '.';
        assert ".pdf"[|base| - i] != '.';
        assert s[i..i + 4][|base| - i] == s[|base|];
      }
    }
    IndexOfLeftmost(s, ".pdf", |base|);
    assert s[..|base|] == base;
  }

  /** When no ".pdf" starts before the first one, exactly that ".pdf" is
      removed and everything around it stays, later ".pdf"s included.
      `a + ".pd"` holds every character an earlier occurrence could use. */
  lemma TemplateNameCutsFirst(a: string, b: string)
    requires !Contains(a + ".pd", ".pdf")
    ensures TemplateName(a + ".pdf" + b) == a + b
  {
    var s := a + ".pdf" + b;
    assert s[|a|..|a| + 4] == ".pdf";
    forall i | 0 <= i < |a| ensures !OccursAt(s, ".pdf", i) {
      assert !OccursAt(a + ".pd", ".pdf", i);
      assert s[i..i + 4] == (a + ".pd")[i..i + 4];
    }
    IndexOfLeftmost(s, ".pdf", |a|);
    assert s[..|a|] == a && s[|a| + 4..] == b;
  }

  /** A name part without a dot cannot hold an earlier ".pdf". */
  lemma NoDotNoEarlierPdf(a: string)
    requires '.' !in a
    ensures !Contains(a + ".pd", ".pdf")
  {
    var s := a + ".pd";
    forall i | 0 <= i ensures !OccursAt(s, ".pdf", i) {
      if i + 4 <= |s| {
        assert s[i..i + 4][0] == s[i] == a[i];
      }
    }
  }

  /** "v1.2.pd" holds no ".pdf": its dots are followed by "2" and "pd". */
  lemma VersionedNameHasNoEarlierPdf()
    ensures !Contains("v1.2" + ".pd", ".pdf")
  {
    var s := "v1.2" + ".pd";
    forall i | 0 <= i ensures !OccursAt(s, ".pdf", i) {
      if i + 4 <= |s| {
        assert s[i..i + 4][0] == s[i];
        assert s[i..i + 4][1] == s[i + 1];
      }
    }
  }

  /** The first ".pdf" goes even in the middle of the name, dots before it
      stay, and a later ".pdf" stays. */
  lemma TemplateNameRemovesFirstOccurrence()
    ensures TemplateName("plan" + ".pdf" + ".pdf") == "plan" + ".pdf"
    ensures TemplateName("q3" + ".pdf" + "s.pdf") == "q3" + "s.pdf"
    ensures TemplateName("v1.2" + ".pdf" + ".bak") == "v1.2" + ".bak"
  {
    NoDotNoEarlierPdf("plan");
    TemplateNameCutsFirst("plan", ".pdf");
    NoDotNoEarlierPdf("q3");
    TemplateNameCutsFirst("q3", "s.pdf");
    VersionedNameHasNoEarlierPdf();
    TemplateNameCutsFirst("v1.2", ".bak");
  }

  /** `saveTemplate`: split the parsed text into sections and store the
      template under its derived name. The PDF parser's output `text` and
      the fresh id are inputs. */
  method SaveTemplate(db: Database, text: string, originalName: string, id: string)
    returns (t: Template)
    modifies db
    ensures t == Template(id, TemplateName(originalName), originalName, text, "", Extract(text))
    ensures db.templates == old(db.templates)[id := t]
    ensures db.settings == old(db.settings) && db.testPlans == old(db.testPlans)
  {
    var sections := ExtractSections(text);
    t := Template(id, TemplateName(originalName), originalName, text, "", sections);
    db.InsertTemplate(t);
  }
}
