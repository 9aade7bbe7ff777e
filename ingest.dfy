/** The pure parts of `src/ingest.py`: the line scanner that pulls the primary
    document out of an SEC full-submission bundle, the section detector, the
    metadata derived from a filing's path, the filtering and naming of the
    splitter's chunks, and the guard in front of embedding and storing. File
    I/O, the splitter, the embedder and the store are inputs or oracles. */
module Ingest {
  import opened Wrappers
  import opened Values
  import opened PyStr
  import opened PyFormat
  import opened Config
  import opened VectorStore

  // ---------------------------------------------------------------------------
  // extract_primary_document: the line scanner

  /** The scanner's flags and the lines collected so far; `stopped` is true
      once the loop has hit its `break`. */
  datatype ScanState = ScanState(inPrimary: bool, inTextBlock: bool, foundSequence1: bool,
                                 lines: seq<string>, stopped: bool)

  const Start: ScanState := ScanState(false, false, false, [], false)

  /** One iteration of the loop over the bundle's lines. `line` keeps its line
      ending; the tests compare the stripped line. */
  function Step(st: ScanState, line: string): (next: ScanState)
    ensures st.stopped ==> next == st
    ensures next.lines == st.lines || next.lines == st.lines + [line]
  {
    var s := Strip(line);
    if st.stopped then st
    else if s == "<DOCUMENT>" then st.(inPrimary := true, foundSequence1 := false)
    else if !st.inPrimary then st
    else
      var found := st.foundSequence1 || s == "<SEQUENCE>1";
      if s == "<TEXT>" && found then st.(foundSequence1 := found, inTextBlock := true)
      else if st.inTextBlock && (s == "</TEXT>" || s == "</DOCUMENT>") then st.(foundSequence1 := found, stopped := true)
      else if s == "</DOCUMENT>" && !found then st.(foundSequence1 := found, inPrimary := false)
      else if st.inTextBlock then st.(foundSequence1 := found, lines := st.lines + [line])
      else st.(foundSequence1 := found)
  }

  /** The state after scanning `ls` from `st`. */
  function Run(st: ScanState, ls: seq<string>): (final: ScanState)
    ensures st.stopped ==> final == st
    ensures |st.lines| <= |final.lines| && final.lines[..|st.lines|] == st.lines
    decreases |ls|
  {
    if ls == [] then st else Step(Run(st, ls[..|ls| - 1]), ls[|ls| - 1])
  }

  /** What the scan yields: the collected lines, or `None` when there are none
      (the error path). */
  function Extracted(submission: seq<string>): Option<seq<string>> {
    var lines := Run(Start, submission).lines;
    if lines == [] then None else Some(lines)
  }

  /** `extract_primary_document`, without the cache check and the file
      write: scans the bundle's lines, updating the three flags. */
  method ExtractPrimaryDocument(submission: seq<string>) returns (document: Option<seq<string>>)
    ensures document == Extracted(submission)
    ensures document.Some? ==> document.value != []
  {
    var inPrimary, inTextBlock, foundSequence1 := false, false, false;
    var lines: seq<string> := [];
    var i := 0;
    while i < |submission|
      invariant 0 <= i <= |submission|
      invariant Run(Start, submission[..i]) == ScanState(inPrimary, inTextBlock, foundSequence1, lines, false)
    {
      var line := submission[i];
      var s := Strip(line);
      ghost var next := Step(ScanState(inPrimary, inTextBlock, foundSequence1, lines, false), line);
      assert submission[..i + 1][..i] == submission[..i];
      if s == "<DOCUMENT>" {
        inPrimary := true;
        foundSequence1 := false;
      } else if inPrimary {
        if s == "<SEQUENCE>1" {
          foundSequence1 := true;
        }
        if s == "<TEXT>" && foundSequence1 {
          inTextBlock := true;
        } else if inTextBlock && (s == "</TEXT>" || s == "</DOCUMENT>") {
          assert next.stopped && next.lines == lines;
          RunStaysStopped(Run(Start, submission[..i + 1]), submission[i + 1..]);
          RunConcat(Start, submission[..i + 1], submission[i + 1..]);
          assert submission[..i + 1] + submission[i + 1..] == submission;
          break;
        } else if s == "</DOCUMENT>" && !foundSequence1 {
          inPrimary := false;
        } else if inTextBlock {
          lines := lines + [line];
        }
      }
      assert next == ScanState(inPrimary, inTextBlock, foundSequence1, lines, false);
      i := i + 1;
    }
    if i == |submission| {
      assert submission[..i] == submission;
    }
    document := if lines == [] then None else Some(lines);
  }

  /** Scanning a concatenation is scanning the parts one after the other. */
  lemma {:induction false} RunConcat(st: ScanState, a: seq<string>, b: seq<string>)
    ensures Run(st, a + b) == Run(Run(st, a), b)
    decreases |b|
  {
    if b == [] {
      assert a + b == a;
    } else {
      RunConcat(st, a, b[..|b| - 1]);
      assert (a + b)[..|a + b| - 1] == a + b[..|b| - 1];
    }
  }

  /** After the `break` nothing changes. */
  lemma {:induction false} RunStaysStopped(st: ScanState, ls: seq<string>)
    requires st.stopped
    ensures Run(st, ls) == st
    decreases |ls|
  {
    if ls != [] {
      RunStaysStopped(st, ls[..|ls| - 1]);
    }
  }

  /** Outside any document, between the scan's start and the first primary
      text block: no flag is set that could make a line be collected. */
  predicate Idle(st: ScanState) {
    !st.inPrimary && !st.inTextBlock && !st.stopped && st.lines == []
  }

  predicate NoLineIs(ls: seq<string>, tag: string) {
    forall k :: 0 <= k < |ls| ==> Strip(ls[k]) != tag
  }

  /** Lines outside a `<DOCUMENT>` are never collected and change nothing. */
  lemma {:induction false} OutsideLinesIgnored(st: ScanState, ls: seq<string>)
    requires Idle(st) && NoLineIs(ls, "<DOCUMENT>")
    ensures Run(st, ls) == st
    decreases |ls|
  {
    if ls != [] {
      OutsideLinesIgnored(st, ls[..|ls| - 1]);
    }
  }

  /** A whole document without a `<SEQUENCE>1` line (for example one with
      `<SEQUENCE>10`) is skipped: `</DOCUMENT>` takes the scanner out of it,
      and nothing is collected. */
  lemma SecondaryDocumentSkipped(st: ScanState, open: string, body: seq<string>, close: string)
    requires Idle(st)
    requires Strip(open) == "<DOCUMENT>" && Strip(close) == "</DOCUMENT>"
    requires NoLineIs(body, "<DOCUMENT>") && NoLineIs(body, "</DOCUMENT>") && NoLineIs(body, "<SEQUENCE>1")
    ensures Run(st, [open] + body + [close]) == st.(foundSequence1 := false)
  {
    var inside := st.(inPrimary := true, foundSequence1 := false);
    assert Run(st, [open]) == inside by {
      assert [open][..0] == [];
    }
    InsideSecondaryDocument(inside, body);
    RunConcat(st, [open], body);
    var ls := [open] + body + [close];
    assert ls[..|ls| - 1] == [open] + body;
  }

  lemma {:induction false} InsideSecondaryDocument(st: ScanState, body: seq<string>)
    requires st.inPrimary && !st.inTextBlock && !st.foundSequence1 && !st.stopped
    requires NoLineIs(body, "<DOCUMENT>") && NoLineIs(body, "</DOCUMENT>") && NoLineIs(body, "<SEQUENCE>1")
    ensures Run(st, body) == st
    decreases |body|
  {
    if body != [] {
      InsideSecondaryDocument(st, body[..|body| - 1]);
    }
  }

  /** The primary document: after `<DOCUMENT>`, a header holding a
      `<SEQUENCE>1` line, the `<TEXT>` line, then the body up to the first
      `</TEXT>` or `</DOCUMENT>`. The scan collects exactly the body's lines,
      unstripped, without the delimiters, and ignores everything after. */
  lemma PrimaryDocumentCollected(st: ScanState, open: string, header: seq<string>, text: string,
                                 body: seq<string>, close: string, rest: seq<string>)
    requires Idle(st)
    requires Strip(open) == "<DOCUMENT>" && Strip(text) == "<TEXT>"
    requires Strip(close) == "</TEXT>" || Strip(close) == "</DOCUMENT>"
    requires NoLineIs(header, "<DOCUMENT>") && NoLineIs(header, "</DOCUMENT>") && NoLineIs(header, "<TEXT>")
    requires exists k :: 0 <= k < |header| && Strip(header[k]) == "<SEQUENCE>1"
    requires NoLineIs(body, "<DOCUMENT>") && NoLineIs(body, "<TEXT>")
             && NoLineIs(body, "</TEXT>") && NoLineIs(body, "</DOCUMENT>")
    ensures Run(st, [open] + header + [text] + body + [close] + rest).lines == body
  {
    var a := [open] + header + [text];
    var b := a + body + [close];
    PrimaryTextReached(st, open, header, text);
    TextBlockClosed(Run(st, a), body, close);
    RunConcat(st, a, body + [close]);
    assert a + (body + [close]) == b;
    var stoppedState := Run(st, b);
    RunStaysStopped(stoppedState, rest);
    RunConcat(st, b, rest);
  }

  /** `<DOCUMENT>`, a header with `<SEQUENCE>1`, then `<TEXT>`: the scanner
      is in the primary document's text block with nothing collected. */
  lemma PrimaryTextReached(st: ScanState, open: string, header: seq<string>, text: string)
    requires Idle(st)
    requires Strip(open) == "<DOCUMENT>" && Strip(text) == "<TEXT>"
    requires NoLineIs(header, "<DOCUMENT>") && NoLineIs(header, "</DOCUMENT>") && NoLineIs(header, "<TEXT>")
    requires exists k :: 0 <= k < |header| && Strip(header[k]) == "<SEQUENCE>1"
    ensures var r := Run(st, [open] + header + [text]);
            r.inPrimary && r.inTextBlock && r.foundSequence1 && !r.stopped && r.lines == []
  {
    var afterOpen := st.(inPrimary := true, foundSequence1 := false);
    assert Run(st, [open]) == afterOpen by {
      assert [open][..0] == [];
    }
    HeaderFindsSequence1(afterOpen, header);
    RunConcat(st, [open], header);
    var a := [open] + header + [text];
    assert a[..|a| - 1] == [open] + header;
  }

  /** Inside the text block, the body and then `</TEXT>` or `</DOCUMENT>`:
      exactly the body is collected and the scan stops. */
  lemma TextBlockClosed(st: ScanState, body: seq<string>, close: string)
    requires st.inPrimary && st.inTextBlock && st.foundSequence1 && !st.stopped && st.lines == []
    requires Strip(close) == "</TEXT>" || Strip(close) == "</DOCUMENT>"
    requires NoLineIs(body, "<DOCUMENT>") && NoLineIs(body, "<TEXT>")
             && NoLineIs(body, "</TEXT>") && NoLineIs(body, "</DOCUMENT>")
    ensures Run(st, body + [close]).stopped && Run(st, body + [close]).lines == body
  {
    BodyCollected(st, body);
    var b := body + [close];
    assert b[..|b| - 1] == body;
  }

  lemma {:induction false} HeaderFindsSequence1(st: ScanState, header: seq<string>)
    requires st.inPrimary && !st.inTextBlock && !st.stopped && st.lines == []
    requires NoLineIs(header, "<DOCUMENT>") && NoLineIs(header, "</DOCUMENT>") && NoLineIs(header, "<TEXT>")
    ensures var r := Run(st, header);
            && r.inPrimary && !r.inTextBlock && !r.stopped && r.lines == []
            && (r.foundSequence1 <==> st.foundSequence1 || exists k :: 0 <= k < |header| && Strip(header[k]) == "<SEQUENCE>1")
    decreases |header|
  {
    if header != [] {
      var init := header[..|header| - 1];
      HeaderFindsSequence1(st, init);
      assert forall k :: 0 <= k < |init| ==> init[k] == header[k];
    }
  }

  lemma {:induction false} BodyCollected(st: ScanState, body: seq<string>)
    requires st.inPrimary && st.inTextBlock && st.foundSequence1 && !st.stopped
    requires NoLineIs(body, "<DOCUMENT>") && NoLineIs(body, "<TEXT>")
             && NoLineIs(body, "</TEXT>") && NoLineIs(body, "</DOCUMENT>")
    ensures Run(st, body) == st.(lines := st.lines + body)
    decreases |body|
  {
    if body != [] {
      var init := body[..|body| - 1];
      BodyCollected(st, init);
      assert st.lines + init + [body[|body| - 1]] == st.lines + body;
    }
  }

  /** Without a `<DOCUMENT>` line, or without a `<SEQUENCE>1` line, nothing is
      collected and the result is the error path. */
  lemma {:induction false} NothingWithoutPrimary(ls: seq<string>)
    requires NoLineIs(ls, "<DOCUMENT>") || NoLineIs(ls, "<SEQUENCE>1")
    ensures !Run(Start, ls).inTextBlock && Run(Start, ls).lines == []
    ensures NoLineIs(ls, "<DOCUMENT>") ==> !Run(Start, ls).inPrimary
    ensures NoLineIs(ls, "<SEQUENCE>1") ==> !Run(Start, ls).foundSequence1
    ensures Extracted(ls).None?
    decreases |ls|
  {
    if ls != [] {
      var init := ls[..|ls| - 1];
      assert forall k :: 0 <= k < |init| ==> init[k] == ls[k];
      NothingWithoutPrimary(init);
    }
  }

  /** The delimiters met inside the primary text block. `<DOCUMENT>`
      resets `found_sequence_1` but neither leaves the block nor is
      collected. `<SEQUENCE>1` is collected and sets the flag. `<TEXT>` is
      skipped while the flag is set and collected once a nested
      `<DOCUMENT>` has cleared it. */
  lemma TextBlockDelimiters(st: ScanState, line: string)
    requires st.inPrimary && st.inTextBlock && !st.stopped
    ensures Strip(line) == "<DOCUMENT>" ==> Step(st, line) == st.(foundSequence1 := false)
    ensures Strip(line) == "<SEQUENCE>1" ==>
              Step(st, line) == st.(foundSequence1 := true, lines := st.lines + [line])
    ensures Strip(line) == "<TEXT>" && st.foundSequence1 ==> Step(st, line) == st
    ensures Strip(line) == "<TEXT>" && !st.foundSequence1 ==> Step(st, line) == st.(lines := st.lines + [line])
  {
  }

  /** Every collected line is a line of the bundle that is none of the
      delimiters `<DOCUMENT>`, `</DOCUMENT>`, `</TEXT>`. */
  lemma {:induction false} CollectedLinesAreContent(ls: seq<string>)
    ensures forall k :: 0 <= k < |Run(Start, ls).lines| ==>
              Run(Start, ls).lines[k] in ls
              && Strip(Run(Start, ls).lines[k]) !in {"<DOCUMENT>", "</DOCUMENT>", "</TEXT>"}
    decreases |ls|
  {
    if ls != [] {
      var init := ls[..|ls| - 1];
      CollectedLinesAreContent(init);
      assert forall x :: x in init ==> x in ls;
    }
  }

  // ---------------------------------------------------------------------------
  // detect_section

  /** The characters of the regex class `[\s\.\:]` that `_` becomes. */
  predicate IsSeparator(c: char) {
    IsSpace(c) || c == '.' || c == ':'
  }

  /** A character of the regex class `\w` (ASCII only). */
  predicate IsWordChar(c: char) {
    ('a' <= c <= 'z') || ('A' <= c <= 'Z') || ('0' <= c <= '9') || c == '_'
  }

  predicate StartsWithAt(s: string, j: nat, t: string) {
    j + |t| <= |s| && s[j..j + |t|] == t
  }

  /** The end of the run of separators starting at `j`. */
  function SkipSeparators(s: string, j: nat): (e: nat)
    requires j <= |s|
    ensures j <= e <= |s|
    ensures forall k :: j <= k < e ==> IsSeparator(s[k])
    ensures e == |s| || !IsSeparator(s[e])
    decreases |s| - j
  {
    if j < |s| && IsSeparator(s[j]) then SkipSeparators(s, j + 1) else j
  }

  /** The part of a table key after `item_`. */
  function Suffix(key: string): string {
    if |key| >= 5 then key[5..] else key
  }

  /** `item[\s\.\:]*<suffix>` matches at `i`; with `bounded`, the match must
      also end at a word boundary (the corrected pattern, `...<suffix>\b`).
      Taking the whole separator run is exact because no suffix starts with
      a separator. */
  predicate MatchesAt(s: string, i: nat, suffix: string, bounded: bool) {
    && StartsWithAt(s, i, "item")
    && var j := SkipSeparators(s, i + 4);
       && StartsWithAt(s, j, suffix)
       && (bounded ==> j + |suffix| == |s| || !IsWordChar(s[j + |suffix|]))
  }

  /** `re.search`: a match at some position from `i` on. */
  predicate MatchesFrom(s: string, i: nat, suffix: string, bounded: bool)
    decreases |s| - i
  {
    i <= |s| && (MatchesAt(s, i, suffix, bounded) || MatchesFrom(s, i + 1, suffix, bounded))
  }

  predicate Matches(s: string, suffix: string, bounded: bool) {
    MatchesFrom(s, 0, suffix, bounded)
  }

  /** The regular language itself: `item`, any number of separators, the
      suffix, anywhere in the string. */
  ghost predicate PatternOccurs(s: string, suffix: string) {
    exists i: nat, j: nat :: i + 4 <= j <= |s| && StartsWithAt(s, i, "item")
                            && (forall k :: i + 4 <= k < j ==> IsSeparator(s[k])) && StartsWithAt(s, j, suffix)
  }

  /** The greedy matcher finds a match exactly when the pattern occurs. */
  lemma MatchesIffPatternOccurs(s: string, suffix: string)
    requires suffix != [] && !IsSeparator(suffix[0])
    ensures Matches(s, suffix, false) <==> PatternOccurs(s, suffix)
  {
    if Matches(s, suffix, false) {
      MatchGivesPattern(s, suffix);
    }
    if PatternOccurs(s, suffix) {
      PatternGivesMatch(s, suffix);
    }
  }

  lemma MatchGivesPattern(s: string, suffix: string)
    requires Matches(s, suffix, false)
    ensures PatternOccurs(s, suffix)
  {
    var i := MatchPosition(s, 0, suffix, false);
    var j := SkipSeparators(s, i + 4);
    assert i + 4 <= j <= |s| && StartsWithAt(s, i, "item")
           && (forall k :: i + 4 <= k < j ==> IsSeparator(s[k])) && StartsWithAt(s, j, suffix);
  }

  /** A separator run followed by the suffix is exactly the greedy one,
      because the suffix does not start with a separator. */
  lemma PatternGivesMatch(s: string, suffix: string)
    requires suffix != [] && !IsSeparator(suffix[0])
    requires PatternOccurs(s, suffix)
    ensures Matches(s, suffix, false)
  {
    var i: nat, j: nat :| i + 4 <= j <= |s| && StartsWithAt(s, i, "item")
                         && (forall k :: i + 4 <= k < j ==> IsSeparator(s[k])) && StartsWithAt(s, j, suffix);
    assert s[j] == suffix[0];
    assert SkipSeparators(s, i + 4) == j by {
      SkipSeparatorsRun(s, i + 4, j);
    }
    assert MatchesAt(s, i, suffix, false);
    MatchesFromAny(s, 0, i, suffix, false);
  }

  /** A run of separators from `from` up to a non-separator at `j` is what
      `SkipSeparators` skips. */
  lemma {:induction false} SkipSeparatorsRun(s: string, from: nat, j: nat)
    requires from <= j < |s| && !IsSeparator(s[j])
    requires forall k :: from <= k < j ==> IsSeparator(s[k])
    ensures SkipSeparators(s, from) == j
    decreases j - from
  {
    if from < j {
      SkipSeparatorsRun(s, from + 1, j);
    }
  }

  /** A successful search has a match position. */
  lemma {:induction false} MatchPosition(s: string, from: nat, suffix: string, bounded: bool) returns (i: nat)
    requires MatchesFrom(s, from, suffix, bounded)
    ensures from <= i <= |s| && MatchesAt(s, i, suffix, bounded)
    decreases |s| - from
  {
    if MatchesAt(s, from, suffix, bounded) {
      i := from;
    } else {
      i := MatchPosition(s, from + 1, suffix, bounded);
    }
  }

  /** A match at any position from `from` on makes the search succeed. */
  lemma {:induction false} MatchesFromAny(s: string, from: nat, i: nat, suffix: string, bounded: bool)
    requires from <= i <= |s| && MatchesAt(s, i, suffix, bounded)
    ensures MatchesFrom(s, from, suffix, bounded)
    decreases i - from
  {
    if from < i {
      MatchesFromAny(s, from + 1, i, suffix, bounded);
    }
  }

  /** Without the boundary, a pattern whose suffix extends another's can only
      match where the shorter one matches too. */
  lemma ShorterSuffixMatches(s: string, short: string, long: string)
    requires |short| <= |long| && long[..|short|] == short
    requires Matches(s, long, false)
    ensures Matches(s, short, false)
  {
    var i := MatchPosition(s, 0, long, false);
    var j := SkipSeparators(s, i + 4);
    assert s[j..j + |short|] == s[j..j + |long|][..|short|];
    MatchesFromAny(s, 0, i, short, false);
  }

  /** The label for the first table entry, from `k` on, whose pattern matches. */
  function SectionFrom(s: string, k: nat, bounded: bool): string
    requires k <= |SecSections|
    decreases |SecSections| - k
  {
    if k == |SecSections| then GeneralLabel
    else if Matches(s, Suffix(SecSections[k].key), bounded) then SecSections[k].title
    else SectionFrom(s, k + 1, bounded)
  }

  /** `detect_section(snippet)`, as written. */
  function SectionOf(snippet: string): string {
    SectionFrom(Lower(snippet), 0, false)
  }

  /** `detect_section` with the corrected, word-bounded patterns. */
  function SectionOfBounded(snippet: string): string {
    SectionFrom(Lower(snippet), 0, true)
  }

  /** What `SectionFrom` returns: the label of the first matching entry from
      `k` on, or the fallback when none matches. */
  lemma SectionFromFirstMatch(s: string, k: nat, bounded: bool)
    requires k <= |SecSections|
    ensures (SectionFrom(s, k, bounded) == GeneralLabel
             && forall j :: k <= j < |SecSections| ==> !Matches(s, Suffix(SecSections[j].key), bounded))
            || exists j :: k <= j < |SecSections| && Matches(s, Suffix(SecSections[j].key), bounded)
                           && (forall i :: k <= i < j ==> !Matches(s, Suffix(SecSections[i].key), bounded))
                           && SectionFrom(s, k, bounded) == SecSections[j].title
  {
    var j := FirstMatchIndex(s, k, bounded);
    if j < |SecSections| {
      SectionFromSkips(s, k, j, bounded);
    } else {
      SectionFromNone(s, k, bounded);
    }
  }

  /** The index of the first entry from `k` on whose pattern matches, or
      the table's length when none does. */
  function FirstMatchIndex(s: string, k: nat, bounded: bool): (j: nat)
    requires k <= |SecSections|
    ensures k <= j <= |SecSections|
    ensures j < |SecSections| ==> Matches(s, Suffix(SecSections[j].key), bounded)
    ensures forall i :: k <= i < j ==> !Matches(s, Suffix(SecSections[i].key), bounded)
    decreases |SecSections| - k
  {
    if k == |SecSections| || Matches(s, Suffix(SecSections[k].key), bounded) then k
    else FirstMatchIndex(s, k + 1, bounded)
  }

  /** When no entry from `k` on matches, the fallback label is returned. */
  lemma {:induction false} SectionFromNone(s: string, k: nat, bounded: bool)
    requires k <= |SecSections|
    requires forall j :: k <= j < |SecSections| ==> !Matches(s, Suffix(SecSections[j].key), bounded)
    ensures SectionFrom(s, k, bounded) == GeneralLabel
    decreases |SecSections| - k
  {
    if k < |SecSections| {
      SectionFromNone(s, k + 1, bounded);
    }
  }

  /** `detect_section`: tries the table in order and returns at the first
      match. */
  method DetectSection(snippet: string) returns (title: string)
    ensures title == SectionOf(snippet)
    ensures (title == GeneralLabel
             && forall k :: 0 <= k < |SecSections| ==> !Matches(Lower(snippet), Suffix(SecSections[k].key), false))
            || exists k :: 0 <= k < |SecSections| && Matches(Lower(snippet), Suffix(SecSections[k].key), false)
                           && (forall j :: 0 <= j < k ==> !Matches(Lower(snippet), Suffix(SecSections[j].key), false))
                           && title == SecSections[k].title
  {
    var s := Lower(snippet);
    SectionFromFirstMatch(s, 0, false);
    for k := 0 to |SecSections|
      invariant forall j :: 0 <= j < k ==> !Matches(s, Suffix(SecSections[j].key), false)
      invariant SectionFrom(s, k, false) == SectionOf(snippet)
    {
      if Matches(s, Suffix(SecSections[k].key), false) {
        return SecSections[k].title;
      }
    }
    return GeneralLabel;
  }

  /** As written, `item_1` is tried before `item_1a` and `item_1b`, and
      `item_7` before `item_7a`; the shorter pattern matches wherever the
      longer one does, so three labels can never be returned. */
  lemma ShadowedSections(snippet: string)
    ensures SectionOf(snippet) != "Risk Factors"
    ensures SectionOf(snippet) != "Unresolved Staff Comments"
    ensures SectionOf(snippet) != "Quantitative Disclosures About Market Risk"
  {
    var s := Lower(snippet);
    SectionFromFirstMatch(s, 0, false);
    if Matches(s, "1a", false) { ShorterSuffixMatches(s, "1", "1a"); }
    if Matches(s, "1b", false) { ShorterSuffixMatches(s, "1", "1b"); }
    if Matches(s, "7a", false) { ShorterSuffixMatches(s, "7", "7a"); }
  }

  /** The heading of Item 1A is detected as the business overview. */
  lemma RiskFactorsHeadingAsWritten()
    ensures SectionOf("Item 1A. Risk Factors") == "Business Overview"
  {
    var s := Lower("Item 1A. Risk Factors");
    assert s[..4] == "item";
    assert SkipSeparators(s, 4) == 5;
    assert MatchesAt(s, 0, "1", false);
  }

  /** The shape of the table's keys: `item_` and a suffix of word
      characters; no two suffixes are equal. */
  lemma TableSuffixes()
    ensures forall k :: 0 <= k < |SecSections| ==>
              SecSections[k].key[..5] == "item_" && TableSuffix(Suffix(SecSections[k].key))
    ensures forall j, k :: 0 <= j < k < |SecSections| ==> Suffix(SecSections[j].key) != Suffix(SecSections[k].key)
  {
  }

  /** In a string of at most seven characters that starts with `item`,
      `item` occurs nowhere else. */
  lemma OnlyMatchAtStart(s: string, suffix: string, bounded: bool)
    requires 4 <= |s| <= 7 && s[..4] == "item"
    ensures Matches(s, suffix, bounded) <==> MatchesAt(s, 0, suffix, bounded)
  {
    if Matches(s, suffix, bounded) {
      var i := MatchPosition(s, 0, suffix, bounded);
      if i > 0 {
        NoItemAfterStart(s, i);
      }
    }
  }

  lemma NoItemAfterStart(s: string, p: nat)
    requires 4 <= |s| <= 7 && s[..4] == "item" && 1 <= p
    ensures !StartsWithAt(s, p, "item")
  {
    if p + 4 <= |s| {
      assert s[p..p + 4][0] == s[p] == s[..4][p];
    }
  }

  /** With word-bounded patterns every label is reachable: the bare heading
      `item <suffix>` of each table entry is detected as that entry. */
  lemma BoundedSectionsReachable(k: nat)
    requires k < |SecSections|
    ensures SectionOfBounded("item " + Suffix(SecSections[k].key)) == SecSections[k].title
  {
    TableSuffixes();
    var suffix := Suffix(SecSections[k].key);
    var s := "item " + suffix;
    BareHeading(suffix);
    forall j | 0 <= j < k
      ensures !Matches(s, Suffix(SecSections[j].key), true)
    {
      BareHeadingExcludes(suffix, Suffix(SecSections[j].key));
    }
    SectionFromSkips(s, 0, k, true);
  }

  /** A suffix as the table's are: one or two lower-case letters or digits. */
  predicate TableSuffix(suffix: string) {
    1 <= |suffix| <= 2 && forall c :: 0 <= c < |suffix| ==> 'a' <= suffix[c] <= 'z' || '0' <= suffix[c] <= '9'
  }

  /** The bare heading is already lower case and its own pattern matches it. */
  lemma BareHeading(suffix: string)
    requires TableSuffix(suffix)
    ensures Lower("item " + suffix) == "item " + suffix
    ensures Matches("item " + suffix, suffix, true)
  {
    var s := "item " + suffix;
    assert forall c :: 0 <= c < |s| ==> LowerChar(s[c]) == s[c];
    assert SkipSeparators(s, 5) == 5;
    assert SkipSeparators(s, 4) == 5;
    assert s[..4] == "item" && s[5..5 + |suffix|] == suffix;
    assert MatchesAt(s, 0, suffix, true);
  }

  /** No other table suffix's bounded pattern matches the bare heading. */
  lemma BareHeadingExcludes(suffix: string, other: string)
    requires TableSuffix(suffix) && other != suffix
    ensures !Matches("item " + suffix, other, true)
  {
    var s := "item " + suffix;
    assert s[..4] == "item";
    OnlyMatchAtStart(s, other, true);
    assert SkipSeparators(s, 5) == 5;
    assert SkipSeparators(s, 4) == 5;
    if |other| < |suffix| {
      assert IsWordChar(s[5 + |other|]);
    } else if |other| == |suffix| {
      assert s[5..5 + |other|] == suffix;
    }
  }

  /** Entries that do not match are passed over: the first matching entry
      at or after `i` gives the label. */
  lemma {:induction false} SectionFromSkips(s: string, i: nat, k: nat, bounded: bool)
    requires i <= k < |SecSections| && Matches(s, Suffix(SecSections[k].key), bounded)
    requires forall j :: i <= j < k ==> !Matches(s, Suffix(SecSections[j].key), bounded)
    ensures SectionFrom(s, i, bounded) == SecSections[k].title
    decreases k - i
  {
    if i < k {
      SectionFromSkips(s, i + 1, k, bounded);
    }
  }

  // ---------------------------------------------------------------------------
  // extract_metadata

  /** A POSIX path as `pathlib` sees it: an anchor (`"/"` or empty) and the
      names after it. */
  datatype FilePath = FilePath(anchor: string, names: seq<string>)

  /** `path.parts`. */
  function Parts(path: FilePath): seq<string> {
    (if path.anchor == "" then [] else [path.anchor]) + path.names
  }

  /** `path.parent.name`: the last name but one, or empty. */
  function ParentName(path: FilePath): string {
    if |path.names| >= 2 then path.names[|path.names| - 2] else ""
  }

  /** `str(path)`. */
  function PathString(path: FilePath): string {
    if path.anchor == "" && path.names == [] then "." else path.anchor + Join(path.names, "/")
  }

  /** The first of `filingTypes` that is a part of the path, else `"unknown"`. */
  function FormTypeOf(parts: seq<string>, filingTypes: seq<string>): (formType: string)
    ensures (formType == "unknown" && forall k :: 0 <= k < |filingTypes| ==> filingTypes[k] !in parts)
            || exists k :: 0 <= k < |filingTypes| && filingTypes[k] == formType && formType in parts
                           && forall j :: 0 <= j < k ==> filingTypes[j] !in parts
    decreases |filingTypes|
  {
    if filingTypes == [] then "unknown"
    else if filingTypes[0] in parts then filingTypes[0]
    else
      var formType := FormTypeOf(parts, filingTypes[1..]);
      assert forall k :: 1 <= k < |filingTypes| ==> filingTypes[k] == filingTypes[1..][k - 1];
      formType
  }

  /** The two fixed-width patterns the year is searched with:
      `-(\d{2})-` and `(20\d{2})`. */
  datatype YearPattern = ShortYear | LongYear

  predicate Accepts(pattern: YearPattern, w: string) {
    match pattern
    case ShortYear => |w| == 4 && w[0] == '-' && IsDigit(w[1]) && IsDigit(w[2]) && w[3] == '-'
    case LongYear => |w| == 4 && w[0] == '2' && w[1] == '0' && IsDigit(w[2]) && IsDigit(w[3])
  }

  predicate PatternAt(s: string, i: nat, pattern: YearPattern) {
    i + 4 <= |s| && Accepts(pattern, s[i..i + 4])
  }

  /** `re.search` for a four-character pattern: the leftmost match from
      `from` on. */
  function FindPattern(s: string, from: nat, pattern: YearPattern): (at: Option<nat>)
    ensures at.Some? ==> from <= at.value && PatternAt(s, at.value, pattern)
    ensures forall i :: from <= i && (at.None? || i < at.value) ==> !PatternAt(s, i, pattern)
    decreases |s| - from
  {
    if from + 4 > |s| then None
    else if PatternAt(s, from, pattern) then Some(from)
    else FindPattern(s, from + 1, pattern)
  }

  /** The century rule for a two-digit year: the one year from 1950 to 2049
      that ends in those digits. */
  function ExpandShortYear(yy: nat): (year: int)
    requires yy < 100
    ensures 1950 <= year <= 2049 && year % 100 == yy
  {
    if yy < 50 then 2000 + yy else 1900 + yy
  }

  lemma ExpandShortYearUnique(yy: nat, year: int)
    requires yy < 100 && 1950 <= year <= 2049 && year % 100 == yy
    ensures year == ExpandShortYear(yy)
  {
  }

  /** The value of a `20dd` window lies in this century. */
  lemma LongYearValue(w: string)
    requires Accepts(LongYear, w)
    ensures 2000 <= ParseDigits(w) <= 2099
  {
    assert w[..3][..2] == w[..2] && w[..2][..1] == w[..1] && w[..1][..0] == [];
    assert ParseDigits(w[..1]) == 2;
    assert ParseDigits(w[..2]) == 20;
  }

  /** The two digits of a `-dd-` window make a number below 100. */
  lemma ShortYearDigits(s: string, i: nat)
    requires PatternAt(s, i, ShortYear)
    ensures i + 3 <= |s| && ParseDigits(s[i + 1..i + 3]) < 100
  {
    var w := s[i..i + 4];
    assert s[i + 1..i + 3] == w[1..3];
    ParseDigitsBound(w[1..3]);
  }

  /** The year from the accession directory's first `-dd-`, if any. */
  function AccessionYear(accession: string): (year: Option<int>)
    ensures match FindPattern(accession, 0, ShortYear)
            case Some(i) => year.Some? && 1950 <= year.value <= 2049
                            && year.value % 100 == ParseDigits(accession[i + 1..i + 3])
            case None => year.None?
  {
    match FindPattern(accession, 0, ShortYear)
    case Some(i) =>
      ShortYearDigits(accession, i);
      Some(ExpandShortYear(ParseDigits(accession[i + 1..i + 3])))
    case None => None
  }

  /** The year from the first `20dd` in the path string, if any. */
  function PathYear(full: string): (year: Option<int>)
    ensures match FindPattern(full, 0, LongYear)
            case Some(i) => year.Some? && 2000 <= year.value <= 2099 && year.value == ParseDigits(full[i..i + 4])
            case None => year.None?
  {
    match FindPattern(full, 0, LongYear)
    case Some(i) =>
      LongYearValue(full[i..i + 4]);
      Some(ParseDigits(full[i..i + 4]))
    case None => None
  }

  /** The filing year: from the two-digit year in the accession directory's
      name, else from the first `20dd` in the path, else the current year
      (the clock is a parameter). */
  function FilingYear(path: FilePath, currentYear: int): (year: int)
    ensures var accession := ParentName(path);
            match FindPattern(accession, 0, ShortYear)
            case Some(i) => 1950 <= year <= 2049 && year % 100 == ParseDigits(accession[i + 1..i + 3])
            case None =>
              match FindPattern(PathString(path), 0, LongYear)
              case Some(i) => 2000 <= year <= 2099 && year == ParseDigits(PathString(path)[i..i + 4])
              case None => year == currentYear
  {
    match AccessionYear(ParentName(path))
    case Some(y) => y
    case None =>
      match PathYear(PathString(path))
      case Some(y) => y
      case None => currentYear
  }

  /** `extract_metadata`: the five fields stored with every chunk of a filing. */
  function ExtractMetadata(path: FilePath, ticker: string, filingTypes: seq<string>, currentYear: int): (m: Payload)
    ensures m.Keys == {"ticker", "form_type", "filing_year", "accession", "source_file"}
    ensures m["ticker"] == Str(ticker) && m["accession"] == Str(ParentName(path))
    ensures m["form_type"] == Str(FormTypeOf(Parts(path), filingTypes))
    ensures m["filing_year"] == Int(FilingYear(path, currentYear))
    ensures m["source_file"] == Str(PathString(path))
  {
    map["ticker" := Str(ticker), "form_type" := Str(FormTypeOf(Parts(path), filingTypes)),
        "filing_year" := Int(FilingYear(path, currentYear)), "accession" := Str(ParentName(path)),
        "source_file" := Str(PathString(path))]
  }

  /** The path the pipeline passes: the extracted `primary_document.htm`
      written next to the bundle in its accession directory. That
      directory's `-24-` gives 2024 whatever the clock says, and the form
      type is the directory above it. */
  lemma DownloadedFilingMetadata(currentYear: int)
    ensures var path := FilePath("", ["data", "sec-edgar-filings", "AAPL", "10-K", "0000320193-24-000123",
                                      "primary_document.htm"]);
            var m := ExtractMetadata(path, "AAPL", FilingTypes, currentYear);
            m["form_type"] == Str("10-K") && m["filing_year"] == Int(2024)
            && m["accession"] == Str("0000320193-24-000123")
  {
    var path := FilePath("", ["data", "sec-edgar-filings", "AAPL", "10-K", "0000320193-24-000123",
                              "primary_document.htm"]);
    assert ParentName(path) == "0000320193-24-000123";
    AccessionYear24();
  }

  lemma AccessionYear24()
    ensures var accession := "0000320193-24-000123";
            FindPattern(accession, 0, ShortYear) == Some(10) && ParseDigits(accession[11..13]) == 24
  {
    var accession := "0000320193-24-000123";
    assert accession[10..14] == "-24-";
    assert PatternAt(accession, 10, ShortYear);
    forall i | 0 <= i < 10
      ensures !PatternAt(accession, i, ShortYear)
    {
      assert accession[i..i + 4][0] == accession[i];
      assert accession[..10] == "0000320193";
      assert accession[i] == accession[..10][i];
    }
    FindPatternSkips(accession, 0, 10, ShortYear);
    assert accession[11] == '2' && accession[12] == '4';
    assert accession[11..13] == [accession[11], accession[12]] == "24";
    assert ParseDigits("24") == 24 by {
      assert "24"[..1] == "2" && "2"[..0] == [];
    }
  }

  /** Positions that do not match are passed over: the search finds the
      first match at or after `from`. */
  lemma {:induction false} FindPatternSkips(s: string, from: nat, at: nat, pattern: YearPattern)
    requires from <= at && PatternAt(s, at, pattern)
    requires forall i :: from <= i < at ==> !PatternAt(s, i, pattern)
    ensures FindPattern(s, from, pattern) == Some(at)
    decreases at - from
  {
    if from < at {
      FindPatternSkips(s, from + 1, at, pattern);
    }
  }

  // ---------------------------------------------------------------------------
  // chunk_text

  const MinChunkWords: nat := 30
  const SectionSnippetLength: nat := 200

  /** `len(ct.split())`. */
  function WordCount(text: string): nat {
    |Words(text)|
  }

  predicate HasIdFields(m: Payload) {
    "ticker" in m && "form_type" in m && "accession" in m
  }

  /** `f"{ticker}_{form_type}_{accession}_{i:04d}"`. */
  function ChunkId(m: Payload, i: nat): string
    requires HasIdFields(m)
  {
    Render(m["ticker"]) + "_" + Render(m["form_type"]) + "_" + Render(m["accession"]) + "_" + ZeroPad4(i)
  }

  /** Chunk ids of one filing differ exactly when their indices differ. */
  lemma ChunkIdInjective(m: Payload, i: nat, j: nat)
    requires HasIdFields(m)
    ensures ChunkId(m, i) == ChunkId(m, j) <==> i == j
  {
    var prefix := Render(m["ticker"]) + "_" + Render(m["form_type"]) + "_" + Render(m["accession"]) + "_";
    if ChunkId(m, i) == ChunkId(m, j) {
      assert ZeroPad4(i) == ChunkId(m, i)[|prefix|..];
      assert ZeroPad4(j) == ChunkId(m, j)[|prefix|..];
      ZeroPad4Injective(i, j);
    }
  }

  /** `{**metadata, "section": ..., "chunk_index": i, "word_count": ...}`. */
  function ChunkMetadata(m: Payload, i: nat, text: string): (r: Payload)
    ensures r.Keys == m.Keys + {"section", "chunk_index", "word_count"}
    ensures forall key :: key in m && key !in {"section", "chunk_index", "word_count"} ==> r[key] == m[key]
    ensures r["section"] == Str(SectionOfBounded(Take(text, SectionSnippetLength)))
    ensures r["chunk_index"] == Int(i) && r["word_count"] == Int(WordCount(text))
  {
    m["section" := Str(SectionOfBounded(Take(text, SectionSnippetLength)))]["chunk_index" := Int(i)]
     ["word_count" := Int(WordCount(text))]
  }

  /** The indices, below `n`, of the splitter nodes long enough to keep. */
  function KeptIndices(nodes: seq<string>, n: nat): (idx: seq<nat>)
    requires n <= |nodes|
    ensures forall k :: 0 <= k < |idx| ==> idx[k] < n && WordCount(nodes[idx[k]]) >= MinChunkWords
    ensures forall j, k :: 0 <= j < k < |idx| ==> idx[j] < idx[k]
    ensures forall i :: 0 <= i < n && WordCount(nodes[i]) >= MinChunkWords ==> i in idx
  {
    if n == 0 then []
    else KeptIndices(nodes, n - 1) + (if WordCount(nodes[n - 1]) >= MinChunkWords then [n - 1] else [])
  }

  /** The chunk built from node `i`. */
  function ChunkFor(m: Payload, i: nat, text: string): ChunkRecord
    requires HasIdFields(m)
  {
    ChunkRecord(ChunkId(m, i), text, ChunkMetadata(m, i, text))
  }

  /** The chunks built from the kept nodes below `n`, in node order. */
  function Kept(nodes: seq<string>, m: Payload, n: nat): seq<ChunkRecord>
    requires n <= |nodes| && HasIdFields(m)
  {
    if n == 0 then []
    else Kept(nodes, m, n - 1) + (if WordCount(nodes[n - 1]) >= MinChunkWords then [ChunkFor(m, n - 1, nodes[n - 1])] else [])
  }

  /** The `k`-th kept chunk is built from the `k`-th kept node. */
  lemma {:induction false} KeptAtIndices(nodes: seq<string>, m: Payload, n: nat)
    requires n <= |nodes| && HasIdFields(m)
    ensures var idx := KeptIndices(nodes, n);
            |Kept(nodes, m, n)| == |idx|
            && forall k :: 0 <= k < |idx| ==> Kept(nodes, m, n)[k] == ChunkFor(m, idx[k], nodes[idx[k]])
  {
    if n > 0 {
      KeptAtIndices(nodes, m, n - 1);
      var chunks, idx := Kept(nodes, m, n), KeptIndices(nodes, n);
      var prev, prevIdx := Kept(nodes, m, n - 1), KeptIndices(nodes, n - 1);
      var long := WordCount(nodes[n - 1]) >= MinChunkWords;
      assert chunks == prev + (if long then [ChunkFor(m, n - 1, nodes[n - 1])] else []);
      assert idx == prevIdx + (if long then [n - 1] else []);
      forall k | 0 <= k < |idx|
        ensures chunks[k] == ChunkFor(m, idx[k], nodes[idx[k]])
      {
        if k < |prevIdx| {
          assert idx[k] == prevIdx[k] && chunks[k] == prev[k];
        } else {
          assert idx[k] == n - 1 && chunks[k] == ChunkFor(m, n - 1, nodes[n - 1]);
        }
      }
    }
  }

  /** The loop's result for one list of nodes: an empty list when the id
      fields are missing (the first long node's id raises `KeyError`, which
      the `try` turns into `[]`; without a long node the list stays empty),
      else the kept chunks. */
  function ChunksFromNodes(nodes: seq<string>, metadata: Payload): seq<ChunkRecord> {
    if !HasIdFields(metadata) then [] else Kept(nodes, metadata, |nodes|)
  }

  /** What `chunk_text` produces from the splitter's answer: `None` when the
      ticker is missing (the `KeyError` escapes, since the first progress
      event is sent outside the `try`), an empty list when the splitter fails,
      else the chunks built from its nodes. */
  function ChunksOf(text: string, metadata: Payload, splitter: string -> Option<seq<string>>): Option<seq<ChunkRecord>> {
    if "ticker" !in metadata then None
    else match splitter(text)
      case None => Some([])
      case Some(nodes) => Some(ChunksFromNodes(nodes, metadata))
  }

  /** `chunk_text`, with the semantic splitter as an oracle from the text to
      its nodes' contents. */
  method ChunkText(text: string, metadata: Payload, splitter: string -> Option<seq<string>>)
    returns (chunks: Option<seq<ChunkRecord>>)
    ensures chunks == ChunksOf(text, metadata, splitter)
  {
    if "ticker" !in metadata {
      return None;
    }
    var split := splitter(text);
    if split.None? {
      return Some([]);
    }
    var kept := BuildChunks(split.value, metadata);
    chunks := Some(kept);
  }

  /** The loop over the splitter's nodes: drops the short ones and names and
      annotates the rest. */
  method BuildChunks(nodes: seq<string>, metadata: Payload) returns (chunks: seq<ChunkRecord>)
    ensures chunks == ChunksFromNodes(nodes, metadata)
  {
    chunks := [];
    for i := 0 to |nodes|
      invariant HasIdFields(metadata) ==> chunks == Kept(nodes, metadata, i)
      invariant !HasIdFields(metadata) ==> chunks == []
    {
      var ct := nodes[i];
      if WordCount(ct) >= MinChunkWords {
        if !HasIdFields(metadata) {
          return [];
        }
        chunks := chunks + [ChunkFor(metadata, i, ct)];
      }
    }
  }

  /** Chunk `c` is the one built from node `i`, a node of at least 30 words,
      and carries that node's index, word count and section. */
  predicate FromNode(c: ChunkRecord, nodes: seq<string>, m: Payload, i: nat)
    requires HasIdFields(m)
  {
    i < |nodes| && c == ChunkFor(m, i, nodes[i])
    && WordCount(nodes[i]) >= MinChunkWords
    && c.metadata["chunk_index"] == Int(i)
    && c.metadata["word_count"] == Int(WordCount(nodes[i]))
    && c.metadata["section"] == Str(SectionOfBounded(Take(nodes[i], SectionSnippetLength)))
  }

  /** Chunk `c` is built from some long node. */
  predicate ChunkFromLongNode(c: ChunkRecord, nodes: seq<string>, m: Payload)
    requires HasIdFields(m)
  {
    exists i: nat | i < |nodes| :: FromNode(c, nodes, m, i)
  }

  /** Each chunk comes from one node of at least 30 words and carries that
      node's index, word count and section. */
  lemma ChunksAreLongNodes(nodes: seq<string>, m: Payload)
    requires HasIdFields(m)
    ensures forall k :: 0 <= k < |ChunksFromNodes(nodes, m)| ==> ChunkFromLongNode(ChunksFromNodes(nodes, m)[k], nodes, m)
  {
    var idx := KeptIndices(nodes, |nodes|);
    var chunks := ChunksFromNodes(nodes, m);
    KeptAtIndices(nodes, m, |nodes|);
    forall k | 0 <= k < |chunks|
      ensures ChunkFromLongNode(chunks[k], nodes, m)
    {
      var i := idx[k];
      assert i < |nodes| && WordCount(nodes[i]) >= MinChunkWords;
      assert chunks[k] == ChunkFor(m, i, nodes[i]);
      var md := ChunkMetadata(m, i, nodes[i]);
      assert chunks[k].metadata == md;
      assert md["chunk_index"] == Int(i) && md["word_count"] == Int(WordCount(nodes[i]));
      assert md["section"] == Str(SectionOfBounded(Take(nodes[i], SectionSnippetLength)));
      assert FromNode(chunks[k], nodes, m, i);
    }
  }

  /** Every node of at least 30 words yields a chunk. */
  lemma LongNodesKept(nodes: seq<string>, m: Payload)
    requires HasIdFields(m)
    ensures var chunks := ChunksFromNodes(nodes, m);
            forall i :: 0 <= i < |nodes| && WordCount(nodes[i]) >= MinChunkWords ==>
              exists k :: 0 <= k < |chunks| && chunks[k] == ChunkFor(m, i, nodes[i])
  {
    var idx := KeptIndices(nodes, |nodes|);
    var chunks := ChunksFromNodes(nodes, m);
    KeptAtIndices(nodes, m, |nodes|);
    forall i | 0 <= i < |nodes| && WordCount(nodes[i]) >= MinChunkWords
      ensures exists k :: 0 <= k < |chunks| && chunks[k] == ChunkFor(m, i, nodes[i])
    {
      var k :| 0 <= k < |idx| && idx[k] == i;
      assert chunks[k] == ChunkFor(m, i, nodes[i]);
    }
  }

  /** The chunks keep the nodes' order. */
  lemma ChunksInNodeOrder(nodes: seq<string>, m: Payload)
    requires HasIdFields(m)
    ensures var chunks := ChunksFromNodes(nodes, m);
            forall j, k :: 0 <= j < k < |chunks| ==>
              && "chunk_index" in chunks[j].metadata && chunks[j].metadata["chunk_index"].Int?
              && "chunk_index" in chunks[k].metadata && chunks[k].metadata["chunk_index"].Int?
              && chunks[j].metadata["chunk_index"].i < chunks[k].metadata["chunk_index"].i
  {
    KeptAtIndices(nodes, m, |nodes|);
  }

  /** No two chunks of a filing share an id. */
  lemma ChunkIdsDistinct(nodes: seq<string>, m: Payload)
    requires HasIdFields(m)
    ensures var chunks := ChunksFromNodes(nodes, m);
            forall j, k :: 0 <= j < k < |chunks| ==> chunks[j].chunkId != chunks[k].chunkId
  {
    var idx := KeptIndices(nodes, |nodes|);
    var chunks := ChunksFromNodes(nodes, m);
    KeptAtIndices(nodes, m, |nodes|);
    forall j, k | 0 <= j < k < |chunks|
      ensures chunks[j].chunkId != chunks[k].chunkId
    {
      ChunkIdInjective(m, idx[j], idx[k]);
    }
  }

  /** Chunks of an ingested filing never carry a `text` metadata entry, so
      the points stored for them are read back by `search` as they were
      written: the assumption `Search` makes of the index holds for them. */
  lemma IngestedChunksReadBack(path: FilePath, ticker: string, filingTypes: seq<string>, currentYear: int,
                               nodes: seq<string>, k: nat, score: real)
    requires k < |ChunksFromNodes(nodes, ExtractMetadata(path, ticker, filingTypes, currentYear))|
    ensures var chunk := ChunksFromNodes(nodes, ExtractMetadata(path, ticker, filingTypes, currentYear))[k];
            && TextIsString(PointPayload(chunk))
            && ProjectHit(ScoredPoint(PointPayload(chunk), score)).text == chunk.text
  {
    var m := ExtractMetadata(path, ticker, filingTypes, currentYear);
    assert "text" !in m.Keys;
    ChunkPointReadBack(nodes, m, k, score);
  }

  /** The same for chunks built from any metadata without a `text` entry. */
  lemma ChunkPointReadBack(nodes: seq<string>, m: Payload, k: nat, score: real)
    requires "text" !in m && k < |ChunksFromNodes(nodes, m)|
    ensures var chunk := ChunksFromNodes(nodes, m)[k];
            && TextIsString(PointPayload(chunk))
            && ProjectHit(ScoredPoint(PointPayload(chunk), score)).text == chunk.text
  {
    ChunkMetadataWithoutText(nodes, m, k);
    SearchReadsBackUpsert(ChunksFromNodes(nodes, m)[k], score);
  }

  lemma ChunkMetadataWithoutText(nodes: seq<string>, m: Payload, k: nat)
    requires "text" !in m && k < |ChunksFromNodes(nodes, m)|
    ensures "text" !in ChunksFromNodes(nodes, m)[k].metadata
  {
    KeptWithoutText(nodes, m, |nodes|, k);
  }

  lemma {:induction false} KeptWithoutText(nodes: seq<string>, m: Payload, n: nat, k: nat)
    requires n <= |nodes| && HasIdFields(m) && "text" !in m && k < |Kept(nodes, m, n)|
    ensures "text" !in Kept(nodes, m, n)[k].metadata
    decreases n
  {
    var prev := Kept(nodes, m, n - 1);
    if k < |prev| {
      assert Kept(nodes, m, n)[k] == prev[k];
      KeptWithoutText(nodes, m, n - 1, k);
    } else {
      assert Kept(nodes, m, n)[k] == ChunkFor(m, n - 1, nodes[n - 1]);
    }
  }

  /** Without the id fields, any long node makes the whole result empty. */
  lemma UnnamedChunksDropped(nodes: seq<string>, m: Payload, i: nat)
    requires !HasIdFields(m) && i < |nodes| && WordCount(nodes[i]) >= MinChunkWords
    ensures ChunksFromNodes(nodes, m) == []
  {
  }

  // ---------------------------------------------------------------------------
  // embed_and_store

  /** The calls `embed_and_store` makes to the embedding model and the store. */
  datatype StoreCall = EmbedBatchCall(texts: seq<string>) | UpsertCall(points: seq<PointStruct>)

  datatype StoreOutcome = StoreOutcome(stored: nat, calls: seq<StoreCall>)

  /** `[c["text"] for c in chunks]`. */
  function Texts(chunks: seq<ChunkRecord>): (texts: seq<string>)
    ensures |texts| == |chunks| && forall k :: 0 <= k < |chunks| ==> texts[k] == chunks[k].text
  {
    seq(|chunks|, k requires 0 <= k < |chunks| => chunks[k].text)
  }

  /** `embed_and_store`: nothing to do for no chunks; otherwise one batch
      embedding and one upsert, and any failure counts as nothing stored. */
  function EmbedAndStore(chunks: seq<ChunkRecord>, embedBatch: seq<string> -> Option<seq<Vector>>,
                         uuid5: (string, string) -> string, upsert: seq<PointStruct> -> bool): (r: StoreOutcome)
    ensures chunks == [] ==> r == StoreOutcome(0, [])
    ensures r.stored <= |chunks|
    ensures chunks != [] ==> |r.calls| >= 1 && r.calls[0] == EmbedBatchCall(Texts(chunks))
    ensures chunks != [] && embedBatch(Texts(chunks)).None? ==> r == StoreOutcome(0, [EmbedBatchCall(Texts(chunks))])
    ensures chunks != [] && embedBatch(Texts(chunks)).Some? ==>
              var vectors := embedBatch(Texts(chunks)).value;
              var points := UpsertPoints(chunks, vectors, uuid5);
              && r.calls == [EmbedBatchCall(Texts(chunks)), UpsertCall(points)]
              && r.stored == (if upsert(points) then Min(|chunks|, |vectors|) else 0)
  {
    if chunks == [] then StoreOutcome(0, [])
    else
      var texts := Texts(chunks);
      match embedBatch(texts)
      case None => StoreOutcome(0, [EmbedBatchCall(texts)])
      case Some(vectors) =>
        var points := UpsertPoints(chunks, vectors, uuid5);
        var stored := UpsertChunks(chunks, vectors, uuid5, upsert);
        StoreOutcome(if stored.Some? then stored.value else 0, [EmbedBatchCall(texts), UpsertCall(points)])
  }
}
