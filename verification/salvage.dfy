/** The fall-back readers of `api/analyze.js`: when the model's reply holds no JSON, the
    summary, the allowed and denied actions, the security issues and the risk level are
    pulled out of its lines by keyword. */
module Salvage {
  import opened Text

  /** `list.slice(0, 10)`: the first ten elements, or all of them when there are fewer. */
  function FirstTen<T>(s: seq<T>): (r: seq<T>)
    ensures |r| == if |s| <= 10 then |s| else 10
    ensures r == s[..|r|]
  {
    if |s| <= 10 then s else s[..10]
  }

  lemma AppendAssoc<T>(a: seq<T>, b: seq<T>, c: seq<T>)
    ensures (a + b) + c == a + (b + c)
  {
  }

  function Min(a: int, b: int): int {
    if a <= b then a else b
  }

  // ---------- extractSummary ----------

  const DefaultSummary: string := "정책 문서를 분석했습니다."

  /** A line that introduces the summary. */
  predicate IsSummaryLine(line: string) {
    Contains(line, "의미") || Contains(line, "목적") || Contains(line, "summary") || Contains(line, "Summary")
  }

  /** `lines.slice(i, i + 3).join(' ').trim()` */
  function SummaryAt(lines: seq<string>, i: nat): string
    requires i < |lines|
  {
    Trim(Join(lines[i..Min(i + 3, |lines|)], " "))
  }

  /** The summary the scan returns once it has passed the first `i` lines. */
  function SummaryFrom(lines: seq<string>, i: nat): string
    decreases |lines| - i
  {
    if i >= |lines| then DefaultSummary
    else if IsSummaryLine(lines[i]) then SummaryAt(lines, i)
    else SummaryFrom(lines, i + 1)
  }

  function SummaryOf(text: string): string {
    SummaryFrom(Split(text, '\n'), 0)
  }

  /** `extractSummary`: scans the lines for the first summary line and returns it with the
      two lines after it. */
  method ExtractSummary(text: string) returns (summary: string)
    ensures summary == SummaryOf(text)
  {
    var lines := Split(text, '\n');
    var i := 0;
    while i < |lines|
      invariant 0 <= i <= |lines|
      invariant SummaryFrom(lines, i) == SummaryFrom(lines, 0)
    {
      if IsSummaryLine(lines[i]) {
        return SummaryAt(lines, i);
      }
      i := i + 1;
    }
    return DefaultSummary;
  }

  /** The summary starts at the first summary line; with none, it is the default text. */
  lemma {:induction false} SummaryIsFirstMatch(lines: seq<string>, i: nat, f: nat)
    requires i <= f <= |lines|
    requires forall j :: i <= j < f ==> !IsSummaryLine(lines[j])
    requires f == |lines| || IsSummaryLine(lines[f])
    ensures SummaryFrom(lines, i) == if f == |lines| then DefaultSummary else SummaryAt(lines, f)
    decreases f - i
  {
    if i < f {
      SummaryIsFirstMatch(lines, i + 1, f);
    }
  }

  /** The returned summary is never empty: it is the default text or holds the keyword
      that selected its first line. */
  lemma SummaryMentionsKeyword(text: string)
    ensures var s := SummaryOf(text);
      s != "" &&
      (s == DefaultSummary
       || Contains(s, "의미") || Contains(s, "목적") || Contains(s, "summary") || Contains(s, "Summary"))
  {
    var lines := Split(text, '\n');
    SummaryScan(lines, 0);
  }

  lemma SummaryNonEmpty(text: string)
    ensures SummaryOf(text) != ""
  {
    SummaryMentionsKeyword(text);
  }

  lemma {:induction false} SummaryScan(lines: seq<string>, i: nat)
    ensures var s := SummaryFrom(lines, i);
      s != "" &&
      (s == DefaultSummary
       || Contains(s, "의미") || Contains(s, "목적") || Contains(s, "summary") || Contains(s, "Summary"))
    decreases |lines| - i
  {
    if i < |lines| {
      if IsSummaryLine(lines[i]) {
        if Contains(lines[i], "의미") {
          SummaryKeepsWord(lines, i, "의미");
        } else if Contains(lines[i], "목적") {
          SummaryKeepsWord(lines, i, "목적");
        } else if Contains(lines[i], "summary") {
          SummaryKeepsWord(lines, i, "summary");
        } else {
          SummaryKeepsWord(lines, i, "Summary");
        }
      } else {
        SummaryScan(lines, i + 1);
      }
    }
  }

  /** A word of the summary line that neither starts nor ends with white space survives
      the join and the trim. */
  lemma SummaryKeepsWord(lines: seq<string>, i: nat, w: string)
    requires i < |lines| && Contains(lines[i], w)
    requires w != [] && !IsSpace(w[0]) && !IsSpace(w[|w| - 1])
    ensures Contains(SummaryAt(lines, i), w) && SummaryAt(lines, i) != ""
  {
    var parts := lines[i..Min(i + 3, |lines|)];
    var joined := Join(parts, " ");
    JoinContainsParts(parts, " ", 0);
    assert parts[0] == lines[i];
    ContainsTrans(joined, lines[i], w);
    TrimKeepsWord(joined, w);
    var s := Trim(joined);
    var k :| 0 <= k <= |s| && OccursAt(s, w, k);
    assert s[k] == w[0];
  }

  // ---------- extractAllowedActions ----------

  /** A list-like line: it holds a dash or a bullet, or starts with a number and a dot. */
  predicate IsListLine(line: string) {
    Contains(line, "-") || Contains(line, "\U{2022}") || IsNumbered(line)
  }

  /** A line that opens the allowed section. */
  predicate OpensAllowed(line: string) {
    Contains(line, "가능") || Contains(line, "allowed") || Contains(line, "Allow")
  }

  /** Text that speaks of denial: `불가능` ("not possible") or `denied`. */
  predicate MentionsDenial(s: string) {
    Contains(s, "불가능") || Contains(s, "denied")
  }

  /** A line inside the allowed section that ends the scan. */
  predicate StopsAllowed(line: string) {
    !OpensAllowed(line) && MentionsDenial(line)
  }

  /** An item the allowed scan keeps. */
  predicate KeepsAllowed(item: string) {
    item != "" && !MentionsDenial(item)
  }

  /** What the allowed scan reads off one line: whether it opens the section, the item it
      offers (a list line whose cleaned text is kept) and whether it speaks of denial. */
  datatype AllowedLine = AllowedLine(opens: bool, item: Option<string>, denial: bool)

  function AllowedLineOf(line: string): (l: AllowedLine)
    ensures l.item.Some? ==> IsListLine(line) && l.item.value == CleanItem(line) && KeepsAllowed(l.item.value)
  {
    var item := CleanItem(line);
    AllowedLine(
      OpensAllowed(line),
      if IsListLine(line) && KeepsAllowed(item) then Some(item) else None,
      MentionsDenial(line))
  }

  function AllowedLines(lines: seq<string>): (ls: seq<AllowedLine>)
    ensures |ls| == |lines|
    ensures forall k :: 0 <= k < |lines| ==> ls[k] == AllowedLineOf(lines[k])
  {
    seq(|lines|, k requires 0 <= k < |lines| => AllowedLineOf(lines[k]))
  }

  /** What the scan pushes for a line that does not open the section. */
  function AllowedPush(l: AllowedLine, inSection: bool): seq<string> {
    if inSection && l.item.Some? then [l.item.value] else []
  }

  /** The actions the scan collects from line `i` on, inside the section or not: an opening
      line enters the section, and inside it a line that speaks of denial ends the scan
      after its own item. */
  function AllowedScan(ls: seq<AllowedLine>, i: nat, inSection: bool): seq<string>
    decreases |ls| - i
  {
    if i >= |ls| then []
    else if ls[i].opens then AllowedScan(ls, i + 1, true)
    else if inSection && ls[i].denial then AllowedPush(ls[i], inSection)
    else AllowedPush(ls[i], inSection) + AllowedScan(ls, i + 1, inSection)
  }

  function AllowedOfLines(lines: seq<string>): seq<string> {
    AllowedScan(AllowedLines(lines), 0, false)
  }

  function AllowedActions(text: string): seq<string> {
    FirstTen(AllowedOfLines(Split(text, '\n')))
  }

  /** `extractAllowedActions`: the list items after an opening line, up to the first line
      inside the section that speaks of denial, at most ten. */
  method ExtractAllowedActions(text: string) returns (actions: seq<string>)
    ensures actions == AllowedActions(text)
  {
    var lines := Split(text, '\n');
    var found: seq<string> := [];
    var inAllowedSection := false;
    var i := 0;
    while i < |lines|
      invariant 0 <= i <= |lines|
      invariant found + AllowedScan(AllowedLines(lines), i, inAllowedSection) == AllowedOfLines(lines)
    {
      var line := lines[i];
      AllowedStep(lines, i, inAllowedSection, found);
      if OpensAllowed(line) {
        inAllowedSection := true;
        i := i + 1;
        continue;
      }
      if inAllowedSection && IsListLine(line) {
        var action := CleanItem(line);
        if action != "" && !MentionsDenial(action) {
          found := found + [action];
        }
      }
      if inAllowedSection && MentionsDenial(line) {
        break;
      }
      i := i + 1;
    }
    actions := FirstTen(found);
  }

  /** One step of the scan, in the terms the loop of `ExtractAllowedActions` tests. */
  lemma AllowedStep(lines: seq<string>, i: nat, inSection: bool, found: seq<string>)
    requires i < |lines|
    ensures var ls := AllowedLines(lines);
      var line := lines[i];
      var found' := if inSection && IsListLine(line) && CleanItem(line) != "" && !MentionsDenial(CleanItem(line))
        then found + [CleanItem(line)] else found;
      && (OpensAllowed(line) ==> AllowedScan(ls, i, inSection) == AllowedScan(ls, i + 1, true))
      && (!OpensAllowed(line) && inSection && MentionsDenial(line) ==>
            found' == found + AllowedScan(ls, i, inSection))
      && (!OpensAllowed(line) && !(inSection && MentionsDenial(line)) ==>
            found' + AllowedScan(ls, i + 1, inSection) == found + AllowedScan(ls, i, inSection))
  {
    var ls := AllowedLines(lines);
    var line := lines[i];
    var item := CleanItem(line);
    var pushed := if inSection && IsListLine(line) && item != "" && !MentionsDenial(item) then [item] else [];
    assert ls[i] == AllowedLineOf(line);
    AllowedScanStep(ls, i, inSection, found, OpensAllowed(line), MentionsDenial(line), pushed);
  }

  /** One step of the scan over the classified lines. */
  lemma AllowedScanStep(ls: seq<AllowedLine>, i: nat, inSection: bool, found: seq<string>,
                        opens: bool, denial: bool, pushed: seq<string>)
    requires i < |ls| && ls[i].opens == opens && ls[i].denial == denial
    requires AllowedPush(ls[i], inSection) == pushed
    ensures opens ==> AllowedScan(ls, i, inSection) == AllowedScan(ls, i + 1, true)
    ensures !opens && inSection && denial ==> found + pushed == found + AllowedScan(ls, i, inSection)
    ensures !opens && !(inSection && denial) ==>
      (found + pushed) + AllowedScan(ls, i + 1, inSection) == found + AllowedScan(ls, i, inSection)
  {
    if !opens && !(inSection && denial) {
      AppendAssoc(found, pushed, AllowedScan(ls, i + 1, inSection));
    }
  }

  /** `불가능` ("not possible") holds `가능` ("possible"): a line that speaks of `불가능` opens
      the allowed section, so only `denied` can end the scan. */
  lemma NotPossibleOpensAllowed(line: string)
    ensures Contains(line, "불가능") ==> OpensAllowed(line)
    ensures StopsAllowed(line) <==> !OpensAllowed(line) && Contains(line, "denied")
  {
    if Contains(line, "불가능") {
      assert OccursAt("불가능", "가능", 1);
      ContainsTrans(line, "불가능", "가능");
    }
  }

  /** The line that ends the scan offers no item: its cleaned text still says `denied`. */
  lemma StopLineOffersNothing(line: string)
    requires StopsAllowed(line)
    ensures AllowedLineOf(line).item == None
  {
    NotPossibleOpensAllowed(line);
    CleanItemKeepsWord(line, "denied");
  }

  /** Some line in `[i, j)` opens the allowed section. */
  predicate AllowedOpenedBetween(ls: seq<AllowedLine>, i: nat, j: nat)
    requires j <= |ls|
  {
    exists o :: i <= o < j && ls[o].opens
  }

  /** Once a line inside the section speaks of denial, the lines from there on change
      nothing. */
  lemma AllowedEndsAtStop(lines: seq<string>, s: nat)
    requires s < |lines| && StopsAllowed(lines[s])
    requires exists o :: 0 <= o < s && OpensAllowed(lines[o])
    ensures AllowedOfLines(lines) == AllowedOfLines(lines[..s])
  {
    var ls := AllowedLines(lines);
    StopLineOffersNothing(lines[s]);
    var o :| 0 <= o < s && OpensAllowed(lines[o]);
    assert ls[o] == AllowedLineOf(lines[o]);
    assert ls[s] == AllowedLineOf(lines[s]);
    assert AllowedLines(lines[..s]) == ls[..s];
    AllowedScanPrefix(ls, s, 0, false);
  }

  lemma {:induction false} AllowedScanPrefix(ls: seq<AllowedLine>, s: nat, i: nat, inSection: bool)
    requires i <= s < |ls| && !ls[s].opens && ls[s].denial && ls[s].item == None
    requires inSection || AllowedOpenedBetween(ls, i, s)
    ensures AllowedScan(ls, i, inSection) == AllowedScan(ls[..s], i, inSection)
    decreases s - i
  {
    var p := ls[..s];
    if i == s {
      assert inSection;
      assert AllowedScan(ls, i, inSection) == AllowedPush(ls[s], inSection) == [];
    } else {
      assert p[i] == ls[i];
      if ls[i].opens {
        AllowedScanPrefix(ls, s, i + 1, true);
        assert AllowedScan(p, i, inSection) == AllowedScan(p, i + 1, true);
      } else if inSection && ls[i].denial {
        assert AllowedScan(p, i, inSection) == AllowedPush(ls[i], inSection);
      } else {
        if !inSection {
          var o :| i <= o < s && ls[o].opens;
          assert AllowedOpenedBetween(ls, i + 1, s);
        }
        AllowedScanPrefix(ls, s, i + 1, inSection);
        assert AllowedScan(p, i, inSection) == AllowedPush(ls[i], inSection) + AllowedScan(p, i + 1, inSection);
      }
    }
  }

  lemma {:induction false} AllowedScanItems(ls: seq<AllowedLine>, i: nat, inSection: bool)
    ensures forall x :: x in AllowedScan(ls, i, inSection) ==>
      exists j :: i <= j < |ls| && (inSection || AllowedOpenedBetween(ls, i, j))
        && !ls[j].opens && ls[j].item == Some(x)
    decreases |ls| - i
  {
    if i < |ls| {
      AllowedScanItems(ls, i + 1, ls[i].opens || inSection);
      forall x | x in AllowedScan(ls, i, inSection)
        ensures exists j ::
          i <= j < |ls| && (inSection || AllowedOpenedBetween(ls, i, j)) && !ls[j].opens && ls[j].item == Some(x)
      {
        if x in AllowedPush(ls[i], inSection) && !ls[i].opens {
          assert ls[i].item == Some(x);
        } else {
          var j :| i + 1 <= j < |ls| && (ls[i].opens || inSection || AllowedOpenedBetween(ls, i + 1, j))
            && !ls[j].opens && ls[j].item == Some(x);
          if !inSection && !ls[i].opens {
            var o :| i + 1 <= o < j && ls[o].opens;
          }
          assert inSection || AllowedOpenedBetween(ls, i, j);
        }
      }
    }
  }

  /** An allowed item, read back on the lines: the kept cleaned text of a list line that
      follows an opening line and does not open the section itself. */
  predicate AllowedItemAt(lines: seq<string>, x: string, o: nat, j: nat) {
    0 <= o < j < |lines| && OpensAllowed(lines[o])
    && !OpensAllowed(lines[j]) && IsListLine(lines[j]) && x == CleanItem(lines[j]) && KeepsAllowed(x)
  }

  /** `x` is an allowed item of some line of `lines`. */
  ghost predicate IsAllowedItem(lines: seq<string>, x: string) {
    exists o, j :: AllowedItemAt(lines, x, o, j)
  }

  /** Each allowed action is the cleaned text of a list line that follows an opening line:
      non-empty, and speaking neither of `불가능` nor of `denied`. At most ten are kept. */
  lemma AllowedActionsAreListItems(text: string)
    ensures |AllowedActions(text)| <= 10
    ensures forall x :: x in AllowedActions(text) ==> IsAllowedItem(Split(text, '\n'), x)
  {
    forall x | x in AllowedActions(text)
      ensures IsAllowedItem(Split(text, '\n'), x)
    {
      AllowedActionSource(Split(text, '\n'), x);
    }
  }

  lemma AllowedActionSource(lines: seq<string>, x: string)
    requires x in FirstTen(AllowedOfLines(lines))
    ensures IsAllowedItem(lines, x)
  {
    var ls := AllowedLines(lines);
    var full := AllowedScan(ls, 0, false);
    assert x in full;
    AllowedScanItems(ls, 0, false);
    var j :| 0 <= j < |ls| && AllowedOpenedBetween(ls, 0, j) && !ls[j].opens && ls[j].item == Some(x);
    AllowedItemOnLines(lines, x, j);
  }

  lemma AllowedItemOnLines(lines: seq<string>, x: string, j: nat)
    requires var ls := AllowedLines(lines);
      j < |ls| && AllowedOpenedBetween(ls, 0, j) && !ls[j].opens && ls[j].item == Some(x)
    ensures IsAllowedItem(lines, x)
  {
    var ls := AllowedLines(lines);
    var o :| 0 <= o < j && ls[o].opens;
    assert ls[o] == AllowedLineOf(lines[o]) && ls[j] == AllowedLineOf(lines[j]);
    assert AllowedItemAt(lines, x, o, j);
  }

  /** Every kept list item after an opening line, with no line inside the section
      speaking of denial before it, is among the collected actions. */
  lemma {:induction false} AllowedScanCollects(ls: seq<AllowedLine>, i: nat, inSection: bool, j: nat)
    requires i <= j < |ls|
    requires inSection || AllowedOpenedBetween(ls, i, j)
    requires forall m :: i <= m < j ==> ls[m].opens || !ls[m].denial
    requires !ls[j].opens && ls[j].item.Some?
    ensures ls[j].item.value in AllowedScan(ls, i, inSection)
    decreases j - i
  {
    if i == j {
      assert AllowedPush(ls[j], inSection) == [ls[j].item.value];
    } else if ls[i].opens {
      AllowedScanCollects(ls, i + 1, true, j);
    } else {
      if !inSection {
        var o :| i <= o < j && ls[o].opens;
        assert o != i;
        assert AllowedOpenedBetween(ls, i + 1, j);
      }
      AllowedScanCollects(ls, i + 1, inSection, j);
    }
  }

  /** The converse: a kept list item after an opening line, with no line ending the scan
      before it, is collected. */
  lemma AllowedCollectsListItems(lines: seq<string>, o: nat, j: nat)
    requires o < j < |lines| && OpensAllowed(lines[o])
    requires forall m :: 0 <= m < j ==> !StopsAllowed(lines[m])
    requires !OpensAllowed(lines[j]) && IsListLine(lines[j]) && KeepsAllowed(CleanItem(lines[j]))
    ensures CleanItem(lines[j]) in AllowedOfLines(lines)
  {
    var ls := AllowedLines(lines);
    assert ls[o] == AllowedLineOf(lines[o]) && ls[j] == AllowedLineOf(lines[j]);
    forall m | 0 <= m < j
      ensures ls[m].opens || !ls[m].denial
    {
      assert ls[m] == AllowedLineOf(lines[m]);
    }
    AllowedScanCollects(ls, 0, false, j);
  }

  // ---------- extractDeniedActions ----------

  /** A line that opens the denied section. */
  predicate OpensDenied(line: string) {
    Contains(line, "불가능") || Contains(line, "denied") || Contains(line, "Deny")
  }

  /** What the denied scan reads off one line: whether it opens the section and the item
      it offers (a list line whose cleaned text is not empty). */
  datatype DeniedLine = DeniedLine(opens: bool, item: Option<string>)

  function DeniedLineOf(line: string): (l: DeniedLine)
    ensures l.item.Some? ==> IsListLine(line) && l.item.value == CleanItem(line) && l.item.value != ""
  {
    var item := CleanItem(line);
    DeniedLine(OpensDenied(line), if IsListLine(line) && item != "" then Some(item) else None)
  }

  function DeniedLines(lines: seq<string>): (ls: seq<DeniedLine>)
    ensures |ls| == |lines|
    ensures forall k :: 0 <= k < |lines| ==> ls[k] == DeniedLineOf(lines[k])
  {
    seq(|lines|, k requires 0 <= k < |lines| => DeniedLineOf(lines[k]))
  }

  function DeniedPush(l: DeniedLine, inSection: bool): seq<string> {
    if inSection && l.item.Some? then [l.item.value] else []
  }

  /** The actions the denied scan collects from line `i` on; it never stops early. */
  function DeniedScan(ls: seq<DeniedLine>, i: nat, inSection: bool): seq<string>
    decreases |ls| - i
  {
    if i >= |ls| then []
    else if ls[i].opens then DeniedScan(ls, i + 1, true)
    else DeniedPush(ls[i], inSection) + DeniedScan(ls, i + 1, inSection)
  }

  function DeniedOfLines(lines: seq<string>): seq<string> {
    DeniedScan(DeniedLines(lines), 0, false)
  }

  function DeniedActions(text: string): seq<string> {
    FirstTen(DeniedOfLines(Split(text, '\n')))
  }

  /** `extractDeniedActions`: every non-empty list item after the first opening line, at
      most ten. */
  method ExtractDeniedActions(text: string) returns (actions: seq<string>)
    ensures actions == DeniedActions(text)
  {
    var lines := Split(text, '\n');
    var found: seq<string> := [];
    var inDeniedSection := false;
    var i := 0;
    while i < |lines|
      invariant 0 <= i <= |lines|
      invariant found + DeniedScan(DeniedLines(lines), i, inDeniedSection) == DeniedOfLines(lines)
    {
      ghost var before := found;
      ghost var wasIn := inDeniedSection;
      found, inDeniedSection := ScanDeniedLine(lines[i], inDeniedSection, found);
      DeniedScanStep(DeniedLines(lines), i, wasIn, before, found, inDeniedSection);
      i := i + 1;
    }
    actions := FirstTen(found);
  }

  /** The body of the loop of `ExtractDeniedActions` for one line; its `continue` is the
      early return. */
  method ScanDeniedLine(line: string, inSection: bool, found: seq<string>)
    returns (found': seq<string>, inSection': bool)
    ensures inSection' == (inSection || DeniedLineOf(line).opens)
    ensures found' == found + (if DeniedLineOf(line).opens then [] else DeniedPush(DeniedLineOf(line), inSection))
  {
    found', inSection' := found, inSection;
    if OpensDenied(line) {
      inSection' := true;
      return;
    }
    if inSection && IsListLine(line) {
      var action := CleanItem(line);
      if action != "" {
        found' := found + [action];
        assert DeniedLineOf(line) == DeniedLine(false, Some(action));
      } else {
        assert DeniedLineOf(line) == DeniedLine(false, None);
        assert found' == found + [];
      }
    } else {
      assert DeniedPush(DeniedLineOf(line), inSection) == [];
      assert found' == found + [];
    }
  }

  /** One step of the denied scan over the classified lines. */
  lemma DeniedScanStep(ls: seq<DeniedLine>, i: nat, inSection: bool, found: seq<string>,
                       found': seq<string>, inSection': bool)
    requires i < |ls|
    requires inSection' == (inSection || ls[i].opens)
    requires found' == found + (if ls[i].opens then [] else DeniedPush(ls[i], inSection))
    ensures found' + DeniedScan(ls, i + 1, inSection') == found + DeniedScan(ls, i, inSection)
  {
    if !ls[i].opens {
      AppendAssoc(found, DeniedPush(ls[i], inSection), DeniedScan(ls, i + 1, inSection));
    } else {
      assert found' == found;
    }
  }

  /** Some line in `[i, j)` opens the denied section. */
  predicate DeniedOpenedBetween(ls: seq<DeniedLine>, i: nat, j: nat)
    requires j <= |ls|
  {
    exists o :: i <= o < j && ls[o].opens
  }

  /** The denied scan collects exactly the items of the lines that follow an opening line
      and do not open the section themselves. */
  lemma {:induction false} DeniedScanItems(ls: seq<DeniedLine>, i: nat, inSection: bool)
    ensures forall x :: x in DeniedScan(ls, i, inSection) <==>
      exists j :: i <= j < |ls| && (inSection || DeniedOpenedBetween(ls, i, j))
        && !ls[j].opens && ls[j].item == Some(x)
    decreases |ls| - i
  {
    if i < |ls| {
      var b := ls[i].opens || inSection;
      DeniedScanItems(ls, i + 1, b);
      forall x
        ensures x in DeniedScan(ls, i, inSection) <==>
          exists j :: i <= j < |ls| && (inSection || DeniedOpenedBetween(ls, i, j))
            && !ls[j].opens && ls[j].item == Some(x)
      {
        if x in DeniedScan(ls, i, inSection) {
          if x in DeniedPush(ls[i], inSection) && !ls[i].opens {
            assert ls[i].item == Some(x);
          } else {
            assert x in DeniedScan(ls, i + 1, b);
            var j :| i + 1 <= j < |ls| && (b || DeniedOpenedBetween(ls, i + 1, j))
              && !ls[j].opens && ls[j].item == Some(x);
            if !inSection && !ls[i].opens {
              var o :| i + 1 <= o < j && ls[o].opens;
            }
            assert inSection || DeniedOpenedBetween(ls, i, j);
          }
        }
        if exists j :: i <= j < |ls| && (inSection || DeniedOpenedBetween(ls, i, j))
            && !ls[j].opens && ls[j].item == Some(x) {
          var j :| i <= j < |ls| && (inSection || DeniedOpenedBetween(ls, i, j))
            && !ls[j].opens && ls[j].item == Some(x);
          if j == i {
            assert DeniedScan(ls, i, inSection) == [x] + DeniedScan(ls, i + 1, inSection);
          } else {
            if !inSection && !ls[i].opens {
              var o :| i <= o < j && ls[o].opens;
              assert o != i;
              assert DeniedOpenedBetween(ls, i + 1, j);
            }
            assert x in DeniedScan(ls, i + 1, b);
          }
        }
      }
    }
  }

  /** A denied line item, read back on the lines: it follows an opening line, does not
      open the section itself, and is the non-empty cleaned text of a list line. */
  predicate DeniedItemAt(lines: seq<string>, x: string, o: nat, j: nat) {
    0 <= o < j < |lines| && OpensDenied(lines[o])
    && !OpensDenied(lines[j]) && IsListLine(lines[j]) && x == CleanItem(lines[j]) && x != ""
  }

  /** Before truncation, the denied actions are exactly the non-empty cleaned list items
      of the lines after an opening line that do not open the section themselves. */
  lemma DeniedActionsAreListItems(lines: seq<string>)
    ensures forall x :: x in DeniedOfLines(lines) <==> exists o, j :: DeniedItemAt(lines, x, o, j)
  {
    var ls := DeniedLines(lines);
    DeniedScanItems(ls, 0, false);
    forall x
      ensures x in DeniedOfLines(lines) <==> exists o, j :: DeniedItemAt(lines, x, o, j)
    {
      if x in DeniedOfLines(lines) {
        var j :| 0 <= j < |ls| && DeniedOpenedBetween(ls, 0, j) && !ls[j].opens && ls[j].item == Some(x);
        DeniedItemOnLines(lines, x, j);
      }
      if exists o, j :: DeniedItemAt(lines, x, o, j) {
        var o, j :| DeniedItemAt(lines, x, o, j);
        DeniedItemOnScan(lines, x, o, j);
      }
    }
  }

  lemma DeniedItemOnLines(lines: seq<string>, x: string, j: nat)
    requires var ls := DeniedLines(lines);
      j < |ls| && DeniedOpenedBetween(ls, 0, j) && !ls[j].opens && ls[j].item == Some(x)
    ensures exists o :: DeniedItemAt(lines, x, o, j)
  {
    var ls := DeniedLines(lines);
    var o :| 0 <= o < j && ls[o].opens;
    assert ls[o] == DeniedLineOf(lines[o]) && ls[j] == DeniedLineOf(lines[j]);
    assert DeniedItemAt(lines, x, o, j);
  }

  lemma DeniedItemOnScan(lines: seq<string>, x: string, o: nat, j: nat)
    requires DeniedItemAt(lines, x, o, j)
    ensures var ls := DeniedLines(lines);
      DeniedOpenedBetween(ls, 0, j) && !ls[j].opens && ls[j].item == Some(x)
  {
    var ls := DeniedLines(lines);
    assert ls[o] == DeniedLineOf(lines[o]) && ls[j] == DeniedLineOf(lines[j]);
  }

  // ---------- extractSecurityIssues ----------

  /** One security issue as the salvager records it. */
  datatype SecurityIssue = SecurityIssue(severity: string, issue: string, recommendation: string)

  /** The severity a line announces: the High group is tested first, then Medium, then Low. */
  function SeverityOf(line: string): (s: Option<string>)
    ensures s.Some? ==> s.value == "High" || s.value == "Medium" || s.value == "Low"
  {
    if Contains(line, "High") || Contains(line, "높음") || Contains(line, "심각") then Some("High")
    else if Contains(line, "Medium") || Contains(line, "중간") then Some("Medium")
    else if Contains(line, "Low") || Contains(line, "낮음") then Some("Low")
    else None
  }

  /** A line that describes the issue. */
  predicate NamesIssue(line: string) {
    Contains(line, "이슈") || Contains(line, "문제") || Contains(line, "취약점")
  }

  /** A line that gives the recommendation. */
  predicate NamesRecommendation(line: string) {
    Contains(line, "권장") || Contains(line, "개선") || Contains(line, "recommendation")
  }

  /** What the issue scan reads off one line: the severity it announces, and the cleaned
      text it offers as issue description and as recommendation. */
  datatype IssueLine = IssueLine(severity: Option<string>, issue: Option<string>, recommendation: Option<string>)

  function IssueLineOf(line: string): IssueLine {
    IssueLine(
      SeverityOf(line),
      if NamesIssue(line) then Some(CleanItem(line)) else None,
      if NamesRecommendation(line) then Some(CleanItem(line)) else None)
  }

  function IssueLines(lines: seq<string>): (ls: seq<IssueLine>)
    ensures |ls| == |lines|
    ensures forall k :: 0 <= k < |lines| ==> ls[k] == IssueLineOf(lines[k])
  {
    seq(|lines|, k requires 0 <= k < |lines| => IssueLineOf(lines[k]))
  }

  /** The open issue after a line: a severity line opens a fresh one, then the line's
      description and recommendation overwrite those of the open issue. */
  function Annotate(current: Option<SecurityIssue>, l: IssueLine): Option<SecurityIssue> {
    var started := if l.severity.Some? then Some(SecurityIssue(l.severity.value, "", "")) else current;
    match started
    case None => None
    case Some(c) =>
      var c' := if l.issue.Some? then c.(issue := l.issue.value) else c;
      Some(if l.recommendation.Some? then c'.(recommendation := l.recommendation.value) else c')
  }

  /** The issues the scan pushes from line `i` on, given the issue open before it: a
      severity line closes the open issue, and the last one is closed at the end. */
  function IssueScan(ls: seq<IssueLine>, i: nat, current: Option<SecurityIssue>): seq<SecurityIssue>
    decreases |ls| - i
  {
    if i >= |ls| then (if current.Some? then [current.value] else [])
    else
      (if ls[i].severity.Some? && current.Some? then [current.value] else [])
      + IssueScan(ls, i + 1, Annotate(current, ls[i]))
  }

  function IssuesOfLines(lines: seq<string>): seq<SecurityIssue> {
    IssueScan(IssueLines(lines), 0, None)
  }

  function SecurityIssues(text: string): seq<SecurityIssue> {
    FirstTen(IssuesOfLines(Split(text, '\n')))
  }

  /** `extractSecurityIssues`: each severity line starts an issue, later description and
      recommendation lines fill it in, and at most ten issues are kept. */
  method ExtractSecurityIssues(text: string) returns (issues: seq<SecurityIssue>)
    ensures issues == SecurityIssues(text)
  {
    var lines := Split(text, '\n');
    var found: seq<SecurityIssue> := [];
    var currentIssue: Option<SecurityIssue> := None;
    var i := 0;
    while i < |lines|
      invariant 0 <= i <= |lines|
      invariant found + IssueScan(IssueLines(lines), i, currentIssue) == IssuesOfLines(lines)
    {
      var line := lines[i];
      IssueStep(lines, i, currentIssue, found);
      if Contains(line, "High") || Contains(line, "높음") || Contains(line, "심각") {
        if currentIssue.Some? {
          found := found + [currentIssue.value];
        }
        currentIssue := Some(SecurityIssue("High", "", ""));
      } else if Contains(line, "Medium") || Contains(line, "중간") {
        if currentIssue.Some? {
          found := found + [currentIssue.value];
        }
        currentIssue := Some(SecurityIssue("Medium", "", ""));
      } else if Contains(line, "Low") || Contains(line, "낮음") {
        if currentIssue.Some? {
          found := found + [currentIssue.value];
        }
        currentIssue := Some(SecurityIssue("Low", "", ""));
      }
      if currentIssue.Some? && NamesIssue(line) {
        currentIssue := Some(currentIssue.value.(issue := CleanItem(line)));
      }
      if currentIssue.Some? && NamesRecommendation(line) {
        currentIssue := Some(currentIssue.value.(recommendation := CleanItem(line)));
      }
      i := i + 1;
    }
    if currentIssue.Some? {
      found := found + [currentIssue.value];
    }
    issues := FirstTen(found);
  }

  /** One step of the scan, in the terms the loop of `ExtractSecurityIssues` tests. */
  lemma IssueStep(lines: seq<string>, i: nat, current: Option<SecurityIssue>, found: seq<SecurityIssue>)
    requires i < |lines|
    ensures var ls := IssueLines(lines);
      var line := lines[i];
      var sev := SeverityOf(line);
      var started := if sev.Some? then Some(SecurityIssue(sev.value, "", "")) else current;
      var described := if started.Some? && NamesIssue(line) then Some(started.value.(issue := CleanItem(line))) else started;
      var advised := if described.Some? && NamesRecommendation(line)
        then Some(described.value.(recommendation := CleanItem(line))) else described;
      var found' := if sev.Some? && current.Some? then found + [current.value] else found;
      found' + IssueScan(ls, i + 1, advised) == found + IssueScan(ls, i, current)
  {
    var ls := IssueLines(lines);
    assert ls[i] == IssueLineOf(lines[i]);
    var flushed := if ls[i].severity.Some? && current.Some? then [current.value] else [];
    AppendAssoc(found, flushed, IssueScan(ls, i + 1, Annotate(current, ls[i])));
  }

  /** The severities announced by the lines from `i` on, in order. */
  function SeverityTags(ls: seq<IssueLine>, i: nat): seq<string>
    decreases |ls| - i
  {
    if i >= |ls| then []
    else (if ls[i].severity.Some? then [ls[i].severity.value] else []) + SeverityTags(ls, i + 1)
  }

  function Severities(issues: seq<SecurityIssue>): (s: seq<string>)
    ensures |s| == |issues|
  {
    if issues == [] then [] else [issues[0].severity] + Severities(issues[1..])
  }

  lemma SeveritiesAppend(a: seq<SecurityIssue>, b: seq<SecurityIssue>)
    ensures Severities(a + b) == Severities(a) + Severities(b)
  {
    if a == [] {
      assert a + b == b;
    } else {
      assert (a + b)[1..] == a[1..] + b;
      SeveritiesAppend(a[1..], b);
    }
  }

  /** The pushed issues carry, in order, the severities the lines announce: one issue per
      severity line. */
  lemma {:induction false} IssueScanSeverities(ls: seq<IssueLine>, i: nat, current: Option<SecurityIssue>)
    ensures Severities(IssueScan(ls, i, current))
         == (if current.Some? then [current.value.severity] else []) + SeverityTags(ls, i)
    decreases |ls| - i
  {
    if i < |ls| {
      IssueScanSeverities(ls, i + 1, Annotate(current, ls[i]));
      if ls[i].severity.Some? {
        SeverityLineSeverities(ls, i, current);
      } else {
        PlainLineSeverities(ls, i, current);
      }
    }
  }

  /** A severity line closes the open issue and opens one with its own severity. */
  lemma SeverityLineSeverities(ls: seq<IssueLine>, i: nat, current: Option<SecurityIssue>)
    requires i < |ls| && ls[i].severity.Some?
    requires Severities(IssueScan(ls, i + 1, Annotate(current, ls[i])))
          == [ls[i].severity.value] + SeverityTags(ls, i + 1)
    ensures Severities(IssueScan(ls, i, current))
         == (if current.Some? then [current.value.severity] else []) + SeverityTags(ls, i)
  {
    var flushed := if current.Some? then [current.value] else [];
    var rest := IssueScan(ls, i + 1, Annotate(current, ls[i]));
    assert IssueScan(ls, i, current) == flushed + rest;
    SeveritiesAppend(flushed, rest);
    var head := if current.Some? then [current.value.severity] else [];
    assert Severities(flushed) == head;
    assert SeverityTags(ls, i) == [ls[i].severity.value] + SeverityTags(ls, i + 1);
    AppendAssoc(head, [ls[i].severity.value], SeverityTags(ls, i + 1));
  }

  /** Any other line leaves the open issue's severity, and whether one is open, as it was. */
  lemma PlainLineSeverities(ls: seq<IssueLine>, i: nat, current: Option<SecurityIssue>)
    requires i < |ls| && ls[i].severity.None?
    requires var next := Annotate(current, ls[i]);
      Severities(IssueScan(ls, i + 1, next))
        == (if next.Some? then [next.value.severity] else []) + SeverityTags(ls, i + 1)
    ensures Severities(IssueScan(ls, i, current))
         == (if current.Some? then [current.value.severity] else []) + SeverityTags(ls, i)
  {
    var next := Annotate(current, ls[i]);
    assert next.Some? == current.Some?;
    assert next.Some? ==> next.value.severity == current.value.severity;
    assert IssueScan(ls, i, current) == IssueScan(ls, i + 1, next) by {
      assert [] + IssueScan(ls, i + 1, next) == IssueScan(ls, i + 1, next);
    }
    assert SeverityTags(ls, i) == SeverityTags(ls, i + 1) by {
      assert [] + SeverityTags(ls, i + 1) == SeverityTags(ls, i + 1);
    }
    assert (if next.Some? then [next.value.severity] else [])
        == (if current.Some? then [current.value.severity] else []);
  }

  /** Every severity tag comes from a line that announces it. */
  lemma {:induction false} SeverityTagSource(ls: seq<IssueLine>, i: nat, k: nat)
    requires k < |SeverityTags(ls, i)|
    ensures exists j :: i <= j < |ls| && ls[j].severity == Some(SeverityTags(ls, i)[k])
    decreases |ls| - i
  {
    if ls[i].severity.Some? && k == 0 {
      assert ls[i].severity == Some(SeverityTags(ls, i)[0]);
    } else {
      var shift := if ls[i].severity.Some? then 1 else 0;
      SeverityTagSource(ls, i + 1, k - shift);
      assert SeverityTags(ls, i)[k] == SeverityTags(ls, i + 1)[k - shift];
    }
  }

  /** The issues are one per severity line, in order, with that line's severity, which is
      High, Medium or Low; at most ten are kept. */
  lemma SecurityIssuesFollowSeverityLines(text: string)
    ensures var lines := Split(text, '\n');
      var tags := SeverityTags(IssueLines(lines), 0);
      var issues := SecurityIssues(text);
      && |issues| == (if |tags| <= 10 then |tags| else 10)
      && forall k :: 0 <= k < |issues| ==>
           && issues[k].severity == tags[k]
           && (tags[k] == "High" || tags[k] == "Medium" || tags[k] == "Low")
           && exists j :: 0 <= j < |lines| && SeverityOf(lines[j]) == Some(tags[k])
  {
    var lines := Split(text, '\n');
    var ls := IssueLines(lines);
    var tags := SeverityTags(ls, 0);
    var all := IssuesOfLines(lines);
    IssueScanSeverities(ls, 0, None);
    assert Severities(all) == tags;
    var issues := SecurityIssues(text);
    forall k | 0 <= k < |issues|
      ensures && issues[k].severity == tags[k]
        && (tags[k] == "High" || tags[k] == "Medium" || tags[k] == "Low")
        && exists j :: 0 <= j < |lines| && SeverityOf(lines[j]) == Some(tags[k])
    {
      assert issues[k] == all[k];
      SeverityOfIndex(all, k);
      SeverityTagSource(ls, 0, k);
      var j :| 0 <= j < |ls| && ls[j].severity == Some(tags[k]);
      assert ls[j] == IssueLineOf(lines[j]);
    }
  }

  lemma SeverityOfIndex(issues: seq<SecurityIssue>, k: nat)
    requires k < |issues|
    ensures Severities(issues)[k] == issues[k].severity
  {
    if k > 0 {
      SeverityOfIndex(issues[1..], k - 1);
    }
  }

  // An independent description of the issues by spans: each severity line opens a span
  // that runs up to the next severity line, and the issue it yields holds the text of the
  // last line in the span naming each field. The spans are read off the classified lines.

  /** What a classified line offers for the recommendation (`rec`) or the description. */
  function Field(l: IssueLine, rec: bool): Option<string> {
    if rec then l.recommendation else l.issue
  }

  /** The text of the last line in `[s, e)` offering the field, or "" when none does. */
  function LastText(ls: seq<IssueLine>, s: nat, e: nat, rec: bool): string
    requires e <= |ls|
    decreases e
  {
    if e <= s then ""
    else if Field(ls[e - 1], rec).Some? then Field(ls[e - 1], rec).value
    else LastText(ls, s, e - 1, rec)
  }

  /** `LastText` is "" when no line of the span offers the field, and otherwise the text
      of the one line offering it with no later line in the span doing so. */
  lemma {:induction false} LastTextIsLast(ls: seq<IssueLine>, s: nat, e: nat, rec: bool)
    requires e <= |ls|
    ensures (forall j :: s <= j < e ==> Field(ls[j], rec).None?) ==> LastText(ls, s, e, rec) == ""
    ensures forall j :: s <= j < e && Field(ls[j], rec).Some?
                        && (forall j' :: j < j' < e ==> Field(ls[j'], rec).None?)
                        ==> LastText(ls, s, e, rec) == Field(ls[j], rec).value
    decreases e
  {
    if s < e && Field(ls[e - 1], rec).None? {
      LastTextIsLast(ls, s, e - 1, rec);
    }
  }

  /** The first severity line at or after `i`, or `|ls|` when there is none. */
  function NextSeverity(ls: seq<IssueLine>, i: nat): (n: nat)
    requires i <= |ls|
    ensures i <= n <= |ls|
    ensures n < |ls| ==> ls[n].severity.Some?
    ensures forall j :: i <= j < n ==> ls[j].severity.None?
    decreases |ls| - i
  {
    if i == |ls| then |ls|
    else if ls[i].severity.Some? then i
    else NextSeverity(ls, i + 1)
  }

  /** The positions of the severity lines from `i` on, in increasing order. */
  function SeverityIndices(ls: seq<IssueLine>, i: nat): (idx: seq<nat>)
    requires i <= |ls|
    ensures forall k :: 0 <= k < |idx| ==> i <= idx[k] < |ls| && ls[idx[k]].severity.Some?
    ensures forall k :: 0 < k < |idx| ==> idx[k - 1] < idx[k]
    decreases |ls| - i
  {
    var n := NextSeverity(ls, i);
    if n == |ls| then [] else [n] + SeverityIndices(ls, n + 1)
  }

  /** Where the span of the `k`-th severity line ends: at the next one, else at the end. */
  function SpanEnd(idx: seq<nat>, k: nat, n: nat): nat {
    if k + 1 < |idx| then idx[k + 1] else n
  }

  /** The issue the span `[s, e)` yields. */
  function SpanIssue(ls: seq<IssueLine>, s: nat, e: nat): SecurityIssue
    requires s < |ls| && e <= |ls| && ls[s].severity.Some?
  {
    SecurityIssue(ls[s].severity.value, LastText(ls, s, e, false), LastText(ls, s, e, true))
  }

  /** The issues of the spans opened from line `i` on. */
  function Spans(ls: seq<IssueLine>, i: nat): seq<SecurityIssue>
    requires i <= |ls|
    decreases |ls| - i
  {
    var n := NextSeverity(ls, i);
    if n == |ls| then [] else [SpanIssue(ls, n, NextSeverity(ls, n + 1))] + Spans(ls, n + 1)
  }

  /** A severity line opens the issue of its own one-line span. */
  lemma AnnotateOpensSpan(ls: seq<IssueLine>, i: nat, current: Option<SecurityIssue>)
    requires i < |ls| && ls[i].severity.Some?
    ensures Annotate(current, ls[i]) == Some(SpanIssue(ls, i, i + 1))
  {
    assert LastText(ls, i, i, false) == "" && LastText(ls, i, i, true) == "";
  }

  /** Any other line extends the open issue's span by one line. */
  lemma AnnotateExtendsSpan(ls: seq<IssueLine>, s: nat, i: nat)
    requires s < i < |ls| && ls[s].severity.Some? && ls[i].severity.None?
    ensures Annotate(Some(SpanIssue(ls, s, i)), ls[i]) == Some(SpanIssue(ls, s, i + 1))
  {
  }

  lemma SpansFrom(ls: seq<IssueLine>, s: nat)
    requires s < |ls| && ls[s].severity.Some?
    ensures Spans(ls, s) == [SpanIssue(ls, s, NextSeverity(ls, s + 1))] + Spans(ls, s + 1)
  {
    assert NextSeverity(ls, s) == s;
  }

  lemma SpansSameNext(ls: seq<IssueLine>, a: nat, b: nat)
    requires a <= |ls| && b <= |ls| && NextSeverity(ls, a) == NextSeverity(ls, b)
    ensures Spans(ls, a) == Spans(ls, b)
  {
  }

  /** With the issue of line `s` open at line `i`, and no severity line in between, the
      scan yields the spans from `s` on. */
  lemma {:induction false} ScanOpenSpan(ls: seq<IssueLine>, s: nat, i: nat)
    requires s < i <= |ls| && ls[s].severity.Some? && i <= NextSeverity(ls, s + 1)
    ensures IssueScan(ls, i, Some(SpanIssue(ls, s, i))) == Spans(ls, s)
    decreases |ls| - i
  {
    if i == |ls| {
      ScanOpenSpanAtEnd(ls, s);
    } else if ls[i].severity.Some? {
      ScanOpenSpan(ls, i, i + 1);
      ScanOpenSpanCloses(ls, s, i);
    } else {
      ScanOpenSpan(ls, s, i + 1);
      ScanOpenSpanExtends(ls, s, i);
    }
  }

  lemma ScanOpenSpanAtEnd(ls: seq<IssueLine>, s: nat)
    requires s < |ls| && ls[s].severity.Some? && NextSeverity(ls, s + 1) == |ls|
    ensures IssueScan(ls, |ls|, Some(SpanIssue(ls, s, |ls|))) == Spans(ls, s)
  {
    SpansFrom(ls, s);
  }

  lemma ScanOpenSpanCloses(ls: seq<IssueLine>, s: nat, i: nat)
    requires s < i < |ls| && ls[s].severity.Some? && ls[i].severity.Some? && i <= NextSeverity(ls, s + 1)
    requires IssueScan(ls, i + 1, Some(SpanIssue(ls, i, i + 1))) == Spans(ls, i)
    ensures IssueScan(ls, i, Some(SpanIssue(ls, s, i))) == Spans(ls, s)
  {
    var cur := Some(SpanIssue(ls, s, i));
    SpansFrom(ls, s);
    assert NextSeverity(ls, s + 1) == i;
    AnnotateOpensSpan(ls, i, cur);
    assert NextSeverity(ls, i) == i;
    SpansSameNext(ls, s + 1, i);
    assert IssueScan(ls, i, cur) == [cur.value] + IssueScan(ls, i + 1, Some(SpanIssue(ls, i, i + 1)));
  }

  lemma ScanOpenSpanExtends(ls: seq<IssueLine>, s: nat, i: nat)
    requires s < i < |ls| && ls[s].severity.Some? && ls[i].severity.None?
    requires IssueScan(ls, i + 1, Some(SpanIssue(ls, s, i + 1))) == Spans(ls, s)
    ensures IssueScan(ls, i, Some(SpanIssue(ls, s, i))) == Spans(ls, s)
  {
    AnnotateExtendsSpan(ls, s, i);
    assert IssueScan(ls, i, Some(SpanIssue(ls, s, i))) == [] + IssueScan(ls, i + 1, Some(SpanIssue(ls, s, i + 1)));
  }

  /** With no issue open at line `i`, the scan yields the spans from `i` on. */
  lemma {:induction false} ScanFromNone(ls: seq<IssueLine>, i: nat)
    requires i <= |ls|
    ensures IssueScan(ls, i, None) == Spans(ls, i)
    decreases |ls| - i
  {
    if i < |ls| {
      if ls[i].severity.Some? {
        AnnotateOpensSpan(ls, i, None);
        ScanOpenSpan(ls, i, i + 1);
        SpansFrom(ls, i);
        assert IssueScan(ls, i, None) == IssueScan(ls, i + 1, Some(SpanIssue(ls, i, i + 1)));
      } else {
        ScanFromNone(ls, i + 1);
        assert NextSeverity(ls, i) == NextSeverity(ls, i + 1);
        SpansSameNext(ls, i, i + 1);
      }
    }
  }

  lemma {:induction false} SpansLength(ls: seq<IssueLine>, i: nat)
    requires i <= |ls|
    ensures |Spans(ls, i)| == |SeverityIndices(ls, i)|
    decreases |ls| - i
  {
    var n := NextSeverity(ls, i);
    if n < |ls| {
      SpansLength(ls, n + 1);
    }
  }

  /** The `k`-th span runs from the `k`-th severity line up to the next one. */
  lemma {:induction false} SpansAt(ls: seq<IssueLine>, i: nat, k: nat)
    requires i <= |ls| && k < |SeverityIndices(ls, i)|
    ensures SpanAt(ls, SeverityIndices(ls, i), Spans(ls, i), k)
    decreases |ls| - i
  {
    var n := NextSeverity(ls, i);
    SpansLength(ls, i);
    if k == 0 {
      FirstSpan(ls, i);
    } else {
      SpansAt(ls, n + 1, k - 1);
      LaterSpan(ls, i, k);
    }
  }

  /** The `k`-th entry of `all` is the issue of the span of the `k`-th index in `idx`. */
  predicate SpanAt(ls: seq<IssueLine>, idx: seq<nat>, all: seq<SecurityIssue>, k: nat) {
    var e := SpanEnd(idx, k, |ls|);
    && k < |idx| && k < |all|
    && idx[k] < e <= |ls|
    && ls[idx[k]].severity.Some?
    && (forall j :: idx[k] < j < e ==> ls[j].severity.None?)
    && all[k] == SpanIssue(ls, idx[k], e)
  }

  lemma FirstSpan(ls: seq<IssueLine>, i: nat)
    requires i <= |ls| && 0 < |SeverityIndices(ls, i)|
    ensures SpanAt(ls, SeverityIndices(ls, i), Spans(ls, i), 0)
  {
    var idx := SeverityIndices(ls, i);
    var n := NextSeverity(ls, i);
    var rest := SeverityIndices(ls, n + 1);
    assert idx == [n] + rest;
    var m := NextSeverity(ls, n + 1);
    if rest == [] {
      assert m == |ls|;
    } else {
      assert rest[0] == m;
    }
    assert SpanEnd(idx, 0, |ls|) == m;
  }

  lemma LaterSpan(ls: seq<IssueLine>, i: nat, k: nat)
    requires i <= |ls| && 0 < k < |SeverityIndices(ls, i)|
    requires NextSeverity(ls, i) < |ls|
    requires SpanAt(ls, SeverityIndices(ls, NextSeverity(ls, i) + 1), Spans(ls, NextSeverity(ls, i) + 1), k - 1)
    ensures SpanAt(ls, SeverityIndices(ls, i), Spans(ls, i), k)
  {
    var idx := SeverityIndices(ls, i);
    var n := NextSeverity(ls, i);
    var rest := SeverityIndices(ls, n + 1);
    assert idx == [n] + rest;
    assert Spans(ls, i) == [SpanIssue(ls, n, NextSeverity(ls, n + 1))] + Spans(ls, n + 1);
    assert SpanEnd(idx, k, |ls|) == SpanEnd(rest, k - 1, |ls|);
  }

  /** The scan yields one issue per severity line, in order: the span of each runs up to
      the next severity line, and no line before the first one announces a severity. */
  lemma IssueScanSpans(ls: seq<IssueLine>)
    ensures var idx := SeverityIndices(ls, 0);
      var all := IssueScan(ls, 0, None);
      && |all| == |idx|
      && (forall j :: 0 <= j < |ls| && (idx == [] || j < idx[0]) ==> ls[j].severity.None?)
      && forall k :: 0 <= k < |idx| ==> SpanAt(ls, idx, all, k)
  {
    var idx := SeverityIndices(ls, 0);
    ScanFromNone(ls, 0);
    SpansLength(ls, 0);
    assert idx != [] ==> idx[0] == NextSeverity(ls, 0);
    forall k | 0 <= k < |idx|
      ensures SpanAt(ls, idx, Spans(ls, 0), k)
    {
      SpansAt(ls, 0, k);
    }
  }

  /** The issues of the reply's lines (`SecurityIssues` keeps the first ten) are the spans
      of its severity lines, in order. The `k`-th issue has the severity of the `k`-th
      severity line. Its description and recommendation are the text of the last line
      naming them before the next severity line, or "" when no such line lies in the span
      (`LastText`, `LastTextIsLast`, `FieldOfLine`); a naming line in another issue's span
      does not count. */
  lemma SecurityIssueSpans(lines: seq<string>)
    ensures var ls := IssueLines(lines);
      var idx := SeverityIndices(ls, 0);
      var all := IssuesOfLines(lines);
      && |all| == |idx|
      && (forall j :: 0 <= j < |lines| && (idx == [] || j < idx[0]) ==> SeverityOf(lines[j]).None?)
      && forall k :: 0 <= k < |idx| ==>
           var e := SpanEnd(idx, k, |lines|);
           && idx[k] < e <= |lines|
           && (forall j :: idx[k] < j < e ==> SeverityOf(lines[j]).None?)
           && all[k].severity == SeverityOf(lines[idx[k]]).value
           && all[k].issue == LastText(ls, idx[k], e, false)
           && all[k].recommendation == LastText(ls, idx[k], e, true)
  {
    var ls := IssueLines(lines);
    var idx := SeverityIndices(ls, 0);
    var all := IssuesOfLines(lines);
    IssueScanSpans(ls);
    SeverityOfLines(lines);
    forall k | 0 <= k < |idx|
      ensures var e := SpanEnd(idx, k, |lines|);
        && idx[k] < e <= |lines|
        && (forall j :: idx[k] < j < e ==> SeverityOf(lines[j]).None?)
        && all[k].severity == SeverityOf(lines[idx[k]]).value
        && all[k].issue == LastText(ls, idx[k], e, false)
        && all[k].recommendation == LastText(ls, idx[k], e, true)
    {
      assert SpanAt(ls, idx, all, k);
    }
  }

  /** A classified line carries the severity its reply line announces. */
  lemma SeverityOfLines(lines: seq<string>)
    ensures forall j :: 0 <= j < |lines| ==> IssueLines(lines)[j].severity == SeverityOf(lines[j])
  {
    forall j | 0 <= j < |lines|
      ensures IssueLines(lines)[j].severity == SeverityOf(lines[j])
    {
      assert IssueLines(lines)[j] == IssueLineOf(lines[j]);
    }
  }

  /** A classified line offers a field exactly when the reply line names it, and then
      offers that line's cleaned text. */
  lemma FieldOfLine(lines: seq<string>, j: nat, rec: bool)
    requires j < |lines|
    ensures Field(IssueLines(lines)[j], rec).Some? <==> NamesField(lines[j], rec)
    ensures NamesField(lines[j], rec) ==> Field(IssueLines(lines)[j], rec).value == CleanItem(lines[j])
  {
    assert IssueLines(lines)[j] == IssueLineOf(lines[j]);
  }

  /** A line naming the recommendation (`rec`) or the issue description (`!rec`). */
  predicate NamesField(line: string, rec: bool) {
    if rec then NamesRecommendation(line) else NamesIssue(line)
  }

  // ---------- extractRiskLevel ----------

  /** `extractRiskLevel`: the first of the High, Medium and Low keyword groups the reply
      mentions anywhere. */
  function ReplyRiskLevel(text: string): (level: string)
    ensures level == "High" || level == "Medium" || level == "Low"
  {
    if Contains(text, "High") || Contains(text, "높음") || Contains(text, "심각") then "High"
    else if Contains(text, "Medium") || Contains(text, "중간") || Contains(text, "보통") then "Medium"
    else "Low"
  }

  /** The overall risk level never sits below the issues found: a High issue makes the
      level High, and a Medium issue makes it High or Medium. */
  lemma RiskLevelCoversIssues(text: string)
    ensures forall x :: x in SecurityIssues(text) && x.severity == "High" ==> ReplyRiskLevel(text) == "High"
    ensures forall x :: x in SecurityIssues(text) && x.severity == "Medium" ==> ReplyRiskLevel(text) != "Low"
  {
    forall x | x in SecurityIssues(text)
      ensures x.severity == "High" ==> ReplyRiskLevel(text) == "High"
      ensures x.severity == "Medium" ==> ReplyRiskLevel(text) != "Low"
    {
      IssueSeverityInText(text, x);
    }
  }

  lemma IssueSeverityInText(text: string, x: SecurityIssue)
    requires x in SecurityIssues(text)
    ensures x.severity == "High" ==> ReplyRiskLevel(text) == "High"
    ensures x.severity == "Medium" ==> ReplyRiskLevel(text) != "Low"
  {
    var lines := Split(text, '\n');
    var issues := SecurityIssues(text);
    var k :| 0 <= k < |issues| && issues[k] == x;
    SecurityIssuesFollowSeverityLines(text);
    var j :| 0 <= j < |lines| && SeverityOf(lines[j]) == Some(x.severity);
    var line := lines[j];
    if Contains(line, "High") {
      LineWordInText(text, '\n', j, "High");
    } else if Contains(line, "높음") {
      LineWordInText(text, '\n', j, "높음");
    } else if Contains(line, "심각") {
      LineWordInText(text, '\n', j, "심각");
    } else if Contains(line, "Medium") {
      LineWordInText(text, '\n', j, "Medium");
    } else if Contains(line, "중간") {
      LineWordInText(text, '\n', j, "중간");
    }
  }
}
