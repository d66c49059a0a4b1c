/**
 Reading undoes printing: unified diffs as POSIX.1-2017 XCU `diff` prints them ("Diff -u or -U Output
 Format"), and what `FromPatch` recovers from the printed text
 (crates/sylvops-core/src/changes.rs:245-336).

 The expected numbering is defined without a running counter: the number of a body line is the start of
 its hunk plus the number of earlier lines that stand on the same side.
 */
module PrintedDiff {
  import opened Wrappers
  import opened Text
  import opened Changes

  /**
   `EmptyKept` is an empty unchanged line printed as an empty line, which POSIX leaves to the printer;
   `Remark` is a line about the text, such as the marker for a missing final newline.
   */
  datatype BodyLine =
    | Added(text: string)
    | Removed(text: string)
    | Kept(text: string)
    | EmptyKept
    | Remark(text: string)

  /** The counts are what the header prints; nothing below asks them to agree with the body. */
  datatype Hunk = Hunk(oldStart: nat, oldCount: nat, newStart: nat, newCount: nat, section: string, body: seq<BodyLine>)

  datatype Diff = Diff(heading: seq<string>, hunks: seq<Hunk>)

  // ----- printing ---------------------------------------------------------------------------------

  function BodyText(b: BodyLine): string {
    match b
    case Added(text) => "+" + text
    case Removed(text) => "-" + text
    case Kept(text) => " " + text
    case EmptyKept => ""
    case Remark(text) => text
  }

  function BodyTexts(body: seq<BodyLine>): (r: seq<string>)
    ensures |r| == |body|
  {
    seq(|body|, i requires 0 <= i < |body| => BodyText(body[i]))
  }

  predicate OnOldSide(b: BodyLine) {
    b.Removed? || b.Kept? || b.EmptyKept?
  }

  predicate OnNewSide(b: BodyLine) {
    b.Added? || b.Kept? || b.EmptyKept?
  }

  function OldLines(body: seq<BodyLine>): nat {
    if body == [] then 0
    else OldLines(body[..|body| - 1]) + if OnOldSide(body[|body| - 1]) then 1 else 0
  }

  function NewLines(body: seq<BodyLine>): nat {
    if body == [] then 0
    else NewLines(body[..|body| - 1]) + if OnNewSide(body[|body| - 1]) then 1 else 0
  }

  function Range(start: nat, count: nat): string {
    if count == 1 then Decimal(start) else Decimal(start) + "," + Decimal(count)
  }

  function HunkHead(h: Hunk): string {
    "@@ -" + Range(h.oldStart, h.oldCount) + " +" + Range(h.newStart, h.newCount) + " @@" + h.section
  }

  function OneHunkTexts(h: Hunk): seq<string> {
    [HunkHead(h)] + BodyTexts(h.body)
  }

  function HunkTexts(hunks: seq<Hunk>): seq<string> {
    if hunks == [] then [] else OneHunkTexts(hunks[0]) + HunkTexts(hunks[1..])
  }

  function Texts(d: Diff): seq<string> {
    d.heading + HunkTexts(d.hunks)
  }

  /** A patch may hold the diffs of several files, one after the other. */
  function PatchTexts(files: seq<Diff>): seq<string> {
    if files == [] then [] else Texts(files[0]) + PatchTexts(files[1..])
  }

  function Print(lines: seq<string>): string {
    if lines == [] then "" else lines[0] + "\n" + Print(lines[1..])
  }

  // ----- which diffs --------------------------------------------------------------------------------

  predicate Clean(s: string) {
    forall c | c in s :: !IsControl(c) || c == '\t'
  }

  predicate AllClean(lines: seq<string>) {
    forall i | 0 <= i < |lines| :: Clean(lines[i])
  }

  /** Line numbers are 32-bit. */
  predicate HunkNumbersFit(h: Hunk) {
    && h.oldStart < U32_RANGE && h.oldStart + OldLines(h.body) <= U32_RANGE
    && h.newStart < U32_RANGE && h.newStart + NewLines(h.body) <= U32_RANGE
  }

  predicate BodyLineFits(b: BodyLine) {
    Clean(BodyText(b)) && (b.Remark? ==> "\\" <= b.text)
  }

  predicate HunkFits(h: Hunk) {
    Clean(h.section) && HunkNumbersFit(h) && forall i | 0 <= i < |h.body| :: BodyLineFits(h.body[i])
  }

  predicate HeadingLine(line: string) {
    Clean(line) && !("@@ " <= line)
  }

  predicate WellFormed(d: Diff) {
    && (forall i | 0 <= i < |d.heading| :: HeadingLine(d.heading[i]))
    && (forall i | 0 <= i < |d.hunks| :: HunkFits(d.hunks[i]))
  }

  predicate StartsFile(d: Diff) {
    d.heading != [] && "diff --git " <= d.heading[0]
  }

  /** Every file but the first must say where it starts. */
  predicate WellFormedPatch(files: seq<Diff>) {
    && (forall i | 0 <= i < |files| :: WellFormed(files[i]))
    && (forall i | 0 < i < |files| :: StartsFile(files[i]))
  }

  /** The reading limits: 4000 lines, 8 KiB a line and text left in the budget whenever a line begins. */
  predicate LineFits(line: string, count: nat, budget: nat) {
    && count < 4_000 && 0 < budget
    && Utf8Length(StripCr(line)) <= 8_192
    && Utf8Length(Safe(StripCr(line))) <= Min(8_192, budget)
  }

  predicate Fits(lines: seq<string>, count: nat, budget: nat) {
    lines == []
    || (LineFits(lines[0], count, budget) && Fits(lines[1..], count + 1, budget - Utf8Length(Safe(StripCr(lines[0])))))
  }

  // ----- what a reader should see -------------------------------------------------------------------

  function BodyKindOf(b: BodyLine): LineKind {
    match b
    case Added(_) => Addition
    case Removed(_) => Deletion
    case Kept(_) => Context
    case EmptyKept => Context
    case Remark(_) => Notice
  }

  function BodyRow(h: Hunk, i: nat): ChangeLine
    requires i < |h.body|
  {
    var b := h.body[i];
    ChangeLine(BodyKindOf(b), BodyText(b),
      if OnOldSide(b) then Some(h.oldStart + OldLines(h.body[..i])) else None,
      if OnNewSide(b) then Some(h.newStart + NewLines(h.body[..i])) else None)
  }

  function BodyRows(h: Hunk, k: nat): (r: seq<ChangeLine>)
    requires k <= |h.body|
    ensures |r| == k
  {
    seq(k, i requires 0 <= i < k => BodyRow(h, i))
  }

  function HeadingRows(lines: seq<string>): (r: seq<ChangeLine>)
    ensures |r| == |lines|
  {
    seq(|lines|, i requires 0 <= i < |lines| => ChangeLine(Classify(lines[i]), lines[i], None, None))
  }

  function OneHunkRows(h: Hunk): seq<ChangeLine> {
    [ChangeLine(HunkHeader, HunkHead(h), None, None)] + BodyRows(h, |h.body|)
  }

  function HunkRows(hunks: seq<Hunk>): seq<ChangeLine> {
    if hunks == [] then [] else OneHunkRows(hunks[0]) + HunkRows(hunks[1..])
  }

  function AddedLines(body: seq<BodyLine>): nat {
    if body == [] then 0
    else AddedLines(body[..|body| - 1]) + if body[|body| - 1].Added? then 1 else 0
  }

  function RemovedLines(body: seq<BodyLine>): nat {
    if body == [] then 0
    else RemovedLines(body[..|body| - 1]) + if body[|body| - 1].Removed? then 1 else 0
  }

  function AddedInAll(hunks: seq<Hunk>): nat {
    if hunks == [] then 0 else AddedLines(hunks[0].body) + AddedInAll(hunks[1..])
  }

  function RemovedInAll(hunks: seq<Hunk>): nat {
    if hunks == [] then 0 else RemovedLines(hunks[0].body) + RemovedInAll(hunks[1..])
  }

  function FileRows(d: Diff): seq<ChangeLine> {
    HeadingRows(d.heading) + HunkRows(d.hunks)
  }

  function PatchRows(files: seq<Diff>): seq<ChangeLine> {
    if files == [] then [] else FileRows(files[0]) + PatchRows(files[1..])
  }

  function AddedInPatch(files: seq<Diff>): nat {
    if files == [] then 0 else AddedInAll(files[0].hunks) + AddedInPatch(files[1..])
  }

  function RemovedInPatch(files: seq<Diff>): nat {
    if files == [] then 0 else RemovedInAll(files[0].hunks) + RemovedInPatch(files[1..])
  }

  function Meaning(files: seq<Diff>, truncated: bool): FileChange {
    FileChange(PatchRows(files), AddedInPatch(files), RemovedInPatch(files), truncated)
  }

  // ----- splitting a printed text gives its lines back ----------------------------------------------

  lemma FirstIndexIs(s: string, c: char, i: nat)
    requires i <= |s| && (i < |s| ==> s[i] == c) && forall j | 0 <= j < i :: s[j] != c
    ensures FirstIndex(s, c) == i
  {
    var k := FirstIndex(s, c);
    assert k == |s| || s[k] == c;
    assert i == |s| || s[i] == c;
  }

  lemma {:induction false} SplitOfPrint(lines: seq<string>)
    requires AllClean(lines)
    ensures SplitTerminator(Print(lines)) == lines
  {
    if lines != [] {
      var s := Print(lines);
      var first := lines[0];
      assert s == first + ("\n" + Print(lines[1..]));
      assert s[|first|] == '\n';
      forall j | 0 <= j < |first| ensures s[j] != '\n' {
        assert s[j] == first[j] && first[j] in first && IsControl('\n');
      }
      FirstIndexIs(s, '\n', |first|);
      assert s[..|first|] == first && s[|first| + 1..] == Print(lines[1..]);
      SplitOfPrint(lines[1..]);
    }
  }

  // ----- clean text is kept as it is ------------------------------------------------------------------

  lemma {:induction false} SafeOfClean(s: string)
    requires Clean(s)
    ensures Safe(s) == s
  {
    if s != "" {
      assert s[0] in s;
      forall c | c in s[1..] ensures !IsControl(c) || c == '\t' {
        assert c in s;
      }
      SafeOfClean(s[1..]);
    }
  }

  lemma CleanStaysWhole(s: string)
    requires Clean(s)
    ensures StripCr(s) == s && Safe(s) == s
  {
    SafeOfClean(s);
    if s != "" {
      assert s[|s| - 1] in s && IsControl('\r');
    }
  }

  lemma WithinLimitsIsUncut(raw: string, budget: nat)
    requires Utf8Length(raw) <= MAX_LINE_BYTES && Utf8Length(Safe(raw)) <= Min(MAX_LINE_BYTES, budget)
    ensures Shown(raw, budget) == Safe(raw) && !Cut(raw, budget)
  {
    TakeBytesFits(raw, MAX_LINE_BYTES);
    TakeBytesFits(Safe(raw), Min(MAX_LINE_BYTES, budget));
  }

  lemma NumberingKeepsRest(p: Parse, raw: string)
    ensures var q := Numbered(p, raw).0;
            q.lines == p.lines && q.truncated == p.truncated && q.budget == p.budget && q.stopped == p.stopped
  {
  }

  lemma UncutLineStep(p: Parse, line: string, raw: string, text: string)
    requires raw == StripCr(line) && |p.lines| < MAX_DIFF_LINES && 0 < p.budget
    requires text == Shown(raw, p.budget) && !Cut(raw, p.budget) && Utf8Length(text) <= p.budget
    ensures var (q, kind, oldLine, newLine) := Numbered(p, raw);
            LineStep(p, line) == q.(lines := q.lines + [ChangeLine(kind, text, oldLine, newLine)],
                                    truncated := p.truncated, budget := p.budget - Utf8Length(text))
  {
  }

  /** A clean line within the limits becomes one row with its own text. */
  lemma CleanLineStep(p: Parse, line: string)
    requires !p.stopped && Clean(line) && LineFits(line, |p.lines|, p.budget)
    ensures Utf8Length(line) <= p.budget
    ensures var (q, kind, oldLine, newLine) := Numbered(p, line);
            LineStep(p, line) == q.(lines := p.lines + [ChangeLine(kind, line, oldLine, newLine)],
                                    budget := p.budget - Utf8Length(line))
  {
    CleanStaysWhole(line);
    WithinLimitsIsUncut(line, p.budget);
    NumberingKeepsRest(p, line);
    UncutLineStep(p, line, line, line);
  }

  // ----- hunk headers ---------------------------------------------------------------------------------

  lemma {:induction false} WordOf(w: string, rest: string)
    requires forall c | c in w :: !IsSpace(c)
    requires rest != "" ==> IsSpace(rest[0])
    ensures Word(w + rest) == w
  {
    if w == "" {
      assert w + rest == rest;
    } else {
      assert w[0] in w;
      assert (w + rest)[1..] == w[1..] + rest;
      forall c | c in w[1..] ensures !IsSpace(c) {
        assert c in w;
      }
      WordOf(w[1..], rest);
    }
  }

  lemma FieldAfter(w: string, rest: string, n: nat)
    requires w != "" && (forall c | c in w :: !IsSpace(c))
    requires rest != "" ==> IsSpace(rest[0])
    ensures Field(w + rest, 0) == Some(w)
    ensures Field(w + rest, n + 1) == Field(rest, n)
  {
    var s := w + rest;
    assert w[0] in w && s[0] == w[0];
    assert SkipSpace(s) == s;
    WordOf(w, rest);
    assert s[|w|..] == rest;
  }

  lemma FieldSkips(s: string, n: nat)
    ensures Field(" " + s, n) == Field(s, n)
  {
    assert (" " + s)[1..] == s;
    assert SkipSpace(" " + s) == SkipSpace(s);
  }

  lemma RangeCharacters(start: nat, count: nat, sign: char)
    requires sign == '-' || sign == '+'
    ensures forall c | c in [sign] + Range(start, count) :: !IsSpace(c)
  {
    forall c | c in [sign] + Range(start, count) ensures !IsSpace(c) {
      assert c == sign || c in Decimal(start) || c == ',' || c in Decimal(count);
    }
  }

  lemma {:induction false} ParseU32OfDecimal(n: nat)
    requires n < U32_RANGE
    ensures ParseU32(Decimal(n)) == Some(n)
  {
    var s := Decimal(n);
    assert s[0] in s;
    DecimalRoundTrip(n);
  }

  lemma ParseRangeOfRange(start: nat, count: nat, sign: char)
    requires sign == '-' || sign == '+'
    requires start < U32_RANGE
    ensures ParseRange([sign] + Range(start, count)) == Some(start)
  {
    var range := Range(start, count);
    var s := [sign] + range;
    var digits := Decimal(start);
    assert s[1..] == range;
    forall j | 0 <= j < |digits| ensures range[j] != ',' {
      assert range[j] == digits[j] && digits[j] in digits;
    }
    FirstIndexIs(range, ',', |digits|);
    assert range[..|digits|] == digits;
    ParseU32OfDecimal(start);
  }

  lemma SecondAndThirdField(first: string, second: string, third: string, tail: string)
    requires first != "" && forall c | c in first :: !IsSpace(c)
    requires second != "" && forall c | c in second :: !IsSpace(c)
    requires third != "" && forall c | c in third :: !IsSpace(c)
    requires tail != "" && IsSpace(tail[0])
    ensures Field(first + (" " + (second + (" " + (third + tail)))), 1) == Some(second)
    ensures Field(first + (" " + (second + (" " + (third + tail)))), 2) == Some(third)
  {
    var afterSecond := third + tail;
    var afterFirst := second + (" " + afterSecond);
    FieldAfter(first, " " + afterFirst, 0);
    FieldAfter(first, " " + afterFirst, 1);
    FieldSkips(afterFirst, 0);
    FieldSkips(afterFirst, 1);
    FieldAfter(second, " " + afterSecond, 0);
    FieldSkips(afterSecond, 0);
    FieldAfter(third, tail, 0);
  }

  lemma {:induction false} HunkHeadFields(h: Hunk)
    requires HunkNumbersFit(h)
    ensures StartOf(Field(HunkHead(h), 1)) == h.oldStart
    ensures StartOf(Field(HunkHead(h), 2)) == h.newStart
  {
    var oldCount, newCount := h.oldCount, h.newCount;
    RangeCharacters(h.oldStart, oldCount, '-');
    RangeCharacters(h.newStart, newCount, '+');
    ParseRangeOfRange(h.oldStart, oldCount, '-');
    ParseRangeOfRange(h.newStart, newCount, '+');
    HunkHeadShape(Range(h.oldStart, oldCount), Range(h.newStart, newCount), h.section);
    SecondAndThirdField("@@", "-" + Range(h.oldStart, oldCount), "+" + Range(h.newStart, newCount), " @@" + h.section);
  }

  lemma HunkHeadShape(oldRange: string, newRange: string, section: string)
    ensures "@@ -" + oldRange + " +" + newRange + " @@" + section
            == "@@" + (" " + (("-" + oldRange) + (" " + (("+" + newRange) + (" @@" + section)))))
  {
    assert "@@ -" == "@@" + " " + "-";
    assert " +" == " " + "+";
  }

  lemma HunkHeadIsHeader(h: Hunk)
    ensures "@@ " <= HunkHead(h) && !("diff --git " <= HunkHead(h)) && Classify(HunkHead(h)) == HunkHeader
  {
    var s := HunkHead(h);
    assert s[0] == '@' && s[1] == '@' && s[2] == ' ';
  }

  // ----- reading a heading, a hunk body, all hunks ----------------------------------------------------

  // The body of a hunk from its k-th line on, when the counters stand where the first k lines leave them.

  predicate Numbering(p: Parse, h: Hunk, k: nat)
    requires k <= |h.body|
  {
    && p.inHunk && !p.stopped
    && p.oldNext == (h.oldStart + OldLines(h.body[..k])) % U32_RANGE
    && p.newNext == (h.newStart + NewLines(h.body[..k])) % U32_RANGE
  }

  lemma CountsGrow(body: seq<BodyLine>, k: nat)
    requires k < |body|
    ensures OldLines(body[..k + 1]) == OldLines(body[..k]) + if OnOldSide(body[k]) then 1 else 0
    ensures NewLines(body[..k + 1]) == NewLines(body[..k]) + if OnNewSide(body[k]) then 1 else 0
    ensures AddedLines(body[..k + 1]) == AddedLines(body[..k]) + if body[k].Added? then 1 else 0
    ensures RemovedLines(body[..k + 1]) == RemovedLines(body[..k]) + if body[k].Removed? then 1 else 0
  {
    var upTo := body[..k + 1];
    assert upTo[..|upTo| - 1] == body[..k] && upTo[|upTo| - 1] == body[k];
  }

  lemma {:induction false} CountsAreMonotone(body: seq<BodyLine>, k: nat)
    requires k <= |body|
    ensures OldLines(body[..k]) <= OldLines(body) && NewLines(body[..k]) <= NewLines(body)
    decreases |body| - k
  {
    if k == |body| {
      assert body[..k] == body;
    } else {
      CountsGrow(body, k);
      CountsAreMonotone(body, k + 1);
    }
  }

  /** A body line whose first character tells its kind. */
  predicate Readable(b: BodyLine) {
    && Clean(BodyText(b))
    && !b.EmptyKept?
    && (b.Remark? ==> b.text == "" || b.text[0] == '\\')
  }

  lemma {:induction false} ReadableKind(b: BodyLine)
    requires Readable(b)
    ensures BodyKind(BodyText(b)) == BodyKindOf(b)
    ensures !("@@ " <= BodyText(b)) && !("diff --git " <= BodyText(b))
  {
    var text := BodyText(b);
    assert text == ""
        || text[0] == match b case Added(_) => '+' case Removed(_) => '-' case Kept(_) => ' ' case _ => '\\';
  }

  predicate Takes(p: Parse, q: Parse, kind: LineKind, oldLine: Option<nat>, newLine: Option<nat>) {
    match kind
    case Addition =>
      q == p.(additions := p.additions + 1, newNext := Next(p.newNext)) && oldLine == None && newLine == Some(p.newNext)
    case Deletion =>
      q == p.(deletions := p.deletions + 1, oldNext := Next(p.oldNext)) && oldLine == Some(p.oldNext) && newLine == None
    case Context =>
      && q == p.(oldNext := Next(p.oldNext), newNext := Next(p.newNext))
      && oldLine == Some(p.oldNext) && newLine == Some(p.newNext)
    case _ => q == p && oldLine == None && newLine == None
  }

  lemma BodyTakes(p: Parse, text: string, kind: LineKind)
    requires p.inHunk && !("@@ " <= text) && !("diff --git " <= text) && BodyKind(text) == kind
    ensures var (q, k, oldLine, newLine) := Numbered(p, text);
            k == kind && Takes(p, q, kind, oldLine, newLine)
  {
  }

  lemma NextNumber(start: nat, before: nat, after: nat, total: nat, number: nat)
    requires start + total <= U32_RANGE && after == before + 1 && after <= total
    requires number == (start + before) % U32_RANGE
    ensures number == start + before && Next(number) == (start + after) % U32_RANGE
  {
  }

  lemma TakesTheNextNumber(p: Parse, h: Hunk, k: nat, q: Parse, oldLine: Option<nat>, newLine: Option<nat>)
    requires k < |h.body| && HunkNumbersFit(h) && Numbering(p, h, k)
    requires !h.body[k].EmptyKept? && Takes(p, q, BodyKindOf(h.body[k]), oldLine, newLine)
    ensures ChangeLine(BodyKindOf(h.body[k]), BodyText(h.body[k]), oldLine, newLine) == BodyRow(h, k)
    ensures q.oldNext == (h.oldStart + OldLines(h.body[..k + 1])) % U32_RANGE
    ensures q.newNext == (h.newStart + NewLines(h.body[..k + 1])) % U32_RANGE
    ensures q == p.(oldNext := q.oldNext, newNext := q.newNext,
                    additions := p.additions + if h.body[k].Added? then 1 else 0,
                    deletions := p.deletions + if h.body[k].Removed? then 1 else 0)
  {
    CountsGrow(h.body, k);
    CountsAreMonotone(h.body, k + 1);
    var oldBefore, newBefore := OldLines(h.body[..k]), NewLines(h.body[..k]);
    if OnOldSide(h.body[k]) {
      NextNumber(h.oldStart, oldBefore, oldBefore + 1, OldLines(h.body), p.oldNext);
    }
    if OnNewSide(h.body[k]) {
      NextNumber(h.newStart, newBefore, newBefore + 1, NewLines(h.body), p.newNext);
    }
  }

  /**
   Outside a hunk the same text may be a file header: the classifier alone gives a body line's kind
   exactly when its content does not complete a file header's marker.
   */
  lemma ClassifierErrsExactlyOnLookalikes(b: BodyLine)
    requires b.Added? || b.Removed? || b.Kept?
    ensures Classify(BodyText(b)) == BodyKindOf(b)
            <==> !(b.Added? && "++ " <= b.text) && !(b.Removed? && "-- " <= b.text)
  {
    var text := BodyText(b);
    assert text[1..] == b.text && text[0] == (match b case Added(_) => '+' case Removed(_) => '-' case _ => ' ');
    assert !("@@" <= text) && !("diff --git " <= text) && (b.Kept? ==> " " <= text);
    assert (b.Added? ==> "+" <= text) && (b.Removed? ==> "-" <= text);
    if b.Added? && "++ " <= b.text {
      assert b.text == "++ " + b.text[3..];
      assert text == "+++ " + b.text[3..];
    }
    if b.Removed? && "-- " <= b.text {
      assert b.text == "-- " + b.text[3..];
      assert text == "--- " + b.text[3..];
    }
    if "+++ " <= text {
      assert text == "+++ " + text[4..];
      assert b.text == "++ " + text[4..];
    }
    if "--- " <= text {
      assert text == "--- " + text[4..];
      assert b.text == "-- " + text[4..];
    }
  }

  lemma BodyNumbers(p: Parse, h: Hunk, k: nat)
    requires k < |h.body| && Readable(h.body[k]) && HunkNumbersFit(h) && Numbering(p, h, k)
    ensures var (q, kind, oldLine, newLine) := Numbered(p, BodyText(h.body[k]));
            && ChangeLine(kind, BodyText(h.body[k]), oldLine, newLine) == BodyRow(h, k)
            && q.oldNext == (h.oldStart + OldLines(h.body[..k + 1])) % U32_RANGE
            && q.newNext == (h.newStart + NewLines(h.body[..k + 1])) % U32_RANGE
            && q == p.(oldNext := q.oldNext, newNext := q.newNext,
                       additions := p.additions + if h.body[k].Added? then 1 else 0,
                       deletions := p.deletions + if h.body[k].Removed? then 1 else 0)
  {
    ReadableKind(h.body[k]);
    BodyTakes(p, BodyText(h.body[k]), BodyKindOf(h.body[k]));
    var (q, kind, oldLine, newLine) := Numbered(p, BodyText(h.body[k]));
    TakesTheNextNumber(p, h, k, q, oldLine, newLine);
  }

  predicate Tallies(p: Parse, h: Hunk, k: nat, additions: nat, deletions: nat)
    requires k <= |h.body|
  {
    p.additions == additions + AddedLines(h.body[..k]) && p.deletions == deletions + RemovedLines(h.body[..k])
  }

  lemma BodyStep(p: Parse, h: Hunk, k: nat, additions: nat, deletions: nat)
    requires k < |h.body| && Readable(h.body[k]) && HunkNumbersFit(h) && Numbering(p, h, k)
    requires Tallies(p, h, k, additions, deletions)
    requires LineFits(BodyText(h.body[k]), |p.lines|, p.budget)
    ensures var q := LineStep(p, BodyText(h.body[k]));
            && Numbering(q, h, k + 1) && Tallies(q, h, k + 1, additions, deletions)
            && q.lines == p.lines + [BodyRow(h, k)]
            && q.truncated == p.truncated
  {
    CleanLineStep(p, BodyText(h.body[k]));
    BodyNumbers(p, h, k);
    CountsGrow(h.body, k);
  }

  predicate ReadableBody(body: seq<BodyLine>) {
    forall i | 0 <= i < |body| :: Readable(body[i])
  }

  /** `q` is `p` after reading more lines into those rows, nothing cut. */
  predicate Advanced(p: Parse, q: Parse, rows: seq<ChangeLine>) {
    !p.stopped && !q.stopped && q.truncated == p.truncated && q.lines == p.lines + rows
  }

  lemma AdvancedTwice(p: Parse, q: Parse, r: Parse, a: seq<ChangeLine>, b: seq<ChangeLine>)
    requires Advanced(p, q, a) && Advanced(q, r, b)
    ensures Advanced(p, r, a + b)
  {
  }

  predicate Room(p: Parse, lines: seq<string>) {
    !p.stopped && Fits(lines, |p.lines|, p.budget)
  }

  lemma FitsHead(lines: seq<string>, count: nat, budget: nat)
    requires lines != [] && Clean(lines[0]) && Fits(lines, count, budget)
    ensures LineFits(lines[0], count, budget)
    ensures Utf8Length(lines[0]) <= budget && Fits(lines[1..], count + 1, budget - Utf8Length(lines[0]))
  {
    CleanStaysWhole(lines[0]);
  }

  lemma CleanLineTakesRoom(p: Parse, line: string) returns (q: Parse)
    requires !p.stopped && Clean(line) && LineFits(line, |p.lines|, p.budget)
    ensures q == LineStep(p, line)
    ensures !q.stopped && |q.lines| == |p.lines| + 1
    ensures Utf8Length(line) <= p.budget && q.budget == p.budget - Utf8Length(line)
  {
    CleanLineStep(p, line);
    q := LineStep(p, line);
  }

  lemma ParseHead(p: Parse, lines: seq<string>)
    requires lines != [] && Clean(lines[0]) && Room(p, lines)
    ensures LineFits(lines[0], |p.lines|, p.budget)
    ensures ParseLines(p, lines) == ParseLines(LineStep(p, lines[0]), lines[1..])
    ensures Room(LineStep(p, lines[0]), lines[1..])
  {
    FitsHead(lines, |p.lines|, p.budget);
    var q := CleanLineTakesRoom(p, lines[0]);
  }

  /** One heading line: it keeps its own kind and takes no number. The first line of a file leaves the hunk. */
  lemma HeadingAdvance(p: Parse, lines: seq<string>) returns (q: Parse)
    requires lines != [] && HeadingLine(lines[0]) && Room(p, lines)
    requires !p.inHunk || "diff --git " <= lines[0]
    ensures ParseLines(p, lines) == ParseLines(q, lines[1..]) && Room(q, lines[1..])
    ensures Advanced(p, q, [ChangeLine(Classify(lines[0]), lines[0], None, None)])
    ensures !q.inHunk && q.additions == p.additions && q.deletions == p.deletions
  {
    q := LineStep(p, lines[0]);
    ParseHead(p, lines);
    CleanLineStep(p, lines[0]);
    CleanStaysWhole(lines[0]);
  }

  lemma Peel(texts: seq<string>, front: seq<string>, rest: seq<string>)
    requires texts == front + rest && front != []
    ensures texts != [] && texts[0] == front[0] && texts[1..] == front[1..] + rest
  {
  }

  lemma HeadingRowsPeel(heading: seq<string>)
    requires heading != []
    ensures HeadingRows(heading)
            == [ChangeLine(Classify(heading[0]), heading[0], None, None)] + HeadingRows(heading[1..])
  {
  }

  lemma {:induction false} ReadHeading(p: Parse, heading: seq<string>, texts: seq<string>, rest: seq<string>)
    returns (q: Parse)
    requires forall i | 0 <= i < |heading| :: HeadingLine(heading[i])
    requires texts == heading + rest && Room(p, texts)
    requires !p.inHunk || (heading != [] && "diff --git " <= heading[0])
    ensures ParseLines(p, texts) == ParseLines(q, rest) && Room(q, rest)
    ensures Advanced(p, q, HeadingRows(heading))
    ensures q.additions == p.additions && q.deletions == p.deletions
    decreases |heading|
  {
    if heading == [] {
      q := p;
      assert p.lines + HeadingRows(heading) == p.lines && texts == rest;
    } else {
      Peel(texts, heading, rest);
      var first := HeadingAdvance(p, texts);
      q := ReadHeading(first, heading[1..], texts[1..], rest);
      HeadingRowsPeel(heading);
      AdvancedTwice(p, first, q, [ChangeLine(Classify(heading[0]), heading[0], None, None)], HeadingRows(heading[1..]));
    }
  }

  /** One body line: what is left to read, and the state after it. */
  lemma BodyAdvance(p: Parse, h: Hunk, k: nat, texts: seq<string>, additions: nat, deletions: nat) returns (q: Parse)
    requires k < |h.body| && texts != [] && texts[0] == BodyText(h.body[k])
    requires Readable(h.body[k]) && HunkNumbersFit(h)
    requires Numbering(p, h, k) && Tallies(p, h, k, additions, deletions) && Room(p, texts)
    ensures ParseLines(p, texts) == ParseLines(q, texts[1..]) && Room(q, texts[1..])
    ensures Numbering(q, h, k + 1) && Tallies(q, h, k + 1, additions, deletions)
    ensures Advanced(p, q, [BodyRow(h, k)])
  {
    q := LineStep(p, texts[0]);
    ParseHead(p, texts);
    BodyStep(p, h, k, additions, deletions);
  }

  lemma BodyPeel(texts: seq<string>, h: Hunk, k: nat, rest: seq<string>)
    requires k < |h.body| && texts == BodyTexts(h.body)[k..] + rest
    ensures texts != [] && texts[0] == BodyText(h.body[k]) && texts[1..] == BodyTexts(h.body)[k + 1..] + rest
    ensures BodyRows(h, |h.body|)[k..] == [BodyRow(h, k)] + BodyRows(h, |h.body|)[k + 1..]
  {
    Peel(texts, BodyTexts(h.body)[k..], rest);
  }

  lemma {:induction false} ReadBody(
    p: Parse, h: Hunk, k: nat, texts: seq<string>, rest: seq<string>, additions: nat, deletions: nat) returns (q: Parse)
    requires k <= |h.body| && ReadableBody(h.body) && HunkNumbersFit(h)
    requires texts == BodyTexts(h.body)[k..] + rest && Room(p, texts)
    requires Numbering(p, h, k) && Tallies(p, h, k, additions, deletions)
    ensures ParseLines(p, texts) == ParseLines(q, rest) && Room(q, rest)
    ensures Tallies(q, h, |h.body|, additions, deletions)
    ensures Advanced(p, q, BodyRows(h, |h.body|)[k..])
    decreases |h.body| - k
  {
    var rows := BodyRows(h, |h.body|);
    if k == |h.body| {
      q := p;
      assert texts == rest && rows[k..] == [];
    } else {
      BodyPeel(texts, h, k, rest);
      var first := BodyAdvance(p, h, k, texts, additions, deletions);
      q := ReadBody(first, h, k + 1, texts[1..], rest, additions, deletions);
      AdvancedTwice(p, first, q, [BodyRow(h, k)], rows[k + 1..]);
    }
  }

  predicate ReadableHunk(h: Hunk) {
    Clean(HunkHead(h)) && HunkNumbersFit(h) && ReadableBody(h.body)
  }

  predicate HeaderFor(line: string, h: Hunk) {
    && "@@ " <= line && !("diff --git " <= line) && Classify(line) == HunkHeader
    && StartOf(Field(line, 1)) == h.oldStart && StartOf(Field(line, 2)) == h.newStart
  }

  lemma HunkHeadIsHeaderFor(h: Hunk)
    requires HunkNumbersFit(h)
    ensures HeaderFor(HunkHead(h), h)
  {
    HunkHeadIsHeader(h);
    HunkHeadFields(h);
  }

  lemma HeaderAdvance(p: Parse, h: Hunk, texts: seq<string>) returns (q: Parse)
    requires texts != [] && Clean(texts[0]) && HeaderFor(texts[0], h) && Room(p, texts)
    ensures ParseLines(p, texts) == ParseLines(q, texts[1..]) && Room(q, texts[1..])
    ensures Advanced(p, q, [ChangeLine(HunkHeader, texts[0], None, None)])
    ensures q.inHunk && q.oldNext == h.oldStart && q.newNext == h.newStart
    ensures q.additions == p.additions && q.deletions == p.deletions
  {
    q := LineStep(p, texts[0]);
    ParseHead(p, texts);
    CleanLineStep(p, texts[0]);
    CleanStaysWhole(texts[0]);
  }

  lemma StartsNumbering(q: Parse, h: Hunk)
    requires q.inHunk && !q.stopped && q.oldNext == h.oldStart && q.newNext == h.newStart && HunkNumbersFit(h)
    ensures Numbering(q, h, 0) && Tallies(q, h, 0, q.additions, q.deletions)
  {
    assert h.body[..0] == [];
  }

  lemma ReadWholeBody(p: Parse, h: Hunk, texts: seq<string>, rest: seq<string>) returns (q: Parse)
    requires HunkNumbersFit(h) && ReadableBody(h.body)
    requires texts == BodyTexts(h.body) + rest && Room(p, texts)
    requires p.inHunk && p.oldNext == h.oldStart && p.newNext == h.newStart
    ensures ParseLines(p, texts) == ParseLines(q, rest) && Room(q, rest)
    ensures Advanced(p, q, BodyRows(h, |h.body|))
    ensures q.additions == p.additions + AddedLines(h.body) && q.deletions == p.deletions + RemovedLines(h.body)
  {
    StartsNumbering(p, h);
    assert texts == BodyTexts(h.body)[0..] + rest && BodyRows(h, |h.body|)[0..] == BodyRows(h, |h.body|);
    q := ReadBody(p, h, 0, texts, rest, p.additions, p.deletions);
    assert h.body[..|h.body|] == h.body;
  }

  lemma ReadHunk(p: Parse, h: Hunk, texts: seq<string>, rest: seq<string>) returns (q: Parse)
    requires HunkNumbersFit(h) && ReadableBody(h.body)
    requires texts != [] && Clean(texts[0]) && HeaderFor(texts[0], h)
    requires texts[1..] == BodyTexts(h.body) + rest && Room(p, texts)
    ensures ParseLines(p, texts) == ParseLines(q, rest) && Room(q, rest)
    ensures Advanced(p, q, [ChangeLine(HunkHeader, texts[0], None, None)] + BodyRows(h, |h.body|))
    ensures q.additions == p.additions + AddedLines(h.body) && q.deletions == p.deletions + RemovedLines(h.body)
  {
    var first := HeaderAdvance(p, h, texts);
    q := ReadWholeBody(first, h, texts[1..], rest);
    AdvancedTwice(p, first, q, [ChangeLine(HunkHeader, texts[0], None, None)], BodyRows(h, |h.body|));
  }

  lemma OneHunkShape(h: Hunk, texts: seq<string>, rest: seq<string>)
    requires ReadableHunk(h) && texts == OneHunkTexts(h) + rest
    ensures texts != [] && texts[0] == HunkHead(h) && Clean(texts[0]) && HeaderFor(texts[0], h)
    ensures texts[1..] == BodyTexts(h.body) + rest
  {
    HunkHeadIsHeaderFor(h);
    HeadAndRest(HunkHead(h), BodyTexts(h.body), rest);
  }

  lemma HeadAndRest(head: string, body: seq<string>, rest: seq<string>)
    ensures ([head] + body + rest)[0] == head && ([head] + body + rest)[1..] == body + rest
  {
  }

  lemma ReadOneHunk(p: Parse, h: Hunk, texts: seq<string>, rest: seq<string>) returns (q: Parse)
    requires ReadableHunk(h) && texts == OneHunkTexts(h) + rest && Room(p, texts)
    ensures ParseLines(p, texts) == ParseLines(q, rest) && Room(q, rest)
    ensures Advanced(p, q, OneHunkRows(h))
    ensures q.additions == p.additions + AddedLines(h.body) && q.deletions == p.deletions + RemovedLines(h.body)
  {
    OneHunkShape(h, texts, rest);
    q := ReadHunk(p, h, texts, rest);
  }

  lemma {:induction false} ReadHunks(p: Parse, hunks: seq<Hunk>, texts: seq<string>, rest: seq<string>)
    returns (q: Parse)
    requires forall i | 0 <= i < |hunks| :: ReadableHunk(hunks[i])
    requires texts == HunkTexts(hunks) + rest && Room(p, texts)
    ensures ParseLines(p, texts) == ParseLines(q, rest) && Room(q, rest)
    ensures Advanced(p, q, HunkRows(hunks))
    ensures q.additions == p.additions + AddedInAll(hunks) && q.deletions == p.deletions + RemovedInAll(hunks)
    decreases |hunks|
  {
    if hunks == [] {
      q := p;
      assert p.lines + [] == p.lines && texts == rest;
    } else {
      var more := HunkTexts(hunks[1..]) + rest;
      Regroup(OneHunkTexts(hunks[0]), HunkTexts(hunks[1..]), rest);
      var first := ReadOneHunk(p, hunks[0], texts, more);
      q := ReadHunks(first, hunks[1..], more, rest);
      AdvancedTwice(p, first, q, OneHunkRows(hunks[0]), HunkRows(hunks[1..]));
    }
  }

  lemma Regroup(a: seq<string>, b: seq<string>, c: seq<string>)
    ensures (a + b) + c == a + (b + c)
  {
  }

  predicate ReadableFile(d: Diff) {
    && (forall i | 0 <= i < |d.heading| :: HeadingLine(d.heading[i]))
    && (forall i | 0 <= i < |d.hunks| :: ReadableHunk(d.hunks[i]))
  }

  lemma ReadFile(p: Parse, d: Diff, texts: seq<string>, rest: seq<string>) returns (q: Parse)
    requires ReadableFile(d) && texts == Texts(d) + rest && Room(p, texts)
    requires !p.inHunk || StartsFile(d)
    ensures ParseLines(p, texts) == ParseLines(q, rest) && Room(q, rest)
    ensures Advanced(p, q, FileRows(d))
    ensures q.additions == p.additions + AddedInAll(d.hunks) && q.deletions == p.deletions + RemovedInAll(d.hunks)
  {
    var more := HunkTexts(d.hunks) + rest;
    Regroup(d.heading, HunkTexts(d.hunks), rest);
    var first := ReadHeading(p, d.heading, texts, more);
    q := ReadHunks(first, d.hunks, more, rest);
    AdvancedTwice(p, first, q, HeadingRows(d.heading), HunkRows(d.hunks));
  }

  lemma {:induction false} ReadFiles(p: Parse, files: seq<Diff>, texts: seq<string>) returns (q: Parse)
    requires forall i | 0 <= i < |files| :: ReadableFile(files[i])
    requires forall i | 0 <= i < |files| :: (i == 0 && !p.inHunk) || StartsFile(files[i])
    requires texts == PatchTexts(files) && Room(p, texts)
    ensures q == ParseLines(p, texts)
    ensures Advanced(p, q, PatchRows(files))
    ensures q.additions == p.additions + AddedInPatch(files) && q.deletions == p.deletions + RemovedInPatch(files)
    decreases |files|
  {
    if files == [] {
      q := p;
      assert p.lines + [] == p.lines;
    } else {
      var first := ReadFile(p, files[0], texts, PatchTexts(files[1..]));
      q := ReadFiles(first, files[1..], PatchTexts(files[1..]));
      AdvancedTwice(p, first, q, FileRows(files[0]), PatchRows(files[1..]));
    }
  }

  // ----- what reading a printed diff gives -------------------------------------------------------------

  /** Inside a hunk an empty line is read as a remark on neither side. */
  function AsRead(body: seq<BodyLine>): (r: seq<BodyLine>)
    ensures |r| == |body|
  {
    seq(|body|, i requires 0 <= i < |body| => if body[i].EmptyKept? then Remark("") else body[i])
  }

  function HunksAsRead(hunks: seq<Hunk>): (r: seq<Hunk>)
    ensures |r| == |hunks|
  {
    seq(|hunks|, i requires 0 <= i < |hunks| => hunks[i].(body := AsRead(hunks[i].body)))
  }

  lemma {:induction false} AsReadHasNoMoreLines(body: seq<BodyLine>)
    ensures OldLines(AsRead(body)) <= OldLines(body) && NewLines(AsRead(body)) <= NewLines(body)
  {
    if body != [] {
      var front := body[..|body| - 1];
      assert AsRead(body)[..|body| - 1] == AsRead(front);
      AsReadHasNoMoreLines(front);
    }
  }

  lemma {:induction false} CleanDecimal(n: nat)
    ensures Clean(Decimal(n))
  {
    forall c | c in Decimal(n) ensures !IsControl(c) {
      assert IsDigit(c);
    }
  }

  lemma CleanRange(start: nat, count: nat)
    ensures Clean(Range(start, count))
  {
    CleanDecimal(start);
    CleanDecimal(count);
  }

  lemma CleanConcatenation(a: string, b: string)
    requires Clean(a) && Clean(b)
    ensures Clean(a + b)
  {
  }

  lemma CleanHunkHead(h: Hunk)
    requires Clean(h.section)
    ensures Clean(HunkHead(h))
  {
    var a, b := Range(h.oldStart, h.oldCount), Range(h.newStart, h.newCount);
    CleanRange(h.oldStart, h.oldCount);
    CleanRange(h.newStart, h.newCount);
    CleanConcatenation("@@ -", a);
    CleanConcatenation("@@ -" + a, " +");
    CleanConcatenation("@@ -" + a + " +", b);
    CleanConcatenation("@@ -" + a + " +" + b, " @@");
    CleanConcatenation("@@ -" + a + " +" + b + " @@", h.section);
  }

  lemma HunkIsReadable(h: Hunk)
    requires HunkFits(h)
    ensures ReadableHunk(h.(body := AsRead(h.body)))
    ensures OneHunkTexts(h.(body := AsRead(h.body))) == OneHunkTexts(h)
  {
    CleanHunkHead(h);
    AsReadHasNoMoreLines(h.body);
    forall i | 0 <= i < |h.body|
      ensures Readable(AsRead(h.body)[i]) && BodyText(AsRead(h.body)[i]) == BodyText(h.body[i])
    {
      assert BodyLineFits(h.body[i]);
    }
    assert BodyTexts(AsRead(h.body)) == BodyTexts(h.body);
    assert HunkHead(h.(body := AsRead(h.body))) == HunkHead(h);
  }

  lemma {:induction false} HunksAreReadable(hunks: seq<Hunk>)
    requires forall i | 0 <= i < |hunks| :: HunkFits(hunks[i])
    ensures forall i | 0 <= i < |hunks| :: ReadableHunk(HunksAsRead(hunks)[i])
    ensures HunkTexts(HunksAsRead(hunks)) == HunkTexts(hunks)
  {
    if hunks != [] {
      HunkIsReadable(hunks[0]);
      HunksAreReadable(hunks[1..]);
      assert HunksAsRead(hunks)[1..] == HunksAsRead(hunks[1..]);
    }
  }

  lemma {:induction false} HunkTextsAreClean(hunks: seq<Hunk>)
    requires forall i | 0 <= i < |hunks| :: HunkFits(hunks[i])
    ensures AllClean(HunkTexts(hunks))
  {
    if hunks != [] {
      var texts := OneHunkTexts(hunks[0]);
      CleanHunkHead(hunks[0]);
      forall i | 0 <= i < |texts| ensures Clean(texts[i]) {
        assert i == 0 || BodyLineFits(hunks[0].body[i - 1]);
      }
      HunkTextsAreClean(hunks[1..]);
    }
  }

  function FileAsRead(d: Diff): Diff {
    d.(hunks := HunksAsRead(d.hunks))
  }

  function AsReadAll(files: seq<Diff>): (r: seq<Diff>)
    ensures |r| == |files|
  {
    seq(|files|, i requires 0 <= i < |files| => FileAsRead(files[i]))
  }

  lemma FileIsReadable(d: Diff)
    requires WellFormed(d)
    ensures ReadableFile(FileAsRead(d)) && Texts(FileAsRead(d)) == Texts(d) && AllClean(Texts(d))
  {
    HunksAreReadable(d.hunks);
    HunkTextsAreClean(d.hunks);
    forall i | 0 <= i < |Texts(d)| ensures Clean(Texts(d)[i]) {
      if i < |d.heading| {
        assert HeadingLine(d.heading[i]);
      }
    }
  }

  lemma {:induction false} FilesAreReadable(files: seq<Diff>)
    requires forall i | 0 <= i < |files| :: WellFormed(files[i])
    ensures forall i | 0 <= i < |files| :: ReadableFile(AsReadAll(files)[i])
    ensures PatchTexts(AsReadAll(files)) == PatchTexts(files) && AllClean(PatchTexts(files))
  {
    if files != [] {
      FileIsReadable(files[0]);
      FilesAreReadable(files[1..]);
      assert AsReadAll(files)[1..] == AsReadAll(files[1..]);
    }
  }

  predicate Printable(files: seq<Diff>) {
    WellFormedPatch(files) && Fits(PatchTexts(files), 0, 262_144)
  }

  /** Reading a printed patch within the limits gives every line back, with empty lines as remarks. */
  lemma {:induction false} ReadOfPrint(files: seq<Diff>, truncated: bool)
    requires Printable(files)
    ensures FromPatch(Print(PatchTexts(files)), truncated) == Meaning(AsReadAll(files), truncated)
  {
    FilesAreReadable(files);
    SplitOfPrint(PatchTexts(files));
    var q := ReadFiles(Start(truncated), AsReadAll(files), PatchTexts(files));
  }

  predicate HasEmptyKept(body: seq<BodyLine>) {
    exists i | 0 <= i < |body| :: body[i].EmptyKept?
  }

  predicate NoEmptyKept(d: Diff) {
    forall i | 0 <= i < |d.hunks| :: !HasEmptyKept(d.hunks[i].body)
  }

  predicate NoneEmptyKept(files: seq<Diff>) {
    forall i | 0 <= i < |files| :: NoEmptyKept(files[i])
  }

  lemma BodyDiffersWithEmptyKept(h: Hunk, more: seq<ChangeLine>, others: seq<ChangeLine>)
    requires HasEmptyKept(h.body)
    ensures OneHunkRows(h.(body := AsRead(h.body))) + more != OneHunkRows(h) + others
  {
    var i :| 0 <= i < |h.body| && h.body[i].EmptyKept?;
    assert (OneHunkRows(h) + others)[i + 1] == BodyRow(h, i);
    assert (OneHunkRows(h.(body := AsRead(h.body))) + more)[i + 1] == BodyRow(h.(body := AsRead(h.body)), i);
  }

  lemma SameFront(front: seq<ChangeLine>, a: seq<ChangeLine>, b: seq<ChangeLine>)
    ensures front + a == front + b <==> a == b
  {
    assert (front + a)[|front|..] == a && (front + b)[|front|..] == b;
  }

  lemma {:induction false} SameRowsExactlyWithoutEmptyKept(hunks: seq<Hunk>)
    ensures HunkRows(HunksAsRead(hunks)) == HunkRows(hunks)
            <==> forall i | 0 <= i < |hunks| :: !HasEmptyKept(hunks[i].body)
  {
    if hunks != [] {
      var h, more := hunks[0], hunks[1..];
      assert HunksAsRead(hunks)[1..] == HunksAsRead(more);
      assert HunkRows(HunksAsRead(hunks)) == OneHunkRows(h.(body := AsRead(h.body))) + HunkRows(HunksAsRead(more));
      SameRowsExactlyWithoutEmptyKept(more);
      if HasEmptyKept(h.body) {
        BodyDiffersWithEmptyKept(h, HunkRows(HunksAsRead(more)), HunkRows(more));
      } else {
        assert AsRead(h.body) == h.body;
        SameFront(OneHunkRows(h), HunkRows(HunksAsRead(more)), HunkRows(more));
        assert forall i | 0 < i < |hunks| :: hunks[i] == more[i - 1];
        assert forall i | 0 <= i < |more| :: more[i] == hunks[i + 1];
      }
    }
  }

  lemma FileAsReadIsSame(d: Diff)
    requires NoEmptyKept(d)
    ensures FileAsRead(d) == d
  {
    forall i | 0 <= i < |d.hunks| ensures HunksAsRead(d.hunks)[i] == d.hunks[i] {
      assert AsRead(d.hunks[i].body) == d.hunks[i].body;
    }
  }

  lemma {:induction false} SameNumberOfRows(hunks: seq<Hunk>)
    ensures |HunkRows(HunksAsRead(hunks))| == |HunkRows(hunks)|
  {
    if hunks != [] {
      assert HunksAsRead(hunks)[1..] == HunksAsRead(hunks[1..]);
      SameNumberOfRows(hunks[1..]);
    }
  }

  lemma SameFileRowsExactlyWithoutEmptyKept(d: Diff)
    ensures |FileRows(FileAsRead(d))| == |FileRows(d)|
    ensures FileRows(FileAsRead(d)) == FileRows(d) <==> NoEmptyKept(d)
  {
    SameNumberOfRows(d.hunks);
    SameRowsExactlyWithoutEmptyKept(d.hunks);
    SameFront(HeadingRows(d.heading), HunkRows(HunksAsRead(d.hunks)), HunkRows(d.hunks));
  }

  lemma SameParts(a: seq<ChangeLine>, b: seq<ChangeLine>, c: seq<ChangeLine>, d: seq<ChangeLine>)
    requires |a| == |c|
    ensures a + b == c + d <==> a == c && b == d
  {
    assert (a + b)[..|a|] == a && (a + b)[|a|..] == b && (c + d)[..|c|] == c && (c + d)[|c|..] == d;
  }

  lemma {:induction false} SamePatchRowsExactlyWithoutEmptyKept(files: seq<Diff>)
    ensures PatchRows(AsReadAll(files)) == PatchRows(files) <==> NoneEmptyKept(files)
  {
    if files != [] {
      var more := files[1..];
      assert AsReadAll(files)[1..] == AsReadAll(more);
      SameFileRowsExactlyWithoutEmptyKept(files[0]);
      SamePatchRowsExactlyWithoutEmptyKept(more);
      SameParts(FileRows(FileAsRead(files[0])), PatchRows(AsReadAll(more)), FileRows(files[0]), PatchRows(more));
      assert forall i | 0 < i < |files| :: files[i] == more[i - 1];
      assert forall i | 0 <= i < |more| :: more[i] == files[i + 1];
    }
  }

  /**
   The round trip holds exactly for the patches that print no unchanged line as an empty line. POSIX allows
   that form; the reader takes such a line for a remark and counts it on neither side.
   */
  lemma {:induction false} RoundTripIsExactWithoutEmptyKept(files: seq<Diff>, truncated: bool)
    requires Printable(files)
    ensures FromPatch(Print(PatchTexts(files)), truncated) == Meaning(files, truncated) <==> NoneEmptyKept(files)
  {
    ReadOfPrint(files, truncated);
    SamePatchRowsExactlyWithoutEmptyKept(files);
    if NoneEmptyKept(files) {
      forall i | 0 <= i < |files| ensures AsReadAll(files)[i] == files[i] {
        FileAsReadIsSame(files[i]);
      }
      assert AsReadAll(files) == files;
    }
  }

  lemma OneHunk(h: Hunk)
    ensures HunkTexts([h]) == OneHunkTexts(h) && HunkRows([h]) == OneHunkRows(h)
  {
    assert [h][1..] == [] && HunkTexts([]) == [] && HunkRows([]) == [];
  }

  lemma EmptyLineFits(count: nat, budget: nat)
    requires count < MAX_DIFF_LINES && 0 < budget
    ensures Fits([""], count, budget)
  {
    assert [""][1..] == [];
  }

  lemma OneEmptyLineFits(head: string)
    requires Clean(head) && Utf8Length(head) <= MAX_LINE_BYTES
    ensures Fits([head, ""], 0, MAX_FILE_BYTES)
  {
    CleanStaysWhole(head);
    EmptyLineFits(1, MAX_FILE_BYTES - Utf8Length(head));
    assert [head, ""][1..] == [""];
  }

  lemma OneFile(d: Diff)
    ensures PatchTexts([d]) == Texts(d) && PatchRows([d]) == FileRows(d)
  {
    assert [d][1..] == [] && PatchTexts([]) == [] && PatchRows([]) == [];
  }

  lemma OneEmptyLineIsPrintable(h: Hunk)
    requires HunkFits(h) && h.body == [EmptyKept] && Utf8Length(HunkHead(h)) <= MAX_LINE_BYTES
    ensures PatchTexts([Diff([], [h])]) == [HunkHead(h), ""] && Printable([Diff([], [h])])
  {
    CleanHunkHead(h);
    OneEmptyLineFits(HunkHead(h));
    OneHunk(h);
    OneFile(Diff([], [h]));
    assert OneHunkTexts(h) == [HunkHead(h), ""];
  }

  lemma OneLineRows(h: Hunk)
    requires |h.body| == 1
    ensures OneHunkRows(h) == [ChangeLine(HunkHeader, HunkHead(h), None, None), BodyRow(h, 0)]
    ensures OnOldSide(h.body[0]) ==> BodyRow(h, 0).oldLine == Some(h.oldStart)
    ensures OnNewSide(h.body[0]) ==> BodyRow(h, 0).newLine == Some(h.newStart)
  {
    assert h.body[..0] == [];
    assert BodyRows(h, 1) == [BodyRow(h, 0)];
  }

  lemma OneHunkMeaning(h: Hunk)
    requires |h.body| == 1
    ensures Meaning([Diff([], [h])], false).lines
            == [ChangeLine(HunkHeader, HunkHead(h), None, None), BodyRow(h, 0)]
  {
    OneHunk(h);
    OneFile(Diff([], [h]));
    OneLineRows(h);
  }

  /**
   The smallest diffs that are misread: one hunk of one empty unchanged line, at whatever place and with
   whatever section. The line is read as a remark without numbers.
   */
  lemma {:induction false} EmptyKeptLineIsMisread(h: Hunk)
    requires HunkFits(h) && h.body == [EmptyKept] && Utf8Length(HunkHead(h)) <= MAX_LINE_BYTES
    ensures var files := [Diff([], [h])];
            var header := ChangeLine(HunkHeader, HunkHead(h), None, None);
            && PatchTexts(files) == [HunkHead(h), ""]
            && FromPatch(Print(PatchTexts(files)), false).lines == [header, ChangeLine(Notice, "", None, None)]
            && Meaning(files, false).lines == [header, ChangeLine(Context, "", Some(h.oldStart), Some(h.newStart))]
  {
    var read := h.(body := AsRead(h.body));
    OneEmptyLineIsPrintable(h);
    ReadOfPrint([Diff([], [h])], false);
    assert HunksAsRead([h]) == [read];
    assert AsReadAll([Diff([], [h])]) == [Diff([], [read])];
    assert HunkHead(read) == HunkHead(h);
    OneHunkMeaning(h);
    OneLineRows(h);
    OneHunkMeaning(read);
  }

  // ----- the limits --------------------------------------------------------------------------------------

  lemma {:induction false} TruncationStays(p: Parse, lines: seq<string>)
    requires p.truncated
    ensures ParseLines(p, lines).truncated
    decreases |lines|
  {
    if lines != [] && !p.stopped {
      TruncationStays(LineStep(p, lines[0]), lines[1..]);
    }
  }

  lemma CutExactlyOverLimits(raw: string, budget: nat)
    ensures Cut(raw, budget)
            <==> !(Utf8Length(raw) <= MAX_LINE_BYTES && Utf8Length(Safe(raw)) <= Min(MAX_LINE_BYTES, budget))
  {
    TakeBytesFits(raw, MAX_LINE_BYTES);
    TakeBytesFits(Safe(TakeBytes(raw, MAX_LINE_BYTES)), Min(MAX_LINE_BYTES, budget));
  }

  lemma CutStep(p: Parse, line: string) returns (q: Parse)
    requires !p.stopped && !p.truncated && |p.lines| <= MAX_DIFF_LINES
    ensures q == LineStep(p, line)
    ensures q.truncated <==> !LineFits(line, |p.lines|, p.budget)
    ensures !q.truncated ==> !q.stopped && |q.lines| == |p.lines| + 1
                             && q.budget == p.budget - Utf8Length(Safe(StripCr(line)))
  {
    q := LineStep(p, line);
    CutExactlyOverLimits(StripCr(line), p.budget);
    var (numbered, kind, oldLine, newLine) := Numbered(p, StripCr(line));
    assert numbered.truncated == p.truncated;
    if LineFits(line, |p.lines|, p.budget) {
      WithinLimitsIsUncut(StripCr(line), p.budget);
    }
  }

  lemma CutAdvance(p: Parse, lines: seq<string>) returns (q: Parse)
    requires !p.stopped && !p.truncated && |p.lines| <= MAX_DIFF_LINES && lines != []
    ensures ParseLines(p, lines) == ParseLines(q, lines[1..])
    ensures q.truncated ==> !Fits(lines, |p.lines|, p.budget)
    ensures !q.truncated ==> !q.stopped && |q.lines| <= MAX_DIFF_LINES
    ensures !q.truncated ==> (Fits(lines, |p.lines|, p.budget) <==> Fits(lines[1..], |q.lines|, q.budget))
  {
    q := CutStep(p, lines[0]);
  }

  lemma {:induction false} ParseCutsExactlyOverLimits(p: Parse, lines: seq<string>)
    requires !p.stopped && !p.truncated && |p.lines| <= MAX_DIFF_LINES
    ensures ParseLines(p, lines).truncated <==> !Fits(lines, |p.lines|, p.budget)
    decreases |lines|
  {
    if lines != [] {
      var q := CutAdvance(p, lines);
      if q.truncated {
        TruncationStays(q, lines[1..]);
      } else {
        ParseCutsExactlyOverLimits(q, lines[1..]);
      }
    }
  }

  /** A patch, printed or not, is marked as truncated exactly when it goes over the limits. */
  lemma {:induction false} MarkedTruncatedExactlyOverLimits(patch: string, already: bool)
    ensures FromPatch(patch, already).truncated <==> already || !Fits(SplitTerminator(patch), 0, 262_144)
  {
    if already {
      TruncationStays(Start(already), SplitTerminator(patch));
    } else {
      ParseCutsExactlyOverLimits(Start(already), SplitTerminator(patch));
    }
  }
}
