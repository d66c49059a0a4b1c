/**
 What reading gives for a patch of any text at all, well-formed or not
 (crates/sylvops-core/src/changes.rs:10-13 and 245-336, crates/sylvops-core/src/diff.rs:34-63).

 Kinds, numbers and texts are said of each line by its place in the patch: the hunk a line stands in is
 the nearest header above it with no start of a file between, and its number counts the lines between.
 */
module AnyPatch {
  import opened Wrappers
  import opened Text
  import opened Changes
  import PrintedDiff

  // ----- the lines of a text ------------------------------------------------------------------------

  predicate NoNewlines(pieces: seq<string>) {
    forall i | 0 <= i < |pieces| :: '\n' !in pieces[i]
  }

  function EndedText(s: string): string {
    if s == "" || s[|s| - 1] == '\n' then s else s + "\n"
  }

  lemma TextAfterNewline(s: string, i: nat)
    requires i < |s| && s[i] == '\n'
    ensures EndedText(s) == s[..i] + "\n" + EndedText(s[i + 1..])
  {
    var rest := s[i + 1..];
    assert s == s[..i] + "\n" + rest;
    if rest == "" {
      assert s[|s| - 1] == '\n';
    } else {
      assert s[|s| - 1] == rest[|rest| - 1];
    }
  }

  /** The pieces hold no newline, and with one after each they are the text, its last line ended. */
  lemma {:induction false} SplittingLosesNothing(s: string)
    ensures NoNewlines(SplitTerminator(s))
    ensures PrintedDiff.Print(SplitTerminator(s)) == EndedText(s)
    decreases |s|
  {
    if s != "" {
      var i := FirstIndex(s, '\n');
      assert '\n' !in s[..i];
      if i < |s| {
        var rest := s[i + 1..];
        SplittingLosesNothing(rest);
        TextAfterNewline(s, i);
        assert SplitTerminator(s) == [s[..i]] + SplitTerminator(rest);
        PrintOfLonger(s[..i], SplitTerminator(rest));
      } else {
        assert s[..i] == s;
        assert s[|s| - 1] in s;
        PrintOfLonger(s, []);
        assert [s] + [] == [s];
      }
    }
  }

  lemma PrintOfLonger(line: string, lines: seq<string>)
    ensures PrintedDiff.Print([line] + lines) == line + "\n" + PrintedDiff.Print(lines)
  {
    assert ([line] + lines)[1..] == lines;
  }

  /** One carriage return at the end of a line is dropped, and nothing else. */
  lemma OneReturnIsDropped(s: string)
    ensures StripCr(s + "\r") == s
    ensures s == "" || s[|s| - 1] != '\r' ==> StripCr(s) == s
  {
  }

  // ----- control characters -------------------------------------------------------------------------

  /** The printable characters and the tab. */
  predicate Harmless(c: char) {
    c == '\t' || 0x20 <= c as int <= 0x7E || 0xA0 <= c as int
  }

  predicate AllHarmless(s: string) {
    forall c | c in s :: Harmless(c)
  }

  function HexDigit(c: char): Option<nat> {
    if '0' <= c <= '9' then Some(c as int - '0' as int)
    else if 'a' <= c <= 'f' then Some(c as int - 'a' as int + 10)
    else None
  }

  /** The number a hexadecimal numeral stands for. */
  function HexValue(s: string): Option<nat> {
    if s == "" then Some(0)
    else
      var high, low := HexValue(s[..|s| - 1]), HexDigit(s[|s| - 1]);
      if high.Some? && low.Some? then Some(16 * high.value + low.value) else None
  }

  function HexCharacter(d: nat): (c: char)
    requires d < 16
    ensures HexDigit(c) == Some(d)
  {
    if d < 10 then Digit(d) else ('a' as int + (d - 10)) as char
  }

  lemma HexUnfolds(n: nat, high: nat, low: nat)
    requires n == 16 * high + low && low < 16
    ensures Hex(n) == (if high == 0 then "" else Hex(high)) + [HexCharacter(low)]
  {
    assert n / 16 == high && n % 16 == low;
  }

  lemma HexDigitValue(front: string, d: nat)
    requires d < 16 && HexValue(front).Some?
    ensures HexValue(front + [HexCharacter(d)]) == Some(16 * HexValue(front).value + d)
  {
    assert (front + [HexCharacter(d)])[..|front|] == front;
  }

  /** `Hex` writes the hexadecimal numeral of its number, without leading zeros. */
  lemma {:induction false} HexIsHexadecimal(n: nat)
    ensures Hex(n) != "" && HexValue(Hex(n)) == Some(n)
    ensures n != 0 ==> Hex(n)[0] != '0'
  {
    var high, low := n / 16, n % 16;
    HexUnfolds(n, high, low);
    if high == 0 {
      HexDigitValue("", low);
    } else {
      HexIsHexadecimal(high);
      HexDigitValue(Hex(high), low);
    }
  }

  lemma SafeOfOne(c: char)
    ensures !IsControl(c) || c == '\t' ==> Safe([c]) == [c]
    ensures c == '\r' ==> Safe([c]) == "\\r"
    ensures c == '\n' ==> Safe([c]) == "\\n"
    ensures IsControl(c) && c != '\t' && c != '\r' && c != '\n' ==> Safe([c]) == "\\u{" + Hex(c as int) + "}"
  {
    var s := [c];
    assert s[1..] == "" && Safe(s[1..]) == "";
  }

  lemma {:induction false} HexIsHarmless(n: nat)
    ensures AllHarmless(Hex(n))
  {
    if 16 <= n {
      HexIsHarmless(n / 16);
    }
  }

  /** How one character is shown. */
  lemma {:induction false} CharacterIsShown(c: char)
    ensures Harmless(c) ==> Safe([c]) == [c]
    ensures c == '\r' ==> Safe([c]) == "\\r"
    ensures c == '\n' ==> Safe([c]) == "\\n"
    ensures !Harmless(c) && c != '\r' && c != '\n' ==>
        exists hex :: Safe([c]) == "\\u{" + hex + "}" && hex != "" && HexValue(hex) == Some(c as nat)
                      && (c != '\0' ==> hex[0] != '0')
    ensures AllHarmless(Safe([c]))
  {
    SafeOfOne(c);
    if !Harmless(c) && c != '\r' && c != '\n' {
      var hex := Hex(c as nat);
      HexIsHexadecimal(c as nat);
      HexIsHarmless(c as nat);
      assert Safe([c]) == "\\u{" + hex + "}";
    }
  }

  /** Each character is shown by itself, whatever stands around it. */
  lemma {:induction false} SafeOfConcatenation(a: string, b: string)
    ensures Safe(a + b) == Safe(a) + Safe(b)
  {
    if a == "" {
      assert a + b == b;
    } else {
      assert (a + b)[1..] == a[1..] + b;
      SafeOfConcatenation(a[1..], b);
    }
  }

  /** No shown text holds a control character but tabs, and only texts with such characters are changed. */
  lemma {:induction false} ShownTextIsHarmless(s: string)
    ensures AllHarmless(Safe(s))
    ensures Safe(s) == s <==> AllHarmless(s)
  {
    if s != "" {
      assert s == [s[0]] + s[1..];
      SafeOfConcatenation([s[0]], s[1..]);
      CharacterIsShown(s[0]);
      ShownTextIsHarmless(s[1..]);
      if AllHarmless(s) {
        assert AllHarmless(s[1..]) && Harmless(s[0]);
      }
    }
  }

  // ----- classification -----------------------------------------------------------------------------

  lemma {:induction false} ClassifyFollowsTable(line: string)
    ensures Classify(line) == FileHeader <==> "diff --git " <= line || "--- " <= line || "+++ " <= line
    ensures Classify(line) == HunkHeader <==> "@@" <= line
    ensures Classify(line) == Addition <==> "+" <= line && !("+++ " <= line)
    ensures Classify(line) == Deletion <==> "-" <= line && !("--- " <= line)
    ensures Classify(line) == Context <==> line == "" || line[0] == ' '
    ensures Classify(line) == Notice
            <==> "\\ No newline at end of file" <= line || ("[" <= line && line[|line| - 1] == ']')
  {
    if line != "" {
      assert "@@" <= line ==> line[0] == '@';
      assert ("-" <= line <==> line[0] == '-') && ("+" <= line <==> line[0] == '+');
      assert ("--- " <= line ==> line[0] == '-') && ("+++ " <= line ==> line[0] == '+');
      assert "diff --git " <= line ==> line[0] == 'd';
      assert "\\ No newline at end of file" <= line ==> line[0] == '\\';
    }
  }

  // ----- hunk ranges --------------------------------------------------------------------------------

  /** A range of a header: any one-byte sign, an optional plus, digits, and whatever follows a comma. */
  predicate RangeParts(range: string, sign: char, plus: string, digits: string, tail: string) {
    && range == [sign] + plus + digits + tail
    && sign as int < 0x80 && (plus == "" || plus == "+")
    && digits != "" && (forall c | c in digits :: IsDigit(c))
    && (tail == "" || tail[0] == ',')
  }

  lemma DigitsAreRead(plus: string, digits: string)
    requires plus == "" || plus == "+"
    requires digits != "" && forall c | c in digits :: IsDigit(c)
    ensures ParseU32(plus + digits)
            == if DecimalValue(digits) < 0x1_0000_0000 then Some(DecimalValue(digits)) else None
  {
    var s := plus + digits;
    assert digits[0] in digits;
    assert (if s[0] == '+' then s[1..] else s) == digits;
  }

  /** A range written as it should be is read as its number, or refused when that needs more than 32 bits. */
  lemma {:induction false} RangeIsRead(range: string, sign: char, plus: string, digits: string, tail: string)
    requires RangeParts(range, sign, plus, digits, tail)
    ensures ParseRange(range)
            == if DecimalValue(digits) < 0x1_0000_0000 then Some(DecimalValue(digits)) else None
  {
    var rest := range[1..];
    var number := plus + digits;
    assert rest == number + tail;
    forall j | 0 <= j < |number| ensures rest[j] != ',' {
      assert rest[j] == number[j];
      assert j < |plus| || number[j] in digits;
    }
    PrintedDiff.FirstIndexIs(rest, ',', |number|);
    assert rest[..|number|] == number;
    DigitsAreRead(plus, digits);
  }

  /** Nothing else is read as a number; the hunk then starts at 0. */
  lemma {:induction false} OnlyRangesAreRead(range: string)
    ensures ParseRange(range).Some? ==>
        exists sign, plus, digits, tail :: RangeParts(range, sign, plus, digits, tail)
    ensures StartOf(None) == 0 && (ParseRange(range).None? ==> StartOf(Some(range)) == 0)
    ensures ParseRange(range).Some? ==> StartOf(Some(range)) == ParseRange(range).value < 0x1_0000_0000
  {
    if ParseRange(range).Some? {
      var rest := range[1..];
      var i := FirstIndex(rest, ',');
      var number := rest[..i];
      var plus := if number[0] == '+' then "+" else "";
      var digits := number[|plus|..];
      assert range == [range[0]] + plus + digits + rest[i..];
      assert RangeParts(range, range[0], plus, digits, rest[i..]);
    }
  }

  // ----- where a line stands ------------------------------------------------------------------------

  /** After `n` lines reading stands in the hunk whose header is line `h`. */
  predicate Heads(raws: seq<string>, h: nat, n: nat) {
    && h < n <= |raws| && "@@ " <= raws[h]
    && forall j | h < j < n :: !("@@ " <= raws[j]) && !("diff --git " <= raws[j])
  }

  predicate OnOldSide(raw: string) {
    "-" <= raw || " " <= raw
  }

  predicate OnNewSide(raw: string) {
    "+" <= raw || " " <= raw
  }

  function OldBetween(raws: seq<string>, from: nat, to: nat): nat
    requires from <= to <= |raws|
  {
    if from == to then 0 else OldBetween(raws, from, to - 1) + if OnOldSide(raws[to - 1]) then 1 else 0
  }

  function NewBetween(raws: seq<string>, from: nat, to: nat): nat
    requires from <= to <= |raws|
  {
    if from == to then 0 else NewBetween(raws, from, to - 1) + if OnNewSide(raws[to - 1]) then 1 else 0
  }

  function OldNumber(raws: seq<string>, h: nat, n: nat): nat
    requires h < n <= |raws|
  {
    (StartOf(Field(raws[h], 1)) + OldBetween(raws, h + 1, n)) % 0x1_0000_0000
  }

  function NewNumber(raws: seq<string>, h: nat, n: nat): nat
    requires h < n <= |raws|
  {
    (StartOf(Field(raws[h], 2)) + NewBetween(raws, h + 1, n)) % 0x1_0000_0000
  }

  predicate Unnumbered(row: ChangeLine) {
    row.oldLine.None? && row.newLine.None?
  }

  /** Line `i` as a line of the hunk with header `h`. */
  predicate BodyRow(raws: seq<string>, h: nat, i: nat, row: ChangeLine)
    requires h < i < |raws|
  {
    var raw := raws[i];
    && ("+" <= raw ==> row.kind == Addition && row.oldLine == None && row.newLine == Some(NewNumber(raws, h, i)))
    && ("-" <= raw ==> row.kind == Deletion && row.oldLine == Some(OldNumber(raws, h, i)) && row.newLine == None)
    && (" " <= raw ==>
        && row.kind == Context
        && row.oldLine == Some(OldNumber(raws, h, i)) && row.newLine == Some(NewNumber(raws, h, i)))
    && (!("+" <= raw) && !OnOldSide(raw) ==> row.kind == Notice && Unnumbered(row))
  }

  ghost predicate InSomeHunk(raws: seq<string>, n: nat) {
    exists h: nat :: Heads(raws, h, n)
  }

  ghost predicate RowFollows(raws: seq<string>, i: nat, row: ChangeLine)
    requires i < |raws|
  {
    && ("@@ " <= raws[i] ==> row.kind == HunkHeader && Unnumbered(row))
    && (!InSomeHunk(raws, i + 1) ==> row.kind == Classify(StripCr(raws[i])) && Unnumbered(row))
    && (forall h: nat | Heads(raws, h, i + 1) && h < i :: BodyRow(raws, h, i, row))
  }

  /** Where the reader stands agrees with the place in the patch. */
  ghost predicate Stands(raws: seq<string>, n: nat, p: Parse) {
    && (p.inHunk <==> InSomeHunk(raws, n))
    && forall h: nat | Heads(raws, h, n) ::
        p.oldNext == OldNumber(raws, h, n) && p.newNext == NewNumber(raws, h, n)
  }

  lemma HeadsGrow(raws: seq<string>, n: nat, m: nat)
    requires n < |raws| && m == n + 1
    ensures forall h: nat :: Heads(raws, h, m) <==> if "@@ " <= raws[n] then h == n
                                                     else !("diff --git " <= raws[n]) && Heads(raws, h, n)
  {
  }

  lemma StartIsSmall(field: Option<string>)
    ensures StartOf(field) < 0x1_0000_0000
  {
  }

  lemma CountsGrow(raws: seq<string>, from: nat, n: nat)
    requires from <= n < |raws|
    ensures OldBetween(raws, from, n + 1) == OldBetween(raws, from, n) + if OnOldSide(raws[n]) then 1 else 0
    ensures NewBetween(raws, from, n + 1) == NewBetween(raws, from, n) + if OnNewSide(raws[n]) then 1 else 0
  {
  }

  lemma Wraps(start: nat, count: nat, number: nat, following: nat)
    requires number == (start + count) % 0x1_0000_0000 && following == (start + (count + 1)) % 0x1_0000_0000
    ensures following == (number + 1) % 0x1_0000_0000
  {
  }

  lemma OldNumberGrows(raws: seq<string>, h: nat, n: nat)
    requires h < n < |raws|
    ensures OldNumber(raws, h, n + 1) == if OnOldSide(raws[n]) then (OldNumber(raws, h, n) + 1) % 0x1_0000_0000
                                          else OldNumber(raws, h, n)
  {
    CountsGrow(raws, h + 1, n);
    if OnOldSide(raws[n]) {
      Wraps(StartOf(Field(raws[h], 1)), OldBetween(raws, h + 1, n), OldNumber(raws, h, n), OldNumber(raws, h, n + 1));
    }
  }

  lemma NewNumberGrows(raws: seq<string>, h: nat, n: nat)
    requires h < n < |raws|
    ensures NewNumber(raws, h, n + 1) == if OnNewSide(raws[n]) then (NewNumber(raws, h, n) + 1) % 0x1_0000_0000
                                          else NewNumber(raws, h, n)
  {
    CountsGrow(raws, h + 1, n);
    if OnNewSide(raws[n]) {
      Wraps(StartOf(Field(raws[h], 2)), NewBetween(raws, h + 1, n), NewNumber(raws, h, n), NewNumber(raws, h, n + 1));
    }
  }

  lemma HeaderIsNumbered(p: Parse, raw: string)
    requires "@@ " <= raw
    ensures var (q, kind, oldLine, newLine) := Numbered(p, raw);
            && kind == HunkHeader && oldLine == None && newLine == None
            && q.inHunk && q.oldNext == StartOf(Field(raw, 1)) && q.newNext == StartOf(Field(raw, 2))
  {
    assert raw[2] == ' ' && "@@" <= StripCr(raw);
    ClassifyFollowsTable(StripCr(raw));
  }

  lemma NumbersStart(raws: seq<string>, h: nat)
    requires h < |raws|
    ensures OldNumber(raws, h, h + 1) == StartOf(Field(raws[h], 1))
    ensures NewNumber(raws, h, h + 1) == StartOf(Field(raws[h], 2))
  {
    StartIsSmall(Field(raws[h], 1));
    StartIsSmall(Field(raws[h], 2));
  }

  lemma HeaderStands(raws: seq<string>, p: Parse, n: nat)
    requires n < |raws| && "@@ " <= raws[n]
    ensures var (q, kind, oldLine, newLine) := Numbered(p, raws[n]);
            && Stands(raws, n + 1, q) && kind == HunkHeader && oldLine == None && newLine == None
  {
    HeaderIsNumbered(p, raws[n]);
    HeadsGrow(raws, n, n + 1);
    assert Heads(raws, n, n + 1);
    NumbersStart(raws, n);
  }

  lemma OutsideStands(raws: seq<string>, p: Parse, n: nat)
    requires n < |raws| && Stands(raws, n, p)
    requires !("@@ " <= raws[n]) && ("diff --git " <= raws[n] || !p.inHunk)
    ensures var (q, kind, oldLine, newLine) := Numbered(p, raws[n]);
            && Stands(raws, n + 1, q) && !InSomeHunk(raws, n + 1)
            && kind == Classify(StripCr(raws[n])) && oldLine == None && newLine == None
  {
    HeadsGrow(raws, n, n + 1);
  }

  lemma BodyIsNumbered(p: Parse, raw: string)
    requires p.inHunk && !("@@ " <= raw) && !("diff --git " <= raw)
    ensures var (q, kind, oldLine, newLine) := Numbered(p, raw);
            && q.inHunk
            && kind == (if "+" <= raw then Addition else if "-" <= raw then Deletion
                        else if " " <= raw then Context else Notice)
            && oldLine == (if OnOldSide(raw) then Some(p.oldNext) else None)
            && newLine == (if OnNewSide(raw) then Some(p.newNext) else None)
            && q.oldNext == (if OnOldSide(raw) then Next(p.oldNext) else p.oldNext)
            && q.newNext == (if OnNewSide(raw) then Next(p.newNext) else p.newNext)
            && q.additions == p.additions + (if "+" <= raw then 1 else 0)
            && q.deletions == p.deletions + (if "-" <= raw then 1 else 0)
  {
    if raw != "" {
      assert ("-" <= raw <==> raw[0] == '-') && ("+" <= raw <==> raw[0] == '+') && (" " <= raw <==> raw[0] == ' ');
    }
  }

  lemma BodyIsNumberedByPlace(raws: seq<string>, p: Parse, n: nat, h: nat, text: string)
    requires n < |raws| && Heads(raws, h, n) && p.inHunk
    requires p.oldNext == OldNumber(raws, h, n) && p.newNext == NewNumber(raws, h, n)
    requires !("@@ " <= raws[n]) && !("diff --git " <= raws[n])
    ensures var (q, kind, oldLine, newLine) := Numbered(p, raws[n]);
            && BodyRow(raws, h, n, ChangeLine(kind, text, oldLine, newLine))
            && q.inHunk && q.oldNext == OldNumber(raws, h, n + 1) && q.newNext == NewNumber(raws, h, n + 1)
  {
    BodyIsNumbered(p, raws[n]);
    SignsAreNotMarkers(raws[n]);
    OldNumberGrows(raws, h, n);
    NewNumberGrows(raws, h, n);
  }

  lemma BodyStands(raws: seq<string>, p: Parse, n: nat, h: nat, text: string)
    requires n < |raws| && Stands(raws, n, p) && Heads(raws, h, n)
    requires !("@@ " <= raws[n]) && !("diff --git " <= raws[n])
    ensures var (q, kind, oldLine, newLine) := Numbered(p, raws[n]);
            && Stands(raws, n + 1, q) && BodyRow(raws, h, n, ChangeLine(kind, text, oldLine, newLine))
  {
    BodyIsNumberedByPlace(raws, p, n, h, text);
    HeadsGrow(raws, n, n + 1);
    OneHeader(raws, h, n);
    assert Heads(raws, h, n + 1);
  }

  lemma OneHeader(raws: seq<string>, h: nat, n: nat)
    requires Heads(raws, h, n)
    ensures forall g: nat :: Heads(raws, g, n) <==> g == h
  {
  }

  // ----- the rows of a patch ------------------------------------------------------------------------

  function Bytes(rows: seq<ChangeLine>): nat {
    if rows == [] then 0 else Bytes(rows[..|rows| - 1]) + Utf8Length(rows[|rows| - 1].text)
  }

  /** The rows that are counted as added or removed. */
  function CountedAs(rows: seq<ChangeLine>, kind: LineKind): nat {
    if rows == [] then 0
    else
      var row := rows[|rows| - 1];
      CountedAs(rows[..|rows| - 1], kind) + if row.kind == kind && !Unnumbered(row) then 1 else 0
  }

  lemma RowsGrow(rows: seq<ChangeLine>, row: ChangeLine)
    ensures Bytes(rows + [row]) == Bytes(rows) + Utf8Length(row.text)
    ensures forall kind ::
        CountedAs(rows + [row], kind) == CountedAs(rows, kind) + (if row.kind == kind && !Unnumbered(row) then 1 else 0)
  {
    assert (rows + [row])[..|rows|] == rows;
  }

  /** At most 8 KiB of a line are read, and at most 8 KiB and what is left of 256 KiB are shown of it. */
  function TextOf(raw: string, left: nat): (r: string)
    ensures Utf8Length(r) <= left && Utf8Length(r) <= 8_192
  {
    var safe := Safe(TakeBytes(raw, MAX_LINE_BYTES));
    TakeBytesFits(safe, Min(MAX_LINE_BYTES, left));
    TakeBytes(safe, Min(MAX_LINE_BYTES, left))
  }

  /** Line `i`, begun when `before` bytes were shown: there was text left, and what was left is shown of it. */
  ghost predicate RowFor(raws: seq<string>, i: nat, before: nat, row: ChangeLine)
    requires i < |raws|
  {
    before < 262_144 && RowFollows(raws, i, row) && row.text == TextOf(raws[i], 262_144 - before)
  }

  ghost predicate RowAt(raws: seq<string>, rows: seq<ChangeLine>, i: nat)
    requires i < |rows| <= |raws|
  {
    RowFor(raws, i, Bytes(rows[..i]), rows[i])
  }

  ghost predicate AllFollow(raws: seq<string>, rows: seq<ChangeLine>) {
    && |rows| <= |raws| && |rows| <= 4_000 && Bytes(rows) <= 262_144
    && forall i | 0 <= i < |rows| :: RowAt(raws, rows, i)
  }

  /** Line `i` stands inside a hunk and starts with that sign. */
  ghost predicate BodyLineAt(raws: seq<string>, i: nat, sign: char) {
    i < |raws| && [sign] <= raws[i] && InSomeHunk(raws, i + 1)
  }

  /** The line for which no text was left is counted although it is not shown. */
  ghost predicate CountedUnshown(raws: seq<string>, rows: seq<ChangeLine>, sign: char) {
    |rows| < 4_000 && BodyLineAt(raws, |rows|, sign)
  }

  ghost predicate Outcome(raws: seq<string>, q: Parse) {
    && AllFollow(raws, q.lines)
    && (|q.lines| < |raws| ==> |q.lines| == 4_000 || Bytes(q.lines) == 262_144)
    && q.additions == CountedAs(q.lines, Addition) + (if CountedUnshown(raws, q.lines, '+') then 1 else 0)
    && q.deletions == CountedAs(q.lines, Deletion) + (if CountedUnshown(raws, q.lines, '-') then 1 else 0)
  }

  /** The state while lines are still read. */
  ghost predicate Reading(raws: seq<string>, p: Parse) {
    && !p.stopped && AllFollow(raws, p.lines) && Stands(raws, |p.lines|, p)
    && p.budget == 262_144 - Bytes(p.lines)
    && p.additions == CountedAs(p.lines, Addition) && p.deletions == CountedAs(p.lines, Deletion)
  }

  /** What one line is taken for, in either place it may stand. */
  lemma LineIsTaken(raws: seq<string>, p: Parse, n: nat, text: string)
    requires n < |raws| && Stands(raws, n, p)
    ensures var (q, kind, oldLine, newLine) := Numbered(p, raws[n]);
            Stands(raws, n + 1, q) && RowFollows(raws, n, ChangeLine(kind, text, oldLine, newLine))
  {
    HeadsGrow(raws, n, n + 1);
    if "@@ " <= raws[n] {
      HeaderStands(raws, p, n);
    } else if "diff --git " <= raws[n] || !p.inHunk {
      OutsideStands(raws, p, n);
    } else {
      var h: nat :| Heads(raws, h, n);
      BodyStands(raws, p, n, h, text);
      assert Heads(raws, h, n + 1);
    }
  }

  lemma OthersAreUncounted(p: Parse, raw: string)
    requires "@@ " <= raw || "diff --git " <= raw || !p.inHunk
    ensures var (q, kind, oldLine, newLine) := Numbered(p, raw);
            oldLine.None? && newLine.None? && q.additions == p.additions && q.deletions == p.deletions
  {
  }

  /** An added or removed line of a hunk is counted and numbered, any other is neither. */
  lemma LineIsCounted(raws: seq<string>, p: Parse, n: nat)
    requires n < |raws| && Stands(raws, n, p)
    ensures var (q, kind, oldLine, newLine) := Numbered(p, raws[n]);
            && q.additions == p.additions + (if BodyLineAt(raws, n, '+') then 1 else 0)
            && q.deletions == p.deletions + (if BodyLineAt(raws, n, '-') then 1 else 0)
            && (BodyLineAt(raws, n, '+') <==> kind == Addition && newLine.Some?)
            && (BodyLineAt(raws, n, '-') <==> kind == Deletion && oldLine.Some?)
            && (kind == Addition ==> oldLine.None?) && (kind == Deletion ==> newLine.None?)
  {
    HeadsGrow(raws, n, n + 1);
    SignsAreNotMarkers(raws[n]);
    if "@@ " <= raws[n] || "diff --git " <= raws[n] || !p.inHunk {
      OthersAreUncounted(p, raws[n]);
    } else {
      BodyIsNumbered(p, raws[n]);
      var h: nat :| Heads(raws, h, n);
      assert Heads(raws, h, n + 1);
    }
  }

  lemma SignsAreNotMarkers(raw: string)
    ensures "+" <= raw || "-" <= raw ==> !("@@ " <= raw) && !("diff --git " <= raw)
    ensures !("+" <= raw && ("-" <= raw || " " <= raw)) && !("-" <= raw && " " <= raw)
  {
    if raw != "" {
      assert ("-" <= raw ==> raw[0] == '-') && ("+" <= raw ==> raw[0] == '+') && (" " <= raw ==> raw[0] == ' ');
      assert ("@@ " <= raw ==> raw[0] == '@') && ("diff --git " <= raw ==> raw[0] == 'd');
    }
  }

  lemma RowStays(raws: seq<string>, rows: seq<ChangeLine>, row: ChangeLine, i: nat)
    requires i < |rows| < |raws| && RowAt(raws, rows, i)
    ensures RowAt(raws, rows + [row], i)
  {
    assert (rows + [row])[..i] == rows[..i];
  }

  lemma LastRowStands(raws: seq<string>, rows: seq<ChangeLine>, row: ChangeLine)
    requires |rows| < |raws| && RowFor(raws, |rows|, Bytes(rows), row)
    ensures RowAt(raws, rows + [row], |rows|)
  {
    assert (rows + [row])[..|rows|] == rows;
  }

  lemma FollowsOneMore(raws: seq<string>, rows: seq<ChangeLine>, row: ChangeLine)
    requires AllFollow(raws, rows) && |rows| < |raws| && |rows| < 4_000
    requires RowAt(raws, rows + [row], |rows|) && Bytes(rows) + Utf8Length(row.text) <= 262_144
    ensures AllFollow(raws, rows + [row])
  {
    RowsGrow(rows, row);
    forall i | 0 <= i < |rows| + 1 ensures RowAt(raws, rows + [row], i) {
      if i < |rows| {
        RowStays(raws, rows, row, i);
      }
    }
  }

  /** What one line leaves behind when it still becomes a row. */
  lemma ShownStep(p: Parse, line: string)
    requires |p.lines| < 4_000 && 0 < p.budget <= 262_144
    ensures var (q, kind, oldLine, newLine) := Numbered(p, StripCr(line));
            var text := TextOf(StripCr(line), p.budget);
            var r := LineStep(p, line);
            && Utf8Length(text) <= p.budget
            && r.lines == p.lines + [ChangeLine(kind, text, oldLine, newLine)]
            && r.budget == p.budget - Utf8Length(text) && r.stopped == p.stopped
            && r == q.(lines := r.lines, budget := r.budget, truncated := r.truncated)
  {
    PrintedDiff.NumberingKeepsRest(p, StripCr(line));
  }

  lemma StandsDespite(raws: seq<string>, n: nat, p: Parse, q: Parse)
    requires Stands(raws, n, p) && q.inHunk == p.inHunk && q.oldNext == p.oldNext && q.newNext == p.newNext
    ensures Stands(raws, n, q)
  {
  }

  lemma RowIsAdded(raws: seq<string>, p: Parse, row: ChangeLine)
    requires Reading(raws, p) && |p.lines| < |raws| && |p.lines| < 4_000
    requires RowFor(raws, |p.lines|, Bytes(p.lines), row)
    ensures AllFollow(raws, p.lines + [row]) && Bytes(p.lines + [row]) == Bytes(p.lines) + Utf8Length(row.text)
  {
    LastRowStands(raws, p.lines, row);
    RowsGrow(p.lines, row);
    FollowsOneMore(raws, p.lines, row);
  }

  lemma CountsGoOn(raws: seq<string>, p: Parse, text: string)
    requires Reading(raws, p) && |p.lines| < |raws|
    ensures var (q, kind, oldLine, newLine) := Numbered(p, raws[|p.lines|]);
            var rows := p.lines + [ChangeLine(kind, text, oldLine, newLine)];
            q.additions == CountedAs(rows, Addition) && q.deletions == CountedAs(rows, Deletion)
  {
    var (q, kind, oldLine, newLine) := Numbered(p, raws[|p.lines|]);
    LineIsCounted(raws, p, |p.lines|);
    RowsGrow(p.lines, ChangeLine(kind, text, oldLine, newLine));
  }

  lemma ReadingGoesOn(raws: seq<string>, p: Parse, line: string)
    requires Reading(raws, p) && |p.lines| < |raws| && raws[|p.lines|] == StripCr(line)
    requires |p.lines| < 4_000 && 0 < p.budget
    ensures Reading(raws, LineStep(p, line)) && |LineStep(p, line).lines| == |p.lines| + 1
  {
    var raw := StripCr(line);
    var text := TextOf(raw, p.budget);
    var (q, kind, oldLine, newLine) := Numbered(p, raw);
    ShownStep(p, line);
    LineIsTaken(raws, p, |p.lines|, text);
    RowIsAdded(raws, p, ChangeLine(kind, text, oldLine, newLine));
    CountsGoOn(raws, p, text);
    StandsDespite(raws, |p.lines| + 1, q, LineStep(p, line));
  }

  /** The last step: the cap on lines stops before a line is looked at, the end of the text after it is counted. */
  lemma ReadingStops(raws: seq<string>, p: Parse, line: string)
    requires Reading(raws, p) && |p.lines| < |raws| && raws[|p.lines|] == StripCr(line)
    requires |p.lines| == 4_000 || p.budget == 0
    ensures LineStep(p, line).stopped && LineStep(p, line).lines == p.lines && Outcome(raws, LineStep(p, line))
  {
    if |p.lines| != 4_000 {
      LineIsCounted(raws, p, |p.lines|);
      PrintedDiff.NumberingKeepsRest(p, StripCr(line));
    }
  }

  lemma ReadingStep(raws: seq<string>, p: Parse, line: string) returns (q: Parse)
    requires Reading(raws, p) && |p.lines| < |raws| && raws[|p.lines|] == StripCr(line)
    ensures q == LineStep(p, line)
    ensures if q.stopped then Outcome(raws, q) else Reading(raws, q) && |q.lines| == |p.lines| + 1
  {
    q := LineStep(p, line);
    if |p.lines| == 4_000 || p.budget == 0 {
      ReadingStops(raws, p, line);
    } else {
      ReadingGoesOn(raws, p, line);
    }
  }

  lemma AllIsRead(raws: seq<string>, p: Parse)
    requires Reading(raws, p) && |p.lines| == |raws|
    ensures Outcome(raws, p)
  {
  }

  lemma {:induction false} ReadingEnds(raws: seq<string>, pieces: seq<string>, p: Parse)
    requires |raws| == |pieces| && forall i | 0 <= i < |raws| :: raws[i] == StripCr(pieces[i])
    requires Reading(raws, p)
    ensures Outcome(raws, ParseLines(p, pieces[|p.lines|..]))
    decreases |pieces| - |p.lines|
  {
    var n := |p.lines|;
    if n < |pieces| {
      ParseStep(p, pieces, n);
      var q := ReadingStep(raws, p, pieces[n]);
      if !q.stopped {
        ReadingEnds(raws, pieces, q);
      }
    } else {
      AllIsRead(raws, p);
      assert pieces[n..] == [];
    }
  }

  /** The lines of a patch without the carriage returns at their ends. */
  function RawLines(patch: string): (raws: seq<string>)
    ensures |raws| == |SplitTerminator(patch)|
  {
    var pieces := SplitTerminator(patch);
    seq(|pieces|, i requires 0 <= i < |pieces| => StripCr(pieces[i]))
  }

  lemma ReadingOutcome(patch: string, truncated: bool)
    ensures Outcome(RawLines(patch), ParseLines(Start(truncated), SplitTerminator(patch)))
  {
    var pieces := SplitTerminator(patch);
    ReadingEnds(RawLines(patch), pieces, Start(truncated));
    assert pieces[0..] == pieces;
  }

  /**
   Every row of any patch: its kind, its numbers and its text by the place of its line. Rows are missing
   only after 4000 of them or when 256 KiB of text are used up.
   */
  lemma {:induction false} EveryRowFollows(patch: string, truncated: bool)
    ensures var rows := FromPatch(patch, truncated).lines;
            && AllFollow(RawLines(patch), rows)
            && (|rows| < |RawLines(patch)| ==> |rows| == 4_000 || Bytes(rows) == 262_144)
  {
    ReadingOutcome(patch, truncated);
  }

  /**
   The counts are those of the numbered rows shown, except that the line for which no text is left is
   counted without being shown: they agree exactly when that line is not an added or removed one.
   */
  lemma {:induction false} CountsAreOfShownRowsExactly(patch: string, truncated: bool)
    ensures var r := FromPatch(patch, truncated);
            && (r.additions == CountedAs(r.lines, Addition) <==> !CountedUnshown(RawLines(patch), r.lines, '+'))
            && (r.deletions == CountedAs(r.lines, Deletion) <==> !CountedUnshown(RawLines(patch), r.lines, '-'))
            && r.additions <= CountedAs(r.lines, Addition) + 1 && r.deletions <= CountedAs(r.lines, Deletion) + 1
  {
    ReadingOutcome(patch, truncated);
  }

  lemma {:induction false} HeadersUseUpText(raws: seq<string>, header: string, rows: seq<ChangeLine>, n: nat)
    requires "@@ " <= header && AllHarmless(header) && Utf8Length(header) == 8_192
    requires n <= |rows| && n <= 32 < |raws| && forall i | 0 <= i < 32 :: raws[i] == header
    requires AllFollow(raws, rows)
    ensures Bytes(rows[..n]) == 8_192 * n && CountedAs(rows[..n], Addition) == 0
  {
    if n != 0 {
      var m := n - 1;
      HeadersUseUpText(raws, header, rows, m);
      assert rows[..n][..m] == rows[..m] && rows[..n][m] == rows[m];
      assert RowAt(raws, rows, m);
      HeaderIsShownWhole(header, 262_144 - Bytes(rows[..m]));
    }
  }

  lemma HeaderIsShownWhole(header: string, left: nat)
    requires AllHarmless(header) && Utf8Length(header) == 8_192 <= left
    ensures TextOf(header, left) == header
  {
    ShownTextIsHarmless(header);
    TakeBytesFits(header, MAX_LINE_BYTES);
    TakeBytesFits(header, Min(MAX_LINE_BYTES, left));
  }

  lemma BegunWithTextLeft(raws: seq<string>, rows: seq<ChangeLine>, i: nat)
    requires AllFollow(raws, rows) && i < |rows|
    ensures Bytes(rows[..i]) < 262_144
  {
    assert RowAt(raws, rows, i);
  }

  lemma HeadersAreShown(raws: seq<string>, header: string, rows: seq<ChangeLine>)
    requires "@@ " <= header && AllHarmless(header) && Utf8Length(header) == 8_192
    requires |raws| == 33 && forall i | 0 <= i < 32 :: raws[i] == header
    requires AllFollow(raws, rows) && (|rows| < |raws| ==> |rows| == 4_000 || Bytes(rows) == 262_144)
    ensures |rows| == 32 && CountedAs(rows, Addition) == 0
  {
    if |rows| <= 32 {
      HeadersUseUpText(raws, header, rows, |rows|);
      assert rows[..|rows|] == rows;
    } else {
      BegunWithTextLeft(raws, rows, 32);
      HeadersUseUpText(raws, header, rows, 32);
      assert false;
    }
  }

  lemma RawLinesOfPrint(lines: seq<string>)
    requires forall i | 0 <= i < |lines| :: AllHarmless(lines[i])
    ensures RawLines(PrintedDiff.Print(lines)) == lines
  {
    forall i | 0 <= i < |lines| ensures PrintedDiff.Clean(lines[i]) && StripCr(lines[i]) == lines[i] {
      PrintedDiff.CleanStaysWhole(lines[i]);
    }
    PrintedDiff.SplitOfPrint(lines);
  }

  /**
   Patches whose count is off by one: 32 headers of 8 KiB use up the text, and the added line after them is
   counted although no added line is shown.
   */
  lemma {:induction false} UnshownLineIsCounted(header: string, last: string)
    requires "@@ " <= header && AllHarmless(header) && Utf8Length(header) == 8_192
    requires "+" <= last && AllHarmless(last)
    ensures var r := FromPatch(PrintedDiff.Print(seq(32, _ => header) + [last]), false);
            |r.lines| == 32 && r.additions == 1 && CountedAs(r.lines, Addition) == 0
  {
    var raws := seq(32, _ => header) + [last];
    RawLinesOfPrint(raws);
    ReadingOutcome(PrintedDiff.Print(raws), false);
    HeadersAreShown(raws, header, FromPatch(PrintedDiff.Print(raws), false).lines);
    LastLineIsBody(raws);
  }

  lemma LastLineIsBody(raws: seq<string>)
    requires |raws| == 33 && "@@ " <= raws[31] && "+" <= raws[32]
    ensures BodyLineAt(raws, 32, '+')
  {
    SignsAreNotMarkers(raws[32]);
    assert Heads(raws, 31, 33);
  }

  lemma {:induction false} LongText(n: nat)
    ensures Utf8Length(seq(n, _ => 'x')) == n && AllHarmless(seq(n, _ => 'x'))
  {
    if n != 0 {
      assert seq(n, _ => 'x')[1..] == seq(n - 1, _ => 'x');
      LongText(n - 1);
    }
  }

  /** There are headers of exactly 8 KiB. */
  lemma LongHeader(header: string, n: nat)
    requires n == 8_189 && header == "@@ " + seq(n, _ => 'x')
    ensures "@@ " <= header && AllHarmless(header) && Utf8Length(header) == 8_192
  {
    LongText(n);
    var text := seq(n, _ => 'x');
    assert header[1..] == "@ " + text && ("@ " + text)[1..] == " " + text && (" " + text)[1..] == text;
    assert Utf8Length(" " + text) == n + 1;
    assert Utf8Length("@ " + text) == n + 2;
  }

  /** What any client is shown: bounded rows without control characters but tabs. */
  lemma {:induction false} ShownRowsAreBoundedAndHarmless(patch: string, truncated: bool)
    ensures var rows := FromPatch(patch, truncated).lines;
            && |rows| <= 4_000 && Bytes(rows) <= 262_144
            && forall i | 0 <= i < |rows| :: Utf8Length(rows[i].text) <= 8_192 && AllHarmless(rows[i].text)
  {
    ReadingOutcome(patch, truncated);
    var rows, raws := FromPatch(patch, truncated).lines, RawLines(patch);
    forall i | 0 <= i < |rows| ensures Utf8Length(rows[i].text) <= 8_192 && AllHarmless(rows[i].text) {
      assert RowAt(raws, rows, i);
      TextIsHarmless(raws[i], 262_144 - Bytes(rows[..i]));
    }
  }

  lemma TextIsHarmless(raw: string, left: nat)
    ensures AllHarmless(TextOf(raw, left))
  {
    var safe := Safe(TakeBytes(raw, MAX_LINE_BYTES));
    ShownTextIsHarmless(TakeBytes(raw, MAX_LINE_BYTES));
    TakeBytesFits(safe, Min(MAX_LINE_BYTES, left));
    forall c | c in TextOf(raw, left) ensures Harmless(c) {
      assert c in safe;
    }
  }
}
