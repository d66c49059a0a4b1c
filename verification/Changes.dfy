/**
 Reading a unified diff into numbered lines and aligning it side by side
 (crates/sylvops-core/src/changes.rs:10-13, 232-402 and crates/sylvops-core/src/diff.rs:34-63).

 Line numbers are 32-bit and wrap as in the release profile.
 */
module Changes {
  import opened Wrappers
  import opened Text

  const MAX_FILE_BYTES: nat := 256 * 1024
  const MAX_DIFF_LINES: nat := 4_000
  const MAX_LINE_BYTES: nat := 8 * 1024

  datatype LineKind = FileHeader | Metadata | HunkHeader | Addition | Deletion | Context | Notice

  datatype ChangeLine = ChangeLine(kind: LineKind, text: string, oldLine: Option<nat>, newLine: Option<nat>)

  // ----- text helpers -----------------------------------------------------------------------------

  /** The pieces between newlines; a final newline ends the last piece instead of starting one. */
  function SplitTerminator(s: string): seq<string> {
    if s == "" then []
    else
      var i := FirstIndex(s, '\n');
      if i == |s| then [s] else [s[..i]] + SplitTerminator(s[i + 1..])
  }

  function FirstIndex(s: string, c: char): (i: nat)
    ensures i <= |s| && (i < |s| ==> s[i] == c) && forall j | 0 <= j < i :: s[j] != c
  {
    if s == "" || s[0] == c then 0 else 1 + FirstIndex(s[1..], c)
  }

  function StripCr(s: string): string {
    if s != "" && s[|s| - 1] == '\r' then s[..|s| - 1] else s
  }

  /** The longest prefix of at most `n` bytes that does not split a character. */
  function TakeBytes(s: string, n: nat): string {
    if s == "" || CharWidth(s[0]) > n then "" else [s[0]] + TakeBytes(s[1..], n - CharWidth(s[0]))
  }

  function Hex(n: nat): string {
    (if n < 16 then "" else Hex(n / 16)) + [if n % 16 < 10 then Digit(n % 16) else ('a' as int + (n % 16 - 10)) as char]
  }

  /** Control characters are shown escaped; tabs stay. */
  function Safe(s: string): string {
    if s == "" then ""
    else
      (if !IsControl(s[0]) || s[0] == '\t' then [s[0]]
       else if s[0] == '\r' then "\\r"
       else if s[0] == '\n' then "\\n"
       else "\\u{" + Hex(s[0] as int) + "}")
      + Safe(s[1..])
  }

  predicate IsSpace(c: char) {
    var n := c as int;
    || 0x09 <= n <= 0x0D || n == 0x20 || n == 0x85 || n == 0xA0 || n == 0x1680 || 0x2000 <= n <= 0x200A
    || n == 0x2028 || n == 0x2029 || n == 0x202F || n == 0x205F || n == 0x3000
  }

  function SkipSpace(s: string): (r: string)
    ensures |r| <= |s| && (r != "" ==> !IsSpace(r[0]))
  {
    if s != "" && IsSpace(s[0]) then SkipSpace(s[1..]) else s
  }

  function Word(s: string): (r: string)
    ensures r <= s
  {
    if s == "" || IsSpace(s[0]) then "" else [s[0]] + Word(s[1..])
  }

  /** The n-th field between white space, counting from zero. */
  function Field(s: string, n: nat): Option<string>
    decreases n
  {
    var t := SkipSpace(s);
    if t == "" then None else if n == 0 then Some(Word(t)) else Field(t[|Word(t)|..], n - 1)
  }

  /** Rust's `u32` parser: an optional plus sign and at least one digit, in range. */
  function ParseU32(s: string): Option<nat> {
    var digits := if s != "" && s[0] == '+' then s[1..] else s;
    if digits == "" || exists c | c in digits :: !IsDigit(c) then None
    else if DecimalValue(digits) >= U32_RANGE then None
    else Some(DecimalValue(digits))
  }

  /** The number between the sign and the comma of a hunk range. */
  function ParseRange(range: string): Option<nat> {
    if range == "" || CharWidth(range[0]) != 1 then None
    else ParseU32(range[1..][..FirstIndex(range[1..], ',')])
  }

  function StartOf(field: Option<string>): nat {
    if field.None? || ParseRange(field.value).None? then 0 else ParseRange(field.value).value
  }

  // ----- classification ---------------------------------------------------------------------------

  predicate EndsWith(s: string, c: char) {
    s != "" && s[|s| - 1] == c
  }

  function Classify(line: string): LineKind {
    if "diff --git " <= line || "--- " <= line || "+++ " <= line then FileHeader
    else if "@@" <= line then HunkHeader
    else if "+" <= line then Addition
    else if "-" <= line then Deletion
    else if " " <= line || line == "" then Context
    else if "\\ No newline at end of file" <= line || ("[" <= line && EndsWith(line, ']')) then Notice
    else Metadata
  }

  /** Inside a hunk the first character alone decides, whatever the content looks like. */
  function BodyKind(line: string): LineKind {
    if line == "" then Notice
    else if line[0] == '+' then Addition
    else if line[0] == '-' then Deletion
    else if line[0] == ' ' then Context
    else Notice
  }

  // ----- one line of a patch ----------------------------------------------------------------------

  datatype Parse = Parse(
    lines: seq<ChangeLine>,
    additions: nat,
    deletions: nat,
    truncated: bool,
    oldNext: nat,
    newNext: nat,
    inHunk: bool,
    budget: nat,
    stopped: bool)

  function Start(truncated: bool): Parse {
    Parse([], 0, 0, truncated, 0, 0, false, MAX_FILE_BYTES, false)
  }

  function Next(n: nat): nat {
    (n + 1) % U32_RANGE
  }

  function Min(a: nat, b: nat): nat {
    if a <= b then a else b
  }

  function Shown(raw: string, budget: nat): string {
    TakeBytes(Safe(TakeBytes(raw, MAX_LINE_BYTES)), Min(MAX_LINE_BYTES, budget))
  }

  predicate Cut(raw: string, budget: nat) {
    TakeBytes(raw, MAX_LINE_BYTES) != raw || Shown(raw, budget) != Safe(TakeBytes(raw, MAX_LINE_BYTES))
  }

  /** Hunk headers set the numbering; body lines take numbers and are counted. */
  function Numbered(p: Parse, raw: string): (r: (Parse, LineKind, Option<nat>, Option<nat>)) {
    var inHunk := p.inHunk && !("diff --git " <= raw);
    if "@@ " <= raw then
      (p.(oldNext := StartOf(Field(raw, 1)), newNext := StartOf(Field(raw, 2)), inHunk := true),
          Classify(StripCr(raw)), None, None)
    else if !inHunk then
      (p.(inHunk := false), Classify(StripCr(raw)), None, None)
    else
      match BodyKind(raw)
      case Addition =>
        (p.(additions := p.additions + 1, newNext := Next(p.newNext)), Addition, None, Some(p.newNext))
      case Deletion =>
        (p.(deletions := p.deletions + 1, oldNext := Next(p.oldNext)), Deletion, Some(p.oldNext), None)
      case Context =>
        (p.(oldNext := Next(p.oldNext), newNext := Next(p.newNext)), Context, Some(p.oldNext), Some(p.newNext))
      case kind => (p, kind, None, None)
  }

  function LineStep(p: Parse, line: string): Parse {
    if |p.lines| == MAX_DIFF_LINES then p.(truncated := true, stopped := true)
    else
      var raw := StripCr(line);
      var (q, kind, oldLine, newLine) := Numbered(p, raw);
      var truncated := p.truncated || Cut(raw, p.budget);
      if p.budget == 0 then q.(truncated := true, stopped := true)
      else
        var text := Shown(raw, p.budget);
        q.(lines := q.lines + [ChangeLine(kind, text, oldLine, newLine)], truncated := truncated,
           budget := if Utf8Length(text) <= p.budget then p.budget - Utf8Length(text) else 0)
  }

  function ParseLines(p: Parse, lines: seq<string>): Parse
    decreases |lines|
  {
    if lines == [] || p.stopped then p else ParseLines(LineStep(p, lines[0]), lines[1..])
  }

  datatype FileChange = FileChange(lines: seq<ChangeLine>, additions: nat, deletions: nat, truncated: bool)

  function FromPatch(patch: string, truncated: bool): FileChange {
    Finish(ParseLines(Start(truncated), SplitTerminator(patch)))
  }

  function Finish(p: Parse): FileChange {
    FileChange(p.lines, p.additions, p.deletions, p.truncated)
  }

  lemma {:induction false} TakeBytesFits(s: string, n: nat)
    ensures Utf8Length(TakeBytes(s, n)) <= n
    ensures TakeBytes(s, n) <= s
    ensures TakeBytes(s, n) == s <==> Utf8Length(s) <= n
  {
    if s != "" && CharWidth(s[0]) <= n {
      TakeBytesFits(s[1..], n - CharWidth(s[0]));
      var rest := TakeBytes(s[1..], n - CharWidth(s[0]));
      assert TakeBytes(s, n)[1..] == rest;
      assert s == [s[0]] + s[1..];
    }
  }

  /** No longer prefix fits. */
  lemma {:induction false} TakeBytesIsLongest(s: string, n: nat)
    ensures TakeBytes(s, n) <= s
    ensures var k := |TakeBytes(s, n)|; k < |s| ==> n < Utf8Length(TakeBytes(s, n)) + CharWidth(s[k])
  {
    TakeBytesFits(s, n);
    if s != "" && CharWidth(s[0]) <= n {
      TakeBytesIsLongest(s[1..], n - CharWidth(s[0]));
      assert TakeBytes(s, n)[1..] == TakeBytes(s[1..], n - CharWidth(s[0]));
    }
  }

  lemma ParseStep(p: Parse, pieces: seq<string>, i: nat)
    requires i < |pieces| && !p.stopped
    ensures ParseLines(p, pieces[i..]) == ParseLines(LineStep(p, pieces[i]), pieces[i + 1..])
    ensures LineStep(p, pieces[i]).stopped ==> ParseLines(p, pieces[i..]) == LineStep(p, pieces[i])
  {
    assert pieces[i..][1..] == pieces[i + 1..];
  }

  /** The half of the loop body that classifies and numbers a line. */
  method NumberLine(p: Parse, raw: string)
    returns (q: Parse, kind: LineKind, oldLine: Option<nat>, newLine: Option<nat>)
    ensures (q, kind, oldLine, newLine) == Numbered(p, raw)
  {
    var inHunk, additions, deletions, oldNext, newNext := p.inHunk, p.additions, p.deletions, p.oldNext, p.newNext;
    if "diff --git " <= raw {
      inHunk := false;
    }
    kind, oldLine, newLine := Classify(StripCr(raw)), None, None;
    if "@@ " <= raw {
      oldNext, newNext, inHunk := StartOf(Field(raw, 1)), StartOf(Field(raw, 2)), true;
    } else if inHunk {
      kind := BodyKind(raw);
      if kind == Addition {
        additions, newLine, newNext := additions + 1, Some(newNext), Next(newNext);
      } else if kind == Deletion {
        deletions, oldLine, oldNext := deletions + 1, Some(oldNext), Next(oldNext);
      } else if kind == Context {
        oldLine, newLine, oldNext, newNext := Some(oldNext), Some(newNext), Next(oldNext), Next(newNext);
      }
    }
    q := p.(inHunk := inHunk, additions := additions, deletions := deletions, oldNext := oldNext, newNext := newNext);
  }

  /** The whole loop body: the line cap, the numbering, and the text within its limits. */
  method ReadLine(p: Parse, line: string) returns (r: Parse)
    requires !p.stopped
    ensures r == LineStep(p, line)
  {
    if |p.lines| == MAX_DIFF_LINES {
      return p.(truncated := true, stopped := true);
    }
    var raw := StripCr(line);
    var q, kind, oldLine, newLine := NumberLine(p, raw);
    var head := TakeBytes(raw, MAX_LINE_BYTES);
    var safe := Safe(head);
    var text := TakeBytes(safe, Min(MAX_LINE_BYTES, p.budget));
    assert text == Shown(raw, p.budget);
    if head != raw || text != safe {
      q := q.(truncated := true);
    }
    if p.budget == 0 {
      return q.(truncated := true, stopped := true);
    }
    TakeBytesFits(safe, Min(MAX_LINE_BYTES, p.budget));
    r := q.(lines := q.lines + [ChangeLine(kind, text, oldLine, newLine)], budget := p.budget - Utf8Length(text));
  }

  method ReadPatch(patch: string, alreadyTruncated: bool) returns (r: FileChange)
    ensures r == FromPatch(patch, alreadyTruncated)
  {
    var pieces := SplitTerminator(patch);
    var p := Start(alreadyTruncated);
    var i := 0;
    assert pieces[0..] == pieces;
    while i < |pieces| && !p.stopped
      invariant 0 <= i <= |pieces|
      invariant ParseLines(Start(alreadyTruncated), pieces) == ParseLines(p, pieces[i..])
    {
      ParseStep(p, pieces, i);
      p := ReadLine(p, pieces[i]);
      i := i + 1;
    }
    r := Finish(p);
  }
}
