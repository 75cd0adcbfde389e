/**
 * Source text, positions and range edits (texpressoSession.ts), specified on
 * the array of lines obtained by splitting a source at every newline.
 */
module SourceText {
  import opened Wrappers

  /** A source is a sequence of UTF-16 code units, as a JavaScript string is. */
  type Unit = bv16
  type Text = seq<Unit>

  const NEWLINE: Unit := 10

  datatype Position = Position(line: int, character: int)
  datatype Range = Range(start: Position, end: Position)
  datatype PositionError = BadPosition | LineOutside | CharacterOutside

  // ---------------------------------------------------------------- lines

  /** `source.indexOf("\n", from)`. */
  function IndexOfNewline(s: Text, from: nat): (r: int)
    requires from <= |s|
    ensures r == -1 ==> forall i | from <= i < |s| :: s[i] != NEWLINE
    ensures r != -1 ==> from <= r < |s| && s[r] == NEWLINE && forall i | from <= i < r :: s[i] != NEWLINE
    decreases |s| - from
  {
    if from == |s| then -1 else if s[from] == NEWLINE then from else IndexOfNewline(s, from + 1)
  }

  /** `source.split("\n")`: always at least one line. */
  function Lines(s: Text): (lines: seq<Text>)
    ensures |lines| >= 1
    decreases |s|
  {
    var n := IndexOfNewline(s, 0);
    if n < 0 then [s] else [s[..n]] + Lines(s[n + 1..])
  }

  function Join(lines: seq<Text>): Text
    requires |lines| >= 1
  {
    if |lines| == 1 then lines[0] else lines[0] + [NEWLINE] + Join(lines[1..])
  }

  function Last<T>(s: seq<T>): T
    requires |s| >= 1
  {
    s[|s| - 1]
  }

  /** Two arrays of lines put end to end: the lines that meet become one. */
  function Merge(x: seq<Text>, y: seq<Text>): (r: seq<Text>)
    requires |x| >= 1 && |y| >= 1
    ensures |r| == |x| + |y| - 1
  {
    x[..|x| - 1] + [Last(x) + y[0]] + y[1..]
  }

  lemma MergeCons(line: Text, x: seq<Text>, y: seq<Text>)
    requires |x| >= 1 && |y| >= 1
    ensures Merge([line] + x, y) == [line] + Merge(x, y)
  {
  }

  lemma IndexOfNewlineUnique(s: Text, from: nat, n: int)
    requires from <= |s|
    requires n == -1 ==> NEWLINE !in s[from..]
    requires n != -1 ==> from <= n < |s| && s[n] == NEWLINE && NEWLINE !in s[from..n]
    ensures IndexOfNewline(s, from) == n
    decreases |s| - from
  {
    if from < |s| && from != n {
      assert s[from] == (if n == -1 then s[from..] else s[from..n])[0];
      assert n == -1 ==> s[from..][1..] == s[from + 1..];
      assert n != -1 ==> s[from..n][1..] == s[from + 1..n];
      IndexOfNewlineUnique(s, from + 1, n);
    }
  }

  lemma LinesOfOneLine(s: Text)
    requires NEWLINE !in s
    ensures Lines(s) == [s]
  {
    assert s[0..] == s;
    IndexOfNewlineUnique(s, 0, -1);
  }

  lemma LinesCons(line: Text, s: Text)
    requires NEWLINE !in line
    ensures IndexOfNewline(line + [NEWLINE] + s, 0) == |line|
    ensures Lines(line + [NEWLINE] + s) == [line] + Lines(s)
  {
    var all := line + [NEWLINE] + s;
    assert all[0..|line|] == line;
    IndexOfNewlineUnique(all, 0, |line|);
    assert all[..|line|] == line && all[|line| + 1..] == s;
  }

  /** A source is one line, or a line, a newline and the rest. */
  lemma Uncons(s: Text)
    ensures var n := IndexOfNewline(s, 0);
            if n < 0 then NEWLINE !in s && Lines(s) == [s]
            else && NEWLINE !in s[..n] && s == s[..n] + [NEWLINE] + s[n + 1..]
                 && Lines(s) == [s[..n]] + Lines(s[n + 1..])
  {
  }

  /** Splitting and joining lose nothing, and no line holds a newline. */
  lemma {:induction false} JoinOfLines(s: Text)
    ensures Join(Lines(s)) == s
    ensures forall i | 0 <= i < |Lines(s)| :: NEWLINE !in Lines(s)[i]
    decreases |s|
  {
    Uncons(s);
    var n := IndexOfNewline(s, 0);
    if n < 0 {
    } else {
      JoinOfLines(s[n + 1..]);
      assert Lines(s)[1..] == Lines(s[n + 1..]);
    }
  }

  lemma {:induction false} LinesDetermineText(a: Text, b: Text)
    requires Lines(a) == Lines(b)
    ensures a == b
  {
    JoinOfLines(a);
    JoinOfLines(b);
  }

  /** Splitting a concatenation: only the two lines that meet are merged. */
  lemma {:induction false} LinesOfConcat(a: Text, b: Text)
    ensures Lines(a + b) == Merge(Lines(a), Lines(b))
    decreases |a|
  {
    hide Lines, IndexOfNewline;
    Uncons(a);
    var n := IndexOfNewline(a, 0);
    if n >= 0 {
      var rest := a[n + 1..];
      LinesOfConcat(rest, b);
      assert a + b == a[..n] + [NEWLINE] + (rest + b);
      LinesCons(a[..n], rest + b);
      MergeCons(a[..n], Lines(rest), Lines(b));
    } else {
      LinesOfPrefixedLine(a, b);
    }
  }

  lemma {:induction false} LinesOfPrefixedLine(line: Text, s: Text)
    requires NEWLINE !in line
    ensures Lines(line + s) == [line + Lines(s)[0]] + Lines(s)[1..]
  {
    hide Lines, IndexOfNewline;
    Uncons(s);
    var n := IndexOfNewline(s, 0);
    if n < 0 {
      LinesOfOneLine(line + s);
    } else {
      assert line + s == (line + s[..n]) + [NEWLINE] + s[n + 1..];
      LinesCons(line + s[..n], s[n + 1..]);
    }
  }

  // ------------------------------------------------- positions to offsets

  /**
   * What positionToOffset must return, by recursion on the lines of `s`:
   * skip whole lines, then check the character against its own line.
   */
  function ResolvePosition(s: Text, line: nat, character: nat): (r: Result<nat, PositionError>)
    ensures r.Success? ==> r.value <= |s|
    decreases line
  {
    var n := IndexOfNewline(s, 0);
    if line > 0 then
      if n < 0 then Failure(LineOutside)
      else Shift(n + 1, ResolvePosition(s[n + 1..], line - 1, character))
    else if character > (if n < 0 then |s| else n) then Failure(CharacterOutside)
    else Success(character)
  }

  function PositionOffset(s: Text, p: Position): (r: Result<nat, PositionError>)
    ensures r.Success? ==> r.value <= |s|
  {
    if p.line < 0 || p.character < 0 then Failure(BadPosition) else ResolvePosition(s, p.line, p.character)
  }

  lemma IndexOfNewlineInSuffix(s: Text, from: nat)
    requires from <= |s|
    ensures var n := IndexOfNewline(s[from..], 0);
            IndexOfNewline(s, from) == if n < 0 then -1 else from + n
  {
    var tail := s[from..];
    Uncons(tail);
    var n := IndexOfNewline(tail, 0);
    if n >= 0 { assert s[from..from + n] == tail[..n]; }
    IndexOfNewlineUnique(s, from, if n < 0 then -1 else from + n);
  }

  function Shift(skipped: nat, r: Result<nat, PositionError>): Result<nat, PositionError> {
    match r
    case Success(offset) => Success(skipped + offset)
    case Failure(_) => r
  }

  lemma SkipLine(s: Text, lineStart: nat, line: nat, character: nat)
    requires lineStart <= |s| && line > 0
    ensures var n := IndexOfNewline(s, lineStart);
            ResolvePosition(s[lineStart..], line, character) ==
            if n < 0 then Failure(LineOutside)
            else Shift(n + 1 - lineStart, ResolvePosition(s[n + 1..], line - 1, character))
  {
    IndexOfNewlineInSuffix(s, lineStart);
    var n := IndexOfNewline(s, lineStart);
    if n >= 0 {
      assert s[lineStart..][n - lineStart + 1..] == s[n + 1..];
    }
  }

  lemma CheckCharacter(s: Text, lineStart: nat, character: nat)
    requires lineStart <= |s|
    ensures var n := IndexOfNewline(s, lineStart);
            ResolvePosition(s[lineStart..], 0, character) ==
            if lineStart + character > (if n < 0 then |s| else n) then Failure(CharacterOutside)
            else Success(character)
  {
    IndexOfNewlineInSuffix(s, lineStart);
  }

  /** positionToOffset: the loop that walks `lineStart` forward, line by line. */
  method PositionToOffset(source: Text, position: Position) returns (r: Result<nat, PositionError>)
    ensures r == PositionOffset(source, position)
  {
    hide ResolvePosition, IndexOfNewline;
    if position.line < 0 || position.character < 0 {
      return Failure(BadPosition);
    }
    var lineStart := 0;
    var line := 0;
    assert source[0..] == source;
    while line < position.line
      invariant 0 <= line <= position.line && 0 <= lineStart <= |source|
      invariant PositionOffset(source, position) ==
                Shift(lineStart, ResolvePosition(source[lineStart..], position.line - line, position.character))
    {
      SkipLine(source, lineStart, position.line - line, position.character);
      var newline := IndexOfNewline(source, lineStart);
      if newline < 0 {
        return Failure(LineOutside);
      }
      lineStart := newline + 1;
      line := line + 1;
    }
    CheckCharacter(source, lineStart, position.character);
    var lineEnd := IndexOfNewline(source, lineStart);
    var limit := if lineEnd < 0 then |source| else lineEnd;
    var offset := lineStart + position.character;
    if offset > limit {
      return Failure(CharacterOutside);
    }
    return Success(offset);
  }

  /** The positions that exist in a source: a line of it and a column of that line. */
  ghost predicate ValidPosition(s: Text, p: Position) {
    0 <= p.line < |Lines(s)| && 0 <= p.character <= |Lines(s)[p.line]|
  }

  /** The position reached after reading all of `s`. */
  function EndOf(s: Text): Position {
    Position(|Lines(s)| - 1, |Last(Lines(s))|)
  }

  /**
   * A position resolves exactly when it exists, and then the text before the
   * offset is the lines before the position followed by the part of its line,
   * and the text after it is the remainder of that line and the lines below.
   */
  lemma {:induction false} PositionSplitsLines(s: Text, line: nat, character: nat)
    ensures ResolvePosition(s, line, character).Success? <==> ValidPosition(s, Position(line, character))
    ensures ValidPosition(s, Position(line, character)) ==> SplitAt(s, line, character)
    decreases line
  {
    hide Lines, SplitAt, IndexOfNewline, ResolvePosition, ValidPosition;
    var n := IndexOfNewline(s, 0);
    if line > 0 {
      OneLineFewer(s, line, character);
      if n >= 0 {
        PositionSplitsLines(s[n + 1..], line - 1, character);
        if ValidPosition(s[n + 1..], Position(line - 1, character)) { SplitBelow(s, line, character); }
      }
    } else {
      FirstLineSplits(s, character);
    }
  }

  /** Below the first line, resolving and existing are a matter of the remaining lines. */
  lemma OneLineFewer(s: Text, line: nat, character: nat)
    requires line > 0
    ensures var n := IndexOfNewline(s, 0);
            && (n < 0 ==> ResolvePosition(s, line, character).Failure? && !ValidPosition(s, Position(line, character)))
            && (n >= 0 ==>
                  && (ResolvePosition(s, line, character).Success? <==> ResolvePosition(s[n + 1..], line - 1, character).Success?)
                  && (ValidPosition(s, Position(line, character)) <==> ValidPosition(s[n + 1..], Position(line - 1, character))))
  {
    hide Lines, IndexOfNewline;
    Uncons(s);
  }

  lemma FirstLineSplits(s: Text, character: nat)
    ensures ResolvePosition(s, 0, character).Success? <==> ValidPosition(s, Position(0, character))
    ensures ValidPosition(s, Position(0, character)) ==> SplitAt(s, 0, character)
  {
    hide Lines, IndexOfNewline, SplitAt;
    Uncons(s);
    if ValidPosition(s, Position(0, character)) { SplitInFirstLine(s, character); }
  }

  ghost predicate SplitAt(s: Text, line: nat, character: nat)
    requires ValidPosition(s, Position(line, character))
  {
    var r := ResolvePosition(s, line, character);
    && r.Success?
    && Lines(s[..r.value]) == Lines(s)[..line] + [Lines(s)[line][..character]]
    && Lines(s[r.value..]) == [Lines(s)[line][character..]] + Lines(s)[line + 1..]
  }

  lemma SplitInFirstLine(s: Text, character: nat)
    requires ValidPosition(s, Position(0, character))
    ensures SplitAt(s, 0, character)
  {
    Uncons(s);
    var n := IndexOfNewline(s, 0);
    var own := if n < 0 then s else s[..n];
    assert s[..character] == own[..character];
    LinesOfOneLine(own[..character]);
    if n < 0 {
      LinesOfOneLine(own[character..]);
    } else {
      assert s[character..] == own[character..] + [NEWLINE] + s[n + 1..];
      LinesCons(own[character..], s[n + 1..]);
    }
  }

  lemma SplitBelow(s: Text, line: nat, character: nat)
    requires var n := IndexOfNewline(s, 0);
             && line > 0 && n >= 0 && ValidPosition(s[n + 1..], Position(line - 1, character)) && SplitAt(s[n + 1..], line - 1, character)
    ensures ValidPosition(s, Position(line, character)) && SplitAt(s, line, character)
  {
    hide Lines, IndexOfNewline, ValidPosition, SplitAt;
    var n := IndexOfNewline(s, 0);
    Uncons(s);
    SplitBelowFirstLine(s[..n], s[n + 1..], line, character);
  }

  lemma SplitBelowFirstLine(first: Text, rest: Text, line: nat, character: nat)
    requires NEWLINE !in first && line > 0
    requires ValidPosition(rest, Position(line - 1, character)) && SplitAt(rest, line - 1, character)
    ensures ValidPosition(first + [NEWLINE] + rest, Position(line, character))
    ensures SplitAt(first + [NEWLINE] + rest, line, character)
  {
    hide Lines;
    var s := first + [NEWLINE] + rest;
    LinesCons(first, rest);
    assert s[|first| + 1..] == rest;
    var offset := ResolvePosition(rest, line - 1, character).value;
    var cut := |first| + 1 + offset;
    assert ResolvePosition(s, line, character) == Success(cut);
    var before, after := rest[..offset], rest[offset..];
    assert s[..cut] == first + [NEWLINE] + before;
    LinesCons(first, before);
    assert s[cut..] == after;
    assert Lines(s) == [first] + Lines(rest);
    assert [first] + (Lines(rest)[..line - 1] + [Lines(rest)[line - 1][..character]])
        == Lines(s)[..line] + [Lines(s)[line][..character]];
    assert Lines(s)[line + 1..] == Lines(rest)[line..];
  }

  /** Offset and position determine each other: the position is the end of the text before the offset. */
  lemma {:induction false} PositionIffEndOfPrefix(s: Text, p: Position, offset: nat)
    requires offset <= |s|
    ensures PositionOffset(s, p) == Success(offset) <==> p == EndOf(s[..offset])
  {
    hide Lines, ResolvePosition;
    if p.line >= 0 && p.character >= 0 {
      PositionSplitsLines(s, p.line, p.character);
    }
    var q := EndOf(s[..offset]);
    assert s == s[..offset] + s[offset..];
    LinesOfConcat(s[..offset], s[offset..]);
    PositionSplitsLines(s, q.line, q.character);
    var found := ResolvePosition(s, q.line, q.character).value;
    LinesDetermineText(s[..found], s[..offset]);
    assert |s[..found]| == found;
  }

  // ------------------------------------------------- offsets to positions

  /** `source.lastIndexOf("\n", from)`: a negative `from` is clamped to 0. */
  function LastIndexOfNewline(s: Text, from: int): (r: int)
    requires from < |s|
    ensures -1 <= r
    ensures r == -1 ==> forall i | 0 <= i < |s| && i <= (if from < 0 then 0 else from) :: s[i] != NEWLINE
    ensures r != -1 ==> r < |s| && r <= (if from < 0 then 0 else from) && s[r] == NEWLINE
                        && forall i | r < i <= from :: s[i] != NEWLINE
    decreases from
  {
    if from <= 0 then (if |s| > 0 && s[0] == NEWLINE then 0 else -1)
    else if s[from] == NEWLINE then from
    else LastIndexOfNewline(s, from - 1)
  }

  function OffsetToPosition(s: Text, offset: int): Option<Position> {
    if offset < 0 || offset > |s| then None
    else
      var previousLine := LastIndexOfNewline(s, offset - 1);
      var line := if previousLine < 0 then 0 else |Lines(s[..previousLine])|;
      Some(Position(line, offset - previousLine - 1))
  }

  /** The one input on which offsetToPosition goes wrong: JavaScript clamps `lastIndexOf("\n", -1)` to 0. */
  predicate ClampedAtStart(s: Text, offset: int) {
    offset == 0 && |s| > 0 && s[0] == NEWLINE
  }

  /** Outside the clamped case the result is the end of the text before the offset; in it, it is (1, -1). */
  lemma {:induction false} OffsetToPositionIsEndOfPrefix(s: Text, offset: nat)
    requires offset <= |s|
    ensures OffsetToPosition(s, offset) == Some(if ClampedAtStart(s, offset) then Position(1, -1) else EndOf(s[..offset]))
  {
    var p := LastIndexOfNewline(s, offset - 1);
    if ClampedAtStart(s, offset) {
      assert p == 0 && s[..0] == [];
      LinesOfOneLine([]);
    } else if p < 0 {
      LinesOfOneLine(s[..offset]);
    } else {
      var tail := s[p..offset];
      assert s[..offset] == s[..p] + tail;
      IndexOfNewlineUnique(tail, 0, 0);
      assert tail[..0] == [];
      LinesOfOneLine(tail[1..]);
      LinesOfConcat(s[..p], tail);
      assert Lines(tail) == [[], tail[1..]];
    }
  }

  /**
   * positionToOffset inverts offsetToPosition on every offset of the source
   * except offset 0 of a source that starts with a newline, where it rejects.
   */
  lemma {:induction false} OffsetRoundTrip(s: Text, offset: nat)
    requires offset <= |s|
    ensures PositionOffset(s, OffsetToPosition(s, offset).value) == Success(offset) <==> !ClampedAtStart(s, offset)
  {
    OffsetToPositionIsEndOfPrefix(s, offset);
    PositionIffEndOfPrefix(s, EndOf(s[..offset]), offset);
  }

  /** offsetToPosition inverts positionToOffset on every valid position, with the same exception. */
  lemma {:induction false} PositionRoundTrip(s: Text, p: Position)
    requires ValidPosition(s, p)
    ensures PositionOffset(s, p).Success?
    ensures OffsetToPosition(s, PositionOffset(s, p).value) == Some(p) <==> !ClampedAtStart(s, PositionOffset(s, p).value)
  {
    PositionSplitsLines(s, p.line, p.character);
    var offset := PositionOffset(s, p).value;
    OffsetToPositionIsEndOfPrefix(s, offset);
    PositionIffEndOfPrefix(s, p, offset);
  }

  /** A source on which the round trip fails, so that the exception above is not empty. */
  lemma LeadingNewlineExample()
    ensures OffsetToPosition([NEWLINE, 97], 0) == Some(Position(1, -1))
    ensures PositionOffset([NEWLINE, 97], Position(1, -1)) == Failure(BadPosition)
  {
    OffsetToPositionIsEndOfPrefix([NEWLINE, 97], 0);
  }

  predicate Before(p: Position, q: Position) {
    p.line < q.line || (p.line == q.line && p.character < q.character)
  }

  /** Lexicographic order on valid positions is numeric order on their offsets. */
  lemma {:induction false} PositionOrder(s: Text, p: Position, q: Position)
    requires ValidPosition(s, p) && ValidPosition(s, q)
    ensures PositionOffset(s, p).Success? && PositionOffset(s, q).Success?
    ensures Before(p, q) <==> PositionOffset(s, p).value < PositionOffset(s, q).value
  {
    hide PositionOffset, ValidPosition, EndOf, Lines;
    ValidResolves(s, p);
    ValidResolves(s, q);
    var a, b := PositionOffset(s, p).value, PositionOffset(s, q).value;
    PositionIffEndOfPrefix(s, p, a);
    PositionIffEndOfPrefix(s, q, b);
    if a <= b { EndsInOrder(s, a, b); } else { EndsInOrder(s, b, a); }
  }

  lemma ValidResolves(s: Text, p: Position)
    requires ValidPosition(s, p)
    ensures PositionOffset(s, p).Success?
  {
    hide Lines, ResolvePosition;
    PositionSplitsLines(s, p.line, p.character);
  }

  lemma EndsInOrder(s: Text, a: nat, b: nat)
    requires a <= b <= |s|
    ensures if a == b then EndOf(s[..a]) == EndOf(s[..b]) else Before(EndOf(s[..a]), EndOf(s[..b]))
  {
    hide EndOf, Lines;
    EndOfPrefixMonotone(s[..b], a);
    assert s[..b][..a] == s[..a];
  }

  lemma {:induction false} EndOfPrefixMonotone(s: Text, a: nat)
    requires a <= |s|
    ensures a < |s| ==> Before(EndOf(s[..a]), EndOf(s))
  {
    if a < |s| {
      assert s == s[..a] + s[a..];
      LinesOfConcat(s[..a], s[a..]);
      if |Lines(s[a..])| == 1 {
        JoinOfLines(s[a..]);
        assert Lines(s[a..])[0] == s[a..];
      }
    }
  }

  // ---------------------------------------------------------------- edits

  datatype EditError = BadStart(why: PositionError) | BadEnd(why: PositionError) | EndBeforeStart

  /** What both backends store after a change: the slices around the range with the replacement between. */
  function SliceEdit(s: Text, range: Range, text: Text): Result<Text, EditError> {
    match PositionOffset(s, range.start)
    case Failure(e) => Failure(BadStart(e))
    case Success(start) =>
      match PositionOffset(s, range.end)
      case Failure(e) => Failure(BadEnd(e))
      case Success(end) =>
        if end < start then Failure(EndBeforeStart) else Success(s[..start] + text + s[end..])
  }

  /** The same edit on an array of lines: the lines of the range are replaced by the lines of the new text. */
  ghost function LineEdit(lines: seq<Text>, range: Range, text: Text): seq<Text>
    requires 0 <= range.start.line < |lines| && 0 <= range.end.line < |lines|
    requires 0 <= range.start.character <= |lines[range.start.line]|
    requires 0 <= range.end.character <= |lines[range.end.line]|
  {
    lines[..range.start.line]
    + Lines(lines[range.start.line][..range.start.character] + text + lines[range.end.line][range.end.character..])
    + lines[range.end.line + 1..]
  }

  ghost predicate ValidRange(s: Text, range: Range) {
    ValidPosition(s, range.start) && ValidPosition(s, range.end) && !Before(range.end, range.start)
  }

  /** An edit is rejected exactly when a position does not exist or the end lies before the start. */
  lemma {:induction false} SliceEditAcceptsValidRanges(s: Text, range: Range, text: Text)
    ensures SliceEdit(s, range, text).Success? <==> ValidRange(s, range)
  {
    if range.start.line >= 0 && range.start.character >= 0 {
      PositionSplitsLines(s, range.start.line, range.start.character);
    }
    if range.end.line >= 0 && range.end.character >= 0 {
      PositionSplitsLines(s, range.end.line, range.end.character);
    }
    if ValidPosition(s, range.start) && ValidPosition(s, range.end) {
      PositionOrder(s, range.end, range.start);
    }
  }

  /** On every accepted range the slice edit is the line edit. */
  lemma {:induction false} SliceEditIsLineEdit(s: Text, range: Range, text: Text)
    requires ValidRange(s, range)
    ensures SliceEdit(s, range, text).Success?
    ensures Lines(SliceEdit(s, range, text).value) == LineEdit(Lines(s), range, text)
  {
    SliceEditAcceptsValidRanges(s, range, text);
    PositionSplitsLines(s, range.start.line, range.start.character);
    PositionSplitsLines(s, range.end.line, range.end.character);
    var start, end := PositionOffset(s, range.start).value, PositionOffset(s, range.end).value;
    JoinOfLines(s);
    SpliceIsLineEdit(s[..start], text, s[end..], Lines(s), range);
  }

  lemma SpliceIsLineEdit(before: Text, text: Text, after: Text, lines: seq<Text>, range: Range)
    requires 0 <= range.start.line < |lines| && 0 <= range.end.line < |lines|
    requires 0 <= range.start.character <= |lines[range.start.line]|
    requires 0 <= range.end.character <= |lines[range.end.line]|
    requires NEWLINE !in lines[range.start.line] && NEWLINE !in lines[range.end.line]
    requires Lines(before) == lines[..range.start.line] + [lines[range.start.line][..range.start.character]]
    requires Lines(after) == [lines[range.end.line][range.end.character..]] + lines[range.end.line + 1..]
    ensures Lines(before + text + after) == LineEdit(lines, range, text)
  {
    hide Lines;
    var first := lines[range.start.line][..range.start.character];
    var last := lines[range.end.line][range.end.character..];
    LinesOfConcat(before, text);
    LinesOfConcat(before + text, after);
    LinesOfOneLine(first);
    LinesOfOneLine(last);
    LinesOfConcat(first, text);
    LinesOfConcat(first + text, last);
    MergeThree(lines[..range.start.line], first, Lines(text), last, lines[range.end.line + 1..]);
  }

  lemma MergeThree(above: seq<Text>, first: Text, text: seq<Text>, last: Text, below: seq<Text>)
    requires |text| >= 1
    ensures Merge(Merge(above + [first], text), [last] + below) == above + Merge(Merge([first], text), [last]) + below
  {
    var x, y := Merge(above + [first], text), Merge([first], text);
    assert x == above + y;
    assert Last(x) == Last(y);
  }

  // -------------------------------------------------- expected-text edits

  predicate OccursAt(s: Text, expected: Text, i: nat) {
    i + |expected| <= |s| && s[i..i + |expected|] == expected
  }

  /** `current.indexOf(expectedText)`: the first occurrence, or -1. */
  function IndexOfText(s: Text, expected: Text, from: nat): (r: int)
    requires from <= |s|
    ensures -1 <= r <= |s|
    ensures r != -1 ==> from <= r && OccursAt(s, expected, r)
    ensures forall i: nat | from <= i && (r == -1 || i < r) :: !OccursAt(s, expected, i)
    decreases |s| - from
  {
    if OccursAt(s, expected, from) then from
    else if from == |s| then -1
    else IndexOfText(s, expected, from + 1)
  }

  /** replaceText: find the text, turn its bounds into positions, edit that range. */
  function ReplaceText(s: Text, expected: Text, replacement: Text): Option<Text> {
    var offset := IndexOfText(s, expected, 0);
    if offset < 0 then None
    else
      var start := OffsetToPosition(s, offset);
      var end := OffsetToPosition(s, offset + |expected|);
      match SliceEdit(s, Range(start.value, end.value), replacement)
      case Success(edited) => Some(edited)
      case Failure(_) => None
  }

  /**
   * replaceText succeeds exactly when the text occurs and its first
   * occurrence is not offset 0 of a source starting with a newline; it then
   * replaces that occurrence and nothing else.
   */
  lemma {:induction false} ReplaceTextReplacesFirstOccurrence(s: Text, expected: Text, replacement: Text)
    ensures var offset := IndexOfText(s, expected, 0);
            ReplaceText(s, expected, replacement) ==
            if offset < 0 || ClampedAtStart(s, offset) then None
            else Some(s[..offset] + replacement + s[offset + |expected|..])
  {
    hide ResolvePosition, OffsetToPosition, IndexOfText, Lines;
    var offset := IndexOfText(s, expected, 0);
    if offset >= 0 {
      OffsetToPositionIsEndOfPrefix(s, offset);
      OffsetToPositionIsEndOfPrefix(s, offset + |expected|);
      OffsetRoundTrip(s, offset);
      OffsetRoundTrip(s, offset + |expected|);
    }
  }
}
