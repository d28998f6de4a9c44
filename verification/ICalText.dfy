/**
 The text layer of the iCal feed (backend/internal/feed/ical.go): folding of lines, section 3.1 of
 RFC 5545, and escaping of text values, section 3.3.11.

 Text is a sequence of octets, written as characters; a folded line may be cut inside a multi-octet
 character, which unfolding repairs.
 */
module ICalText {
  const LIMIT: nat := 75

  // ----- Lines -----

  predicate NoCr(s: string) {
    forall i :: 0 <= i < |s| ==> s[i] != '\r'
  }

  predicate StartsWithSpace(s: string) {
    s != "" && (s[0] == ' ' || s[0] == '\t')
  }

  predicate StartsWithBreak(s: string) {
    |s| >= 2 && s[0] == '\r' && s[1] == '\n'
  }

  /** Lines, each ended by CRLF. */
  function Join(lines: seq<string>): string {
    if lines == [] then "" else lines[0] + "\r\n" + Join(lines[1..])
  }

  /** The lines of a text; a last line may lack its CRLF. */
  function Split(text: string): seq<string> {
    if text == "" then []
    else if StartsWithBreak(text) then [""] + Split(text[2..])
    else
      var rest := Split(text[1..]);
      if rest == [] then [text[..1]] else [text[..1] + rest[0]] + rest[1..]
  }

  lemma {:induction false} SplitLine(line: string, tail: string)
    requires NoCr(line)
    ensures Split(line + "\r\n" + tail) == [line] + Split(tail)
  {
    var text := line + "\r\n" + tail;
    if line == "" {
      assert text[2..] == tail;
    } else {
      assert text[1..] == line[1..] + "\r\n" + tail;
      SplitLine(line[1..], tail);
      assert text[..1] + line[1..] == line;
    }
  }

  lemma {:induction false} SplitJoin(lines: seq<string>)
    requires forall i :: 0 <= i < |lines| ==> NoCr(lines[i])
    ensures Split(Join(lines)) == lines
  {
    if lines != [] {
      SplitLine(lines[0], Join(lines[1..]));
      SplitJoin(lines[1..]);
    }
  }

  lemma JoinFirst(first: string, rest: seq<string>)
    ensures Join([first] + rest) == first + "\r\n" + Join(rest)
  {
    assert ([first] + rest)[1..] == rest;
  }

  lemma {:induction false} JoinConcat(a: seq<string>, b: seq<string>)
    ensures Join(a + b) == Join(a) + Join(b)
  {
    if a == [] {
      assert a + b == b;
    } else {
      assert (a + b)[1..] == a[1..] + b;
      JoinConcat(a[1..], b);
      assert Join(a + b) == a[0] + "\r\n" + (Join(a[1..]) + Join(b));
    }
  }

  // ----- Folding -----

  /** The physical lines that carry one logical line: 75 octets, then a space and 74 octets each. */
  function Pieces(line: string): seq<string> {
    if |line| <= LIMIT then [line] else [line[..LIMIT]] + Continuations(line[LIMIT..])
  }

  function Continuations(rest: string): seq<string> {
    if |rest| <= LIMIT - 1 then [" " + rest] else [" " + rest[..LIMIT - 1]] + Continuations(rest[LIMIT - 1..])
  }

  lemma Grouped(a: string, b: string, c: string, d: string)
    ensures a + b + c + d == a + (b + c + d)
  {
  }

  /** All pieces but the last are full, and all but the first begin with the space that continues the line. */
  lemma {:induction false} PiecesAreFull(line: string, k: nat)
    requires k < |Pieces(line)|
    ensures k < |Pieces(line)| - 1 ==> |Pieces(line)[k]| == 75
    ensures k > 0 ==> Pieces(line)[k] != "" && Pieces(line)[k][0] == ' '
  {
    if k > 0 {
      ContinuationsAreFull(line[LIMIT..], k - 1);
    }
  }

  lemma {:induction false} ContinuationsAreFull(rest: string, k: nat)
    requires k < |Continuations(rest)|
    ensures k < |Continuations(rest)| - 1 ==> |Continuations(rest)[k]| == 75
    ensures Continuations(rest)[k] != "" && Continuations(rest)[k][0] == ' '
  {
    if k > 0 {
      ContinuationsAreFull(rest[LIMIT - 1..], k - 1);
    }
  }

  /** RFC 5545, section 3.1: every CRLF followed by a space or a tab is removed. */
  function Unfold(text: string): string {
    if text == "" then ""
    else if StartsWithBreak(text) && StartsWithSpace(text[2..]) then Unfold(text[3..])
    else text[..1] + Unfold(text[1..])
  }

  lemma {:induction false} UnfoldText(line: string, tail: string)
    requires NoCr(line)
    ensures Unfold(line + tail) == line + Unfold(tail)
  {
    if line == "" {
      assert line + tail == tail;
    } else {
      assert (line + tail)[1..] == line[1..] + tail && (line + tail)[..1] == line[..1];
      UnfoldText(line[1..], tail);
      assert line[..1] + line[1..] == line;
    }
  }

  lemma UnfoldEnd(tail: string)
    requires !StartsWithSpace(tail)
    ensures Unfold("\r\n" + tail) == "\r\n" + Unfold(tail)
  {
    var text := "\r\n" + tail;
    assert text[2..] == tail && text[1..] == "\n" + tail && text[1..][1..] == tail;
  }

  lemma UnfoldBreak(tail: string)
    ensures Unfold("\r\n" + " " + tail) == Unfold(tail)
  {
    var text := "\r\n" + " " + tail;
    assert text[2..] == " " + tail && text[3..] == tail;
  }

  /** A continuation line in front of more text. */
  lemma UnfoldContinuation(piece: string, more: string)
    requires NoCr(piece)
    ensures Unfold("\r\n" + " " + (piece + more)) == piece + Unfold(more)
  {
    UnfoldBreak(piece + more);
    UnfoldText(piece, more);
  }

  lemma {:induction false} UnfoldContinuations(rest: string, tail: string)
    requires NoCr(rest) && !StartsWithSpace(tail)
    ensures Unfold("\r\n" + Join(Continuations(rest)) + tail) == rest + "\r\n" + Unfold(tail)
    decreases |rest|
  {
    var joined := Join(Continuations(rest));
    if |rest| <= LIMIT - 1 {
      assert joined == " " + rest + "\r\n" by {
        JoinedContinuations(rest);
      }
      UnfoldLast(rest, joined, tail);
    } else {
      var now, later := rest[..LIMIT - 1], rest[LIMIT - 1..];
      assert joined == " " + now + "\r\n" + Join(Continuations(later)) by {
        JoinedContinuations(rest);
      }
      UnfoldContinuations(later, tail);
      UnfoldAfter(now, later, joined, Join(Continuations(later)), tail);
      assert now + later == rest;
    }
  }

  lemma UnfoldLast(rest: string, joined: string, tail: string)
    requires NoCr(rest) && !StartsWithSpace(tail) && joined == " " + rest + "\r\n"
    ensures Unfold("\r\n" + joined + tail) == rest + "\r\n" + Unfold(tail)
  {
    assert "\r\n" + joined + tail == "\r\n" + " " + (rest + ("\r\n" + tail));
    UnfoldContinuation(rest, "\r\n" + tail);
    UnfoldEnd(tail);
    assert rest + ("\r\n" + Unfold(tail)) == rest + "\r\n" + Unfold(tail);
  }

  lemma UnfoldAfter(now: string, later: string, joined: string, joinedLater: string, tail: string)
    requires NoCr(now) && joined == " " + now + "\r\n" + joinedLater
    requires Unfold("\r\n" + joinedLater + tail) == later + "\r\n" + Unfold(tail)
    ensures Unfold("\r\n" + joined + tail) == (now + later) + "\r\n" + Unfold(tail)
  {
    var more := "\r\n" + joinedLater + tail;
    assert "\r\n" + joined + tail == "\r\n" + " " + (now + more);
    UnfoldContinuation(now, more);
    assert now + (later + "\r\n" + Unfold(tail)) == (now + later) + "\r\n" + Unfold(tail);
  }

  lemma UnfoldPieces(line: string, tail: string)
    requires NoCr(line) && !StartsWithSpace(tail)
    ensures Unfold(Join(Pieces(line)) + tail) == line + "\r\n" + Unfold(tail)
  {
    if |line| <= LIMIT {
      assert Join(Pieces(line)) + tail == line + ("\r\n" + tail);
      UnfoldText(line, "\r\n" + tail);
      UnfoldEnd(tail);
      assert line + ("\r\n" + Unfold(tail)) == line + "\r\n" + Unfold(tail);
    } else {
      var now, later := line[..LIMIT], line[LIMIT..];
      var more := "\r\n" + Join(Continuations(later)) + tail;
      assert Join(Pieces(line)) + tail == now + more;
      UnfoldText(now, more);
      UnfoldContinuations(later, tail);
      assert now + (later + "\r\n" + Unfold(tail)) == (now + later) + "\r\n" + Unfold(tail);
      assert now + later == line;
    }
  }

  /** The physical lines of a text of logical lines. */
  function Folded(lines: seq<string>): seq<string> {
    if lines == [] then [] else Pieces(lines[0]) + Folded(lines[1..])
  }

  /** A line that printing can carry: no break inside and no space in front. */
  predicate Printable(line: string) {
    NoCr(line) && !StartsWithSpace(line)
  }

  lemma FoldedStart(lines: seq<string>)
    requires forall i :: 0 <= i < |lines| ==> Printable(lines[i])
    ensures !StartsWithSpace(Join(Folded(lines)))
  {
    if lines != [] {
      JoinConcat(Pieces(lines[0]), Folded(lines[1..]));
    }
  }

  /** Main result: unfolding and splitting the printed text gives back its logical lines. */
  lemma {:induction false} UnfoldPrinted(lines: seq<string>)
    requires forall i :: 0 <= i < |lines| ==> Printable(lines[i])
    ensures Unfold(Join(Folded(lines))) == Join(lines)
    ensures Split(Unfold(Join(Folded(lines)))) == lines
  {
    if lines != [] {
      var tail := Join(Folded(lines[1..]));
      JoinConcat(Pieces(lines[0]), Folded(lines[1..]));
      FoldedStart(lines[1..]);
      UnfoldPieces(lines[0], tail);
      UnfoldPrinted(lines[1..]);
    }
    SplitJoin(lines);
  }

  lemma {:induction false} ContinuationsFit(rest: string)
    requires NoCr(rest)
    ensures forall i :: 0 <= i < |Continuations(rest)| ==>
              NoCr(Continuations(rest)[i]) && |Continuations(rest)[i]| <= LIMIT
    decreases |rest|
  {
    if |rest| > LIMIT - 1 {
      ContinuationsFit(rest[LIMIT - 1..]);
    }
  }

  /** Main result: every physical line of the printed text is at most 75 octets. */
  lemma {:induction false} PrintedFits(lines: seq<string>)
    requires forall i :: 0 <= i < |lines| ==> NoCr(lines[i])
    ensures Split(Join(Folded(lines))) == Folded(lines)
    ensures forall i :: 0 <= i < |Folded(lines)| ==> NoCr(Folded(lines)[i]) && |Folded(lines)[i]| <= 75
  {
    if lines != [] {
      PrintedFits(lines[1..]);
      if |lines[0]| > LIMIT {
        ContinuationsFit(lines[0][LIMIT..]);
      }
    }
    SplitJoin(Folded(lines));
  }

  lemma JoinedPieces(line: string)
    ensures Join(Pieces(line)) ==
      if |line| <= LIMIT then line + "\r\n" else line[..LIMIT] + "\r\n" + Join(Continuations(line[LIMIT..]))
  {
    if |line| <= LIMIT {
      JoinFirst(line, []);
    } else {
      JoinFirst(line[..LIMIT], Continuations(line[LIMIT..]));
    }
  }

  lemma JoinedContinuations(rest: string)
    ensures Join(Continuations(rest)) ==
      if |rest| <= LIMIT - 1 then " " + rest + "\r\n"
        else " " + rest[..LIMIT - 1] + "\r\n" + Join(Continuations(rest[LIMIT - 1..]))
  {
    if |rest| <= LIMIT - 1 {
      JoinFirst(" " + rest, []);
    } else {
      JoinFirst(" " + rest[..LIMIT - 1], Continuations(rest[LIMIT - 1..]));
    }
  }

  lemma {:induction false} FoldedSnoc(lines: seq<string>, line: string)
    ensures Folded(lines + [line]) == Folded(lines) + Pieces(line)
  {
    if lines == [] {
      assert lines + [line] == [line] && [line][1..] == [];
    } else {
      assert (lines + [line])[1..] == lines[1..] + [line] && (lines + [line])[0] == lines[0];
      FoldedSnoc(lines[1..], line);
    }
  }

  lemma FoldedOneMore(lines: seq<string>, line: string)
    ensures Join(Folded(lines + [line])) == Join(Folded(lines)) + Join(Pieces(line))
  {
    FoldedSnoc(lines, line);
    JoinConcat(Folded(lines), Pieces(line));
  }

  lemma OneMoreLine(start: seq<string>, ls: seq<string>, i: nat)
    requires i < |ls|
    ensures start + ls[..i] + [ls[i]] == start + ls[..i + 1]
  {
  }

  /** The string builder that writeLine writes to, with the logical lines written so far. */
  class Builder {
    var text: string
    ghost var lines: seq<string>

    ghost predicate Valid()
      reads this
    {
      text == Join(Folded(lines))
    }

    constructor ()
      ensures Valid() && lines == []
    {
      text, lines := "", [];
    }

    method WriteString(s: string)
      modifies this`text
      ensures text == old(text) + s
    {
      text := text + s;
    }

    method WriteLine(line: string)
      requires Valid()
      modifies this
      ensures Valid() && lines == old(lines) + [line]
    {
      FoldedOneMore(lines, line);
      WriteFolded(line);
      lines := lines + [line];
    }

    method WriteLines(ls: seq<string>)
      requires Valid()
      modifies this
      ensures Valid() && lines == old(lines) + ls
    {
      for i := 0 to |ls|
        invariant Valid() && lines == old(lines) + ls[..i]
      {
        WriteLine(ls[i]);
        OneMoreLine(old(lines), ls, i);
      }
      assert ls[..|ls|] == ls;
    }

    /** writeLine: a line and its CRLF, folded when it is longer than 75 octets. */
    method WriteFolded(line: string)
      modifies this`text
      ensures text == old(text) + Join(Pieces(line))
    {
      JoinedPieces(line);
      if |line| <= LIMIT {
        WriteString(line);
        WriteString("\r\n");
        return;
      }
      ghost var start := text;
      WriteString(line[..LIMIT]);
      WriteString("\r\n");
      WriteContinuations(line[LIMIT..]);
      Grouped(start, line[..LIMIT], "\r\n", Join(Continuations(line[LIMIT..])));
    }

    /** The loop of writeLine. */
    method WriteContinuations(line: string)
      modifies this`text
      ensures text == old(text) + Join(Continuations(line))
    {
      var rest := line;
      while |rest| > LIMIT - 1
        invariant text + Join(Continuations(rest)) == old(text) + Join(Continuations(line))
        decreases |rest|
      {
        WriteContinuation(rest[..LIMIT - 1], Join(Continuations(rest[LIMIT - 1..])));
        JoinedContinuations(rest);
        rest := rest[LIMIT - 1..];
      }
      JoinedContinuations(rest);
      WriteContinuation(rest, "");
    }

    method WriteContinuation(piece: string, ghost later: string)
      modifies this`text
      ensures text == old(text) + (" " + piece + "\r\n")
      ensures text + later == old(text) + (" " + piece + "\r\n" + later)
    {
      WriteString(" ");
      WriteString(piece);
      WriteString("\r\n");
    }
  }

  // ----- Text values -----

  /** escapeText: backslash, semicolon, comma and newline are escaped, carriage returns dropped. */
  function Escape(s: string): string {
    if s == "" then "" else EscapeOctet(s[0]) + Escape(s[1..])
  }

  function EscapeOctet(c: char): string {
    if c == '\\' then "\\\\"
    else if c == ';' then "\\;"
    else if c == ',' then "\\,"
    else if c == '\n' then "\\n"
    else if c == '\r' then ""
    else [c]
  }

  /** RFC 5545, section 3.3.11, read from the left. */
  function Unescape(s: string): string {
    if s == "" then ""
    else if s[0] != '\\' || |s| == 1 then s[..1] + Unescape(s[1..])
    else (if s[1] == 'n' || s[1] == 'N' then "\n" else [s[1]]) + Unescape(s[2..])
  }

  function WithoutCr(s: string): string {
    if s == "" then "" else (if s[0] == '\r' then "" else s[..1]) + WithoutCr(s[1..])
  }

  /** Main result: unescaping gives the text with carriage returns removed. */
  lemma {:induction false} UnescapeEscape(s: string)
    ensures Unescape(Escape(s)) == WithoutCr(s)
  {
    if s != "" {
      UnescapeEscape(s[1..]);
      var tail := Escape(s[1..]);
      UnescapeStep(s[0], tail);
    }
  }

  lemma UnescapeStep(c: char, tail: string)
    ensures Unescape(EscapeOctet(c) + tail) == (if c == '\r' then "" else [c]) + Unescape(tail)
  {
    var e := EscapeOctet(c);
    if c == '\r' {
      assert e + tail == tail;
    } else if |e| == 1 {
      assert (e + tail)[1..] == tail;
    } else {
      assert (e + tail)[2..] == tail;
    }
  }

  /** Escaped text has no line break, and every separator in it stands behind a backslash. */
  lemma {:induction false} EscapedIsOneLine(s: string)
    ensures forall i :: 0 <= i < |Escape(s)| ==> Escape(s)[i] != '\r' && Escape(s)[i] != '\n'
    ensures forall i :: 0 <= i < |Escape(s)| && (Escape(s)[i] == ';' || Escape(s)[i] == ',') ==>
              i > 0 && Escape(s)[i - 1] == '\\'
  {
    if s != "" {
      EscapedIsOneLine(s[1..]);
    }
  }

  /** Text without carriage returns comes back as it was, and other text does not. */
  lemma UnescapeGivesBackIff(s: string)
    ensures Unescape(Escape(s)) == s <==> NoCr(s)
  {
    UnescapeEscape(s);
    WithoutCrOnlyDrops(s);
  }

  /** Removing carriage returns loses nothing else. */
  lemma {:induction false} WithoutCrOnlyDrops(s: string)
    ensures WithoutCr(s) == s <==> NoCr(s)
    ensures |WithoutCr(s)| <= |s| && NoCr(WithoutCr(s))
  {
    if s != "" {
      WithoutCrOnlyDrops(s[1..]);
      assert s == s[..1] + s[1..];
      if s[0] != '\r' && WithoutCr(s) == s {
        assert WithoutCr(s)[1..] == s[1..];
      }
    }
  }
}
