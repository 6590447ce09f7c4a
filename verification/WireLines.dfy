/** The lines the chat server reads and writes: what reading a line and trimming it leave, character by character. */
module WireLines {

  predicate IsLineEnd(c: char) { c == '\r' || c == '\n' }

  function TrimLine(line: string): string {
    if line != "" && IsLineEnd(line[|line| - 1]) then TrimLine(line[..|line| - 1]) else line
  }

  function WireLine(line: string): string { TrimLine(line) + "\n" }

  function ServerLine(line: string): string { WireLine("[server] " + line) }

  predicate IsSpace(c: char) { c as int in {9, 10, 11, 12, 13, 32} }

  function TrimLeft(s: string): string {
    if s != "" && IsSpace(s[0]) then TrimLeft(s[1..]) else s
  }

  function TrimRight(s: string): string {
    if s != "" && IsSpace(s[|s| - 1]) then TrimRight(s[..|s| - 1]) else s
  }

  /** `std::getline` */
  function FirstLine(raw: string): string {
    if raw == "" || raw[0] == '\n' then "" else [raw[0]] + FirstLine(raw[1..])
  }

  // ---------------------------------------------------------------- what they are to compute

  /** The part of raw before its first newline, or all of it. */
  predicate IsFirstLine(raw: string, line: string) {
    line <= raw && '\n' !in line && (line == raw || raw[|line|] == '\n')
  }

  /** What is left of a line without the line ends behind it. */
  predicate IsTrimmed(line: string, trimmed: string) {
    && trimmed <= line && (forall k :: |trimmed| <= k < |line| ==> IsLineEnd(line[k]))
    && (trimmed != "" ==> !IsLineEnd(trimmed[|trimmed| - 1]))
  }

  /** The line that was read. */
  ghost predicate IsInputLine(raw: string, line: string) {
    exists first :: IsFirstLine(raw, first) && IsTrimmed(first, line)
  }

  /** What is left of s without the white space around it. */
  ghost predicate IsStripped(s: string, stripped: string) {
    exists i: nat, j: nat :: IsMiddle(s, i, j) && stripped == s[i..j]
  }

  /** s[i..j] neither begins nor ends with a space, and nothing but spaces is around it. */
  predicate IsMiddle(s: string, i: nat, j: nat) {
    && i <= j <= |s| && (forall k :: 0 <= k < |s| && !(i <= k < j) ==> IsSpace(s[k]))
    && (i < j ==> !IsSpace(s[i]) && !IsSpace(s[j - 1]))
  }

  // ---------------------------------------------------------------- and that they compute it

  lemma {:induction false} FirstLineIs(raw: string)
    ensures IsFirstLine(raw, FirstLine(raw))
  {
    if raw != "" && raw[0] != '\n' {
      FirstLineIs(raw[1..]);
      assert raw == [raw[0]] + raw[1..];
      assert FirstLine(raw) == [raw[0]] + FirstLine(raw[1..]);
    }
  }

  lemma {:induction false} TrimLineIs(line: string)
    ensures IsTrimmed(line, TrimLine(line))
  {
    if line != "" && IsLineEnd(line[|line| - 1]) { TrimLineIs(line[..|line| - 1]); }
  }

  lemma {:induction false} TrimRightIs(s: string)
    ensures var r := TrimRight(s);
      r <= s && (forall k :: |r| <= k < |s| ==> IsSpace(s[k])) && (r != "" ==> !IsSpace(r[|r| - 1]))
  {
    if s != "" && IsSpace(s[|s| - 1]) { TrimRightIs(s[..|s| - 1]); }
  }

  lemma {:induction false} TrimLeftIs(s: string) returns (i: nat)
    ensures i <= |s| && TrimLeft(s) == s[i..] && (forall k :: 0 <= k < i ==> IsSpace(s[k]))
    ensures i < |s| ==> !IsSpace(s[i])
  {
    if s != "" && IsSpace(s[0]) {
      var j := TrimLeftIs(s[1..]);
      i := j + 1;
      assert s[1..][j..] == s[i..];
      forall k | 0 <= k < i ensures IsSpace(s[k]) { assert k > 0 ==> s[k] == s[1..][k - 1]; }
    } else {
      i := 0;
    }
  }

  lemma StripIs(s: string)
    ensures IsStripped(s, TrimRight(TrimLeft(s)))
  {
    var i := TrimLeftIs(s);
    var rest := TrimLeft(s);
    TrimRightIs(rest);
    var j := i + |TrimRight(rest)|;
    forall k | 0 <= k < |s| && !(i <= k < j) ensures IsSpace(s[k]) { assert k >= j ==> s[k] == rest[k - i]; }
    assert i < j ==> s[i] == rest[0] && s[j - 1] == rest[j - 1 - i];
    assert IsMiddle(s, i, j) && TrimRight(rest) == s[i..j];
  }

  lemma OneFirstLine(raw: string, a: string, b: string)
    requires IsFirstLine(raw, a) && IsFirstLine(raw, b)
    ensures a == b
  {}

  lemma OneTrimmed(line: string, a: string, b: string)
    requires IsTrimmed(line, a) && IsTrimmed(line, b)
    ensures a == b
  {}

  /** There is one line that can have been read, and reading and trimming give it. */
  lemma OneInputLine(raw: string, line: string)
    requires IsInputLine(raw, line)
    ensures line == TrimLine(FirstLine(raw))
  {
    var first :| IsFirstLine(raw, first) && IsTrimmed(first, line);
    FirstLineIs(raw);
    OneFirstLine(raw, first, FirstLine(raw));
    TrimLineIs(first);
    OneTrimmed(first, line, TrimLine(first));
  }

  /** There is one way to strip, and trimming on both sides is it. */
  lemma OneStripped(s: string, stripped: string)
    requires IsStripped(s, stripped)
    ensures stripped == TrimRight(TrimLeft(s))
  {
    StripIs(s);
    var i: nat, j: nat :| IsMiddle(s, i, j) && stripped == s[i..j];
    var i': nat, j': nat :| IsMiddle(s, i', j') && TrimRight(TrimLeft(s)) == s[i'..j'];
    assert i < j ==> i' <= i && j <= j';
    assert i' < j' ==> i <= i' && j' <= j;
  }

  /** A text without newline that does not end in a carriage return is the line read from it and either line end. */
  lemma LineEndings(text: string, rest: string)
    requires '\n' !in text && (text != "" ==> text[|text| - 1] != '\r')
    ensures IsInputLine(text + "\n" + rest, text) && IsInputLine(text + "\r\n" + rest, text)
  {
    assert IsFirstLine(text + "\n" + rest, text) && IsTrimmed(text, text);
    assert IsFirstLine(text + "\r\n" + rest, text + "\r") && IsTrimmed(text + "\r", text);
  }

  /** A line that ends in no line end is sent as it is, with one newline behind it. */
  lemma WireLineShows(line: string)
    requires line != "" && !IsLineEnd(line[|line| - 1])
    ensures WireLine(line) == line + "\n"
  {}

  lemma ServerLineShows(text: string)
    requires text != "" && !IsLineEnd(text[|text| - 1])
    ensures ServerLine(text) == "[server] " + text + "\n"
  {
    var line := "[server] " + text;
    assert line[|line| - 1] == text[|text| - 1];
  }

  /** Whatever the line, what is sent is one line: what is left of it without line ends behind it, and a newline. */
  lemma WireLineIs(line: string)
    ensures exists trimmed :: IsTrimmed(line, trimmed) && WireLine(line) == trimmed + "\n"
  {
    TrimLineIs(line);
  }
}
