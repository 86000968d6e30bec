// terraform-static-reference-check.py: the jump-ahead scan that strips strings,
// comments and heredocs, against a lexer that reads one character at a time.
module Hcl {
  import opened Wrappers
  import opened Text

  // ---------------------------------------------------------------- the lexical structure, one character at a time

  // Opening is the second character of a block comment's opener, Closing that of its closer;
  // line is what has been read of the current line of a heredoc
  datatype Mode =
    | Code | Str | Escaped | Line | Opening | Block | Closing
    | Header(end: string) | Body(end: string, line: string)

  /** What Python's str.isspace and \s take for white space. */
  predicate IsSpace(c: char) {
    var n := c as int;
    9 <= n <= 13 || 28 <= n <= 32 || n == 0x85 || n == 0xa0 || n == 0x1680 || 0x2000 <= n <= 0x200a
    || n == 0x2028 || n == 0x2029 || n == 0x202f || n == 0x205f || n == 0x3000
  }

  function Stripped(s: string): string { Trim(s, IsSpace) }

  predicate Starts(c: char) { 'A' <= c <= 'Z' || 'a' <= c <= 'z' || c == '_' }

  predicate Continues(c: char) { Starts(c) || '0' <= c <= '9' }

  function Word(s: string): string {
    if s != "" && Continues(s[0]) then [s[0]] + Word(s[1..]) else ""
  }

  /** The group of the pattern <<-?\s*([A-Za-z_][A-Za-z0-9_]*) at the start of s. */
  function HeredocEnd(s: string): Option<string> {
    if |s| < 2 || s[..2] != "<<" then None
    else
      var rest := TrimLeft(if |s| > 2 && s[2] == '-' then s[3..] else s[2..], IsSpace);
      if rest != "" && Starts(rest[0]) then Some(Word(rest)) else None
  }

  predicate Pair(text: string, i: nat, a: char, b: char) {
    i + 1 < |text| && text[i] == a && text[i + 1] == b
  }

  // the two patterns of the scan: what heredoc, if any, begins at a position; and whether a line ends a heredoc
  datatype Patterns = Patterns(heredocs: nat -> Option<string>, ends: (string, string) -> bool)

  function PatternsOf(text: string): Patterns {
    Patterns((i: nat) => if i <= |text| then HeredocEnd(text[i..]) else None,
        (line: string, word: string) => Stripped(line) == word)
  }

  /** What a character of code begins. */
  function CodeStep(text: string, pat: Patterns, i: nat): Mode
    requires i < |text|
  {
    if text[i] == '"' then Str
    else if Pair(text, i, '/', '*') then Opening
    else if Pair(text, i, '/', '/') || text[i] == '#' then Line
    else if Pair(text, i, '<', '<') && pat.heredocs(i).Some? then Header(pat.heredocs(i).value)
    else Code
  }

  function AfterLine(pat: Patterns, word: string, line: string): Mode {
    if pat.ends(line, word) then Code else Body(word, "")
  }

  /** The mode after character i; the character is code exactly if the mode was Code and still is. */
  function Step(text: string, pat: Patterns, i: nat, mode: Mode): Mode
    requires i < |text|
  {
    var c := text[i];
    match mode
    case Code => CodeStep(text, pat, i)
    case Str => if c == '\\' then Escaped else if c == '"' then Code else Str
    case Escaped => Str
    case Line => if c == '\n' then Code else Line
    case Opening => Block
    case Block => if Pair(text, i, '*', '/') then Closing else Block
    case Closing => Code
    case Header(end) => if c == '\n' then Body(end, "") else mode
    case Body(end, line) => if c == '\n' then AfterLine(pat, end, line) else Body(end, line + [c])
  }

  /** The code characters from position i on; line breaks do not count. */
  function CodeFrom(text: string, pat: Patterns, i: nat, mode: Mode): string
    decreases |text| - i
  {
    if i >= |text| then ""
    else
      var next := Step(text, pat, i, mode);
      (if mode == Code && next == Code && text[i] != '\n' then [text[i]] else "") + CodeFrom(text, pat, i + 1, next)
  }

  function CodeOf(text: string): string { CodeFrom(text, PatternsOf(text), 0, Code) }

  // ---------------------------------------------------------------- jumping ahead

  /** text.find("\n", i) */
  function FindNewline(text: string, i: nat): (r: Option<nat>)
    ensures r.Some? ==> i <= r.value < |text|
    decreases |text| - i
  {
    if i >= |text| then None else if text[i] == '\n' then Some(i) else FindNewline(text, i + 1)
  }

  // text.find of a comment closer
  function FindClose(text: string, i: nat): (r: Option<nat>)
    ensures r.Some? ==> i <= r.value && r.value + 1 < |text|
    decreases |text| - i
  {
    if i >= |text| then None else if Pair(text, i, '*', '/') then Some(i) else FindClose(text, i + 1)
  }

  /** Outside code, one character takes the lexer to the next mode and leaves nothing behind. */
  lemma OneStep(text: string, pat: Patterns, i: nat, mode: Mode, next: Mode)
    requires i < |text| && mode != Code && next == Step(text, pat, i, mode)
    ensures CodeFrom(text, pat, i, mode) == CodeFrom(text, pat, i + 1, next)
  {
  }

  lemma {:induction false} SkipLine(text: string, pat: Patterns, i: nat)
    ensures var end := FindNewline(text, i);
      CodeFrom(text, pat, i, Line) == if end.None? then "" else CodeFrom(text, pat, end.value + 1, Code)
    decreases |text| - i
  {
    if i < |text| {
      if text[i] == '\n' {
        OneStep(text, pat, i, Line, Code);
      } else {
        OneStep(text, pat, i, Line, Line);
        SkipLine(text, pat, i + 1);
      }
    }
  }

  lemma {:induction false} SkipHeader(text: string, pat: Patterns, i: nat, word: string)
    ensures var end := FindNewline(text, i);
      CodeFrom(text, pat, i, Header(word))
          == if end.None? then "" else CodeFrom(text, pat, end.value + 1, Body(word, ""))
    decreases |text| - i
  {
    if i < |text| {
      if text[i] == '\n' {
        OneStep(text, pat, i, Header(word), Body(word, ""));
      } else {
        OneStep(text, pat, i, Header(word), Header(word));
        SkipHeader(text, pat, i + 1, word);
      }
    }
  }

  lemma {:induction false} SkipBody(text: string, pat: Patterns, i: nat, word: string, line: string)
    requires i <= |text|
    ensures var end := FindNewline(text, i);
      CodeFrom(text, pat, i, Body(word, line)) ==
      if end.None? then "" else CodeFrom(text, pat, end.value + 1, AfterLine(pat, word, line + text[i..end.value]))
    decreases |text| - i
  {
    if i < |text| {
      if text[i] == '\n' {
        assert line + text[i..i] == line;
        OneStep(text, pat, i, Body(word, line), AfterLine(pat, word, line));
      } else {
        OneStep(text, pat, i, Body(word, line), Body(word, line + [text[i]]));
        SkipBody(text, pat, i + 1, word, line + [text[i]]);
        var end := FindNewline(text, i);
        assert end.Some? ==> line + [text[i]] + text[i + 1..end.value] == line + text[i..end.value];
      }
    }
  }

  lemma {:induction false} SkipBlock(text: string, pat: Patterns, i: nat)
    ensures var end := FindClose(text, i);
      CodeFrom(text, pat, i, Block) == if end.None? then "" else CodeFrom(text, pat, end.value + 2, Code)
    decreases |text| - i
  {
    if i < |text| {
      if Pair(text, i, '*', '/') {
        CloseBlock(text, pat, i);
      } else {
        OneStep(text, pat, i, Block, Block);
        SkipBlock(text, pat, i + 1);
      }
    }
  }

  lemma CloseBlock(text: string, pat: Patterns, i: nat)
    requires i < |text| && Pair(text, i, '*', '/')
    ensures CodeFrom(text, pat, i, Block) == CodeFrom(text, pat, i + 2, Code)
  {
    OneStep(text, pat, i, Block, Closing);
    OneStep(text, pat, i + 1, Closing, Code);
  }

  function WithoutNewlines(s: string): string {
    if s == "" then "" else WithoutNewlines(s[..|s| - 1]) + if s[|s| - 1] == '\n' then "" else [s[|s| - 1]]
  }

  lemma {:induction false} NewlinesVanish(s: string, n: nat)
    ensures WithoutNewlines(s + seq(n, _ => '\n')) == WithoutNewlines(s)
  {
    var t := s + seq(n, _ => '\n');
    if n > 0 {
      assert t[..|t| - 1] == s + seq(n - 1, _ => '\n');
      NewlinesVanish(s, n - 1);
    } else {
      assert t == s;
    }
  }

  lemma OneMore(s: string, c: char)
    ensures WithoutNewlines(s + [c]) == WithoutNewlines(s) + if c == '\n' then "" else [c]
  {
    assert (s + [c])[..|s|] == s;
  }

  function CountNewlines(s: string): nat {
    if s == "" then 0 else CountNewlines(s[1..]) + if s[0] == '\n' then 1 else 0
  }

  /** The mode that the scanner's flags stand for. */
  function ModeOf(heredoc: Option<string>, inBlockComment: bool, inString: bool): Mode {
    if heredoc.Some? then Body(heredoc.value, "") else if inBlockComment then Block else if inString then Str else Code
  }

  /** A character at which code is left. */
  lemma LeaveCode(text: string, pat: Patterns, i: nat, next: Mode)
    requires i < |text| && next == CodeStep(text, pat, i) && next != Code
    ensures CodeFrom(text, pat, i, Code) == CodeFrom(text, pat, i + 1, next)
  {
  }

  /** A character of code. */
  lemma StayInCode(text: string, pat: Patterns, i: nat)
    requires i < |text| && CodeStep(text, pat, i) == Code
    ensures CodeFrom(text, pat, i, Code)
      == (if text[i] != '\n' then [text[i]] else "") + CodeFrom(text, pat, i + 1, Code)
  {
  }

  // ---------------------------------------------------------------- strip_hcl_non_structure

  /** One line of a heredoc. */
  method HeredocLine(text: string, pat: Patterns, i: nat, word: string) returns (i': nat, heredoc: Option<string>)
    requires i < |text|
    ensures i < i' && CodeFrom(text, pat, i, Body(word, "")) == CodeFrom(text, pat, i', ModeOf(heredoc, false, false))
  {
    SkipBody(text, pat, i, word, "");
    var end := FindNewline(text, i);
    var line := if end.None? then text[i..] else text[i..end.value];
    assert "" + line == line;
    i' := if end.None? then |text| else end.value + 1;
    heredoc := if pat.ends(line, word) then None else Some(word);
  }

  /** One character of a string, or two after a backslash. */
  method StringStep(text: string, pat: Patterns, i: nat) returns (i': nat, inString: bool)
    requires i < |text|
    ensures i < i' && CodeFrom(text, pat, i, Str) == CodeFrom(text, pat, i', if inString then Str else Code)
  {
    OneStep(text, pat, i, Str, Step(text, pat, i, Str));
    if text[i] == '\\' {
      if i + 1 < |text| {
        OneStep(text, pat, i + 1, Escaped, Str);
      }
      i', inString := i + 2, true;
    } else {
      i', inString := i + 1, text[i] != '"';
    }
  }

  /** '/', '#' and '<' are no line breaks: searching from here or from the next character is the same. */
  lemma SearchFromHere(text: string, pat: Patterns, i: nat)
    requires i < |text| && (CodeStep(text, pat, i).Line? || CodeStep(text, pat, i).Header?)
    ensures FindNewline(text, i) == FindNewline(text, i + 1)
  {
  }

  /** Where a line comment that opens here leads. */
  lemma JumpOverComment(text: string, pat: Patterns, i: nat, end: Option<nat>)
    requires i < |text| && CodeStep(text, pat, i) == Line && end == FindNewline(text, i)
    ensures CodeFrom(text, pat, i, Code) == if end.None? then "" else CodeFrom(text, pat, end.value + 1, Code)
  {
    SearchFromHere(text, pat, i);
    LeaveCode(text, pat, i, Line);
    SkipLine(text, pat, i + 1);
  }

  /** Where a heredoc that opens here begins. */
  lemma JumpToBody(text: string, pat: Patterns, i: nat, word: string, end: Option<nat>)
    requires i < |text| && CodeStep(text, pat, i) == Header(word) && end == FindNewline(text, i)
    ensures CodeFrom(text, pat, i, Code) == if end.None? then "" else CodeFrom(text, pat, end.value + 1, Body(word, ""))
  {
    SearchFromHere(text, pat, i);
    LeaveCode(text, pat, i, Header(word));
    SkipHeader(text, pat, i + 1, word);
  }

  /** From a line comment to the start of the next line, if there is one. */
  method LineComment(text: string, pat: Patterns, i: nat) returns (i': nat, more: bool)
    requires i < |text| && CodeStep(text, pat, i) == Line
    ensures more ==> i < i'
    ensures CodeFrom(text, pat, i, Code) == if more then CodeFrom(text, pat, i', Code) else ""
  {
    var end := FindNewline(text, i);
    JumpOverComment(text, pat, i, end);
    more := end.Some?;
    i' := if more then end.value + 1 else i;
  }

  /** From the opening of a heredoc to its first line, if there is one. */
  method HeredocOpening(text: string, pat: Patterns, i: nat, word: string) returns (i': nat, more: bool)
    requires i < |text| && CodeStep(text, pat, i) == Header(word)
    ensures more ==> i < i'
    ensures CodeFrom(text, pat, i, Code) == if more then CodeFrom(text, pat, i', Body(word, "")) else ""
  {
    var end := FindNewline(text, i);
    JumpToBody(text, pat, i, word, end);
    more := end.Some?;
    i' := if more then end.value + 1 else i;
  }

  /** One turn of the loop: where it goes on, what it puts out, and the flags; or the loop ends. */
  datatype Turn = Turn(i: nat, out: string, heredoc: Option<string>, inBlockComment: bool, inString: bool, more: bool) {
    function Mode(): Mode { ModeOf(heredoc, inBlockComment, inString) }
    predicate OneFlag() { !(heredoc.Some? && inBlockComment) && !(inString && (heredoc.Some? || inBlockComment)) }
  }

  /** A turn inside a heredoc, a block comment or a string. */
  method OutsideCode(text: string, pat: Patterns, i: nat, heredoc: Option<string>, inBlockComment: bool,
                     inString: bool) returns (t: Turn)
    requires i < |text| && (heredoc.Some? || inBlockComment || inString)
    requires Turn(i, "", heredoc, inBlockComment, inString, true).OneFlag()
    ensures t.OneFlag() && (t.more ==> i < t.i) && WithoutNewlines(t.out) == ""
    ensures CodeFrom(text, pat, i, ModeOf(heredoc, inBlockComment, inString))
      == if t.more then CodeFrom(text, pat, t.i, t.Mode()) else ""
  {
    if heredoc.Some? {
      var next, still := HeredocLine(text, pat, i, heredoc.value);
      t := Turn(next, "\n", still, false, false, true);
    } else if inBlockComment {
      SkipBlock(text, pat, i);
      var end := FindClose(text, i);
      if end.None? {
        return Turn(i, "", None, true, false, false);
      }
      var breaks := seq(CountNewlines(text[i..end.value + 2]), _ => '\n');
      NewlinesVanish("", |breaks|);
      assert "" + breaks == breaks;
      t := Turn(end.value + 2, breaks, None, false, false, true);
    } else {
      var next, still := StringStep(text, pat, i);
      t := Turn(next, if text[i] == '\n' then "\n" else "", None, false, still, true);
    }
  }

  /** A turn in code. */
  method InCode(text: string, pat: Patterns, i: nat) returns (t: Turn)
    requires i < |text|
    ensures t.OneFlag() && (t.more ==> i < t.i)
    ensures CodeFrom(text, pat, i, Code) == WithoutNewlines(t.out) + Rest(text, pat, t)
  {
    if text[i] == '"' {
      LeaveCode(text, pat, i, Str);
      t := Turn(i + 1, "", None, false, true, true);
    } else if Pair(text, i, '/', '*') {
      LeaveCode(text, pat, i, Opening);
      OneStep(text, pat, i + 1, Opening, Block);
      t := Turn(i + 2, "", None, true, false, true);
    } else if Pair(text, i, '/', '/') || text[i] == '#' {
      var next, more := LineComment(text, pat, i);
      t := Turn(next, if more then "\n" else "", None, false, false, more);
    } else if Pair(text, i, '<', '<') && pat.heredocs(i).Some? {
      var word := pat.heredocs(i);
      var next, more := HeredocOpening(text, pat, i, word.value);
      t := Turn(next, if more then "\n" else "", word, false, false, more);
    } else {
      StayInCode(text, pat, i);
      OneMore("", text[i]);
      assert "" + [text[i]] == [text[i]];
      t := Turn(i + 1, [text[i]], None, false, false, true);
    }
  }

  method TakeTurn(text: string, pat: Patterns, now: Turn) returns (t: Turn)
    requires now.i < |text| && now.OneFlag()
    ensures t.OneFlag() && (t.more ==> now.i < t.i)
    ensures CodeFrom(text, pat, now.i, now.Mode()) == WithoutNewlines(t.out) + Rest(text, pat, t)
  {
    if now.heredoc.Some? || now.inBlockComment || now.inString {
      t := OutsideCode(text, pat, now.i, now.heredoc, now.inBlockComment, now.inString);
      assert "" + Rest(text, pat, t) == Rest(text, pat, t);
    } else {
      t := InCode(text, pat, now.i);
    }
  }

  /** What the lexer still keeps after a turn. */
  ghost function Rest(text: string, pat: Patterns, t: Turn): string {
    if t.more then CodeFrom(text, pat, t.i, t.Mode()) else ""
  }

  method Scan(text: string, pat: Patterns) returns (output: string)
    ensures WithoutNewlines(output) == CodeFrom(text, pat, 0, Code)
  {
    ghost var code := CodeFrom(text, pat, 0, Code);
    output := "";
    var t := Turn(0, "", None, false, false, true);
    while t.more && t.i < |text|
      invariant t.OneFlag() && WithoutNewlines(output) + Rest(text, pat, t) == code
      decreases t.more, |text| - t.i
    {
      ghost var before := Rest(text, pat, t);
      t := TakeTurn(text, pat, t);
      PutOut(output, t.out, before, Rest(text, pat, t));
      output := output + t.out;
    }
    assert Rest(text, pat, t) == "";
  }

  lemma PutOut(output: string, more: string, before: string, after: string)
    requires before == WithoutNewlines(more) + after
    ensures WithoutNewlines(output + more) + after == WithoutNewlines(output) + before
  {
    Appended(output, more);
  }

  lemma {:induction false} Appended(a: string, b: string)
    ensures WithoutNewlines(a + b) == WithoutNewlines(a) + WithoutNewlines(b)
  {
    if b == "" {
      assert a + b == a;
    } else {
      assert (a + b)[..|a + b| - 1] == a + b[..|b| - 1];
      Appended(a, b[..|b| - 1]);
    }
  }

  /** Newlines aside, the output is exactly the code of the text. */
  method Strip(text: string) returns (output: string)
    ensures WithoutNewlines(output) == CodeOf(text)
  {
    output := Scan(text, PatternsOf(text));
  }
}
