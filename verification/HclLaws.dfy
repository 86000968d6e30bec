// What the scan strips, on texts: whole comments, strings and heredocs vanish between
// what stands before and after them, and a text without any of them stays as it is.
module HclLaws {
  import opened Wrappers
  import opened Text
  import opened Hcl
  import opened Braces

  /** The characters for which Python's str.isspace holds. */
  const PYTHON_WHITE := "\t\n\U{b}\U{c}\r\U{1c}\U{1d}\U{1e}\U{1f} \U{85}\U{a0}\U{1680}\U{2000}\U{2001}\U{2002}\U{2003}"
    + "\U{2004}\U{2005}\U{2006}\U{2007}\U{2008}\U{2009}\U{200a}\U{2028}\U{2029}\U{202f}\U{205f}\U{3000}"

  lemma SpaceIs(c: char)
    ensures IsSpace(c) <==> c in PYTHON_WHITE
  {
  }

  // ---------------------------------------------------------------- where the lexer stands

  function ModeFrom(text: string, pat: Patterns, i: nat, mode: Mode): Mode
    decreases |text| - i
  {
    if i >= |text| then mode else ModeFrom(text, pat, i + 1, Step(text, pat, i, mode))
  }

  /** At the end of s the lexer is in code. */
  predicate EndsInCode(s: string) { ModeFrom(s, PatternsOf(s), 0, Code) == Code }

  /** Nothing at the seam reads as an opener that begins in pre. */
  predicate Seam(pre: string, more: string) {
    && more != "" && more[0] in {'"', '#', '/', '<'}
    && (pre != "" && pre[|pre| - 1] == '/' ==> more[0] != '/')
    && (pre != "" && pre[|pre| - 1] == '<' && more[0] == '<' ==> |more| >= 2 && more[1] == '<')
  }

  lemma SeamCharacters(c: char)
    requires c in {'"', '#', '/', '<'}
    ensures !IsSpace(c) && !Continues(c) && !Starts(c) && c != '-' && c != '*'
  {
  }

  // ---------------------------------------------------------------- reading a part of a text

  /** From position k on, only what stands there matters. */
  lemma {:induction false} Shifted(text: string, rest: string, k: nat, i: nat, mode: Mode)
    requires k <= |text| && rest == text[k..]
    ensures CodeFrom(text, PatternsOf(text), k + i, mode) == CodeFrom(rest, PatternsOf(rest), i, mode)
    decreases |rest| - i
  {
    if i < |rest| {
      assert text[k + i..] == rest[i..] && text[k + i] == rest[i];
      var next := Step(rest, PatternsOf(rest), i, mode);
      assert Step(text, PatternsOf(text), k + i, mode) == next;
      Shifted(text, rest, k, i + 1, next);
    }
  }

  lemma {:induction false} TrimLeftStops(s: string, more: string)
    requires more != "" && !IsSpace(more[0])
    ensures TrimLeft(s + more, IsSpace) == TrimLeft(s, IsSpace) + more
  {
    if s == "" {
      assert s + more == more;
    } else if IsSpace(s[0]) {
      assert (s + more)[1..] == s[1..] + more;
      TrimLeftStops(s[1..], more);
    }
  }

  lemma {:induction false} WordStops(s: string, more: string)
    requires more != "" && !Continues(more[0])
    ensures Word(s + more) == Word(s)
  {
    if s == "" {
      assert s + more == more;
    } else if Continues(s[0]) {
      assert (s + more)[1..] == s[1..] + more;
      WordStops(s[1..], more);
    }
  }

  /** An opener of a heredoc is recognised by what follows it up to the seam. */
  lemma OpenerIsLocal(s: string, more: string)
    requires |s| >= 2 && s[..2] == "<<" && more != "" && more[0] in {'"', '#', '/', '<'}
    ensures HeredocEnd(s + more) == HeredocEnd(s)
  {
    SeamCharacters(more[0]);
    var t := s + more;
    assert t[..2] == s[..2];
    var dashed := |s| > 2 && s[2] == '-';
    assert |t| > 2 && t[2] == (if |s| > 2 then s[2] else more[0]);
    var rest := if dashed then s[3..] else s[2..];
    assert (if dashed then t[3..] else t[2..]) == rest + more;
    TrimLeftStops(rest, more);
    WordStops(TrimLeft(rest, IsSpace), more);
  }

  lemma NoOpenerAcross(more: string)
    requires |more| >= 2 && more[0] == '<' && more[1] == '<'
    ensures HeredocEnd("<" + more) == None
  {
    var t := "<" + more;
    assert t[2] == '<' && t[2..][0] == '<';
  }

  /** A step inside pre is the same with more behind it, if pre ends in code. */
  lemma StepIsLocal(pre: string, more: string, text: string, i: nat, mode: Mode)
    requires text == pre + more && i < |pre| && Seam(pre, more)
    requires i == |pre| - 1 ==> Step(pre, PatternsOf(pre), i, mode) == Code
    ensures Step(text, PatternsOf(text), i, mode) == Step(pre, PatternsOf(pre), i, mode)
  {
    SeamCharacters(more[0]);
    assert text[i] == pre[i] && text[i + 1] == if i + 1 < |pre| then pre[i + 1] else more[0];
    assert text[i..] == pre[i..] + more;
    if mode == Code && pre[i] == '<' {
      if i + 1 < |pre| {
        if pre[i + 1] == '<' {
          assert pre[i..][..2] == "<<";
          OpenerIsLocal(pre[i..], more);
        }
      } else if more[0] == '<' {
        assert pre[i..] == "<";
        NoOpenerAcross(more);
      }
    }
  }

  /** The code of a text that is cut where the lexer is in code. */
  lemma {:induction false} CutInCode(pre: string, more: string, text: string, i: nat, mode: Mode)
    requires text == pre + more && i <= |pre| && Seam(pre, more)
    requires ModeFrom(pre, PatternsOf(pre), i, mode) == Code
    ensures CodeFrom(text, PatternsOf(text), i, mode)
      == CodeFrom(pre, PatternsOf(pre), i, mode) + CodeFrom(text, PatternsOf(text), |pre|, Code)
    decreases |pre| - i
  {
    if i < |pre| {
      var next := Step(pre, PatternsOf(pre), i, mode);
      StepIsLocal(pre, more, text, i, mode);
      CutInCode(pre, more, text, i + 1, next);
    }
  }

  lemma CodeOfParts(pre: string, more: string)
    requires EndsInCode(pre) && Seam(pre, more)
    ensures CodeOf(pre + more) == CodeOf(pre) + CodeOf(more)
  {
    var text := pre + more;
    CutInCode(pre, more, text, 0, Code);
    assert text[|pre|..] == more;
    Shifted(text, more, |pre|, 0, Code);
  }

  // ---------------------------------------------------------------- heredocs

  predicate Letter(c: char) { 'A' <= c <= 'Z' || 'a' <= c <= 'z' || c == '_' }

  predicate LetterOrDigit(c: char) { Letter(c) || '0' <= c <= '9' }

  predicate Identifier(w: string) {
    w != "" && Letter(w[0]) && forall c :: c in w ==> LetterOrDigit(c)
  }

  // an opener with or without a dash, the rest of its line, and the lines up to the closing one
  datatype Heredoc = Heredoc(dash: bool, space: string, word: string, tail: string, lines: seq<string>, closing: string)

  predicate WellFormed(h: Heredoc) {
    && (forall c :: c in h.space ==> IsSpace(c) && c != '\n')
    && Identifier(h.word)
    && '\n' !in h.tail && (h.tail != "" ==> !LetterOrDigit(h.tail[0]))
    && (forall line :: line in h.lines ==> '\n' !in line && Stripped(line) != h.word)
    && '\n' !in h.closing && Stripped(h.closing) == h.word
  }

  function Opener(h: Heredoc): string { "<<" + (if h.dash then "-" else "") + h.space + h.word + h.tail }

  function Joined(lines: seq<string>): string {
    if lines == [] then "" else lines[0] + "\n" + Joined(lines[1..])
  }

  function Printed(h: Heredoc): string { Opener(h) + "\n" + Joined(h.lines) + h.closing + "\n" }

  lemma {:induction false} SpacesAreTrimmed(space: string, rest: string)
    requires (forall c :: c in space ==> IsSpace(c)) && rest != "" && !IsSpace(rest[0])
    ensures TrimLeft(space + rest, IsSpace) == rest
  {
    if space == "" {
      assert space + rest == rest;
    } else {
      assert (space + rest)[1..] == space[1..] + rest;
      SpacesAreTrimmed(space[1..], rest);
    }
  }

  lemma {:induction false} WordIsRead(w: string, rest: string)
    requires (forall c :: c in w ==> LetterOrDigit(c)) && rest != "" && !LetterOrDigit(rest[0])
    ensures Word(w + rest) == w
  {
    if w == "" {
      assert w + rest == rest;
    } else {
      assert w[0] in w && (w + rest)[1..] == w[1..] + rest;
      WordIsRead(w[1..], rest);
      assert w == [w[0]] + w[1..];
    }
  }

  /** The pattern recognises the opener and its word. */
  lemma OpenerIsRead(h: Heredoc, rest: string)
    requires WellFormed(h)
    ensures HeredocEnd(Opener(h) + "\n" + rest) == Some(h.word)
  {
    var s := Opener(h) + "\n" + rest;
    var behind := h.tail + "\n" + rest;
    var word := h.word + behind;
    assert word[0] == h.word[0] && behind[0] == if h.tail != "" then h.tail[0] else '\n';
    assert s == "<<" + (if h.dash then "-" else "") + (h.space + word);
    assert s[..2] == "<<";
    assert h.space != "" ==> (h.space + word)[0] in h.space;
    assert (if s[2] == '-' then s[3..] else s[2..]) == h.space + word;
    SpacesAreTrimmed(h.space, word);
    WordIsRead(h.word, behind);
  }

  lemma {:induction false} FindsNewline(text: string, i: nat, n: nat)
    requires i <= n < |text| && text[n] == '\n' && forall j :: i <= j < n ==> text[j] != '\n'
    ensures FindNewline(text, i) == Some(n)
    decreases n - i
  {
    if i < n {
      FindsNewline(text, i + 1, n);
    }
  }

  /** One line of a heredoc, and what it leaves the lexer in. */
  lemma LineVanishes(line: string, rest: string, word: string)
    requires '\n' !in line
    ensures var text := line + "\n" + rest;
      CodeFrom(text, PatternsOf(text), 0, Body(word, ""))
      == CodeFrom(rest, PatternsOf(rest), 0, if Stripped(line) == word then Code else Body(word, ""))
  {
    var text := line + "\n" + rest;
    forall j | 0 <= j < |line| ensures text[j] != '\n' { assert text[j] == line[j] && line[j] in line; }
    FindsNewline(text, 0, |line|);
    SkipBody(text, PatternsOf(text), 0, word, "");
    assert "" + text[0..|line|] == line && text[|line| + 1..] == rest;
    Shifted(text, rest, |line| + 1, 0, if Stripped(line) == word then Code else Body(word, ""));
  }

  lemma {:induction false} LinesVanish(lines: seq<string>, closing: string, rest: string, word: string)
    requires forall line :: line in lines ==> '\n' !in line && Stripped(line) != word
    requires '\n' !in closing && Stripped(closing) == word
    ensures var text := Joined(lines) + closing + "\n" + rest;
      CodeFrom(text, PatternsOf(text), 0, Body(word, "")) == CodeOf(rest)
  {
    if lines == [] {
      LineVanishes(closing, rest, word);
      assert Joined(lines) + closing + "\n" + rest == closing + "\n" + rest;
    } else {
      var more := Joined(lines[1..]) + closing + "\n" + rest;
      LineVanishes(lines[0], more, word);
      assert Joined(lines) + closing + "\n" + rest == lines[0] + "\n" + more;
      LinesVanish(lines[1..], closing, rest, word);
    }
  }

  /** Where the first line of a heredoc begins. */
  lemma OpenerLine(h: Heredoc, body: string)
    requires WellFormed(h)
    ensures FindNewline(Opener(h) + "\n" + body, 0) == Some(|Opener(h)|)
  {
    var text := Opener(h) + "\n" + body;
    forall j | 0 <= j < |Opener(h)| ensures text[j] != '\n' {
      assert text[j] == Opener(h)[j];
      NoNewlineInOpener(h, j);
    }
    FindsNewline(text, 0, |Opener(h)|);
  }

  lemma OpenerOpens(h: Heredoc, body: string)
    requires WellFormed(h)
    ensures var text := Opener(h) + "\n" + body;
      CodeStep(text, PatternsOf(text), 0) == Header(h.word)
  {
    var text := Opener(h) + "\n" + body;
    OpenerIsRead(h, body);
    assert text[0..] == text && text[0] == '<' && text[1] == '<';
  }

  /** From an opener at the start of a text to the line behind it. */
  lemma OpenerJump(text: string, n: nat, word: string, body: string)
    requires text != "" && CodeStep(text, PatternsOf(text), 0) == Header(word)
    requires FindNewline(text, 0) == Some(n) && body == text[n + 1..]
    ensures CodeOf(text) == CodeFrom(body, PatternsOf(body), 0, Body(word, ""))
  {
    JumpToBody(text, PatternsOf(text), 0, word, Some(n));
    Shifted(text, body, n + 1, 0, Body(word, ""));
  }

  lemma HeredocAlone(h: Heredoc, rest: string)
    requires WellFormed(h)
    ensures CodeOf(Printed(h) + rest) == CodeOf(rest)
  {
    var body := Joined(h.lines) + h.closing + "\n" + rest;
    var text := Opener(h) + "\n" + body;
    OpenerOpens(h, body);
    OpenerLine(h, body);
    OpenerJump(text, |Opener(h)|, h.word, body);
    LinesVanish(h.lines, h.closing, rest, h.word);
    PrintedInParts(Opener(h), Joined(h.lines), h.closing, rest);
    assert text[|Opener(h)| + 1..] == body;
  }

  lemma PrintedInParts(opener: string, lines: string, closing: string, rest: string)
    ensures opener + "\n" + lines + closing + "\n" + rest == opener + "\n" + (lines + closing + "\n" + rest)
  {
  }

  lemma NoNewlineInOpener(h: Heredoc, j: nat)
    requires WellFormed(h) && j < |Opener(h)|
    ensures Opener(h)[j] != '\n'
  {
    var start := "<<" + (if h.dash then "-" else "");
    var a, b := |start|, |start| + |h.space|;
    assert a <= j < b ==> Opener(h)[j] == h.space[j - a] && h.space[j - a] in h.space;
    assert b <= j < b + |h.word| ==> Opener(h)[j] == h.word[j - b] && h.word[j - b] in h.word;
    assert b + |h.word| <= j ==> Opener(h)[j] == h.tail[j - b - |h.word|] && h.tail[j - b - |h.word|] in h.tail;
  }

  /** A heredoc vanishes with its lines, with or without a dash, up to and including the line that closes it. */
  lemma HeredocVanishes(pre: string, h: Heredoc, rest: string)
    requires EndsInCode(pre) && WellFormed(h)
    ensures CodeOf(pre + Printed(h) + rest) == CodeOf(pre) + CodeOf(rest)
  {
    var more := Printed(h) + rest;
    assert more[0] == '<' && more[1] == '<';
    CodeOfParts(pre, more);
    HeredocAlone(h, rest);
    assert pre + Printed(h) + rest == pre + more;
  }

  /** So nothing in a heredoc changes the verdict on a file, and what follows it does as if it stood alone. */
  lemma HeredocKeepsVerdict(pre: string, h: Heredoc, rest: string)
    requires EndsInCode(pre) && WellFormed(h)
    ensures Balanced(CodeOf(pre + Printed(h) + rest)) <==> Balanced(CodeOf(pre) + CodeOf(rest))
    ensures NeverNegative(CodeOf(pre + Printed(h) + rest)) <==> NeverNegative(CodeOf(pre) + CodeOf(rest))
  {
    HeredocVanishes(pre, h, rest);
  }

  // ---------------------------------------------------------------- comments and strings

  lemma CommentJump(text: string, n: nat, rest: string)
    requires text != "" && CodeStep(text, PatternsOf(text), 0) == Line
    requires FindNewline(text, 0) == Some(n) && rest == text[n + 1..]
    ensures CodeOf(text) == CodeOf(rest)
  {
    JumpOverComment(text, PatternsOf(text), 0, Some(n));
    Shifted(text, rest, n + 1, 0, Code);
  }

  lemma CommentLine(opener: string, comment: string, rest: string)
    requires opener in {"#", "//"} && '\n' !in comment
    ensures FindNewline(opener + comment + "\n" + rest, 0) == Some(|opener + comment|)
  {
    var text, n := opener + comment + "\n" + rest, |opener + comment|;
    forall j | 0 <= j < n ensures text[j] != '\n' {
      assert text[j] == (opener + comment)[j];
      assert j >= |opener| ==> text[j] == comment[j - |opener|] && comment[j - |opener|] in comment;
    }
    FindsNewline(text, 0, n);
  }

  lemma LineCommentAlone(opener: string, comment: string, rest: string)
    requires opener in {"#", "//"} && '\n' !in comment
    ensures CodeOf(opener + comment + "\n" + rest) == CodeOf(rest)
  {
    var text := opener + comment + "\n" + rest;
    assert text[0] == opener[0] && (opener == "//" ==> text[1] == opener[1]);
    CommentLine(opener, comment, rest);
    CommentJump(text, |opener + comment|, rest);
  }

  /** A comment to the end of its line vanishes, and with it the line break. */
  lemma LineCommentVanishes(pre: string, opener: string, comment: string, rest: string)
    requires EndsInCode(pre) && opener in {"#", "//"} && Seam(pre, opener) && '\n' !in comment
    ensures CodeOf(pre + opener + comment + "\n" + rest) == CodeOf(pre) + CodeOf(rest)
  {
    var more := opener + comment + "\n" + rest;
    assert more[0] == opener[0];
    CodeOfParts(pre, more);
    LineCommentAlone(opener, comment, rest);
    assert pre + opener + comment + "\n" + rest == pre + more;
  }

  /** No closer of a block comment begins in s, also with the closer behind it. */
  predicate Unclosed(s: string) {
    forall i :: 0 <= i < |s| ==> !((s + "*/")[i] == '*' && (s + "*/")[i + 1] == '/')
  }

  lemma {:induction false} FindsClose(text: string, i: nat, n: nat)
    requires i <= n && n + 1 < |text| && text[n] == '*' && text[n + 1] == '/'
    requires forall j :: i <= j < n ==> !(text[j] == '*' && text[j + 1] == '/')
    ensures FindClose(text, i) == Some(n)
    decreases n - i
  {
    if i < n {
      FindsClose(text, i + 1, n);
    }
  }

  lemma CloserIsFound(comment: string, rest: string)
    requires Unclosed(comment)
    ensures FindClose("/*" + comment + "*/" + rest, 2) == Some(|comment| + 2)
  {
    var text := "/*" + comment + "*/" + rest;
    forall j | 2 <= j < |comment| + 2 ensures !(text[j] == '*' && text[j + 1] == '/') {
      assert text[j] == (comment + "*/")[j - 2] && text[j + 1] == (comment + "*/")[j - 1];
    }
    FindsClose(text, 2, |comment| + 2);
  }

  lemma BlockCommentAlone(comment: string, rest: string)
    requires Unclosed(comment)
    ensures CodeOf("/*" + comment + "*/" + rest) == CodeOf(rest)
  {
    var text := "/*" + comment + "*/" + rest;
    var pat := PatternsOf(text);
    LeaveCode(text, pat, 0, Opening);
    OneStep(text, pat, 1, Opening, Block);
    CloserIsFound(comment, rest);
    SkipBlock(text, pat, 2);
    assert text[|comment| + 4..] == rest;
    Shifted(text, rest, |comment| + 4, 0, Code);
  }

  /** A block comment vanishes, line breaks and all. */
  lemma BlockCommentVanishes(pre: string, comment: string, rest: string)
    requires EndsInCode(pre) && Seam(pre, "/*") && Unclosed(comment)
    ensures CodeOf(pre + "/*" + comment + "*/" + rest) == CodeOf(pre) + CodeOf(rest)
  {
    var more := "/*" + comment + "*/" + rest;
    CodeOfParts(pre, more);
    BlockCommentAlone(comment, rest);
    assert pre + "/*" + comment + "*/" + rest == pre + more;
  }

  /** What stands between the quotes of a string: plain characters, and any character behind a backslash. */
  predicate Quotable(s: string) {
    s == "" || (if s[0] == '\\' then |s| >= 2 && Quotable(s[2..]) else s[0] != '"' && Quotable(s[1..]))
  }

  lemma {:induction false} StringRuns(s: string, rest: string)
    requires Quotable(s)
    ensures var text := s + "\"" + rest;
      CodeFrom(text, PatternsOf(text), 0, Str) == CodeOf(rest)
    decreases |s|
  {
    var text := s + "\"" + rest;
    var pat := PatternsOf(text);
    if s == "" {
      OneStep(text, pat, 0, Str, Code);
      assert text[1..] == rest;
      Shifted(text, rest, 1, 0, Code);
    } else if s[0] == '\\' {
      assert text[2..] == s[2..] + "\"" + rest;
      TwoInString(text, s[2..] + "\"" + rest);
      StringRuns(s[2..], rest);
    } else {
      assert text[1..] == s[1..] + "\"" + rest;
      OneInString(text, s[1..] + "\"" + rest);
      StringRuns(s[1..], rest);
    }
  }

  lemma OneInString(text: string, more: string)
    requires text != "" && text[0] != '"' && text[0] != '\\' && text[1..] == more
    ensures CodeFrom(text, PatternsOf(text), 0, Str) == CodeFrom(more, PatternsOf(more), 0, Str)
  {
    OneStep(text, PatternsOf(text), 0, Str, Str);
    Shifted(text, more, 1, 0, Str);
  }

  lemma TwoInString(text: string, more: string)
    requires |text| >= 2 && text[0] == '\\' && text[2..] == more
    ensures CodeFrom(text, PatternsOf(text), 0, Str) == CodeFrom(more, PatternsOf(more), 0, Str)
  {
    OneStep(text, PatternsOf(text), 0, Str, Escaped);
    OneStep(text, PatternsOf(text), 1, Escaped, Str);
    Shifted(text, more, 2, 0, Str);
  }

  /** A string vanishes, whatever openers or braces it holds. */
  lemma StringVanishes(pre: string, s: string, rest: string)
    requires EndsInCode(pre) && Quotable(s)
    ensures CodeOf(pre + "\"" + s + "\"" + rest) == CodeOf(pre) + CodeOf(rest)
  {
    var inner := s + "\"" + rest;
    var more := "\"" + inner;
    CodeOfParts(pre, more);
    LeaveCode(more, PatternsOf(more), 0, Str);
    assert more[1..] == inner;
    Shifted(more, inner, 1, 0, Str);
    StringRuns(s, rest);
    assert pre + "\"" + s + "\"" + rest == pre + more;
  }

  // ---------------------------------------------------------------- everything else stays

  /** No quote, no hash, and none of the openers //, block comment and <<. */
  predicate NothingToStrip(s: string) {
    && '"' !in s && '#' !in s
    && forall i :: 0 <= i < |s| - 1 ==> !(s[i] == '/' && s[i + 1] in {'/', '*'}) && !(s[i] == '<' && s[i + 1] == '<')
  }

  lemma CharacterIsCode(s: string, pat: Patterns, i: nat)
    requires NothingToStrip(s) && i < |s|
    ensures CodeStep(s, pat, i) == Code
  {
    assert s[i] in s;
  }

  lemma KeptCharacter(s: string, i: nat, after: string)
    requires i < |s|
    ensures WithoutNewlines(s[..i + 1]) + after
      == WithoutNewlines(s[..i]) + ((if s[i] != '\n' then [s[i]] else "") + after)
  {
    OneMore(s[..i], s[i]);
    assert s[..i + 1] == s[..i] + [s[i]];
  }

  lemma {:induction false} CodeStays(s: string, pat: Patterns, i: nat)
    requires NothingToStrip(s) && i <= |s|
    ensures WithoutNewlines(s[..i]) + CodeFrom(s, pat, i, Code) == WithoutNewlines(s)
    decreases |s| - i
  {
    if i == |s| {
      assert s[..i] == s;
    } else {
      CharacterIsCode(s, pat, i);
      StayInCode(s, pat, i);
      CodeStays(s, pat, i + 1);
      KeptCharacter(s, i, CodeFrom(s, pat, i + 1, Code));
    }
  }

  /** Code is kept as it stands. */
  lemma CodeIsKept(s: string)
    requires NothingToStrip(s)
    ensures CodeOf(s) == WithoutNewlines(s)
  {
    CodeStays(s, PatternsOf(s), 0);
    assert s[..0] == "";
  }
}
