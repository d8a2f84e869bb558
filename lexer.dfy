/**
 * 1.0/lib/scanner.go: the single-pass scanner. `ScanOne` is what one call
 * of `scanToken` does to the cursor, the line and the output, and `Lex` is
 * what `scanTokens` produces from a position on; the class `Scanner` below
 * performs the same scan step by step and is proved to agree with them.
 */
module Lexer {
  import opened Wrappers
  import opened Tokens

  /** The `keywords` table of NewScanner; lookups are case-sensitive. */
  const Keywords: map<seq<Byte>, TokenType> := map[
    "and" := And, "insert" := Insert, "into" := Into, "values" := Values,
    "select" := Select, "from" := From, "where" := Where, "create" := Create,
    "table" := Table, "database" := Database, "or" := Or, "not" := Not]

  // The Go helpers compare one-byte strings; a byte of 0x80 or more turns
  // into a two-byte string starting above "z", so none of these hold for it.
  predicate IsDigit(c: Byte) { '0' <= c <= '9' }
  predicate IsAlpha(c: Byte) { 'a' <= c <= 'z' || 'A' <= c <= 'Z' || c == '_' }
  predicate IsAlphaNumeric(c: Byte) { IsAlpha(c) || IsDigit(c) }
  predicate IsNotQuote(c: Byte) { c != '"' }
  predicate IsNotNewline(c: Byte) { c != '\n' }

  /** `peek` at index i: the byte there, or NUL past the end. */
  function At(source: seq<Byte>, i: nat): Byte
  {
    if i < |source| then source[i] else '\0'
  }

  /** `match` at index i: the byte there is the expected one. */
  predicate Next(source: seq<Byte>, i: nat, expected: Byte)
  {
    i < |source| && source[i] == expected
  }

  /** Where a `for p(s.peek()) { s.advance() }` loop started at i stops. */
  function SkipWhile(source: seq<Byte>, i: nat, p: Byte -> bool): (j: nat)
    requires i <= |source|
    ensures i <= j <= |source|
    ensures forall k :: i <= k < j ==> p(source[k])
    ensures j < |source| ==> !p(source[j])
    decreases |source| - i
  {
    if i < |source| && p(source[i]) then SkipWhile(source, i + 1, p) else i
  }

  /** The stopping point is the first index whose byte fails p. */
  lemma SkipWhileIs(source: seq<Byte>, i: nat, j: nat, p: Byte -> bool)
    requires i <= j <= |source|
    requires forall k :: i <= k < j ==> p(source[k])
    requires j < |source| ==> !p(source[j])
    ensures SkipWhile(source, i, p) == j
  {
  }

  function CountNewlines(s: seq<Byte>): (n: nat)
    ensures n <= |s|
  {
    if s == [] then 0
    else CountNewlines(s[..|s| - 1]) + (if s[|s| - 1] == '\n' then 1 else 0)
  }

  /** Proof helper: newline counts add over concatenation. */
  lemma {:induction false} CountNewlinesConcat(a: seq<Byte>, b: seq<Byte>)
    ensures CountNewlines(a + b) == CountNewlines(a) + CountNewlines(b)
    decreases |b|
  {
    if b == [] {
      assert a + b == a;
    } else {
      assert (a + b)[..|a + b| - 1] == a + b[..|b| - 1];
      CountNewlinesConcat(a, b[..|b| - 1]);
    }
  }

  /** Proof helper: extending a slice by one byte counts that byte if it is a newline. */
  lemma NewlineCounted(source: seq<Byte>, i: nat, j: nat)
    requires i <= j < |source|
    ensures CountNewlines(source[i..j + 1])
      == CountNewlines(source[i..j]) + if source[j] == '\n' then 1 else 0
  {
    assert source[i..j + 1][..j - i] == source[i..j];
  }

  /** Proof helper: a run with no newline byte counts none. */
  lemma {:induction false} NoNewlines(s: seq<Byte>)
    requires forall k :: 0 <= k < |s| ==> s[k] != '\n'
    ensures CountNewlines(s) == 0
  {
    if s != [] {
      NoNewlines(s[..|s| - 1]);
    }
  }

  /** An error reported through DumbQLError: its line and its message. */
  datatype ScanError = ScanError(line: int, message: string)

  /** The cursor, line and output after one `scanToken`. */
  datatype Step = Step(current: nat, line: int, token: Option<Token>, error: Option<ScanError>)

  /** `addToken` after the lexeme source[start..cur]. */
  function Emit(source: seq<Byte>, start: nat, cur: nat, line: int, t: TokenType, literal: Literal): (st: Step)
    requires start < cur <= |source|
  {
    Step(cur, line, Some(Token(t, source[start..cur], literal, line)), None)
  }

  /** A step that consumes up to cur and adds nothing. */
  function Quiet(cur: nat, line: int): Step
  {
    Step(cur, line, None, None)
  }

  /** `string`: source[start] is the opening quote. */
  function StringStep(source: seq<Byte>, start: nat, line: int): (st: Step)
    requires start < |source|
    ensures start < st.current <= |source|
    ensures st.token.Some? <==> st.error.None?
    ensures st.token.Some? ==> st.token.value.tokenType == String && source[st.current - 1] == '"'
    ensures st.error.Some? ==> st.current == |source|
  {
    var j := SkipWhile(source, start + 1, IsNotQuote);
    var l := line + CountNewlines(source[start + 1..j]);
    if j == |source| then Step(j, l, None, Some(ScanError(l, "Unterminated string.")))
    else Emit(source, start, j + 1, l, String, Text(source[start + 1..j]))
  }

  /** `number`: source[start] is a digit. */
  function NumberStep(source: seq<Byte>, start: nat, line: int): (st: Step)
    requires start < |source|
    ensures start < st.current <= |source|
    ensures st.token.Some? && st.error.None? && st.token.value.tokenType == Number
    ensures st.current < |source| ==> !IsDigit(source[st.current])
  {
    var d := SkipWhile(source, start + 1, IsDigit);
    var j := if At(source, d) == '.' && IsDigit(At(source, d + 1))
      then SkipWhile(source, d + 1, IsDigit) else d;
    Emit(source, start, j, line, Number, Float(source[start..j]))
  }

  /** `identifier`: source[start] is a letter or `_`. */
  function IdentifierStep(source: seq<Byte>, start: nat, line: int): (st: Step)
    requires start < |source|
    ensures start < st.current <= |source|
    ensures st.token.Some? && st.error.None?
    ensures forall k :: start < k < st.current ==> IsAlphaNumeric(source[k])
    ensures st.current < |source| ==> !IsAlphaNumeric(source[st.current])
  {
    var j := SkipWhile(source, start + 1, IsAlphaNumeric);
    var text := source[start..j];
    Emit(source, start, j, line, if text in Keywords then Keywords[text] else Identifier, Nil)
  }

  /**
   * `scanToken` with the cursor at `start`: every step consumes at least
   * one byte, adds at most one token or one error, and a token's lexeme is
   * exactly the bytes consumed.
   */
  function ScanOne(source: seq<Byte>, start: nat, line: int): (st: Step)
    requires start < |source|
    ensures start < st.current <= |source|
    ensures st.token.Some? ==> st.error.None?
    ensures st.token.Some? ==> st.token.value.lexeme == source[start..st.current]
    ensures st.token.Some? ==> st.token.value.line == st.line && st.token.value.tokenType != Eof
  {
    var c := source[start];
    var cur := start + 1;
    match c
    case '(' => Emit(source, start, cur, line, LeftParen, Nil)
    case ')' => Emit(source, start, cur, line, RightParen, Nil)
    case '{' => Emit(source, start, cur, line, LeftBrace, Nil)
    case '}' => Emit(source, start, cur, line, RightBrace, Nil)
    case ',' => Emit(source, start, cur, line, Comma, Nil)
    case '.' => Emit(source, start, cur, line, Dot, Nil)
    case '-' => Emit(source, start, cur, line, Minus, Nil)
    case '+' => Emit(source, start, cur, line, Plus, Nil)
    case ';' => Emit(source, start, cur, line, Semicolon, Nil)
    case '*' => Emit(source, start, cur, line, Star, Nil)
    case '!' =>
      if Next(source, cur, '=') then Emit(source, start, cur + 1, line, BangEqual, Nil)
      else Emit(source, start, cur, line, Bang, Nil)
    case '=' =>
      if Next(source, cur, '=') then Emit(source, start, cur + 1, line, EqualEqual, Nil)
      else Emit(source, start, cur, line, Equal, Nil)
    case '<' =>
      if Next(source, cur, '=') then Emit(source, start, cur + 1, line, LessEqual, Nil)
      else Emit(source, start, cur, line, Less, Nil)
    case '>' =>
      if Next(source, cur, '=') then Emit(source, start, cur + 1, line, GreaterEqual, Nil)
      else Emit(source, start, cur, line, Greater, Nil)
    case '/' =>
      if Next(source, cur, '/') then Quiet(SkipWhile(source, cur + 1, IsNotNewline), line)
      else Emit(source, start, cur, line, Slash, Nil)
    case ' ' => Quiet(cur, line)
    case '\r' => Quiet(cur, line)
    case '\t' => Quiet(cur, line)
    case '\n' => Quiet(cur, line + 1)
    case '"' => StringStep(source, start, line)
    case 'o' =>
      if Next(source, cur, 'r') then Emit(source, start, cur + 1, line, Or, Nil)
      else Quiet(cur, line)
    case _ =>
      if IsDigit(c) then NumberStep(source, start, line)
      else if IsAlpha(c) then IdentifierStep(source, start, line)
      else Step(cur, line, None, Some(ScanError(line, "Unexpected character.")))
  }

  /** Everything a scan produces: the tokens, ending with EOF, and the errors reported. */
  datatype Scan = Scan(tokens: seq<Token>, errors: seq<ScanError>)

  /** `scanTokens` with the cursor at pos and the line counter at line. */
  function Lex(source: seq<Byte>, pos: nat, line: int): (r: Scan)
    requires pos <= |source|
    ensures 1 <= |r.tokens| <= |source| - pos + 1
    ensures |r.errors| <= |source| - pos
    decreases |source| - pos
  {
    if pos == |source| then Scan([Token(Eof, [], Nil, line)], [])
    else
      var st := ScanOne(source, pos, line);
      var rest := Lex(source, st.current, st.line);
      Scan(OptionToSeq(st.token) + rest.tokens, OptionToSeq(st.error) + rest.errors)
  }

  /** `line` counts exactly the newlines a step consumes. */
  lemma ScanOneLines(source: seq<Byte>, start: nat, line: int)
    requires start < |source|
    ensures var st := ScanOne(source, start, line);
      st.line == line + CountNewlines(source[start..st.current])
  {
    var c := source[start];
    if c == '\n' {
      assert ScanOne(source, start, line) == Quiet(start + 1, line + 1);
      assert source[start..start + 1] == ['\n'];
      assert CountNewlines(['\n']) == 1 by { assert ['\n'][..0] == []; }
    } else if c == '"' {
      StringLines(source, start, line);
    } else {
      OtherLines(source, start, line);
    }
  }

  /** Proof helper for ScanOneLines: the string arm counts the newlines it consumes. */
  lemma StringLines(source: seq<Byte>, start: nat, line: int)
    requires start < |source| && source[start] == '"'
    ensures var st := StringStep(source, start, line);
      st.line == line + CountNewlines(source[start..st.current])
  {
    var c := source[start];
    var j := SkipWhile(source, start + 1, IsNotQuote);
    var l := line + CountNewlines(source[start + 1..j]);
    assert source[start..j] == [c] + source[start + 1..j];
    CountNewlinesConcat([c], source[start + 1..j]);
    NoNewlines([c]);
    if j < |source| {
      assert StringStep(source, start, line).current == j + 1;
      assert source[start..j + 1] == source[start..j] + [source[j]];
      CountNewlinesConcat(source[start..j], [source[j]]);
      NoNewlines([source[j]]);
    } else {
      assert StringStep(source, start, line).current == j;
    }
    assert StringStep(source, start, line).line == l;
  }

  /** Proof helper for ScanOneLines: on a byte other than a newline or a quote, the line moves by the newlines consumed. */
  lemma OtherLines(source: seq<Byte>, start: nat, line: int)
    requires start < |source| && source[start] != '\n' && source[start] != '"'
    ensures var st := ScanOne(source, start, line);
      st.line == line + CountNewlines(source[start..st.current])
  {
    var st := ScanOne(source, start, line);
    OtherPassesNoNewline(source, start, line);
    assert forall k :: 0 <= k < st.current - start ==> source[start..st.current][k] == source[start + k];
    NoNewlines(source[start..st.current]);
  }

  /** A step that starts at neither a newline nor a quote passes no newline and keeps the line. */
  lemma OtherPassesNoNewline(source: seq<Byte>, start: nat, line: int)
    requires start < |source| && source[start] != '\n' && source[start] != '"'
    ensures var st := ScanOne(source, start, line);
      && st.line == line
      && forall k :: start <= k < st.current ==> source[k] != '\n'
  {
    var c := source[start];
    if c in Punctuation || c in Operators || c == 'o' || c in " \r\t" {
      ShortStep(source, start, line);
    } else if c == '/' {
      SlashDispatch(source, start, line);
    } else {
      OtherDispatch(source, start, line);
      if IsDigit(c) {
        NumberPassesNoNewline(source, start, line);
      }
    }
  }

  /** Punctuation, an operator, `o` and blanks other than a newline take at most two bytes, the second not a newline. */
  lemma ShortStep(source: seq<Byte>, start: nat, line: int)
    requires start < |source|
    requires var c := source[start]; c in Punctuation || c in Operators || c == 'o' || c in " \r\t"
    ensures var st := ScanOne(source, start, line);
      && st.line == line && st.current <= start + 2
      && (start + 1 < st.current ==> source[start + 1] != '\n')
  {
    var c := source[start];
    if c in Punctuation {
      PunctuationToken(source, start, line);
    } else if c in Operators {
      OperatorToken(source, start, line);
    } else if c == 'o' {
      LetterOQuirk(source, start, line);
    } else {
      WhitespaceSkipped(source, start, line);
    }
  }

  /** Proof helper: a number lexeme holds no newline. */
  lemma NumberPassesNoNewline(source: seq<Byte>, start: nat, line: int)
    requires start < |source| && IsDigit(source[start])
    ensures var st := NumberStep(source, start, line);
      forall k :: start <= k < st.current ==> source[k] != '\n'
  {
    var st := NumberStep(source, start, line);
    var d := SkipWhile(source, start + 1, IsDigit);
    forall k | start <= k < st.current
      ensures source[k] != '\n'
    {
      assert k < d || source[k] == '.' || IsDigit(source[k]);
    }
  }

  /**
   * The scan ends with exactly one EOF token, with an empty lexeme, no
   * literal and the line reached after every newline of the source.
   */
  lemma LexEndsWithEof(source: seq<Byte>, pos: nat, line: int)
    requires pos <= |source|
    ensures var ts := Lex(source, pos, line).tokens;
      && |ts| >= 1
      && ts[|ts| - 1] == Token(Eof, [], Nil, line + CountNewlines(source[pos..]))
      && forall k :: 0 <= k < |ts| - 1 ==> ts[k].tokenType != Eof
  {
    LexLastToken(source, pos, line, Lex(source, pos, line).tokens);
    LexOnlyOneEof(source, pos, line, Lex(source, pos, line).tokens);
  }

  lemma {:induction false} LexLastToken(source: seq<Byte>, pos: nat, line: int, ts: seq<Token>)
    requires pos <= |source| && ts == Lex(source, pos, line).tokens
    ensures |ts| >= 1 && ts[|ts| - 1] == Token(Eof, [], Nil, line + CountNewlines(source[pos..]))
    decreases |source| - pos
  {
    if pos < |source| {
      var cur, curLine, head, headSp := LexStep(source, pos, line);
      var rest := Lex(source, cur, curLine).tokens;
      LexLastToken(source, cur, curLine, rest);
      LastTokenStep(source, pos, cur, line, curLine, head, rest, ts);
    } else {
      assert source[pos..] == [];
    }
  }

  /** The inductive step of LexLastToken, on the sequences alone. */
  lemma LastTokenStep(source: seq<Byte>, pos: nat, cur: nat, line: int, curLine: int,
                      head: seq<Token>, rest: seq<Token>, ts: seq<Token>)
    requires pos <= cur <= |source|
    requires curLine == line + CountNewlines(source[pos..cur])
    requires |rest| >= 1 && rest[|rest| - 1] == Token(Eof, [], Nil, curLine + CountNewlines(source[cur..]))
    requires ts == head + rest
    ensures |ts| >= 1 && ts[|ts| - 1] == Token(Eof, [], Nil, line + CountNewlines(source[pos..]))
  {
    LinesToEnd(source, pos, cur);
  }

  /** Proof helper: the newline count to the end splits at any midpoint. */
  lemma LinesToEnd(source: seq<Byte>, pos: nat, mid: nat)
    requires pos <= mid <= |source|
    ensures CountNewlines(source[pos..]) == CountNewlines(source[pos..mid]) + CountNewlines(source[mid..])
  {
    assert source[pos..] == source[pos..mid] + source[mid..];
    CountNewlinesConcat(source[pos..mid], source[mid..]);
  }

  lemma {:induction false} LexOnlyOneEof(source: seq<Byte>, pos: nat, line: int, ts: seq<Token>)
    requires pos <= |source| && ts == Lex(source, pos, line).tokens
    ensures |ts| >= 1 && forall k :: 0 <= k < |ts| - 1 ==> ts[k].tokenType != Eof
    decreases |source| - pos
  {
    if pos < |source| {
      var cur, curLine, head, headSp := LexStep(source, pos, line);
      var rest := Lex(source, cur, curLine).tokens;
      LexOnlyOneEof(source, cur, curLine, rest);
      OnlyOneEofStep(head, rest, ts);
    }
  }

  /** The inductive step of LexOnlyOneEof, on the sequences alone. */
  lemma OnlyOneEofStep(head: seq<Token>, rest: seq<Token>, ts: seq<Token>)
    requires |head| <= 1 && (|head| == 1 ==> head[0].tokenType != Eof)
    requires |rest| >= 1 && forall k :: 0 <= k < |rest| - 1 ==> rest[k].tokenType != Eof
    requires ts == head + rest
    ensures |ts| >= 1 && forall k :: 0 <= k < |ts| - 1 ==> ts[k].tokenType != Eof
  {
    forall k | 0 <= k < |ts| - 1
      ensures ts[k].tokenType != Eof
    {
      if k < |head| {
        assert ts[k] == head[k];
      } else {
        assert ts[k] == rest[k - |head|];
      }
    }
  }

  /** One step of `scanTokens`' loop: the scan from pos is the step's output, then the scan after it. */
  lemma LexUnfold(source: seq<Byte>, pos: nat, line: int)
    requires pos < |source|
    ensures var st := ScanOne(source, pos, line);
      var rest := Lex(source, st.current, st.line);
      && Lex(source, pos, line).tokens == OptionToSeq(st.token) + rest.tokens
      && Lex(source, pos, line).errors == OptionToSeq(st.error) + rest.errors
  {
  }

  /**
   * One step of the scan, stated without ScanOne: the cursor moves forward,
   * the line counts the newlines passed, and the step adds at most one
   * token, not EOF, whose lexeme is the bytes passed.
   */
  lemma LexStep(source: seq<Byte>, pos: nat, line: int)
    returns (cur: nat, curLine: int, head: seq<Token>, headSp: seq<Span>)
    requires pos < |source|
    ensures pos < cur <= |source|
    ensures curLine == line + CountNewlines(source[pos..cur])
    ensures |head| == |headSp| <= 1
    ensures |head| == 1 ==>
      && headSp[0] == Span(pos, cur) && head[0].lexeme == source[pos..cur]
      && head[0].line == curLine && head[0].tokenType != Eof
    ensures Lex(source, pos, line).tokens == head + Lex(source, cur, curLine).tokens
    ensures Spans(source, pos, line) == headSp + Spans(source, cur, curLine)
  {
    var st := ScanOne(source, pos, line);
    ScanOneLines(source, pos, line);
    cur, curLine, head := st.current, st.line, OptionToSeq(st.token);
    headSp := if st.token.Some? then [Span(pos, st.current)] else [];
  }

  /** What `scanTokens` has produced so far, followed by the scan from pos, splits at the next step. */
  lemma LexAfter(source: seq<Byte>, pos: nat, line: int, ts: seq<Token>, es: seq<ScanError>)
    requires pos < |source|
    ensures var st := ScanOne(source, pos, line);
      var rest := Lex(source, st.current, st.line);
      && ts + Lex(source, pos, line).tokens == (ts + OptionToSeq(st.token)) + rest.tokens
      && es + Lex(source, pos, line).errors == (es + OptionToSeq(st.error)) + rest.errors
  {
    LexUnfold(source, pos, line);
  }

  /** Proof helper: ScanOne on `/`, stated apart to keep each arm's proof small. */
  lemma SlashDispatch(source: seq<Byte>, start: nat, line: int)
    requires start < |source| && source[start] == '/'
    ensures ScanOne(source, start, line)
      == if Next(source, start + 1, '/') then Quiet(SkipWhile(source, start + 2, IsNotNewline), line)
         else Emit(source, start, start + 1, line, Slash, Nil)
  {
  }

  /** Proof helper: ScanOne on a quote is StringStep. */
  lemma StringDispatch(source: seq<Byte>, start: nat, line: int)
    requires start < |source| && source[start] == '"'
    ensures ScanOne(source, start, line) == StringStep(source, start, line)
  {
  }

  /** Proof helper: ScanOne on a byte no earlier arm takes. */
  lemma OtherDispatch(source: seq<Byte>, start: nat, line: int)
    requires start < |source|
    requires var c := source[start];
      c !in Punctuation && c !in Operators && c !in " \r\t\n" && c != '/' && c != 'o'
    ensures var c := source[start];
      ScanOne(source, start, line)
        == if c == '"' then StringStep(source, start, line)
           else if IsDigit(c) then NumberStep(source, start, line)
           else if IsAlpha(c) then IdentifierStep(source, start, line)
           else Step(start + 1, line, None, Some(ScanError(line, "Unexpected character.")))
  {
  }

  /** Where a token's lexeme lies: source[lo..hi]. */
  datatype Span = Span(lo: nat, hi: nat)

  /** The spans of the tokens before EOF that Lex(source, pos, line) produces, in order. */
  function Spans(source: seq<Byte>, pos: nat, line: int): (sp: seq<Span>)
    requires pos <= |source|
    ensures forall k :: 0 <= k < |sp| ==> pos <= sp[k].lo < sp[k].hi <= |source|
    decreases |source| - pos
  {
    if pos == |source| then []
    else
      var st := ScanOne(source, pos, line);
      (if st.token.Some? then [Span(pos, st.current)] else []) + Spans(source, st.current, st.line)
  }

  /**
   * Every token before EOF is the source text between its span's bounds,
   * and the spans follow one another without overlapping, so the lexemes
   * are disjoint substrings in source order.
   */
  lemma {:induction false} LexemesAreSpans(source: seq<Byte>, pos: nat, line: int)
    requires pos <= |source|
    ensures var ts := Lex(source, pos, line).tokens;
      var sp := Spans(source, pos, line);
      && |sp| == |ts| - 1
      && (forall k :: 0 <= k < |sp| ==> ts[k].lexeme == source[sp[k].lo..sp[k].hi])
      && (forall k :: 0 < k < |sp| ==> sp[k - 1].hi <= sp[k].lo)
    decreases |source| - pos
  {
    if pos < |source| {
      var cur, curLine, head, headSp := LexStep(source, pos, line);
      LexemesAreSpans(source, cur, curLine);
      SpansStep(source, pos, cur, head, headSp, Lex(source, cur, curLine).tokens, Spans(source, cur, curLine));
    }
  }

  /** The inductive step of LexemesAreSpans, on the sequences alone. */
  lemma SpansStep(source: seq<Byte>, pos: nat, cur: nat,
                  head: seq<Token>, headSp: seq<Span>, rest: seq<Token>, restSp: seq<Span>)
    requires pos < cur <= |source|
    requires |head| == |headSp| <= 1
    requires |headSp| == 1 ==> headSp[0] == Span(pos, cur) && head[0].lexeme == source[pos..cur]
    requires |restSp| == |rest| - 1
    requires forall k :: 0 <= k < |restSp| ==> cur <= restSp[k].lo < restSp[k].hi <= |source|
    requires forall k :: 0 <= k < |restSp| ==> rest[k].lexeme == source[restSp[k].lo..restSp[k].hi]
    requires forall k :: 0 < k < |restSp| ==> restSp[k - 1].hi <= restSp[k].lo
    ensures var ts := head + rest;
      var sp := headSp + restSp;
      && |sp| == |ts| - 1
      && (forall k :: 0 <= k < |sp| ==> ts[k].lexeme == source[sp[k].lo..sp[k].hi])
      && (forall k :: 0 < k < |sp| ==> sp[k - 1].hi <= sp[k].lo)
  {
    var ts := head + rest;
    var sp := headSp + restSp;
    forall k | 0 <= k < |sp|
      ensures ts[k].lexeme == source[sp[k].lo..sp[k].hi]
    {
      if k >= |head| {
        assert ts[k] == rest[k - |head|] && sp[k] == restSp[k - |head|];
      }
    }
    forall k | 0 < k < |sp|
      ensures sp[k - 1].hi <= sp[k].lo
    {
      assert sp[k] == restSp[k - |head|];
      if k - 1 >= |head| {
        assert sp[k - 1] == restSp[k - 1 - |head|];
      }
    }
  }

  /** A token's line is the starting line plus the newlines up to the end of its lexeme. */
  lemma {:induction false} TokenLines(source: seq<Byte>, pos: nat, line: int)
    requires pos <= |source|
    ensures var ts := Lex(source, pos, line).tokens;
      var sp := Spans(source, pos, line);
      |sp| == |ts| - 1
      && forall k :: 0 <= k < |sp| ==> ts[k].line == line + CountNewlines(source[pos..sp[k].hi])
    decreases |source| - pos
  {
    if pos < |source| {
      var cur, curLine, head, headSp := LexStep(source, pos, line);
      TokenLines(source, cur, curLine);
      TokenLinesStep(source, pos, cur, line, curLine, head, headSp,
        Lex(source, cur, curLine).tokens, Spans(source, cur, curLine));
    }
  }

  /** The inductive step of TokenLines, on the sequences alone. */
  lemma TokenLinesStep(source: seq<Byte>, pos: nat, cur: nat, line: int, curLine: int,
                       head: seq<Token>, headSp: seq<Span>, rest: seq<Token>, restSp: seq<Span>)
    requires pos <= cur <= |source|
    requires curLine == line + CountNewlines(source[pos..cur])
    requires |head| == |headSp| <= 1
    requires |headSp| == 1 ==> headSp[0].hi == cur && head[0].line == curLine
    requires |restSp| == |rest| - 1
    requires forall k :: 0 <= k < |restSp| ==> cur <= restSp[k].lo < restSp[k].hi <= |source|
    requires forall k :: 0 <= k < |restSp| ==> rest[k].line == curLine + CountNewlines(source[cur..restSp[k].hi])
    ensures var ts := head + rest;
      var sp := headSp + restSp;
      |sp| == |ts| - 1
      && forall k :: 0 <= k < |sp| ==> ts[k].line == line + CountNewlines(source[pos..sp[k].hi])
  {
    var ts := head + rest;
    var sp := headSp + restSp;
    forall k | 0 <= k < |sp|
      ensures ts[k].line == line + CountNewlines(source[pos..sp[k].hi])
    {
      if k >= |head| {
        assert ts[k] == rest[k - |head|] && sp[k] == restSp[k - |head|];
        LinesAcross(source, pos, cur, sp[k].hi);
      }
    }
  }

  lemma {:induction false} SpansCount(source: seq<Byte>, pos: nat, line: int)
    requires pos <= |source|
    ensures |Spans(source, pos, line)| == |Lex(source, pos, line).tokens| - 1
    decreases |source| - pos
  {
    if pos < |source| {
      var cur, curLine, head, headSp := LexStep(source, pos, line);
      SpansCount(source, cur, curLine);
    }
  }

  /** Proof helper: the newline count of a slice splits at any midpoint. */
  lemma LinesAcross(source: seq<Byte>, pos: nat, mid: nat, hi: nat)
    requires pos <= mid <= hi <= |source|
    ensures CountNewlines(source[pos..hi]) == CountNewlines(source[pos..mid]) + CountNewlines(source[mid..hi])
  {
    assert source[pos..hi] == source[pos..mid] + source[mid..hi];
    CountNewlinesConcat(source[pos..mid], source[mid..hi]);
  }

  /** Proof helper: a longer prefix counts at least as many newlines. */
  lemma NewlinesMonotone(source: seq<Byte>, pos: nat, a: nat, b: nat)
    requires pos <= a <= b <= |source|
    ensures CountNewlines(source[pos..a]) <= CountNewlines(source[pos..b])
  {
    LinesAcross(source, pos, a, b);
  }

  /** Line numbers start at the given line and never decrease along the output, EOF included. */
  lemma LinesNonDecreasing(source: seq<Byte>, pos: nat, line: int)
    requires pos <= |source|
    ensures var ts := Lex(source, pos, line).tokens;
      && (forall k :: 0 <= k < |ts| ==> line <= ts[k].line)
      && (forall i, j :: 0 <= i <= j < |ts| ==> ts[i].line <= ts[j].line)
  {
    LexLastToken(source, pos, line, Lex(source, pos, line).tokens);
    LexemesAreSpans(source, pos, line);
    TokenLines(source, pos, line);
    LinesOfSpans(source, pos, line, Lex(source, pos, line).tokens, Spans(source, pos, line));
  }

  /** Proof helper for LinesNonDecreasing: ordered spans give non-decreasing lines. */
  lemma LinesOfSpans(source: seq<Byte>, pos: nat, line: int, ts: seq<Token>, sp: seq<Span>)
    requires pos <= |source|
    requires |ts| >= 1 && ts[|ts| - 1].line == line + CountNewlines(source[pos..])
    requires |sp| == |ts| - 1
    requires forall k :: 0 <= k < |sp| ==> pos <= sp[k].lo < sp[k].hi <= |source|
    requires forall k :: 0 < k < |sp| ==> sp[k - 1].hi <= sp[k].lo
    requires forall k :: 0 <= k < |sp| ==> ts[k].line == line + CountNewlines(source[pos..sp[k].hi])
    ensures forall k :: 0 <= k < |ts| ==> line <= ts[k].line
    ensures forall i, j :: 0 <= i <= j < |ts| ==> ts[i].line <= ts[j].line
  {
    var n := |ts| - 1;
    var ends := seq(|ts|, k requires 0 <= k < |ts| => if k < n then sp[k].hi else |source|);
    EndsSorted(sp, pos, |source|, ends);
    forall k | 0 <= k < |ends|
      ensures pos <= ends[k] <= |source| && ts[k].line == line + CountNewlines(source[pos..ends[k]])
    {
      if k == n {
        assert source[pos..] == source[pos..ends[k]];
      }
    }
    LinesFromEnds(source, pos, line, ts, ends);
  }

  /** Proof helper for LinesOfSpans: lines computed from sorted end positions are sorted. */
  lemma LinesFromEnds(source: seq<Byte>, pos: nat, line: int, ts: seq<Token>, ends: seq<nat>)
    requires |ends| == |ts|
    requires forall i, j :: 0 <= i <= j < |ends| ==> ends[i] <= ends[j]
    requires forall k :: 0 <= k < |ends| ==>
      pos <= ends[k] <= |source| && ts[k].line == line + CountNewlines(source[pos..ends[k]])
    ensures forall k :: 0 <= k < |ts| ==> line <= ts[k].line
    ensures forall i, j :: 0 <= i <= j < |ts| ==> ts[i].line <= ts[j].line
  {
    forall i, j | 0 <= i <= j < |ts|
      ensures ts[i].line <= ts[j].line
    {
      NewlinesMonotone(source, pos, ends[i], ends[j]);
    }
  }

  /** Proof helper for LinesOfSpans: span ends followed by the source length are sorted. */
  lemma EndsSorted(sp: seq<Span>, pos: nat, len: nat, ends: seq<nat>)
    requires forall k :: 0 <= k < |sp| ==> pos <= sp[k].lo < sp[k].hi <= len
    requires forall k :: 0 < k < |sp| ==> sp[k - 1].hi <= sp[k].lo
    requires |ends| == |sp| + 1 && ends[|sp|] == len
    requires forall k :: 0 <= k < |sp| ==> ends[k] == sp[k].hi
    requires pos <= len
    ensures forall k :: 0 <= k < |ends| ==> pos <= ends[k] <= len
    ensures forall i, j :: 0 <= i <= j < |ends| ==> ends[i] <= ends[j]
  {
    SpansEndsOrdered(sp, pos, len);
  }

  /** Proof helper: disjoint ordered spans have ordered ends. */
  lemma SpansEndsOrdered(sp: seq<Span>, pos: nat, len: nat)
    requires forall k :: 0 <= k < |sp| ==> pos <= sp[k].lo < sp[k].hi <= len
    requires forall k :: 0 < k < |sp| ==> sp[k - 1].hi <= sp[k].lo
    ensures forall i, j :: 0 <= i <= j < |sp| ==> sp[i].hi <= sp[j].hi
  {
    forall i, j | 0 <= i <= j < |sp|
      ensures sp[i].hi <= sp[j].hi
    {
      var m := i;
      while m < j
        invariant i <= m <= j
        invariant sp[i].hi <= sp[m].hi
      {
        m := m + 1;
      }
    }
  }

  /** The one-byte tokens, as a table. */
  const Punctuation: map<Byte, TokenType> := map[
    '(' := LeftParen, ')' := RightParen, '{' := LeftBrace, '}' := RightBrace,
    ',' := Comma, '.' := Dot, '-' := Minus, '+' := Plus, ';' := Semicolon, '*' := Star]

  /** The operators that may take a following `=`: (alone, with `=`). */
  const Operators: map<Byte, (TokenType, TokenType)> := map[
    '!' := (Bang, BangEqual), '=' := (Equal, EqualEqual),
    '<' := (Less, LessEqual), '>' := (Greater, GreaterEqual)]

  lemma PunctuationToken(source: seq<Byte>, start: nat, line: int)
    requires start < |source| && source[start] in Punctuation
    ensures ScanOne(source, start, line)
      == Step(start + 1, line, Some(Token(Punctuation[source[start]], [source[start]], Nil, line)), None)
  {
    assert source[start..start + 1] == [source[start]];
  }

  /** An operator followed by `=` is one two-byte token; otherwise it stands alone. */
  lemma OperatorToken(source: seq<Byte>, start: nat, line: int)
    requires start < |source| && source[start] in Operators
    ensures var c := source[start];
      var st := ScanOne(source, start, line);
      if Next(source, start + 1, '=') then
        st == Step(start + 2, line, Some(Token(Operators[c].1, [c, '='], Nil, line)), None)
      else
        st == Step(start + 1, line, Some(Token(Operators[c].0, [c], Nil, line)), None)
  {
    assert source[start..start + 1] == [source[start]];
    if start + 1 < |source| {
      assert source[start..start + 2] == [source[start], source[start + 1]];
    }
  }

  /** Spaces, tabs and carriage returns are skipped; a newline is skipped and counted. */
  lemma WhitespaceSkipped(source: seq<Byte>, start: nat, line: int)
    requires start < |source| && source[start] in " \r\t\n"
    ensures ScanOne(source, start, line)
      == Step(start + 1, if source[start] == '\n' then line + 1 else line, None, None)
  {
  }

  /**
   * `//` starts a comment that runs up to the next newline, which it leaves
   * in place, or to the end; it adds nothing.
   */
  lemma CommentSkipped(source: seq<Byte>, start: nat, line: int)
    requires start + 1 < |source| && source[start] == '/' && source[start + 1] == '/'
    ensures var st := ScanOne(source, start, line);
      && st.token.None? && st.error.None? && st.line == line
      && (st.current == |source| || source[st.current] == '\n')
      && forall k :: start <= k < st.current ==> source[k] != '\n'
  {
  }

  /** A `/` not followed by another is the SLASH token. */
  lemma SlashToken(source: seq<Byte>, start: nat, line: int)
    requires start < |source| && source[start] == '/' && !Next(source, start + 1, '/')
    ensures ScanOne(source, start, line) == Step(start + 1, line, Some(Token(Slash, ['/'], Nil, line)), None)
  {
    assert source[start..start + 1] == ['/'];
  }

  /**
   * A string closed by the first quote after the opening one at j: the
   * lexeme keeps both quotes, the literal is the text between them, and the
   * token carries the line reached after the newlines inside it.
   */
  lemma StringTerminated(source: seq<Byte>, start: nat, line: int, j: nat)
    requires start < j < |source| && source[start] == '"' && source[j] == '"'
    requires forall k :: start < k < j ==> source[k] != '"'
    ensures var l := line + CountNewlines(source[start + 1..j]);
      ScanOne(source, start, line)
        == Step(j + 1, l, Some(Token(String, source[start..j + 1], Text(source[start + 1..j]), l)), None)
  {
    StringDispatch(source, start, line);
    ClosedString(source, start, line, j);
  }

  /** Proof helper for StringTerminated: StringStep's result when a closing quote is found. */
  lemma ClosedString(source: seq<Byte>, start: nat, line: int, j: nat)
    requires start < j < |source| && source[j] == '"'
    requires forall k :: start < k < j ==> source[k] != '"'
    ensures var l := line + CountNewlines(source[start + 1..j]);
      StringStep(source, start, line)
        == Step(j + 1, l, Some(Token(String, source[start..j + 1], Text(source[start + 1..j]), l)), None)
  {
    SkipWhileIs(source, start + 1, j, IsNotQuote);
  }

  /** A string with no closing quote consumes the rest of the source, reports, and adds no token. */
  lemma StringUnterminated(source: seq<Byte>, start: nat, line: int)
    requires start < |source| && source[start] == '"'
    requires forall k :: start < k < |source| ==> source[k] != '"'
    ensures var l := line + CountNewlines(source[start + 1..]);
      ScanOne(source, start, line)
        == Step(|source|, l, None, Some(ScanError(l, "Unterminated string.")))
  {
    StringDispatch(source, start, line);
    SkipWhileIs(source, start + 1, |source|, IsNotQuote);
    assert source[start + 1..] == source[start + 1..|source|];
  }

  /**
   * A letter or `_` other than `o` starts an identifier: the longest run of
   * letters, digits and `_`, typed by the case-sensitive keyword table.
   */
  lemma IdentifierToken(source: seq<Byte>, start: nat, line: int, j: nat)
    requires start < j <= |source| && IsAlpha(source[start]) && source[start] != 'o'
    requires forall k :: start <= k < j ==> IsAlphaNumeric(source[k])
    requires j < |source| ==> !IsAlphaNumeric(source[j])
    ensures var text := source[start..j];
      ScanOne(source, start, line)
        == Step(j, line, Some(Token(if text in Keywords then Keywords[text] else Identifier, text, Nil, line)), None)
  {
    SkipWhileIs(source, start + 1, j, IsAlphaNumeric);
  }

  /**
   * `o` is never the start of an identifier: followed by `r` it is the OR
   * token `or` (even inside a longer word), otherwise it is dropped without
   * a token or an error.
   */
  lemma LetterOQuirk(source: seq<Byte>, start: nat, line: int)
    requires start < |source| && source[start] == 'o'
    ensures ScanOne(source, start, line)
      == if Next(source, start + 1, 'r') then Step(start + 2, line, Some(Token(Or, "or", Nil, line)), None)
         else Step(start + 1, line, None, None)
  {
    if Next(source, start + 1, 'r') {
      assert source[start..start + 2] == "or";
    }
  }

  /**
   * A number is the longest run of digits, extended by `.` and a further
   * run of digits only when a digit follows the dot; the literal is parsed
   * from the lexeme.
   */
  lemma NumberToken(source: seq<Byte>, start: nat, line: int, d: nat, j: nat)
    requires start < d <= j <= |source|
    requires forall k :: start <= k < d ==> IsDigit(source[k])
    requires d < |source| ==> !IsDigit(source[d])
    requires if At(source, d) == '.' && IsDigit(At(source, d + 1)) then
        d + 1 < j && (forall k :: d < k < j ==> IsDigit(source[k])) && (j < |source| ==> !IsDigit(source[j]))
      else j == d
    ensures ScanOne(source, start, line)
      == Step(j, line, Some(Token(Number, source[start..j], Float(source[start..j]), line)), None)
  {
    assert ScanOne(source, start, line) == NumberStep(source, start, line);
    NumberEnd(source, start, d, j);
  }

  /** Proof helper for NumberToken: where the number lexeme ends. */
  lemma NumberEnd(source: seq<Byte>, start: nat, d: nat, j: nat)
    requires start < d <= j <= |source|
    requires forall k :: start <= k < d ==> IsDigit(source[k])
    requires d < |source| ==> !IsDigit(source[d])
    requires if At(source, d) == '.' && IsDigit(At(source, d + 1)) then
        d + 1 < j && (forall k :: d < k < j ==> IsDigit(source[k])) && (j < |source| ==> !IsDigit(source[j]))
      else j == d
    ensures SkipWhile(source, start + 1, IsDigit) == d
    ensures (if At(source, d) == '.' && IsDigit(At(source, d + 1))
      then SkipWhile(source, d + 1, IsDigit) else d) == j
  {
    SkipWhileIs(source, start + 1, d, IsDigit);
    if At(source, d) == '.' && IsDigit(At(source, d + 1)) {
      SkipWhileIs(source, d + 1, j, IsDigit);
    }
  }

  /** Any other byte is reported on the current line, and scanning goes on after it. */
  lemma UnexpectedCharacter(source: seq<Byte>, start: nat, line: int)
    requires start < |source|
    requires var c := source[start];
      c !in Punctuation && c !in Operators && c !in "/ \r\t\n\"o" && !IsDigit(c) && !IsAlpha(c)
    ensures var rest := Lex(source, start + 1, line);
      Lex(source, start, line) == Scan(rest.tokens, [ScanError(line, "Unexpected character.")] + rest.errors)
  {
    var c := source[start];
    assert ScanOne(source, start, line) == Step(start + 1, line, None, Some(ScanError(line, "Unexpected character.")));
  }

  /** `1.` is the number `1` followed by a separate DOT: no digit follows the dot. */
  lemma NumberThenDot()
    ensures Lex("1.", 0, 1) == Scan([Token(Number, "1", Float("1"), 1), Token(Dot, ".", Nil, 1), Token(Eof, [], Nil, 1)], [])
  {
    var source: seq<Byte> := "1.";
    NumberToken(source, 0, 1, 1, 1);
    assert source[0..1] == "1";
    PunctuationToken(source, 1, 1);
    assert Lex(source, 2, 1) == Scan([Token(Eof, [], Nil, 1)], []);
  }

  /** `order` is not an identifier: it scans as OR `or` followed by the identifier `der`. */
  lemma OrderSplits()
    ensures Lex("order", 0, 1) == Scan([Token(Or, "or", Nil, 1), Token(Identifier, "der", Nil, 1), Token(Eof, [], Nil, 1)], [])
  {
    OrderHead("order");
    OrderTail("order");
  }

  /** `o` then `r`: the first step of `order` is the OR token `or`. */
  lemma OrderHead(source: seq<Byte>)
    requires source == "order"
    ensures Lex(source, 0, 1).tokens == [Token(Or, "or", Nil, 1)] + Lex(source, 2, 1).tokens
    ensures Lex(source, 0, 1).errors == Lex(source, 2, 1).errors
  {
    LetterOQuirk(source, 0, 1);
    assert source[0..2] == "or";
    LexThrough(source, 0, 1, Step(2, 1, Some(Token(Or, "or", Nil, 1)), None), Lex(source, 2, 1));
  }

  /** The rest of `order` is the identifier `der`, then EOF. */
  lemma OrderTail(source: seq<Byte>)
    requires source == "order"
    ensures Lex(source, 2, 1) == Scan([Token(Identifier, "der", Nil, 1), Token(Eof, [], Nil, 1)], [])
  {
    assert source[2..5] == "der";
    assert "der" !in Keywords;
    IdentifierToken(source, 2, 1, 5);
    LexThrough(source, 2, 1, Step(5, 1, Some(Token(Identifier, "der", Nil, 1)), None), Scan([Token(Eof, [], Nil, 1)], []));
  }

  /** The scan from pos, once its first step and the scan after that are known. */
  lemma LexThrough(source: seq<Byte>, pos: nat, line: int, st: Step, rest: Scan)
    requires pos < |source| && ScanOne(source, pos, line) == st
    requires st.current <= |source| && Lex(source, st.current, st.line) == rest
    ensures Lex(source, pos, line) == Scan(OptionToSeq(st.token) + rest.tokens, OptionToSeq(st.error) + rest.errors)
  {
  }

  /** A lone `o` leaves no trace: no token and no error. */
  lemma LoneOVanishes()
    ensures Lex("o", 0, 1) == Scan([Token(Eof, [], Nil, 1)], [])
  {
    LetterOQuirk("o", 0, 1);
    assert Lex("o", 1, 1) == Scan([Token(Eof, [], Nil, 1)], []);
  }

  /**
   * The Scanner struct, with its methods taking the scanner by reference
   * so that their updates of the cursor, the line and the tokens persist.
   * Errors that DumbQLError would print are collected in `errors`.
   */
  class Scanner {
    const source: seq<Byte>
    const keywords: map<seq<Byte>, TokenType>
    var tokens: seq<Token>
    var start: nat
    var current: nat
    var line: int
    var errors: seq<ScanError>

    ghost predicate Valid()
      reads this
    {
      start <= current <= |source| && keywords == Keywords
    }

    /** NewScanner. */
    constructor (source: seq<Byte>)
      ensures Valid()
      ensures this.source == source && tokens == [] && errors == []
      ensures start == 0 && current == 0 && line == 1
    {
      this.source := source;
      keywords := Keywords;
      tokens := [];
      start := 0;
      current := 0;
      line := 1;
      errors := [];
    }

    predicate IsAtEnd()
      reads this
    {
      current >= |source|
    }

    function Peek(): Byte
      reads this
    {
      At(source, current)
    }

    function PeekNext(): Byte
      reads this
    {
      At(source, current + 1)
    }

    /** Consumes the byte under the cursor and returns it. */
    method Advance() returns (c: Byte)
      requires Valid() && current < |source|
      modifies this
      ensures Valid()
      ensures c == source[old(current)] && current == old(current) + 1
      ensures start == old(start) && line == old(line) && tokens == old(tokens) && errors == old(errors)
    {
      current := current + 1;
      c := source[current - 1];
    }

    /** Appends a token whose lexeme is source[start..current], on the current line. */
    method AddToken(tokenType: TokenType, literal: Literal)
      requires Valid()
      modifies this
      ensures Valid()
      ensures tokens == old(tokens) + [Token(tokenType, source[start..current], literal, line)]
      ensures start == old(start) && current == old(current) && line == old(line) && errors == old(errors)
    {
      var text := source[start..current];
      tokens := tokens + [Token(tokenType, text, literal, line)];
    }

    /** Consumes the next byte only when it is the expected one. */
    method Match(expected: Byte) returns (matched: bool)
      requires Valid()
      modifies this
      ensures Valid()
      ensures matched <==> Next(source, old(current), expected)
      ensures current == if matched then old(current) + 1 else old(current)
      ensures start == old(start) && line == old(line) && tokens == old(tokens) && errors == old(errors)
    {
      if IsAtEnd() {
        return false;
      }
      if source[current] != expected {
        return false;
      }
      current := current + 1;
      return true;
    }

    /** DumbQLError: records the message on the current line. */
    method Report(message: string)
      requires Valid()
      modifies this
      ensures Valid()
      ensures errors == old(errors) + [ScanError(line, message)]
      ensures start == old(start) && current == old(current) && line == old(line) && tokens == old(tokens)
    {
      errors := errors + [ScanError(line, message)];
    }

    /** The whole scan: every remaining token, then EOF. */
    method ScanTokens() returns (result: seq<Token>)
      requires Valid()
      modifies this
      ensures Valid()
      ensures result == tokens
      ensures tokens == old(tokens) + Lex(source, old(current), old(line)).tokens
      ensures errors == old(errors) + Lex(source, old(current), old(line)).errors
    {
      while !IsAtEnd()
        invariant Valid()
        invariant old(tokens) + Lex(source, old(current), old(line)).tokens
          == tokens + Lex(source, current, line).tokens
        invariant old(errors) + Lex(source, old(current), old(line)).errors
          == errors + Lex(source, current, line).errors
        decreases |source| - current
      {
        start := current;
        LexAfter(source, current, line, tokens, errors);
        ScanToken();
      }
      tokens := tokens + [Token(Eof, [], Nil, line)];
      result := tokens;
    }

    /** The scanner has taken step st from the token and error lists it had before. */
    ghost predicate Stepped(st: Step, tokensBefore: seq<Token>, errorsBefore: seq<ScanError>)
      reads this
    {
      && current == st.current && line == st.line
      && tokens == tokensBefore + OptionToSeq(st.token)
      && errors == errorsBefore + OptionToSeq(st.error)
    }

    /**
     * One token's worth of scanning from the cursor, which `start` marks.
     * The switch's one-byte and operator arms go through the tables above;
     * its other arms are in ScanOther.
     */
    method ScanToken()
      requires Valid() && start == current < |source|
      modifies this
      ensures Valid() && start == old(start)
      ensures Stepped(ScanOne(source, old(current), old(line)), old(tokens), old(errors))
    {
      var c := Advance();
      if c in Punctuation {
        AddPunctuation(Punctuation[c]);
      } else if c in Operators {
        AddOperator(Operators[c].0, Operators[c].1);
      } else {
        ScanOther(c);
      }
    }

    /** The arms of the switch for every byte that is neither punctuation nor an operator. */
    method ScanOther(c: Byte)
      requires Valid() && start + 1 == current && source[start] == c
      requires c !in Punctuation && c !in Operators
      modifies this
      ensures Valid() && start == old(start)
      ensures Stepped(ScanOne(source, old(start), old(line)), old(tokens), old(errors))
    {
      match c
      case '/' => ScanSlash();
      case ' ' | '\r' | '\t' => WhitespaceSkipped(source, start, line);
      case '\n' =>
        WhitespaceSkipped(source, start, line);
        line := line + 1;
      case '"' =>
        StringDispatch(source, start, line);
        ScanString();
      case 'o' => ScanLetterO();
      case _ => ScanDefault(c);
    }

    /** The `o` arm: OR when `r` follows, nothing otherwise. */
    method ScanLetterO()
      requires Valid() && start + 1 == current && source[start] == 'o'
      modifies this
      ensures Valid() && start == old(start)
      ensures Stepped(ScanOne(source, old(start), old(line)), old(tokens), old(errors))
    {
      LetterOQuirk(source, start, line);
      var m := Match('r');
      if m {
        assert source[start..current] == "or";
        AddToken(Or, Nil);
      }
    }

    /** The switch's default arm: a number, an identifier, or an error. */
    method ScanDefault(c: Byte)
      requires Valid() && start + 1 == current && source[start] == c
      requires c !in Punctuation && c !in Operators && c !in " \r\t\n" && c != '/' && c != '"' && c != 'o'
      modifies this
      ensures Valid() && start == old(start)
      ensures Stepped(ScanOne(source, old(start), old(line)), old(tokens), old(errors))
    {
      OtherDispatch(source, start, line);
      if IsDigit(c) {
        ScanNumber();
      } else if IsAlpha(c) {
        ScanIdentifier();
      } else {
        Report("Unexpected character.");
      }
    }

    /** A switch arm adding a fixed one-byte token. */
    method AddPunctuation(tokenType: TokenType)
      requires Valid() && start + 1 == current
      requires source[start] in Punctuation && Punctuation[source[start]] == tokenType
      modifies this
      ensures Valid() && start == old(start)
      ensures Stepped(ScanOne(source, old(start), old(line)), old(tokens), old(errors))
    {
      PunctuationToken(source, start, line);
      AddToken(tokenType, Nil);
    }

    /** A switch arm for an operator that takes a following `=` when there is one. */
    method AddOperator(alone: TokenType, withEqual: TokenType)
      requires Valid() && start + 1 == current
      requires source[start] in Operators && Operators[source[start]] == (alone, withEqual)
      modifies this
      ensures Valid() && start == old(start)
      ensures Stepped(ScanOne(source, old(start), old(line)), old(tokens), old(errors))
    {
      OperatorToken(source, start, line);
      var m := Match('=');
      if m {
        assert source[start..current] == [source[start], '='];
        AddToken(withEqual, Nil);
      } else {
        assert source[start..current] == [source[start]];
        AddToken(alone, Nil);
      }
    }

    /** The `/` arm: a comment when another `/` follows, SLASH otherwise. */
    method ScanSlash()
      requires Valid() && start + 1 == current && source[start] == '/'
      modifies this
      ensures Valid() && start == old(start)
      ensures Stepped(ScanOne(source, old(start), old(line)), old(tokens), old(errors))
    {
      SlashDispatch(source, start, line);
      var m := Match('/');
      if m {
        SkipComment();
      } else {
        AddToken(Slash, Nil);
      }
    }

    /** The comment loop: up to the next newline or the end. */
    method SkipComment()
      requires Valid() && start + 2 == current
      modifies this
      ensures Valid()
      ensures current == SkipWhile(source, old(current), IsNotNewline)
      ensures start == old(start) && line == old(line) && tokens == old(tokens) && errors == old(errors)
    {
      while Peek() != '\n' && !IsAtEnd()
        invariant Valid() && old(current) <= current
        invariant forall k :: old(current) <= k < current ==> IsNotNewline(source[k])
        invariant start == old(start) && line == old(line) && tokens == old(tokens) && errors == old(errors)
        decreases |source| - current
      {
        var skipped := Advance();
      }
      SkipWhileIs(source, old(current), current, IsNotNewline);
    }

    /** `string`: the opening quote is consumed. */
    method ScanString()
      requires Valid() && start + 1 == current && source[start] == '"'
      modifies this
      ensures Valid() && start == old(start)
      ensures Stepped(StringStep(source, old(start), old(line)), old(tokens), old(errors))
    {
      SkipStringBody();
      if IsAtEnd() {
        Report("Unterminated string.");
        return;
      }
      var closing := Advance();
      var value := source[start + 1..current - 1];
      AddToken(String, Text(value));
    }

    /** The loop of `string`: up to the closing quote or the end, counting the newlines passed. */
    method SkipStringBody()
      requires Valid()
      modifies this
      ensures Valid()
      ensures current == SkipWhile(source, old(current), IsNotQuote)
      ensures line == old(line) + CountNewlines(source[old(current)..current])
      ensures start == old(start) && tokens == old(tokens) && errors == old(errors)
    {
      while Peek() != '"' && !IsAtEnd()
        invariant Valid() && old(current) <= current
        invariant forall k :: old(current) <= k < current ==> IsNotQuote(source[k])
        invariant line == old(line) + CountNewlines(source[old(current)..current])
        invariant start == old(start) && tokens == old(tokens) && errors == old(errors)
        decreases |source| - current
      {
        NewlineCounted(source, old(current), current);
        if Peek() == '\n' {
          line := line + 1;
        }
        var skipped := Advance();
      }
      SkipWhileIs(source, old(current), current, IsNotQuote);
    }

    /** `number`: the first digit is consumed. */
    method ScanNumber()
      requires Valid() && start + 1 == current && IsDigit(source[start])
      modifies this
      ensures Valid() && start == old(start)
      ensures Stepped(NumberStep(source, old(start), old(line)), old(tokens), old(errors))
    {
      ScanDigits();
      if Peek() == '.' && IsDigit(PeekNext()) {
        var dot := Advance();
        ScanDigits();
      }
      var text := source[start..current];
      AddToken(Number, Float(text));
    }

    /** A run of digits: `for isDigit(s.peek()) { s.advance() }`. */
    method ScanDigits()
      requires Valid()
      modifies this
      ensures Valid()
      ensures current == SkipWhile(source, old(current), IsDigit)
      ensures start == old(start) && line == old(line) && tokens == old(tokens) && errors == old(errors)
    {
      while IsDigit(Peek())
        invariant Valid() && old(current) <= current
        invariant forall k :: old(current) <= k < current ==> IsDigit(source[k])
        invariant start == old(start) && line == old(line) && tokens == old(tokens) && errors == old(errors)
        decreases |source| - current
      {
        var digit := Advance();
      }
      SkipWhileIs(source, old(current), current, IsDigit);
    }

    /** `identifier`: the first letter is consumed. */
    method ScanIdentifier()
      requires Valid() && start + 1 == current && IsAlpha(source[start])
      modifies this
      ensures Valid() && start == old(start)
      ensures Stepped(IdentifierStep(source, old(start), old(line)), old(tokens), old(errors))
    {
      while IsAlphaNumeric(Peek())
        invariant Valid() && start + 1 <= current && start == old(start)
        invariant forall k :: start + 1 <= k < current ==> IsAlphaNumeric(source[k])
        invariant line == old(line) && tokens == old(tokens) && errors == old(errors)
        decreases |source| - current
      {
        var c := Advance();
      }
      SkipWhileIs(source, start + 1, current, IsAlphaNumeric);
      var text := source[start..current];
      var tokenType := if text in keywords then keywords[text] else Identifier;
      AddToken(tokenType, Nil);
    }
  }
}
