/**
 * scanTokens as 1.0/lib/scanner.go writes it. Every Scanner method has a
 * value receiver, so each call works on its own copy of the struct and
 * whatever it changes is dropped when it returns. A loop inside one of
 * those methods that advances by calling `s.advance()` therefore tests the
 * same byte on every pass. The model in module Lexer gives the methods a
 * reference receiver instead.
 */
module ValueReceivers {
  import opened Wrappers
  import opened Tokens
  import opened Lexer

  /** A copy of the Scanner struct (the error reporter aside). */
  datatype ScannerValue = ScannerValue(source: seq<Byte>, tokens: seq<Token>, start: nat, current: nat, line: int)

  /**
   * What a call does as far as its caller can tell: it returns, having
   * reported at most one error through DumbQLError, it never returns, or it
   * panics. Whatever else it changes is lost with its copy.
   */
  datatype Outcome = Returns(error: Option<ScanError>) | Hangs | Panics

  /** NewScanner: the cursor at the first byte, on line 1, with no tokens. */
  function NewScanner(source: seq<Byte>): (s: ScannerValue)
    ensures s.source == source && s.tokens == [] && s.start == 0 && s.current == 0 && s.line == 1
  {
    ScannerValue(source, [], 0, 0, 1)
  }

  /** `isAtEnd`, the negation of the loop guard. */
  predicate AtEnd(s: ScannerValue)
  {
    s.current >= |s.source|
  }

  /** `peek` on a copy. */
  function Peek(s: ScannerValue): Byte
  {
    At(s.source, s.current)
  }

  /** The Go slice expression `s.source[lo:hi]` is in range (otherwise it panics). */
  predicate SliceInRange(s: ScannerValue, lo: int, hi: int)
  {
    0 <= lo <= hi <= |s.source|
  }

  /** `addToken` on a copy: it slices `source[start:current]` and appends to its own copy. */
  function AddTokenOnCopy(s: ScannerValue): Outcome
  {
    if SliceInRange(s, s.start, s.current) then Returns(None) else Panics
  }

  /** The `//` comment loop: it advances a copy, so its guard never changes. */
  function CommentOnCopy(s: ScannerValue): Outcome
  {
    if Peek(s) != '\n' && !AtEnd(s) then Hangs else Returns(None)
  }

  /**
   * `string`: the loop's `s.line++` changes string's own copy, but the
   * cursor only moves in advance's copies, so the guard never changes. The
   * closing quote's advance is dropped too, and the value is sliced as
   * `source[start+1:current-1]`.
   */
  function StringOnCopy(s: ScannerValue): Outcome
  {
    if Peek(s) != '"' && !AtEnd(s) then Hangs
    else if AtEnd(s) then Returns(Some(ScanError(s.line, "Unterminated string.")))
    else if !SliceInRange(s, s.start + 1, s.current - 1) then Panics
    else AddTokenOnCopy(s)
  }

  /**
   * `number`: the digit loop tests the same byte on every pass. When it does
   * not run, the byte under the cursor is no digit, so neither is it for the
   * fraction's loop. ParseFloat slices `source[start:current]`.
   */
  function NumberOnCopy(s: ScannerValue): Outcome
  {
    if IsDigit(Peek(s)) then Hangs
    else if !SliceInRange(s, s.start, s.current) then Panics
    else AddTokenOnCopy(s)
  }

  /** `identifier`: the loop tests the same byte on every pass; the keyword lookup slices the text. */
  function IdentifierOnCopy(s: ScannerValue): Outcome
  {
    if IsAlphaNumeric(Peek(s)) then Hangs
    else if !SliceInRange(s, s.start, s.current) then Panics
    else AddTokenOnCopy(s)
  }

  /**
   * `scanToken` on a copy, with the cursor before the end. `advance` returns
   * the byte under the cursor and moves only its own copy, so `match`,
   * `peek` and the loops all look at that same byte.
   */
  function ScanTokenAsWritten(s: ScannerValue): (r: Outcome)
    requires !AtEnd(s)
    ensures s.start <= s.current && r == Panics ==> s.source[s.current] == '"'
    ensures r.Returns? && r.error.Some? ==> r.error.value.line == s.line
  {
    var c := s.source[s.current];
    if c in Punctuation then AddTokenOnCopy(s)
    else if c in Operators then AddTokenOnCopy(s)
    else if c == '/' then
      if Next(s.source, s.current, '/') then CommentOnCopy(s) else AddTokenOnCopy(s)
    else if c == ' ' || c == '\r' || c == '\t' || c == '\n' then Returns(None)
    else if c == '"' then StringOnCopy(s)
    else if c == 'o' then
      if Next(s.source, s.current, 'r') then AddTokenOnCopy(s) else Returns(None)
    else if IsDigit(c) then NumberOnCopy(s)
    else if IsAlpha(c) then IdentifierOnCopy(s)
    else Returns(Some(ScanError(s.line, "Unexpected character.")))
  }

  /**
   * What a pass does when `start` is at the cursor, by the byte there: a
   * quote panics, `/`, a digit and a letter or `_` other than `o` never return, an
   * unexpected byte is reported, and every other byte returns silently.
   */
  function ByteOutcome(c: Byte, line: int): Outcome
  {
    if c == '"' then Panics
    else if c == '/' || IsDigit(c) || (IsAlpha(c) && c != 'o') then Hangs
    else if c in Punctuation || c in Operators || c in " \r\t\no" then Returns(None)
    else Returns(Some(ScanError(line, "Unexpected character.")))
  }

  /** With `start` at the cursor, `scanToken` as written does what ByteOutcome says of the byte there. */
  lemma ScanTokenByByte(s: ScannerValue)
    requires !AtEnd(s) && s.start == s.current
    ensures ScanTokenAsWritten(s) == ByteOutcome(s.source[s.current], s.line)
  {
    var c := s.source[s.current];
    assert Peek(s) == c;
    if c == '/' {
      assert Next(s.source, s.current, '/');
    } else if c == 'o' {
      assert !Next(s.source, s.current, 'r');
    }
  }

  /**
   * One pass of the loop body that returns: `s.start = s.current` updates
   * scanTokens' own copy, and nothing `s.scanToken()` changes reaches it.
   */
  function LoopBodyAsWritten(s: ScannerValue): (after: ScannerValue)
    ensures after.start == s.current
    ensures after.source == s.source && after.tokens == s.tokens
    ensures after.current == s.current && after.line == s.line
  {
    s.(start := s.current)
  }

  /** The loop state after n passes of the body that all return. */
  function IterateAsWritten(s: ScannerValue, n: nat): (t: ScannerValue)
    ensures n > 0 ==> t.start == t.current
    decreases n
  {
    if n == 0 then s else IterateAsWritten(LoopBodyAsWritten(s), n - 1)
  }

  /** However many passes run, the cursor, the line and the tokens stay where they were. */
  lemma {:induction false} AsWrittenNeverAdvances(s: ScannerValue, n: nat)
    ensures var t := IterateAsWritten(s, n);
      t.source == s.source && t.current == s.current && t.line == s.line && t.tokens == s.tokens
    decreases n
  {
    if n > 0 {
      AsWrittenNeverAdvances(LoopBodyAsWritten(s), n - 1);
    }
  }

  /**
   * On a non-empty source, after any number of passes that return, the loop
   * guard of scanTokens still holds and the next pass does what the first
   * did, as ByteOutcome says of the first byte. So scanTokens never
   * returns: the first pass panics on a quote and hangs on `/`, a digit or
   * a letter or `_` other than `o`; on any other byte every pass returns (an
   * unexpected byte is reported again each time) and the loop never ends.
   */
  lemma AsWrittenNeverEnds(source: seq<Byte>, n: nat)
    requires |source| > 0
    ensures var s := IterateAsWritten(NewScanner(source), n);
      !AtEnd(s) && ScanTokenAsWritten(LoopBodyAsWritten(s)) == ByteOutcome(source[0], 1)
  {
    var s := IterateAsWritten(NewScanner(source), n);
    AsWrittenNeverAdvances(NewScanner(source), n);
    ScanTokenByByte(LoopBodyAsWritten(s));
  }

  /** A source starting with a quote: the first pass slices `source[1:-1]` and panics. */
  lemma QuoteFirstPanics(source: seq<Byte>)
    requires |source| > 0 && source[0] == '"'
    ensures ScanTokenAsWritten(LoopBodyAsWritten(NewScanner(source))) == Panics
  {
    ScanTokenByByte(LoopBodyAsWritten(NewScanner(source)));
  }
}
