/**
 * What `JsonParser` computes, as functions of the text and a scan cursor. Each function
 * follows one method of the parser; a `while` loop of the parser is a recursive function
 * here, and a thrown `JsonParseException` is a `Fail` step carrying the cursor it was thrown at.
 */
module JsonGrammar {
  import opened Wrappers
  import opened JsonKeys
  import opened JsonValues

  /** The scan state: `position`, `line` and `column`. */
  datatype Cursor = Cursor(pos: nat, line: int, column: int)

  const START := Cursor(0, 1, 1)

  /** `JsonParseException` with its cause chain; `line` and `column` are 1-based. */
  datatype ParseError = ParseError(message: string, line: int, column: int, cause: Option<Cause>)

  datatype Cause =
    | Nested(error: ParseError)
    | Thrown(exception: Exception)
    | NumberFormat(input: string)

  /** `getMessage()`: the message followed by " (line L, column C)". */
  function Describe(e: ParseError): (s: string)
    ensures |s| > |e.message| && s[..|e.message|] == e.message
  {
    e.message + " (line " + IntToString(e.line) + ", column " + IntToString(e.column) + ")"
  }

  /** The outcome of one parse step: a value and the cursor after it, or an error and the cursor it was thrown at. */
  datatype Step<+T> = Parsed(value: T, next: Cursor) | Failed(error: ParseError, at: Cursor)

  function ErrorAt(message: string, c: Cursor): ParseError {
    ParseError(message, c.line, c.column, None)
  }

  function Throw<T>(message: string, c: Cursor): Step<T> {
    Failed(ErrorAt(message, c), c)
  }

  /** A `catch (Exception ex) { throw new JsonParseException(message, line, column, ex); }` around a step. */
  function Rethrow<T>(message: string, s: Step<T>): Step<T> {
    match s
    case Parsed(_, _) => s
    case Failed(e, at) => Failed(ParseError(message, at.line, at.column, Some(Nested(e))), at)
  }

  /** Where the scan stands after a step. */
  function End<T>(s: Step<T>): Cursor {
    if s.Parsed? then s.next else s.at
  }

  // ----- character classes -----

  /** `Character.isWhitespace`: the Unicode space, line and paragraph separators other than the no-break spaces, and the ASCII controls TAB, LF, VT, FF, CR, FS, GS, RS, US. */
  predicate IsWhitespace(ch: char) {
    || ('\U{9}' <= ch <= '\U{D}') || ('\U{1C}' <= ch <= '\U{20}')
    || ch == '\U{1680}' || ('\U{2000}' <= ch <= '\U{2006}') || ('\U{2008}' <= ch <= '\U{200A}')
    || ch == '\U{2028}' || ch == '\U{2029}' || ch == '\U{205F}' || ch == '\U{3000}'
  }

  /** `Character.isDigit`, for the ASCII digits. */
  predicate IsDigit(ch: char) {
    '0' <= ch <= '9'
  }

  /** `Character.isLetterOrDigit`, for the ASCII letters and digits. */
  predicate IsLetterOrDigit(ch: char) {
    IsDigit(ch) || ('a' <= ch <= 'z') || ('A' <= ch <= 'Z')
  }

  /** A character an unquoted key may start with. */
  predicate KeyStart(ch: char) {
    IsLetterOrDigit(ch) || ch == '_' || ch == '\U{A4}'
  }

  /** A character an unquoted key may continue with. */
  predicate KeyChar(ch: char) {
    KeyStart(ch) || ch == '-' || ch == '.'
  }

  // ----- peek, consume and position tracking -----

  /** `peek()`: the current character, or NUL at the end of the content. */
  function Peek(content: string, c: Cursor): char {
    if c.pos >= |content| then '\0' else content[c.pos]
  }

  /** The cursor reached by consuming the first `n` characters from the start: one column on per character, a new line after '\n'. */
  function Track(content: string, n: nat): (r: Cursor)
    requires n <= |content|
    ensures r.pos == n && r.line >= 1 && r.column >= 1
  {
    if n == 0 then START
    else
      var p := Track(content, n - 1);
      if content[n - 1] == '\n' then Cursor(n, p.line + 1, 1) else Cursor(n, p.line, p.column + 1)
  }

  /** A cursor whose line and column agree with its position. */
  predicate Valid(content: string, c: Cursor) {
    c.pos <= |content| && c == Track(content, c.pos)
  }

  /** What `consume()` does to the cursor. */
  function Advance(content: string, c: Cursor): (r: Cursor)
    requires c.pos < |content|
    ensures r.pos == c.pos + 1
    ensures content[c.pos] == '\n' ==> r.line == c.line + 1 && r.column == 1
    ensures content[c.pos] != '\n' ==> r.line == c.line && r.column == c.column + 1
    ensures Valid(content, c) ==> Valid(content, r)
  {
    if content[c.pos] == '\n' then Cursor(c.pos + 1, c.line + 1, 1)
    else Cursor(c.pos + 1, c.line, c.column + 1)
  }

  // ----- whitespace and comments -----

  /** Two consecutive '*' at `p` start a comment. */
  predicate CommentStart(content: string, p: nat) {
    p + 1 < |content| && content[p] == '*' && content[p + 1] == '*'
  }

  /** `skipWhitespace()`: whitespace and comments, up to the first other character. */
  function SkipWs(content: string, c: Cursor): (r: Cursor)
    requires c.pos <= |content|
    ensures c.pos <= r.pos <= |content|
    ensures Valid(content, c) ==> Valid(content, r)
    ensures r.pos == |content| || (!IsWhitespace(content[r.pos]) && !CommentStart(content, r.pos))
    decreases |content| - c.pos
  {
    if c.pos >= |content| then c
    else if CommentStart(content, c.pos) then SkipWs(content, Comment(content, c))
    else if IsWhitespace(content[c.pos]) then SkipWs(content, Advance(content, c))
    else c
  }

  /** `parseComment()`: the two '*' and the rest of the line, with its '\n'. */
  function Comment(content: string, c: Cursor): (r: Cursor)
    requires CommentStart(content, c.pos)
    ensures c.pos + 2 <= r.pos <= |content|
    ensures Valid(content, c) ==> Valid(content, r)
  {
    CommentRest(content, Advance(content, Advance(content, c)))
  }

  /**
   * The loop of `parseComment()`: it stops after a '\n', at the end, at a NUL, and before a '}'
   * that is the last character of the content.
   */
  function CommentRest(content: string, c: Cursor): (r: Cursor)
    requires c.pos <= |content|
    ensures c.pos <= r.pos <= |content|
    ensures Valid(content, c) ==> Valid(content, r)
    decreases |content| - c.pos
  {
    if c.pos >= |content| then c
    else if content[c.pos] == '\n' then Advance(content, c)
    else if content[c.pos] == '}' && c.pos + 1 == |content| then c
    else if content[c.pos] == '\0' then c
    else CommentRest(content, Advance(content, c))
  }

  // ----- steps and their bounds -----

  /** A step from `c` stays within the content, and keeps the cursor's line and column in step with its position. */
  predicate Bounded<T>(content: string, c: Cursor, s: Step<T>) {
    && c.pos <= End(s).pos <= |content|
    && (Valid(content, c) ==> Valid(content, End(s)))
    && (s.Failed? ==> s.error.line == s.at.line && s.error.column == s.at.column)
  }

  /** A successful step consumed at least one character. */
  predicate Progress<T>(c: Cursor, s: Step<T>) {
    s.Parsed? ==> s.next.pos > c.pos
  }

  // ----- string literals -----

  /** The character an escape stands for: `\n \t \r \\ \"` decode, anything else stands for itself. */
  function Unescape(e: char): char {
    if e == 'n' then '\n'
    else if e == 't' then '\t'
    else if e == 'r' then '\r'
    else e
  }

  /** `parseStringLiteral()`. */
  function StringLiteral(content: string, c: Cursor): (r: Step<string>)
    requires c.pos <= |content|
    ensures Bounded(content, c, r) && Progress(c, r)
  {
    if Peek(content, c) != '"' then Throw("Expected '\"'", c)
    else StringChars(content, Advance(content, c), "")
  }

  /** The loop of `parseStringLiteral()`, with the `StringBuilder` contents `acc`. */
  function StringChars(content: string, c: Cursor, acc: string): (r: Step<string>)
    requires c.pos <= |content|
    ensures Bounded(content, c, r) && Progress(c, r)
    decreases |content| - c.pos
  {
    if c.pos >= |content| then Throw("Unterminated string", c)
    else if content[c.pos] == '"' then Parsed(acc, Advance(content, c))
    else if content[c.pos] == '\\' then
      var c1 := Advance(content, c);
      if c1.pos >= |content| then Throw("Unexpected end of file inside string", c1)
      else StringChars(content, Advance(content, c1), acc + [Unescape(content[c1.pos])])
    else StringChars(content, Advance(content, c), acc + [content[c.pos]])
  }

  // ----- keys -----

  /** The loop of `parseKey()` for an unquoted key: the longest run of key characters. */
  function KeyRun(content: string, c: Cursor, acc: string): (r: (string, Cursor))
    requires c.pos <= |content|
    ensures c.pos <= r.1.pos <= |content|
    ensures Valid(content, c) ==> Valid(content, r.1)
    decreases |content| - c.pos
  {
    if c.pos < |content| && KeyChar(content[c.pos]) then
      KeyRun(content, Advance(content, c), acc + [content[c.pos]])
    else (acc, c)
  }

  const KEY_ERROR := "Error while building key"

  /** The key made of `text`, where `new JsonKey(text)` is called with the cursor at `c`. */
  function MakeKey(text: string, c: Cursor): (r: Step<JsonKey>)
    ensures r.Parsed? <==> !IsBlank(text)
    ensures r.Parsed? ==> r.next == c && r.value.key == text
    ensures r.Failed? ==> r.at == c && r.error == ParseError(KEY_ERROR, c.line, c.column, Some(Thrown(IllegalArgumentException(EMPTY_KEY_MESSAGE))))
  {
    match NewKey(Some(text))
    case Success(k) => Parsed(k, c)
    case Failure(x) => Failed(ParseError(KEY_ERROR, c.line, c.column, Some(Thrown(x))), c)
  }

  /** `parseKey()`: a quoted string or an unquoted run; every failure is wrapped in "Error while building key". */
  function Key(content: string, c: Cursor): (r: Step<JsonKey>)
    requires c.pos <= |content|
    ensures Bounded(content, c, r) && Progress(c, r)
  {
    var c0 := SkipWs(content, c);
    var ch := Peek(content, c0);
    if ch == '"' then
      match StringLiteral(content, c0)
      case Failed(e, at) => Rethrow(KEY_ERROR, Failed(e, at))
      case Parsed(text, c1) => MakeKey(text, c1)
    else if KeyStart(ch) then
      var (text, c1) := KeyRun(content, c0, "");
      MakeKey(text, c1)
    else Rethrow(KEY_ERROR, Throw("Expected key", c0))
  }

  // ----- literals: true, false, null -----

  /** The content spells `word` from position `p`. */
  predicate Spells(content: string, p: nat, word: string) {
    p + |word| <= |content| && content[p..p + |word|] == word
  }

  /** The loop of `expectString(expected)` from index `i`; a mismatch is reported after the character is consumed. */
  function Expect(content: string, c: Cursor, expected: string, i: nat): (r: Step<()>)
    requires c.pos <= |content| && i <= |expected|
    ensures Bounded(content, c, r)
    ensures r.Parsed? <==> Spells(content, c.pos, expected[i..])
    ensures r.Parsed? ==> r.next.pos == c.pos + |expected| - i
    ensures r.Failed? ==> r.error.message == "Expected '" + expected + "'"
    decreases |expected| - i
  {
    if i == |expected| then Parsed((), c)
    else if c.pos >= |content| then Throw("Expected '" + expected + "'", c)
    else
      var c1 := Advance(content, c);
      if content[c.pos] != expected[i] then Throw("Expected '" + expected + "'", c1)
      else Expect(content, c1, expected, i + 1)
  }

  /** `parseBoolean()`. */
  function Boolean(content: string, c: Cursor): (r: Step<bool>)
    requires c.pos <= |content|
    ensures Bounded(content, c, r) && Progress(c, r)
    ensures r.Parsed? <==> Spells(content, c.pos, "true") || Spells(content, c.pos, "false")
    ensures r.Parsed? ==> (r.value <==> Spells(content, c.pos, "true"))
    ensures r.Parsed? ==> content[c.pos..r.next.pos] == if r.value then "true" else "false"
    ensures Peek(content, c) != 't' && Peek(content, c) != 'f' ==> r == Throw("Expected 'true' or 'false'", c)
    ensures r.Failed? && Peek(content, c) == 't' ==> r.error.message == "Expected 'true'"
    ensures r.Failed? && Peek(content, c) == 'f' ==> r.error.message == "Expected 'false'"
  {
    if Peek(content, c) == 't' then
      match Expect(content, c, "true", 0)
      case Parsed(_, n) => Parsed(true, n)
      case Failed(e, at) => Failed(e, at)
    else if Peek(content, c) == 'f' then
      match Expect(content, c, "false", 0)
      case Parsed(_, n) => Parsed(false, n)
      case Failed(e, at) => Failed(e, at)
    else Throw("Expected 'true' or 'false'", c)
  }

  /** `parseNull()` and the value `parseValue()` makes of it. */
  function Null(content: string, c: Cursor): (r: Step<JsonValue>)
    requires c.pos <= |content|
    ensures Bounded(content, c, r)
    ensures r.Parsed? <==> Spells(content, c.pos, "null")
    ensures r.Parsed? ==> r.value == Plain(NullP) && r.next.pos == c.pos + 4
    ensures r.Failed? ==> r.error.message == "Expected 'null'"
  {
    match Expect(content, c, "null", 0)
    case Parsed(_, n) => Parsed(Plain(NullP), n)
    case Failed(e, at) => Failed(e, at)
  }

  // ----- numbers -----

  /** The run of digits from `c`: the loops `while (position < length && isDigit(peek()))`. */
  function Digits(content: string, c: Cursor): (r: Cursor)
    requires c.pos <= |content|
    ensures c.pos <= r.pos <= |content|
    ensures Valid(content, c) ==> Valid(content, r)
    ensures forall i :: c.pos <= i < r.pos ==> IsDigit(content[i])
    ensures r.pos == |content| || !IsDigit(content[r.pos])
    decreases |content| - c.pos
  {
    if c.pos < |content| && IsDigit(content[c.pos]) then Digits(content, Advance(content, c)) else c
  }

  predicate AllDigits(s: string) {
    forall i :: 0 <= i < |s| ==> IsDigit(s[i])
  }

  /** The value of a run of decimal digits. */
  function DigitsValue(s: string): nat
    requires AllDigits(s)
  {
    if s == [] then 0
    else
      assert IsDigit(s[|s| - 1]);
      DigitsValue(s[..|s| - 1]) * 10 + (s[|s| - 1] as int - '0' as int)
  }

  /**
   * `Integer.parseInt` on ASCII text: an optional sign and at least one digit, whose value
   * fits 32 bits; `None` where it throws `NumberFormatException`.
   */
  function ParseInt(s: string): (r: Option<int32>)
    ensures r.Some? ==> |s| > 0
  {
    if |s| == 0 then None
    else
      var digits := if s[0] == '-' || s[0] == '+' then s[1..] else s;
      if |digits| == 0 || !AllDigits(digits) then None
      else
        var n := if s[0] == '-' then -(DigitsValue(digits) as int) else DigitsValue(digits) as int;
        if INT_MIN <= n <= INT_MAX then Some(n as int32) else None
  }

  /** The optional fraction of `parseNumber()`: '.' and at least one digit; the flag says whether it was there. */
  function Fraction(content: string, c: Cursor): (r: Step<bool>)
    requires c.pos <= |content|
    ensures Bounded(content, c, r)
    ensures r.Parsed? ==> (r.value <==> r.next.pos > c.pos)
  {
    if c.pos < |content| && content[c.pos] == '.' then
      var c1 := Advance(content, c);
      if !IsDigit(Peek(content, c1)) then Throw("Expected digit after decimal point", c1)
      else Parsed(true, Digits(content, c1))
    else Parsed(false, c)
  }

  /** The optional exponent of `parseNumber()`: 'e' or 'E', an optional sign, at least one digit. */
  function Exponent(content: string, c: Cursor): (r: Step<bool>)
    requires c.pos <= |content|
    ensures Bounded(content, c, r)
    ensures r.Parsed? ==> (r.value <==> r.next.pos > c.pos)
  {
    if c.pos < |content| && (content[c.pos] == 'e' || content[c.pos] == 'E') then
      var c1 := Advance(content, c);
      var c2 := if Peek(content, c1) == '+' || Peek(content, c1) == '-' then Advance(content, c1) else c1;
      if !IsDigit(Peek(content, c2)) then Throw("Expected digit in exponent", c2)
      else Parsed(true, Digits(content, c2))
    else Parsed(false, c)
  }

  /**
   * `parseNumber()`: optional '-', digits, then the fraction and the exponent. Without either
   * it is an `int`, read by `Integer.parseInt`; with one it is a `double`, whose text is kept.
   */
  function Number(content: string, c: Cursor): (r: Step<JsonValue>)
    requires c.pos <= |content|
    ensures Bounded(content, c, r) && Progress(c, r)
  {
    var c1 := if Peek(content, c) == '-' then Advance(content, c) else c;
    if !IsDigit(Peek(content, c1)) then Throw("Expected digit", c1)
    else
      match Fraction(content, Digits(content, c1))
      case Failed(e, at) => Failed(e, at)
      case Parsed(hasPoint, c2) =>
        match Exponent(content, c2)
        case Failed(e, at) => Failed(e, at)
        case Parsed(hasExponent, c3) => NumberValue(content[c.pos..c3.pos], hasPoint || hasExponent, c3)
  }

  /** The value `parseNumber()` builds from the text it read, with the cursor at `c`. */
  function NumberValue(lexeme: string, isDouble: bool, c: Cursor): (r: Step<JsonValue>)
    ensures End(r) == c
    ensures r.Parsed? <==> isDouble || ParseInt(lexeme).Some?
    ensures r.Failed? ==> r.error == ParseError("Invalid number format: " + lexeme, c.line, c.column, Some(NumberFormat(lexeme)))
  {
    if isDouble then Parsed(Plain(DoubleP(Lexeme(lexeme))), c)
    else
      match ParseInt(lexeme)
      case Some(n) => Parsed(Plain(IntegerP(n)), c)
      case None => Failed(ParseError("Invalid number format: " + lexeme, c.line, c.column, Some(NumberFormat(lexeme))), c)
  }

  // ----- values, objects and arrays -----

  const VALUE_ERROR := "Error while building value"

  /**
   * `parseValue()`: dispatch on the first character; every failure is wrapped in
   * "Error while building value". A parsed array is stored as a LIST.
   */
  function Value(content: string, c: Cursor): (r: Step<JsonValue>)
    requires c.pos <= |content|
    ensures Bounded(content, c, r) && Progress(c, r)
    decreases |content| - c.pos, 2
  {
    var c0 := SkipWs(content, c);
    Rethrow(VALUE_ERROR, ValueAt(content, c0))
  }

  /** The dispatch of `parseValue()` once whitespace is skipped. */
  function ValueAt(content: string, c: Cursor): (r: Step<JsonValue>)
    requires c.pos <= |content|
    ensures Bounded(content, c, r) && Progress(c, r)
    decreases |content| - c.pos, 1
  {
    var ch := Peek(content, c);
    if ch == '"' then
      match StringLiteral(content, c)
      case Parsed(s, n) => Parsed(Plain(StringP(s)), n)
      case Failed(e, at) => Failed(e, at)
    else if ch == '{' then NestedObject(content, c)
    else if ch == '[' then
      match Array(content, c)
      case Parsed(elems, n) => Parsed(Plain(ListP(elems)), n)
      case Failed(e, at) => Failed(e, at)
    else if ch == 't' || ch == 'f' then
      match Boolean(content, c)
      case Parsed(b, n) => Parsed(Plain(BooleanP(b)), n)
      case Failed(e, at) => Failed(e, at)
    else if ch == 'n' then Null(content, c)
    else if ch == '-' || IsDigit(ch) then Number(content, c)
    else Throw("Unexpected character: '" + [ch] + "'", c)
  }

  /** The '{' branch of `parseValue()`: '{', the entries, '}'. */
  function NestedObject(content: string, c: Cursor): (r: Step<JsonValue>)
    requires c.pos < |content| && content[c.pos] == '{'
    ensures Bounded(content, c, r) && Progress(c, r)
    decreases |content| - c.pos, 0
  {
    var c1 := SkipWs(content, Advance(content, c));
    match Entries(content, c1, map[], true)
    case Failed(e, at) => Failed(e, at)
    case Parsed(m, c2) =>
      var c3 := SkipWs(content, c2);
      if Peek(content, c3) != '}' then Throw("Expected '}' at the end of object", c3)
      else Parsed(Plain(ObjectP(m)), Advance(content, c3))
  }

  /**
   * The loop of `parseObject(insideBrackets)` from `c`, having read the entries `acc` so far;
   * this is the head of one iteration, up to the key.
   */
  function Entries(content: string, c: Cursor, acc: Object, insideBrackets: bool): (r: Step<Object>)
    requires c.pos <= |content|
    ensures Bounded(content, c, r)
    ensures r.Parsed? ==> acc.Keys <= r.value.Keys
    decreases |content| - c.pos, 1
  {
    if c.pos >= |content| then Parsed(acc, c)
    else
      var c0 := SkipWs(content, c);
      var ch := Peek(content, c0);
      if ch == '}' then
        if insideBrackets then Parsed(acc, c0) else Throw("Unexpected character '}'", c0)
      else if ch == '\0' then Parsed(acc, c0)
      else Entry(content, c0, acc, insideBrackets)
  }

  /** One entry of `parseObject`: key, ':', value; then what follows it. */
  function Entry(content: string, c: Cursor, acc: Object, insideBrackets: bool): (r: Step<Object>)
    requires c.pos <= |content|
    ensures Bounded(content, c, r)
    ensures r.Parsed? ==> acc.Keys <= r.value.Keys
    decreases |content| - c.pos, 0
  {
    match Key(content, c)
    case Failed(e, at) => Failed(e, at)
    case Parsed(k, c1) =>
      var c2 := SkipWs(content, c1);
      if Peek(content, c2) != ':' then Throw("Expected ':' after key '" + k.key + "'", c2)
      else
        match Value(content, SkipWs(content, Advance(content, c2)))
        case Failed(e, at) => Failed(e, at)
        case Parsed(v, c3) => AfterEntry(content, c3, acc[k := v], insideBrackets)
  }

  /**
   * The tail of an iteration of `parseObject`: a ',' (after which a '}' inside brackets ends
   * the object), a '}' or NUL that ends it, or anything else, which starts the next entry:
   * the comma between entries is optional.
   */
  function AfterEntry(content: string, c: Cursor, acc: Object, insideBrackets: bool): (r: Step<Object>)
    requires c.pos <= |content|
    ensures Bounded(content, c, r)
    ensures r.Parsed? ==> acc.Keys <= r.value.Keys
    decreases |content| - c.pos, 2
  {
    var c1 := SkipWs(content, c);
    var next := Peek(content, c1);
    if next == ',' then
      var c2 := SkipWs(content, Advance(content, c1));
      if Peek(content, c2) == '}' && insideBrackets then Parsed(acc, c2)
      else Entries(content, c2, acc, insideBrackets)
    else if next == '}' || next == '\0' then Parsed(acc, c1)
    else Entries(content, c1, acc, insideBrackets)
  }

  /** `parseArray()`: '[', then ']' at once or the elements. */
  function Array(content: string, c: Cursor): (r: Step<seq<JsonValue>>)
    requires c.pos <= |content|
    ensures Bounded(content, c, r) && Progress(c, r)
    decreases |content| - c.pos, 0
  {
    if Peek(content, c) != '[' then Throw("Expected '['", c)
    else
      var c1 := SkipWs(content, Advance(content, c));
      if Peek(content, c1) == ']' then Parsed([], Advance(content, c1))
      else Elements(content, c1, [])
  }

  /** The loop of `parseArray()` from `c`, having read the elements `acc`: one element, then what follows it. */
  function Elements(content: string, c: Cursor, acc: seq<JsonValue>): (r: Step<seq<JsonValue>>)
    requires c.pos <= |content|
    ensures Bounded(content, c, r) && Progress(c, r)
    ensures r.Parsed? ==> |r.value| > |acc| && r.value[..|acc|] == acc
    decreases |content| - c.pos, 4
  {
    if c.pos >= |content| then Throw("Unterminated array", c)
    else
      match Element(content, SkipWs(content, c))
      case Failed(e, at) => Failed(e, at)
      case Parsed(v, c1) => AfterElement(content, c1, acc + [v])
  }

  /** The tail of an iteration of `parseArray`: ',' and more, or ']'; anything else is an error, so commas are mandatory. */
  function AfterElement(content: string, c: Cursor, acc: seq<JsonValue>): (r: Step<seq<JsonValue>>)
    requires c.pos <= |content|
    ensures Bounded(content, c, r) && Progress(c, r)
    ensures r.Parsed? ==> |r.value| >= |acc| && r.value[..|acc|] == acc
    decreases |content| - c.pos, 0
  {
    var c1 := SkipWs(content, c);
    var next := Peek(content, c1);
    if next == ',' then
      var c2 := SkipWs(content, Advance(content, c1));
      if Peek(content, c2) == ']' then Parsed(acc, Advance(content, c2))
      else Elements(content, c2, acc)
    else if next == ']' then Parsed(acc, Advance(content, c1))
    else if next == '}' then Throw("Expected closing ']' before '}'", c1)
    else Throw("Expected ',' between array elements", c1)
  }

  /**
   * `parseArrayElement()`: `KEY: value` gives an array element labelled KEY; when the key, the
   * colon or the value is not there, the scan goes back to `c` and reads a plain value.
   */
  function Element(content: string, c: Cursor): (r: Step<JsonValue>)
    requires c.pos <= |content|
    ensures Bounded(content, c, r) && Progress(c, r)
    decreases |content| - c.pos, 3
  {
    var c0 := SkipWs(content, c);
    var ch := Peek(content, c0);
    if ch == '"' || KeyStart(ch) then
      match Key(content, c0)
      case Failed(_, _) => Value(content, c)
      case Parsed(k, c1) =>
        var c2 := SkipWs(content, c1);
        if Peek(content, c2) == ':' then
          match Value(content, SkipWs(content, Advance(content, c2)))
          case Parsed(v, c3) => Parsed(NewArrayValue(k, v), c3)
          case Failed(_, _) => Value(content, c)
        else Value(content, c)
    else Value(content, c0)
  }

  /**
   * `parseString(content)`: optional root braces around the entries, and nothing but
   * whitespace and comments after the root.
   */
  function Parse(content: string): (r: Step<Object>)
    ensures Bounded(content, START, r)
    ensures r.Parsed? ==> r.next.pos == |content|
  {
    var c0 := SkipWs(content, START);
    var rootBracket := Peek(content, c0) == '{';
    var c1 := if rootBracket then SkipWs(content, Advance(content, c0)) else c0;
    match Entries(content, c1, map[], rootBracket)
    case Failed(e, at) => Failed(e, at)
    case Parsed(m, c2) => Finish(content, m, c2, rootBracket)
  }

  /** The end of `parseString`: the closing root brace when there was an opening one, then the end of the content. */
  function Finish(content: string, m: Object, c: Cursor, rootBracket: bool): (r: Step<Object>)
    requires c.pos <= |content|
    ensures Bounded(content, c, r)
    ensures r.Parsed? ==> r.next.pos == |content| && r.value == m
  {
    var c1 := SkipWs(content, c);
    if rootBracket && Peek(content, c1) != '}' then Throw("Expected '}' at the end of the file", c1)
    else
      var c2 := SkipWs(content, if rootBracket then Advance(content, c1) else c1);
      if c2.pos < |content| then Throw("Unexpected characters after parsing finished", c2)
      else Parsed(m, c2)
  }
}
