/** Properties of the grammar that `JsonParser` follows. */
module JsonGrammarProperties {
  import opened Wrappers
  import opened JsonKeys
  import opened JsonValues
  import opened JsonGrammar

  // ----- line and column tracking -----

  function Newlines(s: string): nat {
    if s == [] then 0 else Newlines(s[..|s| - 1]) + (if s[|s| - 1] == '\n' then 1 else 0)
  }

  /** The number of characters after the last '\n' of `s`. */
  function LastLineLength(s: string): nat {
    if s == [] then 0 else if s[|s| - 1] == '\n' then 0 else LastLineLength(s[..|s| - 1]) + 1
  }

  /** After `n` characters the line is one more than the newlines read, and the column one more than the characters since the last of them. */
  lemma {:induction false} TrackCountsLines(content: string, n: nat)
    requires n <= |content|
    ensures Track(content, n) == Cursor(n, 1 + Newlines(content[..n]), 1 + LastLineLength(content[..n]))
  {
    if n > 0 {
      TrackCountsLines(content, n - 1);
      assert content[..n][..n - 1] == content[..n - 1];
    }
  }

  /** Every error of a parse reports the line and column of the character it was detected at. */
  lemma ParseErrorPosition(content: string)
    requires Parse(content).Failed?
    ensures var e := Parse(content).error; var p := Parse(content).at.pos;
      p <= |content| && e.line == 1 + Newlines(content[..p]) && e.column == 1 + LastLineLength(content[..p])
  {
    var r := Parse(content);
    assert Valid(content, START);
    TrackCountsLines(content, r.at.pos);
  }

  // ----- error messages -----

  /** The digits `Integer.toString` writes for `n` read back as `n`. */
  lemma {:induction false} NatToStringReadsBack(n: nat)
    ensures AllDigits(NatToString(n)) && DigitsValue(NatToString(n)) == n
  {
    var s := NatToString(n);
    if n >= 10 {
      NatToStringReadsBack(n / 10);
      assert s[..|s| - 1] == NatToString(n / 10);
    }
  }

  /** `String.valueOf(int)` reads back through `Integer.parseInt`. */
  lemma IntToStringReadsBack(i: int)
    requires INT_MIN <= i <= INT_MAX
    ensures ParseInt(IntToString(i)) == Some(i as int32)
  {
    var s := IntToString(i);
    if i < 0 {
      NatToStringReadsBack(-i);
      assert s[1..] == NatToString(-i);
    } else {
      NatToStringReadsBack(i);
    }
  }

  /** `getMessage()` is the message, then " (line L, column C)" where L and C read back as the line and the column. */
  lemma DescribeReadsBack(e: ParseError)
    requires INT_MIN <= e.line <= INT_MAX && INT_MIN <= e.column <= INT_MAX
    ensures exists l: string, k: string ::
      && Describe(e) == e.message + " (line " + l + ", column " + k + ")"
      && ParseInt(l) == Some(e.line as int32) && ParseInt(k) == Some(e.column as int32)
  {
    IntToStringReadsBack(e.line);
    IntToStringReadsBack(e.column);
    var l, k := IntToString(e.line), IntToString(e.column);
    assert Describe(e) == e.message + " (line " + l + ", column " + k + ")";
  }

  // ----- whitespace and comments -----

  lemma SkipWsIdempotent(content: string, c: Cursor)
    requires c.pos <= |content|
    ensures SkipWs(content, SkipWs(content, c)) == SkipWs(content, c)
  {
  }

  /** Skipping passes only whitespace and comments: at a character that is neither, nothing is skipped, and a single '*' is not a comment. */
  lemma SkipWsStopsAtContent(content: string, c: Cursor)
    requires c.pos < |content| && !IsWhitespace(content[c.pos]) && !CommentStart(content, c.pos)
    ensures SkipWs(content, c) == c
  {
  }

  /** The rest of a comment: no '\n' inside it, and it ends after a '\n', at the end of the content, at a NUL, or before a closing '}' that is the last character. */
  lemma {:induction false} CommentRestEndsLine(content: string, c: Cursor)
    requires c.pos <= |content|
    ensures var r := CommentRest(content, c);
      && (forall i :: c.pos <= i < r.pos - 1 ==> content[i] != '\n')
      && (|| r.pos == |content|
          || (r.pos > c.pos && content[r.pos - 1] == '\n')
          || content[r.pos] == '\0'
          || (content[r.pos] == '}' && r.pos + 1 == |content|))
    decreases |content| - c.pos
  {
    if c.pos < |content| && content[c.pos] != '\n' && !(content[c.pos] == '}' && c.pos + 1 == |content|) && content[c.pos] != '\0' {
      CommentRestEndsLine(content, Advance(content, c));
    }
  }

  // ----- keys -----

  /** An unquoted key is the longest run of key characters: the text scanned, every character a key character, and a non-key character or the end after it. */
  lemma {:induction false} KeyRunIsMaximalRun(content: string, c: Cursor, acc: string)
    requires c.pos <= |content|
    ensures var (text, n) := KeyRun(content, c, acc);
      && text == acc + content[c.pos..n.pos]
      && (forall i :: c.pos <= i < n.pos ==> KeyChar(content[i]))
      && (n.pos == |content| || !KeyChar(content[n.pos]))
    decreases |content| - c.pos
  {
    if c.pos < |content| && KeyChar(content[c.pos]) {
      KeyRunIsMaximalRun(content, Advance(content, c), acc + [content[c.pos]]);
      assert content[c.pos..KeyRun(content, c, acc).1.pos] == [content[c.pos]] + content[c.pos + 1..KeyRun(content, c, acc).1.pos];
    }
  }

  /** A key that starts with a key character is the run of key characters there, exactly as written. */
  lemma UnquotedKey(content: string, c: Cursor)
    requires c.pos <= |content|
    requires KeyStart(Peek(content, SkipWs(content, c)))
    ensures var start := SkipWs(content, c).pos; var r := Key(content, c);
      && r.Parsed?
      && r.value.key == content[start..r.next.pos]
      && (forall i :: start <= i < r.next.pos ==> KeyChar(content[i]))
      && (r.next.pos == |content| || !KeyChar(content[r.next.pos]))
  {
    var c0 := SkipWs(content, c);
    KeyRunIsMaximalRun(content, c0, "");
    var (text, n) := KeyRun(content, c0, "");
    assert text[0] == content[c0.pos];
  }

  /** A key that starts with neither '"' nor a key character fails with "Expected key", wrapped in "Error while building key" at the same place. */
  lemma KeyNeedsStart(content: string, c: Cursor)
    requires c.pos <= |content|
    requires var ch := Peek(content, SkipWs(content, c)); ch != '"' && !KeyStart(ch)
    ensures var c0 := SkipWs(content, c);
      Key(content, c) == Failed(ParseError(KEY_ERROR, c0.line, c0.column, Some(Nested(ErrorAt("Expected key", c0)))), c0)
  {
  }

  /**
   * At a '"' the key is the literal, made a key by `MakeKey` (so it succeeds iff the literal's text is not
   * blank), or the literal's failure wrapped in "Error while building key"; `QuotedText` says what the text is.
   */
  lemma QuotedKey(content: string, c: Cursor)
    requires c.pos <= |content|
    requires Peek(content, SkipWs(content, c)) == '"'
    ensures var s := StringLiteral(content, SkipWs(content, c));
      && (s.Parsed? ==> Key(content, c) == MakeKey(s.value, s.next))
      && (s.Failed? ==> Key(content, c) == Failed(ParseError(KEY_ERROR, s.at.line, s.at.column, Some(Nested(s.error))), s.at))
  {
  }

  // ----- string literals -----

  /** The text between the quotes of a well-formed literal: no bare '"', and no '\' left without the character it escapes. */
  predicate LiteralBody(raw: string) {
    if raw == [] then true
    else if raw[0] == '"' then false
    else if raw[0] == '\\' then |raw| >= 2 && LiteralBody(raw[2..])
    else LiteralBody(raw[1..])
  }

  /** What the text of a literal stands for, as an independent definition. */
  function Decode(raw: string): string {
    if raw == [] then []
    else if raw[0] == '\\' && |raw| >= 2 then [Unescape(raw[1])] + Decode(raw[2..])
    else [raw[0]] + Decode(raw[1..])
  }

  /** A literal read from `c` ends at a '"' and stands for the decoded text between. */
  lemma {:induction false} StringCharsDecodes(content: string, c: Cursor, acc: string)
    requires c.pos <= |content|
    requires StringChars(content, c, acc).Parsed?
    ensures var r := StringChars(content, c, acc);
      && c.pos < r.next.pos && content[r.next.pos - 1] == '"'
      && LiteralBody(content[c.pos..r.next.pos - 1])
      && r.value == acc + Decode(content[c.pos..r.next.pos - 1])
    decreases |content| - c.pos
  {
    var r := StringChars(content, c, acc);
    if content[c.pos] == '"' {
    } else if content[c.pos] == '\\' {
      var c1 := Advance(content, c);
      var c2 := Advance(content, c1);
      StringCharsDecodes(content, c2, acc + [Unescape(content[c1.pos])]);
      var raw := content[c.pos..r.next.pos - 1];
      assert raw[2..] == content[c2.pos..r.next.pos - 1];
    } else {
      var c1 := Advance(content, c);
      StringCharsDecodes(content, c1, acc + [content[c.pos]]);
      var raw := content[c.pos..r.next.pos - 1];
      assert raw[1..] == content[c1.pos..r.next.pos - 1];
    }
  }

  /** A literal that parses is the decoded text between its quotes. */
  lemma QuotedText(content: string, c: Cursor)
    requires c.pos <= |content| && Peek(content, c) == '"' && StringLiteral(content, c).Parsed?
    ensures var s := StringLiteral(content, c);
      c.pos + 1 < s.next.pos && content[s.next.pos - 1] == '"' && s.value == Decode(content[c.pos + 1..s.next.pos - 1])
  {
    StringCharsDecodes(content, Advance(content, c), "");
  }

  /** Conversely, a well-formed literal body followed by '"' is read in full. */
  lemma {:induction false} StringCharsReadsLiteral(content: string, c: Cursor, acc: string, q: nat)
    requires Valid(content, c) && c.pos <= q < |content| && content[q] == '"'
    requires LiteralBody(content[c.pos..q])
    ensures StringChars(content, c, acc) == Parsed(acc + Decode(content[c.pos..q]), Track(content, q + 1))
    decreases q - c.pos
  {
    var raw := content[c.pos..q];
    if c.pos == q {
      assert Advance(content, c) == Track(content, q + 1);
      assert raw == [] && acc + Decode(raw) == acc;
    } else if content[c.pos] == '\\' {
      var c1 := Advance(content, c);
      var c2 := Advance(content, c1);
      assert raw[1] == content[c1.pos] && raw[2..] == content[c2.pos..q];
      StringCharsReadsLiteral(content, c2, acc + [Unescape(content[c1.pos])], q);
      assert Decode(raw) == [Unescape(raw[1])] + Decode(raw[2..]);
      assert acc + Decode(raw) == acc + [Unescape(content[c1.pos])] + Decode(content[c2.pos..q]);
    } else {
      var c1 := Advance(content, c);
      assert raw[0] == content[c.pos] && raw[1..] == content[c1.pos..q];
      StringCharsReadsLiteral(content, c1, acc + [content[c.pos]], q);
      assert Decode(raw) == [raw[0]] + Decode(raw[1..]);
      assert acc + Decode(raw) == acc + [content[c.pos]] + Decode(content[c1.pos..q]);
    }
  }

  // ----- numbers -----

  /** A non-empty run of digits from `from` up to `to`, with no digit right after it. */
  predicate DigitRun(content: string, from: nat, to: nat) {
    && from < to <= |content|
    && (forall i :: from <= i < to ==> IsDigit(content[i]))
    && (to == |content| || !IsDigit(content[to]))
  }

  /** A fraction is there exactly when a '.' is, and then it is the '.' and the run of digits after it; a '.' without a digit after it fails. */
  lemma FractionShape(content: string, c: Cursor)
    requires c.pos <= |content|
    ensures var r := Fraction(content, c);
      && (!(c.pos < |content| && content[c.pos] == '.') ==> r == Parsed(false, c))
      && (c.pos + 1 < |content| && content[c.pos] == '.' && IsDigit(content[c.pos + 1]) ==>
            r.Parsed? && r.value && DigitRun(content, c.pos + 1, r.next.pos))
      && (c.pos < |content| && content[c.pos] == '.' && !(c.pos + 1 < |content| && IsDigit(content[c.pos + 1])) ==>
            r.Failed? && r.error.message == "Expected digit after decimal point" && r.at.pos == c.pos + 1)
  {
  }

  /** An exponent is there exactly when an 'e' or 'E' is, and then it is the letter, an optional sign and the run of digits after them; without a digit it fails. */
  lemma ExponentShape(content: string, c: Cursor)
    requires c.pos <= |content|
    ensures var r := Exponent(content, c);
      var signed := c.pos + 1 < |content| && (content[c.pos + 1] == '+' || content[c.pos + 1] == '-');
      var start := if signed then c.pos + 2 else c.pos + 1;
      var marked := c.pos < |content| && (content[c.pos] == 'e' || content[c.pos] == 'E');
      && (!marked ==> r == Parsed(false, c))
      && (marked && start < |content| && IsDigit(content[start]) ==> r.Parsed? && r.value && DigitRun(content, start, r.next.pos))
      && (marked && !(start < |content| && IsDigit(content[start])) ==>
            r.Failed? && r.error.message == "Expected digit in exponent" && r.at.pos == start)
  {
  }

  /** The sign, at least one digit, the fraction and the exponent of a successful number. */
  lemma NumberParts(content: string, c: Cursor)
    requires c.pos <= |content| && Number(content, c).Parsed?
    ensures var c1 := if Peek(content, c) == '-' then Advance(content, c) else c;
      var d := Digits(content, c1);
      var f := Fraction(content, d);
      && DigitRun(content, c1.pos, d.pos)
      && f.Parsed? && Exponent(content, f.next).Parsed?
      && var x := Exponent(content, f.next);
      Number(content, c) == NumberValue(content[c.pos..x.next.pos], f.value || x.value, x.next)
  {
  }

  /** A number fails where a digit is missing: after the optional '-', after a '.', or after an exponent and its sign. */
  lemma NumberNeedsDigits(content: string, c: Cursor)
    requires c.pos <= |content|
    ensures var c1 := if Peek(content, c) == '-' then Advance(content, c) else c;
      var d := Digits(content, c1);
      var f := Fraction(content, d);
      var r := Number(content, c);
      && (!(c1.pos < |content| && IsDigit(content[c1.pos])) ==> r == Throw("Expected digit", c1))
      && (c1.pos < |content| && IsDigit(content[c1.pos]) && f.Failed? ==>
            r == Failed(f.error, f.at) && f.error.message == "Expected digit after decimal point")
      && (c1.pos < |content| && IsDigit(content[c1.pos]) && f.Parsed? && Exponent(content, f.next).Failed? ==>
            r == Failed(Exponent(content, f.next).error, Exponent(content, f.next).at)
            && Exponent(content, f.next).error.message == "Expected digit in exponent")
  {
  }

  /** What `parseNumber()` builds from its text: an INTEGER read by `Integer.parseInt` unless the text is a double's, whose text is kept. */
  lemma NumberValueShape(lexeme: string, isDouble: bool, c: Cursor)
    requires NumberValue(lexeme, isDouble, c).Parsed?
    ensures var v := NumberValue(lexeme, isDouble, c).value;
      && v.Plain?
      && (Type(v) == INTEGER <==> !isDouble)
      && (Type(v) == INTEGER || Type(v) == DOUBLE)
      && (Type(v) == INTEGER ==> ParseInt(lexeme) == Some(v.payload.i))
      && (Type(v) == DOUBLE ==> v.payload.d == Lexeme(lexeme))
  {
  }

  /** A number is read as a double exactly when its text has a '.', an 'e' or an 'E'. */
  lemma NumberMarks(content: string, c: Cursor)
    requires c.pos <= |content| && Number(content, c).Parsed?
    ensures var c1 := if Peek(content, c) == '-' then Advance(content, c) else c;
      var f := Fraction(content, Digits(content, c1));
      var x := Exponent(content, f.next);
      var lexeme := content[c.pos..x.next.pos];
      (f.value || x.value) <==> exists i :: 0 <= i < |lexeme| && (lexeme[i] == '.' || lexeme[i] == 'e' || lexeme[i] == 'E')
  {
    NumberParts(content, c);
    var c1 := if Peek(content, c) == '-' then Advance(content, c) else c;
    var d := Digits(content, c1);
    forall i | c.pos <= i < d.pos
      ensures content[i] == '-' || IsDigit(content[i])
    {
      if i < c1.pos {
        assert i == c.pos;
      }
    }
    MarksAfterDigits(content, c.pos, d);
  }

  /** Text of signs and digits followed by a fraction and an exponent has a '.', 'e' or 'E' exactly when one of them is there. */
  lemma MarksAfterDigits(content: string, start: nat, d: Cursor)
    requires start <= d.pos <= |content|
    requires forall i :: start <= i < d.pos ==> content[i] == '-' || IsDigit(content[i])
    requires Fraction(content, d).Parsed? && Exponent(content, Fraction(content, d).next).Parsed?
    ensures var f := Fraction(content, d); var x := Exponent(content, f.next); var lexeme := content[start..x.next.pos];
      (f.value || x.value) <==> exists i :: 0 <= i < |lexeme| && (lexeme[i] == '.' || lexeme[i] == 'e' || lexeme[i] == 'E')
  {
    var f := Fraction(content, d);
    var x := Exponent(content, f.next);
    var lexeme := content[start..x.next.pos];
    if f.value {
      assert lexeme[d.pos - start] == content[d.pos] == '.';
    } else if x.value {
      assert lexeme[d.pos - start] == content[d.pos];
    } else {
      forall i | 0 <= i < |lexeme|
        ensures lexeme[i] != '.' && lexeme[i] != 'e' && lexeme[i] != 'E'
      {
        assert lexeme[i] == content[start + i];
      }
    }
  }

  /** The text of a successful number: an INTEGER exactly when it has no fraction or exponent, holding the value `Integer.parseInt` reads; otherwise a DOUBLE keeping the text. */
  lemma NumberLexeme(content: string, c: Cursor)
    requires c.pos <= |content| && Number(content, c).Parsed?
    ensures var r := Number(content, c); var lexeme := content[c.pos..r.next.pos];
      && (Type(r.value) == INTEGER || Type(r.value) == DOUBLE)
      && r.value.Plain?
      && (Type(r.value) == INTEGER <==> forall i :: 0 <= i < |lexeme| ==> lexeme[i] != '.' && lexeme[i] != 'e' && lexeme[i] != 'E')
      && (Type(r.value) == INTEGER ==> ParseInt(lexeme) == Some(r.value.payload.i))
      && (Type(r.value) == DOUBLE ==> r.value.payload.d == Lexeme(lexeme))
  {
    NumberParts(content, c);
    NumberMarks(content, c);
    var c1 := if Peek(content, c) == '-' then Advance(content, c) else c;
    var f := Fraction(content, Digits(content, c1));
    var x := Exponent(content, f.next);
    NumberValueShape(content[c.pos..x.next.pos], f.value || x.value, x.next);
  }

  /** `Integer.parseInt` reads back the value of a run of digits in range, and refuses one out of range. */
  lemma {:induction false} ParseIntOfDigits(s: string)
    requires |s| > 0 && AllDigits(s)
    ensures DigitsValue(s) <= INT_MAX ==> ParseInt(s) == Some(DigitsValue(s) as int32)
    ensures DigitsValue(s) > INT_MAX ==> ParseInt(s) == None
    ensures ParseInt("-" + s) == if DigitsValue(s) <= -INT_MIN then Some(-(DigitsValue(s) as int) as int32) else None
  {
    assert IsDigit(s[0]);
    var n := DigitsValue(s);
    assert ParseInt(s) == if n <= INT_MAX then Some(n as int32) else None;
    var t := "-" + s;
    assert t[0] == '-' && t[1..] == s;
  }

  // ----- values -----

  /** A value that fails is wrapped once, in "Error while building value", around the reason. */
  lemma ValueErrorsAreWrapped(content: string, c: Cursor)
    requires c.pos <= |content| && Value(content, c).Failed?
    ensures var e := Value(content, c).error;
      e.message == VALUE_ERROR && e.cause.Some? && e.cause.value.Nested?
  {
  }

  /** In an array, `KEY: value` becomes an element labelled KEY whose payload is the value's. */
  lemma LabelledElement(content: string, c: Cursor)
    requires c.pos <= |content|
    requires var c0 := SkipWs(content, c); Peek(content, c0) == '"' || KeyStart(Peek(content, c0))
    requires var k := Key(content, SkipWs(content, c));
      && k.Parsed?
      && var c2 := SkipWs(content, k.next);
      && Peek(content, c2) == ':'
      && Value(content, SkipWs(content, Advance(content, c2))).Parsed?
    ensures var k := Key(content, SkipWs(content, c));
      var v := Value(content, SkipWs(content, Advance(content, SkipWs(content, k.next))));
      Element(content, c) == Parsed(ArrayElement(k.value, v.value.payload), v.next)
  {
  }

  // ----- objects and arrays -----

  /** After a key, a ':' must follow; otherwise the entry fails, naming the key. */
  lemma EntryNeedsColon(content: string, c: Cursor, acc: Object, insideBrackets: bool)
    requires c.pos <= |content| && Key(content, c).Parsed?
    requires Peek(content, SkipWs(content, Key(content, c).next)) != ':'
    ensures var k := Key(content, c);
      Entry(content, c, acc, insideBrackets) == Throw("Expected ':' after key '" + k.value.key + "'", SkipWs(content, k.next))
  {
  }

  /** Commas between entries are optional, and one before a closing '}' is accepted. */
  lemma EntrySeparators(content: string, c: Cursor, acc: Object, insideBrackets: bool)
    requires c.pos <= |content|
    ensures var c1 := SkipWs(content, c); var next := Peek(content, c1); var r := AfterEntry(content, c1, acc, insideBrackets);
      && (next != ',' && next != '}' && next != '\0' ==> AfterEntry(content, c, acc, insideBrackets) == Entries(content, c1, acc, insideBrackets))
      && (next == ',' && insideBrackets && Peek(content, SkipWs(content, Advance(content, c1))) == '}' ==>
            AfterEntry(content, c, acc, insideBrackets) == Parsed(acc, SkipWs(content, Advance(content, c1))))
      && (next == ',' && !(insideBrackets && Peek(content, SkipWs(content, Advance(content, c1))) == '}') ==>
            AfterEntry(content, c, acc, insideBrackets) == Entries(content, SkipWs(content, Advance(content, c1)), acc, insideBrackets))
      && (next == '}' || next == '\0' ==> AfterEntry(content, c, acc, insideBrackets) == Parsed(acc, c1))
  {
  }

  /** Outside brackets, a '}' where an entry should start is an error, wherever it is. */
  lemma BraceOutsideBrackets(content: string, c: Cursor, acc: Object)
    requires c.pos <= |content| && Peek(content, SkipWs(content, c)) == '}'
    ensures Entries(content, c, acc, false) == Throw("Unexpected character '}'", SkipWs(content, c))
  {
  }

  /**
   * An entry under a key already read replaces its value: the entries go on from `acc[k := v]`,
   * and the key ends up with this value unless a later entry of the object has the key again.
   */
  lemma RepeatedKeyReplaces(content: string, c: Cursor, acc: Object, insideBrackets: bool)
    requires c.pos <= |content| && Key(content, c).Parsed?
    requires var c2 := SkipWs(content, Key(content, c).next);
      Peek(content, c2) == ':' && Value(content, SkipWs(content, Advance(content, c2))).Parsed?
    ensures var k := Key(content, c); var c2 := SkipWs(content, k.next);
      var v := Value(content, SkipWs(content, Advance(content, c2)));
      var updated := acc[k.value := v.value];
      && updated[k.value] == v.value
      && |updated| == (if k.value in acc then |acc| else |acc| + 1)
      && Entry(content, c, acc, insideBrackets) == AfterEntry(content, v.next, updated, insideBrackets)
      && var rest := AfterEntry(content, v.next, map[], insideBrackets);
      && (Entry(content, c, acc, insideBrackets).Parsed? <==> rest.Parsed?)
      && (rest.Parsed? ==>
            Entry(content, c, acc, insideBrackets).value[k.value] == if k.value in rest.value then rest.value[k.value] else v.value)
  {
    var k := Key(content, c);
    var c2 := SkipWs(content, k.next);
    var v := Value(content, SkipWs(content, Advance(content, c2)));
    AfterEntryOnto(content, v.next, acc[k.value := v.value], insideBrackets);
  }

  /**
   * The entries read from `c` onto `acc` are `acc` overridden by the entries read from `c` onto
   * nothing: a failure is the same failure, and a later entry wins over an earlier one under the same key.
   */
  lemma {:induction false} EntriesOnto(content: string, c: Cursor, acc: Object, insideBrackets: bool)
    requires c.pos <= |content|
    ensures var r := Entries(content, c, acc, insideBrackets); var e := Entries(content, c, map[], insideBrackets);
      && (r.Failed? <==> e.Failed?)
      && (r.Failed? ==> r == e)
      && (r.Parsed? ==> r.value == acc + e.value && r.next == e.next)
    decreases |content| - c.pos, 1
  {
    if c.pos < |content| {
      var c0 := SkipWs(content, c);
      var ch := Peek(content, c0);
      if ch != '}' && ch != '\0' {
        EntryOnto(content, c0, acc, insideBrackets);
      } else {
        assert acc + map[] == acc;
      }
    } else {
      assert acc + map[] == acc;
    }
  }

  /** `EntriesOnto` for one entry and what follows it. */
  lemma {:induction false} EntryOnto(content: string, c: Cursor, acc: Object, insideBrackets: bool)
    requires c.pos <= |content|
    ensures var r := Entry(content, c, acc, insideBrackets); var e := Entry(content, c, map[], insideBrackets);
      && (r.Failed? <==> e.Failed?)
      && (r.Failed? ==> r == e)
      && (r.Parsed? ==> r.value == acc + e.value && r.next == e.next)
    decreases |content| - c.pos, 0
  {
    var k := Key(content, c);
    if k.Parsed? {
      var c2 := SkipWs(content, k.next);
      if Peek(content, c2) == ':' {
        var v := Value(content, SkipWs(content, Advance(content, c2)));
        if v.Parsed? {
          var one := map[][k.value := v.value];
          assert Entry(content, c, acc, insideBrackets) == AfterEntry(content, v.next, acc[k.value := v.value], insideBrackets);
          assert Entry(content, c, map[], insideBrackets) == AfterEntry(content, v.next, one, insideBrackets);
          AfterEntryOnto(content, v.next, acc[k.value := v.value], insideBrackets);
          AfterEntryOnto(content, v.next, one, insideBrackets);
          var rest := AfterEntry(content, v.next, map[], insideBrackets);
          if rest.Parsed? {
            UpdateThenOverride(acc, k.value, v.value, rest.value);
          }
        }
      }
    }
  }

  lemma UpdateThenOverride(acc: Object, k: JsonKey, v: JsonValue, rest: Object)
    ensures acc[k := v] + rest == acc + (map[k := v] + rest)
  {
  }

  /** `EntriesOnto` for the tail of an entry. */
  lemma {:induction false} AfterEntryOnto(content: string, c: Cursor, acc: Object, insideBrackets: bool)
    requires c.pos <= |content|
    ensures var r := AfterEntry(content, c, acc, insideBrackets); var e := AfterEntry(content, c, map[], insideBrackets);
      && (r.Failed? <==> e.Failed?)
      && (r.Failed? ==> r == e)
      && (r.Parsed? ==> r.value == acc + e.value && r.next == e.next)
    decreases |content| - c.pos, 2
  {
    var c1 := SkipWs(content, c);
    var next := Peek(content, c1);
    if next == ',' {
      var c2 := SkipWs(content, Advance(content, c1));
      if Peek(content, c2) == '}' && insideBrackets {
        assert acc + map[] == acc;
      } else {
        EntriesOnto(content, c2, acc, insideBrackets);
      }
    } else if next == '}' || next == '\0' {
      assert acc + map[] == acc;
    } else {
      EntriesOnto(content, c1, acc, insideBrackets);
    }
  }

  /** `[]` is an empty array. */
  lemma EmptyArray(content: string, c: Cursor)
    requires c.pos < |content| && content[c.pos] == '['
    requires Peek(content, SkipWs(content, Advance(content, c))) == ']'
    ensures Array(content, c) == Parsed([], Advance(content, SkipWs(content, Advance(content, c))))
  {
  }

  /** Between array elements a ',' is mandatory; a trailing one before ']' is accepted; a '}' has its own error. */
  lemma ElementSeparators(content: string, c: Cursor, acc: seq<JsonValue>)
    requires c.pos <= |content|
    ensures var c1 := SkipWs(content, c); var next := Peek(content, c1); var r := AfterElement(content, c, acc);
      && (next == ']' ==> r == Parsed(acc, Advance(content, c1)))
      && (next == ',' && Peek(content, SkipWs(content, Advance(content, c1))) == ']' ==>
            r == Parsed(acc, Advance(content, SkipWs(content, Advance(content, c1)))))
      && (next == '}' ==> r == Throw("Expected closing ']' before '}'", c1))
      && (next != ',' && next != ']' && next != '}' ==> r == Throw("Expected ',' between array elements", c1))
  {
  }

  // ----- strings -----

  /** Without a closing '"' ahead, a literal cannot be read: the content ends inside it. */
  lemma {:induction false} UnterminatedLiteral(content: string, c: Cursor, acc: string)
    requires c.pos <= |content|
    requires forall i :: c.pos <= i < |content| ==> content[i] != '"'
    ensures StringChars(content, c, acc).Failed?
    ensures StringChars(content, c, acc).error.message in {"Unterminated string", "Unexpected end of file inside string"}
    decreases |content| - c.pos
  {
    if c.pos < |content| {
      var c1 := Advance(content, c);
      if content[c.pos] == '\\' {
        if c1.pos < |content| {
          UnterminatedLiteral(content, Advance(content, c1), acc + [Unescape(content[c1.pos])]);
        }
      } else {
        UnterminatedLiteral(content, c1, acc + [content[c.pos]]);
      }
    }
  }

  // ----- documents -----

  /** The first character after leading whitespace and comments. */
  function FirstChar(content: string): char {
    Peek(content, SkipWs(content, START))
  }

  /** With root braces, a finished document has its '}' next, then only whitespace and comments. */
  lemma FinishWithBrace(content: string, m: Object, c: Cursor)
    requires c.pos <= |content| && Finish(content, m, c, true).Parsed?
    ensures var c1 := SkipWs(content, c);
      c1.pos < |content| && content[c1.pos] == '}' && SkipWs(content, Advance(content, c1)).pos == |content|
  {
  }

  /** The two errors of a finished root: a missing closing '}' when the root opened with '{', and text left after it. */
  lemma FinishErrors(content: string, m: Object, c: Cursor, rootBracket: bool)
    requires c.pos <= |content|
    ensures var c1 := SkipWs(content, c); var r := Finish(content, m, c, rootBracket);
      && (rootBracket && Peek(content, c1) != '}' ==> r == Throw("Expected '}' at the end of the file", c1))
      && (!rootBracket && c1.pos < |content| ==> r == Throw("Unexpected characters after parsing finished", c1))
      && (rootBracket && Peek(content, c1) == '}' && SkipWs(content, Advance(content, c1)).pos < |content| ==>
            r == Throw("Unexpected characters after parsing finished", SkipWs(content, Advance(content, c1))))
  {
  }

  /** A parse is the entries after the optional root '{', then the end of the document. */
  lemma ParseParts(content: string)
    ensures var c0 := SkipWs(content, START);
      var rootBracket := Peek(content, c0) == '{';
      var c1 := if rootBracket then SkipWs(content, Advance(content, c0)) else c0;
      var m := Entries(content, c1, map[], rootBracket);
      Parse(content) == if m.Failed? then Failed(m.error, m.at) else Finish(content, m.value, m.next, rootBracket)
  {
  }

  /** A document that opens with '{' and parses has a matching '}' followed only by whitespace and comments. */
  lemma RootBraceIsClosed(content: string)
    requires Parse(content).Parsed? && FirstChar(content) == '{'
    ensures exists c :: Valid(content, c) && c.pos < |content| && content[c.pos] == '}' && SkipWs(content, Advance(content, c)).pos == |content|
  {
    ParseParts(content);
    var c0 := SkipWs(content, START);
    var c1 := SkipWs(content, Advance(content, c0));
    var m := Entries(content, c1, map[], true);
    FinishWithBrace(content, m.value, m.next);
    var c3 := SkipWs(content, m.next);
    assert Valid(content, START);
    assert Valid(content, c3);
  }

  /** A document that does not open with '{' may not contain a '}' where an entry should start. */
  lemma UnbracedRootRejectsBrace(content: string)
    requires FirstChar(content) == '}'
    ensures Parse(content).Failed? && Parse(content).error.message == "Unexpected character '}'"
  {
    SkipWsIdempotent(content, START);
  }

  /** After the root, anything but whitespace and comments is an error. */
  lemma ParsedDocumentIsConsumed(content: string)
    requires Parse(content).Parsed?
    ensures SkipWs(content, Parse(content).next).pos == |content|
  {
  }
}
