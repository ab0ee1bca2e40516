/**
 * `JsonParser`: a character-at-a-time parser over the fields `content`, `position`, `line` and
 * `column`. Every method is proved to compute what its function in `JsonGrammar` describes:
 * the same result and the same final cursor, or the same error thrown at the same cursor.
 */
module JsonParsers {
  import opened Wrappers
  import opened JsonKeys
  import opened JsonValues
  import opened JsonObjects
  import G = JsonGrammar
  import P = JsonGrammarProperties

  class JsonParser {
    var content: string
    var position: nat
    var line: int
    var column: int

    /** The implicit constructor: Java's defaults, with the `null` content read as empty. */
    constructor ()
      ensures content == "" && position == 0 && line == 0 && column == 0
    {
      content := "";
      position := 0;
      line := 0;
      column := 0;
    }

    /** The scan state as a grammar cursor. */
    function Cursor(): G.Cursor
      reads this
    {
      G.Cursor(position, line, column)
    }

    /** `line` and `column` always describe `position` within `content`. */
    predicate Valid()
      reads this
    {
      G.Valid(content, Cursor())
    }

    /** A method result and the state after it agree with a grammar step. */
    predicate Follows<T(==)>(r: Result<T, G.ParseError>, s: G.Step<T>)
      reads this
    {
      match s
      case Parsed(v, n) => r == Success(v) && Cursor() == n
      case Failed(e, at) => r == Failure(e) && Cursor() == at
    }

    /** A `JsonParseException` thrown at the current line and column. */
    function ErrorHere(message: string): G.ParseError
      reads this
    {
      G.ErrorAt(message, Cursor())
    }

    /** The text `parse(Path)` builds from the lines of a file: each line followed by '\n'. */
    static function Joined(lines: seq<string>): string {
      if lines == [] then "" else Joined(lines[..|lines| - 1]) + lines[|lines| - 1] + "\n"
    }

    /** `parse(Path)`, once the file is read into lines. */
    method ParseLines(lines: seq<string>) returns (r: Result<Json, G.ParseError>)
      modifies this
      ensures content == Joined(lines)
      ensures var s := G.Parse(Joined(lines));
        && (s.Parsed? ==> r.Success? && fresh(r.value) && r.value.data == s.value)
        && (s.Failed? ==> r == Failure(s.error))
    {
      var sb := "";
      var i := 0;
      while i < |lines|
        invariant 0 <= i <= |lines|
        invariant sb == Joined(lines[..i])
      {
        assert lines[..i + 1][..i] == lines[..i];
        sb := sb + lines[i] + "\n";
        i := i + 1;
      }
      assert lines[..i] == lines;
      r := Parse(sb);
    }

    /** `parse(String)` and `parseString`. */
    method Parse(text: string) returns (r: Result<Json, G.ParseError>)
      modifies this
      ensures content == text
      ensures var s := G.Parse(text);
        && (s.Parsed? ==> r.Success? && fresh(r.value) && r.value.data == s.value)
        && (s.Failed? ==> r == Failure(s.error))
    {
      content := text;
      position := 0;
      line := 1;
      column := 1;
      assert Valid();
      SkipWhitespace();
      var hasRootBracket := false;
      if Peek() == '{' {
        var _ := Consume();
        hasRootBracket := true;
        SkipWhitespace();
      }
      var json := ParseObject(hasRootBracket);
      if json.Failure? {
        return Failure(json.error);
      }
      ghost var afterEntries := Cursor();
      SkipWhitespace();
      if hasRootBracket {
        if Peek() != '}' {
          return Failure(ErrorHere("Expected '}' at the end of the file"));
        }
        var _ := Consume();
      }
      SkipWhitespace();
      if position < |content| {
        return Failure(ErrorHere("Unexpected characters after parsing finished"));
      }
      assert G.Finish(content, json.value.data, afterEntries, hasRootBracket) == G.Parsed(json.value.data, Cursor());
      return Success(json.value);
    }

    /** `peek()`. */
    function Peek(): (ch: char)
      reads this
      ensures ch == G.Peek(content, Cursor())
      ensures position < |content| ==> ch == content[position]
      ensures position >= |content| ==> ch == '\0'
    {
      if position >= |content| then '\0' else content[position]
    }

    /** `consume()`: the current character, moving the cursor past it; at the end it throws. */
    method Consume() returns (r: Result<char, Exception>)
      requires Valid()
      modifies this
      ensures Valid() && content == old(content)
      ensures old(position) >= |content| ==>
        r == Failure(IllegalStateException("Cannot be consumed when content end has reached")) && Cursor() == old(Cursor())
      ensures old(position) < |content| ==>
        r == Success(content[old(position)]) && Cursor() == G.Advance(content, old(Cursor()))
    {
      if position >= |content| {
        return Failure(IllegalStateException("Cannot be consumed when content end has reached"));
      }
      var c := content[position];
      position := position + 1;
      if c == '\n' {
        line := line + 1;
        column := 1;
      } else {
        column := column + 1;
      }
      r := Success(c);
    }

    /** `skipWhitespace()`. */
    method SkipWhitespace()
      requires Valid()
      modifies this
      ensures Valid() && content == old(content)
      ensures Cursor() == G.SkipWs(content, old(Cursor()))
    {
      while position < |content|
        invariant Valid() && content == old(content)
        invariant G.SkipWs(content, Cursor()) == G.SkipWs(content, old(Cursor()))
        decreases |content| - position
      {
        var c := content[position];
        if c == '*' && position + 1 < |content| && content[position + 1] == '*' {
          ParseComment();
          continue;
        }
        if G.IsWhitespace(c) {
          var _ := Consume();
        } else {
          break;
        }
      }
    }

    /** `parseComment()`. */
    method ParseComment()
      requires Valid() && G.CommentStart(content, position)
      modifies this
      ensures Valid() && content == old(content)
      ensures Cursor() == G.Comment(content, old(Cursor()))
    {
      var _ := Consume();
      var _ := Consume();
      while position < |content|
        invariant Valid() && content == old(content)
        invariant G.CommentRest(content, Cursor()) == G.Comment(content, old(Cursor()))
        decreases |content| - position
      {
        var c := Peek();
        if c == '\n' {
          var _ := Consume();
          break;
        } else if c == '}' && position + 1 == |content| {
          break;
        } else if c == '\0' {
          break;
        } else {
          var _ := Consume();
        }
      }
    }

    /** `parseStringLiteral()`. */
    method ParseStringLiteral() returns (r: Result<string, G.ParseError>)
      requires Valid()
      modifies this
      ensures Valid() && content == old(content)
      ensures Follows(r, G.StringLiteral(content, old(Cursor())))
    {
      if Peek() != '"' {
        return Failure(ErrorHere("Expected '\"'"));
      }
      var _ := Consume();
      var sb := "";
      while position < |content|
        invariant Valid() && content == old(content)
        invariant G.StringChars(content, Cursor(), sb) == G.StringLiteral(content, old(Cursor()))
        decreases |content| - position
      {
        var c := Peek();
        if c == '"' {
          var _ := Consume();
          return Success(sb);
        } else if c == '\\' {
          var _ := Consume();
          if position >= |content| {
            return Failure(ErrorHere("Unexpected end of file inside string"));
          }
          var escaped := Consume();
          sb := sb + [G.Unescape(escaped.value)];
        } else {
          var ch := Consume();
          sb := sb + [ch.value];
        }
      }
      return Failure(ErrorHere("Unterminated string"));
    }

    /** `parseKey()`. */
    method ParseKey() returns (r: Result<JsonKey, G.ParseError>)
      requires Valid()
      modifies this
      ensures Valid() && content == old(content)
      ensures Follows(r, G.Key(content, old(Cursor())))
    {
      SkipWhitespace();
      ghost var start := Cursor();
      var c := Peek();
      if c == '"' {
        var text := ParseStringLiteral();
        if text.Failure? {
          return Failure(G.ParseError(G.KEY_ERROR, line, column, Some(G.Nested(text.error))));
        }
        r := MakeKey(text.value);
      } else if G.KeyStart(c) {
        var key := "";
        while position < |content|
          invariant Valid() && content == old(content)
          invariant G.KeyRun(content, Cursor(), key) == G.KeyRun(content, start, "")
          decreases |content| - position
        {
          c := Peek();
          if G.KeyChar(c) {
            var ch := Consume();
            key := key + [ch.value];
          } else {
            break;
          }
        }
        r := MakeKey(key);
      } else {
        r := Failure(G.ParseError(G.KEY_ERROR, line, column, Some(G.Nested(ErrorHere("Expected key")))));
      }
    }

    /** `new JsonKey(text)` inside the `try` of `parseKey()`. */
    method MakeKey(text: string) returns (r: Result<JsonKey, G.ParseError>)
      ensures Follows(r, G.MakeKey(text, Cursor()))
    {
      var k := NewKey(Some(text));
      if k.Failure? {
        return Failure(G.ParseError(G.KEY_ERROR, line, column, Some(G.Thrown(k.error))));
      }
      return Success(k.value);
    }

    /** `parseValue()`: the dispatch, inside a `catch` that wraps every error. */
    method ParseValue() returns (r: Result<JsonValue, G.ParseError>)
      requires Valid()
      modifies this
      ensures Valid() && content == old(content)
      ensures Follows(r, G.Value(content, old(Cursor())))
      decreases |content| - position, 2
    {
      SkipWhitespace();
      var attempt := ParseValueAt();
      if attempt.Failure? {
        return Failure(G.ParseError(G.VALUE_ERROR, line, column, Some(G.Nested(attempt.error))));
      }
      return attempt;
    }

    /** The body of the `try` in `parseValue()`. */
    method ParseValueAt() returns (r: Result<JsonValue, G.ParseError>)
      requires Valid()
      modifies this
      ensures Valid() && content == old(content)
      ensures Follows(r, G.ValueAt(content, old(Cursor())))
      decreases |content| - position, 1
    {
      var c := Peek();
      if c == '"' {
        var s := ParseStringLiteral();
        if s.Failure? {
          return Failure(s.error);
        }
        return Success(Plain(StringP(s.value)));
      } else if c == '{' {
        ghost var start := Cursor();
        var _ := Consume();
        SkipWhitespace();
        var nested := ParseObject(true);
        if nested.Failure? {
          return Failure(nested.error);
        }
        SkipWhitespace();
        if Peek() != '}' {
          return Failure(ErrorHere("Expected '}' at the end of object"));
        }
        var _ := Consume();
        assert G.NestedObject(content, start) == G.Parsed(Plain(ObjectP(nested.value.data)), Cursor());
        return Success(Plain(ObjectP(nested.value.data)));
      } else if c == '[' {
        var elems := ParseArray();
        if elems.Failure? {
          return Failure(elems.error);
        }
        return Success(Plain(ListP(elems.value)));
      } else if c == 't' || c == 'f' {
        var b := ParseBoolean();
        if b.Failure? {
          return Failure(b.error);
        }
        return Success(Plain(BooleanP(b.value)));
      } else if c == 'n' {
        var n := ParseNull();
        if n.Failure? {
          return Failure(n.error);
        }
        return Success(Plain(NullP));
      } else if c == '-' || G.IsDigit(c) {
        r := ParseNumber();
      } else {
        return Failure(ErrorHere("Unexpected character: '" + [c] + "'"));
      }
    }

    /** `parseObject(insideBrackets)`: a new `Json` holding the entries read. */
    method ParseObject(insideBrackets: bool) returns (r: Result<Json, G.ParseError>)
      requires Valid()
      modifies this
      ensures Valid() && content == old(content)
      ensures var s := G.Entries(content, old(Cursor()), map[], insideBrackets);
        && (s.Parsed? ==> r.Success? && fresh(r.value) && r.value.data == s.value && Cursor() == s.next)
        && (s.Failed? ==> r == Failure(s.error) && Cursor() == s.at)
      decreases |content| - position, 1
    {
      var json := new Json();
      while position < |content|
        invariant Valid() && content == old(content)
        invariant fresh(json)
        invariant position >= old(position)
        invariant G.Entries(content, Cursor(), json.data, insideBrackets) == G.Entries(content, old(Cursor()), map[], insideBrackets)
        decreases |content| - position
      {
        ghost var head := Cursor();
        SkipWhitespace();
        var c := Peek();
        if c == '}' {
          if insideBrackets {
            return Success(json);
          } else {
            return Failure(ErrorHere("Unexpected character '}'"));
          }
        }
        if c == '\0' {
          break;
        }
        ghost var entry := Cursor();
        assert G.Entries(content, head, json.data, insideBrackets) == G.Entry(content, entry, json.data, insideBrackets);
        var read := ParseEntry(json, insideBrackets);
        if read.Failure? {
          return Failure(read.error);
        }
        ghost var tail := Cursor();
        P.EntrySeparators(content, tail, json.data, insideBrackets);
        SkipWhitespace();
        c := Peek();
        if c == ',' {
          var _ := Consume();
          SkipWhitespace();
          if Peek() == '}' {
            if insideBrackets {
              return Success(json);
            }
          }
        } else if c == '}' || c == '\0' {
          break;
        }
      }
      return Success(json);
    }

    /** One entry of the loop of `parseObject`: the key, ':', the value, and `json.put(key, value)`. */
    method ParseEntry(json: Json, ghost insideBrackets: bool) returns (r: Result<(), G.ParseError>)
      requires Valid()
      modifies this, json
      ensures Valid() && content == old(content)
      ensures var s := G.Entry(content, old(Cursor()), old(json.data), insideBrackets);
        && (r.Failure? ==> s == G.Failed(r.error, Cursor()))
        && (r.Success? ==> s == G.AfterEntry(content, Cursor(), json.data, insideBrackets) && position > old(position))
      decreases |content| - position, 0
    {
      ghost var entry := Cursor();
      var key := ParseKey();
      if key.Failure? {
        return Failure(key.error);
      }
      SkipWhitespace();
      if Peek() != ':' {
        return Failure(ErrorHere("Expected ':' after key '" + key.value.key + "'"));
      }
      var _ := Consume();
      SkipWhitespace();
      var value := ParseValue();
      if value.Failure? {
        return Failure(value.error);
      }
      ghost var before := json.data;
      var _ := json.Put(Some(key.value), Some(value.value));
      P.RepeatedKeyReplaces(content, entry, before, insideBrackets);
      r := Success(());
    }

    /** `parseArray()`. */
    method ParseArray() returns (r: Result<seq<JsonValue>, G.ParseError>)
      requires Valid()
      modifies this
      ensures Valid() && content == old(content)
      ensures Follows(r, G.Array(content, old(Cursor())))
      decreases |content| - position, 0
    {
      if Peek() != '[' {
        return Failure(ErrorHere("Expected '['"));
      }
      var _ := Consume();
      var elements: seq<JsonValue> := [];
      SkipWhitespace();
      if Peek() == ']' {
        var _ := Consume();
        return Success(elements);
      }
      while position < |content|
        invariant Valid() && content == old(content)
        invariant position > old(position)
        invariant G.Elements(content, Cursor(), elements) == G.Array(content, old(Cursor()))
        decreases |content| - position
      {
        SkipWhitespace();
        var element := ParseArrayElement();
        if element.Failure? {
          return Failure(element.error);
        }
        elements := elements + [element.value];
        SkipWhitespace();
        var c := Peek();
        if c == ',' {
          var _ := Consume();
          SkipWhitespace();
          if Peek() == ']' {
            var _ := Consume();
            return Success(elements);
          }
        } else if c == ']' {
          var _ := Consume();
          return Success(elements);
        } else if c == '}' {
          return Failure(ErrorHere("Expected closing ']' before '}'"));
        } else {
          return Failure(ErrorHere("Expected ',' between array elements"));
        }
      }
      return Failure(ErrorHere("Unterminated array"));
    }

    /**
     * `parseArrayElement()`: when the element looks like `KEY: value`, the `try` block; on a
     * failure, the `catch` restores the saved cursor and reads a plain value.
     */
    method ParseArrayElement() returns (r: Result<JsonValue, G.ParseError>)
      requires Valid()
      modifies this
      ensures Valid() && content == old(content)
      ensures Follows(r, G.Element(content, old(Cursor())))
      decreases |content| - position, 4
    {
      var savedPosition := position;
      var savedLine := line;
      var savedColumn := column;
      SkipWhitespace();
      var c := Peek();
      if c == '"' || G.KeyStart(c) {
        r := TryKeyedElement(savedPosition, savedLine, savedColumn);
        if r.Failure? {
          position, line, column := savedPosition, savedLine, savedColumn;
          r := ParseValue();
        }
      } else {
        r := ParseValue();
      }
    }

    /**
     * The `try` block of `parseArrayElement()`, for the saved cursor `start` and with the whitespace
     * there skipped: a key, then ':' and a value, or else the saved cursor restored and a plain value.
     * A failure is what reaches the `catch`; the element is then the plain value read from `start`.
     */
    method TryKeyedElement(savedPosition: nat, savedLine: int, savedColumn: int) returns (r: Result<JsonValue, G.ParseError>)
      requires var start := G.Cursor(savedPosition, savedLine, savedColumn);
        Valid() && G.Valid(content, start) && Cursor() == G.SkipWs(content, start)
      requires Peek() == '"' || G.KeyStart(Peek())
      modifies this
      ensures Valid() && content == old(content)
      ensures var start := G.Cursor(savedPosition, savedLine, savedColumn);
        && (r.Success? ==> G.Element(content, start) == G.Parsed(r.value, Cursor()))
        && (r.Failure? ==> G.Element(content, start) == G.Value(content, start))
      decreases |content| - savedPosition, 3
    {
      var key := ParseKey();
      if key.Failure? {
        return Failure(key.error);
      }
      SkipWhitespace();
      if Peek() == ':' {
        var _ := Consume();
        SkipWhitespace();
        var value := ParseValue();
        if value.Failure? {
          return Failure(value.error);
        }
        return Success(NewArrayValue(key.value, value.value));
      } else {
        position, line, column := savedPosition, savedLine, savedColumn;
        r := ParseValue();
      }
    }

    /** The loops `while (position < length && isDigit(peek()))` of `parseNumber()`. */
    method ReadDigits()
      requires Valid()
      modifies this
      ensures Valid() && content == old(content)
      ensures Cursor() == G.Digits(content, old(Cursor()))
    {
      while position < |content| && G.IsDigit(Peek())
        invariant Valid() && content == old(content)
        invariant G.Digits(content, Cursor()) == G.Digits(content, old(Cursor()))
        decreases |content| - position
      {
        var _ := Consume();
      }
    }

    /** The decimal point of `parseNumber()` and the digits after it; the result says whether there was one. */
    method ReadFraction() returns (r: Result<bool, G.ParseError>)
      requires Valid()
      modifies this
      ensures Valid() && content == old(content)
      ensures Follows(r, G.Fraction(content, old(Cursor())))
    {
      if position < |content| && Peek() == '.' {
        var _ := Consume();
        if !G.IsDigit(Peek()) {
          return Failure(ErrorHere("Expected digit after decimal point"));
        }
        ReadDigits();
        return Success(true);
      }
      return Success(false);
    }

    /** The exponent of `parseNumber()`: 'e' or 'E', an optional sign and digits; the result says whether there was one. */
    method ReadExponent() returns (r: Result<bool, G.ParseError>)
      requires Valid()
      modifies this
      ensures Valid() && content == old(content)
      ensures Follows(r, G.Exponent(content, old(Cursor())))
    {
      if position < |content| && (Peek() == 'e' || Peek() == 'E') {
        var _ := Consume();
        if Peek() == '+' || Peek() == '-' {
          var _ := Consume();
        }
        if !G.IsDigit(Peek()) {
          return Failure(ErrorHere("Expected digit in exponent"));
        }
        ReadDigits();
        return Success(true);
      }
      return Success(false);
    }

    /**
     * `parseNumber()`. The `StringBuilder` of the source receives exactly the characters
     * consumed, so its text is taken here as the slice of `content` the scan passed over.
     */
    method ParseNumber() returns (r: Result<JsonValue, G.ParseError>)
      requires Valid()
      modifies this
      ensures Valid() && content == old(content)
      ensures Follows(r, G.Number(content, old(Cursor())))
    {
      var start := position;
      if Peek() == '-' {
        var _ := Consume();
      }
      if !G.IsDigit(Peek()) {
        return Failure(ErrorHere("Expected digit"));
      }
      ReadDigits();
      var hasPoint := ReadFraction();
      if hasPoint.Failure? {
        return Failure(hasPoint.error);
      }
      var hasExponent := ReadExponent();
      if hasExponent.Failure? {
        return Failure(hasExponent.error);
      }
      var number := content[start..position];
      var isDouble := hasPoint.value || hasExponent.value;
      if isDouble {
        return Success(Plain(DoubleP(Lexeme(number))));
      }
      var n := G.ParseInt(number);
      if n.None? {
        return Failure(G.ParseError("Invalid number format: " + number, line, column, Some(G.NumberFormat(number))));
      }
      return Success(Plain(IntegerP(n.value)));
    }

    /** `parseBoolean()`. */
    method ParseBoolean() returns (r: Result<bool, G.ParseError>)
      requires Valid()
      modifies this
      ensures Valid() && content == old(content)
      ensures Follows(r, G.Boolean(content, old(Cursor())))
    {
      if Peek() == 't' {
        var e := ExpectString("true");
        if e.Failure? {
          return Failure(e.error);
        }
        return Success(true);
      } else if Peek() == 'f' {
        var e := ExpectString("false");
        if e.Failure? {
          return Failure(e.error);
        }
        return Success(false);
      } else {
        return Failure(ErrorHere("Expected 'true' or 'false'"));
      }
    }

    /** `parseNull()`. */
    method ParseNull() returns (r: Result<(), G.ParseError>)
      requires Valid()
      modifies this
      ensures Valid() && content == old(content)
      ensures Follows(r, G.Expect(content, old(Cursor()), "null", 0))
    {
      r := ExpectString("null");
    }

    /** `expectString(expected)`. */
    method ExpectString(expected: string) returns (r: Result<(), G.ParseError>)
      requires Valid()
      modifies this
      ensures Valid() && content == old(content)
      ensures Follows(r, G.Expect(content, old(Cursor()), expected, 0))
    {
      for i := 0 to |expected|
        invariant Valid() && content == old(content)
        invariant G.Expect(content, Cursor(), expected, i) == G.Expect(content, old(Cursor()), expected, 0)
      {
        if position >= |content| {
          return Failure(ErrorHere("Expected '" + expected + "'"));
        }
        var ch := Consume();
        if ch.value != expected[i] {
          return Failure(ErrorHere("Expected '" + expected + "'"));
        }
      }
      return Success(());
    }
  }
}
