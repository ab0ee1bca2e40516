# A verified model of the snake2d configuration-text toolkit

This project models the lenient JSON-like configuration format of `snake2d` in Dafny 4.11 and proves properties
of the model. It covers:

- the value model:
  - `JsonKey`: a key that is a non-blank string;
  - `JsonValue`, together with its labelled array element `JsonArrayValue`;
  - `Json`: the mutable key/value map;
- the recursive-descent `JsonParser`. It accepts optional root braces, optional commas between entries, unquoted
  keys, `**` line comments and `KEY: value` array elements. Errors carry a 1-based line and column;
- `JsonMerger`: a deep, left-to-right "later wins" merge, plus its shallow variant;
- the typed read facade `JsonConfig`.

Modules, one file each:

- `Wrappers`: `Option`, `Result`, `Outcome`, and the two Java exception kinds the core throws. It also holds the
  32-bit `int32` range and decimal rendering of integers.
- `JsonKeys`: key validation, key equality, and the Java `String.hashCode` with 32-bit wrap-around written out.
- `JsonValues`: the tagged payload (`ValueType`, `Payload`, `JsonValue`). Also:
  - the constructor's dispatch on the Java class of its argument (`JavaObject`);
  - the checked accessors;
  - `equals`.
- `JsonObjects`: `class Json`. Its `HashMap` is the field `data`, a Dafny `map`. Java's `null` key or value is
  `None`.
- `JsonGrammar`: one pure function per parser method. Loops become recursion and thrown exceptions become a
  `Failed` step. These functions are the specification of the parser.
- `JsonGrammarProperties`: lemmas about the grammar. They cover:
  - position tracking and comments;
  - keys, string decoding and numbers;
  - separators, and the root braces of a whole document.
- `JsonParsers`: `class JsonParser` with the source's mutable fields `content`, `position`, `line` and `column`.
  Its methods keep the source's `while` loops. Each method is proved to end in the state, and return the result,
  that the matching `JsonGrammar` function describes.
- `JsonMergers`: the imperative merge methods over `Json` objects, proved against the map functions `MergeMaps`,
  `MergeAll` and `ShallowAll`. The lemmas about those functions sit in the same module.
- `JsonConfigs`:
  - `JsonConfig` is a value wrapping an `Object`, the map of a `Json`;
  - its getters are functions with `Result` errors;
  - the three `...List` getters are methods with the source's loops;
  - `FromString` is the `String` constructor.

A Java exception is a `Failure`/`Fail` value:

- a `JsonParseException` is a `JsonGrammar.ParseError` (message, line, column);
- a `ConfigException` is a `JsonConfigs.ConfigError` with its message and, where the source passes one, its cause.

`JsonGrammar.Describe` renders a parse error the way `JsonParseException`'s constructor does.

## Model

| member | source | states |
|---|---|---|
| JsonKeys.NewKey | src/main/java/snake2d/util/file/json/JsonKey.java:13-27 | a key is built iff the text is present and not blank (every character at most a space, as `trim()` sees it); otherwise IllegalArgumentException "Key cannot be empty"; `getKey` returns the text verbatim, untrimmed |
| JsonKeys.KeyEqualsIsIdentity | src/main/java/snake2d/util/file/json/JsonKey.java:29-35 | two keys are `equals` iff their strings are equal |
| JsonKeys.EqualKeysHashAlike | src/main/java/snake2d/util/file/json/JsonKey.java:37-40 | equal keys have equal 32-bit hash codes |
| JsonKeys.KeyEquals | src/main/java/snake2d/util/file/json/JsonKey.java:29-35 | definition: keys are `equals` when their strings are |
| JsonKeys.StringHash | src/main/java/snake2d/util/file/json/JsonKey.java:37-40 | definition: `String.hashCode`, h = 31 * h + c in 32-bit arithmetic |
| JsonKeys.HashCode | src/main/java/snake2d/util/file/json/JsonKey.java:37-40 | definition: `Objects.hash(key)` = 31 + the string's hash, in 32-bit arithmetic |
| JsonKeys.Wrap32 | src/main/java/snake2d/util/file/json/JsonKey.java:37-40 | the int32 arithmetic of `String.hashCode` agrees with the unbounded value modulo 2^32 |
| JsonValues.NewValue | src/main/java/snake2d/util/file/json/JsonValue.java:22-62 | the constructor succeeds iff the argument's class has a tag (null, String, Integer, Double, Boolean, Object[], List, Json). Each class gets exactly its own tag, and `getValue` gives the argument back. Any other class raises IllegalArgumentException "Unsupported value type: " + class name |
| JsonValues.GetValue | src/main/java/snake2d/util/file/json/JsonValue.java:56-58 | `getValue` yields a constructible Java value, never one of an unsupported class |
| JsonValues.NewArrayValue | src/main/java/snake2d/util/file/json/JsonValue.java:156-167 | a `JsonArrayValue` has the wrapped value's tag and payload and carries the given key |
| JsonValues.AsString | src/main/java/snake2d/util/file/json/JsonValue.java:64-69 | succeeds iff the tag is STRING and returns the payload; otherwise IllegalStateException "Value is not of type String" |
| JsonValues.AsInteger | src/main/java/snake2d/util/file/json/JsonValue.java:71-76 | succeeds iff the tag is INTEGER and returns the payload; otherwise the Integer IllegalStateException |
| JsonValues.AsDouble | src/main/java/snake2d/util/file/json/JsonValue.java:78-85 | succeeds iff the tag is DOUBLE or INTEGER; returns the double payload or the widened integer; otherwise the Double IllegalStateException |
| JsonValues.AsBoolean | src/main/java/snake2d/util/file/json/JsonValue.java:87-93 | succeeds iff the tag is BOOLEAN and returns the payload; otherwise the Boolean IllegalStateException |
| JsonValues.AsList | src/main/java/snake2d/util/file/json/JsonValue.java:95-105 | succeeds iff the tag is LIST or ARRAY and returns the elements in order; otherwise "Value is not a list" |
| JsonValues.AsArray | src/main/java/snake2d/util/file/json/JsonValue.java:107-116 | succeeds iff the tag is ARRAY or LIST and returns the elements in order; otherwise "Value is not an array" |
| JsonValues.AsJson | src/main/java/snake2d/util/file/json/JsonValue.java:118-123 | succeeds iff the tag is JSON_OBJECT and returns the nested map; otherwise "Value is not a JSON object" |
| JsonValues.ListAndArrayViewsAgree | src/main/java/snake2d/util/file/json/JsonValue.java:95-116 | `asList` and `asArray` accept the same values and yield the same elements |
| JsonValues.IsNullIsNullTag | src/main/java/snake2d/util/file/json/JsonValue.java:125-127 | `isNull()` iff the tag is NULL |
| JsonValues.ValueEqualsReflexive | src/main/java/snake2d/util/file/json/JsonValue.java:143-154 | `equals` is reflexive on every value, nested lists included |
| JsonValues.PayloadEqualsReflexive | src/main/java/snake2d/util/file/json/JsonValue.java:143-154 | payload comparison is reflexive |
| JsonValues.ValueEqualsSymmetric | src/main/java/snake2d/util/file/json/JsonValue.java:143-154 | `equals` is symmetric |
| JsonValues.PayloadEqualsSymmetric | src/main/java/snake2d/util/file/json/JsonValue.java:143-154 | payload comparison is symmetric |
| JsonValues.ArrayElementNeverEqualsPlain | src/main/java/snake2d/util/file/json/JsonValue.java:143-154 | a `JsonArrayValue` never equals a plain `JsonValue`, in either order (different runtime classes) |
| JsonValues.ArrayElementKeyIgnored | src/main/java/snake2d/util/file/json/JsonValue.java:143-167 | two `JsonArrayValue`s that differ only in their key are equal |
| JsonValues.ConstructedValueRoundTrips | src/main/java/snake2d/util/file/json/JsonValue.java:22-127 | every supported argument constructs, and the matching accessor returns exactly that argument; `isNull` holds iff the argument was null |
| JsonValues.Type | src/main/java/snake2d/util/file/json/JsonValue.java:60-62 | definition: the tag of each payload |
| JsonValues.IsNull | src/main/java/snake2d/util/file/json/JsonValue.java:125-127 | definition: the payload is null; `IsNullIsNullTag` relates it to the tag |
| JsonValues.ValueEquals | src/main/java/snake2d/util/file/json/JsonValue.java:143-154 | definition: the same runtime class and equal payloads, the key of an array element ignored |
| JsonValues.PayloadEquals | src/main/java/snake2d/util/file/json/JsonValue.java:143-154 | definition: equal payloads, with list elements compared by `ValueEquals` |
| JsonObjects.Json.constructor | src/main/java/snake2d/util/file/json/Json.java:16-18 | a new `Json` is empty |
| JsonObjects.Json.Put | src/main/java/snake2d/util/file/json/Json.java:23-31 | a null key gives "Key cannot be null" and a null value "Value cannot be null", both IllegalArgumentException. A refused call changes nothing. Otherwise the map is the old map with that key set to the value |
| JsonObjects.PutReadsBack | src/main/java/snake2d/util/file/json/Json.java:30-45 | after a put: the key reads back its value; every other key keeps its value; a key already present does not change the size |
| JsonObjects.Json.PutText | src/main/java/snake2d/util/file/json/Json.java:36-38 | a blank string key fails like `new JsonKey` ("Key cannot be empty") and changes nothing; otherwise the call behaves as `put` with that key: a null value gives "Value cannot be null" and changes nothing, any other value is stored under the key |
| JsonObjects.Json.Get | src/main/java/snake2d/util/file/json/Json.java:43-45 | present iff the key is in the map, and then the stored value; absent (Java null) otherwise |
| JsonObjects.Json.GetText | src/main/java/snake2d/util/file/json/Json.java:50-52 | fails iff the string is blank; otherwise the same as `get` with that key |
| JsonObjects.Json.ContainsKeyText | src/main/java/snake2d/util/file/json/Json.java:57-66 | fails iff the string is blank; otherwise true iff the key is in the map |
| JsonObjects.Json.ContainsKey | src/main/java/snake2d/util/file/json/Json.java:57-59 | true iff `get` finds a value for the key |
| JsonObjects.Json.KeySet | src/main/java/snake2d/util/file/json/Json.java:71-73 | holds exactly the keys `containsKey` accepts |
| JsonObjects.Json.Size | src/main/java/snake2d/util/file/json/Json.java:78-80 | the number of keys in `keySet()` |
| JsonObjects.Json.IsEmpty | src/main/java/snake2d/util/file/json/Json.java:78-87 | `isEmpty()` iff `size() == 0` |
| JsonObjects.Json.Clear | src/main/java/snake2d/util/file/json/Json.java:92-94 | after `clear()` the map is empty, its size is 0 and it contains no key |
| JsonGrammar.Describe | src/main/java/snake2d/util/file/json/exception/JsonParseException.java:12-22 | the exception message starts with the error's own message; `DescribeReadsBack` states the rest |
| JsonGrammar.Track | src/main/java/snake2d/util/file/json/JsonParser.java:511-526 | the line and column reached after n characters are 1-based |
| JsonGrammar.Advance | src/main/java/snake2d/util/file/json/JsonParser.java:511-526 | one `consume` moves one character. A newline increments the line and resets the column to 1; any other character increments the column. Positions stay consistent with the text |
| JsonGrammar.SkipWs | src/main/java/snake2d/util/file/json/JsonParser.java:456-472 | whitespace skipping stays within the content, and stops at the end or at a character that is neither whitespace nor the start of `**` |
| JsonGrammar.Comment | src/main/java/snake2d/util/file/json/JsonParser.java:477-496 | a comment consumes at least its `**` and never passes the end |
| JsonGrammar.CommentRest | src/main/java/snake2d/util/file/json/JsonParser.java:483-495 | the comment body loop stays within the content and keeps positions consistent |
| JsonGrammar.StringLiteral | src/main/java/snake2d/util/file/json/JsonParser.java:234-266 | a string literal either fails inside the content or consumes at least one character |
| JsonGrammar.StringChars | src/main/java/snake2d/util/file/json/JsonParser.java:240-265 | the body loop of a string literal stays within the content and makes progress when it succeeds |
| JsonGrammar.KeyRun | src/main/java/snake2d/util/file/json/JsonParser.java:170-178 | the unquoted-key loop stays within the content and keeps positions consistent |
| JsonGrammar.MakeKey | src/main/java/snake2d/util/file/json/JsonParser.java:163-185 | building a key from text succeeds iff the text is not blank, giving a key with exactly that text; otherwise "Error while building key" at the current line and column, caused by "Key cannot be empty" |
| JsonGrammar.Key | src/main/java/snake2d/util/file/json/JsonParser.java:160-186 | a key either fails inside the content or consumes at least one character |
| JsonGrammar.Expect | src/main/java/snake2d/util/file/json/JsonParser.java:444-450 | `expectString` succeeds iff the content spells the rest of the expected word, and then consumes exactly it; otherwise "Expected '<word>'" |
| JsonGrammar.Boolean | src/main/java/snake2d/util/file/json/JsonParser.java:422-432 | `parseBoolean` succeeds iff the content spells `true` or `false` there, giving true for `true` and false for `false` and consuming exactly the word. At a character other than `t` or `f` it fails with "Expected 'true' or 'false'"; a misspelt word fails with "Expected 'true'" or "Expected 'false'" |
| JsonGrammar.Null | src/main/java/snake2d/util/file/json/JsonParser.java:437-439 | succeeds iff the content spells `null` there, yielding the NULL value and consuming exactly those four characters; otherwise "Expected 'null'" |
| JsonGrammar.Digits | src/main/java/snake2d/util/file/json/JsonParser.java:372-374 | the digit loop consumes the maximal run of digits and nothing else |
| JsonGrammar.ParseInt | src/main/java/snake2d/util/file/json/JsonParser.java:412-416 | only a non-empty lexeme converts to an int32 |
| JsonGrammar.Fraction | src/main/java/snake2d/util/file/json/JsonParser.java:377-388 | the fraction is reported present iff characters were consumed |
| JsonGrammar.Exponent | src/main/java/snake2d/util/file/json/JsonParser.java:391-406 | the exponent is reported present iff characters were consumed |
| JsonGrammar.Number | src/main/java/snake2d/util/file/json/JsonParser.java:358-417 | a number either fails inside the content or consumes at least one character |
| JsonGrammar.NumberValue | src/main/java/snake2d/util/file/json/JsonParser.java:408-416 | conversion of the lexeme does not move the cursor. It succeeds iff the number is a double or `Integer.parseInt` accepts the lexeme; otherwise "Invalid number format: <lexeme>" at the current line and column, caused by the NumberFormatException |
| JsonGrammar.Value | src/main/java/snake2d/util/file/json/JsonParser.java:191-229 | a value either fails inside the content or consumes at least one character |
| JsonGrammar.ValueAt | src/main/java/snake2d/util/file/json/JsonParser.java:195-225 | the dispatch on the first character stays within the content and makes progress |
| JsonGrammar.NestedObject | src/main/java/snake2d/util/file/json/JsonParser.java:199-209 | a nested object stays within the content and makes progress |
| JsonGrammar.Entries | src/main/java/snake2d/util/file/json/JsonParser.java:99-155 | the entry loop stays within the content and never drops a key it has already read |
| JsonGrammar.Entry | src/main/java/snake2d/util/file/json/JsonParser.java:119-132 | one entry stays within the content and keeps every earlier key |
| JsonGrammar.AfterEntry | src/main/java/snake2d/util/file/json/JsonParser.java:134-151 | the separator step stays within the content and keeps every earlier key |
| JsonGrammar.Array | src/main/java/snake2d/util/file/json/JsonParser.java:271-310 | an array either fails inside the content or consumes at least one character |
| JsonGrammar.Elements | src/main/java/snake2d/util/file/json/JsonParser.java:285-309 | each loop round appends at least one element and keeps the earlier ones in order |
| JsonGrammar.AfterElement | src/main/java/snake2d/util/file/json/JsonParser.java:288-306 | the separator step keeps the elements read so far as a prefix |
| JsonGrammar.Element | src/main/java/snake2d/util/file/json/JsonParser.java:316-353 | an array element either fails inside the content or consumes at least one character |
| JsonGrammar.Parse | src/main/java/snake2d/util/file/json/JsonParser.java:51-94 | a document that parses is consumed to its very end; errors lie within the content |
| JsonGrammar.Finish | src/main/java/snake2d/util/file/json/JsonParser.java:76-93 | the closing checks consume the rest of the content and return the object unchanged |
| JsonGrammar.Peek | src/main/java/snake2d/util/file/json/JsonParser.java:501-506 | definition: the current character, or NUL at the end of the content |
| JsonGrammar.IsWhitespace | src/main/java/snake2d/util/file/json/JsonParser.java:456-472 | definition: the characters `Character.isWhitespace` accepts |
| JsonGrammarProperties.TrackCountsLines | src/main/java/snake2d/util/file/json/JsonParser.java:511-526 | after n characters the line is 1 + the number of newlines read, and the column is 1 + the length of the last line |
| JsonGrammarProperties.NatToStringReadsBack | src/main/java/snake2d/util/file/json/exception/JsonParseException.java:12-22 | the digits written for a line or column number are all digits and read back as that number |
| JsonGrammarProperties.IntToStringReadsBack | src/main/java/snake2d/util/file/json/exception/JsonParseException.java:12-22 | `Integer.parseInt` reads back every int32 as `%d` writes it |
| JsonGrammarProperties.DescribeReadsBack | src/main/java/snake2d/util/file/json/exception/JsonParseException.java:12-22 | the exception message is the message, then " (line L, column C)" where L and C read back as the error's line and column |
| JsonGrammarProperties.ParseErrorPosition | src/main/java/snake2d/util/file/json/JsonParser.java:58-94 | every parse error reports the line and column of the place in the text where it was raised |
| JsonGrammarProperties.SkipWsIdempotent | src/main/java/snake2d/util/file/json/JsonParser.java:456-472 | skipping whitespace twice is the same as once |
| JsonGrammarProperties.SkipWsStopsAtContent | src/main/java/snake2d/util/file/json/JsonParser.java:456-472 | at a character that is not whitespace and not `**`, skipping whitespace does nothing (so a lone `*` is not a comment) |
| JsonGrammarProperties.CommentRestEndsLine | src/main/java/snake2d/util/file/json/JsonParser.java:483-495 | a comment ends just after the first newline, or at a final `}`, a NUL or the end of the content; nothing in between is a newline |
| JsonGrammarProperties.KeyRunIsMaximalRun | src/main/java/snake2d/util/file/json/JsonParser.java:170-178 | an unquoted key is exactly the maximal run of key characters (letters, digits, `_`, `¤`, `-`, `.`) |
| JsonGrammarProperties.UnquotedKey | src/main/java/snake2d/util/file/json/JsonParser.java:160-186 | a key starting with a letter, digit, `_` or `¤` is that run of characters, and is never an error |
| JsonGrammarProperties.KeyNeedsStart | src/main/java/snake2d/util/file/json/JsonParser.java:160-186 | at a character that is neither `"` nor a key start, the key fails with "Error while building key" caused by "Expected key", both at that character |
| JsonGrammarProperties.QuotedKey | src/main/java/snake2d/util/file/json/JsonParser.java:160-186 | at a `"` the key is the string literal made a key, so it succeeds iff the literal's text is not blank; a literal that fails is wrapped in "Error while building key" at the literal's error position |
| JsonGrammarProperties.QuotedText | src/main/java/snake2d/util/file/json/JsonParser.java:234-266 | a string literal that parses ends at a `"` and stands for the decoding of the characters between its quotes |
| JsonGrammarProperties.StringCharsDecodes | src/main/java/snake2d/util/file/json/JsonParser.java:240-265 | a parsed string literal is the decoding of the characters between the quotes, with `\n \t \r \\ \"` translated and any other escaped character kept |
| JsonGrammarProperties.StringCharsReadsLiteral | src/main/java/snake2d/util/file/json/JsonParser.java:240-265 | conversely, any well-formed literal body followed by `"` parses to its decoding and ends after the quote |
| JsonGrammarProperties.UnterminatedLiteral | src/main/java/snake2d/util/file/json/JsonParser.java:241-265 | a literal with no closing quote ahead is an error: "Unterminated string" or "Unexpected end of file inside string" |
| JsonGrammarProperties.FractionShape | src/main/java/snake2d/util/file/json/JsonParser.java:377-388 | without a `.` there is no fraction and nothing is consumed; `.` and a digit give the `.` and the maximal run of digits after it; `.` without a digit fails with "Expected digit after decimal point" just after the `.` |
| JsonGrammarProperties.ExponentShape | src/main/java/snake2d/util/file/json/JsonParser.java:391-406 | without `e`/`E` there is no exponent and nothing is consumed; otherwise the letter, an optional `+`/`-` and the maximal run of digits after them; no digit there fails with "Expected digit in exponent" at that place |
| JsonGrammarProperties.NumberParts | src/main/java/snake2d/util/file/json/JsonParser.java:358-406 | a successful number is an optional `-`, a maximal run of at least one digit, then the fraction and exponent parts, converted from exactly the text consumed |
| JsonGrammarProperties.NumberNeedsDigits | src/main/java/snake2d/util/file/json/JsonParser.java:358-406 | a number fails with "Expected digit" after the optional `-` when no digit follows, and with the fraction's or the exponent's error when those lack a digit |
| JsonGrammarProperties.NumberValueShape | src/main/java/snake2d/util/file/json/JsonParser.java:408-416 | the value is DOUBLE holding the lexeme when a fraction or exponent was seen, and otherwise INTEGER holding the int32 value of the lexeme |
| JsonGrammarProperties.NumberMarks | src/main/java/snake2d/util/file/json/JsonParser.java:358-416 | the tag is DOUBLE iff the lexeme contains `.`, `e` or `E` |
| JsonGrammarProperties.NumberLexeme | src/main/java/snake2d/util/file/json/JsonParser.java:358-417 | the value built is the conversion of exactly the characters consumed |
| JsonGrammarProperties.ParseIntOfDigits | src/main/java/snake2d/util/file/json/JsonParser.java:412-416 | `Integer.parseInt` converts a digit string iff its value fits in int32 (for a negative number, down to -2^31), giving that value; `NumberValue` turns the refusal into "Invalid number format" |
| JsonGrammarProperties.ValueErrorsAreWrapped | src/main/java/snake2d/util/file/json/JsonParser.java:226-228 | every error out of `parseValue` is "Error while building value" |
| JsonGrammarProperties.LabelledElement | src/main/java/snake2d/util/file/json/JsonParser.java:316-353 | a `KEY: value` element yields a `JsonArrayValue` with that key and value |
| JsonGrammarProperties.EntryNeedsColon | src/main/java/snake2d/util/file/json/JsonParser.java:120-126 | a key not followed by `:` fails with "Expected ':' after key '<key>'" |
| JsonGrammarProperties.EntrySeparators | src/main/java/snake2d/util/file/json/JsonParser.java:134-151 | between entries the comma is optional; a `}` right after a comma ends a braced object, otherwise the loop goes on after the comma; a `}`, a NUL or the end of the text ends the loop |
| JsonGrammarProperties.RepeatedKeyReplaces | src/main/java/snake2d/util/file/json/JsonParser.java:119-132 | an entry stores its value under its key, replacing an earlier value for the same key (the size grows only for a new key). At the end of the object that key holds this value, unless a later entry of the object sets the key again, whose value then wins |
| JsonGrammarProperties.EntriesOnto | src/main/java/snake2d/util/file/json/JsonParser.java:99-155 | reading the entries onto the entries read before is the same as reading them onto nothing and then letting them override the earlier ones: the same failure, or the union with later entries winning |
| JsonGrammarProperties.EntryOnto | src/main/java/snake2d/util/file/json/JsonParser.java:119-151 | the same for one entry and the entries after it |
| JsonGrammarProperties.AfterEntryOnto | src/main/java/snake2d/util/file/json/JsonParser.java:134-151 | the same for the separator step after an entry |
| JsonGrammarProperties.BraceOutsideBrackets | src/main/java/snake2d/util/file/json/JsonParser.java:107-112 | outside brackets, a `}` where an entry should start fails with "Unexpected character '}'" at it |
| JsonGrammarProperties.EmptyArray | src/main/java/snake2d/util/file/json/JsonParser.java:272-283 | `[` followed (after whitespace) by `]` is the empty array |
| JsonGrammarProperties.ElementSeparators | src/main/java/snake2d/util/file/json/JsonParser.java:288-306 | after an element: `]` closes; `,` then `]` closes (trailing comma); `}` gives "Expected closing ']' before '}'"; anything else gives "Expected ',' between array elements" |
| JsonGrammarProperties.FinishWithBrace | src/main/java/snake2d/util/file/json/JsonParser.java:78-91 | with a root `{`, the document must end with `}` followed only by blanks |
| JsonGrammarProperties.FinishErrors | src/main/java/snake2d/util/file/json/JsonParser.java:76-91 | with a root `{` and no `}` after the entries: "Expected '}' at the end of the file"; non-blank text after the root: "Unexpected characters after parsing finished" |
| JsonGrammarProperties.ParseParts | src/main/java/snake2d/util/file/json/JsonParser.java:58-94 | a document is parsed as: blanks, an optional `{`, the entries (braced iff the `{` was there), then the closing checks |
| JsonGrammarProperties.RootBraceIsClosed | src/main/java/snake2d/util/file/json/JsonParser.java:66-84 | a parsed document whose first non-blank character is `{` contains a closing `}` followed only by blanks |
| JsonGrammarProperties.UnbracedRootRejectsBrace | src/main/java/snake2d/util/file/json/JsonParser.java:107-112 | a document whose first non-blank character is `}` fails with "Unexpected character '}'"; `BraceOutsideBrackets` states this anywhere an entry should start |
| JsonGrammarProperties.ParsedDocumentIsConsumed | src/main/java/snake2d/util/file/json/JsonParser.java:86-91 | after a successful parse no non-blank text is left over |
| JsonParsers.JsonParser.constructor | src/main/java/snake2d/util/file/json/JsonParser.java:22-25 | a new parser has empty content and zeroed position, line and column |
| JsonParsers.JsonParser.ParseLines | src/main/java/snake2d/util/file/json/JsonParser.java:30-39 | with the file's lines given, the content is each line followed by a newline. The result is a fresh `Json` holding exactly the parsed object, or the grammar's error |
| JsonParsers.JsonParser.Parse | src/main/java/snake2d/util/file/json/JsonParser.java:51-94 | the result is a fresh `Json` holding exactly the object the grammar parses from the string, or the grammar's error |
| JsonParsers.JsonParser.Peek | src/main/java/snake2d/util/file/json/JsonParser.java:501-506 | the current character, or NUL at the end |
| JsonParsers.JsonParser.Consume | src/main/java/snake2d/util/file/json/JsonParser.java:511-526 | at the end: IllegalStateException and nothing changes. Otherwise it returns the current character and moves one step, with line and column updated as in `Advance` |
| JsonParsers.JsonParser.SkipWhitespace | src/main/java/snake2d/util/file/json/JsonParser.java:456-472 | the loop ends where `SkipWs` says |
| JsonParsers.JsonParser.ParseComment | src/main/java/snake2d/util/file/json/JsonParser.java:477-496 | the loop ends where `Comment` says |
| JsonParsers.JsonParser.ParseStringLiteral | src/main/java/snake2d/util/file/json/JsonParser.java:234-266 | result and final position are those of `StringLiteral` |
| JsonParsers.JsonParser.ParseKey | src/main/java/snake2d/util/file/json/JsonParser.java:160-186 | result and final position are those of `Key` |
| JsonParsers.JsonParser.MakeKey | src/main/java/snake2d/util/file/json/JsonParser.java:163-185 | result is that of the grammar's `MakeKey` |
| JsonParsers.JsonParser.ParseValue | src/main/java/snake2d/util/file/json/JsonParser.java:191-229 | result and final position are those of `Value` |
| JsonParsers.JsonParser.ParseValueAt | src/main/java/snake2d/util/file/json/JsonParser.java:195-225 | result and final position are those of `ValueAt` |
| JsonParsers.JsonParser.ParseObject | src/main/java/snake2d/util/file/json/JsonParser.java:99-155 | the loop fills a fresh `Json` with exactly the map `Entries` reads, and ends where `Entries` ends |
| JsonParsers.JsonParser.ParseEntry | src/main/java/snake2d/util/file/json/JsonParser.java:119-132 | one round of the loop up to the separator: the key, `:`, the value and `json.put`. Fails with the error and position of `Entry`, or else leaves `Entry`'s remaining step (`AfterEntry` from the new cursor over the updated map), having consumed at least one character |
| JsonParsers.JsonParser.ParseArray | src/main/java/snake2d/util/file/json/JsonParser.java:271-310 | result and final position are those of `Array` |
| JsonParsers.JsonParser.ParseArrayElement | src/main/java/snake2d/util/file/json/JsonParser.java:316-353 | result and final position are those of `Element`, the saved position, line and column being restored exactly when the element is not `KEY: value` |
| JsonParsers.JsonParser.TryKeyedElement | src/main/java/snake2d/util/file/json/JsonParser.java:326-343 | the `try` block: a success is exactly the element `Element` reads from the saved cursor, and a failure (which the `catch` receives) means that element is the plain value read from the saved cursor |
| JsonParsers.JsonParser.ReadDigits | src/main/java/snake2d/util/file/json/JsonParser.java:372-374 | the loop ends where `Digits` says |
| JsonParsers.JsonParser.ReadFraction | src/main/java/snake2d/util/file/json/JsonParser.java:377-388 | result and final position are those of `Fraction` |
| JsonParsers.JsonParser.ReadExponent | src/main/java/snake2d/util/file/json/JsonParser.java:391-406 | result and final position are those of `Exponent` |
| JsonParsers.JsonParser.ParseNumber | src/main/java/snake2d/util/file/json/JsonParser.java:358-417 | result and final position are those of `Number` |
| JsonParsers.JsonParser.ParseBoolean | src/main/java/snake2d/util/file/json/JsonParser.java:422-432 | result and final position are those of `Boolean` |
| JsonParsers.JsonParser.ParseNull | src/main/java/snake2d/util/file/json/JsonParser.java:437-439 | result and final position are those of `Expect` with "null" |
| JsonParsers.JsonParser.ExpectString | src/main/java/snake2d/util/file/json/JsonParser.java:444-450 | result and final position are those of `Expect` |
| JsonMergers.MergeMaps | src/main/java/snake2d/util/file/json/JsonMerger.java:59-78 | the keys of a merge are the union of both key sets |
| JsonMergers.MergeInto | src/main/java/snake2d/util/file/json/JsonMerger.java:59-78 | after the loop over the source keys, the target holds `MergeMaps` of its old contents and the source |
| JsonMergers.MergeNested | src/main/java/snake2d/util/file/json/JsonMerger.java:71-76 | two nested objects merge into a new object value: the merge of the old nested map with the new one |
| JsonMergers.Merge | src/main/java/snake2d/util/file/json/JsonMerger.java:21-35 | a fresh `Json`: empty for a null argument. Otherwise it is the left-to-right merge of the non-null inputs |
| JsonMergers.MergeList | src/main/java/snake2d/util/file/json/JsonMerger.java:44-50 | the same result as `merge` of the same elements |
| JsonMergers.ShallowMerge | src/main/java/snake2d/util/file/json/JsonMerger.java:87-103 | a fresh `Json`: empty for a null argument. Otherwise it is the left-to-right, later-wins union of the non-null inputs, with no recursion |
| JsonMergers.PutAll | src/main/java/snake2d/util/file/json/JsonMerger.java:95-99 | copying every entry of a source puts exactly the map union `target + source` (source wins) |
| JsonMergers.MergedPointwise | src/main/java/snake2d/util/file/json/JsonMerger.java:59-78 | a map that agrees with the merge key by key is the merge |
| JsonMergers.MergeByKey | src/main/java/snake2d/util/file/json/JsonMerger.java:64-77 | per key: present iff in either input; a target-only key keeps its value; the source value wins unless both are objects; two objects are merged recursively |
| JsonMergers.MergeIntoEmpty | src/main/java/snake2d/util/file/json/JsonMerger.java:59-78 | merging into an empty object copies the source |
| JsonMergers.MergeEmptySource | src/main/java/snake2d/util/file/json/JsonMerger.java:59-78 | merging an empty source changes nothing |
| JsonMergers.MergeSelf | src/main/java/snake2d/util/file/json/JsonMerger.java:59-78 | merging an object with itself gives the same object, when its nested objects are plain values |
| JsonMergers.DeepIsShallowWithoutNestedConflicts | src/main/java/snake2d/util/file/json/JsonMerger.java:59-103 | when no key holds an object on both sides, deep merge equals shallow merge |
| JsonMergers.MergeAllKeys | src/main/java/snake2d/util/file/json/JsonMerger.java:21-35 | the key set of a merge of many inputs is the union of their key sets |
| JsonMergers.MergeOneKey | src/main/java/snake2d/util/file/json/JsonMerger.java:64-77 | merging two one-key maps with the same key gives that key's merged entry |
| JsonMergers.MergeTwoKeys | src/main/java/snake2d/util/file/json/JsonMerger.java:64-77 | merging two one-key maps with different keys gives both entries |
| JsonMergers.MergeLeftGrouping | src/main/java/snake2d/util/file/json/JsonMerger.java:28-32 | for a concrete example, merging (a, b) first and then c gives c's value |
| JsonMergers.MergeRightGrouping | src/main/java/snake2d/util/file/json/JsonMerger.java:28-32 | for the same example, merging a with (b, c) keeps a's nested key as well |
| JsonMergers.MergeIsNotAssociative | src/main/java/snake2d/util/file/json/JsonMerger.java:28-32 | the pairwise merge is not associative, so the left-to-right order of `merge` matters |
| JsonConfigs.Catch | src/main/java/snake2d/config/JsonConfig.java:168-172 | a failed accessor becomes ConfigException "Value under key 'k' is not ..." with the accessor's exception as cause; a success passes through |
| JsonConfigs.JsonConfig.Lookup | src/main/java/snake2d/util/file/json/Json.java:50-52 | a blank key fails as `new JsonKey` does; otherwise the value under the key, if present |
| JsonConfigs.JsonConfig.Require | src/main/java/snake2d/config/JsonConfig.java:130-132 | succeeds iff the key is non-blank and present. A missing key gives ConfigException "Key does not exist: k" |
| JsonConfigs.JsonConfig.Has | src/main/java/snake2d/config/JsonConfig.java:108-110 | true iff the key is present, even with a null value; a blank key raises IllegalArgumentException |
| JsonConfigs.JsonConfig.HasValue | src/main/java/snake2d/config/JsonConfig.java:118-120 | true iff the key is present and its value is not NULL |
| JsonConfigs.JsonConfig.IsNullAt | src/main/java/snake2d/config/JsonConfig.java:471-476 | true iff the key is present with a NULL value; false for a missing key |
| JsonConfigs.JsonConfig.Size | src/main/java/snake2d/config/JsonConfig.java:492-494 | the number of keys |
| JsonConfigs.JsonConfig.IsEmpty | src/main/java/snake2d/config/JsonConfig.java:501-503 | empty iff the size is 0 |
| JsonConfigs.JsonConfig.Json | src/main/java/snake2d/config/JsonConfig.java:129-138 | succeeds iff the key holds a JSON object, and then gives a configuration over exactly that object. Otherwise "Key does not exist" or "... is not a JSON object" |
| JsonConfigs.JsonConfig.JsonOpt | src/main/java/snake2d/config/JsonConfig.java:146-155 | present iff the key holds a JSON object; empty on a missing key or a tag mismatch |
| JsonConfigs.JsonConfig.Text | src/main/java/snake2d/config/JsonConfig.java:164-173 | succeeds iff the key holds a STRING, returning it; otherwise "Key does not exist" or "... is not a string" |
| JsonConfigs.JsonConfig.TextOr | src/main/java/snake2d/config/JsonConfig.java:182-191 | the stored string if the key holds one, else exactly the default |
| JsonConfigs.JsonConfig.TextOpt | src/main/java/snake2d/config/JsonConfig.java:199-208 | present iff the key holds a STRING, with that string |
| JsonConfigs.JsonConfig.Integer | src/main/java/snake2d/config/JsonConfig.java:217-226 | succeeds iff the key holds an INTEGER, returning it; otherwise "Key does not exist" or "... is not an integer" |
| JsonConfigs.JsonConfig.IntegerOr | src/main/java/snake2d/config/JsonConfig.java:235-244 | the stored integer if the key holds one, else exactly the default |
| JsonConfigs.JsonConfig.IntegerOpt | src/main/java/snake2d/config/JsonConfig.java:252-261 | present iff the key holds an INTEGER, with that integer |
| JsonConfigs.JsonConfig.Decimal | src/main/java/snake2d/config/JsonConfig.java:270-279 | succeeds iff the key holds a DOUBLE or an INTEGER (widened); otherwise "Key does not exist" or "... is not a floating-point number" |
| JsonConfigs.JsonConfig.DecimalOr | src/main/java/snake2d/config/JsonConfig.java:288-297 | the stored (or widened) number if there is one, else exactly the default |
| JsonConfigs.JsonConfig.DecimalOpt | src/main/java/snake2d/config/JsonConfig.java:305-314 | present iff the key holds a DOUBLE or an INTEGER, with the (widened) number |
| JsonConfigs.JsonConfig.Bool | src/main/java/snake2d/config/JsonConfig.java:323-332 | succeeds iff the key holds a BOOLEAN, returning it; otherwise "Key does not exist" or "... is not a boolean value" |
| JsonConfigs.JsonConfig.BoolOr | src/main/java/snake2d/config/JsonConfig.java:341-350 | the stored boolean if the key holds one, else exactly the default |
| JsonConfigs.JsonConfig.BoolOpt | src/main/java/snake2d/config/JsonConfig.java:358-367 | present iff the key holds a BOOLEAN, with that boolean |
| JsonConfigs.JsonConfig.Array | src/main/java/snake2d/config/JsonConfig.java:376-385 | succeeds iff the key holds an ARRAY or a LIST, returning its elements in order; otherwise "Key does not exist" or "... is not an array" |
| JsonConfigs.JsonConfig.List | src/main/java/snake2d/config/JsonConfig.java:394-403 | succeeds iff the key holds a LIST or an ARRAY, returning its elements in order; otherwise "Key does not exist" or "... is not a list" |
| JsonConfigs.JsonConfig.TextList | src/main/java/snake2d/config/JsonConfig.java:412-423 | `list(key)`'s error, or the strings of its elements in the same order and number. The first non-string element gives "Array element under key 'k' is not a string" |
| JsonConfigs.JsonConfig.IntegerList | src/main/java/snake2d/config/JsonConfig.java:432-443 | the same for integers: "... is not an integer" on the first non-integer |
| JsonConfigs.JsonConfig.JsonList | src/main/java/snake2d/config/JsonConfig.java:452-463 | the same for nested objects, as configurations over them: "... is not a JSON object" on the first other element |
| JsonConfigs.GetterFormsAgree | src/main/java/snake2d/config/JsonConfig.java:164-367 | for every non-blank key, the plain getter succeeds iff the Opt getter is present. Then both give the stored value and the default getter ignores its default; otherwise the default getter returns exactly its default |
| JsonConfigs.MissingKeyIsMissing | src/main/java/snake2d/config/JsonConfig.java:108-476 | for a missing key `has`, `hasValue` and `isNull` are false, and every throwing getter fails with "Key does not exist: k" |
| JsonConfigs.NullIsPresentButNoValue | src/main/java/snake2d/config/JsonConfig.java:108-476 | a key holding null is present, has no value, is null, and every typed getter fails on it |
| JsonConfigs.NestedConfigReadsNestedObject | src/main/java/snake2d/config/JsonConfig.java:129-138 | a sub-configuration reads exactly the nested object, key by key |
| JsonConfigs.MergedConfigPrefersLater | src/main/java/snake2d/config/JsonConfig.java:108-110 | over a merged configuration: a key the later input lacks reads as in the earlier one; a key the later input holds with a non-object value reads as in the later one; a key is present iff it is present in either input |
| JsonConfigs.FromString | src/main/java/snake2d/config/JsonConfig.java:85-92 | a configuration over exactly the object the grammar parses; a parse error becomes ConfigException "Error parsing content string" with the parse error as cause |

## Left out

- File input is not modelled. This covers `JsonParser.parse(Path)`'s file reading, `parse(File)`, and the
  `JsonConfig` constructors that take a Path, a File or a list of paths. `ParseLines` takes as a parameter the lines
  that `parse(Path)` reads one by one with `BufferedReader.readLine`.
- `init/paths/*` and `util/text/D.java` are not part of this model. They do filesystem probing, reflection and
  logging.
- Sigil-driven merge strategies and `MergeStrategy.java` are not modelled. The merger and parser have no such
  logic, and `parseKey` rejects those characters as key starts.
- Floating point is not modelled. A DOUBLE payload is its decimal lexeme, or the widened integer (`Widened`) for
  `asDouble` on an INTEGER. `Double.parseDouble` never fails on the lexemes the parser produces, so its failure path
  is not modelled.
- `Character.isLetterOrDigit` and `Character.isDigit` are modelled on ASCII letters and digits only.
  `Character.isWhitespace` is modelled by the list of characters it accepts. Java `char`s are
  UTF-16 code units, while Dafny `char`s are Unicode scalar values, so surrogate pairs are not modelled.
- `toString` of `JsonValue` and `Json` is left out, because its output depends on `HashMap` iteration order.
  `JsonKey.toString` is the key text (`GetKey`).
- Equality by identity is not modelled:
  - `Json` has no `equals`, so Java compares it by identity;
  - `Object[]` payloads are compared by identity inside `JsonValue.equals`;
  - the model compares contents throughout.
- Nested objects are values, as are `getRawJson()` and the `Json` held by a JSON_OBJECT value. Aliasing between a
  `JsonConfig` and its sub-configurations, or between a merged result and its inputs, is therefore not modelled.
  In particular, "inputs are not modified by merge" holds by construction rather than as a stated property.
  `getRawJson()` is the field `json` of `JsonConfig`.
- Java `null` string keys passed to the `JsonConfig` getters are not modelled: strings are never null here. Null
  keys and values passed to `Json.put` are modelled as `None`.
- ClassCastException and ArrayStoreException paths are not modelled. The model's `Object[]` and `List` arguments
  hold only `JsonValue` elements. Java accepts any `Object[]` as ARRAY and any `List` as LIST, so the
  `(JsonValue[])` casts of `asList` and `asArray`, the `toArray(new JsonValue[...])` copy of `asArray`, and the
  element loops of `JsonConfig`'s `textList`, `integerList` and `jsonList` can throw on other elements.
- ValueEquals: DOUBLE payloads are compared by the form the model keeps: the decimal lexeme, or the widened
  integer. Java's `Double.equals` compares the numbers, so `1.0` and `1.00` are equal there but not here, and so are
  a double converted from an INTEGER and a parsed `1.0`.
- Exception cause chains are kept only one level deep:
  - a `ConfigException` records its direct cause;
  - a re-wrapped parse error records the wrapping message at the inner error's line and column, as
    `JsonParseException`'s constructor receives them.
- `JsonParser.parseNumber`'s StringBuilder is modelled as the slice of content between the start and the end of
  the number. The two hold the same characters.
- `JsonMerger`'s private constructor is not modelled; it only prevents instantiation.
- The private `JsonConfig(Json)` constructor is the datatype constructor `JsonConfig`. It needs no contract, and the
  parser it creates and never uses is dropped.
- A blank key passed to any `JsonConfig` getter raises IllegalArgumentException from `new JsonKey`, which
  `JsonConfig` does not catch. The model returns that exception as the error value `Uncaught` (`BLANK_KEY`), so
  the exception's propagation through the caller's stack is not modelled.
