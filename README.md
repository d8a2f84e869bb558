# dumbQL in Dafny

dumbQL is a toy database with two independent parts, and this project models the core of each.

**The JSON collection engine** (TypeScript) exists as two near-identical copies: the free functions of `src/dumbql.ts` and the methods of `class Document` in `src/document.ts`.

- A database file holds a catalog: a map from collection ("document") name to `{schema, data?}`.
- `data` is an ordered list of records, and each record carries an `_id`.
- Every operation loads the whole catalog, changes it in memory and writes it back:
  - `createDocument` (re)creates a collection;
  - `insertIntoDocument` type-checks the fields and appends a record with `_id = length + 1`;
  - `selectFromDocument` filters by a where clause of strict equalities;
  - `deleteFromDocument` empties the collection, or splices out each match at index `_id - 1`;
  - `updateDocument` splices `{...old, ...patch}` in at index `_id - 1` for each match.

**The lexer** (Go, `1.0/lib/scanner.go`) is a single-pass scanner. It turns a query string into tokens: punctuation, one- and two-byte operators, `//` comments, strings, numbers, identifiers and keywords.

Layout:

- `wrappers.dfy` (`Wrappers`) — Option and Result.
- `js_values.dfy` (`JsValues`) — JavaScript values:
  - `typeof`;
  - `===`;
  - the ToNumber coercion behind `_id - 1`, with StringToNumber as section 7.1.4.1 of ECMA-262 defines it.
- `array_splice.dfy` (`ArraySplice`) — `Array.prototype.splice(start, 1[, item])` and `arr[i]`.
- `records.dfy` (`Records`) — the where-matcher, `filter` and the spread merge.
- `catalogs.dfy` (`Catalogs`) — the catalog and the in-memory steps of each operation:
  - the type-check loop, the record built for a push, and the two splice loops;
  - each whole operation as a function of the loaded catalog.
- `dumbql.dfy` (`DumbQL`) — `src/dumbql.ts`:
  - each operation is a method from the loaded catalog to the stored one;
  - a throw is a `Failure`, and it stores nothing.
- `documents.dfy` (`Documents`) — `src/document.ts` and `DB.ALLOWED_TYPES` from `src/db.ts`:
  - `Document` is a class whose methods update a `DatabaseFile` object, which stands for the database the methods read and write (taken to be a JSON catalog file; see "## Left out").
- `id_positions.dfy` (`IdPositions`) — when locating records by `_id - 1` is right:
  - the intended delete and update, defined by identity;
  - the concrete inputs on which the code departs from them.
- `tokens.dfy` (`Tokens`) — the `Token` record of `1.0/lib/token.go`.
- `lexer.dfy` (`Lexer`):
  - `ScanOne` (one `scanToken`) and `Lex` (all of `scanTokens`) as functions;
  - their properties;
  - the class `Scanner`, whose methods are proved to perform exactly those steps.
- `value_receivers.dfy` (`ValueReceivers`) — `scanTokens` as written, with value receivers:
  - what each pass of the loop does as far as its caller can tell: it returns, hangs in an inner loop, or panics;
  - that the loop never ends on a non-empty source.

Some behaviour of the code that is easy to misread, and that the model follows:

- An update whose where clause is `{}` matches every record: the code only checks that `where` is given (src/dumbql.ts:241).
- A patch's `_id` overrides the record's, because the patch is spread last (src/dumbql.ts:253).
- select, delete and update on a missing collection throw the TypeError from reading `doc.data` (src/dumbql.ts:136, 179, 235). The explicit existence check after that read is never reached.

## Model

| member | source | states |
|---|---|---|
| JsValues.TypeOf | src/dumbql.ts:97 | `typeof` gives one of the eight JavaScript tags, never "array"; it is "object" exactly for `null`, objects and arrays |
| JsValues.StrictEquals | src/dumbql.ts:148 | `===` holds exactly when the two values are the same value and not NaN |
| JsValues.StrictEqualsSameType | src/dumbql.ts:148 | strictly equal values have the same `typeof` tag |
| JsValues.StringToNumber | src/dumbql.ts:196 | a string of only white space and line terminators (the empty string included) reads as 0 |
| JsValues.DecimalDigitsValue | src/dumbql.ts:196 | a non-empty run of decimal digits reads as its decimal value |
| JsValues.Padded | src/dumbql.ts:196 | leading and trailing white space never change the number a string reads as |
| JsValues.NegativeOne | src/dumbql.ts:196 | `"-1"` reads as -1: the sign is applied |
| JsValues.TwoAndAHalf | src/dumbql.ts:196 | `"2.5"` reads as 2.5: the fraction is kept |
| JsValues.HexLiteral | src/dumbql.ts:196 | `"0x1F"` reads as 31 |
| JsValues.ExponentLiteral | src/dumbql.ts:196 | `"1e3"` reads as 1000 |
| JsValues.NegativeInfinity | src/dumbql.ts:196 | `"-Infinity"` reads as the negative infinity |
| JsValues.TrailingText | src/dumbql.ts:196 | `"1a"` reads as NaN: text after the number makes it no literal |
| JsValues.ToNumber | src/dumbql.ts:196 | a number stays itself; `undefined`, plain objects and functions become NaN |
| JsValues.MinusOne | src/dumbql.ts:196 | `x - 1` is finite exactly when `x` is, and is one less; NaN and the infinities are kept |
| ArraySplice.Truncate | src/dumbql.ts:196 | the integer splice takes from a finite start truncates toward zero |
| ArraySplice.ActualStart | src/dumbql.ts:196 | splice starts at NaN→0, at a negative start counted from the end (not below 0), and at a start past the end clamped to the length |
| ArraySplice.SpliceRemove | src/dumbql.ts:196 | `splice(start, 1)` removes the element at the actual start when there is one, shifts the later elements down, and removes nothing at or past the end |
| ArraySplice.SpliceRemoveSubMultiset | src/dumbql.ts:196 | `splice(start, 1)` never adds an element: each value is left at most as often as the array held it |
| ArraySplice.SpliceReplace | src/dumbql.ts:254 | `splice(start, 1, item)` puts `item` at the actual start, keeps every other element, and appends when the start is at the end |
| ArraySplice.ElementAt | src/dumbql.ts:253 | `arr[n]` is an element exactly when `n` is a non-negative integral index below the length, and `undefined` otherwise |
| ArraySplice.ActualStartAtIndex | src/dumbql.ts:196 | at a valid index, splice starts exactly there |
| Records.Get | src/dumbql.ts:148 | `record[key]` is the stored value, or `undefined` for an absent key |
| Records.Matches | src/dumbql.ts:146-150 | a where clause holding NaN matches no record |
| Records.EmptyWhereMatchesAll | src/dumbql.ts:146-150 | an empty where clause matches every record |
| Records.MatchesIff | src/dumbql.ts:146-150 | a record matches exactly when it holds every where-value and none is NaN; an absent key never matches a present value |
| Records.MatchesSingleKey | src/dumbql.ts:146-150 | a one-key clause matches exactly when that value is strictly equal |
| Records.Filter | src/dumbql.ts:146-150 | the filter is never longer than the data |
| Records.FilterMembers | src/dumbql.ts:146-150 | the filtered records are exactly the matching ones of the input, never more of any one than the input has |
| Records.FilterConcat | src/dumbql.ts:146-150 | filtering keeps order: it distributes over concatenation |
| Records.FilterAllMatch | src/dumbql.ts:146-150 | when every record matches, filter returns the data unchanged |
| Records.FilterNoneMatch | src/dumbql.ts:146-150 | when no record matches, filter returns nothing |
| Records.Spread | src/dumbql.ts:253 | `{...undefined}` is empty and `{...r}` is `r` |
| Records.Merge | src/dumbql.ts:253 | `{...base, ...patch}` has the keys of both, with the patch's values winning |
| Records.MergeIdempotent | src/dumbql.ts:253 | merging the same patch twice is merging it once |
| Catalogs.RecordsOf | src/dumbql.ts:93 | the records a collection holds are its `data`, or none when it has no `data` |
| Catalogs.FieldTypesAllowed | src/dumbql.ts:95-104 | the empty record always passes the type check, and with an empty allowed list only the empty record does |
| Catalogs.IdIndex | src/dumbql.ts:196 | `data._id - 1` is NaN for a record without `_id`, and one less than a finite numeric `_id` |
| Catalogs.CheckFieldTypes | src/dumbql.ts:95-104 | the loop over the fields succeeds exactly when every field's `typeof` is in the allowed list |
| Catalogs.NewRecord | src/dumbql.ts:106-109 | the pushed record has the data's keys plus `_id`; `_id` is count + 1 unless the data has its own `_id`, which wins; the other fields are copied |
| Catalogs.RemoveAtIds | src/dumbql.ts:195-198 | one splice per matched record: the data never grows and loses at most one record per match |
| Catalogs.RemoveAtIdsSubMultiset | src/dumbql.ts:195-198 | the splices gain no record the data did not have |
| Catalogs.RemoveEach | src/dumbql.ts:195-198 | the forEach loop leaves exactly the result of the splices applied in order |
| Catalogs.MergeAtId | src/dumbql.ts:252-254 | one replacing splice keeps the length or appends one record |
| Catalogs.MergeAtIds | src/dumbql.ts:251-255 | update's splices never shrink the data, and grow it by at most one record per match |
| Catalogs.MergeEach | src/dumbql.ts:251-255 | the forEach loop leaves exactly the result of the merges spliced in, in order |
| Catalogs.WithRecords | src/dumbql.ts:200-201 | storing a collection's new data keeps its schema and every other collection |
| Catalogs.InsertResult | src/dumbql.ts:87-113 | insert fails exactly when the collection is missing or a field's type is not allowed, with the missing collection reported first; otherwise it appends exactly one record (`NewRecord`) after the unchanged old records, treating missing data as empty, and changes nothing else |
| Catalogs.SelectResult | src/dumbql.ts:135-158 | select fails exactly on a missing collection; without a where clause it yields every record, and with one, exactly the matching records in order |
| Catalogs.DeleteResult | src/dumbql.ts:178-210 | delete fails exactly on a missing collection; without a where clause the data becomes empty; with one, it is the splices' result, no longer than before and no shorter than before minus the matches; schema and other collections unchanged |
| Catalogs.UpdateResult | src/dumbql.ts:234-265 | update fails on a missing collection, and otherwise on a missing where clause; else it is the merges' result, no shorter than before, with schema and other collections unchanged |
| DumbQL.AllowedTypeTags | src/dumbql.ts:25 | the allowed list admits exactly the values that are not `undefined`, functions, bigints or symbols, and its "array" entry matches no value |
| DumbQL.InsertRefusal | src/dumbql.ts:87-104 | an insert is refused exactly when the collection is missing or some field is `undefined`, a function, a bigint or a symbol |
| DumbQL.CreateDocument | src/dumbql.ts:65 | the named entry becomes exactly `{schema}` with no records, whatever it held before; other collections are unchanged |
| DumbQL.InsertIntoDocument | src/dumbql.ts:82-113 | the type check and push compute `InsertResult` |
| DumbQL.SelectFromDocument | src/dumbql.ts:130-158 | the rows shown are `SelectResult` |
| DumbQL.DeleteFromDocument | src/dumbql.ts:173-210 | the filter and splice loop compute `DeleteResult` |
| DumbQL.UpdateDocument | src/dumbql.ts:229-265 | the filter and merge loop compute `UpdateResult` |
| Documents.DatabaseFile.constructor | src/db.ts:5 | the file holds the given catalog |
| Documents.Document.constructor | src/document.ts:9 | a document handle with its name, on the database file |
| Documents.Document.CreateDocument | src/document.ts:28-34 | the file's catalog gets the entry `{schema}` under the name, every other entry kept |
| Documents.Document.InsertIntoDocument | src/document.ts:52-83 | on success the file holds `InsertResult`'s catalog; on a throw the error is returned and the file is unchanged |
| Documents.Document.SelectFromDocument | src/document.ts:100-128 | the rows shown are `SelectResult` on the file's catalog, which is only read |
| Documents.Document.DeleteFromDocument | src/document.ts:143-180 | on success the file holds `DeleteResult`'s catalog; on a throw the file is unchanged |
| Documents.Document.UpdateDocument | src/document.ts:199-235 | on success the file holds `UpdateResult`'s catalog; on a throw the file is unchanged |
| IdPositions.InsertKeepsPositional | src/dumbql.ts:106-109 | as long as no record was deleted and no data carries `_id`, every `_id` is its 1-based position |
| IdPositions.RemoveMatching | src/dumbql.ts:195-197 | the intended delete is never longer than the data |
| IdPositions.RemoveMatchingMembers | src/dumbql.ts:195-197 | the intended delete keeps exactly the records that do not match |
| IdPositions.RemoveConcat | src/dumbql.ts:195-197 | the intended delete distributes over concatenation |
| IdPositions.RemoveAllKept | src/dumbql.ts:195-197 | the intended delete keeps data none of which matches |
| IdPositions.RemoveSingle | src/dumbql.ts:195-197 | with exactly one match, the intended delete removes just that record |
| IdPositions.FilterSingle | src/dumbql.ts:189-193 | with exactly one match, the filter yields just that record |
| IdPositions.DeleteSingleMatch | src/dumbql.ts:189-198 | with one match whose `_id` is its position, the splice removes exactly that record, as the intended delete does |
| IdPositions.PatchMatching | src/dumbql.ts:251-255 | the intended update merges the patch into exactly the matching records and keeps the length and the rest |
| IdPositions.PatchAt | src/dumbql.ts:251-255 | patching at a set of positions merges there and keeps everything else |
| IdPositions.MergeAtIndices | src/dumbql.ts:251-255 | when every matched `_id - 1` is an index, update's loop keeps the length and patches exactly those indices |
| IdPositions.TargetsOfFilter | src/dumbql.ts:245-252 | when every matching record's `_id` is its position, the matched `_id - 1` are indices naming exactly the matching positions |
| IdPositions.MatchedAt | src/dumbql.ts:252-253 | a matching record whose `_id` is its position is found at `_id - 1` |
| IdPositions.UpdatePositional | src/dumbql.ts:241-255 | when every matching record's `_id` is its position, whatever the other records' `_id`s, update gives the intended result: each match becomes `{...old, ...patch}` (the patch's `_id` included), the rest and the length unchanged |
| IdPositions.DeleteTwoMatchesKeepsOne | src/dumbql.ts:195-198 | on three positional records with two matches, the splices leave a matching record behind, unlike the intended delete |
| IdPositions.UpdateAfterDeleteAppendsPatch | src/dumbql.ts:251-255 | after a deletion, update leaves the matched record unpatched and appends the bare patch, unlike the intended update |
| IdPositions.AfterDeleteMatchesPositional | src/dumbql.ts:241-255 | after a deletion, with `_id`s no longer all positions, the matched record can still be at its position, so `UpdatePositional` applies |
| IdPositions.NegativeStringIdFromEnd | src/dumbql.ts:195-196 | on three records with the matched one stored last with `_id` `"-1"`, delete splices at -2 and removes the middle record, keeping the matched one |
| IdPositions.InsertAfterDeleteReusesId | src/dumbql.ts:106-109 | after a deletion, the next insert is given an `_id` that a stored record already has |
| Lexer.SkipWhile | 1.0/lib/scanner.go:118-120 | a `peek` loop stops at the first byte that fails its test, or at the end |
| Lexer.StringStep | 1.0/lib/scanner.go:184-204 | a string step consumes at least the quote and gives either a STRING token ending at the closing quote or an error at the end of the source |
| Lexer.NumberStep | 1.0/lib/scanner.go:218-235 | a number step always gives a NUMBER token and stops before any digit |
| Lexer.IdentifierStep | 1.0/lib/scanner.go:245-255 | an identifier step always gives a token, consumes only letters, digits and `_` after the first byte, and stops before any of them |
| Lexer.ScanOne | 1.0/lib/scanner.go:54-149 | each `scanToken` consumes at least one byte and stays within the source, and adds at most one token or one error; a token's lexeme is exactly the bytes consumed, on the line reached, and is never EOF |
| Lexer.ScanOneLines | 1.0/lib/scanner.go:128-130 | `line` grows by exactly the number of newlines a step consumes |
| Lexer.Lex | 1.0/lib/scanner.go:44-52 | `scanTokens` gives at least one token and at most one per byte plus EOF, and at most one error per byte |
| Lexer.LexEndsWithEof | 1.0/lib/scanner.go:44-52 | the output ends with exactly one EOF token, with an empty lexeme, no literal and the line after all newlines of the source |
| Lexer.LexLastToken | 1.0/lib/scanner.go:50 | the last token is that EOF |
| Lexer.LexOnlyOneEof | 1.0/lib/scanner.go:44-50 | no token before the last is EOF |
| Lexer.Spans | 1.0/lib/scanner.go:158-161 | each token's span lies within the scanned part of the source and is non-empty |
| Lexer.LexemesAreSpans | 1.0/lib/scanner.go:158-161 | every lexeme is the source between its span's bounds, and the spans follow one another without overlapping |
| Lexer.SpansCount | 1.0/lib/scanner.go:44-52 | there is one span per token before EOF |
| Lexer.TokenLines | 1.0/lib/scanner.go:128-130 | a token's line is the starting line plus the newlines up to the end of its lexeme |
| Lexer.LinesNonDecreasing | 1.0/lib/scanner.go:128-130 | no token's line is below the starting line (1 for a new scanner), and lines never decrease along the output, EOF included |
| Lexer.PunctuationToken | 1.0/lib/scanner.go:57-86 | each fixed punctuation byte is its one-byte token |
| Lexer.OperatorToken | 1.0/lib/scanner.go:87-114 | `!`, `=`, `<`, `>` followed by `=` make one two-byte token, otherwise the one-byte token |
| Lexer.WhitespaceSkipped | 1.0/lib/scanner.go:125-130 | space, `\r` and `\t` add nothing; a newline adds nothing and increments the line |
| Lexer.CommentSkipped | 1.0/lib/scanner.go:115-120 | `//` skips up to, not including, the next newline (or to the end) and adds nothing |
| Lexer.SlashToken | 1.0/lib/scanner.go:121-123 | a lone `/` is SLASH |
| Lexer.StringTerminated | 1.0/lib/scanner.go:184-204 | a closed string's lexeme keeps the quotes, its literal is the text between, and its line counts the newlines inside |
| Lexer.StringUnterminated | 1.0/lib/scanner.go:192-196 | an unclosed string consumes the rest, reports "Unterminated string." and adds no token |
| Lexer.IdentifierToken | 1.0/lib/scanner.go:245-255 | an identifier is the longest alphanumeric run from a letter or `_`, typed by the case-sensitive keyword table, else IDENTIFIER |
| Lexer.LetterOQuirk | 1.0/lib/scanner.go:134-138 | `o` followed by `r` is always OR `or`; any other `o` adds nothing and reports nothing |
| Lexer.NumberToken | 1.0/lib/scanner.go:218-235 | a number is the longest digit run, extended by `.` and digits only when a digit follows the dot; its literal is parsed from the lexeme |
| Lexer.UnexpectedCharacter | 1.0/lib/scanner.go:139-146 | any other byte reports "Unexpected character." on the current line and scanning continues after it |
| Lexer.NumberThenDot | 1.0/lib/scanner.go:224-231 | `1.` scans as NUMBER `1`, DOT, EOF |
| Lexer.OrderSplits | 1.0/lib/scanner.go:134-138 | `order` scans as OR `or`, IDENTIFIER `der`, EOF |
| Lexer.LoneOVanishes | 1.0/lib/scanner.go:134-138 | `o` alone scans to EOF only, with no error |
| Lexer.Scanner.constructor | 1.0/lib/scanner.go:15-38 | a new scanner starts at 0 on line 1 with no tokens and the keyword table |
| Lexer.Scanner.Advance | 1.0/lib/scanner.go:151-156 | returns the byte under the cursor and moves past it |
| Lexer.Scanner.AddToken | 1.0/lib/scanner.go:158-161 | appends a token whose lexeme is `source[start:current]`, on the current line |
| Lexer.Scanner.Match | 1.0/lib/scanner.go:163-174 | consumes the next byte exactly when it is the expected one |
| Lexer.Scanner.Report | 1.0/lib/scanner.go:145 | records the message on the current line |
| Lexer.Scanner.ScanTokens | 1.0/lib/scanner.go:44-52 | the loop terminates, and the tokens and errors it adds are exactly `Lex` from the cursor |
| Lexer.Scanner.ScanToken | 1.0/lib/scanner.go:54-149 | performs exactly the step `ScanOne` |
| Lexer.Scanner.AddPunctuation | 1.0/lib/scanner.go:57-86 | a punctuation arm performs `ScanOne` |
| Lexer.Scanner.AddOperator | 1.0/lib/scanner.go:87-114 | an operator arm performs `ScanOne` |
| Lexer.Scanner.ScanOther | 1.0/lib/scanner.go:115-148 | every switch arm for a byte outside the punctuation and operator tables performs `ScanOne` |
| Lexer.Scanner.ScanDefault | 1.0/lib/scanner.go:139-146 | the default arm (number, identifier or error) performs `ScanOne` |
| Lexer.Scanner.ScanLetterO | 1.0/lib/scanner.go:134-138 | the `o` arm performs `ScanOne`: OR when `r` follows, nothing otherwise |
| Lexer.Scanner.ScanSlash | 1.0/lib/scanner.go:115-124 | the `/` arm performs `ScanOne` |
| Lexer.Scanner.SkipComment | 1.0/lib/scanner.go:118-120 | the comment loop stops at the next newline or the end |
| Lexer.Scanner.ScanString | 1.0/lib/scanner.go:184-204 | the string loop performs the string step, counting newlines |
| Lexer.Scanner.SkipStringBody | 1.0/lib/scanner.go:185-190 | the string loop stops at the closing quote or the end, and the line grows by the newlines passed |
| Lexer.Scanner.ScanNumber | 1.0/lib/scanner.go:218-235 | the number loops perform the number step |
| Lexer.Scanner.ScanDigits | 1.0/lib/scanner.go:219-221 | a digit loop stops at the first byte that is not a digit, or at the end |
| Lexer.Scanner.ScanIdentifier | 1.0/lib/scanner.go:245-255 | the identifier loop and keyword lookup perform the identifier step |
| ValueReceivers.NewScanner | 1.0/lib/scanner.go:15-38 | the struct starts at 0 on line 1 with no tokens |
| ValueReceivers.ScanTokenAsWritten | 1.0/lib/scanner.go:54-149 | as written, with `start` at or before the cursor, a pass can panic only on a quote, and an error is reported on the copy's line |
| ValueReceivers.ScanTokenByByte | 1.0/lib/scanner.go:54-255 | as written, with `start` at the cursor, a pass panics on a quote (the slice `source[start+1:current-1]`), never returns on `/`, a digit, or a letter or `_` other than `o`, reports an unexpected byte, and otherwise returns silently |
| ValueReceivers.LoopBodyAsWritten | 1.0/lib/scanner.go:45-48 | a pass that returns changes only `start`, to the cursor |
| ValueReceivers.IterateAsWritten | 1.0/lib/scanner.go:45-48 | after one or more passes that return, `start` sits at the cursor |
| ValueReceivers.AsWrittenNeverAdvances | 1.0/lib/scanner.go:44-48 | as written, no number of passes changes the cursor, the line or the tokens |
| ValueReceivers.AsWrittenNeverEnds | 1.0/lib/scanner.go:44-52 | as written, on a non-empty source the guard holds after every number of passes that return, and the next pass does what the first did: `scanTokens` never returns |
| ValueReceivers.QuoteFirstPanics | 1.0/lib/scanner.go:184-202 | as written, a source starting with `"` panics in the first pass |

`ScanToken` takes the switch's one-byte arms and its operator arms through the tables `Punctuation` and `Operators`. The remaining arms are in `ScanOther`, which hands the `/`, `o` and default arms to `ScanSlash`, `ScanLetterO` and `ScanDefault`. The loops of `string` and `number` are the methods `SkipStringBody` and `ScanDigits`.

`ScanTokenAsWritten` takes the as-written `string`, `number`, `identifier`, comment and `addToken` steps through `StringOnCopy`, `NumberOnCopy`, `IdentifierOnCopy`, `CommentOnCopy` and `AddTokenOnCopy`. `ByteOutcome` states what a pass does by the byte under the cursor, and `ScanTokenByByte` proves the two agree.

`Peek`, `PeekNext` and `IsAtEnd` are the functions `At(source, current)`, `At(source, current + 1)` and `current >= |source|`. `IsDigit`, `IsAlpha` and `IsAlphaNumeric` are predicates over bytes. In Go these helpers compare one-byte strings. A byte of 0x80 or more becomes a two-byte string above "z", so none of them holds for it, and the byte comparison here agrees.

## Left out

- Files and JSON: reading and writing the database file (`fs`), `JSON.parse`/`JSON.stringify` and `path.join` are not modelled.
  - The catalog is a value (`DumbQL`) or the field of a `DatabaseFile` object (`Documents`).
  - JSON's normalisation of stored values (NaN and the infinities become `null`, `undefined` fields vanish) is not modelled.
  - Object identity across calls is not modelled. Every call parses the file again, so a stored object or array is never `===` to an object or array in a where clause (src/dumbql.ts:148). In the model, `Obj` and `Arr` values with the same `ref` are strictly equal, so `SelectResult`, `DeleteResult` and `UpdateResult` can match a record on an object-valued field where the program matches none.
  - `DatabaseFile` is taken to be a JSON catalog file; this is an assumption of the model. `Document` imports the `DB` object of src/db.ts (src/document.ts:2), which nothing assigns to, so every `Document` method reads and writes `DB.DATABASE_PATH` as src/db.ts:5 sets it: the `data` directory. `createDatabase` points only the separate module-local `DB` of src/dumbql.ts (:15-23) at a database file (src/dumbql.ts:33). What reading or writing a directory does is not modelled.
- `createDatabase`, `getDbName` and the module-level `DB` paths of `src/dumbql.ts` are environment set-up and are not modelled.
- Output is not modelled: the `console.log` messages, and the `console.table` of select.
  - Select returns the rows the table would show.
- Which field an "is not allowed" error names depends on `Object.keys` order, so errors carry no payload.
- Concurrency: the code is synchronous and has no locking. Lost updates between overlapping calls are not modelled.
- Schemas are stored and never consulted, so their contents are opaque.
- `JsValues.ToNumber`: arrays become NaN, where JavaScript reads the number in an array's string form (`[]` is 0, `["5"]` is 5).
  - insert lets the caller's own `_id` of any allowed type win (src/dumbql.ts:106-109), so an array can be stored as an `_id`. With `_id: []`, delete splices at -1 and removes the last record, where the model splices at NaN and removes the first.
  - BigInt and Symbol operands become NaN, where JavaScript throws. Stored records come from `JSON.parse`, which yields neither.
- `JsValues.StringToNumber`: numbers are exact reals. The rounding of a numeric string to a double, overflow to an infinity and the sign of zero are not modelled.
- Records and the catalog are maps of own keys. Keys inherited from `Object.prototype` are not modelled, neither as record or where keys (a where key such as `toString`) nor as collection names:
  - `db.documents[docName]` with a name such as `toString` or `constructor` finds an inherited function, which is truthy (src/dumbql.ts:87, :135, :178, :234; src/document.ts:57, :105, :148, :204). So `InsertResult` fails with `DocumentDoesNotExist` where the program goes on, and `SelectResult`, `DeleteResult` and `UpdateResult` fail with the TypeError where the program reads `.data` of that function.
  - `createDocument("__proto__")` (src/dumbql.ts:65, src/document.ts:33) sets the prototype of `db.documents` and adds no own entry, so the collection is lost when the catalog is written back. `CreateDocument` adds the entry.
- 1.0/lib/dumbql.go is not part of this model (`Run`, `RunPrompt`, `RunFile`, `CreateDatabase`, printing).
  - `DumbQLError` is modelled as appending to the scanner's `errors`.
  - The `hadError` flag is not modelled. It is also set on a value receiver, so the update is lost.
  - The `dumbqlInstance` field is not modelled.
- The float that `strconv.ParseFloat` makes of a number lexeme is kept as that lexeme (`Float(digits)`). Floating point is not modelled.
- `Token.String` (fmt formatting) and the `TokenType` definitions are not part of this model. Token types are named after the Go constants.
- `src/main.ts`, `1.0/main.go` and `src/dbTypes.ts` are not part of this model.
- `ValueReceivers.ScanTokenAsWritten` gives what a pass does as far as `scanTokens` can tell (returns with at most one reported error, hangs, or panics), not the states the dropped copies reach, which no caller sees.

## Findings

| source | as written | input that shows it | evidently intended | confidence | as-written member | corrected member |
|---|---|---|---|---|---|---|
| src/dumbql.ts:195-198 (and src/document.ts:165-168) | each match is spliced out at `_id - 1` of the array as already shortened by earlier splices | records `[{_id:1,a:1}, {_id:2,a:2}, {_id:3,a:1}]`, where `{a:1}`: the result is `[{_id:2,a:2}, {_id:3,a:1}]` | every matching record removed: `[{_id:2,a:2}]` | high; not executed | IdPositions.DeleteTwoMatchesKeepsOne | IdPositions.RemoveMatching |
| src/dumbql.ts:251-255 (and src/document.ts:221-225) | the patched record is read and spliced in at `_id - 1`, which after a deletion is past the end | records `[{_id:2,a:1}]` (left by deleting `_id` 1 of two), where `{a:1}`, patch `{b:9}`: the result is `[{_id:2,a:1}, {b:9}]` | `[{_id:2,a:1,b:9}]` | high; not executed | IdPositions.UpdateAfterDeleteAppendsPatch | IdPositions.PatchMatching |
| 1.0/lib/scanner.go:44-52 | every Scanner method has a value receiver, so `scanToken`, `advance` and `match` change copies: the loop's cursor never moves, and the loops inside `string`, `number`, `identifier` and the comment test the same byte forever | `(`: every pass returns and the loop never ends; `"`: the first pass slices `source[1:-1]` and panics; `1`, `a` or `//`: the first pass never leaves its inner loop | methods on `*Scanner`, so that each `scanToken` advances the cursor and the loop ends with the tokens and EOF | high; not executed | ValueReceivers.AsWrittenNeverEnds | Lexer.Scanner.ScanTokens |
