# A verified model of a byte tokenizer and a Pratt expression parser

This project models the front end of a small expression language. It has two parts.

- **Tokenizer.** A cursor over an immutable byte buffer. It turns the bytes into tokens: operators and punctuation scanned greedily, whitespace, identifiers and the `_` keyword, number literals, string and char literals with escapes, nested block comments and line comments. A block comment left open at the end of input is reported to a caller-owned diagnostics sink.
- **Parser.** A Pratt parser, written as recursive descent with binding powers. It turns a stream of tokenizer items into an expression tree:
  - literals, names, `a::b::c` paths and calls;
  - parenthesised groups;
  - prefix `+ - ++ --`;
  - infix `+ - * /`;
  - postfix `!` and indexing `[...]`.

Both parts are modelled in the form the code has:

- The stateful pieces are Dafny classes whose methods change their fields:
  - `Scanner.Tokenizer`, with `pos`, `lookahead` and `done`;
  - `Parsing.Parser`, with the index of the next item;
  - `Sources.Sink`, the diagnostics collector.
- Each of their methods is proved against a pure function of the input and the old state:
  - `Lexical.Lex` for one scan step;
  - `Lexical.Items` for the item stream;
  - `Pratt.ParsePrimary`, `Pratt.ParseBp` and the other parse functions for the parser.
- The token and expression types, the binding-power tables and the bracketed rendering are datatypes and functions.

The properties are proved about those functions, in `LexicalProperties` and `ParserProperties`:

- **Lexical facts:**
  - what each kind of token covers;
  - the value of an integer literal;
  - escapes;
  - comment nesting;
  - that the tokens tile the input.
- **Parser facts:**
  - precedence and associativity;
  - grouping;
  - stopping in front of a token that cannot continue an expression;
  - every error path.
- **A round trip:** every well-formed tree is what the parser returns for its fully bracketed token form, and the parser reads that form to its end.

Modules:

- `Wrappers`: `Option` and `Result`.
- `Tokens`: the token datatypes and `get_keyword`.
- `Sources`: `Source`, `Diagnostic`, the diagnostic level and the sink.
- `Lexical`: the pure meaning of one scan step.
- `Scanner`: the `Tokenizer` class.
- `LexicalProperties`.
- `Expressions`: the expression tree and its rendering.
- `Pratt`: the pure meaning of each parse function.
- `Parsing`: the `Parser` class.
- `ParserProperties`.

Where the code and its documented design disagree, the model follows the code:

- `+=`, `++`, `-=`, `--`, `*=`, `/=`, `&=` and `|=` choose their kind from a byte they only peek at. The token therefore covers one byte, and the second byte is scanned again as a token of its own (`LexicalProperties.PeekedCompound`, `LexicalProperties.PlusEqualsStream`).
- `,` scans as `Punctuation::Colon`, like `:`. The parser nevertheless matches `Punctuation::Comma` between call arguments, so it is modelled over an arbitrary sequence of items, not wired to the tokenizer.
- The code never advances `line` or `column`: every token and diagnostic carries line 1, column 1.
- The parser builds `Name(Path)` and calls over a path, and matches `Punctuation::DoubleColon`. The expression type and the token types in the source do not yet have these, so the model has `Name(Path)` and `Call(Path, args)` in place of `Var(Token)` and `Call { function_name }`, and a `DoubleColon` punctuation.
- Block comments nest, and the design promises one `Comment` token with no diagnostic for every comment whose nested openers and closers balance. The code's scan pairs each byte with the byte before it, even a byte that already completed an opener or a closer. So a `/` that closes a nested comment can open a level again with the next `*`: `/*/**/*/` is reported as unclosed (`LexicalProperties.ReusedSlashOpens`). A `*` that opens one can close a level with the next `/`: `/* /*/* a */ */ */` ends three bytes early (`LexicalProperties.ReusedStarCloses`). The model scans as the code does (`Lexical.CommentEnd`). `LexicalProperties.NestedComment` states the promise on the bodies where the code keeps it. `LexicalProperties.PairedCommentEnd` is a scan that consumes each matched pair, and for it the promise is proved for every balanced body (`LexicalProperties.PairedNestedComment`).
- A path that ends in `::`, as in `a::`, parses as `Name(Path(a, Some([])))`: the segment loop (src/parser/mod.rs:111-124) adds no segment and reports no error. The design leaves this case open and suggests an error; the model follows the code (`Pratt.ParseTail`).
- The `Path` type is not part of the files modelled here. It is modelled as a head identifier and an optional tail of identifier tokens, and `Expressions.PathText` renders it with `::` between the segments.

## Model

| member | source | states |
|---|---|---|
| Sources.NewSource | src/main.rs:49-55 | the source keeps its name and text, and its byte view is exactly the text's bytes |
| Sources.DiagnosticType.Level | src/main.rs:98-104 | an unclosed block comment is reported at level Info |
| Sources.Sink.Extend | src/tokenizer/mod.rs:227-232 | the sink appends the reported diagnostics after the ones it holds, in order |
| Tokens.GetKeyword | src/tokenizer/token.rs:172-177 | a string is a keyword exactly when it is `_`, and then the keyword is `Underscore` |
| Lexical.RunEnd | src/tokenizer/mod.rs:310-329 | a run scan stops at the first byte, at or after its start, that fails the byte class, or at the end of input; every byte before it is in the class |
| Lexical.RunEndUnique | src/tokenizer/mod.rs:310-329 | a position with the class on every byte before it and not on the byte at it is where the run scan stops |
| Lexical.Digits | src/tokenizer/mod.rs:108-116 | the digits collected from a stretch of input are no more than its bytes (underscores are skipped) |
| Lexical.Decimal | src/tokenizer/mod.rs:118-123 | the value of n decimal digits is below 10^n |
| Lexical.DecimalPrepend | src/tokenizer/mod.rs:118-123 | a leading digit adds its weight 10^k to the value of the k digits after it, which is the weight the source's loop gives it |
| Lexical.MaxIntegerFits | src/tokenizer/mod.rs:118-123 | 10^19 is below 2^64, so an integer part of at most 19 digits fits in u64 |
| Lexical.DigitWeight | src/tokenizer/mod.rs:118-123 | one step of the accumulation loop, from the last digit backwards, keeps the partial value and the power of ten equal to their decimal meaning, both below 2^64 |
| Lexical.NumberAt | src/tokenizer/mod.rs:105-151 | a number literal covers at least its first digit and ends within the input |
| Lexical.FractionAt | src/tokenizer/mod.rs:129-142 | the fraction after `.` ends within the input, not before where it starts |
| Lexical.CharAt | src/tokenizer/mod.rs:153-172 | a char literal scan takes at least its quote, stays in the input, and fails only with UnfinishedChar |
| Lexical.Escape | src/tokenizer/mod.rs:486-494 | exactly `n`, `t` and `0` have an escape translation, and each translation is the one byte that letter stands for: newline, tab and NUL (`Lexical.EscapeLetter` read backwards) |
| Lexical.PrependPrepend | src/tokenizer/mod.rs:183-193 | collecting string bytes one after another is collecting them all at once |
| Lexical.StringBody | src/tokenizer/mod.rs:174-198 | a string body that closes ends after its start and within the input; a body that does not close fails only with UnfinishedString |
| Lexical.CommentEnd | src/tokenizer/mod.rs:200-235 | a comment scan stays in the input; when it finds the closing `*/` of nesting depth one it has moved on, and when it does not it has reached the end of input |
| Lexical.BlockCommentAt | src/tokenizer/mod.rs:200-235 | a block comment is a MultiLine comment token of at least its opener, within the input; one left open reaches the end of input |
| Lexical.Lex | src/tokenizer/mod.rs:243-464 | every scan step moves forward; a token ends within the input; only an open block comment is unclosed, and it reaches the end of input |
| Lexical.PunctuationAt | src/tokenizer/mod.rs:249-308 | a delimiter or punctuation byte always yields a token of at least one byte within the input and never a diagnostic |
| Lexical.ArithmeticAt | src/tokenizer/mod.rs:336-394 | an arithmetic byte always yields a token within the input; only a block comment can be left open |
| Lexical.LogicAt | src/tokenizer/mod.rs:396-455 | a logic byte always yields a token of at least one byte within the input and never a diagnostic |
| Scanner.IntegerPart | src/tokenizer/mod.rs:118-123 | the u64 accumulation of the collected digits is their value in base 10 (no overflow for at most 19 digits) |
| Scanner.Place | src/tokenizer/mod.rs:119-122 | one accumulation step adds the digit times its power of ten and multiplies the power by ten, without wrapping |
| Scanner.Tokenizer.constructor | src/tokenizer/mod.rs:38-52 | a new tokenizer starts at position 0 with one byte of lookahead, done exactly when the input is empty |
| Scanner.Tokenizer.Pos | src/tokenizer/mod.rs:54-61 | the position of the current token is its start, line and column as stored, and the bytes from its start up to the lookahead |
| Scanner.Tokenizer.Step | src/tokenizer/mod.rs:75-83 | a step advances the lookahead unless done, and is done once the lookahead reaches the end |
| Scanner.Tokenizer.StepBack | src/tokenizer/mod.rs:84-88 | a step back retreats the lookahead by one unless it is at the token start |
| Scanner.Tokenizer.PeekNext | src/tokenizer/mod.rs:69-73 | returns the byte at the lookahead, then steps |
| Scanner.Tokenizer.Eat | src/tokenizer/mod.rs:90-97 | steps exactly when the byte at the lookahead is the one asked for, and says so |
| Scanner.Tokenizer.Consume | src/tokenizer/mod.rs:99-103 | the next token starts at the old lookahead, done exactly when that is at or past the end, with the lookahead one further |
| Scanner.Tokenizer.TakeDigits | src/tokenizer/mod.rs:108-116 | the digit loop stops at the end of the run of digits and `_`, having collected the digits of everything it passed |
| Scanner.Tokenizer.IntegerRun | src/tokenizer/mod.rs:105-127 | the integer part ends where the run of digits and `_` ends, and its value is those digits in base 10 |
| Scanner.Tokenizer.Fraction | src/tokenizer/mod.rs:129-142 | the fraction loop collects the digits of the run after `.` and ends where `Lexical.FractionAt` says |
| Scanner.Tokenizer.Number | src/tokenizer/mod.rs:105-151 | the number literal and where it ends are those of `Lexical.NumberAt` |
| Scanner.Tokenizer.CharLit | src/tokenizer/mod.rs:153-172 | the char literal, or UnfinishedChar, and where it ends are those of `Lexical.CharAt` |
| Scanner.Tokenizer.StringLit | src/tokenizer/mod.rs:174-198 | the string, or UnfinishedString, and where it ends are those of `Lexical.StringBody` |
| Scanner.Tokenizer.MultilineComment | src/tokenizer/mod.rs:200-235 | the comment ends where `Lexical.BlockCommentAt` says, and exactly its diagnostic is appended to the sink |
| Scanner.Tokenizer.SinglelineComment | src/tokenizer/mod.rs:236-241 | a line comment stops in front of the next newline |
| Scanner.Tokenizer.ScanWhitespace | src/tokenizer/mod.rs:310-316 | whitespace is the maximal run of spaces, tabs and newlines |
| Scanner.Tokenizer.ScanIdentifier | src/tokenizer/mod.rs:318-329 | an identifier is the maximal run of letters, digits and `_`, a keyword exactly when `get_keyword` says so |
| Scanner.Tokenizer.ScanPunctuation | src/tokenizer/mod.rs:249-308 | the kind and end of a delimiter or punctuation token are those of `Lexical.PunctuationAt` |
| Scanner.Tokenizer.ScanArithmetic | src/tokenizer/mod.rs:336-394 | the kind, the end and the diagnostics of an arithmetic token or comment are those of `Lexical.ArithmeticAt` |
| Scanner.Tokenizer.ScanLogic | src/tokenizer/mod.rs:396-455 | the kind and end of a logic token are those of `Lexical.LogicAt` |
| Scanner.Tokenizer.GetTokenInner | src/tokenizer/mod.rs:243-464 | once done, the result is AlreadyDone with nothing changed; otherwise the token, its end and the appended diagnostics are those of `Lexical.Lex` at the current position |
| Scanner.Tokenizer.GetToken | src/tokenizer/mod.rs:466-471 | one scan step as `Lexical.Lex` gives it, after which the next token starts where this one ended |
| Scanner.Tokenizer.Next | src/tokenizer/mod.rs:477-483 | yields nothing exactly when done; otherwise the position strictly increases, and the item yielded followed by the rest of the stream is the stream the old position started |
| LexicalProperties.DecimalTextValue | src/tokenizer/mod.rs:105-127 | the digits of the numeral of n, read back in base 10, are n |
| LexicalProperties.IntegerLiteral | src/tokenizer/mod.rs:105-127 | a numeral not followed by a digit, `_` or `.` scans as the Integer it denotes, covering exactly the numeral |
| LexicalProperties.NumeralScan | src/tokenizer/mod.rs:105-127 | the number literal at a numeral is that Integer, and it ends after the numeral |
| LexicalProperties.NumeralEnd | src/tokenizer/mod.rs:108-127 | the integer part of such a numeral is the whole numeral, and no `.` follows it |
| LexicalProperties.IdentifierOrKeyword | src/tokenizer/mod.rs:318-329 | an identifier is the maximal run of letters, digits and `_`; it is the keyword `_` exactly when the run is `_`, and an Identifier exactly otherwise |
| LexicalProperties.SpelledPunctuationToken | src/tokenizer/mod.rs:280-308 | `.` `..` `...` `$` `$$` `=` `==` `=>`, followed by a separator, each scan as their own kind, covering exactly their bytes |
| LexicalProperties.SpelledArithmeticToken | src/tokenizer/mod.rs:348-394 | `**` `**=` `!=` `~=` `^=` `%=`, followed by a separator, each scan as their own kind, covering exactly their bytes |
| LexicalProperties.SpelledLogicToken | src/tokenizer/mod.rs:396-455 | `&&` `&&=` `\|\|` `\|\|=` and the `<` and `>` families, followed by a separator, each scan as their own kind, covering exactly their bytes |
| LexicalProperties.PeekedCompound | src/tokenizer/mod.rs:336-417 | `+=` `++` `-=` `--` `*=` `/=` `&=` `\|=` yield their compound kind with a one-byte token |
| LexicalProperties.PlusEqualsStream | src/tokenizer/mod.rs:336-347 | `+=` becomes two tokens: PlusEquals over `+`, then Equals over `=` |
| LexicalProperties.StringLiteral | src/tokenizer/mod.rs:174-198 | a string written with newline, tab and NUL as `\n` `\t` `\0`, `"` and `\` behind a backslash and every other byte as is, scans back to exactly that string, covering the whole literal |
| LexicalProperties.TranslatedEscapes | src/tokenizer/mod.rs:183-191 | `"\n\t\0"` scans as the three bytes newline, tab and NUL |
| LexicalProperties.UntranslatedEscape | src/tokenizer/mod.rs:183-191 | a backslash before any byte other than `n`, `t` and `0` contributes that byte unchanged |
| LexicalProperties.UnterminatedString | src/tokenizer/mod.rs:174-198 | a quoted string cut off by the end of input, also right after an escaping backslash, fails with UnfinishedString |
| LexicalProperties.NoClosingQuote | src/tokenizer/mod.rs:174-198 | a string with no `"` byte after its opener fails with UnfinishedString |
| LexicalProperties.CharLiteral | src/tokenizer/mod.rs:153-172 | a char literal succeeds exactly when one byte, or a backslash and one byte, is followed by `'`; its value is that byte untranslated; otherwise it is UnfinishedChar |
| LexicalProperties.BodyScan | src/tokenizer/mod.rs:209-233 | passing a balanced comment body leaves the nesting depth where it was |
| LexicalProperties.NestedComment | src/tokenizer/mod.rs:200-235 | a balanced block comment closes at its own `*/`, as one token and with no diagnostic, when its plain bytes are not `*` or `/`, each nested body is empty or starts and ends with a plain byte, and the outer body is empty or ends with one (the bodies on which the code's overlapping pairs do no harm) |
| LexicalProperties.ReusedSlashOpens | src/tokenizer/mod.rs:209-225 | the balanced `/*/**/*/` is read as left open: the closing `/` of the nested comment pairs again with the following `*` |
| LexicalProperties.ReusedStarCloses | src/tokenizer/mod.rs:209-225 | the balanced `/* /*/* a */ */ */` closes after 15 of its 18 bytes: the `*` of a nested opener pairs again with the following `/` |
| LexicalProperties.PairedCommentEnd | src/tokenizer/mod.rs:209-225 | the corrected scan, in which a byte that completes a pair pairs with nothing after it, stays in the input; when it closes it has moved on, otherwise it reaches the end of input |
| LexicalProperties.PairedBodyScan | src/tokenizer/mod.rs:209-225 | under the corrected scan, any balanced body, nested to any depth, leaves the nesting depth where it was |
| LexicalProperties.PairedNestedComment | src/tokenizer/mod.rs:200-235 | under the corrected scan, every block comment with a balanced body closes exactly at its own `*/` |
| LexicalProperties.PairedUnclosedComment | src/tokenizer/mod.rs:200-235 | under the corrected scan, a balanced body at the end of input leaves the comment open up to the end |
| LexicalProperties.UnclosedComment | src/tokenizer/mod.rs:200-235 | a block comment open at the end of input is still a Comment token to the end, with exactly one UnclosedMultilineComment diagnostic, except when nothing follows the opener |
| LexicalProperties.LineComment | src/tokenizer/mod.rs:236-241 | a line comment runs up to, and not including, the next newline |
| LexicalProperties.ItemsTile | src/tokenizer/mod.rs:466-483 | when no scan fails, the texts of the tokens from a position on are exactly the rest of the input, in order |
| Expressions.PathText | src/parser/mod.rs:104-141 | a path without segments renders as its head |
| Expressions.Render | src/parser/expression.rs:38-65 | every compound node renders inside one pair of parentheses |
| Pratt.Lift | src/parser/mod.rs:48-54 | a tokenizer error becomes a parser error carrying it unchanged; an item passes through |
| Pratt.ItemAt | src/parser/mod.rs:48-62 | the next item is the token or the error at the index, and there is none exactly at the end |
| Pratt.TypeAt | src/parser/mod.rs:64-71 | the kind of the next item is the kind of the token at the index, and there is none exactly at the end |
| Pratt.PrefixBindingPower | src/parser/mod.rs:327-333 | exactly `+ - ++ --` have a prefix power, and it is 5 |
| Pratt.InfixBindingPower | src/parser/mod.rs:335-377 | the table never fails; a non-operator has no power; an operator's right power is its left power plus one |
| Pratt.PostfixBindingPower | src/parser/mod.rs:379-389 | exactly `!` and `[` have a postfix power, and it is 7 |
| Pratt.ParsePrimary | src/parser/mod.rs:87-195 | a primary expression takes at least one item; at the end it is UnexpectedEnd; a tokenizer error in front of it propagates unchanged |
| Pratt.ParseNamed | src/parser/mod.rs:94-142 | what follows an identifier ends within the items |
| Pratt.ParseEnclosed | src/parser/mod.rs:144-169 | a bracketed expression ends just after its closing token |
| Pratt.ParseTail | src/parser/mod.rs:111-124 | the path segments keep those read before and add only identifiers |
| Pratt.ParseBp | src/parser/mod.rs:197-283 | an expression takes at least one item and stops at the end or in front of a token |
| Pratt.ParseLoop | src/parser/mod.rs:200-279 | the operator loop stops at the end or in front of a token |
| Pratt.ParseArgs | src/parser/mod.rs:289-324 | an argument list ends after at least one item and builds a call to the callee, with the arguments before it followed by at least one more |
| Parsing.Parser.constructor | src/parser/mod.rs:40-45 | a new parser starts at the first item |
| Parsing.Parser.NextToken | src/parser/mod.rs:48-54 | takes the next item as `Pratt.ItemAt` gives it, moving past it unless at the end |
| Parsing.Parser.PeekToken | src/parser/mod.rs:56-62 | the stream has no next item exactly at the end |
| Parsing.Parser.NextTokenTy | src/parser/mod.rs:64-67 | takes the kind of the next item as `Pratt.TypeAt` gives it |
| Parsing.Parser.PeekTokenTy | src/parser/mod.rs:68-71 | the stream has no next kind exactly at the end |
| Parsing.Parser.ExprPrimary | src/parser/mod.rs:87-195 | the result and the index after it are those of `Pratt.ParsePrimary` |
| Parsing.Parser.NamedExpr | src/parser/mod.rs:94-142 | the result after an identifier, and the index after it, are those of `Pratt.ParseNamed` |
| Parsing.Parser.Enclosed | src/parser/mod.rs:144-169 | the bracketed expression, or the missing-closer error, is that of `Pratt.ParseEnclosed` |
| Parsing.Parser.PathTail | src/parser/mod.rs:111-124 | the segments collected by the loop, and the index after them, are those of `Pratt.ParseTail` |
| Parsing.Parser.ExprBp | src/parser/mod.rs:197-283 | the result of the climbing loop and the index after it are those of `Pratt.ParseBp` |
| Parsing.Parser.Expr | src/parser/mod.rs:285-287 | a whole expression is one at binding power 0 |
| Parsing.Parser.CallExpr | src/parser/mod.rs:289-324 | the arguments collected by the loop, and the index after them, are those of `Pratt.ParseArgs` |
| ParserProperties.InfixPowers | src/parser/mod.rs:335-340 | `+ -` have powers (1, 2) and `* /` have (3, 4), all below the prefix power |
| ParserProperties.LoopStopped | src/parser/mod.rs:200-283 | the operator loop stops only at the end, in front of a token that continues no expression, or at an operator binding less tightly than the minimum |
| ParserProperties.BpStopped | src/parser/mod.rs:197-283 | an expression at a minimum power stops only where the operator loop may stop |
| ParserProperties.TailScan | src/parser/mod.rs:111-124 | `id (:: id)*` reads back as those identifier tokens, in order, up to the first item that continues no path |
| ParserProperties.PathScan | src/parser/mod.rs:94-139 | a path's tokens start with its head identifier, and after `::` read back as its segments |
| ParserProperties.RoundTrip | src/parser/mod.rs:87-324 | every well-formed tree is what the parser returns for its fully bracketed token form, read to the end |
| ParserProperties.Chain | src/parser/mod.rs:258-277 | `x o1 y o2 z` groups to the left unless `o2` binds more tightly than `o1` |
| ParserProperties.ProductFirst | src/parser/mod.rs:258-277 | `x + y * z` is `x + (y * z)` |
| ParserProperties.LeftAssociative | src/parser/mod.rs:258-277 | `x - y - z` is `(x - y) - z` |
| ParserProperties.PrefixBeforeInfix | src/parser/mod.rs:171-184 | `-x o y` is `(-x) o y` for every prefix and every infix operator |
| ParserProperties.PostfixBeforePrefix | src/parser/mod.rs:210-256 | `-x!` is `-(x!)` |
| ParserProperties.IndexBeforePrefix | src/parser/mod.rs:210-256 | `-x[y]` is `-(x[y])` |
| ParserProperties.Grouping | src/parser/mod.rs:144-169 | `(x o1 y) o2 z` groups as written, whatever the operators' powers |
| ParserProperties.StopsBeforeOperand | src/parser/mod.rs:279-287 | the parser stops in front of a token that cannot continue the expression and leaves it unread |
| ParserProperties.EmptyArguments | src/parser/mod.rs:289-324 | `f()` fails: a `)` is found where an argument's expression is due |
| ParserProperties.UnclosedParen | src/parser/mod.rs:144-169 | `(x` fails with the missing right parenthesis, found at the end |
| ParserProperties.UnclosedIndex | src/parser/mod.rs:217-243 | `x[y` fails with the missing right square bracket |
| ParserProperties.MissingSeparator | src/parser/mod.rs:305-318 | `f(x y` fails naming the unconsumed kind found where `,` or `)` was due |
| ParserProperties.TrailingOperator | src/parser/mod.rs:186-193 | `x +` fails with UnexpectedEnd |
| ParserProperties.TokenizerErrorPropagates | src/parser/mod.rs:48-54 | a tokenizer error where an operand is due ends the parse with that error |
| ParserProperties.UnimplementedInfix | src/parser/mod.rs:342-373 | an infix operator without a power, such as `**`, reaches the unimplemented arm |
| ParserProperties.UnimplementedPrefix | src/parser/mod.rs:175-177 | a prefix operator without a power, such as `*`, reaches the unimplemented arm |

## Left out

- `main` (src/main.rs:8-40): reading arguments and files, and printing, are I/O.
- Field accessors are the datatypes' own fields: `Source::name` and `Source::text`, `Diagnostic::new`, `ty` and `position`, the accessors of `Token`, `TokenPosition` and `Delimeter`.
- `Parser::new` wraps a peekable tokenizer iterator and a diagnostics sink. Here the parser reads a fixed sequence of tokenizer items, and it never reports diagnostics.
- `Parser::eat` is never called, so it is not modelled.
- Floating point: the fraction of a number literal is kept as its digit sequence, and its `f64` value is not computed.
- Integer overflow panics: the integer part of a number must have at most 19 digits (`Lexical.NumberFits`), where the source's u64 arithmetic does not overflow. Longer numerals are excluded by a precondition, not modelled as a panic.
- A `//` comment with no newline after it loops forever in the source. Each scan step requires a following newline (`Lexical.Defined`).
- `todo!()` panics in the binding-power tables and in the prefix arm are the `Unimplemented` outcome.
- The `Display` of operators and literals is not in the files modelled here, so `Expressions.Render` takes both as parameters.
- `Expressions.Render`: its contract states only the bracket shape. The layout of each variant is its definition.
- Error message text (`thiserror`) and derived `Debug` output are not modelled.
- UTF-8: the scanner works on bytes. A byte is a `char` below 256, and source text is its sequence of bytes.
- Lifetimes and borrowing are not modelled: token text is copied out of the one immutable buffer.
- The generic `Extend` sink is the `Sources.Sink` class, which appends.
