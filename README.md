# Cynch expression front end and evaluator, in Dafny

Cynch is a small tree-walking interpreter written in Java. This project models its expression pipeline:

- **Scanner** (`Scanning`, `ScanningProperties`): turns source text into tokens that always end in EOF.
- **Parser** (`Parsing`, `ParsingProperties`): a recursive-descent parser for a single expression.
- **Syntax tree** (`Syntax`): the `Expr` tree and the three statement kinds the evaluator runs.
- **Evaluator** (`Evaluation`, `EvaluationProperties`): evaluates expressions and runs statements.
- **Tree printer** (`AstPrinting`): renders a tree as Lisp-style text.
- **Examples** (`ScanningExamples`, `Examples`): small sources taken through these stages.

Shared data lives in `Wrappers` (Option, Result), `Values` (runtime values), `Tokens` (token kinds, tokens, the keyword table) and `Reports` (error records).

Each Java class that updates fields in place is a Dafny `class` with those fields:

- `Scanning.Scanner` has the cursors `start`, `current` and `line`, the token list, and the errors it reports.
- `Parsing.Parser` has the cursor `current` and the syntax errors it reports.
- `Evaluation.Interpreter` has the environment, the printed lines, and the reported runtime errors.

Every method of these classes is proved against a pure function of the inputs or the old state:

- `ScanStep` and `ScanFrom` for the scanner
- `ParseExpression`, `ParseLevel`, `ParseUnary` and `ParsePrimary` for the parser
- `Execute` and `Run` for the interpreter

The lemmas state the language's properties about those functions.

The recursive visitors (`evaluate`, `AstPrinter.print`) are functions over the `Expr` datatype. Each visitor's dispatch is a `match`. An exception becomes a `Failure` result:

- a `ParseError` carries the index of its token and its message;
- a `RuntimeError` is a `Fault`;
- an unchecked `(double)` cast in `/` or `*` that fails is a separate `CastError` fault. Nothing in the interpreter catches it.

Numbers are `real`. `Double.toString` cannot be written out, so every member that prints a number takes it as a parameter `show: real -> string`.

Where the written description of Cynch and the code disagree, the model follows the code:

- **Token line.** A token records the line the scanner has reached once the lexeme is consumed, not the line where the lexeme starts. A string that spans lines carries the line of its closing quote.
- **`parse()`.** It parses a single expression, with no statements. It returns null at the first syntax error and never checks for EOF after the expression.
- **`'o'`.** The `case 'o'` of `scanToken` runs before the identifier branch. So `order` scans as `OR` followed by `IDENTIFIER "der"`, and an `o` not followed by `r` is dropped without a token or an error.

## Model

| member | source | states |
|---|---|---|
| Tokens.Name | src/main/java/Token.Java:18 | the kind's name, as `Enum.toString` gives it, is nonempty and holds no blank |
| Values.ObjectText | src/main/java/Interpreter.java:184 | `toString` of a non-null value: "true" exactly for true and "false" exactly for false, the number text for a number, the string itself for a string |
| Tokens.LiteralText | src/main/java/Token.Java:18 | a null literal prints as "null", any other as its object text |
| Tokens.TokenText | src/main/java/Token.Java:17-19 | `toString` is kind name, space, lexeme, space, literal text: it starts with the first three, ends in a space and the literal text (" null" for a null literal), and has exactly their lengths plus two |
| Reports.ErrorOnLine | src/main/java/Cynch.java:72-74 | a line error carries that line, the message and an empty location |
| Reports.ErrorAt | src/main/java/Cynch.java:84-90 | a token error carries the token's line and the message, and a nonempty location that is " at end" exactly when the token is EOF |
| Reports.Where | src/main/java/Cynch.java:84-90 | the location is " at end" exactly for an EOF token and " at '<lexeme>'" for every other token |
| Scanning.CommentEnd | src/main/java/Scanner.java:80-83 | a line comment stops at the first line break after it, or at the end, and contains no line break |
| Scanning.StringEnd | src/main/java/Scanner.java:159-163 | a string body stops at the first '"' after the opening quote, or at the end, and contains no '"' |
| Scanning.DigitsEnd | src/main/java/Scanner.java:183 | the digit loop stops at the first non-digit: everything before it is a digit |
| Scanning.NumberEnd | src/main/java/Scanner.java:182-191 | a number consists only of digits and '.' |
| Scanning.IdentifierEnd | src/main/java/Scanner.java:197 | a word is the longest run of letters, digits and underscores |
| Scanning.NewlineStep | src/main/java/Scanner.java:93-95 | a line break is consumed with no token, and the line grows by one |
| Scanning.UnexpectedStep | src/main/java/Scanner.java:108-110 | an unknown character is consumed and reported as a lexical error on the current line |
| Scanning.OperatorStep | src/main/java/Scanner.java:68-79 | one or two characters are consumed, emitting one token whose lexeme is the consumed text |
| Scanning.StringStep | src/main/java/Scanner.java:157-176 | a string adds one token or one error, and the line counts the line breaks inside the string |
| Scanning.ClosedString | src/main/java/Scanner.java:170-175 | with a closing quote, the step ends just past it and emits one STRING token whose lexeme keeps both quotes and whose literal is the text between them, on the line reached |
| Scanning.UnterminatedString | src/main/java/Scanner.java:165-168 | without a closing quote, the step consumes the rest of the source, emits nothing and reports "Unterminated string." on the line reached |
| Scanning.NumberStep | src/main/java/Scanner.java:182-194 | a number is one token whose lexeme is the consumed text |
| Scanning.IdentifierStep | src/main/java/Scanner.java:196-203 | a word is one token whose lexeme is the consumed text |
| Scanning.WordKind | src/main/java/Scanner.java:17-37 | a reserved word gets its keyword kind, and a word is IDENTIFIER exactly when it is not reserved |
| Scanning.DecimalValue | src/main/java/Scanner.java:193 | a lexeme with no '.' is worth its digits; with a fraction, the value lies between the integer part and the integer part plus one |
| Scanning.ScanStep | src/main/java/Scanner.java:54-113 | every step consumes at least one character, advances the line by the line breaks it consumed, and adds at most one token (never EOF, lexeme equal to the consumed text) or one lexical error |
| Scanning.ScanFrom | src/main/java/Scanner.java:44-52 | the token list ends in EOF with lexeme "", a null literal and the final line (the start line plus every line break in the source), and no other token is EOF |
| Scanning.Scan | src/main/java/Scanner.java:44-52 | scanning from the start ends in one EOF token on line 1 plus every line break of the source, and no earlier token is EOF |
| Scanning.Scanner.constructor | src/main/java/Scanner.java:40-42 | a fresh scanner holds the source, no tokens or errors, both cursors at 0 and line 1 |
| Scanning.Scanner.ScanTokens | src/main/java/Scanner.java:44-52 | scanning to the end appends exactly the tokens and errors of `ScanFrom`, and the cursor ends at the end of the source |
| Scanning.Scanner.ScanToken | src/main/java/Scanner.java:54-113 | one call moves the cursor and the line, and appends the tokens and errors, exactly as `ScanStep` does |
| Scanning.Scanner.ScanSingle | src/main/java/Scanner.java:58-67 | a single-character arm leaves the scanner as `ScanStep` says |
| Scanning.Scanner.ScanOperator | src/main/java/Scanner.java:68-79 | the `!`, `=`, `<` and `>` arms leave the scanner as `ScanStep` says |
| Scanning.Scanner.ScanSlash | src/main/java/Scanner.java:80-87 | the '/' arm, comment or SLASH, leaves the scanner as `ScanStep` says |
| Scanning.Scanner.ScanBlank | src/main/java/Scanner.java:88-92 | a blank changes nothing beyond the consumed character, as `ScanStep` says |
| Scanning.Scanner.ScanLineBreak | src/main/java/Scanner.java:93-95 | a line break raises the line by one, as `ScanStep` says |
| Scanning.Scanner.ScanLetterO | src/main/java/Scanner.java:97-101 | the 'o' arm leaves the scanner as `ScanStep` says: OR after "or", nothing otherwise |
| Scanning.Scanner.ScanOther | src/main/java/Scanner.java:103-111 | the default arm, number, word or error, leaves the scanner as `ScanStep` says |
| Scanning.Scanner.SkipComment | src/main/java/Scanner.java:83 | the comment loop leaves the cursor at `CommentEnd` |
| Scanning.Scanner.Advance | src/main/java/Scanner.java:120-122 | returns the current character and moves past it |
| Scanning.Scanner.AddToken | src/main/java/Scanner.java:124-126 | appends a token with a null literal whose lexeme is source[start..current] |
| Scanning.Scanner.AddLiteralToken | src/main/java/Scanner.java:128-131 | appends a token whose lexeme is source[start..current] on the current line |
| Scanning.Scanner.Match | src/main/java/Scanner.java:134-140 | consumes one character exactly when it is the expected one |
| Scanning.Scanner.ScanString | src/main/java/Scanner.java:157-176 | leaves the cursor, the line, the tokens and the errors as `StringStep` describes them |
| Scanning.Scanner.ConsumeStringBody | src/main/java/Scanner.java:159-163 | the loop stops at `StringEnd` with the line raised by the line breaks it passed |
| Scanning.Scanner.CloseString | src/main/java/Scanner.java:170-175 | consumes the closing quote and appends a STRING token whose literal is the text between the quotes |
| Scanning.Scanner.ScanNumber | src/main/java/Scanner.java:182-194 | leaves the cursor and the tokens as `NumberStep` describes them |
| Scanning.Scanner.ConsumeDigits | src/main/java/Scanner.java:183 | the loop stops at `DigitsEnd` |
| Scanning.Scanner.ScanIdentifier | src/main/java/Scanner.java:196-203 | leaves the cursor and the tokens as `IdentifierStep` describes them, with the keyword kind or IDENTIFIER |
| ScanningProperties.LexemesAreSlices | src/main/java/Scanner.java:128-131 | every token but EOF has the lexeme source[lo..hi] of its own span; spans are non-empty, in increasing order and non-overlapping; each token's line is 1 plus the line breaks before the end of its span |
| ScanningProperties.ErrorsAreLexical | src/main/java/Scanner.java:103-111 | every scanner error has an empty location and is "Unexpected character." or "Unterminated string." |
| ScanningProperties.NoIdentifierAtO | src/main/java/Scanner.java:97-101 | a step at an 'o' emits nothing but OR |
| ScanningProperties.StepIdentifierNotAtO | src/main/java/Scanner.java:97-111 | no IDENTIFIER that one step emits starts with 'o' |
| ScanningProperties.NoIdentifierStartsWithO | src/main/java/Scanner.java:97-101 | no IDENTIFIER token in a whole scan starts with 'o' |
| ScanningProperties.TwoCharacterOperators | src/main/java/Scanner.java:68-79 | `!`, `=`, `<` and `>` take a following '=' into BANG_EQUAL, EQUAL_EQUAL, LESS_EQUAL and GREATER_EQUAL; otherwise they emit the single kind |
| ScanningProperties.LineComments | src/main/java/Scanner.java:80-83 | `//` runs up to, and not including, the next line break and emits nothing |
| ScanningProperties.LoneSlash | src/main/java/Scanner.java:84-86 | a '/' not followed by '/' is SLASH |
| ScanningProperties.Whitespace | src/main/java/Scanner.java:88-95 | space, '\r' and '\t' emit nothing; '\n' emits nothing and advances the line |
| ScanningProperties.StringLiterals | src/main/java/Scanner.java:157-176 | a terminated string is a STRING token with its quotes in the lexeme and the text between them as its literal; an unterminated one reports "Unterminated string." on the line reached and emits nothing |
| ScanningProperties.NumberLiterals | src/main/java/Scanner.java:182-194 | a number is digits, then '.' and digits only when a digit follows the '.', and its literal is its decimal value |
| ScanningProperties.Words | src/main/java/Scanner.java:196-203 | a word not starting with 'o' is the longest alphanumeric run, with its keyword kind or IDENTIFIER |
| ScanningProperties.LeadingO | src/main/java/Scanner.java:97-101 | "or" is OR; any other 'o' is dropped with no token and no error |
| ScanningProperties.UnexpectedCharacters | src/main/java/Scanner.java:103-111 | any other character reports "Unexpected character." and scanning goes on from the next character |
| Parsing.ParseExpression | src/main/java/Parser.java:29-31 | `expression()` either consumes at least one token and stops at or before EOF, or fails at a token index inside the list with one of the parser's two messages |
| Parsing.ParseLevel | src/main/java/Parser.java:38-96 | each binary level has the same progress guarantee as `expression()` |
| Parsing.ParseOperand | src/main/java/Parser.java:39 | the operand of a level, the next tighter level, has the same progress guarantee |
| Parsing.LevelLoop | src/main/java/Parser.java:44-48 | the operator loop never moves the cursor backwards and never passes EOF |
| Parsing.LevelLoopStep | src/main/java/Parser.java:44-48 | one turn of the loop folds the operator and the next operand into a left-nested Binary |
| Parsing.ParseUnary | src/main/java/Parser.java:100-108 | `unary()` consumes at least one token or fails inside the list |
| Parsing.ParsePrimary | src/main/java/Parser.java:113-133 | `primary()` consumes at least one token or fails inside the list |
| Parsing.Parse | src/main/java/Parser.java:11-17 | `parse()` returns a tree exactly when `expression()` succeeds, and that tree is the one `expression()` built; null otherwise |
| Parsing.SyncFrom | src/main/java/Parser.java:197-216 | the loop stops at EOF, just after a ';', or before CLASS, FUN, VAR, FOR, IF, WHILE, PRINT or RETURN, and every token it skipped is none of these |
| Parsing.AdvanceFrom | src/main/java/Parser.java:165-168 | `advance()` moves one token on, except at EOF where it stays |
| Parsing.Synchronized | src/main/java/Parser.java:192-217 | `synchronize()` never moves back and stays inside the list |
| Parsing.Parser.constructor | src/main/java/Parser.java:25-27 | a fresh parser holds the tokens with the cursor at 0 and no errors |
| Parsing.Parser.Parse | src/main/java/Parser.java:11-17 | returns the tree of `ParseExpression` and leaves the cursor after it, or returns null with exactly one error reported at the failing token |
| Parsing.Parser.Expression | src/main/java/Parser.java:29-31 | follows `ParseExpression`: the same tree and cursor, or the same error, reported once |
| Parsing.Parser.Equality | src/main/java/Parser.java:38-56 | follows `ParseLevel` at the equality level |
| Parsing.Parser.Comparison | src/main/java/Parser.java:60-70 | follows `ParseLevel` at the comparison level |
| Parsing.Parser.Term | src/main/java/Parser.java:73-83 | follows `ParseLevel` at the term level |
| Parsing.Parser.Factor | src/main/java/Parser.java:86-96 | follows `ParseLevel` at the factor level |
| Parsing.Parser.BinaryLevel | src/main/java/Parser.java:38-56 | the shared loop of the four levels follows `ParseLevel` |
| Parsing.Parser.OperatorLoop | src/main/java/Parser.java:44-48 | the `while (match(...))` loop of a level follows `LevelLoop` from the tree built so far |
| Parsing.Parser.Operand | src/main/java/Parser.java:39 | the operand call of a level follows `ParseOperand` |
| Parsing.Parser.Unary | src/main/java/Parser.java:100-108 | follows `ParseUnary` |
| Parsing.Parser.Prefix | src/main/java/Parser.java:101-105 | the prefix arm of `unary()` follows `ParseUnary` from the operator it matched |
| Parsing.Parser.Primary | src/main/java/Parser.java:113-133 | follows `ParsePrimary` |
| Parsing.Parser.Group | src/main/java/Parser.java:124-129 | the parenthesized arm of `primary()` follows `ParsePrimary` from the '(' it matched |
| Parsing.Parser.Match | src/main/java/Parser.java:138-147 | consumes exactly one token when the current token has one of the kinds, and none otherwise |
| Parsing.Parser.Consume | src/main/java/Parser.java:151-155 | on the expected kind, returns that token and advances; otherwise reports the message at the current token and fails |
| Parsing.Parser.Advance | src/main/java/Parser.java:165-168 | moves as `AdvanceFrom` does and returns the token before the new cursor |
| Parsing.Parser.Error | src/main/java/Parser.java:184-187 | reports the message at the token once and returns the error for it |
| Parsing.Parser.Synchronize | src/main/java/Parser.java:192-217 | leaves the cursor where `Synchronized` says |
| ParsingProperties.LevelOfOperator | src/main/java/Parser.java:38-96 | a level's loop takes exactly the operators of its binding level |
| ParsingProperties.AtomPrimary | src/main/java/Parser.java:114-121 | `false`, `true` and `nil` become their values, and a NUMBER or STRING keeps the scanner's literal |
| ParsingProperties.AtomOperand | src/main/java/Parser.java:38-108 | an atom followed by no tighter operator is the whole operand of a level |
| ParsingProperties.TighterRight | src/main/java/Parser.java:29-96 | in `a o1 b o2 c` with `o2` binding tighter, the result is `a o1 (b o2 c)` |
| ParsingProperties.SameLevelLeft | src/main/java/Parser.java:38-96 | two operators of one level associate to the left: `(a o1 b) o2 c` |
| ParsingProperties.TighterLeft | src/main/java/Parser.java:29-96 | in `a o1 b o2 c` with `o1` binding tighter, the result is `(a o1 b) o2 c` |
| ParsingProperties.Precedence | src/main/java/Parser.java:29-133 | every `a o1 b o2 c` parses by binding level, loosest outermost, ties to the left, and stops after the five tokens |
| ParsingProperties.FoldLeftLast | src/main/java/Parser.java:44-48 | in a left fold of any length the last operator is the root, with the last operand as its right child and the fold of the rest as its left |
| ParsingProperties.ChainFoldsLeft | src/main/java/Parser.java:44-48 | a level's loop over any number of its operators, each followed by an operand of any shape, folds them to the left and stops at the first token that is not one of its operators |
| ParsingProperties.LevelFoldsLeft | src/main/java/Parser.java:38-96 | each binary level on a chain of its own operators of any length builds the left-nested tree, the last operator at the root |
| ParsingProperties.PrimaryLayered | src/main/java/Parser.java:113-133 | `primary()` returns a literal or a Grouping around a layered expression |
| ParsingProperties.UnaryLayered | src/main/java/Parser.java:100-108 | `unary()` never returns a Binary node at its top, and what it returns is layered below every binary level, inside its parentheses too |
| ParsingProperties.OperandLayered | src/main/java/Parser.java:39 | the operand of a level has only tighter operators at its top |
| ParsingProperties.LoopLayered | src/main/java/Parser.java:44-48 | each turn of a level's loop keeps the tree layered from that level |
| ParsingProperties.LevelLayered | src/main/java/Parser.java:38-96 | every tree a binary level builds is layered at every depth: no looser operator below a tighter one except inside a Grouping, no operator as the right child of one of its own level, and a prefix operator's operand holds no binary operator outside parentheses |
| ParsingProperties.ParsedTreesLayered | src/main/java/Parser.java:11-133 | every tree `parse()` returns, for any tokens, binds operators by level, loosest outermost, and nests each level to the left, inside every pair of parentheses as well |
| ParsingProperties.GroupedChainLayered | src/main/java/Parser.java:73-83 | inside parentheses `a - b - c` is layered only as `(a - b) - c`, never as `a - (b - c)` |
| ParsingProperties.FailureRises | src/main/java/Parser.java:38-96 | a failing `unary()` is the failure of every level above it |
| ParsingProperties.UnaryNesting | src/main/java/Parser.java:100-108 | a run of `!` and `-` before an atom nests to the right, the first operator outermost |
| ParsingProperties.TrailingTokensIgnored | src/main/java/Parser.java:11-17 | an atom followed by any non-operator token parses as that atom alone, with the rest left unread |
| ParsingProperties.EmptyInput | src/main/java/Parser.java:132 | with only EOF, the error is "Expect expression." at the EOF token, reported " at end", and `parse()` gives null |
| ParsingProperties.GroupPrimary | src/main/java/Parser.java:124-129 | after '(' and an expression, a ')' makes a Grouping node and consumes the ')'; anything else fails with "Expect ')' after expression" at that token |
| ParsingProperties.UnclosedGroup | src/main/java/Parser.java:124-129 | `( a` followed by anything but ')' fails with "Expect ')' after expression" at the token where ')' was expected |
| Evaluation.IsTruthy | src/main/java/Interpreter.java:156-161 | false exactly for nil and boolean false |
| Evaluation.JavaEquals | src/main/java/Interpreter.java:169 | `equals` on a non-null value is true exactly when the other value is the same value of the same type |
| Evaluation.IsEqual | src/main/java/Interpreter.java:165-170 | true exactly when the two values are equal: nil equals only nil, and values of different types differ |
| Evaluation.Stringify | src/main/java/Interpreter.java:172-185 | nil is "nil"; a number's text loses a trailing ".0" and is otherwise unchanged; booleans and strings print as themselves |
| Evaluation.CheckNumberOperand | src/main/java/Interpreter.java:108-112 | passes exactly for a number, with its value, and otherwise fails with "Operand must be a number" at the operator |
| Evaluation.CheckNumberOperands | src/main/java/Interpreter.java:115-119 | passes exactly when both operands are numbers, and otherwise fails with "Operands must be numbers." at the operator |
| Evaluation.Cast | src/main/java/Interpreter.java:94-100 | an unchecked `(double)` cast succeeds exactly on a number and otherwise fails as a cast of that operand |
| Evaluation.UnaryOp | src/main/java/Interpreter.java:33-46 | `!` gives a boolean, `-` a number or a fault at the operator, and any other operator null |
| Evaluation.BinaryOp | src/main/java/Interpreter.java:54-105 | every fault is at the operator, and only `/` and `*` fail by cast; comparisons give booleans, arithmetic gives numbers, `+` gives a number or a string, and any other operator null |
| Evaluation.Evaluate | src/main/java/Interpreter.java:21-105 | a failing evaluation always fails at an operator token of the tree, with one of that operator's faults |
| Evaluation.Execute | src/main/java/Interpreter.java:130-153 | a statement fails exactly when its expression faults, with that fault; otherwise an expression statement changes nothing, `print` appends the stringified value of its expression, and `var` keeps the output and every other binding and binds the name to the initializer's value, or nil without one |
| Evaluation.Run | src/main/java/Interpreter.java:11-19 | a run only ever appends to the output |
| Evaluation.Interpreter.constructor | src/main/java/Interpreter.java:8 | a fresh interpreter has an empty environment, no output and no reported errors |
| Evaluation.Interpreter.Interpret | src/main/java/Interpreter.java:11-19 | the new state is the one `Run` reaches; a RuntimeError is reported once, with its token's line and message, and swallowed; a cast fault escapes and is not reported |
| Evaluation.Interpreter.ExecuteStatement | src/main/java/Interpreter.java:126-153 | on success the state becomes the one `Execute` gives; on a fault nothing changes and the fault is returned |
| EvaluationProperties.EqualityNeverFails | src/main/java/Interpreter.java:59-62 | `==` and `!=` never raise, and `!=` is the negation of `==` |
| EvaluationProperties.NumericOperators | src/main/java/Interpreter.java:63-77 | `>`, `>=`, `<`, `<=` and binary `-` succeed exactly on two numbers, with the comparison or the difference, and otherwise raise "Operands must be numbers." |
| EvaluationProperties.PlusOverloads | src/main/java/Interpreter.java:78-93 | `+` adds two numbers, joins two strings, joins the stringified texts of a number and a string in either order, and raises "Operands must be numbers or strings." on anything else |
| EvaluationProperties.DivisionOrder | src/main/java/Interpreter.java:94-98 | `/` casts the right operand first, rejects a zero divisor before it looks at the left operand, and fails by cast, never by a type RuntimeError |
| EvaluationProperties.MultiplicationCasts | src/main/java/Interpreter.java:99-100 | `*` casts left, then right, and otherwise gives the product |
| EvaluationProperties.UnaryOperators | src/main/java/Interpreter.java:33-46 | `!` never raises and negates truthiness; `-` negates a number and raises "Operand must be a number" on anything else |
| EvaluationProperties.DoublePrefix | src/main/java/Interpreter.java:33-46 | `!!v` is the truthiness of v, and `--n` is n |
| EvaluationProperties.OperandFaultsFirst | src/main/java/Interpreter.java:55-56 | both operands are evaluated, left first: a fault in the left operand wins over one in the right, which wins over the operator's own |
| EvaluationProperties.StatementEffects | src/main/java/Interpreter.java:137-153 | a run of one statement: `print e` appends the text of e's value, `var x = e` binds x to e's value (nil without an initializer), and a fault in e stops the run with the state unchanged |
| EvaluationProperties.RunAppend | src/main/java/Interpreter.java:11-19 | running `a + b` runs `a`, then runs `b` from where `a` ended only if `a` met no fault |
| EvaluationProperties.StopsAtFirstFault | src/main/java/Interpreter.java:11-19 | the first faulting statement stops the run; the effects of earlier statements remain, and no later statement runs |
| EvaluationProperties.RedeclarationOverwrites | src/main/java/Interpreter.java:145-153 | declaring a name again overwrites its earlier binding |
| AstPrinting.Parenthesize | src/main/java/AstPrinter.java:40-57 | the text starts with "(" and the name, and ends with ")" |
| AstPrinting.BuildParenthesized | src/main/java/AstPrinter.java:40-57 | the builder loop appends, for each child in order, a space and the child's text, between "(" plus the name and ")" |
| AstPrinting.LiteralPrint | src/main/java/AstPrinter.java:23-31 | a null literal prints "nil", any other its object text |
| AstPrinting.Print | src/main/java/AstPrinter.java:6-36 | every node but a literal prints as a parenthesized list |
| AstPrinting.ParenthesesPerNode | src/main/java/AstPrinter.java:40-57 | if no literal's text has parentheses, the text has one "(" and one ")" per non-literal node |
| AstPrinting.PrintBinary | src/main/java/AstPrinter.java:14-16 | a Binary prints as "(", lexeme, space, left text, space, right text, ")" |
| AstPrinting.PrintGrouping | src/main/java/AstPrinter.java:19-21 | a Grouping prints as "(group ", the inner text, ")" |
| AstPrinting.PrintUnary | src/main/java/AstPrinter.java:33-36 | a Unary prints as "(", lexeme, space, operand text, ")" |
| AstPrinting.FirstExample | src/main/java/AstPrinter.java:63-72 | the tree of `-123 * (45.67)` prints "(* (- 123) (group 45.67))" |
| AstPrinting.SecondExample | src/main/java/AstPrinter.java:75-100 | the second tree prints "(* (group (>= 1 2)) (group (+ 1 (group (* 0 2)))))" |
| ScanningExamples.ScanOrder | src/main/java/Scanner.java:97-101 | "order" scans to OR "or", IDENTIFIER "der" and EOF, with no error |
| ScanningExamples.DerTail | src/main/java/Scanner.java:196-203 | "der" at the end of the source scans to IDENTIFIER "der" and EOF |
| ScanningExamples.ScanTrailingDot | src/main/java/Scanner.java:186-193 | "1." scans to NUMBER 1, DOT and EOF: a '.' without a digit after it is not part of the number |
| ScanningExamples.ScanSum | src/main/java/Scanner.java:44-113 | "1 + 2 * 3" scans to NUMBER 1, PLUS, NUMBER 2, STAR, NUMBER 3 and EOF, all on line 1, with no errors: blanks add nothing and each digit is a number of its value |
| Examples.ParseSum | src/main/java/Parser.java:73-96 | the tokens the scanner makes of `1 + 2 * 3` (`ScanningExamples.ScanSum`) parse as `1 + (2 * 3)` |
| Examples.PrintSum | src/main/java/AstPrinter.java:14-16 | that tree prints "(+ 1.0 (* 2.0 3.0))" when the three doubles print as `Double.toString` writes them |
| Examples.RunSum | src/main/java/Interpreter.java:137-142 | it evaluates to 7, and `print` writes "7", without the ".0" |

## Left out

- I/O and the command line are not modelled: `Cynch.java` with its file and prompt reading, exit codes, and the `hadError`/`hadRuntimeError` flags. Errors are appended to lists of `Report` and `RuntimeReport` records instead of being printed. Printed lines are appended to `output`.
- The source text is a Dafny `string`, a sequence of Unicode code points. Java's `charAt` reads UTF-16 code units. A character outside the Basic Multilingual Plane is one character here and two in Java. So an unexpected character such as an emoji gives one "Unexpected character." report here, where Java gives two. Lexeme lengths and offsets inside strings also count it once.
- IEEE doubles are not modelled; numbers are exact reals. `Double.toString` is the `show` parameter. `Double.parseDouble` is the exact decimal value of the lexeme, with no rounding. `Double.equals` edge cases (NaN, -0.0) are not modelled.
- The literals of `AstPrinter.main` are Java `Integer`s (`123`, `1`, `0`, `2`). They print without ".0". The example lemmas state this as hypotheses on `show`.
- `CastError` covers two Java exceptions. A non-number operand of `/` or `*` raises `ClassCastException`, and a nil operand raises `NullPointerException`. The two are not told apart.
- `visitVariableExpr` is not modelled. `Environment` is not part of this model, and `Expr` has no Variable variant. The environment is a map in which `define` overwrites.
- `CynchFunction.java` and `CynchCallable.java` are not part of this model. They depend on classes that are not part of it either.
- Statement parsing, assignment, logical operators and the other statement forms are not modelled. The parser has none of them. `Stmt` holds only the three forms the interpreter visits.
- Parsing.Parser.constructor requires a token list that ends in EOF. The Java parser reads tokens without a bounds check and relies on the scanner's final EOF.
- Parsing.Parser.Synchronize and Parsing.Synchronized require that the cursor is past the first token or not at EOF, so that `previous()` in `advance()` exists. Java would throw an index error there. Nothing in the parser calls `synchronize()`.
- Parsing.ParseExpression, Parsing.ParseOperand, Parsing.ParseLevel, Parsing.ParseUnary and Parsing.ParsePrimary state only progress and error bounds in their own contracts. The lemmas in `ParsingProperties` state the rest. For every input, trees are layered by binding level at every depth, inside parentheses and under prefix operators too (`LevelLayered`, `ParsedTreesLayered`), and a chain of one level's operators folds to the left whatever its operands (`LevelFoldsLeft`). Exact trees are stated for atoms, prefix runs and the five-token sentences `a o1 b o2 c`. No lemma states that printing a tree back to tokens and parsing them gives the tree again.
- Evaluation.Run states only that output is appended. What the run does at each statement is stated by the lemmas `StatementEffects`, `RunAppend`, `StopsAtFirstFault` and `RedeclarationOverwrites`.
