/**
 * Tokens (src/main/java/Token.Java) and their kinds. The kinds are the
 * constants the scanner and parser use; they keep the Java enum spelling
 * because `Token.toString` prints those names.
 */
module Tokens {
  import opened Values

  datatype TokenType =
    // Single-character tokens
    | LEFT_PAREN | RIGHT_PAREN | LEFT_BRACE | RIGHT_BRACE
    | COMMA | DOT | MINUS | PLUS | SEMICOLON | SLASH | STAR
    // One- or two-character tokens
    | BANG | BANG_EQUAL | EQUAL | EQUAL_EQUAL
    | GREATER | GREATER_EQUAL | LESS | LESS_EQUAL
    // Literals
    | IDENTIFIER | STRING | NUMBER
    // Keywords
    | AND | BREAK | CLASS | ELSE | FALSE | FUN | FOR | IF | NIL | OR
    | PRINT | RETURN | SUPER | THIS | TRUE | VAR | WHILE
    | EOF

  /**
   * The name `Enum.toString` gives a kind: the constant's own identifier,
   * upper-case letters and underscores, so it never holds a blank.
   */
  function Name(k: TokenType): (r: string)
    ensures |r| > 0
    ensures ' ' !in r
  {
    match k
    case LEFT_PAREN => "LEFT_PAREN"
    case RIGHT_PAREN => "RIGHT_PAREN"
    case LEFT_BRACE => "LEFT_BRACE"
    case RIGHT_BRACE => "RIGHT_BRACE"
    case COMMA => "COMMA"
    case DOT => "DOT"
    case MINUS => "MINUS"
    case PLUS => "PLUS"
    case SEMICOLON => "SEMICOLON"
    case SLASH => "SLASH"
    case STAR => "STAR"
    case BANG => "BANG"
    case BANG_EQUAL => "BANG_EQUAL"
    case EQUAL => "EQUAL"
    case EQUAL_EQUAL => "EQUAL_EQUAL"
    case GREATER => "GREATER"
    case GREATER_EQUAL => "GREATER_EQUAL"
    case LESS => "LESS"
    case LESS_EQUAL => "LESS_EQUAL"
    case IDENTIFIER => "IDENTIFIER"
    case STRING => "STRING"
    case NUMBER => "NUMBER"
    case AND => "AND"
    case BREAK => "BREAK"
    case CLASS => "CLASS"
    case ELSE => "ELSE"
    case FALSE => "FALSE"
    case FUN => "FUN"
    case FOR => "FOR"
    case IF => "IF"
    case NIL => "NIL"
    case OR => "OR"
    case PRINT => "PRINT"
    case RETURN => "RETURN"
    case SUPER => "SUPER"
    case THIS => "THIS"
    case TRUE => "TRUE"
    case VAR => "VAR"
    case WHILE => "WHILE"
    case EOF => "EOF"
  }

  /**
   * An immutable token: its kind, the source text it was scanned from, its
   * literal payload (`Nil` standing for Java's `null`) and its line.
   */
  datatype Token = Token(kind: TokenType, lexeme: string, literal: Value, line: int)

  /** How string concatenation renders the literal field: `null` prints as "null". */
  function LiteralText(v: Value, show: NumberText): (r: string)
    ensures v == Nil ==> r == "null"
    ensures v != Nil ==> r == ObjectText(v, show)
  {
    if v == Nil then "null" else ObjectText(v, show)
  }

  /** `Token.toString`: kind, lexeme and literal separated by single spaces. */
  function TokenText(t: Token, show: NumberText): (r: string)
    ensures StartsWith(r, Name(t.kind) + " " + t.lexeme + " ")
    ensures EndsWith(r, " " + LiteralText(t.literal, show))
    ensures |r| == |Name(t.kind)| + |t.lexeme| + |LiteralText(t.literal, show)| + 2
  {
    var head := Name(t.kind) + " " + t.lexeme + " ";
    var r := head + LiteralText(t.literal, show);
    assert r[..|head|] == head;
    assert r[|head| - 1..] == " " + LiteralText(t.literal, show);
    r
  }

  /** The reserved words and their kinds. */
  const Keywords: map<string, TokenType> := map[
    "and" := AND,
    "break" := BREAK,
    "class" := CLASS,
    "else" := ELSE,
    "false" := FALSE,
    "for" := FOR,
    "fun" := FUN,
    "if" := IF,
    "nil" := NIL,
    "or" := OR,
    "print" := PRINT,
    "return" := RETURN,
    "super" := SUPER,
    "this" := THIS,
    "true" := TRUE,
    "var" := VAR,
    "while" := WHILE
  ]
}
