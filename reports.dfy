/**
 * The error sink the core reports to (`Cynch.error`). A report is kept as
 * the record the sink receives: a line, a location and a message.
 */
module Reports {
  import opened Tokens

  datatype Report = Report(line: int, location: string, message: string)

  /** The location text of `Cynch.error(Token, String)`. */
  function Where(t: Token): (w: string)
    ensures t.kind == EOF <==> w == " at end"
    ensures t.kind != EOF ==> w == " at '" + t.lexeme + "'"
  {
    if t.kind == EOF then " at end"
    else
      var w := " at '" + t.lexeme + "'";
      assert w[4] != " at end"[4];
      w
  }

  /** `Cynch.error(Token, String)`: an error reported at a token. */
  function ErrorAt(t: Token, message: string): (r: Report)
    ensures r.line == t.line && r.message == message
    ensures r.location != "" && (r.location == " at end" <==> t.kind == EOF)
  {
    Report(t.line, Where(t), message)
  }

  /** `Cynch.error(int, String)`: an error reported at a line with no location. */
  function ErrorOnLine(line: int, message: string): (r: Report)
    ensures r.line == line && r.message == message && r.location == ""
  {
    Report(line, "", message)
  }

  /** What `Cynch.runtimeError` receives from a `RuntimeError`: the operator's line and the message. */
  datatype RuntimeReport = RuntimeReport(line: int, message: string)
}
