/**
 * The source buffer and the diagnostics it gives rise to (src/main.rs,
 * without the command-line entry point).
 */
module Sources {
  import opened Tokens

  /**
   * A named source. `text` is the UTF-8 encoding of the input, so the
   * byte view `bin` is the same sequence.
   */
  datatype Source = Source(name: string, text: seq<Byte>, bin: seq<Byte>)

  /** `Source::new`: keeps name and text and views the text as bytes. */
  function NewSource(name: string, text: seq<Byte>): (s: Source)
    ensures s.name == name && s.text == text
    ensures s.bin == text
  {
    Source(name, text, text)
  }

  datatype DiagnosticLevel = Debug | Info | Warning | Error

  datatype DiagnosticType = UnclosedMultilineComment {
    /** Severity of a diagnostic kind. */
    function Level(): (level: DiagnosticLevel)
      ensures this == UnclosedMultilineComment ==> level == Info
    {
      match this
      case UnclosedMultilineComment => Info
    }
  }

  /** A nonfatal finding, tagged with the position that caused it. */
  datatype Diagnostic = Diagnostic(ty: DiagnosticType, position: TokenPosition)

  /** The caller-owned, append-only collector the tokenizer reports into. */
  class Sink {
    var items: seq<Diagnostic>

    constructor ()
      ensures items == []
    {
      items := [];
    }

    /** Appends diagnostics in order (the `Extend` the tokenizer calls). */
    method Extend(ds: seq<Diagnostic>)
      modifies this`items
      ensures items == old(items) + ds
    {
      items := items + ds;
    }
  }
}
