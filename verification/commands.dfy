/**
  The opcode filter of the driver loop and the opcode dispatch of
  `HPGLDXF_process_command`. The filter compares the first two characters of a
  token exactly, the dispatch looks at the second character only and ignores
  its case.
*/
module Commands {
  import opened Wrappers

  /** The four opcodes the interpreter handles. */
  datatype Opcode = PenUp | PenDown | PlotAbsolute | PlotRelative

  /** The three non-fatal conditions reported on the error stream. */
  datatype CommandError = UnrecognizedOpcode | MissingCoordinates | MissingSeparator

  /** `strncmp(token, op, 2) == 0` for a two-letter `op` and a NUL-free token. */
  predicate HasPrefix(token: string, op: string)
    requires |op| == 2
  {
    |token| >= 2 && token[..2] == op
  }

  /**
    Only tokens opening with exactly `PA`, `PR`, `PD` or `PU` reach the
    interpreter: an upper-case `P` followed by an upper-case `A`, `R`, `D` or `U`.
  */
  predicate Recognised(token: string)
    ensures Recognised(token) <==> |token| >= 2 && token[0] == 'P' && token[1] in {'A', 'R', 'D', 'U'}
  {
    HasPrefix(token, "PA") || HasPrefix(token, "PR") || HasPrefix(token, "PD") || HasPrefix(token, "PU")
  }

  /**
    The character the dispatch switches on: `command[1]`, which for a
    one-character command is its NUL terminator.
  */
  function OpcodeLetter(command: string): char {
    if |command| >= 2 then command[1] else '\0'
  }

  /** The `switch` on the second character; `None` is its `default` branch. */
  function Dispatch(command: string): (op: Option<Opcode>)
    ensures op == Some(PenUp) <==> OpcodeLetter(command) in {'U', 'u'}
    ensures op == Some(PenDown) <==> OpcodeLetter(command) in {'D', 'd'}
    ensures op == Some(PlotAbsolute) <==> OpcodeLetter(command) in {'A', 'a'}
    ensures op == Some(PlotRelative) <==> OpcodeLetter(command) in {'R', 'r'}
  {
    match OpcodeLetter(command)
    case 'U' | 'u' => Some(PenUp)
    case 'D' | 'd' => Some(PenDown)
    case 'A' | 'a' => Some(PlotAbsolute)
    case 'R' | 'r' => Some(PlotRelative)
    case _ => None
  }

  /**
    Every token that passes the filter is dispatched to the opcode its prefix
    names, so the `default` branch cannot be reached from the driver loop.
  */
  lemma RecognisedIsDispatched(token: string)
    requires Recognised(token)
    ensures Dispatch(token).Some?
    ensures HasPrefix(token, "PA") ==> Dispatch(token) == Some(PlotAbsolute)
    ensures HasPrefix(token, "PR") ==> Dispatch(token) == Some(PlotRelative)
    ensures HasPrefix(token, "PD") ==> Dispatch(token) == Some(PenDown)
    ensures HasPrefix(token, "PU") ==> Dispatch(token) == Some(PenUp)
  {
    assert token[1] == token[..2][1];
  }

  /** The filter is case-sensitive although the dispatch is not. */
  lemma LowerCaseIsFiltered()
    ensures !Recognised("pa10,10") && Dispatch("pa10,10") == Some(PlotAbsolute)
    ensures !Recognised("Pu") && Dispatch("Pu") == Some(PenUp)
  {
    assert "pa10,10"[..2] == "pa";
    assert "Pu"[..2] == "Pu";
  }
}
