/**
 * The error builder shared by the parser and the interpreter: an error kind,
 * an optional message and an optional source location, assembled by
 * builder calls, plus the two mappings the kind drives (the label written
 * before the message and the process exit code).
 */
module Errors {
  import opened Wrappers

  /** Where in the source an error was found. */
  datatype ErrSpaceLocation = ErrSpaceLocation(line: nat, offset: nat, input: string)

  /** The error kinds, a `repr(u8)` enumeration: discriminants 0, 1, 2 in
      declaration order. */
  datatype ErrKind = Parsing | Interpreter | IO {

    /** The discriminant `kind as u8`. */
    function Discriminant(): (d: nat)
      ensures d < 3
      ensures d == 0 <==> this == Parsing
      ensures d == 1 <==> this == Interpreter
    {
      match this
      case Parsing => 0
      case Interpreter => 1
      case IO => 2
    }

    /** The label `emit` writes after "error type: ". */
    function Label(): string {
      match this
      case Parsing => "parsing"
      case Interpreter => "interpreter"
      case IO => "i/o"
    }

    /** The status `exit` hands to the operating system: the discriminant
        plus one, so no kind exits with the success status 0. */
    function ExitCode(): (code: int)
      ensures 1 <= code <= 3
      ensures code == Discriminant() + 1
    {
      Discriminant() + 1
    }
  }

  /** An error under construction or ready to be emitted. */
  datatype Error = Error(kind: ErrKind, msg: Option<string>, loc: Option<ErrSpaceLocation>)

  /** `Error::new`: a bare error of the given kind. */
  function New(kind: ErrKind): (e: Error)
    ensures e.kind == kind
    ensures e.msg == None && e.loc == None
  {
    Error(kind, None, None)
  }

  /** `with_msg`: set the message; kind and location carry over. */
  function WithMsg(e: Error, msg: string): (r: Error)
    ensures r.msg == Some(msg)
    ensures r.kind == e.kind && r.loc == e.loc
  {
    e.(msg := Some(msg))
  }

  /** `with_loc`: set the location; kind and message carry over. */
  function WithLoc(e: Error, loc: ErrSpaceLocation): (r: Error)
    ensures r.loc == Some(loc)
    ensures r.kind == e.kind && r.msg == e.msg
  {
    e.(loc := Some(loc))
  }

  /** The conversion from an I/O error, whose display text is `text`. */
  function FromIo(text: string): (e: Error)
    ensures e.kind == IO && e.msg == Some(text) && e.loc == None
  {
    WithMsg(New(IO), text)
  }

  /** The conversion from a parser error, whose display text is `text`. */
  function FromNom(text: string): (e: Error)
    ensures e.kind == Parsing && e.msg == Some(text) && e.loc == None
  {
    WithMsg(New(Parsing), text)
  }

  /** The kind an exit status belongs to, if any: the inverse of `ExitCode`. */
  function KindOfExitCode(code: int): Option<ErrKind> {
    if code == 1 then Some(Parsing)
    else if code == 2 then Some(Interpreter)
    else if code == 3 then Some(IO)
    else None
  }

  /** The kind a label names, if any: the inverse of `Label`. */
  function KindOfLabel(text: string): Option<ErrKind> {
    if text == "parsing" then Some(Parsing)
    else if text == "interpreter" then Some(Interpreter)
    else if text == "i/o" then Some(IO)
    else None
  }

  /** The exit status identifies the kind: reading it back gives the kind,
      and every status that names a kind is that kind's status. */
  lemma ExitCodeRoundTrip(kind: ErrKind, code: int)
    ensures KindOfExitCode(kind.ExitCode()) == Some(kind)
    ensures KindOfExitCode(code) == Some(kind) <==> code == kind.ExitCode()
  {
  }

  /** The concrete statuses: Parsing exits with 1, Interpreter with 2, IO with 3. */
  lemma ExitCodes()
    ensures Parsing.ExitCode() == 1
    ensures Interpreter.ExitCode() == 2
    ensures IO.ExitCode() == 3
  {
  }

  /** Distinct kinds have distinct labels, and the label identifies the kind. */
  lemma LabelRoundTrip(kind: ErrKind, text: string)
    ensures KindOfLabel(kind.Label()) == Some(kind)
    ensures KindOfLabel(text) == Some(kind) <==> text == kind.Label()
  {
  }

  /** Message and location are independent settings: the order of the two
      builder calls does not matter. */
  lemma BuilderCommutes(e: Error, msg: string, loc: ErrSpaceLocation)
    ensures WithLoc(WithMsg(e, msg), loc) == WithMsg(WithLoc(e, loc), msg)
  {
  }

  /** A later message replaces an earlier one, and so does a later location. */
  lemma BuilderLastWins(e: Error, m1: string, m2: string, l1: ErrSpaceLocation, l2: ErrSpaceLocation)
    ensures WithMsg(WithMsg(e, m1), m2) == WithMsg(e, m2)
    ensures WithLoc(WithLoc(e, l1), l2) == WithLoc(e, l2)
  {
  }

  /** The builder reaches every error: each one is `new` followed by the
      calls its present parts call for. */
  lemma BuilderComplete(e: Error)
    ensures e.msg.None? && e.loc.None? ==> e == New(e.kind)
    ensures e.msg.Some? && e.loc.None? ==> e == WithMsg(New(e.kind), e.msg.value)
    ensures e.msg.None? && e.loc.Some? ==> e == WithLoc(New(e.kind), e.loc.value)
    ensures e.msg.Some? && e.loc.Some? ==> e == WithLoc(WithMsg(New(e.kind), e.msg.value), e.loc.value)
  {
  }
}
