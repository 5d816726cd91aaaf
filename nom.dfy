/**
 * The part of the nom parser-combinator library that the jinko front end
 * relies on: `IResult`, the two kinds of error (`Err::Error`, which an `alt`
 * backtracks over, and `Err::Failure`, which stops it) and the combinators
 * `opt`, `alt` and `many0`.
 *
 * `opt` and `alt` are written over the results of their sub-parsers rather
 * than over the parsers themselves: every parser here is a pure function, so
 * applying it eagerly and choosing among the results is the same as applying
 * it lazily.
 */
module Nom {
  import opened Wrappers

  /** The `ErrorKind` nom attaches to an error (only the kinds used here). */
  datatype ErrorKind = Tag | OneOf | Many0 | Many1

  /** nom's error payload `(&str, ErrorKind)`: jinko puts either the remaining
      input or a message in the first component. */
  datatype PError = PError(text: string, kind: ErrorKind)

  /** `nom::Err`: `Error` is recoverable, `Failure` is fatal for `alt`. */
  datatype NomErr = Error(e: PError) | Failure(e: PError)

  /** `IResult<&str, T>`: the remaining input and the parsed value, or an error. */
  datatype IResult<+T> = Ok(rest: string, value: T) | Err(err: NomErr) {

    predicate IsFailure() { Err? }

    function PropagateFailure<U>(): IResult<U>
      requires Err?
    {
      Err(err)
    }

    function Extract(): IResult<T>
      requires Ok?
    {
      this
    }

    /** A recoverable error, the kind `alt`, `opt` and `many0` move past. */
    predicate IsRecoverable() { Err? && err.Error? }
  }

  /** A parser result that, when it succeeds, leaves no more input than it
      was given. */
  ghost predicate Consumes<T>(r: IResult<T>, input: string) {
    r.Ok? ==> |r.rest| <= |input|
  }

  /** A parser that never leaves more input than it is given. */
  ghost predicate AlwaysConsumes<T>(p: string -> IResult<T>) {
    forall s :: Consumes(p(s), s)
  }

  /** `opt(p)(input)`, given `r == p(input)`: a recoverable error becomes
      `None` with nothing consumed; a failure is passed on. */
  function Opt<T>(r: IResult<T>, input: string): (o: IResult<Option<T>>)
    ensures r.IsRecoverable() <==> o == Ok(input, None)
    ensures r.Ok? <==> o.Ok? && o.value.Some?
    ensures r.Ok? ==> o == Ok(r.rest, Some(r.value))
    ensures r.Err? && r.err.Failure? ==> o == Err(r.err)
    ensures Consumes(r, input) ==> Consumes(o, input)
  {
    match r
    case Ok(rest, v) => Ok(rest, Some(v))
    case Err(Error(_)) => Ok(input, None)
    case Err(Failure(e)) => Err(Failure(e))
  }

  /** `alt((p, q))`, given the results of both: `q`'s result is taken only if
      `p` failed recoverably, so a fatal failure of `p` is final. */
  function Alt<T>(r1: IResult<T>, r2: IResult<T>): (r: IResult<T>)
    ensures r == (if r1.IsRecoverable() then r2 else r1)
  {
    if r1.IsRecoverable() then r2 else r1
  }

  /** `many0(p)`: apply `p` as long as it succeeds; stop, keeping what was
      collected, at its first recoverable error; pass on a failure; and, as
      nom does, refuse a success that left the length of the input unchanged. */
  function Many0Of<T>(p: string -> IResult<T>, input: string): (r: IResult<seq<T>>)
    requires AlwaysConsumes(p)
    ensures Consumes(r, input)
    ensures r.Ok? ==> p(r.rest).IsRecoverable()
    ensures r.Err? ==> (r.err.Failure? || r.err == Error(PError(r.err.e.text, ErrorKind.Many0)))
    decreases |input|
  {
    match p(input)
    case Err(Error(_)) => Ok(input, [])
    case Err(Failure(e)) => Err(Failure(e))
    case Ok(rest, v) =>
      assert Consumes(p(input), input);
      if |rest| == |input| then Err(Error(PError(input, ErrorKind.Many0)))
      else
        match Many0Of(p, rest)
        case Ok(rest', vs) => Ok(rest', [v] + vs)
        case Err(e) => Err(e)
  }

  /** `many0` stops, with nothing collected, at a recoverable error. */
  lemma Many0Nil<T>(p: string -> IResult<T>, input: string)
    requires AlwaysConsumes(p) && p(input).IsRecoverable()
    ensures Many0Of(p, input) == Ok(input, [])
  {
  }

  /** A successful step that consumed input is kept, in front of the rest. */
  lemma Many0Cons<T>(p: string -> IResult<T>, input: string, rest: string, v: T, tail: string, vs: seq<T>)
    requires AlwaysConsumes(p) && p(input) == Ok(rest, v) && |rest| < |input|
    requires Many0Of(p, rest) == Ok(tail, vs)
    ensures Many0Of(p, input) == Ok(tail, [v] + vs)
  {
  }
}
