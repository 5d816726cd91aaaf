/**
 * The interpreter's table of builtin functions and the four string
 * builtins it registers: length, concatenation, and writing a string to
 * standard output or standard error.
 */
module Builtins {
  import opened Wrappers
  import Ast

  /** The builtin functions, one constructor per Rust function. */
  datatype BuiltinFn = StringLen | StringConcat | StringDisplay | StringDisplayErr

  const StringLenName := "__builtin_string_len"
  const StringConcatName := "__builtin_string_concat"
  const StringDisplayName := "__builtin_string_display"
  const StringDisplayErrName := "__builtin_string_display_err"

  /** The table a fresh `Builtins` holds. */
  function DefaultTable(): map<string, BuiltinFn> {
    map[StringLenName := StringLen, StringConcatName := StringConcat,
        StringDisplayName := StringDisplay, StringDisplayErrName := StringDisplayErr]
  }

  /** A fresh table registers exactly the four string builtins, each under
      its own name, and no name is overwritten on the way. */
  lemma DefaultTableContents()
    ensures DefaultTable().Keys == {StringLenName, StringConcatName, StringDisplayName, StringDisplayErrName}
    ensures |DefaultTable()| == 4
    ensures DefaultTable()[StringLenName] == StringLen
    ensures DefaultTable()[StringConcatName] == StringConcat
    ensures DefaultTable()[StringDisplayName] == StringDisplay
    ensures DefaultTable()[StringDisplayErrName] == StringDisplayErr
  {
    assert StringLenName[17] == 'l' && StringConcatName[17] == 'c' && StringDisplayName[17] == 'd';
    assert |StringDisplayName| != |StringDisplayErrName|;
  }

  /** Registering a name changes that name's entry and no other. */
  lemma InsertKeepsOthers(m: map<string, BuiltinFn>, name: string, f: BuiltinFn, other: string)
    requires other != name
    ensures other in m[name := f] <==> other in m
    ensures other in m ==> m[name := f][other] == m[other]
  {
  }

  /** The bytes a character takes in UTF-8. */
  function Utf8Width(c: char): (n: nat)
    ensures 1 <= n <= 4
  {
    if c as int < 0x80 then 1
    else if c as int < 0x800 then 2
    else if c as int < 0x10000 then 3
    else 4
  }

  /** The byte length of a string's UTF-8 encoding, which is what Rust's
      `String::len` measures. */
  function Utf8Len(s: string): nat {
    if s == [] then 0 else Utf8Width(s[0]) + Utf8Len(s[1..])
  }

  /** The byte length of a concatenation is the sum of the byte lengths. */
  lemma {:induction false} Utf8LenConcat(a: string, b: string)
    ensures Utf8Len(a + b) == Utf8Len(a) + Utf8Len(b)
  {
    if a == [] {
      assert a + b == b;
    } else {
      assert (a + b)[0] == a[0];
      assert (a + b)[1..] == a[1..] + b;
      Utf8LenConcat(a[1..], b);
    }
  }

  /** A string takes between one and four bytes per character. */
  lemma {:induction false} Utf8LenBounds(s: string)
    ensures |s| <= Utf8Len(s) <= 4 * |s|
  {
    if s != [] {
      Utf8LenBounds(s[1..]);
    }
  }

  /** An ASCII string takes one byte per character. */
  lemma {:induction false} Utf8LenAscii(s: string)
    requires forall i :: 0 <= i < |s| ==> s[i] as int < 0x80
    ensures Utf8Len(s) == |s|
  {
    if s != [] {
      Utf8LenAscii(s[1..]);
    }
  }

  /** What evaluating one argument instruction gives: the interpreter
      context afterwards, and the value if the instruction produced one. */
  datatype Evaluated<C> = Evaluated(ctx: C, value: Option<Ast.Instance>)

  /** How a builtin call ends: it returns, leaving a context, an optional
      value and the text it wrote to each output stream; or it panics. */
  datatype Outcome<C> =
    | Returned(ctx: C, value: Option<Ast.Instance>, stdout: string, stderr: string)
    | Panicked

  /** Evaluate argument `i` in `ctx` and read it as a string. This panics
      when the argument is missing (the index), when it has no value
      (`unwrap`), or when the value is not a string. */
  function StringArg<C>(eval: (C, Ast.Instr) -> Evaluated<C>, ctx: C, args: seq<Ast.Instr>, i: nat)
    : (r: Option<(C, string)>)
    ensures r.Some? <==> i < |args| && eval(ctx, args[i]).value.Some? && eval(ctx, args[i]).value.value.StrInstance?
    ensures r.Some? ==> r.value == (eval(ctx, args[i]).ctx, eval(ctx, args[i]).value.value.s)
  {
    if i < |args| then
      var e := eval(ctx, args[i]);
      if e.value.Some? && e.value.value.StrInstance? then Some((e.ctx, e.value.value.s)) else None
    else None
  }

  /** Calling a builtin with the given argument instructions, which `eval`
      evaluates one after another, each in the context the previous left. */
  function Call<C>(f: BuiltinFn, eval: (C, Ast.Instr) -> Evaluated<C>, ctx: C, args: seq<Ast.Instr>)
    : (o: Outcome<C>)
    ensures o.Returned? ==> (o.value == None <==> f.StringDisplay? || f.StringDisplayErr?)
    ensures o.Returned? && !f.StringDisplay? ==> o.stdout == ""
    ensures o.Returned? && !f.StringDisplayErr? ==> o.stderr == ""
    ensures args == [] ==> o == Panicked
  {
    match StringArg(eval, ctx, args, 0)
    case None => Panicked
    case Some((c1, s)) =>
      match f
      case StringLen => Returned(c1, Some(Ast.IntInstance(Utf8Len(s))), "", "")
      case StringDisplay => Returned(c1, None, s, "")
      case StringDisplayErr => Returned(c1, None, "", s)
      case StringConcat =>
        match StringArg(eval, c1, args, 1)
        case None => Panicked
        case Some((c2, t)) => Returned(c2, Some(Ast.StrInstance(s + t)), "", "")
  }

  /** `string_len` returns the byte length of its string argument as an int. */
  lemma CallStringLen<C>(eval: (C, Ast.Instr) -> Evaluated<C>, ctx: C, args: seq<Ast.Instr>, c: C, s: string)
    requires |args| >= 1 && eval(ctx, args[0]) == Evaluated(c, Some(Ast.StrInstance(s)))
    ensures Call(StringLen, eval, ctx, args) == Returned(c, Some(Ast.IntInstance(Utf8Len(s))), "", "")
  {
  }

  /** `string_concat` evaluates its first argument, then its second in the
      context the first left, and returns the first string followed by the
      second. */
  lemma CallStringConcat<C>(eval: (C, Ast.Instr) -> Evaluated<C>, ctx: C, args: seq<Ast.Instr>,
                            c1: C, c2: C, lhs: string, rhs: string)
    requires |args| >= 2
    requires eval(ctx, args[0]) == Evaluated(c1, Some(Ast.StrInstance(lhs)))
    requires eval(c1, args[1]) == Evaluated(c2, Some(Ast.StrInstance(rhs)))
    ensures Call(StringConcat, eval, ctx, args) == Returned(c2, Some(Ast.StrInstance(lhs + rhs)), "", "")
  {
  }

  /** The two display builtins write their string argument, unchanged, to
      standard output and standard error respectively, and return no value. */
  lemma CallStringDisplay<C>(eval: (C, Ast.Instr) -> Evaluated<C>, ctx: C, args: seq<Ast.Instr>, c: C, s: string)
    requires |args| >= 1 && eval(ctx, args[0]) == Evaluated(c, Some(Ast.StrInstance(s)))
    ensures Call(StringDisplay, eval, ctx, args) == Returned(c, None, s, "")
    ensures Call(StringDisplayErr, eval, ctx, args) == Returned(c, None, "", s)
  {
  }

  /** The length builtin applied to a concatenation gives the sum of the
      lengths of the two parts. */
  lemma ConcatThenLen<C>(eval: (C, Ast.Instr) -> Evaluated<C>, ctx: C, args: seq<Ast.Instr>,
                         c1: C, c2: C, lhs: string, rhs: string)
    requires |args| >= 2
    requires eval(ctx, args[0]) == Evaluated(c1, Some(Ast.StrInstance(lhs)))
    requires eval(c1, args[1]) == Evaluated(c2, Some(Ast.StrInstance(rhs)))
    ensures var o := Call(StringConcat, eval, ctx, args);
            o.Returned? && o.value.Some? && o.value.value.StrInstance? &&
            Utf8Len(o.value.value.s) == Utf8Len(lhs) + Utf8Len(rhs)
  {
    Utf8LenConcat(lhs, rhs);
  }

  /** The builtin table. */
  class Builtins {
    var functions: map<string, BuiltinFn>

    /** `Builtins::new`: the four string builtins, registered one by one. */
    constructor ()
      ensures functions == DefaultTable()
    {
      functions := map[];
      new;
      Add(StringLenName, StringLen);
      Add(StringConcatName, StringConcat);
      Add(StringDisplayName, StringDisplay);
      Add(StringDisplayErrName, StringDisplayErr);
    }

    /** `add`: register `f` under `name`, replacing any earlier entry of
        that name and leaving every other entry as it was. */
    method Add(name: string, f: BuiltinFn)
      modifies this
      ensures functions == old(functions)[name := f]
    {
      functions := functions[name := f];
    }

    /** Whether `name` is registered. */
    predicate Contains(name: string)
      reads this
    {
      name in functions
    }

    /** `get`: the builtin registered under `name`, present exactly when
        `Contains(name)` holds. */
    function Get(name: string): (r: Option<BuiltinFn>)
      reads this
      ensures r.Some? <==> Contains(name)
      ensures r.Some? ==> name in functions && r.value == functions[name]
    {
      if name in functions then Some(functions[name]) else None
    }
  }
}
