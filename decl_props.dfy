/**
 * What the declaration constructs read: a typed argument `name : type`, a
 * parenthesised list of them, and an optional `-> type` return type. Each
 * round trip lays the construct out with arbitrary whitespace where the
 * grammar allows it and shows that the parser returns the declaration and
 * stops exactly after it.
 */
module DeclProps {
  import opened Wrappers
  import opened Nom
  import Ast
  import Tokens
  import C = Constructs
  import opened SeqFacts

  /** Text that starts with a name starts with an identifier character. */
  lemma NameHead(z: string, name: string, t: string)
    requires z == name + t && Tokens.IsName(name)
    ensures z != [] && Tokens.IsIdentStart(z[0]) && Tokens.NoLeadingWhitespace(z)
  {
    assert z[0] == name[0];
  }

  /** Text that starts with the punctuation character `p`. */
  lemma PunctAt(p: char, x: string, s: string)
    requires x == [p] + s && !Tokens.IsWhitespace(p) && !Tokens.IsIdentChar(p)
    ensures x != [] && x[0] == p && !Tokens.IsIdentChar(x[0]) && Tokens.NoLeadingWhitespace(x)
    ensures Tokens.MaybeConsumeWhitespaces(x) == Ok(x, "")
    ensures Tokens.Tag([p], x) == Ok(s, [p])
  {
    Tokens.TagOf([p], s);
    Tokens.MaybeConsumeWhitespacesNone(x);
  }

  // ---------------------------------------------------------------------
  // identifier_type

  /** The steps of `identifier_type` put together. */
  lemma IdentifierTypeAt(input: string, x: string, y: string, z: string, rest: string, name: string, ty: string)
    requires Tokens.Identifier(input) == Ok(x, name)
    requires Tokens.MaybeConsumeWhitespaces(x).rest == x
    requires Tokens.Colon(x) == Ok(y, ":")
    requires Tokens.MaybeConsumeWhitespaces(y).rest == z
    requires Tokens.Identifier(z) == Ok(rest, ty)
    ensures C.IdentifierType(input) == Ok(rest, Ast.FunctionDecArg(name, ty))
  {
  }

  /** `name ws1 : ws2 ty after` followed by `rest` reads as the declaration. */
  lemma IdentifierTypeIn(input: string, name: string, ws1: string, ws2: string, ty: string, after: string, rest: string)
    requires input == name + ws1 + (":" + (ws2 + (ty + after + rest)))
    requires Tokens.IsName(name) && Tokens.IsName(ty)
    requires Tokens.AllWhitespace(ws1) && Tokens.AllWhitespace(ws2) && Tokens.AllWhitespace(after)
    requires Tokens.NoLeadingWhitespace(rest) && (after == [] ==> rest == [] || !Tokens.IsIdentChar(rest[0]))
    ensures C.IdentifierType(input) == Ok(rest, Ast.FunctionDecArg(name, ty))
  {
    var z := ty + after + rest;
    var y := ws2 + z;
    var x := ":" + y;
    NameThenColon(input, name, ws1, x, y);
    WhitespaceThenType(y, ws2, z, ty, after, rest);
    IdentifierTypeAt(input, x, y, z, rest, name, ty);
  }

  /** The name and the colon of `identifier_type`. */
  lemma NameThenColon(input: string, name: string, ws1: string, x: string, y: string)
    requires input == name + ws1 + x && x == ":" + y
    requires Tokens.IsName(name) && Tokens.AllWhitespace(ws1)
    ensures Tokens.Identifier(input) == Ok(x, name)
    ensures Tokens.MaybeConsumeWhitespaces(x).rest == x
    ensures Tokens.Colon(x) == Ok(y, ":")
  {
    PunctAt(':', x, y);
    Tokens.IdentifierOf(name, ws1, x);
  }

  /** The whitespace and the type of `identifier_type`. */
  lemma WhitespaceThenType(y: string, ws2: string, z: string, ty: string, after: string, rest: string)
    requires y == ws2 + z && z == ty + after + rest
    requires Tokens.IsName(ty) && Tokens.AllWhitespace(ws2) && Tokens.AllWhitespace(after)
    requires Tokens.NoLeadingWhitespace(rest) && (after == [] ==> rest == [] || !Tokens.IsIdentChar(rest[0]))
    ensures Tokens.MaybeConsumeWhitespaces(y).rest == z
    ensures Tokens.Identifier(z) == Ok(rest, ty)
  {
    NameHead(z, ty, after + rest);
    Tokens.MaybeConsumeWhitespacesOf(ws2, z);
    Tokens.IdentifierOf(ty, after, rest);
  }

  /** A typed argument with the whitespace before, inside and after it. */
  datatype Typed = Typed(before: string, name: string, ws1: string, ws2: string, ty: string, after: string)

  /** The text of a typed argument: `before name ws1 : ws2 ty after`. */
  function TypedText(d: Typed): string {
    d.before + d.name + d.ws1 + ":" + d.ws2 + d.ty + d.after
  }

  /** The declaration a typed argument stands for. */
  function Decl(d: Typed): Ast.FunctionDecArg {
    Ast.FunctionDecArg(d.name, d.ty)
  }

  /** Names are identifiers and the layout is whitespace. */
  ghost predicate WellTyped(d: Typed) {
    Tokens.IsName(d.name) && Tokens.IsName(d.ty)
    && Tokens.AllWhitespace(d.before) && Tokens.AllWhitespace(d.ws1)
    && Tokens.AllWhitespace(d.ws2) && Tokens.AllWhitespace(d.after)
  }

  lemma TypedShape(d: Typed, t: string) returns (core: string)
    ensures core == d.name + d.ws1 + (":" + (d.ws2 + (d.ty + d.after + t)))
    ensures TypedText(d) + t == d.before + core
  {
    core := d.name + d.ws1 + (":" + (d.ws2 + (d.ty + d.after + t)));
  }

  /** A typed argument in front of `t`: skipping whitespace leaves `core`,
      on which `identifier_type` reads the declaration and stops at `t`. */
  lemma TypedAt(input: string, d: Typed, t: string) returns (core: string)
    requires input == TypedText(d) + t && WellTyped(d)
    requires Tokens.NoLeadingWhitespace(t) && (d.after == [] ==> t == [] || !Tokens.IsIdentChar(t[0]))
    ensures Tokens.MaybeConsumeWhitespaces(input) == Ok(core, d.before)
    ensures C.IdentifierType(core) == Ok(t, Decl(d))
    ensures core != [] && Tokens.IsIdentStart(core[0])
  {
    core := TypedShape(d, t);
    NameHead(core, d.name, d.ws1 + (":" + (d.ws2 + (d.ty + d.after + t))));
    Tokens.MaybeConsumeWhitespacesOf(d.before, core);
    IdentifierTypeIn(core, d.name, d.ws1, d.ws2, d.ty, d.after, t);
  }

  /** `identifier_type` round trip: a bare typed argument reads back as its
      declaration, whatever whitespace surrounds the colon and follows the
      type. */
  lemma IdentifierTypeRoundTrip(d: Typed, rest: string)
    requires WellTyped(d) && d.before == []
    requires Tokens.NoLeadingWhitespace(rest) && (d.after == [] ==> rest == [] || !Tokens.IsIdentChar(rest[0]))
    ensures C.IdentifierType(TypedText(d) + rest) == Ok(rest, Decl(d))
  {
    var core := TypedAt(TypedText(d) + rest, d, rest);
  }

  /** `identifier_type` needs a colon after the name. */
  lemma IdentifierTypeNoColon(name: string, ws: string, rest: string)
    requires Tokens.IsName(name) && Tokens.AllWhitespace(ws) && Tokens.NoLeadingWhitespace(rest)
    requires rest == [] || (rest[0] != ':' && !Tokens.IsIdentChar(rest[0]))
    ensures C.IdentifierType(name + ws + rest) == Tokens.Fail(rest)
  {
    Tokens.IdentifierOf(name, ws, rest);
    Tokens.MaybeConsumeWhitespacesNone(rest);
    Tokens.TagMismatch(':', rest);
  }

  // ---------------------------------------------------------------------
  // identifier_type_comma and many0

  /** The steps of `identifier_type_comma` put together. */
  lemma IdentifierTypeCommaAt(input: string, core: string, v: Ast.FunctionDecArg, t: string)
    requires Tokens.MaybeConsumeWhitespaces(input).rest == core
    requires C.IdentifierType(core) == Ok(t, v)
    requires Tokens.MaybeConsumeWhitespaces(t).rest == t
    ensures Tokens.Comma(t).Ok? ==> C.IdentifierTypeComma(input) == Ok(Tokens.Comma(t).rest, v)
    ensures Tokens.Comma(t).Err? ==> C.IdentifierTypeComma(input) == Tokens.Fail(t)
  {
  }

  /** A typed argument and its comma. */
  lemma IdentifierTypeCommaIn(input: string, d: Typed, rest: string)
    requires input == TypedText(d) + ("," + rest) && WellTyped(d)
    ensures C.IdentifierTypeComma(input) == Ok(rest, Decl(d))
  {
    PunctAt(',', "," + rest, rest);
    var core := TypedAt(input, d, "," + rest);
    IdentifierTypeCommaAt(input, core, Decl(d), "," + rest);
  }

  /** A typed argument followed by `)` instead of a comma: the recoverable
      error that ends `many0`. */
  lemma IdentifierTypeCommaStops(input: string, d: Typed, rest: string) returns (core: string)
    requires input == TypedText(d) + (")" + rest) && WellTyped(d)
    ensures C.IdentifierTypeComma(input) == Tokens.Fail(")" + rest)
    ensures Tokens.MaybeConsumeWhitespaces(input) == Ok(core, d.before)
    ensures C.IdentifierType(core) == Ok(")" + rest, Decl(d))
    ensures core != [] && Tokens.IsIdentStart(core[0])
    ensures Tokens.RightParenthesis(")" + rest) == Ok(rest, ")")
  {
    PunctAt(')', ")" + rest, rest);
    core := TypedAt(input, d, ")" + rest);
    Tokens.TagMismatch(',', ")" + rest);
    IdentifierTypeCommaAt(input, core, Decl(d), ")" + rest);
  }

  /** The comma-terminated typed arguments of a declaration list. */
  function DeclsText(ds: seq<Typed>): string {
    if ds == [] then "" else TypedText(ds[0]) + "," + DeclsText(ds[1..])
  }

  /** The declarations, in order. */
  function Decls(ds: seq<Typed>): (vs: seq<Ast.FunctionDecArg>)
    ensures |vs| == |ds| && forall i :: 0 <= i < |ds| ==> vs[i] == Decl(ds[i])
  {
    if ds == [] then [] else [Decl(ds[0])] + Decls(ds[1..])
  }

  ghost predicate AllWellTyped(ds: seq<Typed>) {
    forall i :: 0 <= i < |ds| ==> WellTyped(ds[i])
  }

  lemma AllWellTypedTail(ds: seq<Typed>)
    requires AllWellTyped(ds) && ds != []
    ensures AllWellTyped(ds[1..])
  {
    forall i | 0 <= i < |ds[1..]| ensures WellTyped(ds[1..][i]) {
      assert ds[1..][i] == ds[i + 1];
    }
  }

  /** `identifier_type_comma` reads the first comma-terminated argument. */
  lemma DeclsHead(ds: seq<Typed>, tail: string)
    requires AllWellTyped(ds) && ds != []
    ensures C.IdentifierTypeComma(DeclsText(ds) + tail) == Ok(DeclsText(ds[1..]) + tail, Decl(ds[0]))
  {
    assert WellTyped(ds[0]);
    Assoc4(TypedText(ds[0]), ",", DeclsText(ds[1..]), tail);
    IdentifierTypeCommaIn(DeclsText(ds) + tail, ds[0], DeclsText(ds[1..]) + tail);
  }

  /** One round of `many0(identifier_type_comma)`. */
  lemma Many0DeclsStep(input: string, more: string, v: Ast.FunctionDecArg, tail: string, vs: seq<Ast.FunctionDecArg>)
    requires C.IdentifierTypeComma(input) == Ok(more, v)
    requires AlwaysConsumes(C.IdentifierTypeComma) && Many0Of(C.IdentifierTypeComma, more) == Ok(tail, vs)
    ensures Many0Of(C.IdentifierTypeComma, input) == Ok(tail, [v] + vs)
  {
    Many0Cons(C.IdentifierTypeComma, input, more, v, tail, vs);
  }

  /** `many0(identifier_type_comma)` collects the comma-terminated
      arguments in order and stops in front of `tail`. */
  lemma {:induction false} Many0DeclsOf(ds: seq<Typed>, tail: string)
    requires AllWellTyped(ds) && C.IdentifierTypeComma(tail).IsRecoverable()
    ensures AlwaysConsumes(C.IdentifierTypeComma)
    ensures Many0Of(C.IdentifierTypeComma, DeclsText(ds) + tail) == Ok(tail, Decls(ds))
    decreases |ds|
  {
    assert AlwaysConsumes(C.IdentifierTypeComma);
    if ds == [] {
      assert DeclsText(ds) + tail == tail;
      Many0Nil(C.IdentifierTypeComma, tail);
    } else {
      DeclsHead(ds, tail);
      AllWellTypedTail(ds);
      Many0DeclsOf(ds[1..], tail);
      Many0DeclsStep(DeclsText(ds) + tail, DeclsText(ds[1..]) + tail, Decl(ds[0]), tail, Decls(ds[1..]));
    }
  }

  // ---------------------------------------------------------------------
  // args_dec

  /** `( ws )`. */
  lemma ArgsDecEmptyOf(ws: string, rest: string)
    requires Tokens.AllWhitespace(ws)
    ensures C.ArgsDec("(" + (ws + (")" + rest))) == Ok(rest, [])
  {
    PunctAt('(', "(" + (ws + (")" + rest)), ws + (")" + rest));
    PunctAt(')', ")" + rest, rest);
    Tokens.MaybeConsumeWhitespacesOf(ws, ")" + rest);
  }

  /** The text of a non-empty declaration list: `(`, whitespace, the
      comma-terminated arguments, the last argument and `)`. */
  function ArgsDecText(ws: string, ds: seq<Typed>, last: Typed): string {
    "(" + ws + DeclsText(ds) + TypedText(last) + ")"
  }

  /** The whitespace after `(` is `ws`: the first argument has none of its own. */
  ghost predicate FirstBare(ds: seq<Typed>, last: Typed) {
    if ds == [] then last.before == [] else ds[0].before == []
  }

  lemma ArgsDecShape(ws: string, ds: seq<Typed>, last: Typed, rest: string) returns (b: string, l: string)
    ensures l == TypedText(last) + (")" + rest) && b == DeclsText(ds) + l
    ensures ArgsDecText(ws, ds, last) + rest == "(" + (ws + b)
  {
    l := TypedText(last) + (")" + rest);
    b := DeclsText(ds) + l;
    AssocLast("(" + ws, DeclsText(ds), TypedText(last), ")", rest);
    Assoc4("(", ws, DeclsText(ds), l);
  }

  /** The text after `( ws` begins with the first argument's name. */
  lemma FirstNameHead(ds: seq<Typed>, last: Typed, l: string, t: string, b: string)
    requires AllWellTyped(ds) && WellTyped(last) && FirstBare(ds, last)
    requires l == TypedText(last) + t && b == DeclsText(ds) + l
    ensures b != [] && Tokens.IsIdentStart(b[0])
  {
    if ds == [] {
      var core := TypedShape(last, t);
      EmptyLeftOf(last.before, core);
      NameHead(core, last.name, last.ws1 + (":" + (last.ws2 + (last.ty + last.after + t))));
    } else {
      var d := ds[0];
      var t' := "," + (DeclsText(ds[1..]) + l);
      assert WellTyped(d);
      Assoc4(TypedText(d), ",", DeclsText(ds[1..]), l);
      var core := TypedShape(d, t');
      EmptyLeftOf(d.before, core);
      NameHead(core, d.name, d.ws1 + (":" + (d.ws2 + (d.ty + d.after + t'))));
    }
  }

  lemma EmptyLeftOf(e: string, s: string)
    requires e == []
    ensures e + s == s
  {
  }

  /** The steps of `args_dec_non_empty` put together. */
  lemma ArgsDecNonEmptyAt(input: string, a: string, b: string, vs: seq<Ast.FunctionDecArg>, l: string,
                          core: string, v: Ast.FunctionDecArg, rest: string)
    requires Tokens.LeftParenthesis(input) == Ok(a, "(")
    requires Tokens.MaybeConsumeWhitespaces(a).rest == b
    requires AlwaysConsumes(C.IdentifierTypeComma) && Many0Of(C.IdentifierTypeComma, b) == Ok(l, vs)
    requires Tokens.MaybeConsumeWhitespaces(l).rest == core
    requires C.IdentifierType(core) == Ok(")" + rest, v)
    requires Tokens.RightParenthesis(")" + rest) == Ok(rest, ")")
    ensures C.ArgsDecNonEmpty(input) == Ok(rest, vs + [v])
  {
  }

  /** `args_dec_empty` fails recoverably in front of an argument, so `alt`
      goes on to the non-empty form. */
  lemma ArgsDecEmptyFails(input: string, a: string, b: string)
    requires Tokens.LeftParenthesis(input) == Ok(a, "(")
    requires Tokens.MaybeConsumeWhitespaces(a).rest == b
    requires b != [] && Tokens.IsIdentStart(b[0])
    ensures C.ArgsDecEmpty(input) == Tokens.Fail(b)
  {
    Tokens.TagMismatch(')', b);
  }

  /** `alt` of the two forms, when the empty one fails recoverably. */
  lemma ArgsDecAlt(input: string, b: string, vs: seq<Ast.FunctionDecArg>, rest: string)
    requires C.ArgsDecEmpty(input) == Tokens.Fail(b)
    requires C.ArgsDecNonEmpty(input) == Ok(rest, vs)
    ensures C.ArgsDec(input) == Ok(rest, vs)
  {
  }

  /** `args_dec` round trip: a parenthesised list of typed arguments reads
      back as their declarations in order, the last one included. */
  lemma ArgsDecRoundTrip(ws: string, ds: seq<Typed>, last: Typed, rest: string)
    requires Tokens.AllWhitespace(ws) && AllWellTyped(ds) && WellTyped(last) && FirstBare(ds, last)
    ensures C.ArgsDec(ArgsDecText(ws, ds, last) + rest) == Ok(rest, Decls(ds) + [Decl(last)])
  {
    var b, l := ArgsDecShape(ws, ds, last, rest);
    FirstNameHead(ds, last, l, ")" + rest, b);
    ArgsDecIn(ArgsDecText(ws, ds, last) + rest, ws, b, ds, l, last, rest);
  }

  lemma ArgsDecIn(input: string, ws: string, b: string, ds: seq<Typed>, l: string, last: Typed, rest: string)
    requires input == "(" + (ws + b) && l == TypedText(last) + (")" + rest) && b == DeclsText(ds) + l
    requires b != [] && Tokens.IsIdentStart(b[0])
    requires Tokens.AllWhitespace(ws) && AllWellTyped(ds) && WellTyped(last)
    ensures C.ArgsDec(input) == Ok(rest, Decls(ds) + [Decl(last)])
  {
    OpenAt(input, ws, b);
    ArgsDecEmptyFails(input, ws + b, b);
    ArgsDecNonEmptyIn(input, ws, b, ds, l, last, rest);
    ArgsDecAlt(input, b, Decls(ds) + [Decl(last)], rest);
  }

  /** `( ws` in front of text that does not start with whitespace. */
  lemma OpenAt(input: string, ws: string, b: string)
    requires input == "(" + (ws + b) && Tokens.AllWhitespace(ws)
    requires b != [] && Tokens.IsIdentStart(b[0])
    ensures Tokens.LeftParenthesis(input) == Ok(ws + b, "(")
    ensures Tokens.MaybeConsumeWhitespaces(ws + b).rest == b
  {
    PunctAt('(', input, ws + b);
    Tokens.MaybeConsumeWhitespacesOf(ws, b);
  }

  lemma ArgsDecNonEmptyIn(input: string, ws: string, b: string, ds: seq<Typed>, l: string, last: Typed, rest: string)
    requires Tokens.LeftParenthesis(input) == Ok(ws + b, "(")
    requires Tokens.MaybeConsumeWhitespaces(ws + b).rest == b
    requires l == TypedText(last) + (")" + rest) && b == DeclsText(ds) + l
    requires AllWellTyped(ds) && WellTyped(last)
    ensures C.ArgsDecNonEmpty(input) == Ok(rest, Decls(ds) + [Decl(last)])
  {
    var core := IdentifierTypeCommaStops(l, last, rest);
    Many0DeclsIn(b, ds, l);
    ArgsDecNonEmptyAt(input, ws + b, b, Decls(ds), l, core, Decl(last), rest);
  }

  lemma Many0DeclsIn(b: string, ds: seq<Typed>, l: string)
    requires b == DeclsText(ds) + l && AllWellTyped(ds) && C.IdentifierTypeComma(l).IsRecoverable()
    ensures AlwaysConsumes(C.IdentifierTypeComma) && Many0Of(C.IdentifierTypeComma, b) == Ok(l, Decls(ds))
  {
    Many0DeclsOf(ds, l);
  }

  // ---------------------------------------------------------------------
  // return_type

  /** Text that starts with the arrow. */
  lemma ArrowAt(a: string, b: string)
    requires a == "->" + b
    ensures a != [] && a[0] == '-' && Tokens.NoLeadingWhitespace(a)
    ensures Tokens.Arrow(a) == Ok(b, "->")
  {
    Tokens.TagOf("->", b);
    assert a[0] == '-';
  }

  /** The steps of `return_type_non_void` put together. */
  lemma ReturnTypeNonVoidAt(input: string, a: string, b: string, z: string, rest: string, ty: string)
    requires Tokens.MaybeConsumeWhitespaces(input).rest == a
    requires Tokens.Arrow(a) == Ok(b, "->")
    requires Tokens.MaybeConsumeWhitespaces(b).rest == z
    requires Tokens.Identifier(z) == Ok(rest, ty)
    ensures C.ReturnType(input) == Ok(rest, Some(ty))
  {
  }

  /** The text of a return type: `ws -> ws2 ty after`. */
  function ReturnText(ws: string, ws2: string, ty: string, after: string): string {
    ws + "->" + ws2 + ty + after
  }

  lemma ReturnShape(ws: string, ws2: string, ty: string, after: string, rest: string) returns (a: string, z: string)
    ensures z == ty + after + rest && a == "->" + (ws2 + z)
    ensures ReturnText(ws, ws2, ty, after) + rest == ws + a
  {
    z := ty + after + rest;
    a := "->" + (ws2 + z);
  }

  /** `return_type` round trip: `-> type`, with any whitespace around the
      arrow and after the type, reads back as that type. */
  lemma ReturnTypeRoundTrip(ws: string, ws2: string, ty: string, after: string, rest: string)
    requires Tokens.AllWhitespace(ws) && Tokens.AllWhitespace(ws2) && Tokens.AllWhitespace(after)
    requires Tokens.IsName(ty) && Tokens.NoLeadingWhitespace(rest)
    requires after == [] ==> rest == [] || !Tokens.IsIdentChar(rest[0])
    ensures C.ReturnType(ReturnText(ws, ws2, ty, after) + rest) == Ok(rest, Some(ty))
  {
    var a, z := ReturnShape(ws, ws2, ty, after, rest);
    ReturnTypeIn(ReturnText(ws, ws2, ty, after) + rest, ws, ws2, ty, after, rest, a, z);
  }

  lemma ReturnTypeIn(input: string, ws: string, ws2: string, ty: string, after: string, rest: string,
                     a: string, z: string)
    requires Tokens.AllWhitespace(ws) && Tokens.AllWhitespace(ws2) && Tokens.AllWhitespace(after)
    requires Tokens.IsName(ty) && Tokens.NoLeadingWhitespace(rest)
    requires after == [] ==> rest == [] || !Tokens.IsIdentChar(rest[0])
    requires z == ty + after + rest && a == "->" + (ws2 + z) && input == ws + a
    ensures C.ReturnType(input) == Ok(rest, Some(ty))
  {
    ArrowAt(a, ws2 + z);
    Tokens.MaybeConsumeWhitespacesOf(ws, a);
    WhitespaceThenType(ws2 + z, ws2, z, ty, after, rest);
    ReturnTypeNonVoidAt(input, a, ws2 + z, z, rest, ty);
  }

  /** Without an arrow the return type is void, and only the leading
      whitespace is consumed. */
  lemma ReturnTypeVoidOf(ws: string, rest: string)
    requires Tokens.AllWhitespace(ws) && Tokens.NoLeadingWhitespace(rest)
    requires rest == [] || rest[0] != '-'
    ensures C.ReturnType(ws + rest) == Ok(rest, None)
  {
    Tokens.MaybeConsumeWhitespacesOf(ws, rest);
    Tokens.TagMismatchHead("->", rest);
  }

  /** An arrow without a type name: the non-void form fails recoverably and
      the void form reports the arrow, with the text after it. */
  lemma ReturnTypeArrowAlone(ws: string, ws2: string, rest: string)
    requires Tokens.AllWhitespace(ws) && Tokens.AllWhitespace(ws2) && Tokens.NoLeadingWhitespace(rest)
    requires rest == [] || !Tokens.IsIdentStart(rest[0])
    ensures C.ReturnType(ws + ("->" + (ws2 + rest))) == Err(Error(PError(ws2 + rest, OneOf)))
  {
    var a := "->" + (ws2 + rest);
    ArrowAt(a, ws2 + rest);
    Tokens.MaybeConsumeWhitespacesOf(ws, a);
    Tokens.MaybeConsumeWhitespacesOf(ws2, rest);
    ReturnTypeArrowAloneAt(ws + a, a, ws2 + rest, rest);
  }

  lemma ReturnTypeArrowAloneAt(input: string, a: string, b: string, z: string)
    requires Tokens.MaybeConsumeWhitespaces(input).rest == a
    requires Tokens.Arrow(a) == Ok(b, "->")
    requires Tokens.MaybeConsumeWhitespaces(b).rest == z
    requires z == [] || !Tokens.IsIdentStart(z[0])
    ensures C.ReturnType(input) == Err(Error(PError(b, OneOf)))
  {
  }

  // ---------------------------------------------------------------------
  // The examples of the source's tests

  /** `name: type` and `name     :type`. */
  lemma IdentifierTypeExamples()
    ensures C.IdentifierType("name: type") == Ok("", Ast.FunctionDecArg("name", "type"))
    ensures C.IdentifierType("name     :type") == Ok("", Ast.FunctionDecArg("name", "type"))
  {
    var d1 := Typed("", "name", "", " ", "type", "");
    var d2 := Typed("", "name", "     ", "", "type", "");
    TypedTexts(d1, d2);
    IdentifierTypeRoundTrip(d1, "");
    IdentifierTypeRoundTrip(d2, "");
  }

  lemma TypedTexts(d1: Typed, d2: Typed)
    requires d1 == Typed("", "name", "", " ", "type", "")
    requires d2 == Typed("", "name", "     ", "", "type", "")
    ensures TypedText(d1) + "" == "name: type" && TypedText(d2) + "" == "name     :type"
    ensures WellTyped(d1) && WellTyped(d2) && Tokens.NoLeadingWhitespace("")
    ensures Decl(d1) == Ast.FunctionDecArg("name", "type") && Decl(d2) == Decl(d1)
  {
  }

  /** `()`: no arguments. */
  lemma ArgsDecExampleEmpty()
    ensures C.ArgsDec("()") == Ok("", [])
  {
    EmptyText();
    ArgsDecEmptyOf("", "");
  }

  lemma EmptyText()
    ensures "(" + ("" + (")" + "")) == "()" && Tokens.AllWhitespace("")
  {
  }

  /** `(name :type)`: one argument. */
  lemma ArgsDecExampleOne()
    ensures C.ArgsDec("(name :type)") == Ok("", [Ast.FunctionDecArg("name", "type")])
  {
    var last := Typed("", "name", " ", "", "type", "");
    OneText(last);
    ArgsDecRoundTrip("", [], last, "");
  }

  lemma OneText(last: Typed)
    requires last == Typed("", "name", " ", "", "type", "")
    ensures ArgsDecText("", [], last) + "" == "(name :type)"
    ensures Tokens.AllWhitespace("") && AllWellTyped([]) && WellTyped(last) && FirstBare([], last)
    ensures Decls([]) + [Decl(last)] == [Ast.FunctionDecArg("name", "type")]
  {
    assert DeclsText([]) == "";
  }

  /** `(name :type, name1      : type1)`: two arguments, in order. */
  lemma ArgsDecExampleTwo()
    ensures C.ArgsDec("(name :type, name1      : type1)")
         == Ok("", [Ast.FunctionDecArg("name", "type"), Ast.FunctionDecArg("name1", "type1")])
  {
    var first := Typed("", "name", " ", "", "type", "");
    var last := Typed(" ", "name1", "      ", " ", "type1", "");
    TwoText(first, last);
    ArgsDecRoundTrip("", [first], last, "");
  }

  lemma TwoText(first: Typed, last: Typed)
    requires first == Typed("", "name", " ", "", "type", "")
    requires last == Typed(" ", "name1", "      ", " ", "type1", "")
    ensures ArgsDecText("", [first], last) + "" == "(name :type, name1      : type1)"
    ensures Tokens.AllWhitespace("") && AllWellTyped([first]) && WellTyped(last) && FirstBare([first], last)
    ensures Decls([first]) + [Decl(last)]
         == [Ast.FunctionDecArg("name", "type"), Ast.FunctionDecArg("name1", "type1")]
  {
    SingleDecls(first);
    TwoLayout(first, last, TypedText(first) + ",");
  }

  lemma SingleDecls(first: Typed)
    ensures DeclsText([first]) == TypedText(first) + "," && Decls([first]) == [Decl(first)]
  {
    assert [first][1..] == [];
  }

  lemma TwoLayout(first: Typed, last: Typed, firstText: string)
    requires first == Typed("", "name", " ", "", "type", "")
    requires last == Typed(" ", "name1", "      ", " ", "type1", "")
    requires firstText == TypedText(first) + ","
    ensures "(" + "" + firstText + TypedText(last) + ")" + "" == "(name :type, name1      : type1)"
  {
    FirstPiece(first, firstText);
    LastPiece(last);
    Pieces("name :type,", " name1      : type1");
  }

  lemma FirstPiece(first: Typed, firstText: string)
    requires first == Typed("", "name", " ", "", "type", "")
    requires firstText == TypedText(first) + ","
    ensures firstText == "name :type,"
  {
  }

  lemma LastPiece(last: Typed)
    requires last == Typed(" ", "name1", "      ", " ", "type1", "")
    ensures TypedText(last) == " name1      : type1"
  {
  }

  lemma Pieces(a: string, b: string)
    requires a == "name :type," && b == " name1      : type1"
    ensures "(" + "" + a + b + ")" + "" == "(name :type, name1      : type1)"
  {
  }

  /** `""`, four spaces, and spaces before a block: void, and the rest is
      the text after the whitespace. */
  lemma ReturnTypeVoidExamples()
    ensures C.ReturnType("") == Ok("", None)
    ensures C.ReturnType("    ") == Ok("", None)
    ensures C.ReturnType("        { 12 }") == Ok("{ 12 }", None)
  {
    VoidTexts();
    ReturnTypeVoidOf("", "");
    ReturnTypeVoidOf("    ", "");
    ReturnTypeVoidOf("        ", "{ 12 }");
  }

  lemma VoidTexts()
    ensures "" + "" == "" && "    " + "" == "    " && "        " + "{ 12 }" == "        { 12 }"
    ensures Tokens.AllWhitespace("") && Tokens.AllWhitespace("    ") && Tokens.AllWhitespace("        ")
    ensures Tokens.NoLeadingWhitespace("") && Tokens.NoLeadingWhitespace("{ 12 }")
  {
  }

  /** `-> int` and `   ->    int   {`. */
  lemma ReturnTypeNonVoidExamples()
    ensures C.ReturnType("-> int") == Ok("", Some("int"))
    ensures C.ReturnType("   ->    int   {") == Ok("{", Some("int"))
  {
    NonVoidTexts();
    ReturnTypeRoundTrip("", " ", "int", "", "");
    ReturnTypeRoundTrip("   ", "    ", "int", "   ", "{");
  }

  lemma NonVoidTexts()
    ensures ReturnText("", " ", "int", "") + "" == "-> int"
    ensures ReturnText("   ", "    ", "int", "   ") + "{" == "   ->    int   {"
    ensures Tokens.AllWhitespace("") && Tokens.AllWhitespace(" ") && Tokens.AllWhitespace("   ")
    ensures Tokens.AllWhitespace("    ") && Tokens.IsName("int")
    ensures Tokens.NoLeadingWhitespace("") && Tokens.NoLeadingWhitespace("{") && !Tokens.IsIdentChar('{')
  {
  }
}
