/**
 * Instantiating a user-declared type: `Name(field, field, ...)`. The
 * instruction collects its field values, renders itself, and on execution
 * looks the type up and checks the field count before giving up, since
 * building the instance is not implemented.
 */
module TypeInstantiations {
  import opened Wrappers
  import Ast
  import Errors
  import Tokens

  /** The error the instruction reports: a kind, a message, an optional
      location and the offending input. */
  datatype JinkoError = JinkoError(
    kind: Errors.ErrKind, msg: string, loc: Option<Errors.ErrSpaceLocation>, input: string)

  /** Success with a value, or a `JinkoError`. */
  datatype Result<T> = Ok(value: T) | Err(error: JinkoError)

  /** A registered type, as far as instantiation looks at it: its name and
      its field declarations. */
  datatype TypeDec = TypeDec(name: string, fields: seq<Ast.FunctionDecArg>)

  /** The interpreter's table of declared types, indexed by name. */
  type TypeTable = map<string, TypeDec>

  /** The message of a failed lookup. */
  function NotFoundMsg(name: string): string {
    "Cannot find type " + name
  }

  /** The message of a field-count mismatch. */
  function WrongCountMsg(name: string, expected: nat, got: nat): string {
    "Wrong number of arguments for call to function `" + name + "`: Expected "
      + Tokens.NatToString(expected) + ", got " + Tokens.NatToString(got)
  }

  /** The message returned once both checks have passed. */
  const NotAvailableMsg := "Execution for type_instantiation is not yet available"

  /** The items joined with `sep` between neighbours and nowhere else. */
  function Join(items: seq<string>, sep: string): string {
    if |items| == 0 then ""
    else if |items| == 1 then items[0]
    else Join(items[..|items| - 1], sep) + sep + items[|items| - 1]
  }

  /** Rendering of each field instruction by `show`. */
  function Shows(fields: seq<Ast.Instr>, show: Ast.Instr -> string): (r: seq<string>)
    ensures |r| == |fields|
    ensures forall i :: 0 <= i < |fields| ==> r[i] == show(fields[i])
  {
    seq(|fields|, i requires 0 <= i < |fields| => show(fields[i]))
  }

  /** How an instantiation renders: the type name, then the rendered fields
      in order inside parentheses, separated by ", ". */
  function Rendering(name: string, fields: seq<Ast.Instr>, show: Ast.Instr -> string): string {
    name + "(" + Join(Shows(fields, show), ", ") + ")"
  }

  /** `Join` read from the front: the first item, then the separator and the
      join of the rest. */
  lemma {:induction false} JoinCons(x: string, xs: seq<string>, sep: string)
    requires xs != []
    ensures Join([x] + xs, sep) == x + sep + Join(xs, sep)
  {
    var s := [x] + xs;
    if |xs| == 1 {
      assert s[..|s| - 1] == [x];
    } else {
      var init := xs[..|xs| - 1];
      assert s[..|s| - 1] == [x] + init;
      assert s[|s| - 1] == xs[|xs| - 1];
      JoinCons(x, init, sep);
      assert Join(xs, sep) == Join(init, sep) + sep + xs[|xs| - 1];
    }
  }

  /** The length of a join: every item, and one separator fewer than items. */
  lemma {:induction false} JoinLength(items: seq<string>, sep: string)
    requires items != []
    ensures |Join(items, sep)| == TotalLength(items) + (|items| - 1) * |sep|
  {
    if |items| > 1 {
      var init := items[..|items| - 1];
      JoinLength(init, sep);
      TotalLengthSnoc(init, items[|items| - 1]);
      assert items == init + [items[|items| - 1]];
    }
  }

  /** The summed lengths of the items. */
  function TotalLength(items: seq<string>): nat {
    if items == [] then 0 else |items[0]| + TotalLength(items[1..])
  }

  lemma {:induction false} TotalLengthSnoc(items: seq<string>, x: string)
    ensures TotalLength(items + [x]) == TotalLength(items) + |x|
  {
    if items != [] {
      assert (items + [x])[1..] == items[1..] + [x];
      TotalLengthSnoc(items[1..], x);
    }
  }

  /** With no fields the rendering is the name followed by "()". */
  lemma RenderingNoFields(name: string, show: Ast.Instr -> string)
    ensures Rendering(name, [], show) == name + "()"
  {
    assert Shows([], show) == [];
  }

  /** One field renders without any separator. */
  lemma RenderingOneField(name: string, f: Ast.Instr, show: Ast.Instr -> string)
    ensures Rendering(name, [f], show) == name + "(" + show(f) + ")"
  {
    assert Shows([f], show) == [show(f)];
  }

  /** The rendering opens with the name and "(" and closes with ")". */
  lemma RenderingFrame(name: string, fields: seq<Ast.Instr>, show: Ast.Instr -> string)
    ensures var r := Rendering(name, fields, show);
            |r| >= |name| + 2 && r[..|name| + 1] == name + "(" && r[|r| - 1] == ')'
  {
    var r := Rendering(name, fields, show);
    assert r == (name + "(") + (Join(Shows(fields, show), ", ") + ")");
  }

  /** An instruction instantiating the type `typeName` with `fields`. */
  class TypeInstantiation {
    var typeName: string
    var fields: seq<Ast.Instr>

    /** `TypeInstantiation::new`: no fields yet. */
    constructor (typeName: string)
      ensures this.typeName == typeName
      ensures fields == []
    {
      this.typeName := typeName;
      fields := [];
    }

    /** `add_field`: append a field value after those already present. */
    method AddField(arg: Ast.Instr)
      modifies this
      ensures fields == old(fields) + [arg]
      ensures typeName == old(typeName)
    {
      fields := fields + [arg];
    }

    /** The type's name. */
    function Name(): string
      reads this
    {
      typeName
    }

    /** The field values, in the order they were added. */
    function Fields(): seq<Ast.Instr>
      reads this
    {
      fields
    }

    /** `get_declaration`: the registered type of this name, or an
        Interpreter error naming the missing type. */
    function GetDeclaration(types: TypeTable): (r: Result<TypeDec>)
      reads this
      ensures r.Ok? <==> typeName in types
      ensures r.Ok? ==> r.value == types[typeName]
      ensures r.Err? ==> r.error == JinkoError(Errors.Interpreter, NotFoundMsg(typeName), None, typeName)
    {
      if typeName in types then Ok(types[typeName])
      else Err(JinkoError(Errors.Interpreter, NotFoundMsg(typeName), None, typeName))
    }

    /** `check_fields_count`: succeed exactly when there are as many field
        values as the declaration has fields; otherwise report the expected
        and the received counts. */
    function CheckFieldsCount(dec: TypeDec): (r: Result<()>)
      reads this
      ensures r.Ok? <==> |fields| == |dec.fields|
      ensures r.Err? ==>
                r.error == JinkoError(Errors.Interpreter, WrongCountMsg(typeName, |dec.fields|, |fields|), None, "")
    {
      if |fields| == |dec.fields| then Ok(())
      else Err(JinkoError(Errors.Interpreter, WrongCountMsg(typeName, |dec.fields|, |fields|), None, ""))
    }

    /** The kind of the instruction: an expression of unknown value. */
    function Kind(): (k: Ast.InstrKind)
      ensures k.Expression? && k.value == None
    {
      Ast.Expression(None)
    }

    /** `execute`: the lookup comes first, then the count check, and the
        first failing one is reported; when both pass the result is still
        an error, since instances are not built yet. */
    function Execute(types: TypeTable): (r: Result<Ast.InstrKind>)
      reads this
      ensures r.Err?
      ensures typeName !in types ==> r.error == GetDeclaration(types).error
      ensures typeName in types && |fields| != |types[typeName].fields| ==>
                r.error == CheckFieldsCount(types[typeName]).error
      ensures typeName in types && |fields| == |types[typeName].fields| ==>
                r.error == JinkoError(Errors.Interpreter, NotAvailableMsg, None, "")
    {
      match GetDeclaration(types)
      case Err(e) => Err(e)
      case Ok(dec) =>
        match CheckFieldsCount(dec)
        case Err(e) => Err(e)
        case Ok(_) => Err(JinkoError(Errors.Interpreter, NotAvailableMsg, None, ""))
    }

    /** `print`: each field rendered by `show`, with ", " written before
        every field but the first. */
    method Print(show: Ast.Instr -> string) returns (s: string)
      ensures s == Rendering(typeName, fields, show)
    {
      s := typeName + "(";
      var firstArg := true;
      for i := 0 to |fields|
        invariant firstArg <==> i == 0
        invariant s == typeName + "(" + Join(Shows(fields[..i], show), ", ")
      {
        var before := Shows(fields[..i], show);
        assert Shows(fields[..i + 1], show) == before + [show(fields[i])];
        if !firstArg {
          s := s + ", ";
        }
        s := s + show(fields[i]);
        firstArg := false;
      }
      assert fields[..|fields|] == fields;
      s := s + ")";
    }
  }

  /** Executing an instantiation always fails: no input makes it succeed. */
  lemma ExecuteNeverSucceeds(t: TypeInstantiation, types: TypeTable)
    ensures t.Execute(types).Err?
    ensures t.Execute(types).error.kind == Errors.Interpreter
  {
  }
}
