/** From declarations to signatures (codegen.go:328-540): ProcessFunc applies
    the export rule and checks the parameters, results and receiver of one
    function, ProcessType collects the exported methods and constructors of
    a type, and DoPyExports walks the packages of all input files before
    GeneratePyExportsCode initialises every signature. The Go parser and
    go/doc are replaced by the declaration records below. */
module Exports {
  import opened Outcomes
  import opened GoStrings
  import opened Seqs
  import opened Types
  import opened DocComments
  import opened Signature

  /** ast.Field: the names declared together (none for an unnamed parameter
      or result), their type, and the field's own source text (the names
      and the type, `msg string`). */
  datatype Field = Field(names: seq<string>, typ: Expr, src: string)

  /** The part of a doc.Func that ProcessFunc reads. `recv` is the receiver
      type as written, "" for a free function; `level` is 0 for a function
      declared in the package itself. */
  datatype FuncDecl = FuncDecl(
    name: string,
    doc: string,
    recv: string,
    level: int,
    params: seq<Field>,
    results: seq<Field>)

  predicate FieldsWellFormed(fs: seq<Field>) {
    forall i :: 0 <= i < |fs| ==> WellFormed(fs[i].typ)
  }

  predicate DeclWellFormed(fn: FuncDecl) {
    FieldsWellFormed(fn.params) && FieldsWellFormed(fn.results)
  }

  /** ast.FieldList.NumFields: a field counts once per name, and once when
      it has none. */
  function NumFields(fs: seq<Field>): (r: nat)
    ensures |fs| <= r
    ensures r == 0 <==> fs == []
  {
    if fs == [] then 0
    else
      var f := fs[|fs| - 1];
      NumFields(fs[..|fs| - 1]) + (if f.names == [] then 1 else |f.names|)
  }

  /** IsErrorType (codegen.go:181-190): the field's type is the identifier
      `error`. */
  predicate IsErrorType(f: Field) {
    f.typ.Ident? && f.typ.name == "error"
  }

  /** The syntactic test agrees with the resolver: a field is an error
      type exactly when its type resolves to the kind Error. */
  lemma IsErrorTypeIff(f: Field)
    requires WellFormed(f.typ)
    ensures IsErrorType(f) <==> AsGoType(f.typ).Ok? && AsGoType(f.typ).value.t == Error
  {
    if f.typ.Ident? && AsGoType(f.typ).Ok? {
      assert IdentName(ToKind(f.typ.name).value) == f.typ.name;
    } else if f.typ.ArrayType? || f.typ.MapType? {
      AsGoTypeComposite(f.typ);
    }
  }

  /** The function returns exactly one `*C.PyObject` (codegen.go:331-332). */
  predicate ReturnsCPythonPtr(fn: FuncDecl) {
    NumFields(fn.results) == 1 && IsCPyObjectPtr(fn.results[0].typ)
  }

  /** The export rule (codegen.go:333-338): without the export-all setting a
      function is exported when its doc carries the marker or it returns a
      Python object. */
  predicate Skipped(cfg: Config, fn: FuncDecl) {
    !cfg.exportAll && !(IsExported(fn.doc) || ReturnsCPythonPtr(fn))
  }

  /** What ProcessFunc derives from the results. */
  datatype ReturnShape = ReturnShape(goType: GoType, alsoError: bool)

  /** The return rules of ProcessFunc (codegen.go:360-396). A list of one
      field declaring two results, `(a, b int)`, makes the Go code index
      past the end of the field list, which panics. */
  function Returns(fn: FuncDecl): (r: Result<ReturnShape>)
    requires FieldsWellFormed(fn.results)
    ensures !r.Err?
    ensures r.Ok? ==> Shaped(r.value.goType)
    ensures ReturnsCPythonPtr(fn) ==> r == Ok(ReturnShape(Scalar(CPyObjectPointer, ""), false))
    ensures fn.results == [] ==> r == Ok(ReturnShape(Scalar(None, ""), false))
    ensures NumFields(fn.results) > 2 ==> r == Fatal("Invalid return signature for function " + fn.name)
    ensures r.Ok? ==> (r.value.alsoError <==> NumFields(fn.results) == 2)
    ensures r.Ok? && NumFields(fn.results) == 2 ==> |fn.results| == 2 && IsErrorType(fn.results[1])
    ensures 1 <= NumFields(fn.results) <= 2 && !ReturnsCPythonPtr(fn) ==>
      && (r.Ok? ==> AsGoType(fn.results[0].typ) == Ok(r.value.goType))
      && (AsGoType(fn.results[0].typ).Ok? && NumFields(fn.results) == 1 ==> r.Ok?)
      && (!AsGoType(fn.results[0].typ).Ok? ==> r == Fatal(AsGoType(fn.results[0].typ).msg))
    ensures NumFields(fn.results) == 2 && !ReturnsCPythonPtr(fn) && AsGoType(fn.results[0].typ).Ok? ==>
      && (|fn.results| == 1 ==> r == Fatal("runtime error: index out of range [1] with length 1"))
      && (|fn.results| == 2 && !IsErrorType(fn.results[1]) ==>
            r == Fatal("Return type '" + fn.results[1].src + "' not supported!"))
  {
    var n := NumFields(fn.results);
    if ReturnsCPythonPtr(fn) then Ok(ReturnShape(Scalar(CPyObjectPointer, ""), false))
    else if n == 0 then Ok(ReturnShape(Scalar(None, ""), false))
    else if n == 1 || n == 2 then
      var g := AsGoType(fn.results[0].typ);
      if !g.Ok? then Fatal(g.msg)
      else if n == 1 then Ok(ReturnShape(g.value, false))
      else if |fn.results| < 2 then Fatal("runtime error: index out of range [1] with length 1")
      else if IsErrorType(fn.results[1]) then Ok(ReturnShape(g.value, true))
      else Fatal("Return type '" + fn.results[1].src + "' not supported!")
    else Fatal("Invalid return signature for function " + fn.name)
  }

  /** `(int, error)`, the return list of testfile.go:26, gives an int result
      that also reports an error. */
  lemma IntErrorReturnExample()
    ensures var fn := FuncDecl("Div", "", "", 0, [],
                               [Field([], Ident("int", "int"), "int"), Field([], Ident("error", "error"), "error")]);
      Returns(fn) == Ok(ReturnShape(Scalar(Int, "int"), true))
  {
    var fn := FuncDecl("Div", "", "", 0, [],
                       [Field([], Ident("int", "int"), "int"), Field([], Ident("error", "error"), "error")]);
    assert fn.results[..1][..0] == [];
    assert NumFields(fn.results) == 2;
  }

  /** `(n int, msg string)`: the second result is not an error, and the
      message names the whole field, name included. */
  lemma NamedSecondResultExample()
    ensures var fn := FuncDecl("F", "", "", 0, [],
                               [Field(["n"], Ident("int", "int"), "n int"), Field(["msg"], Ident("string", "string"), "msg string")]);
      Returns(fn) == Fatal("Return type 'msg string' not supported!")
  {
    var fn := FuncDecl("F", "", "", 0, [],
                       [Field(["n"], Ident("int", "int"), "n int"), Field(["msg"], Ident("string", "string"), "msg string")]);
    assert fn.results[..1][..0] == [];
    assert NumFields(fn.results) == 2;
  }

  /** The type of a parameter field: a type the resolver refuses ends the
      process with the field's source text (codegen.go:342-349). */
  function ParamType(f: Field): (r: Result<GoType>)
    requires WellFormed(f.typ)
    ensures !r.Err?
    ensures r.Ok? ==> Shaped(r.value)
  {
    match AsGoType(f.typ)
    case Ok(g) => Ok(g)
    case Err(_) => Fatal("Argument type '" + f.typ.src + "' not supported!")
    case Fatal(msg) => Fatal(msg)
  }

  /** A parameter takes the type the resolver gives; an `error` value of the
      resolver becomes the end of the process, naming the field's text. */
  lemma ParamTypeResolves(f: Field)
    requires WellFormed(f.typ)
    ensures ParamType(f).Ok? <==> AsGoType(f.typ).Ok?
    ensures ParamType(f).Ok? ==> ParamType(f).value == AsGoType(f.typ).value
    ensures AsGoType(f.typ).Err? ==> ParamType(f) == Fatal("Argument type '" + f.typ.src + "' not supported!")
    ensures AsGoType(f.typ).Fatal? ==> ParamType(f) == AsGoType(f.typ)
  {
  }

  /** The arguments one field declares: one per name, in order, all of the
      field's type. */
  function FieldArgs(g: GoType, names: seq<string>): (r: seq<FunctionArgument>)
    ensures |r| == |names|
  {
    if names == [] then []
    else FieldArgs(g, names[..|names| - 1]) + [FunctionArgument(g, names[|names| - 1])]
  }

  /** Argument k of a field is its k-th name with the field's type. */
  lemma {:induction false} FieldArgsAt(g: GoType, names: seq<string>)
    ensures forall k :: 0 <= k < |names| ==> FieldArgs(g, names)[k] == FunctionArgument(g, names[k])
    decreases |names|
  {
    if names != [] {
      var n := |names| - 1;
      FieldArgsAt(g, names[..n]);
    }
  }

  /** The types of the fields, each resolved on its own. */
  function Resolved(fs: seq<Field>): (r: seq<Result<GoType>>)
    requires FieldsWellFormed(fs)
    ensures |r| == |fs| && forall i :: 0 <= i < |fs| ==> r[i] == ParamType(fs[i])
  {
    seq(|fs|, i requires 0 <= i < |fs| && WellFormed(fs[i].typ) => ParamType(fs[i]))
  }

  /** The name lists of the fields. */
  function Names(fs: seq<Field>): (r: seq<seq<string>>)
    ensures |r| == |fs| && forall i :: 0 <= i < |fs| ==> r[i] == fs[i].names
  {
    seq(|fs|, i requires 0 <= i < |fs| => fs[i].names)
  }

  /** The arguments of fields with the given names and types: the names of
      each field, in order, field after field. */
  function Expand(names: seq<seq<string>>, types: seq<GoType>): (r: seq<FunctionArgument>)
    requires |names| == |types|
  {
    if names == [] then []
    else
      var n := |names| - 1;
      Expand(names[..n], types[..n]) + FieldArgs(types[n], names[n])
  }

  /** Every argument has the type of one of the fields. */
  lemma {:induction false} ExpandShaped(names: seq<seq<string>>, types: seq<GoType>)
    requires |names| == |types|
    requires forall i :: 0 <= i < |types| ==> Shaped(types[i])
    ensures AllShaped(Expand(names, types))
    decreases |names|
  {
    if names != [] {
      var n := |names| - 1;
      ExpandShaped(names[..n], types[..n]);
      var front, last := Expand(names[..n], types[..n]), FieldArgs(types[n], names[n]);
      FieldArgsAt(types[n], names[n]);
      assert forall k :: 0 <= k < |front + last| ==>
        (front + last)[k] == if k < |front| then front[k] else last[k - |front|];
    }
  }

  /** Expanding two field lists in a row gives their arguments in a row. */
  lemma {:induction false} ExpandAppend(n1: seq<seq<string>>, t1: seq<GoType>, n2: seq<seq<string>>, t2: seq<GoType>)
    requires |n1| == |t1| && |n2| == |t2|
    ensures Expand(n1 + n2, t1 + t2) == Expand(n1, t1) + Expand(n2, t2)
    decreases |n2|
  {
    if n2 == [] {
      assert n1 + n2 == n1 && t1 + t2 == t1;
    } else {
      var k := |n2| - 1;
      var N, T := n1 + n2, t1 + t2;
      assert N[..|N| - 1] == n1 + n2[..k] && N[|N| - 1] == n2[k];
      assert T[..|T| - 1] == t1 + t2[..k] && T[|T| - 1] == t2[k];
      var last := FieldArgs(t2[k], n2[k]);
      assert Expand(N, T) == Expand(n1 + n2[..k], t1 + t2[..k]) + last;
      ExpandAppend(n1, t1, n2[..k], t2[..k]);
      var e1, e2 := Expand(n1, t1), Expand(n2[..k], t2[..k]);
      assert Expand(n2, t2) == e2 + last;
      assert (e1 + e2) + last == e1 + (e2 + last);
    }
  }

  /** One field more: its arguments follow those before it. */
  lemma ExpandSnoc(names: seq<seq<string>>, types: seq<GoType>, nm: seq<string>, g: GoType)
    requires |names| == |types|
    ensures Expand(names + [nm], types + [g]) == Expand(names, types) + FieldArgs(g, nm)
  {
    var N, T := names + [nm], types + [g];
    assert N[..|N| - 1] == names && N[|N| - 1] == nm;
    assert T[..|T| - 1] == types && T[|T| - 1] == g;
  }

  /** The argument list of a parameter list (codegen.go:340-358): the types
      of all fields, then one argument per name. Resolving every type first
      fails at the same field, with the same message, as the Go loop, which
      expands each field before it resolves the next. */
  function ParamArgs(fs: seq<Field>): (r: Result<seq<FunctionArgument>>)
    requires FieldsWellFormed(fs)
    ensures !r.Err?
    ensures r.Ok? <==> forall i :: 0 <= i < |fs| ==> ParamType(fs[i]).Ok?
    ensures r.Ok? ==> AllShaped(r.value)
  {
    var types :- Collect(Resolved(fs));
    ExpandShaped(Names(fs), types);
    Ok(Expand(Names(fs), types))
  }

  /** A refused parameter type ends the process with the message of the
      first refused field. */
  lemma ParamArgsFailsFirst(fs: seq<Field>, i: int)
    requires FieldsWellFormed(fs) && FirstFailureAt(Resolved(fs), i)
    ensures ParamArgs(fs) == Fatal(ParamType(fs[i]).msg)
  {
    CollectFailsFirst(Resolved(fs), i);
  }

  /** Without a refused type, the arguments are the expanded fields. */
  lemma ParamArgsOk(fs: seq<Field>)
    requires FieldsWellFormed(fs) && Collect(Resolved(fs)).Ok?
    ensures ParamArgs(fs) == Ok(Expand(Names(fs), Collect(Resolved(fs)).value))
  {
  }

  /** The inner loop of the parameter loop: one argument per name of the
      field. */
  method AppendField(args: seq<FunctionArgument>, g: GoType, names: seq<string>) returns (r: seq<FunctionArgument>)
    ensures r == args + FieldArgs(g, names)
  {
    r := args;
    var j := 0;
    while j < |names|
      invariant 0 <= j <= |names|
      invariant r == args + FieldArgs(g, names[..j])
    {
      TakeSnoc(names, j);
      assert names[..j + 1][..j] == names[..j];
      r := r + [FunctionArgument(g, names[j])];
      j := j + 1;
    }
    TakeAll(names);
  }

  /** The loop of ExpandParams stops at the first field whose type is
      refused. */
  lemma ParamFailsAt(fs: seq<Field>, i: nat, types: seq<GoType>)
    requires FieldsWellFormed(fs) && i < |fs| && Collect(Resolved(fs)[..i]) == Ok(types)
    requires !ParamType(fs[i]).Ok?
    ensures ParamArgs(fs) == Fatal(ParamType(fs[i]).msg)
  {
    var rs := Resolved(fs);
    assert forall j :: 0 <= j < i ==> rs[..i][j] == rs[j];
    ParamArgsFailsFirst(fs, i);
  }

  /** One more field resolved: its type follows the others, its names the
      arguments before. */
  lemma ParamStep(fs: seq<Field>, i: nat, types: seq<GoType>)
    requires FieldsWellFormed(fs) && i < |fs| && Collect(Resolved(fs)[..i]) == Ok(types)
    requires ParamType(fs[i]).Ok?
    ensures Collect(Resolved(fs)[..i + 1]) == Ok(types + [ParamType(fs[i]).value])
    ensures Expand(Names(fs)[..i + 1], types + [ParamType(fs[i]).value])
      == Expand(Names(fs)[..i], types) + FieldArgs(ParamType(fs[i]).value, fs[i].names)
  {
    var rs, ns, g := Resolved(fs), Names(fs), ParamType(fs[i]).value;
    TakeSnoc(rs, i);
    TakeSnoc(ns, i);
    CollectSnoc(rs[..i], g);
    ExpandSnoc(ns[..i], types, fs[i].names, g);
  }

  /** The parameter loop of ProcessFunc: the outer loop over the fields, the
      inner one over the names of a field. */
  method ExpandParams(fs: seq<Field>) returns (r: Result<seq<FunctionArgument>>)
    requires FieldsWellFormed(fs)
    ensures r == ParamArgs(fs)
  {
    var args: seq<FunctionArgument> := [];
    ghost var rs, ns := Resolved(fs), Names(fs);
    ghost var types: seq<GoType> := [];
    var i := 0;
    while i < |fs|
      invariant 0 <= i <= |fs|
      invariant Collect(rs[..i]) == Ok(types)
      invariant args == Expand(ns[..i], types)
    {
      var goType := ParamType(fs[i]);
      if !goType.Ok? {
        ParamFailsAt(fs, i, types);
        return Fatal(goType.msg);
      }
      var names := fs[i].names;
      args := AppendField(args, goType.value, names);
      ParamStep(fs, i, types);
      types := types + [goType.value];
      i := i + 1;
    }
    ParamsDone(fs, types, args);
    r := Ok(args);
  }

  /** The parameter loop ends with every field resolved and expanded. */
  lemma ParamsDone(fs: seq<Field>, types: seq<GoType>, args: seq<FunctionArgument>)
    requires FieldsWellFormed(fs) && Collect(Resolved(fs)[..|fs|]) == Ok(types)
    requires args == Expand(Names(fs)[..|fs|], types)
    ensures ParamArgs(fs) == Ok(args)
  {
    TakeAll(Resolved(fs));
    TakeAll(Names(fs));
    ParamArgsOk(fs);
  }

  /** The identifier `int` resolves to an int descriptor. */
  lemma IntFieldResolves(names: seq<string>, src: string)
    ensures ParamType(Field(names, Ident("int", "int"), src)) == Ok(Scalar(Int, "int"))
  {
  }

  /** Two int arguments are parsed with the format "ii". */
  lemma TwoIntsFormat(a: string, b: string)
    ensures ArgsFormat([FunctionArgument(Scalar(Int, "int"), a), FunctionArgument(Scalar(Int, "int"), b)]) == Ok("ii")
  {
    var args := [FunctionArgument(Scalar(Int, "int"), a), FunctionArgument(Scalar(Int, "int"), b)];
    var r := ArgsFormat(args);
    assert PyArgFormat(args[0].goType) == Ok("i") && PyArgFormat(args[1].goType) == Ok("i");
    assert r.Ok? && |r.value| == 2;
    assert [r.value[0]] == "i" && [r.value[1]] == "i";
    assert r.value[0] == 'i' && r.value[1] == 'i';
    assert r.value == "ii";
  }

  /** A single field declares one argument per name, all of its type. */
  lemma ParamArgsSingle(f: Field)
    requires WellFormed(f.typ) && ParamType(f).Ok?
    ensures FieldsWellFormed([f])
    ensures ParamArgs([f]) == Ok(FieldArgs(ParamType(f).value, f.names))
  {
    var g := ParamType(f).value;
    ResolvedSingle(f);
    ExpandSingle(g, f.names);
    assert Names([f]) == [f.names];
    ParamArgsOk([f]);
  }

  /* The two halves of ParamArgsSingle: the lone type resolves, and the lone
     field expands to its own arguments. */

  lemma ResolvedSingle(f: Field)
    requires WellFormed(f.typ) && ParamType(f).Ok?
    ensures FieldsWellFormed([f]) && Collect(Resolved([f])) == Ok([ParamType(f).value])
  {
    var g := ParamType(f).value;
    assert Resolved([f]) == [] + [Ok(g)];
    assert Collect<GoType>([]) == Ok([]);
    CollectSnoc([], g);
    assert [] + [g] == [g];
  }

  lemma ExpandSingle(g: GoType, names: seq<string>)
    ensures Expand([names], [g]) == FieldArgs(g, names)
  {
    ExpandSnoc([], [], names, g);
    assert [] + [names] == [names] && [] + [g] == [g];
  }

  lemma FieldArgsTwo(g: GoType, a: string, b: string)
    ensures FieldArgs(g, [a, b]) == [FunctionArgument(g, a), FunctionArgument(g, b)]
  {
    FieldArgsAt(g, [a, b]);
  }

  /** `a, b int` declares two int arguments, in that order; with
      TwoIntsFormat, their parse format is "ii". */
  lemma TwoIntParamsExample()
    ensures ParamArgs([Field(["a", "b"], Ident("int", "int"), "a, b int")])
      == Ok([FunctionArgument(Scalar(Int, "int"), "a"), FunctionArgument(Scalar(Int, "int"), "b")])
  {
    var f := Field(["a", "b"], Ident("int", "int"), "a, b int");
    IntFieldResolves(["a", "b"], "a, b int");
    ParamArgsSingle(f);
    FieldArgsTwo(Scalar(Int, "int"), "a", "b");
  }

  /** The receiver rule (codegen.go:398-407): a method needs a pointer
      receiver. */
  predicate ReceiverOk(fn: FuncDecl) {
    fn.recv == "" || HasPrefix(fn.recv, "*")
  }

  /** An exported function ProcessFunc turns into a signature. */
  predicate Accepted(fn: FuncDecl)
    requires DeclWellFormed(fn)
  {
    ParamArgs(fn.params).Ok? && Returns(fn).Ok? && ReceiverOk(fn)
  }

  /** `s` is the signature ProcessFunc builds for `fn` (codegen.go:409-416). */
  ghost predicate Describes(s: FunctionSignature, cfg: Config, fn: FuncDecl)
    requires DeclWellFormed(fn)
  {
    && s.cfg == cfg
    && s.goFuncName == fn.name
    && ParamArgs(fn.params) == Ok(s.args)
    && Returns(fn) == Ok(ReturnShape(s.goReturnType, s.returnsAlsoError))
    && s.goDoc == TrimSpace(DocText(fn.doc))
    && s.goRecv == fn.recv
  }

  /** ProcessFunc (codegen.go:328-417). A skipped function gives nil; an
      exported one gives a fresh, not yet initialised signature, or ends the
      process at the first rule it breaks: parameters, then results, then
      receiver. */
  method ProcessFunc(cfg: Config, fn: FuncDecl) returns (r: Result<FunctionSignature?>)
    requires DeclWellFormed(fn)
    ensures !r.Err?
    ensures Skipped(cfg, fn) ==> r == Ok(null)
    ensures r.Ok? ==> (r.value == null <==> Skipped(cfg, fn))
    ensures !Skipped(cfg, fn) ==> (r.Ok? <==> Accepted(fn))
    ensures !Skipped(cfg, fn) && !ParamArgs(fn.params).Ok? ==> r == Fatal(ParamArgs(fn.params).msg)
    ensures !Skipped(cfg, fn) && ParamArgs(fn.params).Ok? && !Returns(fn).Ok? ==> r == Fatal(Returns(fn).msg)
    ensures !Skipped(cfg, fn) && ParamArgs(fn.params).Ok? && Returns(fn).Ok? && !ReceiverOk(fn) ==>
      r == Fatal("Non-pointer receiver not supported for " + fn.recv)
    ensures r.Ok? && r.value != null ==>
      fresh(r.value) && r.value.Inputs() && !r.value.initDone && Describes(r.value, cfg, fn)
  {
    var fnDoc, isExport := ProcessDoc(fn.doc);
    var numReturnFields := NumFields(fn.results);
    var returnsCPythonPtr := numReturnFields == 1 && IsCPyObjectPtr(fn.results[0].typ);
    if !cfg.exportAll && !(isExport || returnsCPythonPtr) {
      return Ok(null);
    }
    var args := ExpandParams(fn.params);
    if !args.Ok? {
      return Fatal(args.msg);
    }
    var ret := Returns(fn);
    if !ret.Ok? {
      return Fatal(ret.msg);
    }
    var recv := "";
    if fn.recv != "" {
      if !HasPrefix(fn.recv, "*") {
        return Fatal("Non-pointer receiver not supported for " + fn.recv);
      }
      recv := fn.recv;
    }
    var fs := new FunctionSignature(cfg, fn.name, args.value, ret.value.goType, TrimSpace(fnDoc),
                                    recv, ret.value.alsoError);
    r := Ok(fs);
  }

  predicate AllWellFormed(fns: seq<FuncDecl>) {
    forall i :: 0 <= i < |fns| ==> DeclWellFormed(fns[i])
  }

  /** The declarations of `fns` that get a signature: those of level 0 that
      the export rule keeps, in their order. */
  function Exported(cfg: Config, fns: seq<FuncDecl>): (r: seq<FuncDecl>)
    ensures |r| <= |fns|
    ensures forall k :: 0 <= k < |r| ==> r[k] in fns && r[k].level == 0 && !Skipped(cfg, r[k])
  {
    if fns == [] then []
    else
      var fn := fns[|fns| - 1];
      Exported(cfg, fns[..|fns| - 1]) + (if fn.level == 0 && !Skipped(cfg, fn) then [fn] else [])
  }

  /** Every declaration the export rule keeps appears among the exported
      ones. */
  lemma {:induction false} ExportedIndex(cfg: Config, fns: seq<FuncDecl>, i: int) returns (k: nat)
    requires 0 <= i < |fns| && fns[i].level == 0 && !Skipped(cfg, fns[i])
    ensures k < |Exported(cfg, fns)| && Exported(cfg, fns)[k] == fns[i]
    decreases |fns|
  {
    var n := |fns| - 1;
    if i == n {
      k := |Exported(cfg, fns[..n])|;
    } else {
      assert fns[..n][i] == fns[i];
      k := ExportedIndex(cfg, fns[..n], i);
    }
  }

  lemma {:induction false} ExportedAppend(cfg: Config, a: seq<FuncDecl>, b: seq<FuncDecl>)
    ensures Exported(cfg, a + b) == Exported(cfg, a) + Exported(cfg, b)
    decreases |b|
  {
    if b == [] {
      assert a + b == a;
    } else {
      var n := |b| - 1;
      assert (a + b)[..|a + b| - 1] == a + b[..n];
      assert (a + b)[|a + b| - 1] == b[n];
      ExportedAppend(cfg, a, b[..n]);
    }
  }

  predicate AcceptedDecl(fn: FuncDecl) {
    DeclWellFormed(fn) && Accepted(fn)
  }

  predicate AllAccepted(fns: seq<FuncDecl>) {
    All(fns, AcceptedDecl)
  }

  /** The relation "signature s is the one ProcessFunc builds for fn". */
  ghost function DescribedBy(cfg: Config): (FunctionSignature, FuncDecl) -> bool {
    (s: FunctionSignature, fn: FuncDecl) => DeclWellFormed(fn) && Describes(s, cfg, fn)
  }

  lemma DescribedByIntro(s: FunctionSignature, cfg: Config, fn: FuncDecl)
    requires DeclWellFormed(fn) && Describes(s, cfg, fn)
    ensures DescribedBy(cfg)(s, fn)
  {
  }

  /** The signatures are those ProcessFunc builds for `fns`, one for one. */
  ghost predicate DescribesAll(sigs: seq<FunctionSignature>, cfg: Config, fns: seq<FuncDecl>) {
    Pointwise(sigs, fns, DescribedBy(cfg))
  }

  lemma ExportedSingle(cfg: Config, fn: FuncDecl)
    ensures Exported(cfg, [fn]) == if fn.level == 0 && !Skipped(cfg, fn) then [fn] else []
  {
    assert [fn][..0] == [];
  }

  /** What one declaration contributes to the exported list, and when it
      is accepted. */
  lemma DeclExported(cfg: Config, fn: FuncDecl)
    requires DeclWellFormed(fn)
    ensures Exported(cfg, [fn]) == if fn.level == 0 && !Skipped(cfg, fn) then [fn] else []
    ensures AllAccepted(Exported(cfg, [fn])) <==> fn.level != 0 || Skipped(cfg, fn) || Accepted(fn)
  {
    ExportedSingle(cfg, fn);
    AllSingle(fn, AcceptedDecl);
  }

  /** One turn of the loop below: nothing for a declaration of another
      level or one ProcessFunc skips, else its signature. */
  method ProcessDecl(cfg: Config, fn: FuncDecl) returns (r: Result<seq<FunctionSignature>>)
    requires DeclWellFormed(fn)
    ensures !r.Err?
    ensures r.Ok? <==> AllAccepted(Exported(cfg, [fn]))
    ensures r.Ok? ==> DescribesAll(r.value, cfg, Exported(cfg, [fn]))
    ensures r.Ok? ==> forall s :: s in r.value ==> fresh(s) && s.Inputs() && !s.initDone
  {
    DeclExported(cfg, fn);
    if fn.level != 0 {
      return Ok([]);
    }
    r := KeepSignature(cfg, fn);
  }

  /** The body of the loop for a declaration of level 0: ProcessFunc, and
      the signature kept unless it is nil. */
  method KeepSignature(cfg: Config, fn: FuncDecl) returns (r: Result<seq<FunctionSignature>>)
    requires DeclWellFormed(fn)
    ensures !r.Err?
    ensures r.Ok? <==> Skipped(cfg, fn) || Accepted(fn)
    ensures r.Ok? ==> DescribesAll(r.value, cfg, if Skipped(cfg, fn) then [] else [fn])
    ensures r.Ok? ==> forall s :: s in r.value ==> fresh(s) && s.Inputs() && !s.initDone
  {
    var fs := ProcessFunc(cfg, fn);
    if !fs.Ok? {
      return Fatal(fs.msg);
    }
    if fs.value == null {
      return Ok([]);
    }
    var sig: FunctionSignature := fs.value;
    DescribedByIntro(sig, cfg, fn);
    PointwiseSingle<FunctionSignature, FuncDecl>(sig, fn, DescribedBy(cfg));
    r := Ok([sig]);
  }

  /** A declaration that is exported but not accepted makes the whole
      list fail. */
  lemma RejectedDecl(cfg: Config, fns: seq<FuncDecl>, i: nat)
    requires i < |fns| && !AllAccepted(Exported(cfg, [fns[i]]))
    ensures !AllAccepted(Exported(cfg, fns))
  {
    var a, b := fns[..i], fns[i + 1..];
    assert fns == (a + [fns[i]]) + b;
    AcceptedAppend(cfg, a + [fns[i]], b);
    AcceptedAppend(cfg, a, [fns[i]]);
  }

  /** A list of declarations is accepted when both its parts are. */
  lemma AcceptedAppend(cfg: Config, a: seq<FuncDecl>, b: seq<FuncDecl>)
    ensures AllAccepted(Exported(cfg, a + b)) <==> AllAccepted(Exported(cfg, a)) && AllAccepted(Exported(cfg, b))
  {
    ExportedAppend(cfg, a, b);
    AllAppend(Exported(cfg, a), Exported(cfg, b), AcceptedDecl);
  }

  /** The loop shared by ProcessType and DoPyExports (codegen.go:436-455,
      510-523): every declaration of level 0 goes through ProcessFunc and
      the signatures that are not nil are kept. */
  method ProcessFuncs(cfg: Config, fns: seq<FuncDecl>) returns (r: Result<seq<FunctionSignature>>)
    requires AllWellFormed(fns)
    ensures !r.Err?
    ensures r.Ok? <==> AllAccepted(Exported(cfg, fns))
    ensures r.Ok? ==> DescribesAll(r.value, cfg, Exported(cfg, fns))
    ensures r.Ok? ==> forall s :: s in r.value ==> fresh(s) && s.Inputs() && !s.initDone
  {
    var sigs: seq<FunctionSignature> := [];
    var i := 0;
    while i < |fns|
      invariant 0 <= i <= |fns|
      invariant AllAccepted(Exported(cfg, fns[..i]))
      invariant DescribesAll(sigs, cfg, Exported(cfg, fns[..i]))
      invariant forall s :: s in sigs ==> fresh(s) && s.Inputs() && !s.initDone
    {
      TakeSnoc(fns, i);
      ExportedAppend(cfg, fns[..i], [fns[i]]);
      var one := ProcessDecl(cfg, fns[i]);
      AllAppend(Exported(cfg, fns[..i]), Exported(cfg, [fns[i]]), AcceptedDecl);
      if !one.Ok? {
        RejectedDecl(cfg, fns, i);
        return Fatal(one.msg);
      }
      PointwiseAppend<FunctionSignature, FuncDecl>(sigs, one.value, Exported(cfg, fns[..i]),
                                                   Exported(cfg, [fns[i]]), DescribedBy(cfg));
      sigs := sigs + one.value;
      i := i + 1;
    }
    TakeAll(fns);
    r := Ok(sigs);
  }

  /** Every signature in the list keeps its invariant. */
  predicate AllValid(sigs: seq<FunctionSignature>)
    reads sigs
  {
    forall s :: s in sigs ==> s.Valid()
  }

  /** init can derive every argument of the signature. */
  predicate ArgumentsOk(s: FunctionSignature) {
    AllShaped(s.args) && AllArguments(s.args)
  }

  predicate AllArgumentsOk(sigs: seq<FunctionSignature>) {
    forall s :: s in sigs ==> ArgumentsOk(s)
  }

  predicate AllInitialized(sigs: seq<FunctionSignature>)
    reads sigs
  {
    forall s :: s in sigs ==> s.initDone
  }

  /** A signature init has completed has derivable arguments. */
  lemma InitializedArguments(s: FunctionSignature)
    requires s.Valid() && s.initDone
    ensures ArgumentsOk(s)
  {
    DerivedArguments(s.ArgColumns(), s.cfg, s.args);
  }

  /** The `for _, fs := range ... { fs.init() }` loops of
      GeneratePyExportsCode and TypeSignature.init (codegen.go:238-240,
      427-434): init every signature in turn, stopping the process at the
      first one whose arguments init cannot derive. */
  method InitAll(sigs: seq<FunctionSignature>) returns (r: Result<()>)
    requires AllValid(sigs)
    modifies sigs
    ensures AllValid(sigs)
    ensures !r.Err?
    ensures r.Ok? <==> AllArgumentsOk(sigs)
    ensures r.Ok? ==> AllInitialized(sigs)
    ensures forall s :: s in sigs && old(s.initDone) ==> s.initDone
  {
    var i := 0;
    while i < |sigs|
      invariant 0 <= i <= |sigs|
      invariant AllValid(sigs)
      invariant forall k :: 0 <= k < i ==> sigs[k].initDone && ArgumentsOk(sigs[k])
      invariant forall s :: s in sigs && old(s.initDone) ==> s.initDone
    {
      var ok := InitAt(sigs, i);
      if !ok.Ok? {
        assert sigs[i] in sigs;
        return ok;
      }
      i := i + 1;
    }
    InitializedAt(sigs);
    r := Ok(());
  }

  /** Every position initialised with derivable arguments: every member. */
  lemma InitializedAt(sigs: seq<FunctionSignature>)
    requires forall k :: 0 <= k < |sigs| ==> sigs[k].initDone && ArgumentsOk(sigs[k])
    ensures AllInitialized(sigs) && AllArgumentsOk(sigs)
  {
    forall s | s in sigs ensures s.initDone && ArgumentsOk(s) {
      var k :| 0 <= k < |sigs| && sigs[k] == s;
    }
  }

  /** One turn of the loop of InitAll: init the signature at i. */
  method InitAt(sigs: seq<FunctionSignature>, i: int) returns (r: Result<()>)
    requires AllValid(sigs) && 0 <= i < |sigs|
    modifies sigs[i]
    ensures AllValid(sigs)
    ensures !r.Err?
    ensures r.Ok? <==> ArgumentsOk(sigs[i])
    ensures r.Ok? ==> sigs[i].initDone
    ensures forall s :: s in sigs && old(s.initDone) ==> s.initDone
  {
    var s := sigs[i];
    assert s in sigs;
    r := s.Init();
    if r.Ok? {
      InitializedArguments(s);
    }
  }

  /** The part of a doc.Type that ProcessType reads: its name, its doc
      comment, its methods and the functions go/doc groups with it. */
  datatype TypeDecl = TypeDecl(name: string, doc: string, methods: seq<FuncDecl>, funcs: seq<FuncDecl>)

  predicate TypeWellFormed(tp: TypeDecl) {
    AllWellFormed(tp.methods) && AllWellFormed(tp.funcs)
  }

  /** TypeSignature (codegen.go:419-425): a Go type with the signatures of
      its exported methods and functions. */
  class TypeSignature {
    const goTypeName: string
    const pyTypeObjectName: string
    const goDoc: string
    const methods: seq<FunctionSignature>
    const funcs: seq<FunctionSignature>

    constructor (goTypeName: string, pyTypeObjectName: string, goDoc: string,
                 methods: seq<FunctionSignature>, funcs: seq<FunctionSignature>)
      ensures this.goTypeName == goTypeName && this.pyTypeObjectName == pyTypeObjectName
      ensures this.goDoc == goDoc && this.methods == methods && this.funcs == funcs
    {
      this.goTypeName := goTypeName;
      this.pyTypeObjectName := pyTypeObjectName;
      this.goDoc := goDoc;
      this.methods := methods;
      this.funcs := funcs;
    }

    /** init (codegen.go:427-434): the methods, then the functions. */
    method Init() returns (r: Result<()>)
      requires AllValid(methods) && AllValid(funcs)
      modifies methods, funcs
      ensures AllValid(methods) && AllValid(funcs)
      ensures !r.Err?
      ensures r.Ok? <==> AllArgumentsOk(methods) && AllArgumentsOk(funcs)
      ensures r.Ok? ==> AllInitialized(methods) && AllInitialized(funcs)
      ensures forall s :: s in methods + funcs && old(s.initDone) ==> s.initDone
    {
      var ok := InitAll(methods);
      if !ok.Ok? {
        return ok;
      }
      r := InitAll(funcs);
    }
  }

  /** `ts` is the signature ProcessType builds for `tp` (codegen.go:436-472). */
  ghost predicate DescribesType(ts: TypeSignature, cfg: Config, tp: TypeDecl)
    requires TypeWellFormed(tp)
  {
    && ts.goTypeName == tp.name
    && ts.pyTypeObjectName == "PyTo_" + tp.name
    && ts.goDoc == DocText(tp.doc)
    && DescribesAll(ts.methods, cfg, Exported(cfg, tp.methods))
    && DescribesAll(ts.funcs, cfg, Exported(cfg, tp.funcs))
  }

  /** The type has at least one exported method or function. */
  predicate HasExports(cfg: Config, tp: TypeDecl) {
    Exported(cfg, tp.methods) != [] || Exported(cfg, tp.funcs) != []
  }

  /** ProcessType (codegen.go:436-472): the exported methods, then the
      exported functions; nil when there are none. */
  method ProcessType(cfg: Config, tp: TypeDecl) returns (r: Result<TypeSignature?>)
    requires TypeWellFormed(tp)
    ensures !r.Err?
    ensures r.Ok? <==> AllAccepted(Exported(cfg, tp.methods)) && AllAccepted(Exported(cfg, tp.funcs))
    ensures r.Ok? ==> (r.value == null <==> !HasExports(cfg, tp))
    ensures r.Ok? && r.value != null ==> fresh(r.value) && DescribesType(r.value, cfg, tp)
    ensures r.Ok? && r.value != null ==> forall s :: s in r.value.methods ==> fresh(s) && s.Inputs() && !s.initDone
    ensures r.Ok? && r.value != null ==> forall s :: s in r.value.funcs ==> fresh(s) && s.Inputs() && !s.initDone
  {
    var methods := ProcessFuncs(cfg, tp.methods);
    if !methods.Ok? {
      return Fatal(methods.msg);
    }
    var funcs := ProcessFuncs(cfg, tp.funcs);
    if !funcs.Ok? {
      return Fatal(funcs.msg);
    }
    if |methods.value| == 0 && |funcs.value| == 0 {
      return Ok(null);
    }
    var tpDoc, _ := ProcessDoc(tp.doc);
    var ts := new TypeSignature(tp.name, "PyTo_" + tp.name, tpDoc, methods.value, funcs.value);
    r := Ok(ts);
  }

  /** The signatures of a type's methods and functions, in the order
      TypeSignature.init visits them. */
  function SignaturesOf(t: TypeSignature): seq<FunctionSignature> {
    t.methods + t.funcs
  }

  /** The signatures of all the types. */
  function TypeMembers(tps: seq<TypeSignature>): seq<FunctionSignature> {
    Concat(tps, SignaturesOf)
  }

  lemma {:induction false} TypeMembersAllocated(tps: seq<TypeSignature>)
    ensures forall s :: s in TypeMembers(tps) ==> allocated(s)
    decreases |tps|
  {
    if tps != [] {
      var n := |tps| - 1;
      TypeMembersAllocated(tps[..n]);
      assert TypeMembers(tps) == TypeMembers(tps[..n]) + tps[n].methods + tps[n].funcs;
    }
  }

  /** The requiresRuntimeCgo fold of GeneratePyExportsCode
      (codegen.go:242-246). */
  function RequiresRuntimeCgo(tps: seq<TypeSignature>): bool {
    if tps == [] then false
    else
      var t := tps[|tps| - 1];
      RequiresRuntimeCgo(tps[..|tps| - 1]) || |t.methods| > 0 || |t.funcs| > 0
  }

  lemma RequiresRuntimeCgoSnoc(tps: seq<TypeSignature>, i: nat)
    requires i < |tps|
    ensures RequiresRuntimeCgo(tps[..i + 1]) ==
      (RequiresRuntimeCgo(tps[..i]) || |tps[i].methods| > 0 || |tps[i].funcs| > 0)
  {
    assert tps[..i + 1][..i] == tps[..i];
  }

  /** The fold holds exactly when some type has a method or a function. */
  lemma {:induction false} RequiresRuntimeCgoIff(tps: seq<TypeSignature>)
    ensures RequiresRuntimeCgo(tps) <==> exists i :: 0 <= i < |tps| && (|tps[i].methods| > 0 || |tps[i].funcs| > 0)
    decreases |tps|
  {
    if tps != [] {
      var n := |tps| - 1;
      RequiresRuntimeCgoIff(tps[..n]);
      if exists i :: 0 <= i < |tps| && (|tps[i].methods| > 0 || |tps[i].funcs| > 0) {
        var i :| 0 <= i < |tps| && (|tps[i].methods| > 0 || |tps[i].funcs| > 0);
        if i < n {
          assert tps[..n][i] == tps[i];
        }
      }
      if RequiresRuntimeCgo(tps[..n]) {
        var i :| 0 <= i < n && (|tps[..n][i].methods| > 0 || |tps[..n][i].funcs| > 0);
        assert tps[..n][i] == tps[i];
      }
    }
  }

  /** Since ProcessType drops a type with nothing exported, the generated Go
      code imports runtime/cgo exactly when some type is exported. */
  lemma RuntimeCgoWhenTypes(tps: seq<TypeSignature>)
    requires forall i :: 0 <= i < |tps| ==> |tps[i].methods| > 0 || |tps[i].funcs| > 0
    ensures RequiresRuntimeCgo(tps) <==> tps != []
  {
    RequiresRuntimeCgoIff(tps);
    if tps != [] {
      assert |tps[0].methods| > 0 || |tps[0].funcs| > 0;
    }
  }

  /** The output settings GeneratePyExportsCode passes to the templates. */
  datatype OutputArgs = OutputArgs(goTags: seq<string>, cModuleName: string, cHeaderFname: string)

  /** The data the three templates are executed with (codegen.go:252-268). */
  datatype TemplateData = TemplateData(
    goTags: string,
    packageName: string,
    cModuleName: string,
    cHeaderFname: string,
    functions: seq<FunctionSignature>,
    types: seq<TypeSignature>,
    imports: seq<string>)

  /** The loop over the types in GeneratePyExportsCode (codegen.go:242-246):
      init each type and fold whether any has a method or a function. */
  method InitTypes(tpSigs: seq<TypeSignature>) returns (r: Result<bool>)
    requires AllValid(TypeMembers(tpSigs))
    modifies set s | s in TypeMembers(tpSigs)
    ensures AllValid(TypeMembers(tpSigs))
    ensures !r.Err?
    ensures r.Ok? <==> AllArgumentsOk(TypeMembers(tpSigs))
    ensures r.Ok? ==> AllInitialized(TypeMembers(tpSigs)) && r.value == RequiresRuntimeCgo(tpSigs)
  {
    var requiresRuntimeCgo := false;
    var i := 0;
    while i < |tpSigs|
      invariant 0 <= i <= |tpSigs|
      invariant AllValid(TypeMembers(tpSigs))
      invariant AllInitialized(TypeMembers(tpSigs[..i])) && AllArgumentsOk(TypeMembers(tpSigs[..i]))
      invariant requiresRuntimeCgo == RequiresRuntimeCgo(tpSigs[..i])
    {
      var ts := tpSigs[i];
      ConcatContains(tpSigs, i, SignaturesOf);
      RequiresRuntimeCgoSnoc(tpSigs, i);
      var tsOk := InitTypeAt(tpSigs, i);
      if !tsOk.Ok? {
        return Fatal(tsOk.msg);
      }
      requiresRuntimeCgo := requiresRuntimeCgo || |ts.methods| > 0 || |ts.funcs| > 0;
      i := i + 1;
    }
    TakeAll(tpSigs);
    r := Ok(requiresRuntimeCgo);
  }

  /** One turn of the loop of InitTypes: init the type at i. */
  method InitTypeAt(tpSigs: seq<TypeSignature>, i: nat) returns (r: Result<()>)
    requires i < |tpSigs| && AllValid(TypeMembers(tpSigs))
    requires AllInitialized(TypeMembers(tpSigs[..i])) && AllArgumentsOk(TypeMembers(tpSigs[..i]))
    modifies set s | s in SignaturesOf(tpSigs[i])
    ensures AllValid(TypeMembers(tpSigs))
    ensures !r.Err?
    ensures r.Ok? <==> AllArgumentsOk(SignaturesOf(tpSigs[i]))
    ensures r.Ok? ==> AllInitialized(TypeMembers(tpSigs[..i + 1])) && AllArgumentsOk(TypeMembers(tpSigs[..i + 1]))
  {
    var ts := tpSigs[i];
    ConcatContains(tpSigs, i, SignaturesOf);
    TypeMembersAllocated(tpSigs);
    TypeMembersAllocated(tpSigs[..i]);
    label before:
    r := ts.Init();
    forall s | s in TypeMembers(tpSigs[..i]) + TypeMembers(tpSigs) && s !in ts.methods + ts.funcs
      ensures unchanged@before(s)
    {
    }
    if r.Ok? {
      MembersSnoc(tpSigs, i);
    }
  }

  /** The members of one type more: initialised, with derivable arguments. */
  lemma MembersSnoc(tps: seq<TypeSignature>, i: nat)
    requires i < |tps|
    requires AllInitialized(TypeMembers(tps[..i])) && AllArgumentsOk(TypeMembers(tps[..i]))
    requires AllInitialized(tps[i].methods) && AllInitialized(tps[i].funcs)
    requires AllArgumentsOk(tps[i].methods) && AllArgumentsOk(tps[i].funcs)
    ensures AllInitialized(TypeMembers(tps[..i + 1])) && AllArgumentsOk(TypeMembers(tps[..i + 1]))
  {
    ConcatSnoc(tps, i, SignaturesOf);
  }

  /** GeneratePyExportsCode (codegen.go:224-268), up to the template data:
      no signatures is an error; otherwise every signature is initialised
      and runtime/cgo is imported when a type has a method or function. */
  method GeneratePyExportsCode(out: OutputArgs, packageName: string, fnSigs: seq<FunctionSignature>,
                               tpSigs: seq<TypeSignature>) returns (r: Result<TemplateData>)
    requires AllValid(fnSigs) && AllValid(TypeMembers(tpSigs))
    modifies set s | s in fnSigs + TypeMembers(tpSigs)
    ensures AllValid(fnSigs) && AllValid(TypeMembers(tpSigs))
    ensures r.Err? <==> fnSigs == []
    ensures r.Err? ==> r.msg == "No function signature exported"
    ensures fnSigs != [] ==> (r.Ok? <==> AllArgumentsOk(fnSigs) && AllArgumentsOk(TypeMembers(tpSigs)))
    ensures r.Ok? ==> AllInitialized(fnSigs) && AllInitialized(TypeMembers(tpSigs))
    ensures r.Ok? ==> r.value == TemplateData(Join(out.goTags, " "), packageName, out.cModuleName, out.cHeaderFname,
                                              fnSigs, tpSigs, if RequiresRuntimeCgo(tpSigs) then ["runtime/cgo"] else [])
  {
    if |fnSigs| == 0 {
      return Err("No function signature exported");
    }
    TypeMembersAllocated(tpSigs);
    label start:
    var ok := InitAll(fnSigs);
    forall s | s in TypeMembers(tpSigs) && s !in fnSigs
      ensures unchanged@start(s)
    {
    }
    if !ok.Ok? {
      return Fatal(ok.msg);
    }
    label inited:
    var requiresRuntimeCgo :- InitTypes(tpSigs);
    forall s | s in fnSigs && s !in TypeMembers(tpSigs)
      ensures unchanged@inited(s)
    {
    }
    var imports := if requiresRuntimeCgo then ["runtime/cgo"] else [];
    r := Ok(TemplateData(Join(out.goTags, " "), packageName, out.cModuleName, out.cHeaderFname,
                         fnSigs, tpSigs, imports));
  }

  predicate TypesWellFormed(tps: seq<TypeDecl>) {
    forall i :: 0 <= i < |tps| ==> TypeWellFormed(tps[i])
  }

  /** The exported methods and functions of a type. */
  function TypeExports(cfg: Config): TypeDecl -> seq<FuncDecl> {
    (tp: TypeDecl) => Exported(cfg, tp.methods) + Exported(cfg, tp.funcs)
  }

  /** The type itself when ProcessType gives it a signature. */
  function ExportedType(cfg: Config): TypeDecl -> seq<TypeDecl> {
    (tp: TypeDecl) => if HasExports(cfg, tp) then [tp] else []
  }

  /** The relation "ts is the signature ProcessType builds for tp". */
  ghost function TypeDescribedBy(cfg: Config): (TypeSignature, TypeDecl) -> bool {
    (ts: TypeSignature, tp: TypeDecl) => TypeWellFormed(tp) && DescribesType(ts, cfg, tp)
  }

  /** What adding the signature ProcessType built for `tp` contributes. */
  lemma TypeStep(ts: TypeSignature, cfg: Config, tp: TypeDecl)
    requires TypeWellFormed(tp) && DescribesType(ts, cfg, tp) && HasExports(cfg, tp)
    ensures TypeDescribedBy(cfg)(ts, tp)
    ensures DescribesAll(SignaturesOf(ts), cfg, TypeExports(cfg)(tp))
    ensures |ts.methods| > 0 || |ts.funcs| > 0
  {
    PointwiseAppend<FunctionSignature, FuncDecl>(ts.methods, ts.funcs, Exported(cfg, tp.methods),
                                                 Exported(cfg, tp.funcs), DescribedBy(cfg));
  }

  lemma TypeMembersPush(tps: seq<TypeSignature>, more: seq<TypeSignature>)
    ensures TypeMembers(tps + more) == TypeMembers(tps) + TypeMembers(more)
  {
    ConcatAppend(tps, more, SignaturesOf);
  }


  /** The loop state of ProcessTypes after a type with a signature. */
  lemma TypesPush(out: seq<TypeSignature>, t: TypeSignature, cfg: Config, tps: seq<TypeDecl>, i: nat)
    requires i < |tps| && TypeWellFormed(tps[i]) && DescribesType(t, cfg, tps[i]) && HasExports(cfg, tps[i])
    requires Pointwise(out, Concat(tps[..i], ExportedType(cfg)), TypeDescribedBy(cfg))
    requires DescribesAll(TypeMembers(out), cfg, Concat(tps[..i], TypeExports(cfg)))
    ensures Pointwise(out + [t], Concat(tps[..i + 1], ExportedType(cfg)), TypeDescribedBy(cfg))
    ensures DescribesAll(TypeMembers(out + [t]), cfg, Concat(tps[..i + 1], TypeExports(cfg)))
    ensures TypeMembers(out + [t]) == TypeMembers(out) + SignaturesOf(t)
    ensures |t.methods| > 0 || |t.funcs| > 0
  {
    var tp := tps[i];
    ConcatSnoc(tps, i, TypeExports(cfg));
    ConcatSnoc(tps, i, ExportedType(cfg));
    TypeStep(t, cfg, tp);
    TypeMembersPush(out, [t]);
    ConcatOne(t, SignaturesOf);
    PointwiseSingle<TypeSignature, TypeDecl>(t, tp, TypeDescribedBy(cfg));
    PointwiseAppend<TypeSignature, TypeDecl>(out, [t], Concat(tps[..i], ExportedType(cfg)), [tp],
                                             TypeDescribedBy(cfg));
    PointwiseAppend<FunctionSignature, FuncDecl>(TypeMembers(out), SignaturesOf(t), Concat(tps[..i], TypeExports(cfg)),
                                                 TypeExports(cfg)(tp), DescribedBy(cfg));
  }

  /** A type with nothing exported adds nothing. */
  lemma TypesSkip(cfg: Config, tps: seq<TypeDecl>, i: nat)
    requires i < |tps| && !HasExports(cfg, tps[i])
    ensures Concat(tps[..i + 1], ExportedType(cfg)) == Concat(tps[..i], ExportedType(cfg))
    ensures Concat(tps[..i + 1], TypeExports(cfg)) == Concat(tps[..i], TypeExports(cfg))
  {
    ConcatSnoc(tps, i, TypeExports(cfg));
    ConcatSnoc(tps, i, ExportedType(cfg));
  }

  /** The exported members of the first i + 1 types are all accepted when
      those of the first i are and ProcessType accepts type i. */
  lemma TypesAccepted(cfg: Config, tps: seq<TypeDecl>, i: nat)
    requires i < |tps| && AllAccepted(Concat(tps[..i], TypeExports(cfg)))
    ensures AllAccepted(Concat(tps[..i + 1], TypeExports(cfg))) <==>
      AllAccepted(Exported(cfg, tps[i].methods)) && AllAccepted(Exported(cfg, tps[i].funcs))
  {
    ConcatSnoc(tps, i, TypeExports(cfg));
    AllAppend(Exported(cfg, tps[i].methods), Exported(cfg, tps[i].funcs), AcceptedDecl);
    AllAppend(Concat(tps[..i], TypeExports(cfg)), TypeExports(cfg)(tps[i]), AcceptedDecl);
  }

  /** A member of the types with t appended is a member of the earlier
      types, a method of t or a function of t. */
  lemma MembersOfPush(out: seq<TypeSignature>, t: TypeSignature)
    ensures forall s :: s in TypeMembers(out + [t]) ==> s in TypeMembers(out) || s in t.methods || s in t.funcs
  {
    TypeMembersPush(out, [t]);
    ConcatOne(t, SignaturesOf);
  }

  /** One turn of the loop below: ProcessType on type i, keeping its
      signature when there is one. */
  method ProcessTypeAt(cfg: Config, tps: seq<TypeDecl>, i: nat, out: seq<TypeSignature>)
    returns (r: Result<seq<TypeSignature>>)
    requires i < |tps| && TypesWellFormed(tps)
    requires AllAccepted(Concat(tps[..i], TypeExports(cfg)))
    requires Pointwise(out, Concat(tps[..i], ExportedType(cfg)), TypeDescribedBy(cfg))
    requires DescribesAll(TypeMembers(out), cfg, Concat(tps[..i], TypeExports(cfg)))
    requires forall t :: t in out ==> |t.methods| > 0 || |t.funcs| > 0
    requires forall s :: s in TypeMembers(out) ==> s.Inputs() && !s.initDone
    ensures !r.Err?
    ensures !r.Ok? ==> !AllAccepted(Concat(tps, TypeExports(cfg)))
    ensures r.Ok? ==> AllAccepted(Concat(tps[..i + 1], TypeExports(cfg)))
    ensures r.Ok? ==> Pointwise(r.value, Concat(tps[..i + 1], ExportedType(cfg)), TypeDescribedBy(cfg))
    ensures r.Ok? ==> DescribesAll(TypeMembers(r.value), cfg, Concat(tps[..i + 1], TypeExports(cfg)))
    ensures r.Ok? ==> forall t :: t in r.value ==> |t.methods| > 0 || |t.funcs| > 0
    ensures r.Ok? ==> forall s :: s in TypeMembers(r.value) ==>
      (s in TypeMembers(out) || fresh(s)) && s.Inputs() && !s.initDone
  {
    var tp := tps[i];
    TypeMembersAllocated(out);
    var ts := ProcessType(cfg, tp);
    TypesAccepted(cfg, tps, i);
    if !ts.Ok? {
      AllAppend(Exported(cfg, tp.methods), Exported(cfg, tp.funcs), AcceptedDecl);
      ConcatBreaks(tps, i, TypeExports(cfg), AcceptedDecl);
      return Fatal(ts.msg);
    }
    if ts.value == null {
      TypesSkip(cfg, tps, i);
      return Ok(out);
    }
    var t: TypeSignature := ts.value;
    TypesPush(out, t, cfg, tps, i);
    MembersOfPush(out, t);
    r := Ok(out + [t]);
  }

  /** The `for _, tp := range pkg.Types` loop of DoPyExports
      (codegen.go:525-537): the types that get a signature, in order. */
  method ProcessTypes(cfg: Config, tps: seq<TypeDecl>) returns (r: Result<seq<TypeSignature>>)
    requires TypesWellFormed(tps)
    ensures !r.Err?
    ensures r.Ok? <==> AllAccepted(Concat(tps, TypeExports(cfg)))
    ensures r.Ok? ==> Pointwise(r.value, Concat(tps, ExportedType(cfg)), TypeDescribedBy(cfg))
    ensures r.Ok? ==> DescribesAll(TypeMembers(r.value), cfg, Concat(tps, TypeExports(cfg)))
    ensures r.Ok? ==> forall t :: t in r.value ==> |t.methods| > 0 || |t.funcs| > 0
    ensures r.Ok? ==> forall s :: s in TypeMembers(r.value) ==> fresh(s) && s.Inputs() && !s.initDone
  {
    var out: seq<TypeSignature> := [];
    var i := 0;
    while i < |tps|
      invariant 0 <= i <= |tps|
      invariant AllAccepted(Concat(tps[..i], TypeExports(cfg)))
      invariant Pointwise(out, Concat(tps[..i], ExportedType(cfg)), TypeDescribedBy(cfg))
      invariant DescribesAll(TypeMembers(out), cfg, Concat(tps[..i], TypeExports(cfg)))
      invariant forall t :: t in out ==> |t.methods| > 0 || |t.funcs| > 0
      invariant forall s :: s in TypeMembers(out) ==> fresh(s) && s.Inputs() && !s.initDone
    {
      var next := ProcessTypeAt(cfg, tps, i, out);
      if !next.Ok? {
        return Fatal(next.msg);
      }
      out := next.value;
      i := i + 1;
    }
    TakeAll(tps);
    r := Ok(out);
  }

  /** What go/doc reports for one input file: its package name, its
      functions and its types. */
  datatype PackageDoc = PackageDoc(name: string, funcs: seq<FuncDecl>, types: seq<TypeDecl>)

  predicate FilesWellFormed(files: seq<PackageDoc>) {
    forall i :: 0 <= i < |files| ==> AllWellFormed(files[i].funcs) && TypesWellFormed(files[i].types)
  }

  /** The exported functions of a file. */
  function FileFunctions(cfg: Config): PackageDoc -> seq<FuncDecl> {
    (f: PackageDoc) => Exported(cfg, f.funcs)
  }

  /** The types of a file that get a signature. */
  function FileTypes(cfg: Config): PackageDoc -> seq<TypeDecl> {
    (f: PackageDoc) => Concat(f.types, ExportedType(cfg))
  }

  /** The exported methods and functions of the types of a file. */
  function FileMembers(cfg: Config): PackageDoc -> seq<FuncDecl> {
    (f: PackageDoc) => Concat(f.types, TypeExports(cfg))
  }

  /** ProcessFile: the body of the loop of DoPyExports after the package
      check (codegen.go:511-538). */
  method ProcessFile(cfg: Config, f: PackageDoc) returns (r: Result<(seq<FunctionSignature>, seq<TypeSignature>)>)
    requires AllWellFormed(f.funcs) && TypesWellFormed(f.types)
    ensures !r.Err?
    ensures r.Ok? <==> AllAccepted(FileFunctions(cfg)(f)) && AllAccepted(FileMembers(cfg)(f))
    ensures r.Ok? ==> DescribesAll(r.value.0, cfg, FileFunctions(cfg)(f))
    ensures r.Ok? ==> Pointwise(r.value.1, FileTypes(cfg)(f), TypeDescribedBy(cfg))
    ensures r.Ok? ==> DescribesAll(TypeMembers(r.value.1), cfg, FileMembers(cfg)(f))
    ensures r.Ok? ==> forall t :: t in r.value.1 ==> |t.methods| > 0 || |t.funcs| > 0
    ensures r.Ok? ==> forall s :: s in r.value.0 ==> fresh(s) && s.Inputs() && !s.initDone
    ensures r.Ok? ==> forall s :: s in TypeMembers(r.value.1) ==> fresh(s) && s.Inputs() && !s.initDone
  {
    var fns := ProcessFuncs(cfg, f.funcs);
    if !fns.Ok? {
      return Fatal(fns.msg);
    }
    var tps := ProcessTypes(cfg, f.types);
    if !tps.Ok? {
      return Fatal(tps.msg);
    }
    r := Ok((fns.value, tps.value));
  }

  /** Every file after one that names a package names the same package
      (codegen.go:502-508). */
  predicate SamePackage(files: seq<PackageDoc>) {
    forall i, j :: 0 <= i < j < |files| && files[i].name != "" ==> files[j].name == files[i].name
  }

  /** The package name DoPyExports settles on: the first one that is not
      empty (codegen.go:502-504). */
  function FirstPackage(files: seq<PackageDoc>): (r: string)
    ensures r == "" <==> forall k :: 0 <= k < |files| ==> files[k].name == ""
  {
    if files == [] then ""
    else
      var p := FirstPackage(files[..|files| - 1]);
      if p == "" then files[|files| - 1].name else p
  }

  /** FirstPackage is the name of the first file that has one. */
  lemma {:induction false} FirstPackageIsFirst(files: seq<PackageDoc>, k: nat)
    requires k < |files| && files[k].name != ""
    requires forall j :: 0 <= j < k ==> files[j].name == ""
    ensures FirstPackage(files) == files[k].name
    decreases |files|
  {
    var n := |files| - 1;
    if k < n {
      FirstPackageIsFirst(files[..n], k);
    } else {
      assert FirstPackage(files[..n]) == "" by {
        forall j | 0 <= j < n ensures files[..n][j].name == "" {
        }
      }
    }
  }

  lemma FirstPackageSnoc(files: seq<PackageDoc>, i: nat)
    requires i < |files|
    ensures FirstPackage(files[..i + 1]) ==
      if FirstPackage(files[..i]) == "" then files[i].name else FirstPackage(files[..i])
  {
    assert files[..i + 1][..i] == files[..i];
  }

  /** Under SamePackage, every name given is the first one. */
  lemma {:induction false} SamePackageFirst(files: seq<PackageDoc>)
    requires SamePackage(files)
    ensures forall k :: 0 <= k < |files| && files[k].name != "" ==> files[k].name == FirstPackage(files)
  {
    forall k | 0 <= k < |files| && files[k].name != ""
      ensures files[k].name == FirstPackage(files)
    {
      var f := 0;
      while files[f].name == ""
        invariant 0 <= f <= k
        invariant forall j :: 0 <= j < f ==> files[j].name == ""
        decreases k - f
      {
        f := f + 1;
      }
      FirstPackageIsFirst(files, f);
    }
  }

  /** The check of codegen.go:502-508 on file i, given the files before it
      passed. */
  lemma SamePackageStep(files: seq<PackageDoc>, i: nat)
    requires i < |files| && SamePackage(files[..i])
    ensures SamePackage(files[..i + 1]) <==>
      FirstPackage(files[..i]) == "" || files[i].name == FirstPackage(files[..i])
  {
    var pre, ext := files[..i], files[..i + 1];
    var fp := FirstPackage(pre);
    SamePackageFirst(pre);
    if fp == "" || files[i].name == fp {
      forall a, b | 0 <= a < b < |ext| && ext[a].name != ""
        ensures ext[b].name == ext[a].name
      {
        if b < i {
          assert pre[a] == ext[a] && pre[b] == ext[b];
        } else {
          assert pre[a] == ext[a];
        }
      }
    } else {
      var k :| 0 <= k < i && pre[k].name != "";
      assert ext[k] == pre[k] && ext[i] == files[i];
    }
  }

  /** The checks of DoPyExports that end in log.Fatal all pass: one
      package, and every exported declaration accepted by ProcessFunc. */
  predicate Processable(cfg: Config, files: seq<PackageDoc>)
    requires FilesWellFormed(files)
  {
    && SamePackage(files)
    && AllAccepted(Concat(files, FileFunctions(cfg)))
    && AllAccepted(Concat(files, FileMembers(cfg)))
  }

  lemma ProcessablePrefix(cfg: Config, files: seq<PackageDoc>, n: nat)
    requires n <= |files| && FilesWellFormed(files)
    ensures FilesWellFormed(files[..n])
    ensures Processable(cfg, files) ==> Processable(cfg, files[..n])
  {
    assert files == files[..n] + files[n..];
    ConcatAppend(files[..n], files[n..], FileFunctions(cfg));
    ConcatAppend(files[..n], files[n..], FileMembers(cfg));
    AllAppend(Concat(files[..n], FileFunctions(cfg)), Concat(files[n..], FileFunctions(cfg)), AcceptedDecl);
    AllAppend(Concat(files[..n], FileMembers(cfg)), Concat(files[n..], FileMembers(cfg)), AcceptedDecl);
  }

  /** The exported declarations of the first i + 1 files are all accepted
      when those of the first i are and ProcessFile accepts file i. */
  lemma FilesAccepted(cfg: Config, files: seq<PackageDoc>, i: nat)
    requires i < |files| && FilesWellFormed(files)
    requires AllAccepted(Concat(files[..i], FileFunctions(cfg)))
    requires AllAccepted(Concat(files[..i], FileMembers(cfg)))
    ensures AllAccepted(Concat(files[..i + 1], FileFunctions(cfg))) && AllAccepted(Concat(files[..i + 1], FileMembers(cfg)))
        <==> AllAccepted(FileFunctions(cfg)(files[i])) && AllAccepted(FileMembers(cfg)(files[i]))
  {
    ConcatSnoc(files, i, FileFunctions(cfg));
    ConcatSnoc(files, i, FileMembers(cfg));
    AllAppend(Concat(files[..i], FileFunctions(cfg)), FileFunctions(cfg)(files[i]), AcceptedDecl);
    AllAppend(Concat(files[..i], FileMembers(cfg)), FileMembers(cfg)(files[i]), AcceptedDecl);
  }

  /** The loop state of DoPyExports after file i. */
  lemma FilesPush(cfg: Config, files: seq<PackageDoc>, i: nat, fnSigs: seq<FunctionSignature>, tpSigs: seq<TypeSignature>,
                  newFns: seq<FunctionSignature>, newTps: seq<TypeSignature>)
    requires i < |files|
    requires DescribesAll(fnSigs, cfg, Concat(files[..i], FileFunctions(cfg)))
    requires Pointwise(tpSigs, Concat(files[..i], FileTypes(cfg)), TypeDescribedBy(cfg))
    requires DescribesAll(TypeMembers(tpSigs), cfg, Concat(files[..i], FileMembers(cfg)))
    requires DescribesAll(newFns, cfg, FileFunctions(cfg)(files[i]))
    requires Pointwise(newTps, FileTypes(cfg)(files[i]), TypeDescribedBy(cfg))
    requires DescribesAll(TypeMembers(newTps), cfg, FileMembers(cfg)(files[i]))
    ensures DescribesAll(fnSigs + newFns, cfg, Concat(files[..i + 1], FileFunctions(cfg)))
    ensures Pointwise(tpSigs + newTps, Concat(files[..i + 1], FileTypes(cfg)), TypeDescribedBy(cfg))
    ensures DescribesAll(TypeMembers(tpSigs + newTps), cfg, Concat(files[..i + 1], FileMembers(cfg)))
    ensures TypeMembers(tpSigs + newTps) == TypeMembers(tpSigs) + TypeMembers(newTps)
  {
    ConcatSnoc(files, i, FileFunctions(cfg));
    ConcatSnoc(files, i, FileTypes(cfg));
    ConcatSnoc(files, i, FileMembers(cfg));
    TypeMembersPush(tpSigs, newTps);
    PointwiseAppend(fnSigs, newFns, Concat(files[..i], FileFunctions(cfg)), FileFunctions(cfg)(files[i]), DescribedBy(cfg));
    PointwiseAppend(tpSigs, newTps, Concat(files[..i], FileTypes(cfg)), FileTypes(cfg)(files[i]), TypeDescribedBy(cfg));
    PointwiseAppend(TypeMembers(tpSigs), TypeMembers(newTps), Concat(files[..i], FileMembers(cfg)),
                    FileMembers(cfg)(files[i]), DescribedBy(cfg));
  }

  /** A declaration DoPyExports exports and whose arguments
      FunctionSignature.init can all convert. */
  predicate ReadyDecl(fn: FuncDecl) {
    AcceptedDecl(fn) && AllArguments(ParamArgs(fn.params).value)
  }

  /** init succeeds on the signatures of accepted declarations exactly when
      every declaration is ready. */
  lemma ReadyLink(cfg: Config, sigs: seq<FunctionSignature>, fns: seq<FuncDecl>)
    requires DescribesAll(sigs, cfg, fns) && AllAccepted(fns)
    ensures AllArgumentsOk(sigs) <==> All(fns, ReadyDecl)
  {
    if AllArgumentsOk(sigs) {
      forall i | 0 <= i < |fns| ensures ReadyDecl(fns[i]) {
        assert sigs[i] in sigs;
        ReadyAt(cfg, sigs, fns, i);
      }
    }
    if All(fns, ReadyDecl) {
      forall s | s in sigs ensures ArgumentsOk(s) {
        var i :| 0 <= i < |sigs| && sigs[i] == s;
        ReadyAt(cfg, sigs, fns, i);
      }
    }
  }

  /** The signature at i has convertible arguments exactly when the
      declaration at i is ready. */
  lemma ReadyAt(cfg: Config, sigs: seq<FunctionSignature>, fns: seq<FuncDecl>, i: int)
    requires DescribesAll(sigs, cfg, fns) && AllAccepted(fns) && 0 <= i < |fns|
    ensures ReadyDecl(fns[i]) <==> ArgumentsOk(sigs[i])
  {
    assert DescribedBy(cfg)(sigs[i], fns[i]) && AcceptedDecl(fns[i]);
  }

  /** What the loop of DoPyExports gathers: the package name and the
      signatures of the exported functions and types. */
  datatype Collected = Collected(packageName: string, functions: seq<FunctionSignature>, types: seq<TypeSignature>)

  /** `c` is what the loop of DoPyExports has gathered after `files`. */
  ghost predicate Gathered(cfg: Config, files: seq<PackageDoc>, c: Collected)
    requires FilesWellFormed(files)
  {
    && Processable(cfg, files)
    && c.packageName == FirstPackage(files)
    && DescribesAll(c.functions, cfg, Concat(files, FileFunctions(cfg)))
    && Pointwise(c.types, Concat(files, FileTypes(cfg)), TypeDescribedBy(cfg))
    && DescribesAll(TypeMembers(c.types), cfg, Concat(files, FileMembers(cfg)))
    && forall t :: t in c.types ==> |t.methods| > 0 || |t.funcs| > 0
  }

  /** What the loop of DoPyExports has gathered after file i, given what
      ProcessFile built for it. */
  lemma GatheredPush(cfg: Config, files: seq<PackageDoc>, i: nat, c: Collected,
                     newFns: seq<FunctionSignature>, newTps: seq<TypeSignature>)
    requires i < |files| && FilesWellFormed(files) && FilesWellFormed(files[..i]) && FilesWellFormed(files[..i + 1])
    requires Gathered(cfg, files[..i], c)
    requires c.packageName == "" || files[i].name == c.packageName
    requires AllAccepted(FileFunctions(cfg)(files[i])) && AllAccepted(FileMembers(cfg)(files[i]))
    requires DescribesAll(newFns, cfg, FileFunctions(cfg)(files[i]))
    requires Pointwise(newTps, FileTypes(cfg)(files[i]), TypeDescribedBy(cfg))
    requires DescribesAll(TypeMembers(newTps), cfg, FileMembers(cfg)(files[i]))
    requires forall t :: t in newTps ==> |t.methods| > 0 || |t.funcs| > 0
    ensures Gathered(cfg, files[..i + 1], Collected(FirstPackage(files[..i + 1]), c.functions + newFns, c.types + newTps))
    ensures FirstPackage(files[..i + 1]) == if c.packageName == "" then files[i].name else c.packageName
    ensures TypeMembers(c.types + newTps) == TypeMembers(c.types) + TypeMembers(newTps)
  {
    SamePackageStep(files, i);
    FirstPackageSnoc(files, i);
    FilesAccepted(cfg, files, i);
    FilesPush(cfg, files, i, c.functions, c.types, newFns, newTps);
  }

  /** One turn of the loop of DoPyExports: the package check, then the
      functions and types of file i (codegen.go:502-537). */
  method ProcessFileAt(cfg: Config, files: seq<PackageDoc>, i: nat, c: Collected) returns (r: Result<Collected>)
    requires i < |files| && FilesWellFormed(files) && FilesWellFormed(files[..i])
    requires Gathered(cfg, files[..i], c)
    requires forall s :: s in c.functions ==> s.Inputs() && !s.initDone
    requires forall s :: s in TypeMembers(c.types) ==> s.Inputs() && !s.initDone
    ensures FilesWellFormed(files[..i + 1])
    ensures !r.Err?
    ensures r.Ok? <==> Processable(cfg, files[..i + 1])
    ensures r.Ok? ==> Gathered(cfg, files[..i + 1], r.value)
    ensures r.Ok? ==> forall s :: s in r.value.functions ==> (s in c.functions || fresh(s)) && s.Inputs() && !s.initDone
    ensures r.Ok? ==> forall s :: s in TypeMembers(r.value.types) ==>
      (s in TypeMembers(c.types) || fresh(s)) && s.Inputs() && !s.initDone
  {
    TypeMembersAllocated(c.types);
    var f := files[i];
    SamePackageStep(files, i);
    FirstPackageSnoc(files, i);
    ProcessablePrefix(cfg, files, i + 1);
    var fnPackage := c.packageName;
    if fnPackage == "" {
      fnPackage := f.name;
    } else if f.name != fnPackage {
      return Fatal("All files need to be in the same package!");
    }
    var fr := ProcessFile(cfg, f);
    FilesAccepted(cfg, files, i);
    if !fr.Ok? {
      return Fatal(fr.msg);
    }
    var newFns, newTps := fr.value.0, fr.value.1;
    GatheredPush(cfg, files, i, c, newFns, newTps);
    forall s | s in TypeMembers(c.types + newTps)
      ensures (s in TypeMembers(c.types) || fresh(s)) && s.Inputs() && !s.initDone
    {
      if s !in TypeMembers(c.types) {
        assert s in TypeMembers(newTps);
      }
    }
    r := Ok(Collected(fnPackage, c.functions + newFns, c.types + newTps));
  }

  /** The loop of DoPyExports over the files (codegen.go:479-538). Reading
      and parsing a file are left to the caller, who passes what go/doc
      reports for it. */
  method CollectFiles(cfg: Config, files: seq<PackageDoc>) returns (r: Result<Collected>)
    requires FilesWellFormed(files)
    ensures !r.Err?
    ensures r.Ok? <==> Processable(cfg, files)
    ensures r.Ok? ==> Gathered(cfg, files, r.value)
    ensures r.Ok? ==> forall s :: s in r.value.functions ==> fresh(s) && s.Inputs() && !s.initDone
    ensures r.Ok? ==> forall s :: s in TypeMembers(r.value.types) ==> fresh(s) && s.Inputs() && !s.initDone
  {
    var c := Collected("", [], []);
    var i := 0;
    while i < |files|
      invariant 0 <= i <= |files|
      invariant FilesWellFormed(files[..i]) && Gathered(cfg, files[..i], c)
      invariant forall s :: s in c.functions ==> fresh(s) && s.Inputs() && !s.initDone
      invariant forall s :: s in TypeMembers(c.types) ==> fresh(s) && s.Inputs() && !s.initDone
    {
      ProcessablePrefix(cfg, files, i + 1);
      var next := ProcessFileAt(cfg, files, i, c);
      if !next.Ok? {
        return Fatal(next.msg);
      }
      c := next.value;
      i := i + 1;
    }
    TakeAll(files);
    r := Ok(c);
  }

  /** The loop gathered no function exactly when no file exports one. */
  lemma GatheredNone(cfg: Config, files: seq<PackageDoc>, c: Collected)
    requires FilesWellFormed(files) && Gathered(cfg, files, c)
    ensures c.functions == [] <==> Concat(files, FileFunctions(cfg)) == []
  {
    assert |c.functions| == |Concat(files, FileFunctions(cfg))|;
  }

  /** init converts every argument of what the loop gathered exactly when
      every exported declaration is ready. */
  lemma GatheredReady(cfg: Config, files: seq<PackageDoc>, c: Collected)
    requires FilesWellFormed(files) && Gathered(cfg, files, c)
    ensures AllArgumentsOk(c.functions) && AllArgumentsOk(TypeMembers(c.types)) <==>
      All(Concat(files, FileFunctions(cfg)), ReadyDecl) && All(Concat(files, FileMembers(cfg)), ReadyDecl)
  {
    ReadyLink(cfg, c.functions, Concat(files, FileFunctions(cfg)));
    ReadyLink(cfg, TypeMembers(c.types), Concat(files, FileMembers(cfg)));
  }

  /** runtime/cgo is imported exactly when some type gets a signature. */
  lemma GatheredRuntime(cfg: Config, files: seq<PackageDoc>, c: Collected)
    requires FilesWellFormed(files) && Gathered(cfg, files, c)
    ensures RequiresRuntimeCgo(c.types) <==> Concat(files, FileTypes(cfg)) != []
  {
    assert |c.types| == |Concat(files, FileTypes(cfg))|;
    RuntimeCgoWhenTypes(c.types);
  }

  /** The call to GeneratePyExportsCode that ends DoPyExports
      (codegen.go:540), read in terms of the files the signatures came
      from. */
  method GenerateFor(cfg: Config, out: OutputArgs, files: seq<PackageDoc>, c: Collected)
    returns (r: Result<TemplateData>)
    requires FilesWellFormed(files) && Gathered(cfg, files, c)
    requires AllValid(c.functions) && AllValid(TypeMembers(c.types))
    modifies set s | s in c.functions + TypeMembers(c.types)
    ensures r.Err? <==> Concat(files, FileFunctions(cfg)) == []
    ensures r.Err? ==> r.msg == "No function signature exported"
    ensures r.Ok? <==> && Concat(files, FileFunctions(cfg)) != []
                       && All(Concat(files, FileFunctions(cfg)), ReadyDecl)
                       && All(Concat(files, FileMembers(cfg)), ReadyDecl)
    ensures r.Ok? ==> r.value == TemplateData(Join(out.goTags, " "), c.packageName, out.cModuleName, out.cHeaderFname,
                                              c.functions, c.types,
                                              if Concat(files, FileTypes(cfg)) == [] then [] else ["runtime/cgo"])
    ensures r.Ok? ==> AllValid(c.functions) && AllInitialized(c.functions)
    ensures r.Ok? ==> AllValid(TypeMembers(c.types)) && AllInitialized(TypeMembers(c.types))
  {
    GatheredNone(cfg, files, c);
    GatheredReady(cfg, files, c);
    GatheredRuntime(cfg, files, c);
    r := GeneratePyExportsCode(out, c.packageName, c.functions, c.types);
  }

  /** DoPyExports (codegen.go:478-541): gather the signatures of every file,
      then hand them to GeneratePyExportsCode. */
  method DoPyExports(cfg: Config, out: OutputArgs, files: seq<PackageDoc>) returns (r: Result<TemplateData>)
    requires FilesWellFormed(files)
    ensures r.Err? <==> Processable(cfg, files) && Concat(files, FileFunctions(cfg)) == []
    ensures r.Err? ==> r.msg == "No function signature exported"
    ensures r.Ok? <==> && Processable(cfg, files)
                       && Concat(files, FileFunctions(cfg)) != []
                       && All(Concat(files, FileFunctions(cfg)), ReadyDecl)
                       && All(Concat(files, FileMembers(cfg)), ReadyDecl)
    ensures r.Ok? ==> Gathered(cfg, files, Collected(r.value.packageName, r.value.functions, r.value.types))
    ensures r.Ok? ==> && r.value.goTags == Join(out.goTags, " ")
                      && r.value.cModuleName == out.cModuleName
                      && r.value.cHeaderFname == out.cHeaderFname
    ensures r.Ok? ==> AllValid(r.value.functions) && AllInitialized(r.value.functions)
    ensures r.Ok? ==> AllValid(TypeMembers(r.value.types)) && AllInitialized(TypeMembers(r.value.types))
    ensures r.Ok? ==> r.value.imports == if Concat(files, FileTypes(cfg)) == [] then [] else ["runtime/cgo"]
  {
    var collected := CollectFiles(cfg, files);
    if !collected.Ok? {
      return Fatal(collected.msg);
    }
    var c := collected.value;
    r := GenerateFor(cfg, out, files, c);
  }
}
