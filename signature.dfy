/** The signature of one exported function (codegen.go:25-179): the values
    derived from each argument, the C function name, the argument-parsing
    format and the PyMethodDef entry with its docstring. */
module Signature {
  import opened Outcomes
  import opened GoStrings
  import opened Types
  import opened Quoting

  /** The generator's settings. The two flags come from the global `args`
      of the command line; the snake-case conversion is defined outside the
      modelled files and is a parameter here. */
  datatype Config = Config(useSnakeCase: bool, exportAll: bool, toSnakeCase: string -> string)

  /** FunctionArgument (codegen.go:168-171): a parameter name and its type. */
  datatype FunctionArgument = FunctionArgument(goType: GoType, goName: string)

  /** The name a Go identifier gets on the Python side (codegen.go:110-114,
      173-179). */
  function PyFunctionName(cfg: Config, goName: string): string {
    if cfg.useSnakeCase then cfg.toSnakeCase(goName) else goName
  }

  /** FunctionArgument.PythonName (codegen.go:173-179) */
  function PythonName(cfg: Config, a: FunctionArgument): string {
    PyFunctionName(cfg, a.goName)
  }

  /** The name of the generated C wrapper (codegen.go:53-65). `recv` is the
      receiver type as written, `*T`, or "" for a free function. */
  function CFunctionName(cfg: Config, goFuncName: string, recv: string): (r: string)
    ensures HasPrefix(r, "pyexport_")
  {
    if recv == "" then
      if cfg.useSnakeCase then "pyexport_" + goFuncName
      else "pyexport_" + cfg.toSnakeCase(goFuncName)
    else if cfg.useSnakeCase then
      "pyexport_" + cfg.toSnakeCase(recv[1..]) + "_" + cfg.toSnakeCase(goFuncName)
    else "pyexport_" + recv[1..] + "_" + goFuncName
  }

  /** A method's wrapper is named after the receiver and the method, both
      spelled as Python spells them; a free function's wrapper applies the
      snake-case conversion exactly when Python names do not. */
  lemma CFunctionNameSpelling(cfg: Config, goFuncName: string, recv: string)
    ensures recv != "" ==>
      CFunctionName(cfg, goFuncName, recv)
        == "pyexport_" + PyFunctionName(cfg, recv[1..]) + "_" + PyFunctionName(cfg, goFuncName)
    ensures recv == "" ==>
      CFunctionName(cfg, goFuncName, recv)
        == "pyexport_" + PyFunctionName(cfg.(useSnakeCase := !cfg.useSnakeCase), goFuncName)
  {
  }

  /** What init derives from one argument (codegen.go:79-84). */
  datatype ArgEntry = ArgEntry(
    pyName: string,
    pyNameWithHint: string,
    cPtrSignature: string,
    goC: string,
    cToGo: string,
    goName: string)

  /** The types a parameter may have: those with a parse format, where a
      slice or a map must hold elements that CPyObjectToGo converts. */
  predicate IsArgumentType(g: GoType)
    requires Shaped(g)
  {
    if g.t == Slice then IsElemKind(g.sliceElemType.to.t)
    else if g.t == Map then IsElemKind(g.mapKeyType.to.t) && IsElemKind(g.mapValType.to.t)
    else IsParseKind(g.t)
  }

  /** One iteration of the loop in init: the type hint, the C pointer type,
      the cgo type and the conversion are asked for in that order, and the
      first unsupported one ends the process. */
  function DeriveArg(cfg: Config, a: FunctionArgument): (r: Result<ArgEntry>)
    requires Shaped(a.goType)
    ensures !r.Err?
    ensures r.Ok? <==> IsArgumentType(a.goType)
    ensures r.Ok? ==> r.value.pyName == PythonName(cfg, a) && r.value.goName == a.goName
    ensures r.Ok? ==> HasPrefix(r.value.pyNameWithHint, r.value.pyName + ": ")
    ensures r.Ok? ==> HasPrefix(r.value.goC, "var " + a.goName + " ")
    ensures r.Ok? && IsObjectKind(a.goType.t) ==> r.value.cPtrSignature == "PyObject **" + r.value.pyName
  {
    var g := a.goType;
    assert IsArgumentType(g) ==> Everywhere(g, IsHintKind) by {
      if g.t == Slice && IsElemKind(g.sliceElemType.to.t) {
        ElementsAreHinted(g.sliceElemType.to);
      }
      if g.t == Map && IsElemKind(g.mapKeyType.to.t) && IsElemKind(g.mapValType.to.t) {
        ElementsAreHinted(g.mapKeyType.to);
        ElementsAreHinted(g.mapValType.to);
      }
    }
    var pyName := PythonName(cfg, a);
    var hint :- PythonTypeHint(g);
    var cPtr :- CPtrType(g);
    // GoCType accepts every kind CPtrType does, so it cannot fail here.
    var goC := GoCType(g).value;
    var cToGo :- CToGoFunction(g, a.goName);
    Ok(ArgEntry(pyName, pyName + ": " + hint, cPtr + pyName, "var " + a.goName + " " + goC, cToGo, a.goName))
  }

  predicate AllShaped(args: seq<FunctionArgument>) {
    forall i :: 0 <= i < |args| ==> Shaped(args[i].goType)
  }

  /** Argument i is the first one init cannot derive. */
  predicate FailsFirstAt(cfg: Config, args: seq<FunctionArgument>, i: int)
    requires AllShaped(args)
  {
    && 0 <= i < |args|
    && !IsArgumentType(args[i].goType)
    && forall j :: 0 <= j < i ==> IsArgumentType(args[j].goType)
  }

  /** The argument domain of init, written out kind by kind: integers of
      width 32 and 64 and `int`, floats, complex numbers, strings, booleans,
      `*C.PyObject`, and slices and maps of integers, floats and strings.
      Narrow integers, `uint`, pointers, `[]byte` and `error` are not
      accepted. */
  lemma ArgumentDomain(g: GoType)
    requires Shaped(g)
    ensures IsArgumentType(g) <==>
      || g.t in {Bool, Int, Int32, Uint32, Int64, Uint64, Float32, Float64, Complex64, Complex128, String, CPyObjectPointer}
      || (g.t == Slice && IsElemKind(g.sliceElemType.to.t))
      || (g.t == Map && IsElemKind(g.mapKeyType.to.t) && IsElemKind(g.mapValType.to.t))
    ensures g.t in {Int8, Uint8, Int16, Uint16, Uint, Pointer, ByteArray, Error, Byte, None} ==> !IsArgumentType(g)
  {
  }

  /** Argument i is the first one without a parse format. */
  predicate FormatFailsFirstAt(args: seq<FunctionArgument>, i: int) {
    && 0 <= i < |args|
    && !IsParseKind(args[i].goType.t)
    && forall j :: 0 <= j < i ==> IsParseKind(args[j].goType.t)
  }

  /** The parse format of a whole argument list: the codes of the
      arguments, one character each, in order (codegen.go:99-105). */
  function ArgsFormat(args: seq<FunctionArgument>): (r: Result<string>)
    ensures r.Ok? <==> forall i :: 0 <= i < |args| ==> IsParseKind(args[i].goType.t)
    ensures r.Ok? ==> |r.value| == |args|
    ensures r.Ok? ==> forall i :: 0 <= i < |args| ==> [r.value[i]] == PyArgFormat(args[i].goType).value
    ensures !r.Ok? ==> r.Fatal?
  {
    if args == [] then Ok("")
    else
      var n := |args| - 1;
      var front :- ArgsFormat(args[..n]);
      assert forall i :: 0 <= i < n ==> args[..n][i] == args[i];
      var code :- PyArgFormat(args[n].goType);
      Ok(front + code)
  }

  /** A format that fails carries the message of the first argument
      without a code. */
  lemma {:induction false} ArgsFormatFailsFirst(args: seq<FunctionArgument>, i: int)
    requires FormatFailsFirstAt(args, i)
    ensures ArgsFormat(args) == Fatal(UnsupportedMsg(args[i].goType))
    decreases |args|
  {
    var n := |args| - 1;
    if i < n {
      ArgsFormatFailsFirst(args[..n], i);
    } else {
      assert ArgsFormat(args[..n]).Ok?;
    }
  }

  /** The annotation PyModuleDefDoc puts after the parameter list
      (codegen.go:151-154): none for a function returning nothing or only
      an error, otherwise the return type's hint. */
  function ReturnAnnotation(ret: GoType): (r: Result<string>)
    requires Shaped(ret)
    ensures !r.Err?
    ensures ret.t == None || ret.t == Error ==> r == Ok("")
    ensures ret.t != None && ret.t != Error ==>
      (r.Ok? <==> Everywhere(ret, IsHintKind)) && (r.Ok? ==> HasPrefix(r.value, " -> "))
  {
    if ret.t != None && ret.t != Error then
      var hint :- PythonTypeHint(ret);
      Ok(" -> " + hint)
    else Ok("")
  }

  /** The text of a docstring: the call signature, then the Go doc after an
      empty line when there is one (codegen.go:156-161). */
  function DocstringText(pyName: string, params: seq<string>, annotation: string, goDoc: string): (r: string)
    ensures HasPrefix(r, pyName + "(")
    ensures goDoc != "" ==> '\n' in r
  {
    var signature := pyName + "(" + Join(params, ", ") + ")" + annotation;
    assert (signature + "\n\n" + goDoc)[|signature|] == '\n';
    if goDoc == "" then signature else signature + "\n\n" + goDoc
  }

  /** The docstring as a C literal, quoted by CCodeString as written
      (codegen.go:156-161). It is refused exactly when the guard of
      CCodeString refuses the text. What it accepts reads back as the text
      unless the text holds the raw-literal terminator `)"`, which that guard
      does not look for. */
  function ModuleDoc(pyName: string, params: seq<string>, ret: GoType, goDoc: string): (r: Result<string>)
    requires Shaped(ret)
    ensures r.Fatal? <==> ReturnAnnotation(ret).Fatal?
    ensures r.Ok? ==> ReturnAnnotation(ret).Ok?
    ensures ReturnAnnotation(ret).Ok? ==>
      var text := DocstringText(pyName, params, ReturnAnnotation(ret).value, goDoc);
      && (r.Ok? <==> if '\n' in text then !ContainsPair(text, '"', ')') else '"' !in text)
      && (r.Ok? && ('\n' in text ==> !ContainsPair(text, ')', '"')) && ('\n' in text || '\\' !in text) ==>
            ReadCLiteral(r.value) == Ok(text))
    ensures r.Err? ==> r.msg == "String contains quote"
  {
    var annotation :- ReturnAnnotation(ret);
    var text := DocstringText(pyName, params, annotation, goDoc);
    if '\n' in text && !ContainsPair(text, ')', '"') then
      RawLiteralReadsBack(text);
      CCodeString(text)
    else if '\n' !in text && '"' !in text && '\\' !in text then
      QuotedLiteralReadsBack(text);
      CCodeString(text)
    else CCodeString(text)
  }

  /** The docstring quoted with the corrected guard: it always reads back as
      its text when the function has Go documentation, and when a one-line
      docstring holds no backslash. */
  function ModuleDocSafe(pyName: string, params: seq<string>, ret: GoType, goDoc: string): (r: Result<string>)
    requires Shaped(ret)
    ensures r.Fatal? <==> ReturnAnnotation(ret).Fatal?
    ensures r.Ok? ==> ReturnAnnotation(ret).Ok?
    ensures r.Ok? && (goDoc != "" || '\\' !in DocstringText(pyName, params, ReturnAnnotation(ret).value, goDoc)) ==>
      ReadCLiteral(r.value) == Ok(DocstringText(pyName, params, ReturnAnnotation(ret).value, goDoc))
    ensures r.Err? ==> r.msg == "String contains quote"
  {
    var annotation :- ReturnAnnotation(ret);
    CCodeStringSafe(DocstringText(pyName, params, annotation, goDoc))
  }

  /** The two quotings agree on every docstring that holds neither `")`
      nor `)"`. */
  lemma ModuleDocAgrees(pyName: string, params: seq<string>, ret: GoType, goDoc: string)
    requires Shaped(ret) && ReturnAnnotation(ret).Ok?
    requires var text := DocstringText(pyName, params, ReturnAnnotation(ret).value, goDoc);
      !ContainsPair(text, '"', ')') && !ContainsPair(text, ')', '"')
    ensures ModuleDoc(pyName, params, ret, goDoc) == ModuleDocSafe(pyName, params, ret, goDoc)
  {
  }

  /** The doc `g("")` holds `")`, so the code as written refuses it,
      although a raw literal carries it intact. */
  lemma ModuleDocRefusesCall()
    ensures ModuleDoc("f", [], Scalar(None, ""), "g(\"\")").Err?
    ensures ModuleDocSafe("f", [], Scalar(None, ""), "g(\"\")").Ok?
  {
    assert ReturnAnnotation(Scalar(None, "")) == Ok("");
    var t := DocstringText("f", [], "", "g(\"\")");
    assert t == "f()\n\ng(\"\")";
    assert t[3] == '\n';
    assert t[8] == '"' && t[9] == ')';
    forall i | 0 <= i < |t| - 1
      ensures !(t[i] == ')' && t[i + 1] == '"')
    {
    }
  }

  /** The doc `"(a)"` holds `)"`, so the code as written quotes it into a
      literal the C compiler closes early, where the corrected guard refuses
      it. */
  lemma ModuleDocMisquotesReturn()
    ensures var text := DocstringText("f", [], "", "\"(a)\"");
      && ModuleDoc("f", [], Scalar(None, ""), "\"(a)\"") == Ok(RawLiteral(text))
      && ReadCLiteral(RawLiteral(text)) != Ok(text)
    ensures ModuleDocSafe("f", [], Scalar(None, ""), "\"(a)\"").Err?
  {
    assert ReturnAnnotation(Scalar(None, "")) == Ok("");
    var t := DocstringText("f", [], "", "\"(a)\"");
    assert t == "f()\n\n\"(a)\"";
    assert t[3] == '\n';
    assert t[8] == ')' && t[9] == '"';
    forall i | 0 <= i < |t| - 1
      ensures !(t[i] == '"' && t[i + 1] == ')')
    {
    }
    RawLiteralReadsBack(t);
  }

  /** The PyMethodDef entry (codegen.go:125-129): a wrapper taking arguments
      is cast to PyCFunction and declared with positional and keyword
      arguments, one without is declared METH_NOARGS. */
  function MethodDefEntry(pyName: string, cName: string, noArgs: bool, doc: string): string {
    if noArgs then "{\"" + pyName + "\", " + cName + ", METH_NOARGS, " + doc + "}"
    else "{\"" + pyName + "\", (PyCFunction)" + cName + ", METH_VARARGS | METH_KEYWORDS, " + doc + "}"
  }

  /** A concatenation starts with its first part and ends with its second. */
  lemma ConcatParts(a: string, b: string)
    ensures HasPrefix(a + b, a)
    ensures (a + b)[|a|..] == b
  {
    assert (a + b)[..|a|] == a;
  }

  /** An entry starts with the quoted Python name and ends with the
      docstring and the closing brace. */
  lemma MethodDefEntryFields(pyName: string, cName: string, noArgs: bool, doc: string)
    ensures var e := MethodDefEntry(pyName, cName, noArgs, doc);
      && HasPrefix(e, "{\"" + pyName + "\", ")
      && e[|e| - |doc| - 1..] == doc + "}"
  {
    var head := "{\"" + pyName + "\", ";
    var rest := if noArgs then cName + ", METH_NOARGS, " else "(PyCFunction)" + cName + ", METH_VARARGS | METH_KEYWORDS, ";
    var tail := doc + "}";
    var e := MethodDefEntry(pyName, cName, noArgs, doc);
    assert e == head + (rest + tail);
    assert e == (head + rest) + tail;
    ConcatParts(head, rest + tail);
    ConcatParts(head + rest, tail);
  }

  /** The six parallel slices init fills. */
  datatype Columns = Columns(
    pyNames: seq<string>,
    withHints: seq<string>,
    cPtrSignature: seq<string>,
    goC: seq<string>,
    cToGo: seq<string>,
    goNames: seq<string>)
  {
    predicate HasLength(n: nat) {
      && |pyNames| == n && |withHints| == n && |cPtrSignature| == n
      && |goC| == n && |cToGo| == n && |goNames| == n
    }

    function At(i: nat): ArgEntry
      requires i < |pyNames| && i < |withHints| && i < |cPtrSignature|
      requires i < |goC| && i < |cToGo| && i < |goNames|
    {
      ArgEntry(pyNames[i], withHints[i], cPtrSignature[i], goC[i], cToGo[i], goNames[i])
    }
  }

  /** Every parameter has an argument type. */
  predicate AllArguments(args: seq<FunctionArgument>)
    requires AllShaped(args)
  {
    forall j :: 0 <= j < |args| ==> IsArgumentType(args[j].goType)
  }

  /** `msg` is the message of the first argument init cannot derive. */
  ghost predicate FirstFailure(cfg: Config, args: seq<FunctionArgument>, msg: string)
    requires AllShaped(args)
  {
    exists j :: FailsFirstAt(cfg, args, j) && DeriveArg(cfg, args[j]).msg == msg
  }

  /** The columns hold, at every index, what init derives from that
      argument. */
  predicate DerivedFrom(c: Columns, cfg: Config, args: seq<FunctionArgument>)
    requires AllShaped(args)
  {
    c.HasLength(|args|) && forall j :: 0 <= j < |args| ==> Ok(c.At(j)) == DeriveArg(cfg, args[j])
  }

  /** Columns derived from every argument exist only when every argument
      has an argument type. */
  lemma DerivedArguments(c: Columns, cfg: Config, args: seq<FunctionArgument>)
    requires AllShaped(args) && DerivedFrom(c, cfg, args)
    ensures AllArguments(args)
  {
    forall j | 0 <= j < |args|
      ensures IsArgumentType(args[j].goType)
    {
      assert DeriveArg(cfg, args[j]).Ok?;
    }
  }

  /** The loop of init (codegen.go:70-86): the slices are made as long as
      the argument list and entry i is filled from argument i. */
  method DeriveColumns(cfg: Config, args: seq<FunctionArgument>) returns (r: Result<Columns>)
    requires AllShaped(args)
    ensures r.Ok? <==> AllArguments(args)
    ensures r.Ok? ==> DerivedFrom(r.value, cfg, args)
    ensures !r.Ok? ==> r.Fatal? && FirstFailure(cfg, args, r.msg)
  {
    var nargs := |args|;
    var c := Columns(seq(nargs, _ => ""), seq(nargs, _ => ""), seq(nargs, _ => ""),
                     seq(nargs, _ => ""), seq(nargs, _ => ""), seq(nargs, _ => ""));
    var i := 0;
    while i < nargs
      invariant 0 <= i <= nargs && c.HasLength(nargs)
      invariant forall j :: 0 <= j < i ==> Ok(c.At(j)) == DeriveArg(cfg, args[j])
    {
      var e := DeriveArg(cfg, args[i]);
      if !e.Ok? {
        assert FailsFirstAt(cfg, args, i);
        return e.PropagateFailure();
      }
      c := c.(pyNames := c.pyNames[i := e.value.pyName],
              withHints := c.withHints[i := e.value.pyNameWithHint],
              cPtrSignature := c.cPtrSignature[i := e.value.cPtrSignature],
              goC := c.goC[i := e.value.goC],
              cToGo := c.cToGo[i := e.value.cToGo],
              goNames := c.goNames[i := e.value.goName]);
      i := i + 1;
    }
    r := Ok(c);
  }

  /** FunctionSignature (codegen.go:25-44). The inputs are fixed when the
      signature is built; init fills in the derived fields once. */
  class FunctionSignature {
    const cfg: Config
    const goFuncName: string
    const args: seq<FunctionArgument>
    const goReturnType: GoType
    const goDoc: string
    const goRecv: string
    const returnsAlsoError: bool

    var initDone: bool
    var cFunctionName: string
    var cRecv: string
    var cGoRecv: string
    var argsPythonNames: seq<string>
    var argsPythonNamesWithTypeHints: seq<string>
    var argsCPtrSignature: seq<string>
    var argsGoC: seq<string>
    var argsCToGo: seq<string>
    var argsGoNames: seq<string>

    /** The six argument slices. */
    function ArgColumns(): Columns
      reads this
    {
      Columns(argsPythonNames, argsPythonNamesWithTypeHints, argsCPtrSignature,
              argsGoC, argsCToGo, argsGoNames)
    }

    /** What init establishes: the C name, the receiver names, and six
      slices as long as the argument list whose entry i is derived from
      argument i alone. */
    predicate Derived()
      reads this
      requires AllShaped(args)
    {
      && cFunctionName == CFunctionName(cfg, goFuncName, goRecv)
      && (goRecv != "" ==> cRecv == goRecv[1..] && cGoRecv == "*C." + cRecv)
      && DerivedFrom(ArgColumns(), cfg, args)
    }

    /** The inputs are descriptors AsGoType can build. */
    predicate Inputs() {
      AllShaped(args) && Shaped(goReturnType)
    }

    predicate Valid()
      reads this
    {
      Inputs() && (initDone ==> Derived())
    }

    constructor (cfg: Config, goFuncName: string, args: seq<FunctionArgument>, goReturnType: GoType,
                 goDoc: string, goRecv: string, returnsAlsoError: bool)
      requires AllShaped(args) && Shaped(goReturnType)
      ensures Valid() && !initDone
      ensures this.cfg == cfg && this.goFuncName == goFuncName && this.args == args
      ensures this.goReturnType == goReturnType && this.goDoc == goDoc
      ensures this.goRecv == goRecv && this.returnsAlsoError == returnsAlsoError
      ensures cFunctionName == "" && cRecv == "" && cGoRecv == ""
    {
      this.cfg := cfg;
      this.goFuncName := goFuncName;
      this.args := args;
      this.goReturnType := goReturnType;
      this.goDoc := goDoc;
      this.goRecv := goRecv;
      this.returnsAlsoError := returnsAlsoError;
      initDone := false;
      cFunctionName := "";
      cRecv := "";
      cGoRecv := "";
      argsPythonNames := [];
      argsPythonNamesWithTypeHints := [];
      argsCPtrSignature := [];
      argsGoC := [];
      argsCToGo := [];
      argsGoNames := [];
    }

    /** HasArgs (codegen.go:91-93) */
    predicate HasArgs() {
      |args| != 0
    }

    /** HasRecv (codegen.go:95-97) */
    predicate HasRecv() {
      goRecv != ""
    }

    /** The naming part of init (codegen.go:53-68). */
    method SetNames()
      modifies this
      ensures cFunctionName == CFunctionName(cfg, goFuncName, goRecv)
      ensures goRecv != "" ==> cRecv == goRecv[1..] && cGoRecv == "*C." + cRecv
      ensures goRecv == "" ==> cRecv == old(cRecv) && cGoRecv == old(cGoRecv)
      ensures initDone == old(initDone)
    {
      if goRecv == "" {
        if cfg.useSnakeCase {
          cFunctionName := "pyexport_" + goFuncName;
        } else {
          cFunctionName := "pyexport_" + cfg.toSnakeCase(goFuncName);
        }
      } else {
        if cfg.useSnakeCase {
          cFunctionName := "pyexport_" + cfg.toSnakeCase(goRecv[1..]) + "_" + cfg.toSnakeCase(goFuncName);
        } else {
          cFunctionName := "pyexport_" + goRecv[1..] + "_" + goFuncName;
        }
        cRecv := goRecv[1..];
        cGoRecv := "*C." + cRecv;
      }
    }

    /** init (codegen.go:46-89). A second call changes nothing; the first
      derives every field, or ends at the first unsupported argument. */
    method Init() returns (r: Result<()>)
      requires Valid()
      modifies this
      ensures Valid()
      ensures old(initDone) ==> r == Ok(()) && unchanged(this)
      ensures r.Ok? <==> initDone
      ensures !old(initDone) ==> (r.Ok? <==> AllArguments(args))
      ensures !r.Ok? ==> r.Fatal? && FirstFailure(cfg, args, r.msg)
      ensures goRecv == "" ==> cRecv == old(cRecv) && cGoRecv == old(cGoRecv)
    {
      if initDone {
        return Ok(());
      }
      r := Derive();
    }

    /** The first call of init (codegen.go:53-88): the names, then the six
      slices, filled argument by argument. */
    method Derive() returns (r: Result<()>)
      requires Inputs() && !initDone
      modifies this
      ensures Valid()
      ensures r.Ok? <==> initDone
      ensures r.Ok? <==> AllArguments(args)
      ensures !r.Ok? ==> r.Fatal? && FirstFailure(cfg, args, r.msg)
      ensures goRecv == "" ==> cRecv == old(cRecv) && cGoRecv == old(cGoRecv)
    {
      SetNames();
      var columns :- DeriveColumns(cfg, args);
      SetColumns(columns);
      r := Ok(());
    }

    /** The end of init (codegen.go:70-88): the six slices are stored and
      the signature is marked initialised. */
    method SetColumns(c: Columns)
      modifies this
      ensures ArgColumns() == c && initDone
      ensures cFunctionName == old(cFunctionName) && cRecv == old(cRecv) && cGoRecv == old(cGoRecv)
    {
      argsPythonNames, argsPythonNamesWithTypeHints, argsCPtrSignature, argsGoC, argsCToGo, argsGoNames :=
        c.pyNames, c.withHints, c.cPtrSignature, c.goC, c.cToGo, c.goNames;
      initDone := true;
    }

    /** PyArgFormat (codegen.go:99-105): the format string of the whole
      argument list, built up one code at a time. */
    method PyArgFormat() returns (r: Result<string>)
      ensures r == ArgsFormat(args)
    {
      var res := "";
      var i := 0;
      while i < |args|
        invariant 0 <= i <= |args|
        invariant ArgsFormat(args[..i]) == Ok(res)
      {
        var code := Types.PyArgFormat(args[i].goType);
        assert args[..i + 1][..i] == args[..i];
        if !code.Ok? {
          ArgsFormatFailsFirst(args, i);
          return code;
        }
        res := res + code.value;
        i := i + 1;
      }
      assert args[..i] == args;
      r := Ok(res);
    }

    /** PyModuleDefDoc (codegen.go:148-162): the call signature and the Go
      doc, quoted by CCodeString. */
    method PyModuleDefDoc(pyName: string) returns (r: Result<string>)
      requires Valid()
      modifies this
      ensures Valid()
      ensures old(initDone) ==> unchanged(this)
      ensures r.Ok? ==> initDone
      ensures initDone ==> r == ModuleDoc(pyName, argsPythonNamesWithTypeHints, goReturnType, goDoc)
      ensures !initDone ==> r.Fatal? && FirstFailure(cfg, args, r.msg)
    {
      var ok := Init();
      if !ok.Ok? {
        return ok.PropagateFailure();
      }
      var returnSignature := "";
      if goReturnType.t != None && goReturnType.t != Error {
        var hint :- PythonTypeHint(goReturnType);
        returnSignature := " -> " + hint;
      }
      var signature := pyName + "(" + Join(argsPythonNamesWithTypeHints, ", ") + ")" + returnSignature;
      if goDoc == "" {
        r := CCodeString(signature);
      } else {
        r := CCodeString(signature + "\n\n" + goDoc);
      }
    }

    /** PyModuleDef (codegen.go:107-130): the PyMethodDef entry. A docstring
      that cannot be quoted ends the process. */
    method PyModuleDef() returns (r: Result<string>)
      requires Valid()
      modifies this
      ensures Valid()
      ensures old(initDone) ==> unchanged(this)
      ensures !initDone ==> r.Fatal? && FirstFailure(cfg, args, r.msg)
      ensures initDone ==>
        var doc := ModuleDoc(PyFunctionName(cfg, goFuncName), argsPythonNamesWithTypeHints, goReturnType, goDoc);
        && (r.Ok? <==> doc.Ok?)
        && (r.Ok? ==> r.value == MethodDefEntry(PyFunctionName(cfg, goFuncName), cFunctionName,
                                                !HasArgs() && !HasRecv(), doc.value))
        && (!r.Ok? ==> r.Fatal?)
    {
      var ok := Init();
      if !ok.Ok? {
        return ok.PropagateFailure();
      }
      var pyFunctionName;
      if cfg.useSnakeCase {
        pyFunctionName := cfg.toSnakeCase(goFuncName);
      } else {
        pyFunctionName := goFuncName;
      }
      var doc := PyModuleDefDoc(pyFunctionName);
      if doc.Err? {
        return Fatal("Could not generate documentation: " + doc.msg);
      }
      if doc.Fatal? {
        return doc;
      }
      var cName, text := cFunctionName, doc.value;
      if HasArgs() || HasRecv() {
        r := Ok("{\"" + pyFunctionName + "\", (PyCFunction)" + cName
          + ", METH_VARARGS | METH_KEYWORDS, " + text + "}");
      } else {
        r := Ok("{\"" + pyFunctionName + "\", " + cName + ", METH_NOARGS, " + text + "}");
      }
    }
  }
}
