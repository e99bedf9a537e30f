/** The type resolver of type.go: a closed set of kinds, the descriptor a Go
    type expression resolves to, and the per-kind tables that turn a
    descriptor into argument-parsing codes, C types, Python type hints and
    conversion expressions. Every table either answers or ends the process
    (GoType.Unsupported); none of them ever returns an `error` value. */
module Types {
  import opened Outcomes
  import opened GoStrings

  /** Kind, in declaration order (type.go:13-46). */
  datatype Kind =
    | Invalid | Bool | Int | Int8 | Int16 | Int32 | Int64
    | Uint | Uint8 | Uint16 | Uint32 | Uint64 | Uintptr
    | Float32 | Float64 | Complex64 | Complex128
    | Array | Chan | Func | Interface | Map | Pointer | Slice | String | Struct | UnsafePointer
    | None | Error | CPyObjectPointer | Byte | ByteArray

  predicate IsInteger(k: Kind) {
    k.Int? || k.Int8? || k.Int16? || k.Int32? || k.Int64?
    || k.Uint? || k.Uint8? || k.Uint16? || k.Uint32? || k.Uint64?
  }

  predicate IsFloat(k: Kind) {
    k.Float32? || k.Float64?
  }

  predicate IsComplex(k: Kind) {
    k.Complex64? || k.Complex128?
  }

  /** The kinds ToKind accepts: exactly one per Go identifier it knows. */
  predicate IsIdentKind(k: Kind) {
    IsInteger(k) || IsFloat(k) || IsComplex(k) || k.Bool? || k.Error? || k.String? || k.Byte?
  }

  /** Kinds handed to C as a PyObject* ("O" in the parse format). */
  predicate IsObjectKind(k: Kind) {
    k.Map? || k.Slice? || k.CPyObjectPointer?
  }

  /** Domain of PyArgFormat and CPtrType. */
  predicate IsParseKind(k: Kind) {
    k.Bool? || k.Int? || k.Int32? || k.Uint32? || k.Int64? || k.Uint64?
    || IsFloat(k) || IsComplex(k) || k.String? || IsObjectKind(k)
  }

  /** The four narrow integers GoCType accepts beyond IsParseKind. */
  predicate IsNarrowInteger(k: Kind) {
    k.Int8? || k.Uint8? || k.Int16? || k.Uint16?
  }

  /** Kinds PythonTypeHint accepts at any level of a descriptor. */
  predicate IsHintKind(k: Kind) {
    IsInteger(k) || IsFloat(k) || IsComplex(k)
    || k.None? || k.Bool? || k.String? || k.Map? || k.CPyObjectPointer? || k.Pointer? || k.Slice? || k.ByteArray?
  }

  /** Kinds GoPyReturn accepts at any level of a descriptor. */
  predicate IsReturnKind(k: Kind) {
    IsHintKind(k) || k.Error?
  }

  /** Kinds CPyObjectToGo converts: the elements, keys and values of the
      slices and maps an argument may carry. */
  predicate IsElemKind(k: Kind) {
    IsInteger(k) || IsFloat(k) || k.String?
  }

  /** Kinds CToGoFunction converts without looking inside. */
  predicate IsScalarArgKind(k: Kind) {
    IsInteger(k) || IsFloat(k) || IsComplex(k) || k.Bool? || k.String? || k.CPyObjectPointer?
  }

  /** The part of go/ast the resolver looks at. Each node carries its own
      source text, the string GetSourceString (codegen.go:474-476) cuts out
      of the file for it. */
  datatype Expr =
    | Ident(name: string, src: string)
    | Star(x: Expr, src: string)
    | Selector(x: Expr, sel: string, src: string)
    | ArrayType(elt: Expr, src: string)
    | MapType(key: Expr, value: Expr, src: string)
    /** any other expression; nodeType is its Go type, as %T prints it */
    | Other(nodeType: string, src: string)

  /** What the Go parser guarantees about source text: a pointer type's text
      starts with its `*`. */
  predicate WellFormed(e: Expr) {
    match e
    case Ident(_, _) => true
    case Star(x, src) => |src| >= 1 && src[0] == '*' && WellFormed(x)
    case Selector(x, _, _) => WellFormed(x)
    case ArrayType(elt, _) => WellFormed(elt)
    case MapType(k, v, _) => WellFormed(k) && WellFormed(v)
    case Other(_, _) => true
  }

  /** A `*GoType` field: nil or a descriptor. */
  datatype TypeRef = Nil | Ref(to: GoType)

  /** GoType (type.go:48-55). */
  datatype GoType = GoType(
    t: Kind,
    sliceElemType: TypeRef,
    mapKeyType: TypeRef,
    mapValType: TypeRef,
    pointerTo: TypeRef,
    goRepr: string)

  function Scalar(k: Kind, goRepr: string): GoType {
    GoType(k, Nil, Nil, Nil, Nil, goRepr)
  }

  /** The shape every descriptor AsGoType builds: an element exactly for a
      slice, a key and a value exactly for a map, never a pointee, and the
      same for every nested descriptor. */
  predicate Shaped(g: GoType) {
    && (g.sliceElemType.Ref? <==> g.t == Slice)
    && (g.mapKeyType.Ref? <==> g.t == Map)
    && (g.mapValType.Ref? <==> g.t == Map)
    && g.pointerTo.Nil?
    && (g.sliceElemType.Ref? ==> Shaped(g.sliceElemType.to))
    && (g.mapKeyType.Ref? ==> Shaped(g.mapKeyType.to))
    && (g.mapValType.Ref? ==> Shaped(g.mapValType.to))
  }

  /** Every kind in the descriptor, nested ones included, satisfies P. */
  predicate Everywhere(g: GoType, P: Kind -> bool) {
    && P(g.t)
    && (g.sliceElemType.Ref? ==> Everywhere(g.sliceElemType.to, P))
    && (g.mapKeyType.Ref? ==> Everywhere(g.mapKeyType.to, P))
    && (g.mapValType.Ref? ==> Everywhere(g.mapValType.to, P))
    && (g.pointerTo.Ref? ==> Everywhere(g.pointerTo.to, P))
  }

  /** Some kind in the descriptor, nested ones included, is k. */
  predicate Mentions(g: GoType, k: Kind) {
    || g.t == k
    || (g.sliceElemType.Ref? && Mentions(g.sliceElemType.to, k))
    || (g.mapKeyType.Ref? && Mentions(g.mapKeyType.to, k))
    || (g.mapValType.Ref? && Mentions(g.mapValType.to, k))
    || (g.pointerTo.Ref? && Mentions(g.pointerTo.to, k))
  }

  /** The Go identifier ToKind maps to each kind it accepts. */
  function IdentName(k: Kind): string
    requires IsIdentKind(k)
  {
    match k
    case Int => "int"
    case Int8 => "int8"
    case Int16 => "int16"
    case Int32 => "int32"
    case Int64 => "int64"
    case Uint => "uint"
    case Uint8 => "uint8"
    case Uint16 => "uint16"
    case Uint32 => "uint32"
    case Uint64 => "uint64"
    case Bool => "bool"
    case Error => "error"
    case Float32 => "float32"
    case Float64 => "float64"
    case Complex64 => "complex64"
    case Complex128 => "complex128"
    case String => "string"
    case Byte => "byte"
  }

  /** ToKind (type.go:57-98): a known identifier gives its kind, anything
      else ends the process. */
  function ToKind(v: string): (r: Result<Kind>)
    ensures r.Ok? ==> IsIdentKind(r.value) && IdentName(r.value) == v
    ensures !r.Ok? ==> r == Fatal("Type '" + v + "' not supported!")
  {
    match v
    case "int" => Ok(Int)
    case "int8" => Ok(Int8)
    case "int16" => Ok(Int16)
    case "int32" => Ok(Int32)
    case "int64" => Ok(Int64)
    case "uint" => Ok(Uint)
    case "uint8" => Ok(Uint8)
    case "uint16" => Ok(Uint16)
    case "uint32" => Ok(Uint32)
    case "uint64" => Ok(Uint64)
    case "bool" => Ok(Bool)
    case "error" => Ok(Error)
    case "float32" => Ok(Float32)
    case "float64" => Ok(Float64)
    case "complex64" => Ok(Complex64)
    case "complex128" => Ok(Complex128)
    case "string" => Ok(String)
    case "byte" => Ok(Byte)
    case _ => Fatal("Type '" + v + "' not supported!")
  }

  /** The other direction: every accepted kind is reached from its own name,
      so ToKind is a bijection between 18 identifiers and the kinds IsIdentKind names. */
  lemma ToKindOfIdentName(k: Kind)
    requires IsIdentKind(k)
    ensures ToKind(IdentName(k)) == Ok(k)
  {
  }

  /** `uintptr` is a Go type ToKind does not know: fatal, not an error. */
  lemma ToKindUintptrIsFatal()
    ensures ToKind("uintptr").Fatal?
  {
  }

  /** IsCPyObjectPtr (type.go:100-117): the expression is `*C.PyObject`. */
  predicate IsCPyObjectPtr(e: Expr) {
    e.Star? && e.x.Selector? && e.x.x.Ident? && e.x.x.name == "C" && e.x.sel == "PyObject"
  }

  /** What %T prints for an expression the resolver does not handle. */
  function NodeType(e: Expr): string {
    match e
    case Ident(_, _) => "*ast.Ident"
    case Star(_, _) => "*ast.StarExpr"
    case Selector(_, _, _) => "*ast.SelectorExpr"
    case ArrayType(_, _) => "*ast.ArrayType"
    case MapType(_, _, _) => "*ast.MapType"
    case Other(nodeType, _) => nodeType
  }

  /** AsGoType (type.go:119-179). */
  function AsGoType(e: Expr): (r: Result<GoType>)
    requires WellFormed(e)
    ensures r.Ok? ==> Shaped(r.value)
    ensures r.Ok? ==> IsIdentKind(r.value.t) || r.value.t in {CPyObjectPointer, Pointer, ByteArray, Slice, Map}
    ensures e.Ident? ==> (r.Ok? <==> ToKind(e.name).Ok?) && (!r.Ok? ==> r.Fatal?)
    ensures e.Ident? && r.Ok? ==> r.value.t == ToKind(e.name).value && r.value.goRepr == e.src
    ensures e.Star? && IsCPyObjectPtr(e) ==> r.Ok? && r.value.t == CPyObjectPointer && r.value.goRepr == ""
    ensures e.Star? && !IsCPyObjectPtr(e) ==> r.Ok? && r.value.t == Pointer && "*" + r.value.goRepr == e.src
    ensures (e.Selector? || e.Other?) ==> r.Err? && ContainsSub(r.msg, e.src)
  {
    match e
    case Ident(name, src) =>
      var k :- ToKind(name);
      Ok(Scalar(k, src))
    case Star(_, src) =>
      if IsCPyObjectPtr(e) then Ok(Scalar(CPyObjectPointer, ""))
      else Ok(Scalar(Pointer, src[1..]))
    case ArrayType(elt, src) =>
      var et :- AsGoType(elt);
      if et.t == Byte then Ok(Scalar(ByteArray, src))
      else Ok(GoType(Slice, Ref(et), Nil, Nil, Nil, src))
    case MapType(key, value, src) =>
      var kt :- AsGoType(key);
      var vt :- AsGoType(value);
      Ok(GoType(Map, Nil, Ref(kt), Ref(vt), Nil, src))
    case _ =>
      var tail := "' (" + NodeType(e) + ") not supported!";
      ContainsMiddle("Type '", e.src, tail);
      Err("Type '" + e.src + tail)
  }

  /** Composite types: an element, key or value that does not resolve makes
      the whole type fail with that same outcome (the key before the value);
      otherwise an array is ByteArray when its element is Byte and a Slice
      of that element otherwise, and a map carries both resolved types. */
  lemma AsGoTypeComposite(e: Expr)
    requires WellFormed(e) && (e.ArrayType? || e.MapType?)
    ensures e.ArrayType? && !AsGoType(e.elt).Ok? ==> AsGoType(e) == AsGoType(e.elt)
    ensures e.ArrayType? && AsGoType(e.elt).Ok? ==>
      var r := AsGoType(e);
      && r.Ok? && r.value.goRepr == e.src
      && (r.value.t == ByteArray <==> AsGoType(e.elt).value.t == Byte)
      && (r.value.t != ByteArray ==> r.value.t == Slice && r.value.sliceElemType == Ref(AsGoType(e.elt).value))
    ensures e.MapType? && !AsGoType(e.key).Ok? ==> AsGoType(e) == AsGoType(e.key)
    ensures e.MapType? && AsGoType(e.key).Ok? && !AsGoType(e.value).Ok? ==> AsGoType(e) == AsGoType(e.value)
    ensures e.MapType? && AsGoType(e.key).Ok? && AsGoType(e.value).Ok? ==>
      AsGoType(e) == Ok(GoType(Map, Nil, Ref(AsGoType(e.key).value), Ref(AsGoType(e.value).value), Nil, e.src))
  {
  }

  /** Only the identifier `byte` resolves to Byte: `uint8`, although the same
      Go type, gives Uint8. */
  lemma {:induction false} ByteOnlyFromByteIdent(e: Expr)
    requires WellFormed(e)
    requires AsGoType(e).Ok? && AsGoType(e).value.t == Byte
    ensures e.Ident? && e.name == "byte"
  {
    match e
    case Ident(name, _) =>
      assert IdentName(Byte) == name;
    case Star(_, _) =>
    case ArrayType(_, _) =>
    case MapType(_, _, _) =>
  }

  /** An array type becomes ByteArray exactly when its element is the
      identifier `byte`; every other resolvable array is a Slice. */
  lemma {:induction false} ByteArrayIffByteElement(e: Expr)
    requires WellFormed(e) && e.ArrayType? && AsGoType(e).Ok?
    ensures AsGoType(e).value.t == ByteArray <==> e.elt.Ident? && e.elt.name == "byte"
    ensures AsGoType(e).value.t != ByteArray ==> AsGoType(e).value.t == Slice
  {
    AsGoTypeComposite(e);
    if AsGoType(e.elt).value.t == Byte {
      ByteOnlyFromByteIdent(e.elt);
    }
  }

  /** The resolver gives CPyObjectPointer exactly for the expressions
      IsCPyObjectPtr recognises: no identifier, array or map resolves to
      it. */
  lemma CPyObjectPtrIff(e: Expr)
    requires WellFormed(e)
    ensures AsGoType(e).Ok? && AsGoType(e).value.t == CPyObjectPointer <==> IsCPyObjectPtr(e)
  {
    if e.ArrayType? || e.MapType? {
      AsGoTypeComposite(e);
    }
  }

  lemma Uint8ArrayIsSlice()
    ensures AsGoType(ArrayType(Ident("uint8", "uint8"), "[]uint8"))
         == Ok(GoType(Slice, Ref(Scalar(Uint8, "uint8")), Nil, Nil, Nil, "[]uint8"))
    ensures AsGoType(ArrayType(Ident("byte", "byte"), "[]byte")) == Ok(Scalar(ByteArray, "[]byte"))
  {
    assert ToKind("uint8") == Ok(Uint8);
    assert ToKind("byte") == Ok(Byte);
  }

  /** The message of GoType.Unsupported (type.go:181-187). */
  function UnsupportedMsg(g: GoType): string {
    if g.goRepr == "" then "Type without source text not supported"
    else "Type '" + g.goRepr + "' not supported"
  }

  /** PyArgFormat (type.go:189-219): the PyArg_ParseTupleAndKeywords format
      unit for one argument, as the Python/C API Reference Manual ("Parsing
      arguments and building values") defines the codes. */
  function PyArgFormat(g: GoType): (r: Result<string>)
    ensures r.Ok? <==> IsParseKind(g.t)
    ensures r.Fatal? ==> r.msg == UnsupportedMsg(g)
    ensures r.Ok? ==> |r.value| == 1
    ensures r.Ok? ==> (r.value == "O" <==> IsObjectKind(g.t))
  {
    match g.t
    case Bool => Ok("p")
    case Int => Ok("i")
    case Int32 => Ok("l")
    case Uint32 => Ok("k")
    case Int64 => Ok("L")
    case Uint64 => Ok("K")
    case Float32 => Ok("f")
    case Float64 => Ok("d")
    case Complex64 | Complex128 => Ok("D")
    case String => Ok("s")
    case Map | Slice | CPyObjectPointer => Ok("O")
    case _ => Fatal(UnsupportedMsg(g))
  }

  /** GoCType (type.go:221-254): the cgo type of the C variable an argument
      is parsed into. */
  function GoCType(g: GoType): (r: Result<string>)
    ensures r.Ok? <==> IsParseKind(g.t) || IsNarrowInteger(g.t)
    ensures r.Fatal? ==> r.msg == UnsupportedMsg(g)
    ensures r.Ok? ==> (r.value == "*C.PyObject" <==> IsObjectKind(g.t))
  {
    match g.t
    case Int | Bool => Ok("C.int")
    case Int8 => Ok("C.int8_t")
    case Uint8 => Ok("C.uint8_t")
    case Int16 => Ok("C.int16_t")
    case Uint16 => Ok("C.uint16_t")
    case Int32 => Ok("C.int32_t")
    case Uint32 => Ok("C.uint32_t")
    case Int64 => Ok("C.int64_t")
    case Uint64 => Ok("C.uint64_t")
    case Float32 => Ok("C.float")
    case Float64 => Ok("C.double")
    case Complex64 | Complex128 => Ok("C.Py_complex")
    case String => Ok("*C.char")
    case Map | Slice | CPyObjectPointer => Ok("*C.PyObject")
    case _ => Fatal(UnsupportedMsg(g))
  }

  /** CPtrType (type.go:256-281): the C pointer type of the parameter the
      parsed value is written through. */
  function CPtrType(g: GoType): (r: Result<string>)
    ensures r.Ok? <==> IsParseKind(g.t)
    ensures r.Fatal? ==> r.msg == UnsupportedMsg(g)
    ensures r.Ok? ==> (r.value == "PyObject **" <==> IsObjectKind(g.t))
  {
    match g.t
    case Int | Bool => Ok("int *")
    case Int32 => Ok("int32_t *")
    case Int64 => Ok("int64_t *")
    case Uint32 => Ok("uint32_t *")
    case Uint64 => Ok("uint64_t *")
    case Float32 => Ok("float *")
    case Float64 => Ok("double *")
    case Complex64 | Complex128 => Ok("Py_complex *")
    case String => Ok("char **")
    case Map | Slice | CPyObjectPointer => Ok("PyObject **")
    case _ => Fatal(UnsupportedMsg(g))
  }

  /** The three argument tables agree: the kinds with a parse code are the
      kinds with a C pointer type, both have a cgo variable type, and each
      table sends exactly the same kinds through a PyObject*. */
  lemma ArgumentTablesAgree(g: GoType)
    ensures PyArgFormat(g).Ok? <==> CPtrType(g).Ok?
    ensures PyArgFormat(g).Ok? ==> GoCType(g).Ok?
    ensures GoCType(g).Ok? && !PyArgFormat(g).Ok? <==> IsNarrowInteger(g.t)
    ensures PyArgFormat(g).Ok? ==>
      (PyArgFormat(g).value == "O" <==> CPtrType(g).value == "PyObject **")
      && (CPtrType(g).value == "PyObject **" <==> GoCType(g).value == "*C.PyObject")
  {
  }

  /** The C type a PyArg_ParseTupleAndKeywords format unit stores through
      its pointer argument, as the Python/C API Reference Manual ("Parsing
      arguments and building values") lists them; "" for a code not listed
      here. */
  function FormatTarget(code: string): string {
    match code
    case "p" => "int"
    case "i" => "int"
    case "I" => "unsigned int"
    case "l" => "long"
    case "k" => "unsigned long"
    case "L" => "long long"
    case "K" => "unsigned long long"
    case "f" => "float"
    case "d" => "double"
    case "D" => "Py_complex"
    case "s" => "const char *"
    case "O" => "PyObject *"
    case _ => ""
  }

  /** The type a C pointer type points to: `int *` to `int`, `char **` to
      `char *`. */
  function Pointee(ptr: string): string {
    if |ptr| >= 2 && ptr[|ptr| - 2..] == " *" then ptr[..|ptr| - 2]
    else if |ptr| >= 1 && ptr[|ptr| - 1] == '*' then ptr[..|ptr| - 1]
    else ptr
  }

  /** The size in bytes of the C types above on an LP64 platform (64-bit
      Linux and macOS): `long` and pointers take 8 bytes, `int` 4; 0 for a
      type not listed here. */
  function LP64Size(ctype: string): nat {
    match ctype
    case "int" => 4
    case "unsigned int" => 4
    case "int32_t" => 4
    case "uint32_t" => 4
    case "float" => 4
    case "long" => 8
    case "unsigned long" => 8
    case "long long" => 8
    case "unsigned long long" => 8
    case "int64_t" => 8
    case "uint64_t" => 8
    case "double" => 8
    case "char *" => 8
    case "const char *" => 8
    case "PyObject *" => 8
    case "Py_complex" => 16
    case _ => 0
  }

  /** The parse code of `g` stores exactly as many bytes as the variable
      CPtrType declares for it holds. */
  predicate StoresFit(code: string, g: GoType)
    requires CPtrType(g).Ok?
  {
    && LP64Size(FormatTarget(code)) > 0
    && LP64Size(FormatTarget(code)) == LP64Size(Pointee(CPtrType(g).value))
  }

  /** The codes PyArgFormat picks for Int32 and Uint32, `l` and `k`, store
      a C long, 8 bytes on LP64, through the `int32_t *` and `uint32_t *`
      that CPtrType declares: 4 bytes of the caller's stack are overwritten.
      Every other kind's code fits its variable. */
  lemma ParseCodeWidthMismatch(g: GoType)
    requires IsParseKind(g.t)
    ensures StoresFit(PyArgFormat(g).value, g) <==> !(g.t == Int32 || g.t == Uint32)
    ensures g.t == Int32 || g.t == Uint32 ==>
      && LP64Size(FormatTarget(PyArgFormat(g).value)) == 8
      && LP64Size(Pointee(CPtrType(g).value)) == 4
  {
    if g.t == Int32 {
      TargetWidths("l", "int32_t *", "long", "int32_t", 8, 4);
    } else if g.t == Uint32 {
      TargetWidths("k", "uint32_t *", "unsigned long", "uint32_t", 8, 4);
    } else if IsObjectKind(g.t) || g.t == String || IsComplex(g.t) {
      IndirectCodesFit(g);
    } else {
      NumericCodesFit(g);
    }
  }

  /** Codes of the numbers other than the 32-bit integers fit. */
  lemma NumericCodesFit(g: GoType)
    requires g.t in {Bool, Int, Int64, Uint64, Float32, Float64}
    ensures StoresFit(PyArgFormat(g).value, g)
  {
    match g.t
    case Int =>
      TargetWidths("i", "int *", "int", "int", 4, 4);
    case Bool =>
      TargetWidths("p", "int *", "int", "int", 4, 4);
    case Int64 =>
      TargetWidths("L", "int64_t *", "long long", "int64_t", 8, 8);
    case Uint64 =>
      TargetWidths("K", "uint64_t *", "unsigned long long", "uint64_t", 8, 8);
    case Float32 =>
      TargetWidths("f", "float *", "float", "float", 4, 4);
    case Float64 =>
      TargetWidths("d", "double *", "double", "double", 8, 8);
  }

  /** Codes of complex numbers, strings and objects fit. */
  lemma IndirectCodesFit(g: GoType)
    requires IsObjectKind(g.t) || g.t == String || IsComplex(g.t)
    ensures StoresFit(PyArgFormat(g).value, g)
  {
    match g.t
    case Complex64 =>
      TargetWidths("D", "Py_complex *", "Py_complex", "Py_complex", 16, 16);
    case Complex128 =>
      TargetWidths("D", "Py_complex *", "Py_complex", "Py_complex", 16, 16);
    case String =>
      TargetWidths("s", "char **", "const char *", "char *", 8, 8);
    case Map =>
      TargetWidths("O", "PyObject **", "PyObject *", "PyObject *", 8, 8);
    case Slice =>
      TargetWidths("O", "PyObject **", "PyObject *", "PyObject *", 8, 8);
    case CPyObjectPointer =>
      TargetWidths("O", "PyObject **", "PyObject *", "PyObject *", 8, 8);
  }

  /** One row of the comparison: what the code stores, what the pointer
      points to, and their sizes. */
  lemma TargetWidths(code: string, ptr: string, stored: string, held: string, m: nat, n: nat)
    requires FormatTarget(code) == stored && Pointee(ptr) == held
    requires LP64Size(stored) == m && LP64Size(held) == n
    ensures LP64Size(FormatTarget(code)) == m && LP64Size(Pointee(ptr)) == n
  {
  }

  /** The format units the 32-bit kinds evidently need: `i` (C int) for
      Int32 and `I` (C unsigned int) for Uint32; every other kind keeps its
      code. With them every parse code fits the variable it is stored
      into. */
  function PyArgFormatLP64(g: GoType): (r: Result<string>)
    ensures r.Ok? <==> IsParseKind(g.t)
    ensures r.Fatal? ==> r.msg == UnsupportedMsg(g)
    ensures r.Ok? ==> StoresFit(r.value, g)
    ensures r.Ok? && !(g.t == Int32 || g.t == Uint32) ==> r == PyArgFormat(g)
  {
    ParseCodesFit(g);
    match g.t
    case Int32 => Ok("i")
    case Uint32 => Ok("I")
    case _ => PyArgFormat(g)
  }

  /** The fact PyArgFormatLP64 rests on, kind by kind. */
  lemma ParseCodesFit(g: GoType)
    ensures g.t == Int32 ==> CPtrType(g).Ok? && StoresFit("i", g)
    ensures g.t == Uint32 ==> CPtrType(g).Ok? && StoresFit("I", g)
    ensures IsParseKind(g.t) && !(g.t == Int32 || g.t == Uint32) ==> StoresFit(PyArgFormat(g).value, g)
  {
    if IsParseKind(g.t) {
      ParseCodeWidthMismatch(g);
    }
    if g.t == Int32 {
      assert Pointee("int32_t *") == "int32_t";
    } else if g.t == Uint32 {
      assert Pointee("uint32_t *") == "uint32_t";
    }
  }

  /** PythonTypeHint (type.go:283-311). */
  function PythonTypeHint(g: GoType): (r: Result<string>)
    requires Shaped(g)
    ensures r.Ok? <==> Everywhere(g, IsHintKind)
    ensures !r.Err?
    ensures r.Ok? && IsInteger(g.t) ==> r.value == "int"
    ensures r.Ok? && g.t == Pointer ==> r.value == g.goRepr
    ensures r.Ok? && g.t == Map ==>
      && PythonTypeHint(g.mapKeyType.to).Ok? && PythonTypeHint(g.mapValType.to).Ok?
      && r.value == "Dict[" + PythonTypeHint(g.mapKeyType.to).value + ", "
                   + PythonTypeHint(g.mapValType.to).value + "]"
    ensures r.Ok? && g.t == Slice ==>
      && PythonTypeHint(g.sliceElemType.to).Ok?
      && r.value == "List[" + PythonTypeHint(g.sliceElemType.to).value + "]"
  {
    match g.t
    case None => Ok("NoneType")
    case Int | Int8 | Int16 | Int32 | Int64 | Uint | Uint8 | Uint16 | Uint32 | Uint64 => Ok("int")
    case String => Ok("str")
    case Bool => Ok("bool")
    case Map =>
      var k :- PythonTypeHint(g.mapKeyType.to);
      var v :- PythonTypeHint(g.mapValType.to);
      Ok("Dict[" + k + ", " + v + "]")
    case CPyObjectPointer => Ok("object")
    case Pointer => Ok(g.goRepr)
    case Float32 | Float64 => Ok("float")
    case Complex64 | Complex128 => Ok("complex")
    case Slice =>
      var e :- PythonTypeHint(g.sliceElemType.to);
      Ok("List[" + e + "]")
    case ByteArray => Ok("bytes")
    case _ => Fatal(UnsupportedMsg(g))
  }

  /** GoPyReturn (type.go:313-347): the Go statement that turns a result
      held in `varname` into the *C.PyObject the bridge returns. */
  function GoPyReturn(g: GoType, varname: string): (r: Result<string>)
    requires Shaped(g)
    ensures r.Ok? <==> Everywhere(g, IsReturnKind)
    ensures !r.Err?
    ensures g.t == None ==> r == Ok("return C.Py_None")
    ensures g.t == CPyObjectPointer ==> r == Ok("return " + varname)
    ensures g.t == Error ==> r == Ok("return asPyError(" + varname + ")")
    ensures IsInteger(g.t) ==> r == Ok("return asPyLong(" + varname + ")")
    ensures g.t == Pointer ==> r == Ok("return " + g.goRepr + "ToPyObject(" + varname + ")")
    ensures r.Ok? && g.t == Map ==>
      && GoPyReturnLambda(g.mapKeyType.to).Ok? && GoPyReturnLambda(g.mapValType.to).Ok?
      && r.value == "return asPyDict(" + varname + ", " + GoPyReturnLambda(g.mapKeyType.to).value + ", "
                   + GoPyReturnLambda(g.mapValType.to).value + ")"
    ensures r.Ok? && g.t == Slice ==>
      && GoPyReturnLambda(g.sliceElemType.to).Ok?
      && r.value == "return asPyList(" + varname + ", " + GoPyReturnLambda(g.sliceElemType.to).value + ")"
    decreases g, 0
  {
    match g.t
    case None => Ok("return C.Py_None")
    case CPyObjectPointer => Ok("return " + varname)
    case Bool => Ok("return asPyBool(" + varname + ")")
    case Int | Int8 | Int16 | Int32 | Int64 | Uint | Uint8 | Uint16 | Uint32 | Uint64 =>
      Ok("return asPyLong(" + varname + ")")
    case Float32 | Float64 => Ok("return asPyFloat(" + varname + ")")
    case Complex64 => Ok("return goComplex64AsPyComplex(" + varname + ")")
    case Complex128 => Ok("return goComplex128AsPyComplex(" + varname + ")")
    case String => Ok("return asPyString(" + varname + ")")
    case Error => Ok("return asPyError(" + varname + ")")
    case Pointer => Ok("return " + g.goRepr + "ToPyObject(" + varname + ")")
    case Map =>
      var k :- GoPyReturnLambda(g.mapKeyType.to);
      var v :- GoPyReturnLambda(g.mapValType.to);
      Ok("return asPyDict(" + varname + ", " + k + ", " + v + ")")
    case Slice =>
      var e :- GoPyReturnLambda(g.sliceElemType.to);
      Ok("return asPyList(" + varname + ", " + e + ")")
    case ByteArray => Ok("return asPyBytes(" + varname + ")")
    case _ => Fatal(UnsupportedMsg(g))
  }

  /** GoPyReturnLambda (type.go:349-356): a Go closure converting one
      element, key or value, built from that type's own GoPyReturn. */
  function GoPyReturnLambda(g: GoType): (r: Result<string>)
    requires Shaped(g)
    ensures r.Ok? <==> GoPyReturn(g, "v").Ok?
    ensures !r.Err?
    ensures r.Ok? ==> ContainsSub(r.value, GoPyReturn(g, "v").value)
    decreases g, 1
  {
    var body :- GoPyReturn(g, "v");
    var param := if g.t == Pointer then "*" + g.goRepr else g.goRepr;
    ContainsMiddle("func(v " + param + ") *C.PyObject { ", body, " }");
    Ok("func(v " + param + ") *C.PyObject { " + body + " }")
  }

  /** Every descriptor that has a Python type hint can also be returned:
      the two tables differ only in `error`, which can be returned (as a
      raised exception) but never appears in a hint. */
  lemma {:induction false} HintedTypesAreReturnable(g: GoType, varname: string)
    requires Shaped(g)
    ensures PythonTypeHint(g).Ok? ==> GoPyReturn(g, varname).Ok?
    ensures GoPyReturn(g, varname).Ok? && !PythonTypeHint(g).Ok? ==> Mentions(g, Error)
  {
    if g.sliceElemType.Ref? {
      HintedTypesAreReturnable(g.sliceElemType.to, varname);
    }
    if g.mapKeyType.Ref? {
      HintedTypesAreReturnable(g.mapKeyType.to, varname);
    }
    if g.mapValType.Ref? {
      HintedTypesAreReturnable(g.mapValType.to, varname);
    }
  }

  /** An element kind has no nested descriptor, so its hint is its own. */
  lemma ElementsAreHinted(g: GoType)
    requires Shaped(g) && IsElemKind(g.t)
    ensures g.sliceElemType.Nil? && g.mapKeyType.Nil? && g.mapValType.Nil?
    ensures Everywhere(g, IsHintKind)
  {
  }

  /** CPyObjectToGoLambda (type.go:401-413): the name of the Go function
      converting one element of a slice or map argument. */
  function CPyObjectToGoLambda(g: GoType): (r: Result<string>)
    ensures r.Ok? <==> IsElemKind(g.t)
    ensures r.Fatal? ==> r.msg == UnsupportedMsg(g)
  {
    match g.t
    case String => Ok("pyObjectAsGoString")
    case Float32 | Float64 => Ok("asGoFloat[" + g.goRepr + "]")
    case Int | Int8 | Int16 | Int32 | Int64 | Uint | Uint8 | Uint16 | Uint32 | Uint64 =>
      Ok("asGoInt[" + g.goRepr + "]")
    case _ => Fatal(UnsupportedMsg(g))
  }

  /** CPyObjectToGo (type.go:388-399): the same conversion applied to one
      *C.PyObject variable. */
  function CPyObjectToGo(g: GoType, cPyObjectVarName: string): (r: Result<string>)
    ensures r.Ok? <==> CPyObjectToGoLambda(g).Ok?
    ensures r.Ok? ==> r.value == CPyObjectToGoLambda(g).value + "(" + cPyObjectVarName + ")"
    ensures r.Fatal? ==> r == CPyObjectToGoLambda(g)
  {
    match g.t
    case String => Ok("pyObjectAsGoString(" + cPyObjectVarName + ")")
    case Int | Int8 | Int16 | Int32 | Int64 | Uint | Uint8 | Uint16 | Uint32 | Uint64 =>
      Ok("asGoInt[" + g.goRepr + "](" + cPyObjectVarName + ")")
    case Float32 | Float64 => Ok("asGoFloat[" + g.goRepr + "](" + cPyObjectVarName + ")")
    case _ => Fatal(UnsupportedMsg(g))
  }

  /** CToGoFunction (type.go:358-382): the Go expression that turns the
      parsed C value in `varname` into the Go argument. Slices and maps are
      converted element by element, so they succeed only when their
      elements, keys and values are in the domain of CPyObjectToGoLambda. */
  function CToGoFunction(g: GoType, varname: string): (r: Result<string>)
    requires Shaped(g)
    ensures r.Ok? <==>
      || IsScalarArgKind(g.t)
      || (g.t == Slice && IsElemKind(g.sliceElemType.to.t))
      || (g.t == Map && IsElemKind(g.mapKeyType.to.t) && IsElemKind(g.mapValType.to.t))
    ensures !r.Err?
    ensures g.t == CPyObjectPointer ==> r == Ok(varname)
  {
    match g.t
    case CPyObjectPointer => Ok(varname)
    case Bool => Ok("asGoBool(" + varname + ")")
    case Int | Int8 | Int16 | Int32 | Int64 | Uint | Uint8 | Uint16 | Uint32 | Uint64 | Float32 | Float64 =>
      Ok(g.goRepr + "(" + varname + ")")
    case Complex64 => Ok("asGoComplex64(" + varname + ")")
    case Complex128 => Ok("asGoComplex128(" + varname + ")")
    case String => Ok("C.GoString(" + varname + ")")
    case Slice =>
      var e :- CPyObjectToGoLambda(g.sliceElemType.to);
      Ok("asGoSlice(" + varname + ", " + e + ")")
    case Map =>
      var k :- CPyObjectToGoLambda(g.mapKeyType.to);
      var v :- CPyObjectToGoLambda(g.mapValType.to);
      Ok("asGoMap(" + varname + ", " + k + ", " + v + ")")
    case _ => Fatal(UnsupportedMsg(g))
  }

  /** CToGoLambdaFunction (type.go:384-386): a closure from the cgo type to
      the Go type; it needs both a cgo type and a conversion. */
  function CToGoLambdaFunction(g: GoType): (r: Result<string>)
    requires Shaped(g)
    ensures r.Ok? <==> GoCType(g).Ok? && CToGoFunction(g, "o").Ok?
    ensures !r.Err?
    ensures r.Ok? ==> ContainsSub(r.value, CToGoFunction(g, "o").value)
  {
    var ct :- GoCType(g);
    var conv :- CToGoFunction(g, "o");
    ContainsMiddle("func(o " + ct + ") " + g.goRepr + " { return ", conv, " }");
    Ok("func(o " + ct + ") " + g.goRepr + " { return " + conv + " }")
  }

  /** Pointer and ByteArray arguments resolve but cannot be converted from C:
      a function taking `*numpy.Array` or `[]byte` is rejected when its
      signature is derived. */
  lemma PointerAndBytesArgumentsUnsupported(g: GoType, varname: string)
    requires Shaped(g) && g.t in {Pointer, ByteArray}
    ensures CToGoFunction(g, varname).Fatal?
    ensures PyArgFormat(g).Fatal? && GoCType(g).Fatal? && CPtrType(g).Fatal?
  {
  }

  /** IsNotNone (type.go:415-417) */
  predicate IsNotNone(g: GoType) {
    g.t != None
  }
}
