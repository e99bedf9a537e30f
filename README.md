# goserpent core in Dafny

goserpent generates CPython extension glue from annotated Go source. It
reads the exported functions and types of a Go package and derives a
`FunctionSignature` for each one: the Python name, the
`PyArg_ParseTupleAndKeywords` format string, the C and Go conversions of
every argument, the `PyMethodDef` entry and its docstring. It also ships a
small `numpy` helper package that walks n-dimensional arrays and names the
numpy element types.

This project models that core and proves what it promises:

- `types.dfy` (module `Types`) models `type.go`: the closed `Kind`
  enumeration, `ToKind`, the recursive `AsGoType` resolver over a small
  expression datatype, and the per-kind conversion tables. Each fatal exit
  (`log.Fatal`, `Unsupported`) becomes a `Fatal` result. An error value
  returned by Go becomes an `Err` result (`outcomes.dfy`).
- `quoting.dfy`, `doc.dfy`, `signature.dfy` and `exports.dfy` model
  `codegen.go`:
  - `CCodeString`;
  - the doc-comment scanner `ProcessDoc`;
  - the `FunctionSignature` class, whose `Init` fills the six per-argument
    columns once and remembers that it did;
  - `ProcessFunc` and `ProcessType`;
  - the walk over the input files in `DoPyExports`;
  - the checks in `GeneratePyExportsCode`.
- `numpy_array.dfy` models `numpy/array.go`:
  - the `IndexedValues` odometer, as a class over an `array<int>` of
    coordinates;
  - the item count;
  - the `Values` walk;
  - the length check of `getPtr`.
- `numpy_type_string.dfy` models the generated `NumpyType.String` with its
  name and offset tables.
- `gostrings.dfy` and `seqs.dfy` hold the string and sequence helpers
  the modules share.

The global `args` of the generator (`UseSnakeCase`, `ExportAll`) becomes an
explicit `Config` value. `ToSnakeCase` is not defined in any of these files,
so `Config` carries it as an arbitrary function.

## Model

| member | source | states |
|---|---|---|
| Types.ToKind | type.go:57-98 | Succeeds exactly on the 18 identifier names, and the kind it returns is named by that identifier. Every other name, `uintptr` included, is fatal with "Type '<name>' not supported!". |
| Types.ToKindOfIdentName | type.go:57-94 | Each of the 18 kinds is reached from its own name. With `ToKind` this makes the table a bijection. |
| Types.ToKindUintptrIsFatal | type.go:96-97 | `uintptr` is a fatal exit, not an error value. |
| Types.AsGoType | type.go:119-179 | Every result is well shaped: the slice element is set iff Slice, key and value are set iff Map, and pointee is never set. An identifier resolves through `ToKind` and keeps its source text. `*C.PyObject` gives CPyObjectPointer with an empty representation. Any other `*X` gives Pointer whose representation is the source text minus `*`. Selector and other shapes give an error value that contains their source text. |
| Types.AsGoTypeComposite | type.go:138-173 | An array or map propagates the first failing element, key or value unchanged. Otherwise an array is ByteArray iff its element is Byte, and a Slice of that element otherwise. A map carries both resolved types and its source text. |
| Types.ByteOnlyFromByteIdent | type.go:59-94 | Kind Byte arises only from the identifier `byte`. (See also lines 121-125.) |
| Types.ByteArrayIffByteElement | type.go:144-157 | A resolved array is ByteArray iff its element is the identifier `byte`, and a Slice otherwise. |
| Types.Uint8ArrayIsSlice | type.go:144-157 | `[]uint8` is a Slice of Uint8 while `[]byte` is a ByteArray, although Go treats the two as the same type. |
| Types.IsCPyObjectPtr | type.go:100-117 | True exactly for `*C.PyObject`: a star over the selector `PyObject` of the identifier `C`. |
| Types.CPyObjectPtrIff | type.go:100-179 | The resolver gives CPyObjectPointer exactly for the expressions `IsCPyObjectPtr` recognises. No identifier, array or map resolves to it. |
| Types.UnsupportedMsg | type.go:181-187 | "Type '<GoRepr>' not supported" when the descriptor has source text. Otherwise a fixed text; see "Left out". |
| Types.PyArgFormat | type.go:189-219 | Defined exactly on the parseable kinds, with a one-letter code. The code is "O" iff the kind is passed as a Python object. Every other kind is fatal with the Unsupported message. What each code stores is stated by `ParseCodeWidthMismatch`. |
| Types.GoCType | type.go:221-254 | Defined on the parseable kinds plus Int8, Uint8, Int16 and Uint16. The result is `*C.PyObject` iff the kind is an object kind. |
| Types.CPtrType | type.go:256-281 | Defined on exactly the parseable kinds. The result is `PyObject **` iff the kind is an object kind. |
| Types.ArgumentTablesAgree | type.go:189-281 | `PyArgFormat` and `CPtrType` accept the same kinds. `GoCType` accepts those plus exactly the four narrow integers. The three tables agree on which kinds travel as Python objects. |
| Types.ParseCodeWidthMismatch | type.go:189-281 | Each code's C type is taken from the Python/C API manual, with sizes for 64-bit Linux and macOS. Every code stores as many bytes as the variable `CPtrType` declares, except for Int32 and Uint32. Their `l` and `k` store an 8-byte long through `int32_t *` and `uint32_t *`, which hold 4 bytes. |
| Types.PyArgFormatLP64 | type.go:198-201 | The corrected codes: `i` (C int) for Int32 and `I` (C unsigned int) for Uint32. The domain and the Unsupported message are unchanged, every code fits its variable, and all other kinds keep their code. |
| Types.PythonTypeHint | type.go:283-311 | Succeeds iff every kind in the type, nested ones included, has a hint; it is never an error value. Integer kinds give `int` and Pointer gives its Go representation. A Map gives `Dict[k, v]` and a Slice `List[e]`, built from the hints of the key, value or element. |
| Types.GoPyReturn | type.go:313-347 | Succeeds iff every nested kind is returnable. None gives `return C.Py_None`, CPyObjectPointer returns the variable itself, Error uses `asPyError`, and every integer kind uses `asPyLong`. A Pointer gives `return <repr>ToPyObject(v)`. A Map gives `asPyDict(v, k, w)` and a Slice `asPyList(v, e)`, where the closures come from `GoPyReturnLambda` of the key, value and element. |
| Types.GoPyReturnLambda | type.go:349-356 | Defined exactly where `GoPyReturn` is, and wraps `GoPyReturn` of `v`. |
| Types.HintedTypesAreReturnable | type.go:283-356 | Every type with a Python hint has a return conversion. A returnable type without a hint mentions Error somewhere. |
| Types.ElementsAreHinted | type.go:283-311 | The element kinds of `CPyObjectToGoLambda` are flat and all have hints. (See also lines 401-413.) |
| Types.CPyObjectToGoLambda | type.go:401-413 | Defined exactly on String, the integer kinds, Float32 and Float64. Every other kind is fatal with the Unsupported message. |
| Types.CPyObjectToGo | type.go:388-399 | Defined where `CPyObjectToGoLambda` is, and applies that lambda to the variable. |
| Types.CToGoFunction | type.go:358-382 | Succeeds exactly on scalar argument kinds, on slices whose element is an element kind, and on maps whose key and value are element kinds. CPyObjectPointer passes the variable through. |
| Types.CToGoLambdaFunction | type.go:384-386 | Defined iff both the C type and the conversion exist, and contains the conversion of `o`. |
| Types.PointerAndBytesArgumentsUnsupported | type.go:189-281 | Pointer and ByteArray parameters are rejected by every argument table. (See also lines 358-382.) |
| Types.IsNotNone | type.go:415-417 | True exactly for kinds other than None. |
| Quoting.CCodeString | codegen.go:132-146 | As written: text with a newline is accepted iff it does not contain `")`, and becomes `R"(text)"`. One-line text is accepted iff it has no `"`, and becomes `"text"`. Every rejection is an error value. |
| Quoting.RawEnd | codegen.go:138 | Finds the first `)"`, which is where C++ ends a raw string. |
| Quoting.RawLiteralReadsBack | codegen.go:138 | A raw literal reads back as its content iff the content has no `)"`. |
| Quoting.QuotedLiteralReadsBack | codegen.go:145 | A quoted literal of text without `"` or `\` reads back as that text. |
| Quoting.CCodeStringMisquotes | codegen.go:133-138 | Finding 1: multi-line text containing `)"` but not `")` is accepted and does not read back. |
| Quoting.CCodeStringMisquotesExample | codegen.go:133-138 | A concrete input for Finding 1. |
| Quoting.CCodeStringSafe | codegen.go:132-146 | Corrected guard: whatever it accepts reads back as the original text, except one-line text with a backslash. |
| Quoting.CCodeStringSafeExact | codegen.go:133-138 | For multi-line text, the corrected guard accepts exactly the texts that read back. |
| DocComments.ProcessDoc | codegen.go:308-326 | The scanner loop: `isExport` holds iff some line of the trimmed doc starts with `go:pyexport`. `fnDoc` equals `DocText`: the other lines in order, joined by newlines, with leading empty lines dropped. |
| DocComments.DocStep | codegen.go:313-323 | One more scanned line. A marker sets the flag and leaves the kept text as it was. Any other line becomes the text when the text is empty, and is otherwise appended after a newline. The flag holds iff some line read so far is a marker. |
| DocComments.AnyMarkerIff | codegen.go:315-317 | The export flag means "some line is a marker line". |
| DocComments.UnmarkedDropsMarkers | codegen.go:315-322 | No marker line survives, and a doc without markers keeps every line. |
| DocComments.DropLeadingEmptySnoc | codegen.go:318-322 | Appending a line to `fnDoc` either starts it, when it is empty, or adds a newline and the line. |
| DocComments.FirstDocLineNotEmpty | codegen.go:312 | After `TrimSpace` the first scanned line is never empty. |
| DocComments.UnexportedDocKeepsAllLines | codegen.go:308-326 | Without a marker, the result is all lines joined by newlines. |
| DocComments.MarkerOnlyDocExample | codegen.go:308-326 | A doc that is only the marker exports with an empty `fnDoc`. |
| Signature.CFunctionName | codegen.go:53-65 | Every C name starts with `pyexport_`. |
| Signature.CFunctionNameSpelling | codegen.go:53-65 | A method is named `pyexport_<recv>_<name>`, snake-cased when `UseSnakeCase`. A free function is snake-cased only when `UseSnakeCase` is false, which inverts the flag. |
| Signature.PyFunctionName | codegen.go:110-114 | The Go name passed through `ToSnakeCase` when snake case is on, and unchanged otherwise. |
| Signature.PythonName | codegen.go:173-179 | An argument's Python name follows the same rule as a function's. |
| Signature.DeriveArg | codegen.go:78-86 | One row of `init`. It succeeds iff the argument type is supported by all five tables. It fixes the Python and Go names, the hint prefix `name: `, the `var name ` declaration, and `PyObject **name` for object kinds. |
| Signature.ArgumentDomain | codegen.go:78-86 | The argument types `init` accepts, listed kind by kind. The narrow integers, Uint, Pointer, ByteArray, Error, Byte and None are rejected. |
| Signature.ArgsFormat | codegen.go:99-105 | Succeeds iff every argument has a format code. The result has one letter per argument, in argument order. |
| Signature.ArgsFormatFailsFirst | codegen.go:99-105 | The first argument without a code decides the fatal message. |
| Signature.ReturnAnnotation | codegen.go:151-154 | Empty for None and Error. Otherwise ` -> hint`, present iff the return type has a hint. |
| Signature.DocstringText | codegen.go:156-161 | Starts with `name(`. It contains a newline whenever the Go doc is non-empty. |
| Signature.ModuleDoc | codegen.go:148-162 | Quotes the docstring with `CCodeString` as written. It is fatal iff the return hint is. Otherwise it succeeds iff the text has no `")` (multi-line) or no `"` (one line), and the only error is "String contains quote". A result reads back as the docstring when the text holds no `)"`. |
| Signature.ModuleDocSafe | codegen.go:148-162 | The corrected quoting: the same outcome on the return hint, and every result reads back as the docstring when the function has Go documentation. |
| Signature.ModuleDocAgrees | codegen.go:156-161 | The two quotings agree on every docstring that holds neither `")` nor `)"`. |
| Signature.ModuleDocRefusesCall | codegen.go:132-137 | The doc `g("")` is refused as written, although a raw literal would carry it. The corrected quoting accepts it. |
| Signature.ModuleDocMisquotesReturn | codegen.go:132-138 | The doc `"(a)"` is quoted as written into a raw literal that does not read back. The corrected quoting refuses it. |
| Signature.MethodDefEntryFields | codegen.go:125-129 | The entry starts with the quoted Python name and ends with the docstring. |
| Signature.DeriveColumns | codegen.go:70-86 | The loop of `init`. It succeeds iff every argument is supported. The six columns then have `len(Args)` entries, and entry i is derived from `Args[i]` alone. Otherwise the first unsupported argument decides the fatal message. |
| Signature.DerivedArguments | codegen.go:70-86 | Columns derived from the arguments imply every argument is supported. |
| Signature.FunctionSignature.constructor | codegen.go:409-416 | Records the inputs with empty derived fields, and not yet initialised. |
| Signature.FunctionSignature.SetNames | codegen.go:53-68 | Sets `CFunctionName` and, for a method, `CRecv` and `CGoRecv = "*C." + CRecv`. A free function leaves both unchanged. |
| Signature.FunctionSignature.Init | codegen.go:46-89 | Memoised: a second call returns at once and changes nothing. It succeeds iff every argument is supported, and sets `initDone` exactly then. Failure is fatal with the first argument's message. |
| Signature.FunctionSignature.Derive | codegen.go:53-88 | The first call: it succeeds iff every argument is supported, and then leaves the signature initialised with every derived field in place. Otherwise it fails with the first unsupported argument's message and leaves the signature uninitialised. |
| Signature.FunctionSignature.PyArgFormat | codegen.go:99-105 | Equals the per-argument codes concatenated in order. |
| Signature.FunctionSignature.PyModuleDefDoc | codegen.go:148-162 | Runs `init`, then returns `ModuleDoc`: the docstring quoted by `CCodeString` as written. If `init` fails, it returns the fatal message of `init`. |
| Signature.FunctionSignature.PyModuleDef | codegen.go:107-130 | Runs `init` and builds the entry around `ModuleDoc`. It uses `METH_NOARGS` iff there are no arguments and no receiver. A docstring that `CCodeString` refuses is fatal. |
| Signature.FunctionSignature.HasArgs | codegen.go:91-93 | True exactly when the function has parameters. |
| Signature.FunctionSignature.HasRecv | codegen.go:95-97 | True exactly when the function has a receiver. |
| Exports.NumFields | codegen.go:331 | Counts names, at least one per field, and is zero iff there are no fields. |
| Exports.Returns | codegen.go:331-396 | The return rules. A lone `*C.PyObject` gives CPyObjectPointer and no results give None. One or two results take the first type. Two are accepted only when the second is the identifier `error`, which sets `alsoError`. Three or more are fatal with "Invalid return signature for function <name>". A second result that is not `error` is fatal with "Return type '<field>' not supported!", where <field> is the whole field's text. A single field that declares two results, as in `(a, b int)`, panics indexing past the list. |
| Exports.NamedSecondResultExample | codegen.go:381-389 | `(n int, msg string)` is fatal with "Return type 'msg string' not supported!". |
| Exports.IntErrorReturnExample | codegen.go:363-380 | `(int, error)` gives Int with `alsoError`. |
| Exports.IsErrorType | codegen.go:181-190 | True exactly when the field's type is the identifier `error`. |
| Exports.IsErrorTypeIff | codegen.go:181-190 | The syntactic test agrees with the resolver: a field is an error type iff its type resolves to kind Error. |
| Exports.Skipped | codegen.go:333-338 | Without export-all, a function is skipped unless its doc carries the marker or it returns one `*C.PyObject`. |
| Exports.ParamType | codegen.go:341-349 | A parameter's type as the resolver gives it. An error value of the resolver becomes fatal with "Argument type '<src>' not supported!". |
| Exports.ReceiverOk | codegen.go:398-407 | A free function, or a method whose receiver is a pointer. |
| Exports.ParamTypeResolves | codegen.go:341-348 | A parameter type resolves as `AsGoType` does. An error value becomes fatal with "Argument type '<src>' not supported!", and a fatal resolution passes through. |
| Exports.FieldArgsAt | codegen.go:351-357 | Each name of a field becomes its own argument with the field's type, in order. |
| Exports.ParamArgs | codegen.go:340-358 | Succeeds iff every field type resolves. All its arguments are well shaped. |
| Exports.ParamArgsFailsFirst | codegen.go:340-348 | The first unresolvable field decides the fatal message. |
| Exports.ParamArgsOk | codegen.go:340-358 | On success the arguments are the fields' names, expanded in order with their types. |
| Exports.ExpandParams | codegen.go:340-358 | The nested append loop computes `ParamArgs`. |
| Exports.ParamStep | codegen.go:340-358 | One more resolved field: its type is appended to the types so far, and its names expand after the arguments so far. |
| Exports.ParamFailsAt | codegen.go:340-358 | When the types before field i resolve and field i is refused, the whole parameter list fails with field i's message. |
| Exports.TwoIntParamsExample | codegen.go:340-358 | `a, b int` gives two Int arguments, `a` then `b`. |
| Exports.TwoIntsFormat | codegen.go:99-105 | Those two arguments format as `"ii"`. |
| Exports.ProcessFunc | codegen.go:328-417 | Returns nil exactly when the function is skipped: no `ExportAll`, no marker, and no lone `*C.PyObject` return. Otherwise it succeeds iff parameters, returns and receiver are all accepted. Parameter, return and receiver failures come in that order, with their messages. A result is a fresh signature built from the declaration and not yet initialised. |
| Exports.Exported | codegen.go:516-523 | Keeps the top-level, non-skipped declarations, in order. |
| Exports.ExportedIndex | codegen.go:516-523 | Every top-level, non-skipped declaration is kept. |
| Exports.ProcessFuncs | codegen.go:510-523 | Succeeds iff every exported function is accepted, and the signatures describe them one for one, in order. |
| Exports.RejectedDecl | codegen.go:510-523 | One rejected function fails the whole list. |
| Exports.AcceptedAppend | codegen.go:510-523 | The exported declarations of two lists in sequence are accepted iff those of each list are. |
| Exports.DeclExported | codegen.go:510-517 | A declaration joins the exported list iff it has level 0 and ProcessFunc does not skip it. Its one-element list is accepted iff it is not exported or it is accepted. |
| Exports.KeepSignature | codegen.go:514-522 | For one declaration: fails iff ProcessFunc refuses it. A skipped declaration contributes no signature; any other contributes exactly one fresh, uninitialised signature that describes it. |
| Exports.InitAll | codegen.go:238-240 | Initialises every signature. Succeeds iff all their arguments are supported. |
| Exports.InitAt | codegen.go:238-240 | One `fs.init()`: succeeds iff that signature's arguments are supported, leaves it initialised when it succeeds, keeps every signature valid, and never undoes an earlier init. |
| Exports.TypeSignature.Init | codegen.go:427-434 | Initialises the methods and then the functions of a type. Succeeds iff all their arguments are supported. |
| Exports.ProcessType | codegen.go:436-472 | Succeeds iff every exported method and constructor is accepted. Returns nil iff neither list has an export. Otherwise the type's signature has `PyTypeObjectName == "PyTo_" + name` and describes both lists. |
| Exports.RequiresRuntimeCgoIff | codegen.go:242-246 | The fold is true iff some type has a method or a constructor. |
| Exports.RuntimeCgoWhenTypes | codegen.go:242-246 | For types that `ProcessType` returns, the fold is true iff there is at least one type. (See also lines 459-461.) |
| Exports.InitTypes | codegen.go:242-246 | Initialises every type's members. Succeeds iff all are supported, and then returns the fold. |
| Exports.InitTypeAt | codegen.go:242-246 | One `ts.init()`: succeeds iff all the type's members have supported arguments. Every signature stays valid, and on success the members of all types up to this one are initialised. |
| Exports.GeneratePyExportsCode | codegen.go:224-251 | An error value, "No function signature exported", iff there are no functions. Otherwise it succeeds iff every function and type member initialises. Its data holds the joined tags, the package and file names, the signatures, and `runtime/cgo` exactly when the fold is true. |
| Exports.ProcessTypes | codegen.go:525-537 | Succeeds iff every exported member of every type is accepted. Keeps one signature per type with exports, in order. |
| Exports.ProcessFile | codegen.go:516-538 | One file's functions and types, as `ProcessFuncs` and `ProcessTypes` give them. |
| Exports.FirstPackage | codegen.go:502-504 | Empty iff every file has an empty package name. |
| Exports.FirstPackageIsFirst | codegen.go:502-504 | It is the name of the first file whose package name is not empty. |
| Exports.SamePackageFirst | codegen.go:502-508 | Under the check, every non-empty package name equals the first one. |
| Exports.SamePackageStep | codegen.go:502-508 | One turn of the check passes iff no name is fixed yet or the file has that name. |
| Exports.ProcessablePrefix | codegen.go:480-538 | The conditions for a successful run also hold for every prefix of the file list. |
| Exports.FilesAccepted | codegen.go:511-538 | The files accepted so far plus one more are accepted iff that file is. |
| Exports.ReadyLink | codegen.go:238-240 | Accepted signatures initialise iff every parameter of their declarations is an argument type. (See also lines 70-86.) |
| Exports.ProcessFileAt | codegen.go:502-538 | One turn of the loop: the package check, then the file's functions and types. It succeeds iff the files so far can all be processed. The collected state describes them. |
| Exports.CollectFiles | codegen.go:479-538 | The file loop. It succeeds iff the files share one package and every exported function and member is accepted. The result then describes all of them, and its package is the first non-empty name. |
| Exports.GatheredNone | codegen.go:225-227 | No signatures were collected iff the files export no function. |
| Exports.GatheredRuntime | codegen.go:242-251 | `runtime/cgo` is needed iff some file exports a type. |
| Exports.DoPyExports | codegen.go:478-541 | The whole run. It fails with "No function signature exported" iff the files are consistent but export no function. It succeeds iff they are consistent, export a function, and all parameters are supported. The result then describes every file, with `runtime/cgo` imported iff some type is exported. |
| Exports.GenerateFor | codegen.go:224-268 | The final call on what the walk gathered. It fails with "No function signature exported" iff no file exports a function, and succeeds iff every exported declaration is ready. The template data then holds the joined tags, the gathered signatures, all initialised, and `runtime/cgo` iff some type is exported. (Called at line 540.) |
| NumpyArray.ProductSign | numpy/array.go:220-224 | The item count of a shape with no negative extent is non-negative. It is positive iff every extent is, so a 0 in the shape means no items and the empty shape has one. |
| NumpyArray.CountItems | numpy/array.go:203-206 | The product loop returns `Product(shape)`. (See also lines 220-224.) |
| NumpyArray.CoordsInBounds | numpy/array.go:234-241 | Every tuple of the walk is within the shape. |
| NumpyArray.IndexOfCoords | numpy/array.go:234-241 | The n-th tuple is n written in mixed radix, last coordinate least significant. |
| NumpyArray.CoordsOfIndex | numpy/array.go:234-241 | Every in-bounds tuple is the tuple of its own row-major index. |
| NumpyArray.CoordsOfZero | numpy/array.go:226 | The walk starts at all zeros. |
| NumpyArray.NextIsSuccessor | numpy/array.go:234-241 | One carry step turns tuple n into tuple n + 1. |
| NumpyArray.NextWraps | numpy/array.go:234-241 | After the last tuple, the carry step wraps to all zeros. |
| NumpyArray.CoordsIncreasing | numpy/array.go:234-241 | Tuples come in strictly increasing lexicographic order. |
| NumpyArray.IndexedValues.constructor | numpy/array.go:219-226 | Starts with `remaining = Product(shape)` and all-zero coordinates. |
| NumpyArray.IndexedValues.Advance | numpy/array.go:234-241 | The in-place carry loop leaves `coords` equal to `Next` of the old coordinates. |
| NumpyArray.IndexedValues.Iterate | numpy/array.go:228-244 | Yields while items remain and stops at the first `false` from the consumer. The n-th yielded tuple is `Coords(shape, produced + n)`. The state advances except after the refusing yield. |
| NumpyArray.YieldCountAll | numpy/array.go:228-232 | A consumer that never refuses sees every remaining item. |
| NumpyArray.IterateAll | numpy/array.go:219-245 | A consumer that never refuses sees `Product(shape)` tuples. They are all in bounds and strictly increasing, and every in-bounds tuple appears. |
| NumpyArray.AllCoordsEnumerated | numpy/array.go:219-245 | The tuples at positions 0 to Product(shape) - 1 are in bounds and strictly increasing, and every in-bounds tuple is one of them. |
| NumpyArray.Values | numpy/array.go:203-216 | Visits offsets `n * itemsize` for n = 0, 1, ..., up to `Product(shape)` items, and stops at the first refusal. |
| NumpyArray.CInt | numpy/array.go:167-173 | The `C.int` conversion: 32-bit two's complement, the identity on values that fit. |
| NumpyArray.GetPtrAsWritten | numpy/array.go:160-177 | As written. A length mismatch panics with "invalid indexing". The 4-D branch panics reading `idxs[4]`, and a 0-D array panics taking `&idxs[0]`. |
| NumpyArray.GetPtr | numpy/array.go:160-177 | Corrected. It succeeds iff the index list has `dims` entries and passes them on: through `C.int` for 1 to 4 dimensions, unchanged otherwise. |
| NumpyArray.GetPtrExact | numpy/array.go:165-175 | Indices that fit in a C int reach the C accessor unchanged. |
| NumpyArray.GetPtrAsWrittenDiffers | numpy/array.go:165-175 | The two versions agree except at 0 and 4 dimensions, where the code as written panics on a correct index list. |
| NumpyArray.IndexedValuesPanicsAsWritten | numpy/array.go:172-175 | Walking a 0-D or 4-D array panics at the first item as written. The corrected accessor accepts it. (See also lines 228-229.) |
| NumpyArray.IndexedValuesAddressable | numpy/array.go:228-229 | Every tuple of the walk is accepted by the corrected accessor unchanged, when the extents fit in a C int. (See also lines 160-177.) |
| NumpyTypeString.TablesConsistent | numpy/numpytype_string.go:37-39 | The offsets climb strictly from 0 to 242, the length of the name string, and each fits in a `uint8`. |
| NumpyTypeString.FormatInt | numpy/numpytype_string.go:43 | `strconv.FormatInt(x, 10)`: an optional `-`, present iff x is negative, then decimal digits. |
| NumpyTypeString.FormatIntRoundTrip | numpy/numpytype_string.go:43 | Reading the decimal back gives x. |
| NumpyTypeString.String | numpy/numpytype_string.go:41-46 | Values 0 to 23 give the constant's identifier. Every other value gives `"NumpyType(" + FormatInt(i) + ")"`. |
| NumpyTypeString.IdentifierSlices | numpy/numpytype_string.go:37-39 | The slice between offsets i and i + 1 of the name string is the i-th identifier. (See also line 45.) |
| NumpyTypeString.IdentifiersDistinct | numpy/numpytype_string.go:11-34 | No two of the 24 identifiers are equal. (See also line 37.) |
| NumpyTypeString.NamedNotNumbered | numpy/numpytype_string.go:41-46 | A constant's name never equals the fallback form. |
| NumpyTypeString.NumberedInjective | numpy/numpytype_string.go:42-44 | Two values outside the table have different fallback forms. |
| NumpyTypeString.StringInjective | numpy/numpytype_string.go:41-46 | Two values print the same iff they are equal. |
| NumpyTypeString.StringExamples | numpy/numpytype_string.go:7-46 | Examples: `NPY_BOOL`, `NPY_DOUBLE`, `NPY_HALF`, `NumpyType(24)` and `NumpyType(-1)`. |

## Left out

- Go parsing (`parser.ParseFile`, `doc.NewFromFiles`, `ioutil.ReadFile`) and `GetSourceString`. Each file becomes a `PackageDoc` record, and each expression carries its own source text.
- Template rendering and file writing (`SafeWriteTemplate`, the `ExecuteTemplate` calls, `cleanupFiles`). `GeneratePyExportsCode` stops at the data it would hand to the templates.
- Logging. `log.Fatal` and `panic` become a `Fatal` result carrying the message. The structured fields the logger adds (`Caller`, `Str("function", …)`, `Err`) are left out, except that `PyModuleDef` appends the error text to its message.
- `ToSnakeCase` and `RemoveEmptyLines` are not part of this model. `ToSnakeCase` is an arbitrary function in `Config`.
- The command line, the build orchestration and the tests (main.go, buildcmd.go, codegencmd.go, the test files). The test files appear only as examples.
- The cgo side of numpy/array.go:
  - the C preamble, `AsArray`, `Dims` and `Bytes`;
  - `toValue`, `At` and `SetAt`, which read and write raw memory;
  - `Shape`'s four-entry `unsafe.Slice`, apart from its limit of four dimensions (see `IndexedValues.Iterate` and `Values` below);
  - the pointer arithmetic behind the `PyArray_GETPTR` macros.
  - `GetPtr` returns the index list the C accessor would receive instead of a pointer.
- NumpyArray.CountItems: the product is an unbounded integer. Go's `int` would wrap on a product above 2^63 - 1.
- NumpyArray.IndexedValues.Iterate: the consumer is a function of the item's position, and the trace holds copies of the coordinates. Go yields the same `coords` slice every time, so a consumer that keeps it sees it change. The `At(coords...)` value is left out with `toValue`. `Shape` reads its four-entry `unsafe.Slice` at every index below the dimension count (numpy/array.go:123-126), so in Go `IndexedValues` panics on an array of five or more dimensions. The model walks any shape.
- NumpyArray.Values: returns the byte offsets it would read. The value read at each offset is left out with `toValue`. Like `IndexedValues`, Go's `Values` panics on five or more dimensions through `Shape`; the model does not.
- Types.UnsupportedMsg: for a descriptor with no source text, Go prints the descriptor with `%+v`, that is its field values and the addresses of its nested descriptors. The model prints the fixed text "Type without source text not supported" instead, because it has no addresses. This is reachable, for example through a `[]*C.PyObject` parameter.
- Types.AsGoType: for an unsupported expression the contract only says that the error message contains the expression's source text. The body spells out the whole message, with the Go type name (`%T`) replaced by the name of the expression's node kind.
- `go/doc`'s own filtering is left to the parser, which is not modelled. Declarations arrive already sorted into `pkg.Funcs` and `pkg.Types`, with their `Level`.

## Findings

| source | as written | input that shows it | evidently intended | confidence | as-written member | corrected member |
|---|---|---|---|---|---|---|
| codegen.go:133-138 | Multi-line text is rejected when it contains `")`, but a C++ raw string `R"(...)"` ends at `)"`. | `"f()\n)\""`: it is accepted, and the emitted raw literal ends early. | Reject multi-line text that contains `)"`. | high; not executed | Quoting.CCodeStringMisquotes | Quoting.CCodeStringSafe |
| type.go:198-201 | Int32 is parsed with `l` and Uint32 with `k`: a C long, 8 bytes on 64-bit Linux and macOS. It is stored through the `int32_t *` and `uint32_t *` that `CPtrType` declares (type.go:260-265). | Any exported function with an `int32` or `uint32` parameter, such as `func F(x int32)`: parsing it writes 8 bytes into a 4-byte variable. | Use `i` (C int) for Int32 and `I` (C unsigned int) for Uint32. | medium; not executed | Types.ParseCodeWidthMismatch | Types.PyArgFormatLP64 |
| numpy/array.go:173 | The 4-D branch passes `idxs[4]` as the last index. | Any index list of length 4, e.g. `[0, 0, 0, 0]` on a 4-D array: index out of range. | Pass `idxs[3]`. | high; not executed | NumpyArray.GetPtrAsWrittenDiffers | NumpyArray.GetPtrExact |
| numpy/array.go:175 | A 0-D array takes `&idxs[0]` of its empty index list. | `IndexedValues` on a 0-D array: its first item is the empty tuple. | Accept the empty tuple of a 0-D array. | medium; not executed | NumpyArray.IndexedValuesPanicsAsWritten | NumpyArray.GetPtr |

The numpy walk uses the corrected `GetPtr`. The signature model keeps `CCodeString` and `PyArgFormat` as written, so the entries and format strings it describes are the ones the generator emits. Their corrected versions, `CCodeStringSafe` with `ModuleDocSafe` and `PyArgFormatLP64`, are stated and proved beside them.
