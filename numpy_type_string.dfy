/** NumpyType.String, the stringer generated for the numpy element types
    (numpy/numpytype_string.go): the names of the 24 constants are slices
    of one string, cut at the offsets of an index table, and any other
    value prints as "NumpyType(<decimal>)". */
module NumpyTypeString {

  /** Go's `int` (64-bit), the underlying type of NumpyType (numpy/array.go:56). */
  newtype NumpyType = i: int | -0x8000_0000_0000_0000 <= i < 0x8000_0000_0000_0000

  /** The constants of enum NPY_TYPES (numpy/array.go:58-83); their values
      come from the C header, and numpy/numpytype_string.go:11-34 pins them
      to 0 .. 23 in declaration order. */
  const NPY_BOOL: NumpyType := 0
  const NPY_BYTE: NumpyType := 1
  const NPY_UBYTE: NumpyType := 2
  const NPY_SHORT: NumpyType := 3
  const NPY_USHORT: NumpyType := 4
  const NPY_INT: NumpyType := 5
  const NPY_UINT: NumpyType := 6
  const NPY_LONG: NumpyType := 7
  const NPY_ULONG: NumpyType := 8
  const NPY_LONGLONG: NumpyType := 9
  const NPY_ULONGLONG: NumpyType := 10
  const NPY_FLOAT: NumpyType := 11
  const NPY_DOUBLE: NumpyType := 12
  const NPY_LONGDOUBLE: NumpyType := 13
  const NPY_CFLOAT: NumpyType := 14
  const NPY_CDOUBLE: NumpyType := 15
  const NPY_CLONGDOUBLE: NumpyType := 16
  const NPY_OBJECT: NumpyType := 17
  const NPY_STRING: NumpyType := 18
  const NPY_UNICODE: NumpyType := 19
  const NPY_VOID: NumpyType := 20
  const NPY_DATETIME: NumpyType := 21
  const NPY_TIMEDELTA: NumpyType := 22
  const NPY_HALF: NumpyType := 23

  /** The identifiers of the constants, one per value: the reference the
      name and index tables are checked against. */
  const Identifiers: seq<string> := [
    "NPY_BOOL", "NPY_BYTE", "NPY_UBYTE", "NPY_SHORT", "NPY_USHORT", "NPY_INT",
    "NPY_UINT", "NPY_LONG", "NPY_ULONG", "NPY_LONGLONG", "NPY_ULONGLONG", "NPY_FLOAT",
    "NPY_DOUBLE", "NPY_LONGDOUBLE", "NPY_CFLOAT", "NPY_CDOUBLE", "NPY_CLONGDOUBLE", "NPY_OBJECT",
    "NPY_STRING", "NPY_UNICODE", "NPY_VOID", "NPY_DATETIME", "NPY_TIMEDELTA", "NPY_HALF"]

  /** _NumpyType_name (numpy/numpytype_string.go:37): the same 242
      characters, written as the 24 pieces they are made of; the grouping
      only shortens the proofs about its slices. */
  const Name: string :=
    (((("NPY_BOOL" + "NPY_BYTE") + ("NPY_UBYTE" + "NPY_SHORT")) +
      (("NPY_USHORT" + "NPY_INT") + ("NPY_UINT" + "NPY_LONG"))) +
     ((("NPY_ULONG" + "NPY_LONGLONG") + ("NPY_ULONGLONG" + "NPY_FLOAT")) +
      (("NPY_DOUBLE" + "NPY_LONGDOUBLE") + ("NPY_CFLOAT" + "NPY_CDOUBLE")))) +
    ((("NPY_CLONGDOUBLE" + "NPY_OBJECT") + ("NPY_STRING" + "NPY_UNICODE")) +
     (("NPY_VOID" + "NPY_DATETIME") + ("NPY_TIMEDELTA" + "NPY_HALF")))

  /** _NumpyType_index (numpy/numpytype_string.go:39); its entries are uint8. */
  const Index: seq<int> :=
    [0, 8, 16, 25, 34, 44, 51, 59, 67, 76, 88, 101, 110, 120, 134, 144, 155, 170, 180, 190, 201, 209, 221, 234, 242]

  /** The tables fit together: the offsets climb strictly from 0 to the end
      of the name string, each fits in a uint8, and so every slice String
      takes is in bounds and non-empty. */
  lemma TablesConsistent()
    ensures |Index| == 25 && |Identifiers| == 24
    ensures Index[0] == 0 && Index[24] == |Name| == 242
    ensures forall k :: 0 <= k < 24 ==> Index[k] < Index[k + 1]
    ensures forall k :: 0 <= k < 25 ==> 0 <= Index[k] < 256
  {
  }

  /* ----- strconv.FormatInt(x, 10) ----- */

  predicate IsDigit(c: char) {
    '0' <= c <= '9'
  }

  /** An optional minus sign, then decimal digits. */
  predicate IsDecimal(s: string) {
    && |s| > 0
    && (s[0] == '-' || IsDigit(s[0]))
    && forall k :: 1 <= k < |s| ==> IsDigit(s[k])
  }

  function DigitChar(d: int): (c: char)
    requires 0 <= d < 10
    ensures IsDigit(c) && (c - '0') as int == d
  {
    ('0' as int + d) as char
  }

  /** The decimal digits of n, most significant first, with no leading 0. */
  function Digits(n: nat): (s: string)
    ensures |s| > 0
    ensures forall k :: 0 <= k < |s| ==> IsDigit(s[k])
    ensures |s| > 1 ==> s[0] != '0'
  {
    if n < 10 then [DigitChar(n)] else Digits(n / 10) + [DigitChar(n % 10)]
  }

  /** strconv.FormatInt(x, 10): a minus sign for negative values. */
  function FormatInt(x: int): (s: string)
    ensures IsDecimal(s)
    ensures s[0] == '-' <==> x < 0
  {
    if x < 0 then "-" + Digits(-x) else Digits(x)
  }

  /** The value of a string of decimal digits. */
  function DigitsValue(s: string): int
    requires forall k :: 0 <= k < |s| ==> IsDigit(s[k])
  {
    if s == [] then 0 else DigitsValue(s[..|s| - 1]) * 10 + (s[|s| - 1] as int - '0' as int)
  }

  /** Reading a formatted number back. */
  function ParseInt(s: string): int
    requires IsDecimal(s)
  {
    if s[0] == '-' then -DigitsValue(s[1..]) else DigitsValue(s)
  }

  lemma {:induction false} DigitsRoundTrip(n: nat)
    ensures DigitsValue(Digits(n)) == n
  {
    if n >= 10 {
      DigitsRoundTrip(n / 10);
      var s := Digits(n);
      assert s[..|s| - 1] == Digits(n / 10);
    }
  }

  /** FormatInt loses nothing: ParseInt reads the value back. */
  lemma FormatIntRoundTrip(x: int)
    ensures ParseInt(FormatInt(x)) == x
  {
    if x < 0 {
      DigitsRoundTrip(-x);
      assert FormatInt(x)[1..] == Digits(-x);
    } else {
      DigitsRoundTrip(x);
    }
  }

  /* ----- String ----- */

  /** NumpyType.String (numpy/numpytype_string.go:41-46). */
  function String(i: NumpyType): (s: string)
    ensures 0 <= i < 24 ==> s == Identifiers[i]
    ensures (i < 0 || i >= 24) ==> s == "NumpyType(" + FormatInt(i as int) + ")"
  {
    if i < 0 || i as int >= |Index| - 1 then
      "NumpyType(" + FormatInt(i as int) + ")"
    else
      IdentifierSlices(i as int);
      Name[Index[i]..Index[i + 1]]
  }

  /* The proof of IdentifierSlices, two identifiers at a time. */

  lemma Slices0And1(i: int)
    requires 0 <= i < 2
    ensures Name[Index[i]..Index[i + 1]] == Identifiers[i]
  {
    if i == 0 {
      assert Name[0..8] == Identifiers[0];
    } else {
      assert Name[8..16] == Identifiers[1];
    }
  }

  lemma Slices2And3(i: int)
    requires 2 <= i < 4
    ensures Name[Index[i]..Index[i + 1]] == Identifiers[i]
  {
    if i == 2 {
      assert Name[16..25] == Identifiers[2];
    } else {
      assert Name[25..34] == Identifiers[3];
    }
  }

  lemma Slices4And5(i: int)
    requires 4 <= i < 6
    ensures Name[Index[i]..Index[i + 1]] == Identifiers[i]
  {
    if i == 4 {
      assert Name[34..44] == Identifiers[4];
    } else {
      assert Name[44..51] == Identifiers[5];
    }
  }

  lemma Slices6And7(i: int)
    requires 6 <= i < 8
    ensures Name[Index[i]..Index[i + 1]] == Identifiers[i]
  {
    if i == 6 {
      assert Name[51..59] == Identifiers[6];
    } else {
      assert Name[59..67] == Identifiers[7];
    }
  }

  lemma Slices8And9(i: int)
    requires 8 <= i < 10
    ensures Name[Index[i]..Index[i + 1]] == Identifiers[i]
  {
    if i == 8 {
      assert Name[67..76] == Identifiers[8];
    } else {
      assert Name[76..88] == Identifiers[9];
    }
  }

  lemma Slices10And11(i: int)
    requires 10 <= i < 12
    ensures Name[Index[i]..Index[i + 1]] == Identifiers[i]
  {
    if i == 10 {
      assert Name[88..101] == Identifiers[10];
    } else {
      assert Name[101..110] == Identifiers[11];
    }
  }

  lemma Slices12And13(i: int)
    requires 12 <= i < 14
    ensures Name[Index[i]..Index[i + 1]] == Identifiers[i]
  {
    if i == 12 {
      assert Name[110..120] == Identifiers[12];
    } else {
      assert Name[120..134] == Identifiers[13];
    }
  }

  lemma Slices14And15(i: int)
    requires 14 <= i < 16
    ensures Name[Index[i]..Index[i + 1]] == Identifiers[i]
  {
    if i == 14 {
      assert Name[134..144] == Identifiers[14];
    } else {
      assert Name[144..155] == Identifiers[15];
    }
  }

  lemma Slices16And17(i: int)
    requires 16 <= i < 18
    ensures Name[Index[i]..Index[i + 1]] == Identifiers[i]
  {
    if i == 16 {
      assert Name[155..170] == Identifiers[16];
    } else {
      assert Name[170..180] == Identifiers[17];
    }
  }

  lemma Slices18And19(i: int)
    requires 18 <= i < 20
    ensures Name[Index[i]..Index[i + 1]] == Identifiers[i]
  {
    if i == 18 {
      assert Name[180..190] == Identifiers[18];
    } else {
      assert Name[190..201] == Identifiers[19];
    }
  }

  lemma Slices20And21(i: int)
    requires 20 <= i < 22
    ensures Name[Index[i]..Index[i + 1]] == Identifiers[i]
  {
    if i == 20 {
      assert Name[201..209] == Identifiers[20];
    } else {
      assert Name[209..221] == Identifiers[21];
    }
  }

  lemma Slices22And23(i: int)
    requires 22 <= i < 24
    ensures Name[Index[i]..Index[i + 1]] == Identifiers[i]
  {
    if i == 22 {
      assert Name[221..234] == Identifiers[22];
    } else {
      assert Name[234..242] == Identifiers[23];
    }
  }

  /** Each identifier is the slice of the name string between consecutive
      offsets. */
  lemma IdentifierSlices(i: int)
    requires 0 <= i < 24
    ensures 0 <= Index[i] <= Index[i + 1] <= |Name|
    ensures Name[Index[i]..Index[i + 1]] == Identifiers[i]
  {
    if i < 2 {
      Slices0And1(i);
    } else if i < 4 {
      Slices2And3(i);
    } else if i < 6 {
      Slices4And5(i);
    } else if i < 8 {
      Slices6And7(i);
    } else if i < 10 {
      Slices8And9(i);
    } else if i < 12 {
      Slices10And11(i);
    } else if i < 14 {
      Slices12And13(i);
    } else if i < 16 {
      Slices14And15(i);
    } else if i < 18 {
      Slices16And17(i);
    } else if i < 20 {
      Slices18And19(i);
    } else if i < 22 {
      Slices20And21(i);
    } else {
      Slices22And23(i);
    }
  }

  /** The identifiers all start with "NPY_". */
  lemma IdentifiersPrefixed()
    ensures forall k :: 0 <= k < 24 ==> |Identifiers[k]| > 4 && Identifiers[k][..4] == "NPY_"
  {
  }

  /* The proof of IdentifiersDistinct, six identifiers at a time. */

  lemma Distinct0To5(i: int, j: int)
    requires 0 <= i < 6 && 0 <= j < 24 && Identifiers[i] == Identifiers[j]
    ensures i == j
  {
  }

  lemma Distinct6To11(i: int, j: int)
    requires 6 <= i < 12 && 0 <= j < 24 && Identifiers[i] == Identifiers[j]
    ensures i == j
  {
  }

  lemma Distinct12To17(i: int, j: int)
    requires 12 <= i < 18 && 0 <= j < 24 && Identifiers[i] == Identifiers[j]
    ensures i == j
  {
  }

  lemma Distinct18To23(i: int, j: int)
    requires 18 <= i < 24 && 0 <= j < 24 && Identifiers[i] == Identifiers[j]
    ensures i == j
  {
  }

  /** No two constants have the same identifier. */
  lemma IdentifiersDistinct(i: int, j: int)
    requires 0 <= i < 24 && 0 <= j < 24
    ensures Identifiers[i] == Identifiers[j] <==> i == j
  {
    if Identifiers[i] == Identifiers[j] {
      if i < 6 {
        Distinct0To5(i, j);
      } else if i < 12 {
        Distinct6To11(i, j);
      } else if i < 18 {
        Distinct12To17(i, j);
      } else {
        Distinct18To23(i, j);
      }
    }
  }

  /** A constant's name never looks like the fallback form. */
  lemma NamedNotNumbered(i: NumpyType, j: NumpyType)
    requires 0 <= i < 24 && !(0 <= j < 24)
    ensures String(i) != String(j)
  {
    var named, numbered := String(i), String(j);
    IdentifiersPrefixed();
    assert named[..4] == "NPY_";
    assert named[1] == named[..4][1] == 'P';
    assert numbered == "NumpyType(" + FormatInt(j as int) + ")";
    assert numbered[1] == 'u';
  }

  /** Two values outside the constants print differently. */
  lemma NumberedInjective(i: NumpyType, j: NumpyType)
    requires !(0 <= i < 24) && !(0 <= j < 24) && String(i) == String(j)
    ensures i == j
  {
    var s := String(i);
    assert FormatInt(i as int) == s[10..|s| - 1] == FormatInt(j as int);
    FormatIntRoundTrip(i as int);
    FormatIntRoundTrip(j as int);
  }

  /** Different values print differently: the names of the constants are
      distinct and start with "NPY_", and every other value prints its
      decimal inside "NumpyType(...)". */
  lemma StringInjective(i: NumpyType, j: NumpyType)
    ensures String(i) == String(j) <==> i == j
  {
    var inI, inJ := 0 <= i < 24, 0 <= j < 24;
    if inI && inJ {
      IdentifiersDistinct(i as int, j as int);
    } else if inI {
      NamedNotNumbered(i, j);
    } else if inJ {
      NamedNotNumbered(j, i);
    } else if String(i) == String(j) {
      NumberedInjective(i, j);
    }
  }

  /** Examples the identifier table gives. */
  lemma StringExamples()
    ensures String(NPY_BOOL) == "NPY_BOOL"
    ensures String(NPY_DOUBLE) == "NPY_DOUBLE"
    ensures String(NPY_HALF) == "NPY_HALF"
    ensures String(24) == "NumpyType(24)"
    ensures String(-1) == "NumpyType(-1)"
  {
    assert FormatInt(24) == "24";
    assert FormatInt(-1) == "-1";
  }
}
