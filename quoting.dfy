/** Embedding a Python docstring in the generated C source as a string
    literal: CCodeString (codegen.go:132-146), a model of how a C compiler
    reads such a literal back, and a corrected quoting function. */
module Quoting {
  import opened Outcomes
  import opened GoStrings

  /** `"text"`: an ordinary C string literal */
  function QuotedLiteral(v: string): string {
    "\"" + v + "\""
  }

  /** `R"(text)"`: a raw string literal with an empty delimiter, which ends
      at the first `)"` */
  function RawLiteral(v: string): string {
    "R\"(" + v + ")\""
  }

  /** CCodeString as written: multi-line text becomes a raw literal unless it
      contains `")`, single-line text an ordinary literal unless it contains
      `"`. The rejected inputs come back as an `error` value. */
  function CCodeString(v: string): (r: Result<string>)
    ensures !r.Fatal?
    ensures r.Ok? <==> if '\n' in v then !ContainsPair(v, '"', ')') else '"' !in v
    ensures r.Ok? ==> r.value == if '\n' in v then RawLiteral(v) else QuotedLiteral(v)
  {
    if '\n' in v then
      if ContainsPair(v, '"', ')') then Err("String contains quote") else Ok(RawLiteral(v))
    else if '"' in v then Err("String contains quote")
    else Ok(QuotedLiteral(v))
  }

  /** The index of the first `)"` in `s` at or after `i`, or |s| if none. */
  function RawEnd(s: string, i: nat): (j: nat)
    requires i <= |s|
    ensures i <= j <= |s|
    ensures j < |s| ==> j + 1 < |s| && s[j] == ')' && s[j + 1] == '"'
    ensures forall k :: i <= k < j && k + 1 < |s| ==> !(s[k] == ')' && s[k + 1] == '"')
    decreases |s| - i
  {
    if i + 1 >= |s| then |s|
    else if s[i] == ')' && s[i + 1] == '"' then i
    else RawEnd(s, i + 1)
  }

  /** The text a C compiler reads out of `lit` when `lit` is meant to be one
      whole string-literal token: a raw literal stops at its first `)"`, an
      ordinary one at its first `"`. The literal is read back intact only if
      that terminator is the last thing in `lit`. Escape sequences of
      ordinary literals are not modelled: a backslash in one is refused. */
  function ReadCLiteral(lit: string): Result<string> {
    if HasPrefix(lit, "R\"(") then
      var j := RawEnd(lit, 3);
      if j + 2 == |lit| then Ok(lit[3..j]) else Err("literal ends before the end of the text")
    else if |lit| >= 2 && lit[0] == '"' then
      var j := 1 + IndexOf(lit[1..], '"');
      if j == |lit| - 1 && '\\' !in lit[1..j] then Ok(lit[1..j])
      else Err("literal ends before the end of the text")
    else Err("not a string literal")
  }

  /** A raw literal reads back as its text exactly when the text holds no
      `)"`: this is the condition a quoting function has to check. */
  lemma RawLiteralReadsBack(v: string)
    ensures ReadCLiteral(RawLiteral(v)) == Ok(v) <==> !ContainsPair(v, ')', '"')
  {
    var lit := RawLiteral(v);
    assert HasPrefix(lit, "R\"(");
    var j := RawEnd(lit, 3);
    assert lit[3 + |v|] == ')' && lit[3 + |v| + 1] == '"';
    if ContainsPair(v, ')', '"') {
      var i :| 0 <= i < |v| - 1 && v[i] == ')' && v[i + 1] == '"';
      assert lit[3 + i] == ')' && lit[3 + i + 1] == '"';
      assert j <= 3 + i;
    } else {
      forall k | 3 <= k < 3 + |v|
        ensures !(lit[k] == ')' && lit[k + 1] == '"')
      {
        if k + 1 < 3 + |v| {
          assert lit[k] == v[k - 3] && lit[k + 1] == v[k - 2];
        } else {
          assert lit[k + 1] == ')';
        }
      }
      assert j == 3 + |v|;
      assert lit[3..j] == v;
    }
  }

  /** An ordinary literal reads back as its text when the text holds no `"`
      and no backslash. */
  lemma QuotedLiteralReadsBack(v: string)
    requires '"' !in v && '\\' !in v
    ensures ReadCLiteral(QuotedLiteral(v)) == Ok(v)
  {
    var lit := QuotedLiteral(v);
    assert !HasPrefix(lit, "R\"(") by {
      assert lit[0] == '"';
    }
    var rest := lit[1..];
    assert rest == v + "\"";
    var i := IndexOf(rest, '"');
    assert rest[|v|] == '"';
    assert i == |v|;
    assert lit[1..1 + |v|] == v;
  }

  /** The guard of CCodeString looks for `")`, but a raw literal ends at `)"`:
      multi-line text containing `)"` and no `")` is accepted and produces a
      literal that the C compiler closes early. */
  lemma CCodeStringMisquotes(v: string)
    requires '\n' in v && ContainsPair(v, ')', '"') && !ContainsPair(v, '"', ')')
    ensures CCodeString(v).Ok?
    ensures ReadCLiteral(CCodeString(v).value) != Ok(v)
  {
    RawLiteralReadsBack(v);
  }

  /** One such input: the doc line `)"` below a signature line. */
  lemma CCodeStringMisquotesExample()
    ensures CCodeString("f()\n)\"") == Ok(RawLiteral("f()\n)\""))
    ensures ReadCLiteral(RawLiteral("f()\n)\"")) != Ok("f()\n)\"")
  {
    var v := "f()\n)\"";
    assert v[3] == '\n';
    assert v[4] == ')' && v[5] == '"';
    forall i | 0 <= i < |v| - 1
      ensures !(v[i] == '"' && v[i + 1] == ')')
    {
    }
    CCodeStringMisquotes(v);
  }

  /** CCodeString with the guard it evidently means: a raw literal is refused
      when the text contains the terminator `)"`. Everything it accepts reads
      back as the original text. */
  function CCodeStringSafe(v: string): (r: Result<string>)
    ensures !r.Fatal?
    ensures r.Ok? <==> if '\n' in v then !ContainsPair(v, ')', '"') else '"' !in v
    ensures r.Ok? && ('\n' in v || '\\' !in v) ==> ReadCLiteral(r.value) == Ok(v)
  {
    if '\n' in v then
      if ContainsPair(v, ')', '"') then Err("String contains quote")
      else
        RawLiteralReadsBack(v);
        Ok(RawLiteral(v))
    else if '"' in v then Err("String contains quote")
    else
      assert '\\' !in v ==> ReadCLiteral(QuotedLiteral(v)) == Ok(v) by {
        if '\\' !in v { QuotedLiteralReadsBack(v); }
      }
      Ok(QuotedLiteral(v))
  }

  /** For multi-line text the corrected guard is exact: it refuses precisely
      the texts a raw literal cannot carry. */
  lemma CCodeStringSafeExact(v: string)
    requires '\n' in v
    ensures CCodeStringSafe(v).Ok? <==> ReadCLiteral(RawLiteral(v)) == Ok(v)
  {
    RawLiteralReadsBack(v);
  }
}
