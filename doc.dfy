/** Doc comments of exported functions: ProcessDoc (codegen.go:308-326)
    finds the export marker and keeps the remaining lines as the
    docstring. */
module DocComments {
  import opened GoStrings

  /** The comment line that asks for a function to be exported. */
  predicate IsMarker(line: string) {
    HasPrefix(line, "go:pyexport")
  }

  /** The lines the scanner produces from a doc comment. */
  function DocLines(doc: string): seq<string> {
    ScanLines(TrimSpace(doc))
  }

  /** The lines that are not export markers, in their original order. */
  function Unmarked(lines: seq<string>): (r: seq<string>)
    ensures |r| <= |lines|
  {
    if lines == [] then []
    else
      var front := Unmarked(lines[..|lines| - 1]);
      var last := lines[|lines| - 1];
      if IsMarker(last) then front else front + [last]
  }

  /** Some line is a marker. */
  predicate AnyMarker(lines: seq<string>) {
    lines != [] && (AnyMarker(lines[..|lines| - 1]) || IsMarker(lines[|lines| - 1]))
  }

  lemma {:induction false} AnyMarkerIff(lines: seq<string>)
    ensures AnyMarker(lines) <==> exists k :: 0 <= k < |lines| && IsMarker(lines[k])
    decreases |lines|
  {
    if lines != [] {
      var front := lines[..|lines| - 1];
      AnyMarkerIff(front);
      assert forall k :: 0 <= k < |front| ==> front[k] == lines[k];
    }
  }

  /** Unmarked drops exactly the marker lines: what it keeps holds no
      marker, and a list without markers is kept whole. */
  lemma {:induction false} UnmarkedDropsMarkers(lines: seq<string>)
    ensures forall k :: 0 <= k < |Unmarked(lines)| ==> !IsMarker(Unmarked(lines)[k])
    ensures !AnyMarker(lines) ==> Unmarked(lines) == lines
    ensures |Unmarked(lines)| < |lines| <==> AnyMarker(lines)
    decreases |lines|
  {
    if lines != [] {
      var front := lines[..|lines| - 1];
      UnmarkedDropsMarkers(front);
      assert front + [lines[|lines| - 1]] == lines;
    }
  }

  /** `lines` without its leading empty lines. */
  function DropLeadingEmpty(lines: seq<string>): (r: seq<string>)
    ensures r == [] || r[0] != ""
  {
    if lines != [] && lines[0] == "" then DropLeadingEmpty(lines[1..]) else lines
  }

  /** Whether the doc comment carries the export marker on some line. */
  predicate IsExported(doc: string) {
    AnyMarker(DocLines(doc))
  }

  /** The docstring ProcessDoc keeps: the unmarked lines joined by newlines.
      Empty lines before the first non-empty kept line are lost, because the
      loop tests the accumulated text, not a line count, for emptiness. */
  function DocText(doc: string): string {
    KeptText(DocLines(doc))
  }

  /** The docstring kept from the given scanned lines. */
  function KeptText(lines: seq<string>): string {
    Join(DropLeadingEmpty(Unmarked(lines)), "\n")
  }

  lemma {:induction false} JoinKeepsFirst(parts: seq<string>, sep: string)
    requires parts != []
    ensures |Join(parts, sep)| >= |parts[0]|
    decreases |parts|
  {
    if |parts| > 1 {
      JoinKeepsFirst(parts[..|parts| - 1], sep);
    }
  }

  lemma {:induction false} DropLeadingEmptySnoc(lines: seq<string>, t: string)
    ensures DropLeadingEmpty(lines + [t]) ==
      if DropLeadingEmpty(lines) == [] then (if t == "" then [] else [t])
      else DropLeadingEmpty(lines) + [t]
    decreases |lines|
  {
    if lines != [] {
      assert (lines + [t])[1..] == lines[1..] + [t];
      if lines[0] == "" {
        DropLeadingEmptySnoc(lines[1..], t);
      }
    }
  }

  /** The step of the loop: one more scanned line. */
  lemma DocStep(lines: seq<string>, n: nat)
    requires n < |lines|
    ensures AnyMarker(lines[..n + 1]) <==> AnyMarker(lines[..n]) || IsMarker(lines[n])
    ensures KeptText(lines[..n + 1]) ==
      if IsMarker(lines[n]) then KeptText(lines[..n])
      else if KeptText(lines[..n]) == "" then lines[n]
      else KeptText(lines[..n]) + "\n" + lines[n]
  {
    var t := lines[n];
    assert lines[..n + 1][..n] == lines[..n];
    var d := DropLeadingEmpty(Unmarked(lines[..n]));
    if !IsMarker(t) {
      DropLeadingEmptySnoc(Unmarked(lines[..n]), t);
      if d != [] {
        JoinKeepsFirst(d, "\n");
        var e := d + [t];
        assert e[..|e| - 1] == d;
      }
    }
  }

  /** ProcessDoc: scans the trimmed doc line by line; a marker line sets
      `isExport`, every other line is appended to `fnDoc`. */
  method ProcessDoc(doc: string) returns (fnDoc: string, isExport: bool)
    ensures isExport <==> IsExported(doc)
    ensures fnDoc == DocText(doc)
  {
    var lines := DocLines(doc);
    fnDoc := "";
    isExport := false;
    var n := 0;
    while n < |lines|
      invariant 0 <= n <= |lines|
      invariant isExport <==> AnyMarker(lines[..n])
      invariant fnDoc == KeptText(lines[..n])
    {
      var txt := lines[n];
      DocStep(lines, n);
      if IsMarker(txt) {
        isExport := true;
      } else {
        if fnDoc == "" {
          fnDoc := txt;
        } else {
          fnDoc := fnDoc + "\n" + txt;
        }
      }
      n := n + 1;
    }
    assert lines[..n] == lines;
  }

  /** After trimming, the first scanned line is never empty, so the
      swallowing of empty lines only concerns lines after a marker. */
  lemma FirstDocLineNotEmpty(doc: string)
    ensures DocLines(doc) == [] || DocLines(doc)[0] != ""
  {
    var t := TrimSpace(doc);
    if t != [] {
      assert t[0] == TrimLeft(doc)[0];
      FirstLineNotEmpty(t);
    }
  }

  /** A text that does not start with white space scans to a first line
      that is not empty. */
  lemma FirstLineNotEmpty(t: string)
    requires t != [] && !IsSpace(t[0])
    ensures ScanLines(t)[0] != ""
  {
    var i := IndexOf(t, '\n');
    assert i > 0;
    if i < |t| {
      assert t[..i][0] == t[0];
    }
  }

  /** Without a marker the docstring is the trimmed doc's lines rejoined. */
  lemma UnexportedDocKeepsAllLines(doc: string)
    requires !IsExported(doc)
    ensures DocText(doc) == Join(DocLines(doc), "\n")
  {
    UnmarkedDropsMarkers(DocLines(doc));
    FirstDocLineNotEmpty(doc);
  }

  lemma MarkerLineHasNoBreak()
    ensures IndexOf("go:pyexport", '\n') == 11
  {
    var t := "go:pyexport";
    assert forall k :: 0 <= k < |t| ==> t[k] != '\n';
  }

  lemma MarkerDocTrims()
    ensures TrimSpace("go:pyexport\n") == "go:pyexport"
  {
    var doc := "go:pyexport\n";
    assert TrimLeft(doc) == doc;
    assert doc[..|doc| - 1] == "go:pyexport";
  }

  /** The doc comment of testfile.go:25: the marker line alone. */
  lemma MarkerOnlyDocExample()
    ensures DocLines("go:pyexport\n") == ["go:pyexport"]
    ensures IsExported("go:pyexport\n")
    ensures DocText("go:pyexport\n") == ""
  {
    var doc := "go:pyexport\n";
    var t := "go:pyexport";
    MarkerDocTrims();
    MarkerLineHasNoBreak();
    assert DocLines(doc) == [t];
    assert [t][..0] == [];
  }
}
