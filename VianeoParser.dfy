/** The heuristics of the Vianeo export reader
    (vianeo-tools-…/src/utils/vianeoParser.ts), over an abstract document:
    a table is its rows of cell texts, and a document is its tables in
    document order. The project record the reader builds, the keyword-line
    filter, and the search for a persona x need table live here; the file
    list pass lives in VianeoFileList. */
module VianeoParser {
  import opened Common
  import opened Domain
  import opened Text

  // ---------------------------------------------------------------- the project record

  /** A persona x need grid read from a table; `source` names the file it
      came from once the file list pass has annotated it. */
  datatype NeedsMatrix = NeedsMatrix(personas: seq<string>, needs: seq<string>, values: seq<seq<Cell>>, source: Option<string>)

  datatype Task = Task(id: string, title: string, status: Option<string>)

  datatype AssetKind = ImageAsset | TextAsset | HtmlAsset | JsonAsset

  datatype Asset = Asset(path: string, kind: AssetKind, name: string)

  /** One entry of `rawFields`: a key and its value, in insertion order. */
  datatype Field = Field(key: string, value: string)

  /** `VianeoProject`. The optional `fileTypes`, `diagnostics` and `assets`
      are read as `x || {}` / `x || []` wherever they are used, so an absent
      one is the empty map or list here. */
  datatype VianeoProject = VianeoProject(
    id: string,
    title: string,
    description: Option<string>,
    tags: Option<seq<string>>,
    tasks: seq<Task>,
    rawFields: seq<Field>,
    sourceFiles: seq<string>,
    fileTypes: map<string, nat>,
    diagnostics: seq<string>,
    assets: seq<Asset>,
    needsMatrix: Option<NeedsMatrix>)

  /** `normalize`: the text keyword matching reads. */
  function Normalize(value: string): (r: string)
    ensures |r| == |value|
    ensures forall i :: 0 <= i < |r| ==> !IsUpper(r[i]) && r[i] == LowerChar(value[i])
  {
    ToLower(value)
  }

  /** Normalising twice is normalising once. */
  lemma NormalizeIdempotent(value: string)
    ensures Normalize(Normalize(value)) == Normalize(value)
  {
    ToLowerIdempotent(value);
  }

  // ---------------------------------------------------------------- diagnostic lines

  /** The index of the first line feed of `s`, or |s| when there is none. */
  function LineEnd(s: string): (k: nat)
    ensures k <= |s|
    ensures k < |s| ==> s[k] == '\n'
    ensures forall i :: 0 <= i < k ==> s[i] != '\n'
  {
    if s == [] || s[0] == '\n' then 0 else 1 + LineEnd(s[1..])
  }

  /** A line without the carriage return of a CR LF break. */
  function DropCarriageReturn(line: string): string
  {
    if line != [] && line[|line| - 1] == '\r' then line[..|line| - 1] else line
  }

  /** `text.split(/\r?\n/)`: the pieces between line breaks; the last piece
      keeps a trailing carriage return, as no line feed follows it. */
  function SplitLines(s: string): (lines: seq<string>)
    decreases |s|
  {
    var k := LineEnd(s);
    if k == |s| then [s] else [DropCarriageReturn(s[..k])] + SplitLines(s[k + 1..])
  }

  /** There is always at least one line, and no line holds a line feed. */
  lemma {:induction false} SplitLinesShape(s: string)
    ensures |SplitLines(s)| >= 1
    ensures forall k :: 0 <= k < |SplitLines(s)| ==> '\n' !in SplitLines(s)[k]
    decreases |s|
  {
    var k := LineEnd(s);
    if k < |s| {
      var rest := s[k + 1..];
      SplitLinesShape(rest);
      var first := DropCarriageReturn(s[..k]);
      assert SplitLines(s) == [first] + SplitLines(rest);
      assert '\n' !in first by {
        assert forall i :: 0 <= i < |first| ==> first[i] == s[i];
      }
      forall j | 0 <= j < |SplitLines(s)|
        ensures '\n' !in SplitLines(s)[j]
      {
        if j > 0 {
          assert SplitLines(s)[j] == SplitLines(rest)[j - 1];
        }
      }
    }
  }

  /** Without carriage returns, joining the lines with line feeds gives the
      text back. */
  lemma {:induction false} SplitLinesJoin(s: string)
    requires '\r' !in s
    ensures Join(SplitLines(s), "\n") == s
    decreases |s|
  {
    var k := LineEnd(s);
    if k < |s| {
      var rest := s[k + 1..];
      assert '\r' !in rest by {
        assert forall i :: 0 <= i < |rest| ==> rest[i] == s[k + 1 + i];
      }
      SplitLinesJoin(rest);
      var first := DropCarriageReturn(s[..k]);
      assert SplitLines(s) == [first] + SplitLines(rest);
      assert k == 0 || s[..k][k - 1] != '\r' by {
        if k > 0 {
          assert s[k - 1] in s;
        }
      }
      assert first == s[..k];
      assert Join(SplitLines(s), "\n") == first + "\n" + Join(SplitLines(rest), "\n");
      assert s == s[..k] + "\n" + rest;
    }
  }

  /** Words of `/risk|milestone|strategy|regulat|team|market|geo|timeline|roadmap|deployment|ecosystem|network/i`. */
  const DiagnosticWords: seq<string> := ["risk", "milestone", "strategy", "regulat", "team", "market", "geo", "timeline", "roadmap", "deployment", "ecosystem", "network"]

  /** The cap on the number of diagnostic lines. */
  const MaxDiagnostics: nat := 50

  /** A trimmed line is kept when it is non-empty and, ignoring case, holds a keyword. */
  predicate IsDiagnostic(line: string)
  {
    line != [] && ContainsAny(ToLower(line), DiagnosticWords)
  }

  /** The trimmed line when it is kept, otherwise nothing. */
  function KeptLine(line: string): (r: seq<string>)
    ensures |r| <= 1
  {
    if IsDiagnostic(Trim(line)) then [Trim(line)] else []
  }

  /** `.map(l => l.trim()).filter(Boolean).filter(l => regex.test(l))`. */
  function DiagnosticLines(lines: seq<string>): seq<string>
  {
    if lines == [] then [] else KeptLine(lines[0]) + DiagnosticLines(lines[1..])
  }

  /** `extractDiagnostics`: the first 50 kept lines. */
  function ExtractDiagnostics(text: string): seq<string>
  {
    var kept := DiagnosticLines(SplitLines(text));
    if |kept| <= MaxDiagnostics then kept else kept[..MaxDiagnostics]
  }

  /** `line` is the trimmed form of one of `lines`. */
  predicate TrimmedLineOf(line: string, lines: seq<string>)
  {
    exists j :: 0 <= j < |lines| && line == Trim(lines[j])
  }

  /** Every kept line is a trimmed line of the input that qualifies, and
      there are no more kept lines than input lines. */
  lemma {:induction false} DiagnosticLinesSound(lines: seq<string>)
    ensures |DiagnosticLines(lines)| <= |lines|
    ensures forall k :: 0 <= k < |DiagnosticLines(lines)| ==>
      IsDiagnostic(DiagnosticLines(lines)[k]) && TrimmedLineOf(DiagnosticLines(lines)[k], lines)
  {
    if lines != [] {
      var rest := lines[1..];
      DiagnosticLinesSound(rest);
      var r := DiagnosticLines(lines);
      var head := KeptLine(lines[0]);
      assert r == head + DiagnosticLines(rest);
      forall k | 0 <= k < |r|
        ensures IsDiagnostic(r[k]) && TrimmedLineOf(r[k], lines)
      {
        if k < |head| {
          assert r[k] == Trim(lines[0]);
        } else {
          assert r[k] == DiagnosticLines(rest)[k - |head|];
          var j :| 0 <= j < |rest| && r[k] == Trim(rest[j]);
          assert rest[j] == lines[j + 1];
        }
      }
    }
  }

  /** Every qualifying line is kept. */
  lemma {:induction false} DiagnosticLinesComplete(lines: seq<string>, j: nat)
    requires j < |lines| && IsDiagnostic(Trim(lines[j]))
    ensures Trim(lines[j]) in DiagnosticLines(lines)
    decreases j
  {
    var rest := lines[1..];
    assert DiagnosticLines(lines) == KeptLine(lines[0]) + DiagnosticLines(rest);
    if j > 0 {
      assert lines[j] == rest[j - 1];
      DiagnosticLinesComplete(rest, j - 1);
    }
  }

  /** The first 50 qualifying lines, or all of them when there are fewer:
      each a trimmed, non-empty line of the text that holds a keyword, in the
      text's order; when no more than 50 lines qualify, every one is returned. */
  lemma ExtractDiagnosticsSpec(text: string)
    ensures var r, lines := ExtractDiagnostics(text), SplitLines(text);
      && r <= DiagnosticLines(lines)
      && |r| == (if |DiagnosticLines(lines)| <= MaxDiagnostics then |DiagnosticLines(lines)| else MaxDiagnostics)
      && (forall k :: 0 <= k < |r| ==> IsDiagnostic(r[k]) && TrimmedLineOf(r[k], lines))
      && (|DiagnosticLines(lines)| <= MaxDiagnostics ==>
            forall j :: 0 <= j < |lines| && IsDiagnostic(Trim(lines[j])) ==> Trim(lines[j]) in r)
  {
    var lines := SplitLines(text);
    DiagnosticLinesSound(lines);
    var kept := DiagnosticLines(lines);
    var r := ExtractDiagnostics(text);
    assert forall k :: 0 <= k < |r| ==> r[k] == kept[k];
    forall j | 0 <= j < |lines| && IsDiagnostic(Trim(lines[j]))
      ensures Trim(lines[j]) in kept
    {
      DiagnosticLinesComplete(lines, j);
    }
  }

  // ---------------------------------------------------------------- choosing the table

  /** A table as its rows, each row its cells' texts. */
  type Table = seq<seq<string>>

  /** The widest row's cell count (`Math.max` over the rows; only read for
      tables of three rows or more). */
  function Width(t: Table): (w: nat)
    ensures forall r :: 0 <= r < |t| ==> |t[r]| <= w
    ensures t != [] ==> exists r :: 0 <= r < |t| && |t[r]| == w
  {
    if t == [] then 0
    else
      var w := Width(t[..|t| - 1]);
      var last := |t[|t| - 1]|;
      if w >= last then w else last
  }

  /** A table with a header and two rows, three cells wide at its widest. */
  predicate Candidate(t: Table)
  {
    |t| >= 3 && Width(t) >= 3
  }

  function Score(t: Table): nat
  {
    |t| * Width(t)
  }

  function ScoreOf(tables: seq<Table>, b: Option<nat>): nat
    requires b.Some? ==> b.value < |tables|
  {
    match b
    case None => 0
    case Some(k) => Score(tables[k])
  }

  /** The table the selection loop keeps after visiting `tables`: a candidate
      replaces the one kept only with a strictly larger score. */
  function BestTable(tables: seq<Table>): (r: Option<nat>)
    ensures r.Some? ==> r.value < |tables| && Candidate(tables[r.value])
  {
    if tables == [] then None
    else
      var prev := BestTable(tables[..|tables| - 1]);
      var t := tables[|tables| - 1];
      if Candidate(t) && Score(t) > ScoreOf(tables, prev) then Some(|tables| - 1) else prev
  }

  /** There is a choice exactly when some table is a candidate; the chosen
      table has the largest score of all candidates, and every earlier
      candidate scores strictly less, so ties go to the first. */
  lemma {:induction false} BestTableSpec(tables: seq<Table>)
    ensures BestTable(tables).None? <==> forall k :: 0 <= k < |tables| ==> !Candidate(tables[k])
    ensures BestTable(tables).Some? ==> var b := BestTable(tables).value;
      && (forall k :: 0 <= k < |tables| && Candidate(tables[k]) ==> Score(tables[k]) <= Score(tables[b]))
      && (forall k :: 0 <= k < b && Candidate(tables[k]) ==> Score(tables[k]) < Score(tables[b]))
  {
    if tables != [] {
      var n := |tables| - 1;
      var front := tables[..n];
      BestTableSpec(front);
      assert forall k :: 0 <= k < n ==> front[k] == tables[k];
      if Candidate(tables[n]) {
        CandidateScores(tables[n]);
      }
    }
  }

  /** A candidate scores at least 9, so it beats having no table at all. */
  lemma CandidateScores(t: Table)
    requires Candidate(t)
    ensures Score(t) >= 9
  {
    assert |t| * Width(t) >= 3 * Width(t) >= 9;
  }

  /** The best/bestScore loop of `extractNeedsMatrixFromNode`. */
  method SelectTable(tables: seq<Table>) returns (best: Option<nat>)
    ensures best == BestTable(tables)
  {
    best := None;
    var bestScore := 0;
    var i := 0;
    while i < |tables|
      invariant 0 <= i <= |tables|
      invariant best == BestTable(tables[..i])
      invariant best.Some? ==> best.value < i
      invariant bestScore == ScoreOf(tables, best)
    {
      assert tables[..i + 1][..i] == tables[..i];
      var t := tables[i];
      if |t| >= 3 {
        var colsCount := Width(t);
        var score := |t| * colsCount;
        if colsCount >= 3 && score > bestScore {
          best := Some(i);
          bestScore := score;
        }
      }
      i := i + 1;
    }
    assert tables[..i] == tables;
  }

  // ---------------------------------------------------------------- header and labels

  /** The trimmed texts of a row's cells. */
  function HeaderTexts(row: seq<string>): (r: seq<string>)
    ensures |r| == |row|
  {
    seq(|row|, i requires 0 <= i < |row| => Trim(row[i]))
  }

  const PersonaHeader: string := "persona"

  const PersonaWords: seq<string> := ["user", "segment", "role"]

  /** `/^persona$|user|segment|role/` on a lower-cased header. */
  predicate IsPersonaHeader(h: string)
  {
    h == PersonaHeader || ContainsAny(h, PersonaWords)
  }

  /** The first header that names the persona column, or |headers|. */
  function FirstPersonaHeader(headers: seq<string>): (k: nat)
    ensures k <= |headers|
    ensures k < |headers| ==> IsPersonaHeader(ToLower(headers[k]))
    ensures forall i :: 0 <= i < k ==> !IsPersonaHeader(ToLower(headers[i]))
  {
    if headers == [] then 0
    else if IsPersonaHeader(ToLower(headers[0])) then 0
    else 1 + FirstPersonaHeader(headers[1..])
  }

  /** The persona column: the first persona header, or column 0. */
  function PersonaColumnOf(headers: seq<string>): nat
  {
    var k := FirstPersonaHeader(headers);
    if k < |headers| then k else 0
  }

  /** The persona-column loop, which stops at the first match. */
  method PersonaColumn(headers: seq<string>) returns (personaCol: nat)
    ensures personaCol == PersonaColumnOf(headers)
    ensures personaCol < |headers| ==> personaCol == 0 || IsPersonaHeader(ToLower(headers[personaCol]))
  {
    personaCol := 0;
    var i := 0;
    while i < |headers|
      invariant 0 <= i <= |headers|
      invariant forall k :: 0 <= k < i ==> !IsPersonaHeader(ToLower(headers[k]))
    {
      var h := ToLower(headers[i]);
      if IsPersonaHeader(h) {
        personaCol := i;
        FirstPersonaAt(headers, i);
        return;
      }
      i := i + 1;
    }
    FirstPersonaAt(headers, |headers|);
  }

  /** A position before which no header matches, and which matches or ends
      the list, is the first persona header. */
  lemma {:induction false} FirstPersonaAt(headers: seq<string>, i: nat)
    requires i <= |headers|
    requires i < |headers| ==> IsPersonaHeader(ToLower(headers[i]))
    requires forall k :: 0 <= k < i ==> !IsPersonaHeader(ToLower(headers[k]))
    ensures FirstPersonaHeader(headers) == i
    decreases i
  {
    if headers != [] && i > 0 {
      assert !IsPersonaHeader(ToLower(headers[0]));
      assert forall k :: 0 <= k < i - 1 ==> headers[1..][k] == headers[k + 1];
      FirstPersonaAt(headers[1..], i - 1);
    }
  }

  /** `s` without position `col` (all of `s` when there is no such position). */
  function Without<T>(s: seq<T>, col: nat): (r: seq<T>)
    ensures col < |s| ==> |r| == |s| - 1
    ensures col >= |s| ==> r == s
  {
    if col < |s| then s[..col] + s[col + 1..] else s
  }

  /** Every other position keeps its element, those after `col` one place earlier. */
  lemma WithoutAt<T>(s: seq<T>, col: nat, i: nat)
    requires i < |s| && i != col
    ensures i < col ==> Without(s, col)[i] == s[i]
    ensures col < i ==> Without(s, col)[i - 1] == s[i]
  {
  }

  /** Visiting one more position appends its element unless it is `col`. */
  lemma WithoutStep<T>(s: seq<T>, col: nat, i: nat)
    requires i < |s|
    ensures i == col ==> Without(s[..i + 1], col) == Without(s[..i], col)
    ensures i != col ==> Without(s[..i + 1], col) == Without(s[..i], col) + [s[i]]
  {
    if i == col {
      assert s[..i + 1][..col] == s[..i];
    } else if i < col {
      assert s[..i + 1] == s[..i] + [s[i]];
    } else {
      assert s[..i + 1][..col] == s[..i][..col];
      assert s[..i + 1][col + 1..] == s[..i][col + 1..] + [s[i]];
    }
  }

  const NeedPrefix: string := "Need "

  /** `` `Need ${k}` ``. */
  function NeedName(k: nat): (r: string)
    ensures r != []
  {
    NeedPrefix + NatToString(k)
  }

  /** `name || `Need ${k}``. */
  function LabelOr(name: string, k: nat): (r: string)
    ensures r != []
    ensures name != [] ==> r == name
    ensures name == [] ==> r == NeedName(k)
  {
    if name != [] then name else NeedName(k)
  }

  /** The need labels: the headers other than the persona column, in order,
      each trimmed, a blank one named after its 1-based place among the needs. */
  function Labels(headers: seq<string>, personaCol: nat): (needs: seq<string>)
    ensures |needs| == |Without(headers, personaCol)|
    ensures forall k :: 0 <= k < |needs| ==> needs[k] != []
  {
    var w := Without(headers, personaCol);
    seq(|w|, k requires 0 <= k < |w| => LabelOr(Trim(w[k]), k + 1))
  }

  /** Visiting one more header appends its label unless it is the persona column. */
  lemma LabelsStep(headers: seq<string>, personaCol: nat, i: nat)
    requires i < |headers|
    ensures var prev := Labels(headers[..i], personaCol);
      && (i == personaCol ==> Labels(headers[..i + 1], personaCol) == prev)
      && (i != personaCol ==> Labels(headers[..i + 1], personaCol) == prev + [LabelOr(Trim(headers[i]), |prev| + 1)])
  {
    WithoutStep(headers, personaCol, i);
    var prev := Labels(headers[..i], personaCol);
    var next := Labels(headers[..i + 1], personaCol);
    if i != personaCol {
      var w := Without(headers[..i], personaCol);
      assert Without(headers[..i + 1], personaCol) == w + [headers[i]];
      assert next == prev + [LabelOr(Trim(headers[i]), |prev| + 1)] by {
        forall k | 0 <= k < |next|
          ensures next[k] == (prev + [LabelOr(Trim(headers[i]), |prev| + 1)])[k]
        {
          if k < |prev| {
            assert (w + [headers[i]])[k] == w[k];
          }
        }
      }
    }
  }

  /** The loop that builds `needs`. */
  method NeedLabels(headers: seq<string>, personaCol: nat) returns (needs: seq<string>)
    ensures needs == Labels(headers, personaCol)
  {
    needs := [];
    var i := 0;
    while i < |headers|
      invariant 0 <= i <= |headers|
      invariant needs == Labels(headers[..i], personaCol)
    {
      LabelsStep(headers, personaCol, i);
      if i != personaCol {
        var name := Trim(headers[i]);
        needs := needs + [LabelOr(name, |needs| + 1)];
      }
      i := i + 1;
    }
    assert headers[..i] == headers;
  }

  // ---------------------------------------------------------------- data rows

  /** `!isNaN(num) ? num : txt` for `num = parseFloat(txt.replace(/[^0-9.\-]/g, ''))`. */
  function CellOf(text: string): Cell
  {
    match ParseNum(text)
    case Some(v) => Num(v)
    case None => Text(text)
  }

  /** A cell that parses as a number becomes that number, any other keeps its text. */
  lemma CellOfSpec(text: string)
    ensures ParseNum(text).Some? ==> CellOf(text) == Num(ParseNum(text).value)
    ensures ParseNum(text).None? ==> CellOf(text) == Text(text)
    ensures ParseNum(Trim(text)) == ParseNum(text)
  {
    ParseNumTrim(text);
  }

  /** The persona cell's trimmed text, or '' when the row has no such cell. */
  function PersonaOf(cells: seq<string>, personaCol: nat): string
  {
    if personaCol < |cells| then Trim(cells[personaCol]) else []
  }

  /** A data row's values: every cell but the persona cell, trimmed and read. */
  function RowValues(cells: seq<string>, personaCol: nat): (vals: seq<Cell>)
    ensures |vals| == |Without(cells, personaCol)|
  {
    var w := Without(cells, personaCol);
    seq(|w|, k requires 0 <= k < |w| => CellOf(Trim(w[k])))
  }

  /** The inner loop over a data row's cells. */
  method ReadRowValues(cells: seq<string>, personaCol: nat) returns (rowVals: seq<Cell>)
    ensures rowVals == RowValues(cells, personaCol)
  {
    rowVals := [];
    var c := 0;
    while c < |cells|
      invariant 0 <= c <= |cells|
      invariant rowVals == RowValues(cells[..c], personaCol)
    {
      WithoutStep(cells, personaCol, c);
      if c != personaCol {
        var txt := Trim(cells[c]);
        rowVals := rowVals + [CellOf(txt)];
      }
      c := c + 1;
    }
    assert cells[..c] == cells;
  }

  datatype DataRows = DataRows(personas: seq<string>, values: seq<seq<Cell>>)

  /** A row that is read: it has cells and a non-blank persona cell. */
  predicate Kept(cells: seq<string>, personaCol: nat)
  {
    cells != [] && PersonaOf(cells, personaCol) != []
  }

  /** The row loop's step: a kept row appends its persona and its values. */
  function Collect(prev: DataRows, cells: seq<string>, personaCol: nat): DataRows
  {
    if Kept(cells, personaCol)
    then DataRows(prev.personas + [PersonaOf(cells, personaCol)], prev.values + [RowValues(cells, personaCol)])
    else prev
  }

  /** The personas and values the row loop collects from `rows`. */
  function ReadRows(rows: seq<seq<string>>, personaCol: nat): DataRows
  {
    if rows == [] then DataRows([], [])
    else Collect(ReadRows(rows[..|rows| - 1], personaCol), rows[|rows| - 1], personaCol)
  }

  /** Entry `k` of `d` is the persona and the values of the kept row `cells`. */
  predicate FromRow(d: DataRows, k: nat, cells: seq<string>, personaCol: nat)
  {
    && k < |d.personas| && k < |d.values|
    && Kept(cells, personaCol)
    && d.personas[k] == PersonaOf(cells, personaCol)
    && d.values[k] == RowValues(cells, personaCol)
  }

  /** Personas and value rows grow together, every persona is non-blank, and
      there are none exactly when no row is kept. */
  lemma {:induction false} ReadRowsShape(rows: seq<seq<string>>, personaCol: nat)
    ensures var d := ReadRows(rows, personaCol);
      && |d.personas| == |d.values| <= |rows|
      && (forall k :: 0 <= k < |d.personas| ==> d.personas[k] != [])
      && (d.personas == [] <==> forall j :: 0 <= j < |rows| ==> !Kept(rows[j], personaCol))
  {
    if rows != [] {
      var n := |rows| - 1;
      ReadRowsShape(rows[..n], personaCol);
      assert forall j :: 0 <= j < n ==> rows[..n][j] == rows[j];
    }
  }

  /** A step keeps the entries collected before it. */
  lemma CollectKeeps(p: DataRows, cells: seq<string>, personaCol: nat, k: nat, from: seq<string>)
    requires FromRow(p, k, from, personaCol)
    ensures FromRow(Collect(p, cells, personaCol), k, from, personaCol)
  {
  }

  /** Entry `k` of `d` comes from some kept row of `rows`. */
  predicate Sourced(d: DataRows, k: nat, rows: seq<seq<string>>, personaCol: nat)
  {
    exists j :: 0 <= j < |rows| && FromRow(d, k, rows[j], personaCol)
  }

  /** Each collected entry comes from one kept row. */
  lemma {:induction false} ReadRowsOrigin(rows: seq<seq<string>>, personaCol: nat)
    ensures var d := ReadRows(rows, personaCol);
      forall k :: 0 <= k < |d.personas| ==> Sourced(d, k, rows, personaCol)
  {
    if rows != [] {
      var n := |rows| - 1;
      var front := rows[..n];
      ReadRowsOrigin(front, personaCol);
      ReadRowsShape(front, personaCol);
      var p := ReadRows(front, personaCol);
      var d := Collect(p, rows[n], personaCol);
      assert d == ReadRows(rows, personaCol);
      forall k | 0 <= k < |d.personas|
        ensures Sourced(d, k, rows, personaCol)
      {
        if k < |p.personas| {
          assert Sourced(p, k, front, personaCol);
          var j :| 0 <= j < |front| && FromRow(p, k, front[j], personaCol);
          CollectKeeps(p, rows[n], personaCol, k, front[j]);
          assert front[j] == rows[j];
        } else {
          assert FromRow(d, k, rows[n], personaCol);
        }
      }
    }
  }

  /** Reading one more row of the table is one more step. */
  lemma ReadRowsNext(table: Table, r: nat, personaCol: nat)
    requires 1 <= r < |table|
    ensures ReadRows(table[1..r + 1], personaCol) == Collect(ReadRows(table[1..r], personaCol), table[r], personaCol)
  {
    assert table[1..r + 1][..r - 1] == table[1..r];
  }

  /** The data-row loop, from row 1 on. */
  method ReadDataRows(table: Table, personaCol: nat) returns (personas: seq<string>, values: seq<seq<Cell>>)
    requires table != []
    ensures DataRows(personas, values) == ReadRows(table[1..], personaCol)
  {
    personas, values := [], [];
    var r := 1;
    while r < |table|
      invariant 1 <= r <= |table|
      invariant DataRows(personas, values) == ReadRows(table[1..r], personaCol)
    {
      ReadRowsNext(table, r, personaCol);
      var cells := table[r];
      if cells != [] {
        var persona := if personaCol < |cells| then Trim(cells[personaCol]) else [];
        if persona != [] {
          personas := personas + [persona];
          var rowVals := ReadRowValues(cells, personaCol);
          values := values + [rowVals];
        }
      }
      r := r + 1;
    }
    assert table[1..r] == table[1..];
  }

  // ---------------------------------------------------------------- completing and fitting

  /** Some need label other than blank or 'persona' (ignoring case). */
  predicate HasNeedLabel(needs: seq<string>)
  {
    exists k :: 0 <= k < |needs| && needs[k] != [] && ToLower(needs[k]) != PersonaHeader
  }

  /** Label `i` after `needs[i] = needs[i] || `Need ${i + 1}`` for i below `cols`. */
  function CompletedAt(needs: seq<string>, cols: nat, i: nat): string
  {
    if i < |needs| then (if i < cols then LabelOr(needs[i], i + 1) else needs[i]) else NeedName(i + 1)
  }

  /** The needs after the fallback loop over the first data row's width:
      existing labels stay (a blank one is named), and missing positions up
      to `cols` get `Need i`. */
  function Completed(needs: seq<string>, cols: nat): (r: seq<string>)
    ensures |r| == (if cols > |needs| then cols else |needs|)
  {
    seq(if cols > |needs| then cols else |needs|, i requires 0 <= i => CompletedAt(needs, cols, i))
  }

  /** The fallback loop: JavaScript arrays grow by one when written at their length. */
  method CompleteNeeds(needs: seq<string>, cols: nat) returns (r: seq<string>)
    ensures r == Completed(needs, cols)
  {
    r := needs;
    var i := 0;
    while i < cols
      invariant 0 <= i <= cols
      invariant |r| == (if i > |needs| then i else |needs|)
      invariant forall k :: 0 <= k < |r| ==> r[k] == (if k < i then CompletedAt(needs, cols, k) else needs[k])
    {
      if i < |r| {
        r := r[i := LabelOr(r[i], i + 1)];
      } else {
        r := r + [LabelOr([], i + 1)];
      }
      i := i + 1;
    }
  }

  /** The labels the matrix keeps: completed from the first data row's
      width when no header names a need. */
  function FinalNeeds(needs: seq<string>, values: seq<seq<Cell>>): (r: seq<string>)
    ensures (forall k :: 0 <= k < |needs| ==> needs[k] != []) ==> forall k :: 0 <= k < |r| ==> r[k] != []
    ensures HasNeedLabel(needs) || values == [] ==> r == needs
    ensures !HasNeedLabel(needs) && values != [] ==> |r| >= |values[0]|
  {
    if (!HasNeedLabel(needs) || needs == []) && values != [] then Completed(needs, |values[0]|) else needs
  }

  /** A row cut to `n` cells, or padded to `n` with empty text. */
  function Fit(row: seq<Cell>, n: nat): (r: seq<Cell>)
    ensures |r| == n
    ensures forall i :: 0 <= i < n && i < |row| ==> r[i] == row[i]
    ensures forall i :: |row| <= i < n ==> r[i] == Text([])
  {
    if |row| >= n then row[..n] else row + seq(n - |row|, _ => Text([]))
  }

  /** `if (row.length > targetCols) row.length = targetCols; while (row.length < targetCols) row.push('')`. */
  method FitRow(row: seq<Cell>, targetCols: nat) returns (r: seq<Cell>)
    ensures r == Fit(row, targetCols)
  {
    r := row;
    if |r| > targetCols {
      r := r[..targetCols];
    }
    while |r| < targetCols
      invariant |r| <= targetCols || r == row
      invariant |r| <= targetCols ==> forall i :: 0 <= i < |r| ==> r[i] == (if i < |row| then row[i] else Text([]))
      invariant |row| <= targetCols ==> |r| >= |row|
      invariant |row| > targetCols ==> r == row[..targetCols]
      decreases targetCols - |r|
    {
      r := r + [Text([])];
    }
  }

  /** Every row fitted to `n` cells. */
  function FitAll(values: seq<seq<Cell>>, n: nat): (r: seq<seq<Cell>>)
    ensures |r| == |values|
    ensures forall k :: 0 <= k < |r| ==> r[k] == Fit(values[k], n)
  {
    seq(|values|, k requires 0 <= k < |values| => Fit(values[k], n))
  }

  /** `values.forEach(...)`, row by row. */
  method FitRows(values: seq<seq<Cell>>, targetCols: nat) returns (out: seq<seq<Cell>>)
    ensures out == FitAll(values, targetCols)
  {
    out := values;
    var k := 0;
    while k < |out|
      invariant 0 <= k <= |out| == |values|
      invariant forall i :: 0 <= i < k ==> out[i] == Fit(values[i], targetCols)
      invariant forall i :: k <= i < |out| ==> out[i] == values[i]
    {
      var row := FitRow(out[k], targetCols);
      out := out[k := row];
      k := k + 1;
    }
  }

  // ---------------------------------------------------------------- the whole heuristic

  /** `extractNeedsMatrixFromNode` over a document's tables. */
  function MatrixOf(tables: seq<Table>): Option<NeedsMatrix>
  {
    match BestTable(tables)
    case None => None
    case Some(b) =>
      var table := tables[b];
      var headers := HeaderTexts(table[0]);
      var personaCol := PersonaColumnOf(headers);
      var rows := ReadRows(table[1..], personaCol);
      var needs := FinalNeeds(Labels(headers, personaCol), rows.values);
      if needs == [] || rows.personas == [] then None
      else Some(NeedsMatrix(rows.personas, needs, FitAll(rows.values, |needs|), None))
  }

  /** The heuristic as the source writes it, stage by stage. */
  method ExtractNeedsMatrix(tables: seq<Table>) returns (r: Option<NeedsMatrix>)
    ensures r == MatrixOf(tables)
  {
    var best := SelectTable(tables);
    if best.None? {
      return None;
    }
    var table := tables[best.value];
    var headers := HeaderTexts(table[0]);
    var personaCol := PersonaColumn(headers);
    var needs := NeedLabels(headers, personaCol);
    var personas, values := ReadDataRows(table, personaCol);
    if (!HasNeedLabel(needs) || needs == []) && values != [] {
      needs := CompleteNeeds(needs, |values[0]|);
    }
    if needs == [] || personas == [] {
      return None;
    }
    values := FitRows(values, |needs|);
    r := Some(NeedsMatrix(personas, needs, values, None));
  }

  /** A matrix is found only in a document with a candidate table; every
      persona is a non-blank text with one row of exactly one cell per need,
      and every need label is non-blank. */
  lemma MatrixShape(tables: seq<Table>)
    ensures (forall k :: 0 <= k < |tables| ==> !Candidate(tables[k])) ==> MatrixOf(tables).None?
    ensures MatrixOf(tables).Some? ==> var m := MatrixOf(tables).value;
      && |m.personas| == |m.values| > 0
      && |m.needs| > 0
      && (forall k :: 0 <= k < |m.values| ==> |m.values[k]| == |m.needs|)
      && (forall k :: 0 <= k < |m.personas| ==> m.personas[k] != [])
      && (forall k :: 0 <= k < |m.needs| ==> m.needs[k] != [])
  {
    BestTableSpec(tables);
    if MatrixOf(tables).Some? {
      var b := BestTable(tables).value;
      var table := tables[b];
      var headers := HeaderTexts(table[0]);
      var personaCol := PersonaColumnOf(headers);
      ReadRowsShape(table[1..], personaCol);
    }
  }
}
