/** The needs-matrix normaliser and cost allocator (src/utils/needsMatrix.ts):
    a persona x need table of numbers, numeric text and categorical words is
    turned into weights in [0, 1] after detecting the table's numeric scale;
    each need is given cost-driver shares from keywords in its label; each
    cell gets a rounded share of the realistic scenario's costs, and the cell
    costs are totalled per persona and per need. */
module NeedsMatrix {
  import opened Common
  import opened Text
  import opened Domain

  datatype Scale = Percentage | Score1To5 | Score0To10 | Binary | Categorical | Unknown

  datatype NormalizedMatrix = NormalizedMatrix(
    personas: seq<string>,
    needs: seq<string>,
    weights: seq<seq<real>>,
    scale: Scale)

  /** CATEGORICAL_WEIGHTS: high/medium/low, yes/no, critical/important/optional. */
  const CategoricalWeights: map<string, real> := map[
    "high" := 1.0, "medium" := 0.6, "low" := 0.3,
    "yes" := 1.0, "no" := 0.0,
    "critical" := 1.0, "important" := 0.7, "optional" := 0.3]

  /** The weight of a word of the categorical table. */
  function CategoricalWeight(key: string): (w: Option<real>)
    ensures w.Some? ==> 0.0 <= w.value <= 1.0
  {
    if key in CategoricalWeights then Some(CategoricalWeights[key]) else None
  }

  // ---------------------------------------------------------------- the numbers of a table

  /** The number a cell holds: a number, or the text (trimmed) read as a number. */
  function CellNumber(c: Cell): Option<real>
  {
    match c
    case Num(x) => Some(x)
    case Text(t) => ParseNum(Trim(t))
  }

  /** The numbers of a row, left to right. */
  function RowNumbers(row: seq<Cell>): (r: seq<real>)
    ensures |r| <= |row|
  {
    if row == [] then [] else RowNumbers(row[..|row| - 1]) + NumbersOf(row[|row| - 1])
  }

  /** The number a cell contributes to the table's numbers, if any. */
  function NumbersOf(c: Cell): (r: seq<real>)
    ensures |r| <= 1
  {
    match CellNumber(c)
    case None => []
    case Some(x) => [x]
  }


  /** The numbers of a table, row by row. */
  function NumericValues(values: seq<seq<Cell>>): seq<real>
  {
    if values == [] then [] else NumericValues(values[..|values| - 1]) + RowNumbers(values[|values| - 1])
  }

  function SeqMin(xs: seq<real>): (m: real)
    requires xs != []
    ensures forall k :: 0 <= k < |xs| ==> m <= xs[k]
    ensures exists k :: 0 <= k < |xs| && m == xs[k]
  {
    if |xs| == 1 then xs[0]
    else
      var m := SeqMin(xs[..|xs| - 1]);
      if xs[|xs| - 1] < m then xs[|xs| - 1] else m
  }

  function SeqMax(xs: seq<real>): (m: real)
    requires xs != []
    ensures forall k :: 0 <= k < |xs| ==> xs[k] <= m
    ensures exists k :: 0 <= k < |xs| && m == xs[k]
  {
    if |xs| == 1 then xs[0]
    else
      var m := SeqMax(xs[..|xs| - 1]);
      if xs[|xs| - 1] > m then xs[|xs| - 1] else m
  }

  /** The scale heuristic, applied to the smallest and largest number. */
  function ScaleOf(min: real, max: real): (s: Scale)
    ensures s != Categorical && s != Unknown
    ensures min < 0.0 || max > 100.0 ==> s == Score0To10
    ensures s == Binary <==> 0.0 <= min && max <= 1.0
    ensures s == Percentage <==> 0.0 <= min && 10.0 < max <= 100.0
  {
    if max <= 1.0 && min >= 0.0 then Binary
    else if max <= 5.0 && min >= 0.0 then Score1To5
    else if max <= 10.0 && min >= 0.0 then Score0To10
    else if max <= 100.0 && min >= 0.0 then Percentage
    else Score0To10
  }

  /** The scale reported for a table: categorical when it holds no number. */
  function DetectScale(nums: seq<real>): (s: Scale)
    ensures s != Unknown
    ensures s == Categorical <==> nums == []
  {
    if nums == [] then Categorical else ScaleOf(SeqMin(nums), SeqMax(nums))
  }

  /** 100 for percentages; otherwise max - max(0, min), falling back to max
      when that is 0, and to 1 when max is 0 too (JavaScript's `||` on numbers). */
  function Denominator(scale: Scale, min: real, max: real): (d: real)
    ensures d != 0.0
  {
    if scale == Percentage then 100.0
    else if max - RealMax(0.0, min) != 0.0 then max - RealMax(0.0, min)
    else if max != 0.0 then max
    else 1.0
  }

  function Clamp01(x: real): (r: real)
    ensures 0.0 <= r <= 1.0
    ensures 0.0 <= x <= 1.0 ==> r == x
  {
    RealMax(0.0, RealMin(1.0, x))
  }

  /** The weight of a number on the table's scale. */
  function NumericWeight(v: real, nums: seq<real>): (w: real)
    requires nums != []
    ensures 0.0 <= w <= 1.0
  {
    var min, max := SeqMin(nums), SeqMax(nums);
    var scale := ScaleOf(min, max);
    Clamp01(Normalized(v, min, scale, Denominator(scale, min, max)))
  }

  /** A number on the table's scale, before clamping: a percentage over 100,
      anything else shifted by the non-negative minimum and divided. */
  function Normalized(v: real, min: real, scale: Scale, denom: real): real
    requires denom != 0.0
  {
    if scale == Percentage then v / 100.0 else (v - RealMax(0.0, min)) / denom
  }

  // ---------------------------------------------------------------- the three passes, cell by cell

  /** First pass: numbers are left open (NaN in the source) for the numeric
      pass; a word of the categorical table gets its weight; anything else is
      left open. */
  function FirstPass(c: Cell): Option<real>
  {
    match c
    case Num(_) => None
    case Text(t) => if ParseNum(Trim(t)).Some? then None else CategoricalWeight(ToLower(Trim(t)))
  }

  /** The number the numeric pass reads again from an open cell (without trimming). */
  function Reread(c: Cell): Option<real>
  {
    match c
    case Num(x) => Some(x)
    case Text(t) => ParseNum(t)
  }

  /** Second pass, run only when the table holds a number: every open cell
      that reads as a number gets its clamped weight. */
  function SecondPass(c: Cell, nums: seq<real>): Option<real>
    requires nums != []
  {
    var first := FirstPass(c);
    if first.None? && Reread(c).Some? then Some(NumericWeight(Reread(c).value, nums)) else first
  }

  /** The weight a cell has after the first pass and, when the table holds
      a number, the numeric pass; None is a cell still open (NaN). */
  function OpenWeight(c: Cell, nums: seq<real>): Option<real>
  {
    if nums == [] then FirstPass(c) else SecondPass(c, nums)
  }

  /** Third pass: whatever is still open becomes 0.2. */
  function FinalWeight(c: Cell, nums: seq<real>): (w: real)
    ensures 0.0 <= w <= 1.0
  {
    var w := OpenWeight(c, nums);
    if w.Some? then w.value else 0.2
  }

  // ---------------------------------------------------------------- the passes, row by row

  function FirstPasses(row: seq<Cell>): (r: seq<Option<real>>)
    ensures |r| == |row|
  {
    if row == [] then [] else FirstPasses(row[..|row| - 1]) + [FirstPass(row[|row| - 1])]
  }

  function SecondPasses(row: seq<Cell>, nums: seq<real>): (r: seq<Option<real>>)
    requires nums != []
    ensures |r| == |row|
  {
    if row == [] then [] else SecondPasses(row[..|row| - 1], nums) + [SecondPass(row[|row| - 1], nums)]
  }

  function OpenRow(row: seq<Cell>, nums: seq<real>): (r: seq<Option<real>>)
    ensures |r| == |row|
  {
    if nums == [] then FirstPasses(row) else SecondPasses(row, nums)
  }

  function FinalRow(row: seq<Cell>, nums: seq<real>): (r: seq<real>)
    ensures |r| == |row|
  {
    if row == [] then [] else FinalRow(row[..|row| - 1], nums) + [FinalWeight(row[|row| - 1], nums)]
  }

  // ---------------------------------------------------------------- the passes, table by table

  function FirstPassGrid(values: seq<seq<Cell>>): (g: seq<seq<Option<real>>>)
    ensures |g| == |values|
  {
    if values == [] then [] else FirstPassGrid(values[..|values| - 1]) + [FirstPasses(values[|values| - 1])]
  }

  function SecondPassGrid(values: seq<seq<Cell>>, nums: seq<real>): (g: seq<seq<Option<real>>>)
    requires nums != []
    ensures |g| == |values|
  {
    if values == [] then [] else SecondPassGrid(values[..|values| - 1], nums) + [SecondPasses(values[|values| - 1], nums)]
  }

  function OpenGrid(values: seq<seq<Cell>>, nums: seq<real>): (g: seq<seq<Option<real>>>)
    ensures |g| == |values|
  {
    if nums == [] then FirstPassGrid(values) else SecondPassGrid(values, nums)
  }

  function FinalGrid(values: seq<seq<Cell>>, nums: seq<real>): (g: seq<seq<real>>)
    ensures |g| == |values|
    ensures forall i :: 0 <= i < |values| ==> |g[i]| == |values[i]|
  {
    if values == [] then [] else FinalGrid(values[..|values| - 1], nums) + [FinalRow(values[|values| - 1], nums)]
  }

  /** The weight grid `normalizeMatrix` returns for a table. */
  function WeightGrid(values: seq<seq<Cell>>): (g: seq<seq<real>>)
    ensures |g| == |values|
    ensures forall i :: 0 <= i < |values| ==> |g[i]| == |values[i]|
  {
    FinalGrid(values, NumericValues(values))
  }

  /** One more cell of a row: its number, if any, and its weights after each pass are appended. */
  lemma RowNumbersStep(row: seq<Cell>, j: int)
    requires 0 <= j < |row|
    ensures RowNumbers(row[..j + 1]) == RowNumbers(row[..j]) + NumbersOf(row[j])
  {
    assert row[..j + 1][..j] == row[..j];
  }

  lemma FirstPassesStep(row: seq<Cell>, j: int)
    requires 0 <= j < |row|
    ensures FirstPasses(row[..j + 1]) == FirstPasses(row[..j]) + [FirstPass(row[j])]
  {
    assert row[..j + 1][..j] == row[..j];
  }

  lemma SecondPassesStep(row: seq<Cell>, j: int, nums: seq<real>)
    requires 0 <= j < |row| && nums != []
    ensures SecondPasses(row[..j + 1], nums) == SecondPasses(row[..j], nums) + [SecondPass(row[j], nums)]
  {
    assert row[..j + 1][..j] == row[..j];
  }

  lemma FinalRowStep(row: seq<Cell>, j: int, nums: seq<real>)
    requires 0 <= j < |row|
    ensures FinalRow(row[..j + 1], nums) == FinalRow(row[..j], nums) + [FinalWeight(row[j], nums)]
  {
    assert row[..j + 1][..j] == row[..j];
  }

  lemma {:induction false} FirstPassesAt(row: seq<Cell>, l: int)
    requires 0 <= l < |row|
    ensures FirstPasses(row)[l] == FirstPass(row[l])
  {
    if l < |row| - 1 {
      FirstPassesAt(row[..|row| - 1], l);
    }
  }

  lemma {:induction false} SecondPassesAt(row: seq<Cell>, nums: seq<real>, l: int)
    requires nums != [] && 0 <= l < |row|
    ensures SecondPasses(row, nums)[l] == SecondPass(row[l], nums)
  {
    if l < |row| - 1 {
      SecondPassesAt(row[..|row| - 1], nums, l);
    }
  }

  lemma {:induction false} FinalRowAt(row: seq<Cell>, nums: seq<real>, l: int)
    requires 0 <= l < |row|
    ensures FinalRow(row, nums)[l] == FinalWeight(row[l], nums)
  {
    if l < |row| - 1 {
      FinalRowAt(row[..|row| - 1], nums, l);
    }
  }

  lemma OpenRowAt(row: seq<Cell>, nums: seq<real>, l: int)
    requires 0 <= l < |row|
    ensures OpenRow(row, nums)[l] == OpenWeight(row[l], nums)
  {
    if nums == [] {
      FirstPassesAt(row, l);
    } else {
      SecondPassesAt(row, nums, l);
    }
  }

  lemma NumericValuesStep(values: seq<seq<Cell>>, i: int)
    requires 0 <= i < |values|
    ensures NumericValues(values[..i + 1]) == NumericValues(values[..i]) + RowNumbers(values[i])
  {
    assert values[..i + 1][..i] == values[..i];
  }

  lemma FirstPassGridStep(values: seq<seq<Cell>>, i: int)
    requires 0 <= i < |values|
    ensures FirstPassGrid(values[..i + 1]) == FirstPassGrid(values[..i]) + [FirstPasses(values[i])]
  {
    assert values[..i + 1][..i] == values[..i];
  }

  lemma SecondPassGridStep(values: seq<seq<Cell>>, i: int, nums: seq<real>)
    requires 0 <= i < |values| && nums != []
    ensures SecondPassGrid(values[..i + 1], nums) == SecondPassGrid(values[..i], nums) + [SecondPasses(values[i], nums)]
  {
    assert values[..i + 1][..i] == values[..i];
  }

  lemma FinalGridStep(values: seq<seq<Cell>>, i: int, nums: seq<real>)
    requires 0 <= i < |values|
    ensures FinalGrid(values[..i + 1], nums) == FinalGrid(values[..i], nums) + [FinalRow(values[i], nums)]
  {
    assert values[..i + 1][..i] == values[..i];
  }

  lemma {:induction false} FirstPassGridAt(values: seq<seq<Cell>>, i: int)
    requires 0 <= i < |values|
    ensures FirstPassGrid(values)[i] == FirstPasses(values[i])
  {
    if i < |values| - 1 {
      FirstPassGridAt(values[..|values| - 1], i);
    }
  }

  lemma {:induction false} SecondPassGridAt(values: seq<seq<Cell>>, nums: seq<real>, i: int)
    requires nums != [] && 0 <= i < |values|
    ensures SecondPassGrid(values, nums)[i] == SecondPasses(values[i], nums)
  {
    if i < |values| - 1 {
      SecondPassGridAt(values[..|values| - 1], nums, i);
    }
  }

  lemma {:induction false} FinalGridAt(values: seq<seq<Cell>>, nums: seq<real>, i: int)
    requires 0 <= i < |values|
    ensures FinalGrid(values, nums)[i] == FinalRow(values[i], nums)
  {
    if i < |values| - 1 {
      FinalGridAt(values[..|values| - 1], nums, i);
    }
  }

  lemma OpenGridAt(values: seq<seq<Cell>>, nums: seq<real>, i: int)
    requires 0 <= i < |values|
    ensures OpenGrid(values, nums)[i] == OpenRow(values[i], nums)
  {
    if nums == [] {
      FirstPassGridAt(values, i);
    } else {
      SecondPassGridAt(values, nums, i);
    }
  }

  /** A cell of the grid is the cell's final weight. */
  lemma WeightGridAt(values: seq<seq<Cell>>, i: int, j: int)
    requires 0 <= i < |values| && 0 <= j < |values[i]|
    ensures WeightGrid(values)[i][j] == FinalWeight(values[i][j], NumericValues(values))
  {
    FinalGridAt(values, NumericValues(values), i);
    FinalRowAt(values[i], NumericValues(values), j);
  }

  // ---------------------------------------------------------------- normalizeMatrix

  /** The first pass over one row: its numbers, and its cells' first-pass weights. */
  method FirstPassRow(row: seq<Cell>) returns (nums: seq<real>, ws: seq<Option<real>>)
    ensures nums == RowNumbers(row)
    ensures ws == FirstPasses(row)
  {
    nums, ws := [], [];
    var j := 0;
    while j < |row|
      invariant 0 <= j <= |row|
      invariant nums == RowNumbers(row[..j])
      invariant ws == FirstPasses(row[..j])
    {
      RowNumbersStep(row, j);
      FirstPassesStep(row, j);
      match row[j] {
        case Num(x) =>
          assert NumbersOf(row[j]) == [x];
          nums := nums + [x];
          ws := ws + [None];
        case Text(t) =>
          var s := Trim(t);
          var num := ParseNum(s);
          assert CellNumber(row[j]) == num;
          if num.Some? {
            assert NumbersOf(row[j]) == [num.value];
            nums := nums + [num.value];
            ws := ws + [None];
          } else {
            assert NumbersOf(row[j]) == [];
            ws := ws + [CategoricalWeight(ToLower(s))];
          }
      }
      j := j + 1;
    }
    assert row[..j] == row;
  }

  /** Writing cell j's second-pass weight extends the finished prefix by one. */
  lemma SecondPassesUpdate(row: seq<Cell>, ws: seq<Option<real>>, nums: seq<real>, before: seq<Option<real>>, out: seq<Option<real>>, j: int)
    requires nums != [] && 0 <= j < |row| && |before| == |row| == |ws|
    requires before[..j] == SecondPasses(row[..j], nums) && before[j..] == ws[j..]
    requires out == before[j := SecondPass(row[j], nums)]
    ensures out[..j + 1] == SecondPasses(row[..j + 1], nums) && out[j + 1..] == ws[j + 1..]
  {
    SecondPassesStep(row, j, nums);
    assert out[..j] == before[..j];
    assert out[..j + 1] == out[..j] + [out[j]];
    assert out[j + 1..] == before[j + 1..];
    assert before[j + 1..] == ws[j..][1..];
  }

  /** One cell of the numeric pass: an open cell holding a number gets that
      number's weight, every other cell keeps its first-pass weight. */
  lemma NumericPassStep(row: seq<Cell>, ws: seq<Option<real>>, nums: seq<real>, min: real, max: real, scale: Scale, denom: real, before: seq<Option<real>>, after: seq<Option<real>>, j: int)
    requires nums != [] && ws == FirstPasses(row)
    requires min == SeqMin(nums) && max == SeqMax(nums)
    requires scale == ScaleOf(min, max) && denom == Denominator(scale, min, max)
    requires 0 <= j < |row| && |before| == |row|
    requires before[..j] == SecondPasses(row[..j], nums) && before[j..] == ws[j..]
    requires before[j].None? && Reread(row[j]).Some? ==>
      after == before[j := Some(Clamp01(Normalized(Reread(row[j]).value, min, scale, denom)))]
    requires !(before[j].None? && Reread(row[j]).Some?) ==> after == before
    ensures after[..j + 1] == SecondPasses(row[..j + 1], nums) && after[j + 1..] == ws[j + 1..]
  {
    FirstPassesAt(row, j);
    assert before[j] == ws[j];
    if before[j].None? && Reread(row[j]).Some? {
      SecondPassOpen(row[j], nums);
    } else {
      SecondPassKept(row[j], nums);
      assert after == before[j := SecondPass(row[j], nums)];
    }
    SecondPassesUpdate(row, ws, nums, before, after, j);
  }

  lemma SecondPassOpen(c: Cell, nums: seq<real>)
    requires nums != [] && FirstPass(c).None? && Reread(c).Some?
    ensures SecondPass(c, nums) == Some(NumericWeight(Reread(c).value, nums))
  {
  }

  lemma SecondPassKept(c: Cell, nums: seq<real>)
    requires nums != [] && !(FirstPass(c).None? && Reread(c).Some?)
    ensures SecondPass(c, nums) == FirstPass(c)
  {
  }

  /** The numeric pass over one row, in place: every open cell that reads as
      a number is put on the scale given by the table's smallest and largest
      number. */
  method NumericPassRow(row: seq<Cell>, ws: seq<Option<real>>, nums: seq<real>, min: real, max: real, scale: Scale, denom: real)
    returns (out: seq<Option<real>>)
    requires nums != [] && ws == FirstPasses(row)
    requires min == SeqMin(nums) && max == SeqMax(nums)
    requires scale == ScaleOf(min, max) && denom == Denominator(scale, min, max)
    ensures out == SecondPasses(row, nums)
  {
    out := ws;
    var j := 0;
    while j < |row|
      invariant 0 <= j <= |row|
      invariant |out| == |row|
      invariant out[..j] == SecondPasses(row[..j], nums)
      invariant out[j..] == ws[j..]
    {
      ghost var before := out;
      if out[j].None? {
        var v := Reread(row[j]);
        if v.Some? {
          var normalized := Normalized(v.value, min, scale, denom);
          out := out[j := Some(Clamp01(normalized))];
        }
      }
      NumericPassStep(row, ws, nums, min, max, scale, denom, before, out, j);
      j := j + 1;
    }
    assert row[..j] == row;
    assert out[..j] == out;
  }

  /** The last pass over one row: an open cell becomes 0.2. */
  method FillRow(row: seq<Cell>, ws: seq<Option<real>>, nums: seq<real>) returns (out: seq<real>)
    requires ws == OpenRow(row, nums)
    ensures out == FinalRow(row, nums)
  {
    out := [];
    var j := 0;
    while j < |ws|
      invariant 0 <= j <= |ws|
      invariant out == FinalRow(row[..j], nums)
    {
      FinalRowStep(row, j, nums);
      OpenRowAt(row, nums, j);
      out := out + [if ws[j].Some? then ws[j].value else 0.2];
      j := j + 1;
    }
    assert row[..j] == row;
  }

  /** The first pass over the table. */
  method FirstPassTable(values: seq<seq<Cell>>) returns (numericValues: seq<real>, weights: seq<seq<Option<real>>>)
    ensures numericValues == NumericValues(values)
    ensures weights == FirstPassGrid(values)
  {
    numericValues, weights := [], [];
    var i := 0;
    while i < |values|
      invariant 0 <= i <= |values|
      invariant numericValues == NumericValues(values[..i])
      invariant weights == FirstPassGrid(values[..i])
    {
      NumericValuesStep(values, i);
      FirstPassGridStep(values, i);
      var rowNums, row := FirstPassRow(values[i]);
      numericValues := numericValues + rowNums;
      weights := weights + [row];
      i := i + 1;
    }
    assert values[..i] == values;
  }

  /** The numeric pass over the table, row by row in place. */
  method NumericPassTable(values: seq<seq<Cell>>, weights: seq<seq<Option<real>>>, nums: seq<real>, min: real, max: real, scale: Scale, denom: real)
    returns (out: seq<seq<Option<real>>>)
    requires nums != [] && weights == FirstPassGrid(values)
    requires min == SeqMin(nums) && max == SeqMax(nums)
    requires scale == ScaleOf(min, max) && denom == Denominator(scale, min, max)
    ensures out == SecondPassGrid(values, nums)
  {
    out := weights;
    var i := 0;
    while i < |values|
      invariant 0 <= i <= |values|
      invariant |out| == |values|
      invariant out[..i] == SecondPassGrid(values[..i], nums)
      invariant out[i..] == weights[i..]
    {
      SecondPassGridStep(values, i, nums);
      FirstPassGridAt(values, i);
      assert out[i] == weights[i];
      var before := out;
      var row := NumericPassRow(values[i], out[i], nums, min, max, scale, denom);
      out := out[i := row];
      assert out[..i] == before[..i];
      assert out[..i + 1] == out[..i] + [out[i]];
      assert out[i + 1..] == before[i + 1..];
      assert before[i + 1..] == weights[i..][1..];
      i := i + 1;
    }
    assert values[..i] == values;
    assert out[..i] == out;
  }

  /** The last pass over the table. */
  method FillTable(values: seq<seq<Cell>>, weights: seq<seq<Option<real>>>, nums: seq<real>) returns (out: seq<seq<real>>)
    requires weights == OpenGrid(values, nums)
    ensures out == FinalGrid(values, nums)
  {
    out := [];
    var i := 0;
    while i < |values|
      invariant 0 <= i <= |values|
      invariant out == FinalGrid(values[..i], nums)
    {
      FinalGridStep(values, i, nums);
      OpenGridAt(values, nums, i);
      var row := FillRow(values[i], weights[i], nums);
      out := out + [row];
      i := i + 1;
    }
    assert values[..i] == values;
  }

  /** `normalizeMatrix`: a first pass that collects the numbers and resolves
      categorical words, a numeric pass over the still-open cells once the
      scale is known, and a pass that sets every cell still open to 0.2. */
  method NormalizeMatrix(personas: seq<string>, needs: seq<string>, values: seq<seq<Cell>>) returns (m: NormalizedMatrix)
    ensures m.personas == personas && m.needs == needs
    ensures m.weights == WeightGrid(values)
    ensures m.scale == DetectScale(NumericValues(values))
  {
    var numericValues, weights := FirstPassTable(values);
    var scale := Unknown;
    if |numericValues| > 0 {
      var min, max := SeqMin(numericValues), SeqMax(numericValues);
      scale := ScaleOf(min, max);
      var denom := Denominator(scale, min, max);
      weights := NumericPassTable(values, weights, numericValues, min, max, scale, denom);
    }
    var result := FillTable(values, weights, numericValues);
    if |numericValues| == 0 {
      scale := Categorical;
    }
    m := NormalizedMatrix(personas, needs, result, scale);
  }

  // ---------------------------------------------------------------- what the weights mean

  /** A number found in a cell is among the table's numbers. */
  lemma {:induction false} RowNumberListed(row: seq<Cell>, j: int)
    requires 0 <= j < |row| && CellNumber(row[j]).Some?
    ensures CellNumber(row[j]).value in RowNumbers(row)
  {
    if j < |row| - 1 {
      RowNumberListed(row[..|row| - 1], j);
    }
  }

  lemma {:induction false} TableNumberListed(values: seq<seq<Cell>>, i: int, j: int)
    requires 0 <= i < |values| && 0 <= j < |values[i]| && CellNumber(values[i][j]).Some?
    ensures CellNumber(values[i][j]).value in NumericValues(values)
  {
    if i < |values| - 1 {
      TableNumberListed(values[..|values| - 1], i, j);
    } else {
      RowNumberListed(values[i], j);
    }
  }

  /** The weight of one cell of a normalised table: a cell that reads as a
      number (a number, or text with a number in it) is put on the table's
      scale; otherwise a categorical word gets its table value, and anything
      else 0.2. A categorical weight is never overwritten by the numeric pass. */
  lemma CellWeight(values: seq<seq<Cell>>, i: int, j: int)
    requires 0 <= i < |values| && 0 <= j < |values[i]|
    ensures var c, nums, w := values[i][j], NumericValues(values), WeightGrid(values)[i][j];
      && (CellNumber(c).Some? ==> nums != [] && w == NumericWeight(CellNumber(c).value, nums))
      && (CellNumber(c).None? && CategoricalWeight(ToLower(Trim(c.text))).Some? ==> w == CategoricalWeight(ToLower(Trim(c.text))).value)
      && (CellNumber(c).None? && CategoricalWeight(ToLower(Trim(c.text))).None? ==> w == 0.2)
  {
    var c, nums := values[i][j], NumericValues(values);
    WeightGridAt(values, i, j);
    if CellNumber(c).Some? {
      TableNumberListed(values, i, j);
      if c.Text? {
        ParseNumTrim(c.text);
      }
    } else if nums != [] {
      ParseNumTrim(c.text);
    }
  }

  /** Every weight of a normalised table lies in [0, 1], and the grid has
      the table's shape. */
  lemma WeightsInUnitInterval(values: seq<seq<Cell>>)
    ensures |WeightGrid(values)| == |values|
    ensures forall i, j :: 0 <= i < |values| && 0 <= j < |values[i]| ==> |WeightGrid(values)[i]| == |values[i]| && 0.0 <= WeightGrid(values)[i][j] <= 1.0
  {
    forall i, j | 0 <= i < |values| && 0 <= j < |values[i]|
      ensures 0.0 <= WeightGrid(values)[i][j] <= 1.0
    {
      WeightGridAt(values, i, j);
    }
  }

  /** The denominator is positive whenever the largest number is not negative. */
  lemma DenominatorPositive(scale: Scale, min: real, max: real)
    requires min <= max && 0.0 <= max
    ensures Denominator(scale, min, max) > 0.0
  {
  }

  /** A larger number never gets a smaller weight, unless every number of
      the table is negative (the denominator is then negative too). */
  lemma NumericWeightMonotone(v1: real, v2: real, nums: seq<real>)
    requires nums != [] && v1 <= v2 && 0.0 <= SeqMax(nums)
    ensures NumericWeight(v1, nums) <= NumericWeight(v2, nums)
  {
    var min, max := SeqMin(nums), SeqMax(nums);
    var scale := ScaleOf(min, max);
    assert min <= max by {
      assert min <= nums[0] <= max;
    }
    var d := Denominator(scale, min, max);
    DenominatorPositive(scale, min, max);
    if scale != Percentage {
      var a := RealMax(0.0, min);
      assert (v1 - a) / d <= (v2 - a) / d by {
        assert v1 - a <= v2 - a;
        DivideMonotone(v1 - a, v2 - a, d);
      }
    } else {
      DivideMonotone(v1, v2, 100.0);
    }
  }

  lemma DivideMonotone(x: real, y: real, d: real)
    requires x <= y && d > 0.0
    ensures x / d <= y / d
  {
    assert y / d - x / d == (y - x) / d;
  }

  /** On a table of non-negative numbers that is not a percentage table and
      does not hold a single value, the largest number weighs 1 and the
      smallest 0. */
  lemma NumericWeightExtremes(nums: seq<real>)
    requires nums != [] && 0.0 <= SeqMin(nums) < SeqMax(nums)
    requires ScaleOf(SeqMin(nums), SeqMax(nums)) != Percentage
    ensures NumericWeight(SeqMax(nums), nums) == 1.0
    ensures NumericWeight(SeqMin(nums), nums) == 0.0
  {
    ScaledExtremes(SeqMin(nums), SeqMax(nums));
  }

  lemma ScaledExtremes(min: real, max: real)
    requires 0.0 <= min < max && ScaleOf(min, max) != Percentage
    ensures var d := Denominator(ScaleOf(min, max), min, max);
      Clamp01((max - RealMax(0.0, min)) / d) == 1.0 && Clamp01((min - RealMax(0.0, min)) / d) == 0.0
  {
    var d := Denominator(ScaleOf(min, max), min, max);
    assert d == max - min;
    assert (max - min) / d == 1.0;
  }

  /** On a percentage table, a number of the table weighs a hundredth of itself. */
  lemma PercentageWeight(nums: seq<real>, k: int)
    requires 0 <= k < |nums| && ScaleOf(SeqMin(nums), SeqMax(nums)) == Percentage
    ensures NumericWeight(nums[k], nums) == nums[k] / 100.0
  {
    assert 0.0 <= SeqMin(nums) <= nums[k] <= SeqMax(nums) <= 100.0;
  }

  /** With numbers all below zero the order is reversed and then clamped:
      -1 weighs 1 in the table [-5, -1]. */
  lemma NegativeTableExample()
    ensures NumericWeight(-1.0, [-5.0, -1.0]) == 1.0
    ensures NumericWeight(-5.0, [-5.0, -1.0]) == 1.0
  {
    assert SeqMin([-5.0, -1.0]) == -5.0 && SeqMax([-5.0, -1.0]) == -1.0;
  }

  // ---------------------------------------------------------------- inferDriverWeights

  /** The shares of a cell's cost taken from development, go-to-market and regulatory cost. */
  datatype Drivers = Drivers(dev: real, gtm: real, regulatory: real)

  /** The alternatives of the three keyword patterns; `scal(ing|ability)` is written out. */
  const RegulatoryWords: seq<string> := ["regulat", "compliance", "approval", "certif", "fda", "epa", "hipaa", "gdpr"]
  const MarketWords: seq<string> := ["market", "sales", "pricing", "acquisition", "demand", "distribution", "channel", "brand", "marketing"]
  const TechWords: seq<string> := ["tech", "product", "prototype", "mvp", "build", "engineering", "performance", "scaling", "scalability", "feature"]

  /** `inferDriverWeights`: regulatory keywords first, then market, then
      technology, else a balanced default; the shares always add up to 1. */
  function InferDriverWeights(needLabel: string): (d: Drivers)
    ensures d.dev + d.gtm + d.regulatory == 1.0
    ensures 0.0 < d.dev && 0.0 < d.gtm && 0.0 < d.regulatory
  {
    DriversFrom(ToLower(needLabel), [RegulatoryFamily, MarketFamily, TechFamily])
  }

  datatype Family = RegulatoryFamily | MarketFamily | TechFamily

  function Keywords(f: Family): seq<string>
  {
    match f
    case RegulatoryFamily => RegulatoryWords
    case MarketFamily => MarketWords
    case TechFamily => TechWords
  }

  function Share(f: Family): Drivers
  {
    match f
    case RegulatoryFamily => Drivers(0.2, 0.1, 0.7)
    case MarketFamily => Drivers(0.2, 0.7, 0.1)
    case TechFamily => Drivers(0.7, 0.2, 0.1)
  }

  function DriversFrom(s: string, fams: seq<Family>): (d: Drivers)
    ensures d.dev + d.gtm + d.regulatory == 1.0
    ensures 0.0 < d.dev && 0.0 < d.gtm && 0.0 < d.regulatory
  {
    if fams == [] then Drivers(0.5, 0.4, 0.1)
    else if ContainsAny(s, Keywords(fams[0])) then Share(fams[0])
    else DriversFrom(s, fams[1..])
  }

  /** The keyword families are tried in priority order, and the family that
      matches first takes the 0.7 share; with no keyword development leads
      with 0.5. */
  lemma DriverPriority(needLabel: string)
    ensures var s, d := ToLower(needLabel), InferDriverWeights(needLabel);
      && (d.regulatory == 0.7 <==> ContainsAny(s, RegulatoryWords))
      && (d.gtm == 0.7 <==> !ContainsAny(s, RegulatoryWords) && ContainsAny(s, MarketWords))
      && (d.dev == 0.7 <==> !ContainsAny(s, RegulatoryWords) && !ContainsAny(s, MarketWords) && ContainsAny(s, TechWords))
      && (d.dev == 0.5 <==> !ContainsAny(s, RegulatoryWords) && !ContainsAny(s, MarketWords) && !ContainsAny(s, TechWords))
  {
    var s := ToLower(needLabel);
    assert [RegulatoryFamily, MarketFamily, TechFamily][1..] == [MarketFamily, TechFamily];
    assert [MarketFamily, TechFamily][1..] == [TechFamily];
    assert [TechFamily][1..] == [];
    assert DriversFrom(s, [RegulatoryFamily, MarketFamily, TechFamily])
      == if ContainsAny(s, RegulatoryWords) then Drivers(0.2, 0.1, 0.7) else DriversFrom(s, [MarketFamily, TechFamily]);
    assert DriversFrom(s, [MarketFamily, TechFamily])
      == if ContainsAny(s, MarketWords) then Drivers(0.2, 0.7, 0.1) else DriversFrom(s, [TechFamily]);
    assert DriversFrom(s, [TechFamily])
      == if ContainsAny(s, TechWords) then Drivers(0.7, 0.2, 0.1) else Drivers(0.5, 0.4, 0.1);
  }

  /** The needLabel's case does not matter. */
  lemma DriversIgnoreCase(needLabel: string)
    ensures InferDriverWeights(ToLower(needLabel)) == InferDriverWeights(needLabel)
  {
    ToLowerIdempotent(needLabel);
  }

  /** "marketing" can never be the alternative that decides: "market" is in it. */
  lemma MarketingImpliesMarket(s: string)
    requires Contains(s, "marketing")
    ensures Contains(s, "market")
  {
    assert MatchesAt("marketing", "market", 0);
    ContainsTransitive(s, "marketing", "market");
  }

  /** The keywords match inside words: "epa" in "repair" makes a repair
      need regulatory-heavy. */
  lemma RepairIsRegulatory()
    ensures InferDriverWeights("Repair") == Drivers(0.2, 0.1, 0.7)
  {
    var s := ToLower("Repair");
    assert s[1] == 'e' && s[2] == 'p' && s[3] == 'a';
    assert s[1..4] == RegulatoryWords[5];
    assert MatchesAt(s, RegulatoryWords[5], 1);
  }

  // ---------------------------------------------------------------- estimateCellCost

  /** The scenario a cell's cost is taken from: the one named Realistic,
      else the second one; None where JavaScript would read a property of
      undefined. */
  function RealisticOf(scenarios: seq<Scenario>): Option<Scenario>
  {
    var k := FindRealistic(scenarios);
    if k < |scenarios| then Some(scenarios[k])
    else if |scenarios| > 1 then Some(scenarios[1])
    else None
  }

  /** The scenario picked is one of the results, it is the Realistic one
      whenever there is one, and there is none only when the results have
      no Realistic scenario and fewer than two scenarios. */
  lemma RealisticChoice(scenarios: seq<Scenario>)
    ensures RealisticOf(scenarios).None? <==> (forall k :: 0 <= k < |scenarios| ==> scenarios[k].name != Realistic) && |scenarios| < 2
    ensures RealisticOf(scenarios).Some? ==> RealisticOf(scenarios).value in scenarios
    ensures (exists k :: 0 <= k < |scenarios| && scenarios[k].name == Realistic) ==> RealisticOf(scenarios).Some? && RealisticOf(scenarios).value.name == Realistic
    ensures RealisticOf(scenarios).Some? && RealisticOf(scenarios).value.name != Realistic ==> scenarios[1] == RealisticOf(scenarios).value
  {
  }

  /** The cost a weight of 1 would give: the driver shares of the scenario's
      development, first-year go-to-market and regulatory costs. */
  function CostBase(realistic: Scenario, d: Drivers): real
  {
    realistic.breakdown.development * d.dev + realistic.breakdown.gtmYear1 * d.gtm + realistic.breakdown.regulatory * d.regulatory
  }

  function CellCostValue(realistic: Scenario, needLabel: string, w: real): int
  {
    Round(CostBase(realistic, InferDriverWeights(needLabel)) * w)
  }

  /** `estimateCellCost`. */
  function EstimateCellCost(results: CalculationResults, needLabel: string, w: real): (r: Result<int>)
    ensures r.Failure? <==> RealisticOf(results.scenarios).None?
    ensures r.Success? ==> r.value == CellCostValue(RealisticOf(results.scenarios).value, needLabel, w)
  {
    match RealisticOf(results.scenarios)
    case None => Failure("no Realistic scenario and fewer than two scenarios")
    case Some(realistic) => Success(CellCostValue(realistic, needLabel, w))
  }

  /** With a non-negative breakdown and a weight in [0, 1], a cell costs
      between 0 and the rounded base; a weight of 0 costs nothing. */
  lemma CellCostBounds(realistic: Scenario, needLabel: string, w: real)
    requires 0.0 <= w <= 1.0
    requires 0.0 <= realistic.breakdown.development && 0.0 <= realistic.breakdown.gtmYear1 && 0.0 <= realistic.breakdown.regulatory
    ensures 0 <= CellCostValue(realistic, needLabel, w) <= Round(CostBase(realistic, InferDriverWeights(needLabel)))
    ensures w == 0.0 ==> CellCostValue(realistic, needLabel, w) == 0
  {
    var d := InferDriverWeights(needLabel);
    var b := realistic.breakdown;
    var base := CostBase(realistic, d);
    assert 0.0 <= b.development * d.dev;
    assert 0.0 <= b.gtmYear1 * d.gtm;
    assert 0.0 <= b.regulatory * d.regulatory;
    assert 0.0 <= base * w <= base by {
      assert base * w <= base * 1.0;
    }
    RoundMonotone(0.0, base * w);
    RoundMonotone(base * w, base);
    RoundWhole(0);
  }

  /** A larger weight never gives a smaller cost. */
  lemma CellCostMonotone(realistic: Scenario, needLabel: string, w1: real, w2: real)
    requires w1 <= w2
    requires 0.0 <= realistic.breakdown.development && 0.0 <= realistic.breakdown.gtmYear1 && 0.0 <= realistic.breakdown.regulatory
    ensures CellCostValue(realistic, needLabel, w1) <= CellCostValue(realistic, needLabel, w2)
  {
    var d := InferDriverWeights(needLabel);
    var b := realistic.breakdown;
    var base := CostBase(realistic, d);
    assert 0.0 <= b.development * d.dev;
    assert 0.0 <= b.gtmYear1 * d.gtm;
    assert 0.0 <= b.regulatory * d.regulatory;
    assert base * w1 <= base * w2;
    RoundMonotone(base * w1, base * w2);
  }

  // ---------------------------------------------------------------- aggregateCosts

  datatype Aggregates = Aggregates(perPersona: map<string, int>, perNeed: map<string, int>)

  /** One cell's cost, with its persona and need labels. */
  datatype CellCost = CellCost(persona: string, need: string, cost: int)

  datatype Side = ByPersona | ByNeed

  function KeyOf(c: CellCost, side: Side): string
  {
    match side
    case ByPersona => c.persona
    case ByNeed => c.need
  }

  /** `weights[i]?.[j] ?? 0`. */
  function WeightAt(weights: seq<seq<real>>, i: int, j: int): real
  {
    if 0 <= i < |weights| && 0 <= j < |weights[i]| then weights[i][j] else 0.0
  }

  function CellAt(realistic: Scenario, m: NormalizedMatrix, i: int, j: int): CellCost
    requires 0 <= i < |m.personas| && 0 <= j < |m.needs|
  {
    CellCost(m.personas[i], m.needs[j], CellCostValue(realistic, m.needs[j], WeightAt(m.weights, i, j)))
  }

  /** The matrix's cells, one row per persona and one cell per need. */
  function CostGrid(realistic: Scenario, m: NormalizedMatrix): (g: seq<seq<CellCost>>)
    ensures |g| == |m.personas|
    ensures forall i :: 0 <= i < |g| ==> |g[i]| == |m.needs|
  {
    seq(|m.personas|, i requires 0 <= i < |m.personas| => seq(|m.needs|, j requires 0 <= j < |m.needs| => CellAt(realistic, m, i, j)))
  }

  lemma CostGridAt(realistic: Scenario, m: NormalizedMatrix, i: int, j: int)
    requires 0 <= i < |m.personas| && 0 <= j < |m.needs|
    ensures CostGrid(realistic, m)[i][j] == CellAt(realistic, m, i, j)
  {
  }

  /** The rows' cells, row after row. */
  function Flatten(rows: seq<seq<CellCost>>): seq<CellCost>
  {
    if rows == [] then [] else Flatten(rows[..|rows| - 1]) + rows[|rows| - 1]
  }

  /** Every cell of the matrix, persona by persona; none where no scenario can be picked. */
  function AllCells(results: CalculationResults, m: NormalizedMatrix): seq<CellCost>
  {
    match RealisticOf(results.scenarios)
    case None => []
    case Some(realistic) => Flatten(CostGrid(realistic, m))
  }

  /** `(map[k] || 0) + v`. */
  function AddTo(totals: map<string, int>, k: string, v: int): (r: map<string, int>)
    ensures r.Keys == totals.Keys + {k}
  {
    totals[k := (if k in totals then totals[k] else 0) + v]
  }

  /** The running totals a sequence of cells leaves, by persona or by need. */
  function Totals(cells: seq<CellCost>, side: Side): map<string, int>
  {
    if cells == [] then map[] else AddTo(Totals(cells[..|cells| - 1], side), KeyOf(cells[|cells| - 1], side), cells[|cells| - 1].cost)
  }

  function TotalsOf(cells: seq<CellCost>): Aggregates
  {
    Aggregates(Totals(cells, ByPersona), Totals(cells, ByNeed))
  }

  function SumCosts(cells: seq<CellCost>): int
  {
    if cells == [] then 0 else SumCosts(cells[..|cells| - 1]) + cells[|cells| - 1].cost
  }

  /** The summed cost of the cells with the given key. */
  function CostFor(cells: seq<CellCost>, side: Side, k: string): int
  {
    if cells == [] then 0
    else CostFor(cells[..|cells| - 1], side, k) + (if KeyOf(cells[|cells| - 1], side) == k then cells[|cells| - 1].cost else 0)
  }

  /** The sum of a map's values. */
  ghost function MapSum(m: map<string, int>): int
    decreases |m|
  {
    if m == map[] then 0
    else
      var k :| k in m;
      m[k] + MapSum(m - {k})
  }

  lemma TotalsStep(cells: seq<CellCost>, c: CellCost, side: Side)
    ensures Totals(cells + [c], side) == AddTo(Totals(cells, side), KeyOf(c, side), c.cost)
    ensures SumCosts(cells + [c]) == SumCosts(cells) + c.cost
    ensures forall k :: CostFor(cells + [c], side, k) == CostFor(cells, side, k) + (if KeyOf(c, side) == k then c.cost else 0)
  {
    assert (cells + [c])[..|cells|] == cells;
  }

  /** A map's sum, split at any of its keys. */
  lemma {:induction false} MapSumRemove(m: map<string, int>, k: string)
    requires k in m
    ensures MapSum(m) == m[k] + MapSum(m - {k})
    decreases |m|
  {
    var j :| j in m && MapSum(m) == m[j] + MapSum(m - {j});
    if j != k {
      assert |m - {j}| < |m| by {
        assert m.Keys - {j} < m.Keys;
      }
      assert |m - {k}| < |m| by {
        assert m.Keys - {k} < m.Keys;
      }
      MapSumRemove(m - {j}, k);
      MapSumRemove(m - {k}, j);
      assert (m - {j}) - {k} == (m - {k}) - {j};
    }
  }

  /** Adding v to one key's total adds v to the sum of all totals. */
  lemma MapSumAddTo(totals: map<string, int>, k: string, v: int)
    ensures MapSum(AddTo(totals, k, v)) == MapSum(totals) + v
  {
    var r := AddTo(totals, k, v);
    MapSumRemove(r, k);
    assert r - {k} == totals - {k};
    if k in totals {
      MapSumRemove(totals, k);
    } else {
      assert totals - {k} == totals;
    }
  }

  /** Either side's totals add up to the sum of all the cells' costs. */
  lemma {:induction false} TotalsSum(cells: seq<CellCost>, side: Side)
    ensures MapSum(Totals(cells, side)) == SumCosts(cells)
  {
    if cells != [] {
      var init, c := cells[..|cells| - 1], cells[|cells| - 1];
      assert cells == init + [c];
      TotalsSum(init, side);
      TotalsStep(init, c, side);
      MapSumAddTo(Totals(init, side), KeyOf(c, side), c.cost);
    }
  }

  /** A label has a total exactly when some cell carries it, and its total
      is the summed cost of all the cells that carry it, however many
      rows or columns share the label. */
  lemma {:induction false} TotalsPerKey(cells: seq<CellCost>, side: Side, k: string)
    ensures k in Totals(cells, side) <==> exists n :: 0 <= n < |cells| && KeyOf(cells[n], side) == k
    ensures k in Totals(cells, side) ==> Totals(cells, side)[k] == CostFor(cells, side, k)
  {
    if cells != [] {
      var init, c := cells[..|cells| - 1], cells[|cells| - 1];
      assert cells == init + [c];
      TotalsPerKey(init, side, k);
      TotalsStep(init, c, side);
      if k !in Totals(init, side) && KeyOf(c, side) == k {
        assert CostFor(init, side, k) == 0 by {
          CostForAbsent(init, side, k);
        }
      }
      if exists n :: 0 <= n < |cells| && KeyOf(cells[n], side) == k {
        var n :| 0 <= n < |cells| && KeyOf(cells[n], side) == k;
        if n < |init| {
          assert KeyOf(init[n], side) == k;
        }
      }
    }
  }

  /** A label no cell carries costs nothing. */
  lemma {:induction false} CostForAbsent(cells: seq<CellCost>, side: Side, k: string)
    requires forall n :: 0 <= n < |cells| ==> KeyOf(cells[n], side) != k
    ensures CostFor(cells, side, k) == 0
  {
    if cells != [] {
      CostForAbsent(cells[..|cells| - 1], side, k);
    }
  }

  /** One step of the inner loop: the cell's cost is added to its persona's
      and its need's running totals. */
  function AddCellCost(a: Aggregates, c: CellCost): Aggregates
  {
    Aggregates(AddTo(a.perPersona, c.persona, c.cost), AddTo(a.perNeed, c.need, c.cost))
  }

  lemma TotalsOfStep(cells: seq<CellCost>, c: CellCost)
    ensures TotalsOf(cells + [c]) == AddCellCost(TotalsOf(cells), c)
  {
    TotalsStep(cells, c, ByPersona);
    TotalsStep(cells, c, ByNeed);
  }

  /** The running totals once the rows before i are done. */
  function GridPrefix(grid: seq<seq<CellCost>>, i: int): Aggregates
    requires 0 <= i <= |grid|
    decreases i, 0, 0
  {
    if i == 0 then Aggregates(map[], map[]) else RowPrefix(grid, i - 1, |grid[i - 1]|)
  }

  /** The running totals once the cells of row i before column j are done. */
  function RowPrefix(grid: seq<seq<CellCost>>, i: int, j: int): Aggregates
    requires 0 <= i < |grid| && 0 <= j <= |grid[i]|
    decreases i, 1, j
  {
    if j == 0 then GridPrefix(grid, i) else AddCellCost(RowPrefix(grid, i, j - 1), grid[i][j - 1])
  }

  /** The running totals are the per-persona and per-need totals of the cells visited so far. */
  lemma {:induction false} RowPrefixTotals(grid: seq<seq<CellCost>>, i: int, j: int)
    requires 0 <= i < |grid| && 0 <= j <= |grid[i]|
    ensures RowPrefix(grid, i, j) == TotalsOf(Flatten(grid[..i]) + grid[i][..j])
    decreases i, 1, j
  {
    if j == 0 {
      assert Flatten(grid[..i]) + grid[i][..0] == Flatten(grid[..i]);
      GridPrefixTotals(grid, i);
    } else {
      RowPrefixTotals(grid, i, j - 1);
      var done := Flatten(grid[..i]) + grid[i][..j - 1];
      assert Flatten(grid[..i]) + grid[i][..j] == done + [grid[i][j - 1]];
      TotalsOfStep(done, grid[i][j - 1]);
    }
  }

  lemma {:induction false} GridPrefixTotals(grid: seq<seq<CellCost>>, i: int)
    requires 0 <= i <= |grid|
    ensures GridPrefix(grid, i) == TotalsOf(Flatten(grid[..i]))
    decreases i, 0, 0
  {
    if i > 0 {
      RowPrefixTotals(grid, i - 1, |grid[i - 1]|);
      assert grid[..i][..i - 1] == grid[..i - 1];
      assert Flatten(grid[..i]) == Flatten(grid[..i - 1]) + grid[i - 1];
      assert grid[i - 1][..|grid[i - 1]|] == grid[i - 1];
    }
  }

  /** Visiting cell (i, j) adds its cost to its persona's and its need's totals. */
  lemma RowPrefixNext(realistic: Scenario, m: NormalizedMatrix, i: int, j: int, a: Aggregates, cost: int)
    requires 0 <= i < |m.personas| && 0 <= j < |m.needs|
    requires a == RowPrefix(CostGrid(realistic, m), i, j)
    requires cost == CellCostValue(realistic, m.needs[j], WeightAt(m.weights, i, j))
    ensures RowPrefix(CostGrid(realistic, m), i, j + 1)
      == Aggregates(AddTo(a.perPersona, m.personas[i], cost), AddTo(a.perNeed, m.needs[j], cost))
  {
    CostGridAt(realistic, m, i, j);
  }

  /** The totals of the cells of the first i rows; empty where no scenario
      can be picked. */
  function TotalsUpTo(results: CalculationResults, m: NormalizedMatrix, i: int): Aggregates
    requires 0 <= i <= |m.personas|
  {
    match RealisticOf(results.scenarios)
    case None => Aggregates(map[], map[])
    case Some(realistic) => GridPrefix(CostGrid(realistic, m), i)
  }

  /** One pass of the inner loop of `aggregateCosts`: the costs of row i are
      added to the running totals. */
  method AddRowCosts(results: CalculationResults, m: NormalizedMatrix, i: int, totals: Aggregates) returns (r: Result<Aggregates>)
    requires 0 <= i < |m.personas|
    requires totals == TotalsUpTo(results, m, i)
    ensures r.Failure? ==> RealisticOf(results.scenarios).None? && |m.needs| > 0
    ensures RealisticOf(results.scenarios).None? && |m.needs| > 0 ==> r.Failure?
    ensures r.Success? ==> r.value == TotalsUpTo(results, m, i + 1)
  {
    var perPersona, perNeed := totals.perPersona, totals.perNeed;
    ghost var found := RealisticOf(results.scenarios);
    var j := 0;
    while j < |m.needs|
      invariant 0 <= j <= |m.needs|
      invariant found.None? ==> j == 0 && perPersona == map[] && perNeed == map[]
      invariant found.Some? ==> Aggregates(perPersona, perNeed) == RowPrefix(CostGrid(found.value, m), i, j)
    {
      var cost := EstimateCellCost(results, m.needs[j], WeightAt(m.weights, i, j));
      if cost.Failure? {
        assert found.None?;
        return Failure(cost.error);
      }
      RowPrefixNext(found.value, m, i, j, Aggregates(perPersona, perNeed), cost.value);
      perPersona := AddTo(perPersona, m.personas[i], cost.value);
      perNeed := AddTo(perNeed, m.needs[j], cost.value);
      j := j + 1;
    }
    r := Success(Aggregates(perPersona, perNeed));
  }

  /** `aggregateCosts`: every cell's cost is added to its persona's and its
      need's running total; a failing cost estimate ends the computation. */
  method AggregateCosts(results: CalculationResults, m: NormalizedMatrix) returns (r: Result<Aggregates>)
    ensures r.Failure? <==> RealisticOf(results.scenarios).None? && |m.personas| > 0 && |m.needs| > 0
    ensures r.Success? ==> r.value == TotalsOf(AllCells(results, m))
  {
    var totals := Aggregates(map[], map[]);
    var i := 0;
    while i < |m.personas|
      invariant 0 <= i <= |m.personas|
      invariant totals == TotalsUpTo(results, m, i)
      invariant i > 0 && |m.needs| > 0 ==> RealisticOf(results.scenarios).Some?
    {
      var row := AddRowCosts(results, m, i, totals);
      if row.Failure? {
        return Failure(row.error);
      }
      totals := row.value;
      i := i + 1;
    }
    TotalsUpToAll(results, m);
    r := Success(totals);
  }

  /** Once every row is added, the running totals are those of all cells. */
  lemma TotalsUpToAll(results: CalculationResults, m: NormalizedMatrix)
    ensures TotalsUpTo(results, m, |m.personas|) == TotalsOf(AllCells(results, m))
  {
    if RealisticOf(results.scenarios).Some? {
      var grid := CostGrid(RealisticOf(results.scenarios).value, m);
      GridPrefixTotals(grid, |grid|);
      assert grid[..|grid|] == grid;
    }
  }

  /** A cell the weights do not reach counts with weight 0 and costs nothing. */
  lemma MissingWeightCostsNothing(realistic: Scenario, m: NormalizedMatrix, i: int, j: int)
    requires 0 <= i < |m.personas| && 0 <= j < |m.needs|
    requires i >= |m.weights| || j >= |m.weights[i]|
    ensures CellAt(realistic, m, i, j).cost == 0
  {
    var base := CostBase(realistic, InferDriverWeights(m.needs[j]));
    assert base * 0.0 == 0 as real;
    RoundWhole(0);
  }

  /** The per-persona totals and the per-need totals each add up to the sum
      of every cell's cost. */
  lemma AggregatesBalance(cells: seq<CellCost>)
    ensures MapSum(TotalsOf(cells).perPersona) == SumCosts(cells)
    ensures MapSum(TotalsOf(cells).perNeed) == SumCosts(cells)
  {
    TotalsSum(cells, ByPersona);
    TotalsSum(cells, ByNeed);
  }
}
