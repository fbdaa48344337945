/** The constants of the pipeline and the two-dimensional data matrix the strategist uses to
    compare the effective age of a building with the condition score of the inspection. */
module Config {

  /** The year effective ages are measured from. */
  const ReferenceYear: int := 2026

  /** Completeness thresholds of the photo set. */
  const MinTotalPhotos: int := 9
  const MinExteriorPhotos: int := 2
  const MinInteriorPhotos: int := 3

  /** Thresholds of the manipulation check. */
  const ManipulationScoreThreshold: real := 0.7
  const ConfidenceThreshold: real := 0.8

  /** The best possible condition score of the inspection. */
  const InspectorMaxScore: int := 30

  /** The matrix row keys, youngest first. */
  const AgeRows: seq<string> := ["0-5", "6-15", "16-30", "31-50", "51+"]

  /** The matrix column keys, lowest score first. */
  const ScoreColumns: seq<string> := ["0-7", "8-15", "16-21", "22-26", "27-30"]

  /** The three kinds of agreement a matrix cell records. */
  const Shoda: string := "shoda"
  const Varovani: string := "varovani"
  const Konflikt: string := "konflikt"

  /** The matrix: age row, then score column, gives (category, match type). */
  const DataMatrix: map<string, map<string, (int, string)>> := map[
    "0-5" := map[
      "27-30" := (1, "shoda"),
      "22-26" := (2, "varovani"),
      "16-21" := (3, "konflikt"),
      "8-15" := (4, "konflikt"),
      "0-7" := (5, "konflikt")],
    "6-15" := map[
      "27-30" := (1, "varovani"),
      "22-26" := (2, "shoda"),
      "16-21" := (3, "varovani"),
      "8-15" := (4, "konflikt"),
      "0-7" := (5, "konflikt")],
    "16-30" := map[
      "27-30" := (2, "konflikt"),
      "22-26" := (2, "varovani"),
      "16-21" := (3, "shoda"),
      "8-15" := (4, "varovani"),
      "0-7" := (5, "konflikt")],
    "31-50" := map[
      "27-30" := (2, "konflikt"),
      "22-26" := (3, "varovani"),
      "16-21" := (3, "varovani"),
      "8-15" := (4, "shoda"),
      "0-7" := (5, "shoda")],
    "51+" := map[
      "27-30" := (3, "konflikt"),
      "22-26" := (3, "konflikt"),
      "16-21" := (3, "varovani"),
      "8-15" := (4, "shoda"),
      "0-7" := (5, "shoda")]
  ]

  /** The row key of an effective age. The age is compared as a number, so a fractional age
      falls into the row whose upper bound it does not exceed. */
  function AgeRangeKey(age: real): (key: string)
    ensures key == "0-5" <==> age <= 5.0
    ensures key == "6-15" <==> 5.0 < age <= 15.0
    ensures key == "16-30" <==> 15.0 < age <= 30.0
    ensures key == "31-50" <==> 30.0 < age <= 50.0
    ensures key == "51+" <==> 50.0 < age
  {
    if age <= 5.0 then "0-5"
    else if age <= 15.0 then "6-15"
    else if age <= 30.0 then "16-30"
    else if age <= 50.0 then "31-50"
    else "51+"
  }

  /** The column key of a whole-number inspection score. */
  function ScoreRangeKey(score: int): (key: string)
    ensures key == "0-7" <==> score <= 7
    ensures key == "8-15" <==> 8 <= score <= 15
    ensures key == "16-21" <==> 16 <= score <= 21
    ensures key == "22-26" <==> 22 <= score <= 26
    ensures key == "27-30" <==> 27 <= score
  {
    if score <= 7 then "0-7"
    else if score <= 15 then "8-15"
    else if score <= 21 then "16-21"
    else if score <= 26 then "22-26"
    else "27-30"
  }

  /** On whole-number ages the row keys partition the integers at 5, 15, 30 and 50. */
  lemma AgeRangeKeyIntegers(n: int)
    ensures AgeRangeKey(n as real) == "0-5" <==> n <= 5
    ensures AgeRangeKey(n as real) == "6-15" <==> 6 <= n <= 15
    ensures AgeRangeKey(n as real) == "16-30" <==> 16 <= n <= 30
    ensures AgeRangeKey(n as real) == "31-50" <==> 31 <= n <= 50
    ensures AgeRangeKey(n as real) == "51+" <==> 51 <= n
  {
  }

  /** The position of a key in a list of distinct keys. */
  function IndexIn(keys: seq<string>, key: string): (i: nat)
    requires key in keys
    ensures i < |keys| && keys[i] == key && key !in keys[..i]
  {
    if keys[0] == key then 0 else 1 + IndexIn(keys[1..], key)
  }

  /** The row of the matrix an age selects. */
  function AgeRow(age: real): (row: nat)
    ensures row < |AgeRows| && AgeRows[row] == AgeRangeKey(age)
  {
    IndexIn(AgeRows, AgeRangeKey(age))
  }

  /** The column of the matrix a score selects. */
  function ScoreColumn(score: int): (col: nat)
    ensures col < |ScoreColumns| && ScoreColumns[col] == ScoreRangeKey(score)
  {
    IndexIn(ScoreColumns, ScoreRangeKey(score))
  }

  /** Every key either range function returns is present in the matrix, every cell holds a
      category in 1..5 and a match type that is one of the three kinds. */
  function MatrixCell(age: real, score: int): (cell: (int, string))
    ensures AgeRangeKey(age) in DataMatrix && ScoreRangeKey(score) in DataMatrix[AgeRangeKey(age)]
    ensures cell == DataMatrix[AgeRangeKey(age)][ScoreRangeKey(score)]
    ensures 1 <= cell.0 <= 5
    ensures cell.1 == Shoda || cell.1 == Varovani || cell.1 == Konflikt
  {
    DataMatrix[AgeRangeKey(age)][ScoreRangeKey(score)]
  }

  /** The rows and columns of the matrix are exactly the keys the range functions produce. */
  lemma MatrixShape()
    ensures DataMatrix.Keys == set k | k in AgeRows
    ensures forall r :: r in DataMatrix ==> DataMatrix[r].Keys == set k | k in ScoreColumns
  {
  }

  /** The three lowest score columns decide the category alone: 5, 4 and 3 in every row. */
  lemma LowScoresFixCategory(age: real, score: int)
    ensures score <= 7 ==> MatrixCell(age, score).0 == 5
    ensures 8 <= score <= 15 ==> MatrixCell(age, score).0 == 4
    ensures 16 <= score <= 21 ==> MatrixCell(age, score).0 == 3
  {
  }

  /** A larger age never selects an earlier row, a larger score never an earlier column. */
  lemma RangeKeysMonotone(a: real, b: real, s: int, t: int)
    ensures a <= b ==> AgeRow(a) <= AgeRow(b)
    ensures s <= t ==> ScoreColumn(s) <= ScoreColumn(t)
  {
  }

  /** Every age row has a score column in which the two assessments agree. */
  lemma EveryRowHasShoda(age: real)
    ensures exists score :: MatrixCell(age, score).1 == Shoda
  {
    var key := AgeRangeKey(age);
    if key == "0-5" {
      assert MatrixCell(age, 27).1 == Shoda;
    } else if key == "6-15" {
      assert MatrixCell(age, 22).1 == Shoda;
    } else if key == "16-30" {
      assert MatrixCell(age, 16).1 == Shoda;
    } else {
      assert MatrixCell(age, 8).1 == Shoda;
    }
  }
}
