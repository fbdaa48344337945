/** The historian agent: the effective age of the building and its primary category 1..5.
    The years come from the upload form, so each is an integer or missing. */
module Historian {
  import opened Wrappers
  import opened Json
  import opened Base
  import Config

  /** Python truthiness of an optional year: missing and 0 both count as not given. */
  predicate Given(year: Option<int>) {
    year.Some? && year.value != 0
  }

  /** Where the effective age was measured from. */
  datatype AgeSource = Reconstruction | Construction

  function SourceName(s: AgeSource): string {
    match s
    case Reconstruction => "rekonstrukce"
    case Construction => "výstavba"
  }

  /** The source of the effective age: a positive reconstruction year takes precedence over the
      construction year. */
  function Source(yearRec: Option<int>): (s: AgeSource)
    ensures s == Reconstruction <==> yearRec.Some? && yearRec.value > 0
  {
    if Given(yearRec) && yearRec.value > 0 then Reconstruction else Construction
  }

  /** The effective age, never negative. When the construction year has to be used but is
      missing, `REFERENCE_YEAR - None` raises `TypeError`. */
  function EffectiveAge(yearBuilt: Option<int>, yearRec: Option<int>): (r: Py<int>)
    ensures Source(yearRec) == Reconstruction ==>
              r == Ok(if Config.ReferenceYear - yearRec.value < 0 then 0
                      else Config.ReferenceYear - yearRec.value)
    ensures Source(yearRec) == Construction && yearBuilt.Some? ==>
              r == Ok(if Config.ReferenceYear - yearBuilt.value < 0 then 0
                      else Config.ReferenceYear - yearBuilt.value)
    ensures Source(yearRec) == Construction && yearBuilt.None? ==> r.Raise? && r.exc.kind == TypeError
    ensures r.Ok? ==> r.value >= 0
  {
    var year :=
      if Source(yearRec) == Reconstruction then Some(yearRec.value)
      else yearBuilt;
    match year
    case None => Raise(Exc(TypeError, "unsupported operand type(s) for -: 'int' and 'NoneType'"))
    case Some(y) =>
      var age := Config.ReferenceYear - y;
      Ok(if age < 0 then 0 else age)
  }

  /** The primary category: boundaries 5, 15, 30 and 50, the same rows the data matrix has. */
  function Category(age: int): (c: int)
    ensures 1 <= c <= 5
    ensures c == Config.AgeRow(age as real) + 1
  {
    if age <= 5 then 1
    else if age <= 15 then 2
    else if age <= 30 then 3
    else if age <= 50 then 4
    else 5
  }

  function CategoryDescription(c: int): string {
    if c == 1 then "Novostavba / čerstvá rekonstrukce"
    else if c == 2 then "Moderní"
    else if c == 3 then "Starší, udržovaný"
    else if c == 4 then "Starší, vyžaduje pozornost"
    else "Starý, potenciální rizika"
  }

  function YearValue(y: Option<int>): Json {
    match y
    case None => Null
    case Some(v) => Int(v)
  }

  /** The result when neither year is given. */
  function MissingYears(): AgentResult {
    Plain(Fail, M("Chybí rok výstavby i rekonstrukce."), map[], [],
          [M("Nelze vypočítat efektivní věk bez roku výstavby nebo rekonstrukce.")])
  }

  /** The result for an effective age. */
  function AgeResult(age: int, source: AgeSource, yearBuilt: Option<int>, yearRec: Option<int>)
    : AgentResult
  {
    var c := Category(age);
    var desc := CategoryDescription(c);
    AgentResult(
      Success, Some(c), None,
      [Lit("Efektivní věk: "), Val(Int(age)), Lit(" let (" + SourceName(source) + ") → Kategorie "),
       Val(Int(c)), Lit(" (" + desc + ")")],
      map["effective_age" := Int(age), "age_source" := Str(SourceName(source)),
          "year_built" := YearValue(yearBuilt), "year_reconstructed" := YearValue(yearRec),
          "reference_year" := Int(Config.ReferenceYear), "category" := Int(c),
          "category_description" := Str(desc)],
      if age > 50 then
        [[Lit("Nemovitost je velmi stará ("), Val(Int(age)),
          Lit(" let). Doporučena důkladná inspekce.")]]
      else [],
      [])
  }

  /** `HistorianAgent.run`. */
  function Run(yearBuilt: Option<int>, yearRec: Option<int>): (o: RunOutcome)
    // Both years missing or zero: FAIL with one error and no category.
    ensures !Given(yearBuilt) && !Given(yearRec) ==>
              o.Returned? && o.result.status == Fail && |o.result.errors| == 1
              && o.result.category.None? && o.result.warnings == []
    // Otherwise the run raises exactly when the construction year is needed and missing.
    ensures (Given(yearBuilt) || Given(yearRec)) ==>
              (o.Raised? <==> EffectiveAge(yearBuilt, yearRec).Raise?)
    // On the non-missing path: SUCCESS, the category of the effective age, and one warning
    // exactly when the building is older than 50 years, which is exactly category 5.
    ensures (Given(yearBuilt) || Given(yearRec)) && o.Returned? ==>
              var age := EffectiveAge(yearBuilt, yearRec).value;
              && o.result.status == Success
              && age >= 0
              && "effective_age" in o.result.details
              && o.result.details["effective_age"] == Int(age)
              && o.result.category == Some(Category(age))
              && o.result.errors == []
              && (|o.result.warnings| == 1 <==> age > 50)
              && (|o.result.warnings| == 1 <==> o.result.category == Some(5))
              && |o.result.warnings| <= 1
  {
    if !Given(yearBuilt) && !Given(yearRec) then Returned(MissingYears())
    else
      match EffectiveAge(yearBuilt, yearRec)
      case Raise(e) => Raised(e)
      case Ok(age) => Returned(AgeResult(age, Source(yearRec), yearBuilt, yearRec))
  }

  /** A positive reconstruction year decides the effective age whatever the construction year. */
  lemma ReconstructionTakesPrecedence(yearBuilt1: Option<int>, yearBuilt2: Option<int>, yearRec: Option<int>)
    requires yearRec.Some? && yearRec.value > 0
    ensures Run(yearBuilt1, yearRec).Returned? && Run(yearBuilt2, yearRec).Returned?
    ensures "effective_age" in Run(yearBuilt1, yearRec).result.details
    ensures "effective_age" in Run(yearBuilt2, yearRec).result.details
    ensures Run(yearBuilt1, yearRec).result.details["effective_age"]
         == Run(yearBuilt2, yearRec).result.details["effective_age"]
    ensures Run(yearBuilt1, yearRec).result.category == Run(yearBuilt2, yearRec).result.category
  {
  }
}
