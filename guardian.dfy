/** The guardian agent: completeness of the photo set. A count gate comes first; then the AI
    classifies the photos and its counts are checked against the thresholds. */
module Guardian {
  import opened Wrappers
  import opened Json
  import opened Base
  import Config

  /** What the guardian reads from the AI reply. */
  datatype Counts = Counts(classifications: Json, exterior: Json, interior: Json,
                           hasRearSide: Json, categoriesFound: Json)

  /** Reading the reply: `ai_result.get(...)` and `summary.get(...)`, each of which raises when
      its receiver is not a dict. */
  function ReadCounts(reply: Json): (r: Py<Counts>)
    ensures r.Ok? <==> reply.Obj? && Get(reply, "summary", Obj([])).value.Obj?
  {
    match Get(reply, "classifications", Arr([]))
    case Raise(e) => Raise(e)
    case Ok(classifications) =>
      match Get(reply, "summary", Obj([]))
      case Raise(e) => Raise(e)
      case Ok(summary) =>
        match Get(summary, "exterior_count", Int(0))
        case Raise(e) => Raise(e)
        case Ok(exterior) =>
          var interior := Get(summary, "interior_count", Int(0)).value;
          var rear := Get(summary, "has_rear_or_side_exterior", Bool(false)).value;
          var found := Get(summary, "categories_found", Arr([])).value;
          Ok(Counts(classifications, exterior, interior, rear, found))
  }

  /** `_fallback_result`: WARN, one warning, and the AI marked unavailable. */
  function FallbackResult(total: nat): (r: AgentResult)
    ensures r.status == Warn && |r.warnings| == 1 && r.errors == []
    ensures r.details == map["total_photos" := Int(total), "ai_available" := Bool(false)]
  {
    Plain(Warn, [Lit("Počet fotek: "), Val(Int(total)), Lit(" (AI klasifikace nedostupná)")],
          map["total_photos" := Int(total), "ai_available" := Bool(false)],
          [M("AI klasifikace nedostupná – nelze ověřit kategorie.")], [])
  }

  /** The result of the count gate. */
  function TooFewPhotos(total: nat): AgentResult {
    Plain(Fail, [Lit("Nedostatečný počet fotografií: "), Val(Int(total)),
                 Lit("/" + "9")],
          map["total_photos" := Int(total), "required" := Int(Config.MinTotalPhotos)], [],
          [[Lit("Počet fotografií ("), Val(Int(total)), Lit(") je menší než minimum (9).")]])
  }

  function ExteriorError(c: Counts): Msg {
    [Lit("Nedostatečný počet exteriérových fotek: "), Val(c.exterior), Lit("/2")]
  }

  function InteriorError(c: Counts): Msg {
    [Lit("Nedostatečný počet interiérových fotek: "), Val(c.interior), Lit("/3")]
  }

  const RearSideError: Msg := M("BLOKUJÍCÍ: Chybí exteriér zadní nebo boční pohled.")

  /** Whether the two counts can be compared with the thresholds; a count that is not a number
      raises `TypeError`, which sends the run to the fallback. */
  predicate Comparable(c: Counts) {
    Numeric(c.exterior).Some? && Numeric(c.interior).Some?
  }

  /** The errors of the AI path, in the order they are checked. */
  function ExpectedErrors(c: Counts): (errs: seq<Msg>)
    requires Comparable(c)
    ensures |errs| <= 3
    ensures ExteriorError(c) in errs <==> Numeric(c.exterior).value < Config.MinExteriorPhotos as real
    ensures InteriorError(c) in errs <==> Numeric(c.interior).value < Config.MinInteriorPhotos as real
    ensures RearSideError in errs <==> !Truthy(c.hasRearSide)
  {
    (if Numeric(c.exterior).value < Config.MinExteriorPhotos as real then [ExteriorError(c)] else [])
    + (if Numeric(c.interior).value < Config.MinInteriorPhotos as real then [InteriorError(c)] else [])
    + (if !Truthy(c.hasRearSide) then [RearSideError] else [])
  }

  /** The three independent checks of the counts, each appending its error in turn. */
  method CheckCounts(c: Counts) returns (errors: seq<Msg>)
    requires Comparable(c)
    ensures errors == ExpectedErrors(c)
  {
    errors := [];
    if Compare(c.exterior, Lt, Int(Config.MinExteriorPhotos)).value {
      errors := errors + [ExteriorError(c)];
    }
    if Compare(c.interior, Lt, Int(Config.MinInteriorPhotos)).value {
      errors := errors + [InteriorError(c)];
    }
    if !Truthy(c.hasRearSide) {
      errors := errors + [RearSideError];
    }
  }

  /** The checks of the AI path: the three independent errors appended in order, and the status
      derived from the lists. The warnings list is never appended to. */
  method Assess(total: nat, c: Counts) returns (r: AgentResult)
    requires Comparable(c)
    ensures r.errors == ExpectedErrors(c) && r.warnings == []
    ensures r.status == (if r.errors != [] then Fail else Success)
    ensures r.details.Keys >= {"total_photos", "exterior_count", "interior_count", "has_rear_or_side_exterior"}
    ensures r.details["total_photos"] == Int(total)
    ensures r.details["exterior_count"] == c.exterior && r.details["interior_count"] == c.interior
    ensures r.details["has_rear_or_side_exterior"] == c.hasRearSide
  {
    var warnings: seq<Msg> := [];
    var errors := CheckCounts(c);
    var status := if errors != [] then Fail else if warnings != [] then Warn else Success;
    r := Plain(status,
               [Lit("Sada "), Val(Int(total)), Lit(" fotek: Ext="), Val(c.exterior), Lit(", Int="),
                Val(c.interior), Lit(", Zadní/Boční=" + if Truthy(c.hasRearSide) then "ANO" else "NE")],
               map["classifications" := c.classifications, "total_photos" := Int(total),
                   "exterior_count" := c.exterior, "interior_count" := c.interior,
                   "has_rear_or_side_exterior" := c.hasRearSide,
                   "categories_found" := c.categoriesFound],
               warnings, errors);
  }

  /** `GuardianAgent.run`, given the number of images and the answer of the AI classification.
      A comparison that raises inside the `try` block ends in the fallback as well. */
  method Run(total: nat, call: AiCall<Json>) returns (r: AgentResult)
    // Fewer than 9 photos: FAIL with one error, before any AI work.
    ensures total < Config.MinTotalPhotos ==>
              r.status == Fail && |r.errors| == 1 && r.warnings == []
              && r.details == map["total_photos" := Int(total), "required" := Int(9)]
    // No client, a failing call, or a reply of the wrong shape: the fallback.
    ensures total >= Config.MinTotalPhotos && !call.Answered? ==> r == FallbackResult(total)
    ensures total >= Config.MinTotalPhotos && call.Answered?
            && (ReadCounts(call.reply).Raise? || !Comparable(ReadCounts(call.reply).value)) ==>
              r == FallbackResult(total)
    // The AI path: the three independent checks, never a warning, FAIL exactly on an error,
    // and the counts echoed unchanged.
    ensures total >= Config.MinTotalPhotos && call.Answered?
            && ReadCounts(call.reply).Ok? && Comparable(ReadCounts(call.reply).value) ==>
              var c := ReadCounts(call.reply).value;
              && r.errors == ExpectedErrors(c)
              && |r.errors| <= 3
              && r.warnings == []
              && (r.status == Fail <==> r.errors != [])
              && (r.status == Success <==> r.errors == [])
              && r.status != Warn
              && r.details.Keys >= {"total_photos", "exterior_count", "interior_count", "has_rear_or_side_exterior"}
              && r.details["total_photos"] == Int(total)
              && r.details["exterior_count"] == c.exterior
              && r.details["interior_count"] == c.interior
              && r.details["has_rear_or_side_exterior"] == c.hasRearSide
  {
    if total < Config.MinTotalPhotos {
      return TooFewPhotos(total);
    }
    if !call.Answered? {
      return FallbackResult(total);
    }
    var read := ReadCounts(call.reply);
    if read.Raise? || !Comparable(read.value) {
      return FallbackResult(total);
    }
    r := Assess(total, read.value);
  }
}
