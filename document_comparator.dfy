/** The document comparator agent: the AI compares the declared property data with the photos
    and reports a list of checks; the tally of those checks overrides the AI's own verdict, and
    the verdict becomes the status. */
module DocumentComparator {
  import opened Wrappers
  import opened Json
  import opened Base

  /** An uploaded photo; `readable` says whether reading its processed file succeeds. */
  datatype Image = Image(id: Json, readable: bool)

  /** The most photos attached to the request. */
  const MaxAttached: nat := 10

  /** The photos attached to the request: the readable ones among the first ten. */
  function Attached(images: seq<Image>): (sent: seq<Image>)
    ensures |sent| <= MaxAttached
    ensures forall x :: x in sent ==> x in images[..if |images| < MaxAttached then |images| else MaxAttached] && x.readable
  {
    var first := images[..if |images| < MaxAttached then |images| else MaxAttached];
    Readable(first)
  }

  /** The images whose file can be read, in order. */
  function Readable(images: seq<Image>): (r: seq<Image>)
    ensures |r| <= |images|
    ensures forall x :: x in r ==> x in images && x.readable
  {
    if |images| == 0 then []
    else Readable(images[..|images| - 1]) + (if images[|images| - 1].readable then [images[|images| - 1]] else [])
  }

  /** The positions of the readable images, in order: they increase and each holds a readable
      image. */
  function ReadablePositions(images: seq<Image>): (idx: seq<nat>)
    ensures forall k :: 0 <= k < |idx| ==> idx[k] < |images| && images[idx[k]].readable
    ensures forall k, l :: 0 <= k < l < |idx| ==> idx[k] < idx[l]
  {
    if |images| == 0 then []
    else
      var n := |images| - 1;
      var idx0 := ReadablePositions(images[..n]);
      assert forall k :: 0 <= k < |idx0| ==> images[..n][idx0[k]] == images[idx0[k]];
      idx0 + (if images[n].readable then [n] else [])
  }

  /** Every readable image is kept and every unreadable one skipped, in order: the kept images
      are those at the positions of exactly the readable images, in increasing order. */
  lemma {:induction false} ReadableMeaning(images: seq<Image>)
    ensures var r := Readable(images);
            var idx := ReadablePositions(images);
            && |idx| == |r|
            && (forall k :: 0 <= k < |idx| ==> images[idx[k]].readable && r[k] == images[idx[k]])
            && (forall k, l :: 0 <= k < l < |idx| ==> idx[k] < idx[l])
            && (forall i :: 0 <= i < |images| && images[i].readable ==> i in idx)
  {
    ReadablePositionsCover(images);
    ReadableContents(images);
  }

  /** Every readable image's position is among the readable positions. */
  lemma {:induction false} ReadablePositionsCover(images: seq<Image>)
    ensures var idx := ReadablePositions(images);
            forall i :: 0 <= i < |images| && images[i].readable ==> i in idx
  {
    if |images| > 0 {
      var n := |images| - 1;
      var init := images[..n];
      ReadablePositionsCover(init);
      var idx0 := ReadablePositions(init);
      var idx := ReadablePositions(images);
      var pick := images[n].readable;
      assert idx == idx0 + (if pick then [n] else []);
      forall i | 0 <= i < n && images[i].readable
        ensures i in idx0
      {
        assert init[i] == images[i];
      }
      if pick {
        assert idx[|idx0|] == n;
      }
    }
  }

  /** The k-th kept image is the one at the k-th readable position. */
  lemma {:induction false} ReadableContents(images: seq<Image>)
    ensures var r := Readable(images);
            var idx := ReadablePositions(images);
            && |idx| == |r|
            && forall k :: 0 <= k < |idx| ==> r[k] == images[idx[k]]
  {
    if |images| > 0 {
      var n := |images| - 1;
      var init := images[..n];
      ReadableContents(init);
      var r0 := Readable(init);
      var idx0 := ReadablePositions(init);
      var r := Readable(images);
      var idx := ReadablePositions(images);
      assert r == r0 + (if images[n].readable then [images[n]] else []);
      assert idx == idx0 + (if images[n].readable then [n] else []);
      forall k | 0 <= k < |idx|
        ensures r[k] == images[idx[k]]
      {
        if k < |idx0| {
          assert r[k] == r0[k] == init[idx0[k]];
          assert idx0[k] < n;
        }
      }
    }
  }

  /** Every readable image among the first ten is attached, in order, and nothing else is. */
  lemma {:induction false} AttachedMeaning(images: seq<Image>)
    ensures var first := if |images| < MaxAttached then |images| else MaxAttached;
            var sent := Attached(images);
            var idx := ReadablePositions(images[..first]);
            && |idx| == |sent|
            && (forall k :: 0 <= k < |idx| ==> idx[k] < first && images[idx[k]].readable && sent[k] == images[idx[k]])
            && (forall k, l :: 0 <= k < l < |idx| ==> idx[k] < idx[l])
            && (forall i :: 0 <= i < first && images[i].readable ==> i in idx)
  {
    var first := if |images| < MaxAttached then |images| else MaxAttached;
    var prefix := images[..first];
    ReadableMeaning(prefix);
    assert forall i :: 0 <= i < first ==> prefix[i] == images[i];
  }

  /** Whether a check reports a match: `c.get("match", False)` is truthy. */
  predicate Matches(c: Json)
    requires c.Obj?
  {
    Truthy(Get(c, "match", Bool(false)).value)
  }

  /** `sum(1 for c in checks if c.get("match", False))` over the iterated checks; the first check
      that is not a dict raises `AttributeError`. */
  function CountMatches(checks: seq<Json>): (r: Py<nat>)
    ensures r.Ok? <==> forall i :: 0 <= i < |checks| ==> checks[i].Obj?
    ensures r.Ok? ==> r.value <= |checks|
    ensures r.Ok? ==> (r.value == |checks| <==> forall i :: 0 <= i < |checks| ==> Matches(checks[i]))
    ensures r.Ok? ==> (r.value == 0 <==> forall i :: 0 <= i < |checks| ==> !Matches(checks[i]))
  {
    if |checks| == 0 then Ok(0)
    else
      var last := checks[|checks| - 1];
      match CountMatches(checks[..|checks| - 1])
      case Raise(e) => Raise(e)
      case Ok(n) =>
        match Get(last, "match", Bool(false))
        case Raise(e) => Raise(e)
        case Ok(m) => Ok(n + if Truthy(m) then 1 else 0)
  }

  /** `len(checks)`: the number of items, characters or keys. */
  function Length(v: Json): nat
    requires v.Arr? || v.Str? || v.Obj?
  {
    |Iterate(v).value|
  }

  /** The tally of the checks: how many match and how many do not. */
  function Tally(checks: Json): (r: Py<(nat, nat)>)
    // It raises when the checks cannot be iterated, or at the first check that is not a dict.
    ensures r.Ok? <==> Iterate(checks).Ok? && forall i :: 0 <= i < |Iterate(checks).value| ==> Iterate(checks).value[i].Obj?
    ensures r.Ok? ==> (checks.Arr? || checks.Str? || checks.Obj?)
    ensures r.Ok? ==> r.value.0 + r.value.1 == Length(checks)
    ensures r.Ok? && checks.Arr? ==> forall i :: 0 <= i < |checks.items| ==> checks.items[i].Obj?
    // A check without "match" counts as a mismatch.
    ensures r.Ok? && checks.Arr? ==>
              (r.value.1 == 0 <==> forall i :: 0 <= i < |checks.items| ==> Matches(checks.items[i]))
              && (r.value.0 == 0 <==> forall i :: 0 <= i < |checks.items| ==> !Matches(checks.items[i]))
  {
    match Iterate(checks)
    case Raise(e) => Raise(e)
    case Ok(items) =>
      match CountMatches(items)
      case Raise(e) => Raise(e)
      case Ok(matches) => Ok((matches, |items| - matches))
  }

  /** The verdict: with a non-empty list of checks the tally decides it, otherwise the AI's verdict
      stands. */
  function OverrideVerdict(checks: Json, matches: nat, mismatches: nat, aiVerdict: Json): (v: Json)
    ensures Truthy(checks) && mismatches == 0 ==> v == Str("SHODA")
    ensures Truthy(checks) && mismatches != 0 && matches == 0 ==> v == Str("NESHODA")
    ensures Truthy(checks) && mismatches != 0 && matches != 0 ==> v == Str("ČÁSTEČNÁ_SHODA")
    ensures !Truthy(checks) ==> v == aiVerdict
  {
    if Truthy(checks) then
      if mismatches == 0 then Str("SHODA")
      else if matches == 0 then Str("NESHODA")
      else Str("ČÁSTEČNÁ_SHODA")
    else aiVerdict
  }

  /** SHODA is a success, ČÁSTEČNÁ_SHODA a warning, anything else a failure. */
  function VerdictStatus(v: Json): (s: AgentStatus)
    ensures s == Success <==> v == Str("SHODA")
    ensures s == Warn <==> v == Str("ČÁSTEČNÁ_SHODA")
    ensures s == Fail <==> v != Str("SHODA") && v != Str("ČÁSTEČNÁ_SHODA")
  {
    if v == Str("SHODA") then Success
    else if v == Str("ČÁSTEČNÁ_SHODA") then Warn
    else Fail
  }

  /** The AI's warnings as the warning list: the elements a list, string or dict yields. */
  function WarningsOf(aiWarnings: Json): (ws: seq<Msg>)
    ensures aiWarnings.Arr? ==> |ws| == |aiWarnings.items|
                                && forall i :: 0 <= i < |ws| ==> ws[i] == [Val(aiWarnings.items[i])]
  {
    match Iterate(aiWarnings)
    case Ok(items) => seq(|items|, i requires 0 <= i < |items| => [Val(items[i])])
    case Raise(_) => []
  }

  /** What the analysis reads from the reply, and what it derives. */
  datatype Comparison = Comparison(
    verdict: Json, confidence: Json, checks: Json, aiWarnings: Json,
    recommendations: Json, overallSummary: Json, matches: nat, mismatches: nat, percent: real)

  /** The analysis of a reply, up to its first exception. */
  function Analyse(reply: Json): (r: Py<Comparison>)
    // It raises exactly when the reply is no dict, the checks cannot be tallied or the
    // confidence cannot be formatted as a percentage.
    ensures r.Ok? <==> reply.Obj? && Tally(Get(reply, "checks", Arr([])).value).Ok?
                       && FormatPercent(Get(reply, "confidence", Float(0.0)).value).Ok?
    ensures r.Ok? ==> r.value.confidence == Get(reply, "confidence", Float(0.0)).value
                      && r.value.percent == FormatPercent(r.value.confidence).value
    ensures r.Ok? ==> r.value.aiWarnings == Get(reply, "warnings", Arr([])).value
                      && r.value.recommendations == Get(reply, "recommendations", Arr([])).value
                      && r.value.overallSummary == Get(reply, "overall_summary", Str("")).value
    ensures r.Ok? ==> r.value.checks == Get(reply, "checks", Arr([])).value
    ensures r.Ok? ==> Tally(r.value.checks) == Ok((r.value.matches, r.value.mismatches))
    ensures r.Ok? ==> r.value.verdict == OverrideVerdict(r.value.checks, r.value.matches, r.value.mismatches,
                                                         Get(reply, "verdict", Str("UNKNOWN")).value)
    ensures r.Ok? ==> r.value.matches + r.value.mismatches == Length(r.value.checks)
  {
    match Get(reply, "verdict", Str("UNKNOWN"))
    case Raise(e) => Raise(e)
    case Ok(aiVerdict) =>
      var confidence := Get(reply, "confidence", Float(0.0)).value;
      var checks := Get(reply, "checks", Arr([])).value;
      var aiWarnings := Get(reply, "warnings", Arr([])).value;
      var recommendations := Get(reply, "recommendations", Arr([])).value;
      var overall := Get(reply, "overall_summary", Str("")).value;
      match Tally(checks)
      case Raise(e) => Raise(e)
      case Ok((matches, mismatches)) =>
        var verdict := OverrideVerdict(checks, matches, mismatches, aiVerdict);
        match FormatPercent(confidence)
        case Raise(e) => Raise(e)
        case Ok(percent) =>
          Ok(Comparison(verdict, confidence, checks, aiWarnings, recommendations, overall,
                        matches, mismatches, percent))
  }

  function SkippedResult(): (r: AgentResult)
    ensures r.status == Success && r.warnings == [] && r.errors == []
    ensures r.details == map["skipped" := Bool(true), "reason" := Str("no_property_data")]
  {
    Plain(Success, M("Přeskočeno – nebyla poskytnuta data z formuláře."),
          map["skipped" := Bool(true), "reason" := Str("no_property_data")], [], [])
  }

  function NoClientResult(): (r: AgentResult)
    ensures r.status == Warn && |r.warnings| == 1 && r.errors == []
    ensures r.details == map["skipped" := Bool(true), "reason" := Str("no_api_key")]
  {
    Plain(Warn, M("Porovnání není dostupné – chybí API klíč."),
          map["skipped" := Bool(true), "reason" := Str("no_api_key")],
          [M("Gemini API klíč není nakonfigurován.")], [])
  }

  function NoImagesResult(): (r: AgentResult)
    ensures r.status == Warn && |r.warnings| == 1 && r.errors == []
    ensures r.details == map["skipped" := Bool(true), "reason" := Str("no_images")]
  {
    Plain(Warn, M("Porovnání není možné – žádné fotografie."),
          map["skipped" := Bool(true), "reason" := Str("no_images")],
          [M("Nebyla poskytnuta žádná fotodokumentace.")], [])
  }

  function FailedResult(e: Exc): (r: AgentResult)
    ensures r.status == Warn && |r.warnings| == 1 && r.errors == []
    ensures r.details == map["error" := Str(e.text)]
  {
    Plain(Warn, M("Porovnání selhalo: " + e.text), map["error" := Str(e.text)],
          [M("Porovnání dokumentů nebylo možné provést: " + e.text)], [])
  }

  /** The result of a completed comparison. */
  function ComparedResult(c: Comparison, propertyData: Json): (r: AgentResult)
    ensures r.status == VerdictStatus(c.verdict) && r.errors == []
    ensures r.warnings == WarningsOf(c.aiWarnings)
    ensures r.details.Keys >= {"verdict", "checks"}
    ensures r.details["verdict"] == c.verdict && r.details["checks"] == c.checks
  {
    Plain(VerdictStatus(c.verdict),
          [Val(c.verdict), Lit(": "), Val(Int(c.matches)), Lit(" shod, "), Val(Int(c.mismatches)),
           Lit(" neshod (spolehlivost "), Fixed(c.percent, 0), Lit("%)")],
          map["verdict" := c.verdict, "confidence" := c.confidence,
              "overall_summary" := c.overallSummary, "checks" := c.checks,
              "recommendations" := c.recommendations, "property_data" := propertyData],
          WarningsOf(c.aiWarnings), [])
  }

  /** `DocumentComparatorAgent.run`: the property data, the uploaded photos, and the answer of
      the AI comparison (made with the photos `Attached(images)`). */
  function Run(propertyData: Json, images: seq<Image>, call: AiCall<Json>): (r: AgentResult)
    // Missing property data is checked first: the comparison is skipped with SUCCESS.
    ensures !Truthy(propertyData) ==> r == SkippedResult()
    ensures Truthy(propertyData) && call.NoClient? ==> r == NoClientResult()
    ensures Truthy(propertyData) && !call.NoClient? && images == [] ==> r == NoImagesResult()
    ensures Truthy(propertyData) && images != [] && call.CallFailed? ==> r == FailedResult(call.exc)
    ensures Truthy(propertyData) && images != [] && call.Answered? && Analyse(call.reply).Raise? ==>
              r == FailedResult(Analyse(call.reply).exc)
    ensures Truthy(propertyData) && images != [] && call.Answered? && Analyse(call.reply).Ok? ==>
              r == ComparedResult(Analyse(call.reply).value, propertyData)
    // Only a completed comparison can fail; every skip or error path is SUCCESS or WARN.
    ensures r.status == Fail ==> call.Answered? && Analyse(call.reply).Ok?
    ensures r.errors == []
  {
    if !Truthy(propertyData) then SkippedResult()
    else if call.NoClient? then NoClientResult()
    else if images == [] then NoImagesResult()
    else
      match call
      case CallFailed(e) => FailedResult(e)
      case Answered(reply) =>
        match Analyse(reply)
        case Raise(e) => FailedResult(e)
        case Ok(c) => ComparedResult(c, propertyData)
  }

  /** With a non-empty list of checks the status follows the tally alone: all match is SUCCESS,
      some match is WARN, none match is FAIL, whatever verdict the AI gave. */
  lemma {:induction false} TallyDecidesStatus(reply: Json)
    requires Analyse(reply).Ok? && Truthy(Analyse(reply).value.checks)
    ensures var c := Analyse(reply).value;
            && (c.mismatches == 0 ==> VerdictStatus(c.verdict) == Success)
            && (c.mismatches != 0 && c.matches != 0 ==> VerdictStatus(c.verdict) == Warn)
            && (c.mismatches != 0 && c.matches == 0 ==> VerdictStatus(c.verdict) == Fail)
  {
  }

  /** With no checks the AI's verdict stands, "UNKNOWN" when it gave none, and that is a FAIL. */
  lemma {:induction false} NoChecksKeepsVerdict(reply: Json)
    requires Analyse(reply).Ok? && !Truthy(Analyse(reply).value.checks)
    ensures reply.Obj? && Lookup(reply.fields, "verdict").None? ==>
              Analyse(reply).value.verdict == Str("UNKNOWN") && VerdictStatus(Analyse(reply).value.verdict) == Fail
  {
  }
}
