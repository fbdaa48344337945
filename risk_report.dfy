/** The risk rules both cadastral analysts share: the risks the AI found in the ownership record
    are merged with one risk per building the ortofoto analysis detected; the severities are
    counted, decide the status, and pick the descriptions that become warnings and errors. */
module RiskReport {
  import opened Wrappers
  import opened Json
  import opened Base
  import opened LvParser

  const High: string := "vysoké"
  const Medium: string := "střední"
  const Low: string := "nízké"
  /** The overall risk level reported when there is no analysis of the record. */
  const Unknown: string := "neznámé"

  /** `a` is `b` with some elements left out, the rest in their order. */
  predicate IsSubseq<T(==)>(a: seq<T>, b: seq<T>)
    decreases |b|
  {
    if |a| == 0 then true
    else if |b| == 0 then false
    else if a[|a| - 1] == b[|b| - 1] then IsSubseq(a[..|a| - 1], b[..|b| - 1])
    else IsSubseq(a, b[..|b| - 1])
  }

  // ---------------------------------------------------------------------------------------
  // Merging the risks

  const BuildingCategory: string := "nezakreslená stavba"

  /** The dict `all_risks` receives for a detected building. */
  function RiskEntry(severity: Json, description: Json, recommendation: Json): Json {
    Obj([("severity", severity), ("category", Str(BuildingCategory)),
         ("description", description), ("recommendation", recommendation)])
  }

  lemma RiskEntryFields(severity: Json, description: Json, recommendation: Json)
    ensures Get(RiskEntry(severity, description, recommendation), "severity", Null) == Ok(severity)
    ensures Get(RiskEntry(severity, description, recommendation), "category", Null) == Ok(Str(BuildingCategory))
    ensures Get(RiskEntry(severity, description, recommendation), "description", Null) == Ok(description)
  {
    var fs := RiskEntry(severity, description, recommendation).fields;
    var f3, f2, f1 := fs[..3], fs[..3][..2], fs[..3][..2][..1];
    assert "recommendation" != "description" && "recommendation" != "category" && "recommendation" != "severity";
    assert "description" != "category" && "description" != "severity" && "category" != "severity";
    assert Lookup(fs, "description") == Lookup(f3, "description") == Some(description);
    assert Lookup(fs, "category") == Lookup(f3, "category") == Lookup(f2, "category");
    assert Lookup(fs, "severity") == Lookup(f3, "severity") == Lookup(f2, "severity") == Lookup(f1, "severity");
  }

  /** The risk entry for one detected building. */
  function BuildingEntry(bd: Json): Json
    requires bd.Obj?
  {
    RiskEntry(Get(bd, "risk_level", Str(Medium)).value,
              Get(bd, "risk_description", Get(bd, "description", Str("")).value).value,
              Get(bd, "recommendation", Str("")).value)
  }

  /** A building's entry takes its risk level as severity, "střední" by default, and its risk
      description, falling back to its description. */
  lemma BuildingEntryFields(bd: Json)
    requires bd.Obj?
    ensures Get(BuildingEntry(bd), "severity", Null) == Get(bd, "risk_level", Str(Medium))
    ensures Lookup(bd.fields, "risk_level").None? ==> Get(BuildingEntry(bd), "severity", Null) == Ok(Str(Medium))
    ensures Get(BuildingEntry(bd), "category", Null) == Ok(Str(BuildingCategory))
    ensures Get(BuildingEntry(bd), "description", Null) ==
              Get(bd, "risk_description", Get(bd, "description", Str("")).value)
  {
    RiskEntryFields(Get(bd, "risk_level", Str(Medium)).value,
                    Get(bd, "risk_description", Get(bd, "description", Str("")).value).value,
                    Get(bd, "recommendation", Str("")).value);
  }

  /** The entries for the detected buildings, in order; the first one that is not a dict raises. */
  function BuildingRisks(bds: seq<Json>): (r: Py<seq<Json>>)
    ensures r.Ok? <==> forall i :: 0 <= i < |bds| ==> bds[i].Obj?
    ensures r.Ok? ==> |r.value| == |bds| && forall i :: 0 <= i < |bds| ==> r.value[i] == BuildingEntry(bds[i])
  {
    if |bds| == 0 then Ok([])
    else
      var prefix := bds[..|bds| - 1];
      var last := bds[|bds| - 1];
      match BuildingRisks(prefix)
      case Raise(e) =>
        var j :| 0 <= j < |prefix| && !prefix[j].Obj?;
        assert bds[j] == prefix[j];
        Raise(e)
      case Ok(init) =>
        assert forall i :: 0 <= i < |prefix| ==> prefix[i] == bds[i];
        if last.Obj? then
          assert forall i :: 0 <= i < |bds| ==> bds[i].Obj?;
          Ok(init + [BuildingEntry(last)])
        else
          assert !bds[|bds| - 1].Obj?;
          Raise(Get(last, "risk_level", Str(Medium)).exc)
  }

  /** `lv_risks.get("risks", [])`, iterated; nothing when the record analysis is missing. */
  function LvRiskItems(lvRisks: Json): (r: Py<seq<Json>>)
    ensures !Truthy(lvRisks) ==> r == Ok([])
    ensures Truthy(lvRisks) && !lvRisks.Obj? ==> r.Raise?
    ensures Truthy(lvRisks) && lvRisks.Obj? ==> r == Iterate(Get(lvRisks, "risks", Arr([])).value)
  {
    if !Truthy(lvRisks) then Ok([])
    else
      match Get(lvRisks, "risks", Arr([]))
      case Raise(e) => Raise(e)
      case Ok(v) => Iterate(v)
  }

  /** `ortofoto_analysis.get("buildings_detected", [])`, iterated; nothing without an analysis. */
  function DetectedBuildings(ortofoto: Json): (r: Py<seq<Json>>)
    ensures !Truthy(ortofoto) ==> r == Ok([])
    ensures Truthy(ortofoto) && !ortofoto.Obj? ==> r.Raise?
    ensures Truthy(ortofoto) && ortofoto.Obj? ==> r == Iterate(Get(ortofoto, "buildings_detected", Arr([])).value)
  {
    if !Truthy(ortofoto) then Ok([])
    else
      match Get(ortofoto, "buildings_detected", Arr([]))
      case Raise(e) => Raise(e)
      case Ok(v) => Iterate(v)
  }

  /** `all_risks`: the record's risks, then the entries of the detected buildings. */
  function AllRisks(lvRisks: Json, ortofoto: Json): (r: Py<seq<Json>>)
    ensures r.Ok? <==> LvRiskItems(lvRisks).Ok? && DetectedBuildings(ortofoto).Ok?
                       && BuildingRisks(DetectedBuildings(ortofoto).value).Ok?
    ensures r.Ok? ==> |r.value| == |LvRiskItems(lvRisks).value| + |DetectedBuildings(ortofoto).value|
  {
    match LvRiskItems(lvRisks)
    case Raise(e) => Raise(e)
    case Ok(lv) =>
      match DetectedBuildings(ortofoto)
      case Raise(e) => Raise(e)
      case Ok(bds) =>
        match BuildingRisks(bds)
        case Raise(e) => Raise(e)
        case Ok(entries) => Ok(lv + entries)
  }

  /** The merged risks are the record's risks unchanged, followed by one entry per detected
      building, in order, whose severity is the building's risk level or "střední". */
  lemma MergedRiskOrder(lvRisks: Json, ortofoto: Json, lv: seq<Json>, bds: seq<Json>)
    requires LvRiskItems(lvRisks) == Ok(lv) && DetectedBuildings(ortofoto) == Ok(bds)
    requires BuildingRisks(bds).Ok?
    ensures AllRisks(lvRisks, ortofoto).Ok?
    ensures AllRisks(lvRisks, ortofoto).value[..|lv|] == lv
    ensures forall i :: 0 <= i < |bds| ==>
              bds[i].Obj? && AllRisks(lvRisks, ortofoto).value[|lv| + i] == BuildingEntry(bds[i])
              && Get(AllRisks(lvRisks, ortofoto).value[|lv| + i], "severity", Null)
                 == Get(bds[i], "risk_level", Str(Medium))
  {
    assert AllRisks(lvRisks, ortofoto) == Ok(lv + BuildingRisks(bds).value);
    EntriesAfter(lv, bds);
  }

  lemma EntriesAfter(lv: seq<Json>, bds: seq<Json>)
    requires BuildingRisks(bds).Ok?
    ensures (lv + BuildingRisks(bds).value)[..|lv|] == lv
    ensures forall i :: 0 <= i < |bds| ==>
              bds[i].Obj? && (lv + BuildingRisks(bds).value)[|lv| + i] == BuildingEntry(bds[i])
              && Get((lv + BuildingRisks(bds).value)[|lv| + i], "severity", Null) == Get(bds[i], "risk_level", Str(Medium))
  {
    var entries := BuildingRisks(bds).value;
    assert (lv + entries)[..|lv|] == lv;
    forall i | 0 <= i < |bds|
      ensures bds[i].Obj? && (lv + entries)[|lv| + i] == BuildingEntry(bds[i])
              && Get((lv + entries)[|lv| + i], "severity", Null) == Get(bds[i], "risk_level", Str(Medium))
    {
      AppendIndex(lv, entries, i);
      BuildingEntryFields(bds[i]);
    }
  }

  lemma AppendIndex<T>(a: seq<T>, b: seq<T>, i: int)
    requires 0 <= i < |b|
    ensures (a + b)[|a| + i] == b[i]
  {
  }

  /** The extend and the append loop that build `all_risks`. */
  method MergeRisks(lvRisks: Json, ortofoto: Json) returns (r: Py<seq<Json>>)
    ensures r == AllRisks(lvRisks, ortofoto)
  {
    var allRisks: seq<Json> := [];
    if Truthy(lvRisks) {
      var risks := Get(lvRisks, "risks", Arr([]));
      if risks.Raise? {
        assert LvRiskItems(lvRisks) == Raise(risks.exc);
        return Raise(risks.exc);
      }
      var items := Iterate(risks.value);
      if items.Raise? {
        assert LvRiskItems(lvRisks) == Raise(items.exc);
        return Raise(items.exc);
      }
      allRisks := allRisks + items.value;
      assert allRisks == items.value;
    }
    assert LvRiskItems(lvRisks) == Ok(allRisks);
    var detected := DetectedBuildings(ortofoto);
    if detected.Raise? {
      return Raise(detected.exc);
    }
    r := AppendBuildingRisks(allRisks, detected.value);
  }

  /** The loop that appends one entry per detected building to `all_risks`. */
  method AppendBuildingRisks(allRisks: seq<Json>, bds: seq<Json>) returns (r: Py<seq<Json>>)
    ensures r.Ok? <==> BuildingRisks(bds).Ok?
    ensures r.Ok? ==> r.value == allRisks + BuildingRisks(bds).value
    ensures r.Raise? ==> r.exc == BuildingRisks(bds).exc
  {
    var acc := allRisks;
    var i := 0;
    assert bds[..0] == [] && BuildingRisks([]) == Ok([]);
    assert acc == allRisks + [];
    while i < |bds|
      invariant 0 <= i <= |bds|
      invariant BuildingRisks(bds[..i]).Ok? && acc == allRisks + BuildingRisks(bds[..i]).value
    {
      var bd := bds[i];
      var severity := Get(bd, "risk_level", Str(Medium));
      BuildingRisksStep(bds, i);
      if severity.Raise? {
        BuildingRisksPrefix(bds, i + 1);
        return Raise(severity.exc);
      }
      acc := acc + [RiskEntry(severity.value,
                              Get(bd, "risk_description", Get(bd, "description", Str("")).value).value,
                              Get(bd, "recommendation", Str("")).value)];
      i := i + 1;
    }
    assert bds[..i] == bds;
    r := Ok(acc);
  }

  /** One more building: its entry is appended, or, when it is not a dict, the list raises. */
  lemma BuildingRisksStep(bds: seq<Json>, i: nat)
    requires i < |bds| && BuildingRisks(bds[..i]).Ok?
    ensures bds[i].Obj? ==> BuildingRisks(bds[..i + 1]) == Ok(BuildingRisks(bds[..i]).value + [BuildingEntry(bds[i])])
    ensures !bds[i].Obj? ==> BuildingRisks(bds[..i + 1]) == Raise(Get(bds[i], "risk_level", Str(Medium)).exc)
  {
    assert bds[..i + 1][..i] == bds[..i];
  }

  /** A building list whose prefix raises raises as a whole, with the same exception. */
  lemma {:induction false} BuildingRisksPrefix(bds: seq<Json>, n: nat)
    requires n <= |bds| && BuildingRisks(bds[..n]).Raise?
    ensures BuildingRisks(bds) == BuildingRisks(bds[..n])
    decreases |bds| - n
  {
    if n < |bds| {
      assert bds[..n + 1][..n] == bds[..n];
      BuildingRisksPrefix(bds, n + 1);
    } else {
      assert bds[..n] == bds;
    }
  }

  // ---------------------------------------------------------------------------------------
  // Severities and counts

  /** `r.get("severity")` of every risk; the first risk that is not a dict raises. */
  function Severities(risks: seq<Json>): (r: Py<seq<Json>>)
    ensures r.Ok? <==> forall i :: 0 <= i < |risks| ==> risks[i].Obj?
    ensures r.Ok? ==> |r.value| == |risks| && forall i :: 0 <= i < |risks| ==> r.value[i] == Get(risks[i], "severity", Null).value
  {
    if |risks| == 0 then Ok([])
    else
      match Severities(risks[..|risks| - 1])
      case Raise(e) => Raise(e)
      case Ok(init) =>
        match Get(risks[|risks| - 1], "severity", Null)
        case Raise(e) => Raise(e)
        case Ok(s) => Ok(init + [s])
  }

  /** `sum(1 for r in all_risks if r.get("severity") == level)`. */
  function Count(sevs: seq<Json>, level: string): (n: nat)
    ensures n <= |sevs|
  {
    if |sevs| == 0 then 0
    else Count(sevs[..|sevs| - 1], level) + (if sevs[|sevs| - 1] == Str(level) then 1 else 0)
  }

  /** A level is counted at least once exactly when some risk has it. */
  lemma {:induction false} CountPositive(sevs: seq<Json>, level: string)
    ensures Count(sevs, level) > 0 <==> Str(level) in sevs
  {
    if |sevs| > 0 {
      var init := sevs[..|sevs| - 1];
      CountPositive(init, level);
      assert sevs == init + [sevs[|sevs| - 1]];
    }
  }

  /** A risk has one severity, so the three counts together never exceed the number of risks. */
  lemma {:induction false} CountsBounded(sevs: seq<Json>)
    ensures Count(sevs, High) + Count(sevs, Medium) + Count(sevs, Low) <= |sevs|
  {
    if |sevs| > 0 {
      CountsBounded(sevs[..|sevs| - 1]);
    }
  }

  /** FAIL with a high risk, else WARN with a medium one, else SUCCESS. */
  function CountStatus(high: nat, medium: nat): (s: AgentStatus)
    ensures s == Fail <==> high > 0
    ensures s == Warn <==> high == 0 && medium > 0
    ensures s == Success <==> high == 0 && medium == 0
  {
    if high > 0 then Fail else if medium > 0 then Warn else Success
  }

  // ---------------------------------------------------------------------------------------
  // Warnings and errors

  /** `[r["description"] for r in all_risks if r.get("severity") in levels]`; the first selected
      risk without a description raises `KeyError`. */
  function Flagged(risks: seq<Json>, sevs: seq<Json>, levels: set<string>): (r: Py<seq<Msg>>)
    requires |sevs| == |risks|
  {
    if |risks| == 0 then Ok([])
    else
      var n := |risks| - 1;
      match Flagged(risks[..n], sevs[..n], levels)
      case Raise(e) => Raise(e)
      case Ok(init) =>
        if sevs[n].Str? && sevs[n].s in levels then
          match Index(risks[n], "description")
          case Raise(e) => Raise(e)
          case Ok(d) => Ok(init + [[Val(d)]])
        else Ok(init)
  }

  /** Whether a severity is one of the selected levels. */
  predicate AtLevel(sev: Json, levels: set<string>) {
    sev.Str? && sev.s in levels
  }

  /** The positions of the risks at one of the selected levels, in order. */
  function FlaggedPositions(sevs: seq<Json>, levels: set<string>): (idx: seq<nat>)
    ensures forall k :: 0 <= k < |idx| ==> idx[k] < |sevs|
  {
    if |sevs| == 0 then []
    else
      var n := |sevs| - 1;
      FlaggedPositions(sevs[..n], levels) + (if AtLevel(sevs[n], levels) then [n] else [])
  }

  /** The selected positions are increasing, each is at a selected level, and none is missed. */
  lemma {:induction false} FlaggedPositionsMeaning(sevs: seq<Json>, levels: set<string>)
    ensures var idx := FlaggedPositions(sevs, levels);
            && (forall k :: 0 <= k < |idx| ==> AtLevel(sevs[idx[k]], levels))
            && (forall k, l :: 0 <= k < l < |idx| ==> idx[k] < idx[l])
            && (forall i :: 0 <= i < |sevs| && AtLevel(sevs[i], levels) ==> i in idx)
  {
    if |sevs| > 0 {
      var n := |sevs| - 1;
      var init := sevs[..n];
      FlaggedPositionsMeaning(init, levels);
      var idx0 := FlaggedPositions(init, levels);
      assert forall i :: 0 <= i < n ==> init[i] == sevs[i];
      assert forall k :: 0 <= k < |idx0| ==> idx0[k] < n && init[idx0[k]] == sevs[idx0[k]];
      if AtLevel(sevs[n], levels) {
        assert FlaggedPositions(sevs, levels) == idx0 + [n];
      } else {
        assert FlaggedPositions(sevs, levels) == idx0;
      }
    }
  }

  /** The messages are the descriptions of the selected risks, in order; the selection raises
      exactly when one of those risks has no description. */
  lemma {:induction false} FlaggedMeaning(risks: seq<Json>, sevs: seq<Json>, levels: set<string>)
    requires |sevs| == |risks|
    ensures var r := Flagged(risks, sevs, levels);
            var idx := FlaggedPositions(sevs, levels);
            && (r.Ok? <==> forall k :: 0 <= k < |idx| ==> Index(risks[idx[k]], "description").Ok?)
            && (r.Ok? ==> |r.value| == |idx|
                          && forall k :: 0 <= k < |idx| ==>
                               r.value[k] == [Val(Index(risks[idx[k]], "description").value)])
  {
    FlaggedSucceeds(risks, sevs, levels);
    FlaggedContents(risks, sevs, levels);
  }

  /** Every risk at one of the positions has a description. */
  predicate Described(risks: seq<Json>, idx: seq<nat>) {
    forall k :: 0 <= k < |idx| && idx[k] < |risks| ==> Index(risks[idx[k]], "description").Ok?
  }

  /** Whether positions are described does not depend on the risks after them. */
  lemma DescribedPrefix(risks: seq<Json>, n: nat, idx: seq<nat>)
    requires n <= |risks| && forall k :: 0 <= k < |idx| ==> idx[k] < n
    ensures Described(risks[..n], idx) <==> Described(risks, idx)
  {
    assert forall k :: 0 <= k < |idx| ==> risks[..n][idx[k]] == risks[idx[k]];
  }

  /** One more position is described when its risk has a description. */
  lemma DescribedAppend(risks: seq<Json>, idx: seq<nat>, n: nat)
    requires n < |risks|
    ensures Described(risks, idx + [n]) <==> Described(risks, idx) && Index(risks[n], "description").Ok?
  {
    var ext := idx + [n];
    assert forall k :: 0 <= k < |idx| ==> ext[k] == idx[k];
    assert ext[|idx|] == n;
  }

  /** The selection raises exactly when a selected risk has no description. */
  lemma {:induction false} FlaggedSucceeds(risks: seq<Json>, sevs: seq<Json>, levels: set<string>)
    requires |sevs| == |risks|
    ensures Flagged(risks, sevs, levels).Ok? <==> Described(risks, FlaggedPositions(sevs, levels))
  {
    if |risks| > 0 {
      var n := |risks| - 1;
      FlaggedSucceeds(risks[..n], sevs[..n], levels);
      var idx0 := FlaggedPositions(sevs[..n], levels);
      DescribedPrefix(risks, n, idx0);
      var r0 := Flagged(risks[..n], sevs[..n], levels);
      if AtLevel(sevs[n], levels) {
        assert FlaggedPositions(sevs, levels) == idx0 + [n];
        DescribedAppend(risks, idx0, n);
        if r0.Ok? && Index(risks[n], "description").Ok? {
          assert Flagged(risks, sevs, levels).Ok?;
        } else {
          assert Flagged(risks, sevs, levels).Raise?;
        }
      } else {
        assert FlaggedPositions(sevs, levels) == idx0;
        assert Flagged(risks, sevs, levels) == r0;
      }
    }
  }

  /** One step of Flagged: a successful result extends the prefix's result by the last risk's
      description exactly when that risk is at one of the levels. */
  lemma {:induction false} FlaggedStep(risks: seq<Json>, sevs: seq<Json>, levels: set<string>)
    requires |sevs| == |risks| && |risks| > 0 && Flagged(risks, sevs, levels).Ok?
    ensures var n := |risks| - 1;
            && Flagged(risks[..n], sevs[..n], levels).Ok?
            && (AtLevel(sevs[n], levels) ==> Index(risks[n], "description").Ok?)
            && Flagged(risks, sevs, levels).value
               == Flagged(risks[..n], sevs[..n], levels).value
                  + (if AtLevel(sevs[n], levels) then [[Val(Index(risks[n], "description").value)]] else [])
  {
  }

  /** The messages are the descriptions of the selected risks, in order. */
  lemma {:induction false} FlaggedContents(risks: seq<Json>, sevs: seq<Json>, levels: set<string>)
    requires |sevs| == |risks|
    ensures var r := Flagged(risks, sevs, levels);
            var idx := FlaggedPositions(sevs, levels);
            r.Ok? ==> |r.value| == |idx|
                      && forall k :: 0 <= k < |idx| ==>
                           && Index(risks[idx[k]], "description").Ok?
                           && r.value[k] == [Val(Index(risks[idx[k]], "description").value)]
  {
    var r := Flagged(risks, sevs, levels);
    if |risks| > 0 && r.Ok? {
      var n := |risks| - 1;
      var pre := risks[..n];
      FlaggedStep(risks, sevs, levels);
      FlaggedContents(pre, sevs[..n], levels);
      var r0 := Flagged(pre, sevs[..n], levels).value;
      var idx0 := FlaggedPositions(sevs[..n], levels);
      assert forall k :: 0 <= k < |idx0| ==>
               idx0[k] < n && pre[idx0[k]] == risks[idx0[k]] && Index(pre[idx0[k]], "description").Ok?
               && r0[k] == [Val(Index(pre[idx0[k]], "description").value)];
      var idx := FlaggedPositions(sevs, levels);
      assert idx == idx0 + (if AtLevel(sevs[n], levels) then [n] else []);
      forall k | 0 <= k < |idx|
        ensures Index(risks[idx[k]], "description").Ok?
                && r.value[k] == [Val(Index(risks[idx[k]], "description").value)]
      {
        if k < |idx0| {
          assert r.value[k] == r0[k] && idx[k] == idx0[k];
        }
      }
    }
  }

  /** The messages for a set of levels are one per risk at one of them. */
  lemma {:induction false} FlaggedCount(risks: seq<Json>, sevs: seq<Json>)
    requires |sevs| == |risks|
    ensures Flagged(risks, sevs, {High, Medium}).Ok? ==>
              |Flagged(risks, sevs, {High, Medium}).value| == Count(sevs, High) + Count(sevs, Medium)
    ensures Flagged(risks, sevs, {High}).Ok? ==> |Flagged(risks, sevs, {High}).value| == Count(sevs, High)
  {
    if |risks| > 0 {
      var n := |risks| - 1;
      FlaggedCount(risks[..n], sevs[..n]);
    }
  }

  /** Every error is also a warning: the high-risk descriptions are a subsequence of the
      high-and-medium ones, and they exist whenever those do. */
  lemma {:induction false} ErrorsAmongWarnings(risks: seq<Json>, sevs: seq<Json>)
    requires |sevs| == |risks|
    ensures Flagged(risks, sevs, {High, Medium}).Ok? ==>
              Flagged(risks, sevs, {High}).Ok?
              && IsSubseq(Flagged(risks, sevs, {High}).value, Flagged(risks, sevs, {High, Medium}).value)
  {
    if |risks| > 0 {
      var n := |risks| - 1;
      ErrorsAmongWarnings(risks[..n], sevs[..n]);
      if Flagged(risks, sevs, {High, Medium}).Ok? {
        var w0 := Flagged(risks[..n], sevs[..n], {High, Medium}).value;
        var e0 := Flagged(risks[..n], sevs[..n], {High}).value;
        var w := Flagged(risks, sevs, {High, Medium}).value;
        var e := Flagged(risks, sevs, {High}).value;
        if sevs[n].Str? && sevs[n].s in {High, Medium} {
          var d := Index(risks[n], "description").value;
          assert w == w0 + [[Val(d)]];
          if sevs[n].s == High {
            assert e == e0 + [[Val(d)]];
            assert w[..|w| - 1] == w0 && e[..|e| - 1] == e0;
          } else {
            assert e == e0;
            assert w[..|w| - 1] == w0;
            SubseqOfPrefix(e, w);
          }
        } else {
          assert w == w0 && e == e0;
        }
      }
    }
  }

  /** A subsequence of a prefix is a subsequence of the whole. */
  lemma {:induction false} SubseqOfPrefix<T>(a: seq<T>, b: seq<T>)
    requires |b| > 0 && IsSubseq(a, b[..|b| - 1])
    ensures IsSubseq(a, b)
    decreases |b|, 0
  {
    if |a| > 0 && a[|a| - 1] == b[|b| - 1] {
      SubseqDropLast(a, b[..|b| - 1]);
    }
  }

  /** Dropping the last element keeps a subsequence a subsequence. */
  lemma {:induction false} SubseqDropLast<T>(a: seq<T>, b: seq<T>)
    requires |a| > 0 && IsSubseq(a, b)
    ensures IsSubseq(a[..|a| - 1], b)
    decreases |b|, 1
  {
    if |a| == 1 {
    } else if a[|a| - 1] == b[|b| - 1] {
      SubseqOfPrefix(a[..|a| - 1], b);
    } else {
      SubseqDropLast(a, b[..|b| - 1]);
      SubseqOfPrefix(a[..|a| - 1], b);
    }
  }

  // ---------------------------------------------------------------------------------------
  // The assessment

  /** What the run reports about the merged risks. */
  datatype Assessment = Assessment(high: nat, medium: nat, low: nat, status: AgentStatus,
                                   warnings: seq<Msg>, errors: seq<Msg>)

  /** The counts, the status, and the warnings and errors of the merged risks. */
  function Assess(risks: seq<Json>): (r: Py<Assessment>)
    ensures r.Ok? ==> Severities(risks).Ok?
    ensures r.Ok? ==>
              var sevs := Severities(risks).value;
              && r.value.high == Count(sevs, High) && r.value.medium == Count(sevs, Medium)
              && r.value.low == Count(sevs, Low)
              && r.value.high + r.value.medium + r.value.low <= |risks|
              && (r.value.status == Fail <==> Str(High) in sevs)
              && (r.value.status == Warn <==> Str(High) !in sevs && Str(Medium) in sevs)
              && (r.value.status == Success <==> Str(High) !in sevs && Str(Medium) !in sevs)
              && |r.value.warnings| == r.value.high + r.value.medium
              && |r.value.errors| == r.value.high
              && IsSubseq(r.value.errors, r.value.warnings)
              && Flagged(risks, sevs, {High, Medium}) == Ok(r.value.warnings)
              && Flagged(risks, sevs, {High}) == Ok(r.value.errors)
    // A risk that is not a dict, or a high or medium risk without a description, raises.
    ensures r.Raise? <==> Severities(risks).Raise?
                          || Flagged(risks, Severities(risks).value, {High, Medium}).Raise?
  {
    match Severities(risks)
    case Raise(e) => Raise(e)
    case Ok(sevs) =>
      var high := Count(sevs, High);
      var medium := Count(sevs, Medium);
      var low := Count(sevs, Low);
      match Flagged(risks, sevs, {High, Medium})
      case Raise(e) => Raise(e)
      case Ok(warnings) =>
        ErrorsAmongWarnings(risks, sevs);
        FlaggedCount(risks, sevs);
        CountsBounded(sevs);
        CountPositive(sevs, High);
        CountPositive(sevs, Medium);
        Ok(Assessment(high, medium, low, CountStatus(high, medium), warnings,
                      Flagged(risks, sevs, {High}).value))
  }

  /** `lv_risks.get("overall_risk_level", "neznámé") if lv_risks else "neznámé"`; a truthy
      analysis has by then been read as a dict. */
  function OverallRisk(lvRisks: Json): (r: Json)
    requires Truthy(lvRisks) ==> lvRisks.Obj?
    ensures !Truthy(lvRisks) ==> r == Str(Unknown)
    ensures Truthy(lvRisks) && Lookup(lvRisks.fields, "overall_risk_level").None? ==> r == Str(Unknown)
  {
    if Truthy(lvRisks) then Get(lvRisks, "overall_risk_level", Str(Unknown)).value else Str(Unknown)
  }

  /** `lv_risks.get(key, dflt) if lv_risks else dflt`. */
  function FromAnalysis(lvRisks: Json, key: string, dflt: Json): (r: Json)
    requires Truthy(lvRisks) ==> lvRisks.Obj?
    ensures !Truthy(lvRisks) ==> r == dflt
  {
    if Truthy(lvRisks) then Get(lvRisks, key, dflt).value else dflt
  }

  // ---------------------------------------------------------------------------------------
  // The parcel selection

  /** `[p for p in parcels if p.parcel_number in selected]`. The membership test raises when
      `selected` cannot be searched, which only matters once there is a parcel to test. */
  function SelectParcels(parcels: seq<Parcel>, selected: Json): (r: Py<seq<Parcel>>)
    ensures r.Ok? <==> parcels == [] || selected.Arr? || selected.Str? || selected.Obj?
  {
    if |parcels| == 0 then Ok([])
    else
      var last := parcels[|parcels| - 1];
      match SelectParcels(parcels[..|parcels| - 1], selected)
      case Raise(e) => Raise(e)
      case Ok(kept) =>
        match In(last.parcelNumber, selected)
        case Raise(e) => Raise(e)
        case Ok(b) => Ok(if b then kept + [last] else kept)
  }

  /** The selection keeps parcels in their original order, and only those whose number is in
      `selected`. */
  lemma {:induction false} SelectionKeepsOrder(parcels: seq<Parcel>, selected: Json)
    requires SelectParcels(parcels, selected).Ok?
    ensures IsSubseq(SelectParcels(parcels, selected).value, parcels)
    ensures forall p :: p in SelectParcels(parcels, selected).value ==> In(p.parcelNumber, selected) == Ok(true)
  {
    if |parcels| > 0 {
      var n := |parcels| - 1;
      SelectionKeepsOrder(parcels[..n], selected);
      var kept := SelectParcels(parcels[..n], selected).value;
      if In(parcels[n].parcelNumber, selected) == Ok(true) {
        assert SelectParcels(parcels, selected).value == kept + [parcels[n]];
        assert (kept + [parcels[n]])[..|kept|] == kept;
      } else {
        assert SelectParcels(parcels, selected).value == kept;
        SubseqOfPrefix(kept, parcels);
      }
    }
  }

  /** Every parcel whose number is in `selected` is kept. */
  lemma {:induction false} SelectionKeepsAllSelected(parcels: seq<Parcel>, selected: Json, i: nat)
    requires SelectParcels(parcels, selected).Ok? && i < |parcels|
    requires In(parcels[i].parcelNumber, selected) == Ok(true)
    ensures parcels[i] in SelectParcels(parcels, selected).value
  {
    var n := |parcels| - 1;
    if i < n {
      assert parcels[..n][i] == parcels[i];
      SelectionKeepsAllSelected(parcels[..n], selected, i);
    }
  }

  /** The parcel's number is found in `selected`. */
  predicate IsSelected(p: Parcel, selected: Json) {
    In(p.parcelNumber, selected) == Ok(true)
  }

  /** The positions of the selected parcels, in order: they increase and each holds a selected
      parcel. */
  function SelectedPositions(parcels: seq<Parcel>, selected: Json): (idx: seq<nat>)
    ensures forall k :: 0 <= k < |idx| ==> idx[k] < |parcels| && IsSelected(parcels[idx[k]], selected)
    ensures forall k, l :: 0 <= k < l < |idx| ==> idx[k] < idx[l]
  {
    if |parcels| == 0 then []
    else
      var n := |parcels| - 1;
      var idx0 := SelectedPositions(parcels[..n], selected);
      assert forall k :: 0 <= k < |idx0| ==> parcels[..n][idx0[k]] == parcels[idx0[k]];
      idx0 + (if IsSelected(parcels[n], selected) then [n] else [])
  }

  /** Every selected parcel's position is among the selected positions, duplicates included. */
  lemma {:induction false} SelectedPositionsCover(parcels: seq<Parcel>, selected: Json)
    ensures var idx := SelectedPositions(parcels, selected);
            forall i :: 0 <= i < |parcels| && IsSelected(parcels[i], selected) ==> i in idx
  {
    if |parcels| > 0 {
      var n := |parcels| - 1;
      var init := parcels[..n];
      SelectedPositionsCover(init, selected);
      var idx0 := SelectedPositions(init, selected);
      var idx := SelectedPositions(parcels, selected);
      var pick := IsSelected(parcels[n], selected);
      assert idx == idx0 + (if pick then [n] else []);
      forall i | 0 <= i < n && IsSelected(parcels[i], selected)
        ensures i in idx0
      {
        assert init[i] == parcels[i];
      }
      if pick {
        assert idx[|idx0|] == n;
      }
    }
  }

  /** One step of the selection: a successful selection extends the prefix's selection by the
      last parcel exactly when that parcel is selected. */
  lemma {:induction false} SelectParcelsStep(parcels: seq<Parcel>, selected: Json)
    requires |parcels| > 0 && SelectParcels(parcels, selected).Ok?
    ensures var n := |parcels| - 1;
            && SelectParcels(parcels[..n], selected).Ok?
            && SelectParcels(parcels, selected).value
               == SelectParcels(parcels[..n], selected).value + (if IsSelected(parcels[n], selected) then [parcels[n]] else [])
  {
  }

  /** The k-th kept parcel is the one at the k-th selected position. */
  lemma {:induction false} SelectionContents(parcels: seq<Parcel>, selected: Json)
    requires SelectParcels(parcels, selected).Ok?
    ensures var r := SelectParcels(parcels, selected).value;
            var idx := SelectedPositions(parcels, selected);
            && |idx| == |r|
            && forall k :: 0 <= k < |idx| ==> r[k] == parcels[idx[k]]
  {
    if |parcels| > 0 {
      var n := |parcels| - 1;
      var init := parcels[..n];
      SelectParcelsStep(parcels, selected);
      SelectionContents(init, selected);
      var r0 := SelectParcels(init, selected).value;
      var idx0 := SelectedPositions(init, selected);
      var pick := IsSelected(parcels[n], selected);
      assert SelectedPositions(parcels, selected) == idx0 + (if pick then [n] else []);
      PickedExtend(parcels, n, r0, idx0, pick);
    }
  }

  /** Extending a selection of `xs[..n]` by whether `xs[n]` is picked keeps the k-th picked
      element at the k-th picked position. */
  lemma {:induction false} PickedExtend<T>(xs: seq<T>, n: nat, r0: seq<T>, idx0: seq<nat>, pick: bool)
    requires n < |xs| && |idx0| == |r0|
    requires forall k :: 0 <= k < |idx0| ==> idx0[k] < n && r0[k] == xs[..n][idx0[k]]
    ensures var r := r0 + (if pick then [xs[n]] else []);
            var idx := idx0 + (if pick then [n] else []);
            && |idx| == |r|
            && forall k :: 0 <= k < |idx| ==> idx[k] < |xs| && r[k] == xs[idx[k]]
  {
    var r := r0 + (if pick then [xs[n]] else []);
    var idx := idx0 + (if pick then [n] else []);
    forall k | 0 <= k < |idx|
      ensures idx[k] < |xs| && r[k] == xs[idx[k]]
    {
      if k < |idx0| {
        assert r[k] == r0[k] && idx[k] == idx0[k];
      }
    }
  }

  /** The selection keeps exactly the selected parcels, every copy of each, in their original
      order: the kept parcels are those at the positions of exactly the selected parcels, in
      increasing order. */
  lemma {:induction false} SelectionMeaning(parcels: seq<Parcel>, selected: Json)
    requires SelectParcels(parcels, selected).Ok?
    ensures var r := SelectParcels(parcels, selected).value;
            var idx := SelectedPositions(parcels, selected);
            && |idx| == |r|
            && (forall k :: 0 <= k < |idx| ==> IsSelected(parcels[idx[k]], selected) && r[k] == parcels[idx[k]])
            && (forall k, l :: 0 <= k < l < |idx| ==> idx[k] < idx[l])
            && (forall i :: 0 <= i < |parcels| && IsSelected(parcels[i], selected) ==> i in idx)
  {
    SelectedPositionsCover(parcels, selected);
    SelectionContents(parcels, selected);
  }

  /** A parcel list whose prefix raises raises as a whole, with the same exception. */
  lemma {:induction false} SelectParcelsPrefix(parcels: seq<Parcel>, selected: Json, n: nat)
    requires n <= |parcels| && SelectParcels(parcels[..n], selected).Raise?
    ensures SelectParcels(parcels, selected) == SelectParcels(parcels[..n], selected)
    decreases |parcels| - n
  {
    if n < |parcels| {
      assert parcels[..n + 1][..n] == parcels[..n];
      SelectParcelsPrefix(parcels, selected, n + 1);
    } else {
      assert parcels[..n] == parcels;
    }
  }

  /** The comprehension that narrows `lv_data.parcels` to the selection. */
  method FilterParcels(parcels: seq<Parcel>, selected: Json) returns (r: Py<seq<Parcel>>)
    ensures r == SelectParcels(parcels, selected)
  {
    var kept: seq<Parcel> := [];
    var i := 0;
    assert parcels[..0] == [];
    while i < |parcels|
      invariant 0 <= i <= |parcels|
      invariant SelectParcels(parcels[..i], selected) == Ok(kept)
    {
      assert parcels[..i + 1][..i] == parcels[..i];
      var b := In(parcels[i].parcelNumber, selected);
      if b.Raise? {
        SelectParcelsPrefix(parcels, selected, i + 1);
        return Raise(b.exc);
      }
      if b.value {
        kept := kept + [parcels[i]];
      }
      i := i + 1;
    }
    assert parcels[..i] == parcels;
    r := Ok(kept);
  }

  // ---------------------------------------------------------------------------------------
  // The AI analyses

  /** `_analyze_lv_risks`: the decoded reply when it is a dict. No client, a failed call, and a
      reply that is not a dict (whose `.get` raises inside the `try`) all give `None`. */
  function LvAnalysis(call: AiCall<Json>): (r: Json)
    ensures r.Null? || r.Obj?
    ensures r.Obj? ==> call == Answered(r)
  {
    if call.Answered? && call.reply.Obj? then call.reply else Null
  }

  /** `len` accepts the value. */
  predicate Sized(v: Json) {
    v.Str? || v.Arr? || v.Obj?
  }

  /** `_analyze_ortofoto`: as for the record analysis, and the reply's `buildings_detected`
      must also have a length, or the `len` raises inside the `try`. */
  function OrtofotoAnalysis(call: AiCall<Json>): (r: Json)
    ensures r.Null? || r.Obj?
    ensures r.Obj? ==> call == Answered(r) && Sized(Get(r, "buildings_detected", Arr([])).value)
  {
    if call.Answered? && call.reply.Obj? && Sized(Get(call.reply, "buildings_detected", Arr([])).value)
    then call.reply else Null
  }

  // ---------------------------------------------------------------------------------------
  // The result

  /** The result when no ownership record was uploaded. */
  function Skipped(): (r: AgentResult)
    ensures r.status == Warn && r.errors == [] && |r.warnings| == 1
    ensures r.details == map["skipped" := Bool(true)]
  {
    Plain(Warn, M("List vlastnictví nebyl nahrán."), map["skipped" := Bool(true)],
          [M("LV nebylo nahráno – analýza katastru přeskočena.")], [])
  }

  /** The result when reading or parsing the record raised `e`. */
  function ParseFailed(e: Exc): (r: AgentResult)
    ensures r.status == Fail && r.errors == [M(e.text)] && r.warnings == [] && r.details == map[]
  {
    Plain(Fail, M("Chyba při čtení LV: ") + [Val(Str(e.text))], map[], [], [M(e.text)])
  }

  /** `LV {lv_number} – {kat_uzemi_nazev}: {h} vysokých, {m} středních, {l} nízkých rizik`. */
  function Summary(data: LVData, a: Assessment): Msg {
    [Lit("LV "), Val(Str(data.lvNumber)), Lit(" – "), Val(Str(data.katUzemiNazev)), Lit(": "),
     Val(Int(a.high)), Lit(" vysokých, "), Val(Int(a.medium)), Lit(" středních, "),
     Val(Int(a.low)), Lit(" nízkých rizik")]
  }

  /** The details both analysts report. */
  function Details(data: LVData, risks: seq<Json>, lvRisks: Json, ortofoto: Json): map<string, Json>
    requires lvRisks.Null? || lvRisks.Obj?
  {
    map["lv_data" := ToJson(data), "risks" := Arr(risks),
        "overall_risk_level" := OverallRisk(lvRisks),
        "lv_risk_summary" := FromAnalysis(lvRisks, "summary", Str("")),
        "ortofoto_analysis" := ortofoto]
  }

  /** The entries of the details, read back. */
  lemma DetailsFields(data: LVData, risks: seq<Json>, lvRisks: Json, ortofoto: Json)
    requires lvRisks.Null? || lvRisks.Obj?
    ensures var d := Details(data, risks, lvRisks, ortofoto);
            && d.Keys == {"lv_data", "risks", "overall_risk_level", "lv_risk_summary", "ortofoto_analysis"}
            && d["lv_data"] == ToJson(data) && d["risks"] == Arr(risks) && d["ortofoto_analysis"] == ortofoto
            && (!Truthy(lvRisks) ==> d["overall_risk_level"] == Str(Unknown) && d["lv_risk_summary"] == Str(""))
  {
  }

  /** What `run` does with a parsed record: narrow its parcels to a non-empty selection, merge
      the risks, and report the assessment of the merged risks. */
  function Report(lv: LVData, selected: Json, lvRisks: Json, ortofoto: Json): (o: RunOutcome)
    requires lvRisks.Null? || lvRisks.Obj?
    // The run raises exactly when the selection test, the merge or the assessment raises.
    ensures o.Raised? <==> (Truthy(selected) && SelectParcels(lv.parcels, selected).Raise?)
                           || AllRisks(lvRisks, ortofoto).Raise?
                           || Assess(AllRisks(lvRisks, ortofoto).value).Raise?
  {
    var parcels := if Truthy(selected) then SelectParcels(lv.parcels, selected) else Ok(lv.parcels);
    match parcels
    case Raise(e) => Raised(e)
    case Ok(ps) => RiskRun(lv.(parcels := ps), lvRisks, ortofoto)
  }

  /** The run once the parcels are settled: the risks are merged and assessed. */
  function RiskRun(data: LVData, lvRisks: Json, ortofoto: Json): (o: RunOutcome)
    requires lvRisks.Null? || lvRisks.Obj?
    ensures o.Raised? <==> AllRisks(lvRisks, ortofoto).Raise? || Assess(AllRisks(lvRisks, ortofoto).value).Raise?
  {
    match AllRisks(lvRisks, ortofoto)
    case Raise(e) => Raised(e)
    case Ok(risks) =>
      match Assess(risks)
      case Raise(e) => Raised(e)
      case Ok(a) =>
        Returned(Plain(a.status, Summary(data, a), Details(data, risks, lvRisks, ortofoto),
                       a.warnings, a.errors))
  }

  /** A run that returns reports the assessment of the merged risks, the record with exactly
      its selected parcels (all of them without a selection), and an unknown overall risk
      when there is no analysis of the record. */
  lemma ReportReturns(lv: LVData, selected: Json, lvRisks: Json, ortofoto: Json)
    requires lvRisks.Null? || lvRisks.Obj?
    requires Report(lv, selected, lvRisks, ortofoto).Returned?
    ensures var o := Report(lv, selected, lvRisks, ortofoto).result;
            var risks := AllRisks(lvRisks, ortofoto).value;
            var a := Assess(risks).value;
            && o.status == a.status && o.warnings == a.warnings && o.errors == a.errors
            && o.category.None? && o.score.None?
            && o.details["risks"] == Arr(risks)
            && o.details["ortofoto_analysis"] == ortofoto
            && (!Truthy(selected) ==> o.details["lv_data"] == ToJson(lv))
            && (Truthy(selected) ==>
                  o.details["lv_data"] == ToJson(lv.(parcels := SelectParcels(lv.parcels, selected).value)))
            && (!Truthy(lvRisks) ==>
                  (o.details["overall_risk_level"] == Str(Unknown) && o.details["lv_risk_summary"] == Str("")))
  {
    var ps := if Truthy(selected) then SelectParcels(lv.parcels, selected).value else lv.parcels;
    DetailsFields(lv.(parcels := ps), AllRisks(lvRisks, ortofoto).value, lvRisks, ortofoto);
  }

  /** Step 6 and the parcel filter before it, step by step: `lv_data.parcels` is reassigned
      and `all_risks` is built before the counts are taken. */
  method Analyse(lv: LVData, selected: Json, lvRisks: Json, ortofoto: Json) returns (o: RunOutcome)
    requires lvRisks.Null? || lvRisks.Obj?
    ensures o == Report(lv, selected, lvRisks, ortofoto)
  {
    var kept := Ok(lv.parcels);
    if Truthy(selected) {
      kept := FilterParcels(lv.parcels, selected);
      if kept.Raise? {
        return Raised(kept.exc);
      }
    }
    o := MergeAndAssess(lv.(parcels := kept.value), lvRisks, ortofoto);
  }

  /** Steps 6 and 7 of the run: `all_risks` is built, then assessed. */
  method MergeAndAssess(data: LVData, lvRisks: Json, ortofoto: Json) returns (o: RunOutcome)
    requires lvRisks.Null? || lvRisks.Obj?
    ensures o == RiskRun(data, lvRisks, ortofoto)
  {
    var merged := MergeRisks(lvRisks, ortofoto);
    if merged.Raise? {
      return Raised(merged.exc);
    }
    var assessed := Assess(merged.value);
    if assessed.Raise? {
      return Raised(assessed.exc);
    }
    var a := assessed.value;
    o := Returned(Plain(a.status, Summary(data, a), Details(data, merged.value, lvRisks, ortofoto),
                        a.warnings, a.errors));
  }
}
