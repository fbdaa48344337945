/** The strategist agent: it aggregates the results of all other agents, consults the data
    matrix, and decides the traffic-light verdict (the semaphore). */
module Strategist {
  import opened Wrappers
  import opened Json
  import opened Base
  import Config
  import Text

  /** One entry of `agent_results`: an agent name and its result, which may be missing. */
  type Entry = (string, Option<AgentResult>)

  /** Whether the aggregation loop counts an entry: it has a result and is not the strategist. */
  predicate IsCounted(e: Entry) {
    e.1.Some? && e.0 != "Strategist"
  }

  /** The counted entries, in iteration order. */
  function Counted(entries: seq<Entry>): (rs: seq<(string, AgentResult)>)
    ensures |rs| <= |entries|
  {
    if |entries| == 0 then []
    else
      var e := entries[|entries| - 1];
      Counted(entries[..|entries| - 1]) + (if IsCounted(e) then [(e.0, e.1.value)] else [])
  }

  /** The positions of the counted entries, in iteration order. */
  function CountedPositions(entries: seq<Entry>): (idx: seq<nat>)
    ensures forall k :: 0 <= k < |idx| ==> idx[k] < |entries|
  {
    if |entries| == 0 then []
    else
      var n := |entries| - 1;
      CountedPositions(entries[..n]) + (if IsCounted(entries[n]) then [n] else [])
  }

  /** Missing results and the strategist's own entry are skipped, and every other entry is
      counted, in iteration order: the counted entries are those at the positions of exactly the
      entries with a result whose name is not "Strategist", in increasing order. */
  lemma {:induction false} CountedMeaning(entries: seq<Entry>)
    ensures var rs := Counted(entries);
            var idx := CountedPositions(entries);
            && |idx| == |rs|
            && (forall k :: 0 <= k < |idx| ==>
                  && entries[idx[k]].1.Some? && entries[idx[k]].0 != "Strategist"
                  && rs[k] == (entries[idx[k]].0, entries[idx[k]].1.value))
            && (forall k, l :: 0 <= k < l < |idx| ==> idx[k] < idx[l])
            && (forall i :: 0 <= i < |entries| && IsCounted(entries[i]) ==> i in idx)
  {
    CountedPositionsMeaning(entries);
    CountedContents(entries);
  }

  /** The counted positions increase, each holds a counted entry, and none is missed. */
  lemma {:induction false} CountedPositionsMeaning(entries: seq<Entry>)
    ensures var idx := CountedPositions(entries);
            && (forall k :: 0 <= k < |idx| ==> IsCounted(entries[idx[k]]))
            && (forall k, l :: 0 <= k < l < |idx| ==> idx[k] < idx[l])
            && (forall i :: 0 <= i < |entries| && IsCounted(entries[i]) ==> i in idx)
  {
    if |entries| > 0 {
      var n := |entries| - 1;
      var init := entries[..n];
      CountedPositionsMeaning(init);
      var idx0 := CountedPositions(init);
      assert forall k :: 0 <= k < |idx0| ==> IsCounted(init[idx0[k]]);
      var idx := CountedPositions(entries);
      assert idx == idx0 + (if IsCounted(entries[n]) then [n] else []);
      forall k | 0 <= k < |idx0|
        ensures idx[k] == idx0[k] < n && IsCounted(entries[idx[k]])
      {
        assert IsCounted(init[idx0[k]]) && init[idx0[k]] == entries[idx0[k]];
      }
      forall i | 0 <= i < |entries| && IsCounted(entries[i])
        ensures i in idx
      {
        if i < n {
          assert init[i] == entries[i];
          assert i in idx0;
        } else {
          assert idx[|idx0|] == n;
        }
      }
    }
  }

  /** The k-th counted summary is that of the entry at the k-th counted position. */
  lemma {:induction false} CountedContents(entries: seq<Entry>)
    ensures var rs := Counted(entries);
            var idx := CountedPositions(entries);
            && |idx| == |rs|
            && forall k :: 0 <= k < |idx| ==>
                 entries[idx[k]].1.Some? && rs[k] == (entries[idx[k]].0, entries[idx[k]].1.value)
  {
    if |entries| > 0 {
      var n := |entries| - 1;
      var init := entries[..n];
      CountedContents(init);
      var rs0 := Counted(init);
      var idx0 := CountedPositions(init);
      assert forall k :: 0 <= k < |idx0| ==> idx0[k] < n && init[idx0[k]] == entries[idx0[k]];
      if IsCounted(entries[n]) {
        assert Counted(entries) == rs0 + [(entries[n].0, entries[n].1.value)];
        assert CountedPositions(entries) == idx0 + [n];
      } else {
        assert Counted(entries) == rs0;
        assert CountedPositions(entries) == idx0;
      }
    }
  }

  /** The sum of the lengths of the warning lists. */
  function SumWarnings(rs: seq<(string, AgentResult)>): nat {
    if |rs| == 0 then 0 else SumWarnings(rs[..|rs| - 1]) + |rs[|rs| - 1].1.warnings|
  }

  /** Some result has status FAIL. */
  predicate AnyFail(rs: seq<(string, AgentResult)>) {
    |rs| > 0 && (AnyFail(rs[..|rs| - 1]) || rs[|rs| - 1].1.status == Fail)
  }

  /** `has_fail` holds exactly when some counted result has status FAIL. */
  lemma {:induction false} AnyFailMeaning(rs: seq<(string, AgentResult)>)
    ensures AnyFail(rs) <==> exists i :: 0 <= i < |rs| && rs[i].1.status == Fail
  {
    if |rs| > 0 {
      var n := |rs| - 1;
      AnyFailMeaning(rs[..n]);
      assert forall i :: 0 <= i < n ==> rs[..n][i] == rs[i];
    }
  }

  function AllWarnings(rs: seq<(string, AgentResult)>): seq<Msg> {
    if |rs| == 0 then [] else AllWarnings(rs[..|rs| - 1]) + rs[|rs| - 1].1.warnings
  }

  function AllErrors(rs: seq<(string, AgentResult)>): seq<Msg> {
    if |rs| == 0 then [] else AllErrors(rs[..|rs| - 1]) + rs[|rs| - 1].1.errors
  }

  /** The aggregation loop: collects the counted results, adds up their warnings, notes whether
      any failed, and concatenates their warning and error lists in iteration order. */
  method Aggregate(entries: seq<Entry>)
    returns (summaries: seq<(string, AgentResult)>, totalWarns: nat, hasFail: bool,
             allWarnings: seq<Msg>, allErrors: seq<Msg>)
    ensures summaries == Counted(entries)
    ensures totalWarns == SumWarnings(summaries)
    ensures hasFail <==> AnyFail(summaries)
    ensures allWarnings == AllWarnings(summaries) && allErrors == AllErrors(summaries)
  {
    summaries, totalWarns, hasFail, allWarnings, allErrors := [], 0, false, [], [];
    var i := 0;
    while i < |entries|
      invariant 0 <= i <= |entries|
      invariant summaries == Counted(entries[..i])
      invariant totalWarns == SumWarnings(summaries)
      invariant hasFail <==> AnyFail(summaries)
      invariant allWarnings == AllWarnings(summaries) && allErrors == AllErrors(summaries)
    {
      var (name, r) := entries[i];
      assert entries[..i + 1][..i] == entries[..i];
      if r.Some? && name != "Strategist" {
        var old_ := summaries;
        summaries := summaries + [(name, r.value)];
        assert summaries[..|summaries| - 1] == old_;
        totalWarns := totalWarns + |r.value.warnings|;
        allWarnings := allWarnings + r.value.warnings;
        allErrors := allErrors + r.value.errors;
        if r.value.status == Fail {
          hasFail := true;
        }
        assert AnyFail(summaries) == (AnyFail(old_) || r.value.status == Fail);
      }
      i := i + 1;
    }
    assert entries[..|entries|] == entries;
  }

  /** The base warning count is the number of collected warnings. */
  lemma {:induction false} WarningCountIsLength(rs: seq<(string, AgentResult)>)
    ensures SumWarnings(rs) == |AllWarnings(rs)|
  {
    if |rs| > 0 {
      WarningCountIsLength(rs[..|rs| - 1]);
    }
  }

  /** The value `agent_results.get(name)`: the result stored under `name`, if any. */
  function ResultOf(entries: seq<Entry>, name: string): (r: Option<AgentResult>)
    ensures r.Some? ==> exists i :: 0 <= i < |entries| && entries[i] == (name, r)
  {
    if |entries| == 0 then None
    else if entries[|entries| - 1].0 == name then entries[|entries| - 1].1
    else ResultOf(entries[..|entries| - 1], name)
  }

  /** A counted entry that failed makes `has_fail` true. */
  lemma {:induction false} CountedFailIsFail(entries: seq<Entry>, i: int)
    requires 0 <= i < |entries| && IsCounted(entries[i]) && entries[i].1.value.status == Fail
    ensures AnyFail(Counted(entries))
  {
    var n := |entries| - 1;
    if i == n {
      var rs := Counted(entries);
      assert rs[|rs| - 1] == (entries[n].0, entries[n].1.value);
    } else {
      assert entries[..n][i] == entries[i];
      CountedFailIsFail(entries[..n], i);
      var pre := Counted(entries[..n]);
      var rs := Counted(entries);
      if rs != pre {
        assert rs[..|rs| - 1] == pre;
      }
    }
  }

  /** A Guardian FAIL always sets `has_fail`: the separate Guardian guard adds nothing. */
  lemma {:induction false} GuardianFailImpliesHasFail(entries: seq<Entry>)
    requires ResultOf(entries, "Guardian").Some? && ResultOf(entries, "Guardian").value.status == Fail
    ensures AnyFail(Counted(entries))
  {
    var g := ResultOf(entries, "Guardian");
    var i :| 0 <= i < |entries| && entries[i] == ("Guardian", g);
    CountedFailIsFail(entries, i);
  }

  // ---------------------------------------------------------------- the matrix step

  /** The effective age the historian reported, or `None` when there is no historian result or
      its `effective_age` is missing or `None`. */
  function EffectiveAgeOf(historian: Option<AgentResult>): (age: Option<Json>)
    ensures age.Some? ==> age.value != Null
    ensures age.Some? <==> historian.Some? && "effective_age" in historian.value.details
                           && historian.value.details["effective_age"] != Null
    ensures age.Some? ==> age.value == historian.value.details["effective_age"]
  {
    if historian.Some? && "effective_age" in historian.value.details
       && historian.value.details["effective_age"] != Null
    then Some(historian.value.details["effective_age"])
    else None
  }

  /** The inspection score as a whole number, or `None` when there is none. */
  function AiScoreOf(inspector: Option<AgentResult>): (score: Option<int>)
    ensures score.Some? <==> inspector.Some? && inspector.value.score.Some?
    ensures score.Some? ==> -1.0 < inspector.value.score.value - score.value as real < 1.0
    ensures score.Some? && inspector.value.score.value >= 0.0 ==> score.value == inspector.value.score.value.Floor
  {
    if inspector.Some? && inspector.value.score.Some? then Some(Trunc(inspector.value.score.value))
    else None
  }

  /** The matrix cell for the effective age and the score. The matrix is consulted only when both
      exist; comparing an effective age that is not a number with 5 raises `TypeError`. */
  function MatrixStep(age: Option<Json>, score: Option<int>): (r: Py<Option<(int, string)>>)
    ensures age.None? || score.None? ==> r == Ok(None)
    ensures age.Some? && score.Some? ==>
              (r.Raise? <==> Numeric(age.value).None?)
              && (r.Ok? ==> r.value == Some(Config.MatrixCell(Numeric(age.value).value, score.value)))
    ensures r.Ok? && r.value.Some? ==>
              1 <= r.value.value.0 <= 5
              && r.value.value.1 in {Config.Shoda, Config.Varovani, Config.Konflikt}
  {
    if age.None? || score.None? then Ok(None)
    else
      match Compare(age.value, Le, Int(5))
      case Raise(e) => Raise(e)
      case Ok(_) => Ok(Some(Config.MatrixCell(Numeric(age.value).value, score.value)))
  }

  /** The number of warnings the matrix step adds: one for a conflict. */
  function ConflictWarnings(cell: Option<(int, string)>): (n: nat)
    ensures n == 1 <==> cell.Some? && cell.value.1 == Config.Konflikt
    ensures n <= 1
  {
    if cell.Some? && cell.value.1 == Config.Konflikt then 1 else 0
  }

  /** The final category: the matrix category when there is one, else the historian's; a
      critical finding of the inspector forces category 5. */
  function FinalCategory(cell: Option<(int, string)>, historian: Option<AgentResult>, critical: bool)
    : (c: Option<int>)
    ensures critical ==> c == Some(5)
    ensures !critical && cell.Some? ==> c == Some(cell.value.0)
    ensures !critical && cell.None? && historian.Some? ==> c == historian.value.category
    ensures !critical && cell.None? && historian.None? ==> c.None?
  {
    if critical then Some(5)
    else if cell.Some? then Some(cell.value.0)
    else if historian.Some? && historian.value.category.Some? then historian.value.category
    else None
  }

  /** Whether the inspector flagged a critical finding (`details.get("critical_override")`). */
  function CriticalOverride(inspector: Option<AgentResult>): (critical: bool)
    ensures critical ==> inspector.Some?
    // A missing entry reads as `None`, which is falsy; a present one counts by its truth value.
    ensures inspector.Some? && "critical_override" !in inspector.value.details ==> !critical
    ensures inspector.Some? && "critical_override" in inspector.value.details ==>
              (critical <==> Truthy(inspector.value.details["critical_override"]))
  {
    inspector.Some? && "critical_override" in inspector.value.details
    && Truthy(inspector.value.details["critical_override"])
  }

  // ---------------------------------------------------------------- the verdict

  datatype Semaphore = Red | Orange | Green

  function SemaphoreText(s: Semaphore): string {
    match s
    case Red => "VRÁTIT KLIENTOVI"
    case Orange => "SUPERVISED"
    case Green => "ONLINE"
  }

  function SemaphoreColor(s: Semaphore): string {
    match s
    case Red => "red"
    case Orange => "orange"
    case Green => "green"
  }

  /** Red on any failure or three warnings, orange on one or two warnings, green otherwise. */
  function ChooseSemaphore(hasFail: bool, guardianFail: bool, totalWarns: nat): (s: Semaphore)
    ensures s == Red <==> hasFail || guardianFail || totalWarns >= 3
    ensures s == Orange <==> !hasFail && !guardianFail && 1 <= totalWarns <= 2
    ensures s == Green <==> !hasFail && !guardianFail && totalWarns == 0
  {
    if hasFail || guardianFail || totalWarns >= 3 then Red
    else if totalWarns >= 1 then Orange
    else Green
  }

  /** The status of a verdict, found by comparing the semaphore text. */
  function SemaphoreStatus(s: Semaphore): (st: AgentStatus)
    ensures st == Fail <==> s == Red
    ensures st == Warn <==> s == Orange
    ensures st == Success <==> s == Green
  {
    if SemaphoreText(s) == "VRÁTIT KLIENTOVI" then Fail
    else if SemaphoreText(s) == "SUPERVISED" then Warn
    else Success
  }

  /** Since a Guardian FAIL already sets `has_fail`, the Guardian guard never changes the verdict. */
  lemma {:induction false} GuardianGuardRedundant(entries: seq<Entry>, hasFail: bool, totalWarns: nat)
    requires hasFail == AnyFail(Counted(entries))
    ensures ChooseSemaphore(hasFail, GuardianFailed(entries), totalWarns)
         == ChooseSemaphore(hasFail, false, totalWarns)
  {
    if GuardianFailed(entries) {
      GuardianFailImpliesHasFail(entries);
    }
  }

  predicate GuardianFailed(entries: seq<Entry>) {
    ResultOf(entries, "Guardian").Some? && ResultOf(entries, "Guardian").value.status == Fail
  }

  // ---------------------------------------------------------------- the report

  /** The line of the fallback report naming one agent's summary. */
  function SummaryLine(s: (string, AgentResult)): Msg {
    M(s.0 + ": ") + s.1.summary
  }

  /** The lines of the fallback report that precede the agent summaries. */
  function ReportHeader(semaphore: Semaphore, category: Option<int>): (h: seq<Msg>)
    ensures |h| == (if category.Some? && category.value != 0 then 3 else 2)
    ensures h[0] == M("Verdikt: " + SemaphoreText(semaphore))
    ensures |h| == 3 ==> h[1] == [Lit("Přiřazená kategorie: "), Val(Int(category.value))]
    ensures h[|h| - 1] == M("")
  {
    [M("Verdikt: " + SemaphoreText(semaphore))]
    + (if category.Some? && category.value != 0
       then [[Lit("Přiřazená kategorie: "), Val(Int(category.value))]] else [])
    + [M("")]
  }

  /** The lines of the fallback report: the header, then one line per agent summary in order. */
  function FallbackLines(summaries: seq<(string, AgentResult)>, semaphore: Semaphore, category: Option<int>)
    : seq<Msg>
  {
    ReportHeader(semaphore, category) + seq(|summaries|, k requires 0 <= k < |summaries| => SummaryLine(summaries[k]))
  }

  /** The fallback report starts with the verdict line. */
  lemma FallbackStartsWithVerdict(summaries: seq<(string, AgentResult)>, semaphore: Semaphore, category: Option<int>)
    ensures IsPrefix(M("Verdikt: " + SemaphoreText(semaphore)), JoinLines(FallbackLines(summaries, semaphore, category)))
  {
    JoinLinesStartsWithFirst(FallbackLines(summaries, semaphore, category));
  }

  /** `_fallback_report`: the verdict line, the category line when a category is set, a blank
      line, then one line per agent summary in order. */
  method FallbackReport(summaries: seq<(string, AgentResult)>, semaphore: Semaphore, category: Option<int>)
    returns (lines: seq<Msg>, report: Msg)
    ensures var h := if category.Some? && category.value != 0 then 3 else 2;
            && |lines| == h + |summaries|
            && lines[0] == M("Verdikt: " + SemaphoreText(semaphore))
            && (h == 3 ==> lines[1] == [Lit("Přiřazená kategorie: "), Val(Int(category.value))])
            && lines[h - 1] == M("")
            && forall k :: 0 <= k < |summaries| ==> lines[h + k] == SummaryLine(summaries[k])
    ensures lines == FallbackLines(summaries, semaphore, category)
    ensures report == JoinLines(lines)
  {
    lines := ReportHeader(semaphore, category);
    var h := |lines|;
    var i := 0;
    while i < |summaries|
      invariant 0 <= i <= |summaries|
      invariant |lines| == h + i
      invariant lines[..h] == ReportHeader(semaphore, category)
      invariant forall k :: 0 <= k < i ==> lines[h + k] == SummaryLine(summaries[k])
    {
      lines := lines + [SummaryLine(summaries[i])];
      i := i + 1;
    }
    assert lines == FallbackLines(summaries, semaphore, category);
    report := JoinLines(lines);
  }

  /** The summary: the AI report stripped of surrounding white space, or the fallback report when
      there is no client or the call fails. */
  method HumanReport(call: AiCall<string>, summaries: seq<(string, AgentResult)>,
                     semaphore: Semaphore, category: Option<int>)
    returns (report: Msg)
    ensures call.Answered? ==> report == M(Text.Strip(call.reply))
    ensures !call.Answered? ==> report == JoinLines(FallbackLines(summaries, semaphore, category))
  {
    if call.Answered? {
      report := M(Text.Strip(call.reply));
    } else {
      var lines;
      lines, report := FallbackReport(summaries, semaphore, category);
    }
  }

  predicate IsPrefix(a: Msg, b: Msg) {
    |a| <= |b| && b[..|a|] == a
  }

  /** The joined report starts with its first line. */
  lemma {:induction false} JoinLinesStartsWithFirst(lines: seq<Msg>)
    requires |lines| > 0
    ensures IsPrefix(lines[0], JoinLines(lines))
  {
    if |lines| > 1 {
      var j := JoinLines(lines);
      assert j == lines[0] + (M("\n") + JoinLines(lines[1..]));
    }
  }

  function CategoryValue(c: Option<int>): Json {
    match c
    case None => Null
    case Some(v) => Int(v)
  }

  /** The details of the verdict: the semaphore, its colour, the final category, the warning
      total, the fail flag and the matrix cell used. */
  function Details(semaphore: Semaphore, finalCategory: Option<int>, totalWarns: nat, hasFail: bool,
                   matrixResult: Json): (d: map<string, Json>)
    ensures d.Keys == {"semaphore", "semaphore_color", "final_category", "total_warnings", "has_fail", "matrix_result"}
    ensures d["final_category"] == CategoryValue(finalCategory) && d["matrix_result"] == matrixResult
    ensures d["semaphore"] == Str(SemaphoreText(semaphore))
    ensures d["semaphore_color"] == Str(SemaphoreColor(semaphore))
    ensures d["total_warnings"] == Int(totalWarns)
    ensures d["has_fail"] == Bool(hasFail)
  {
    map["semaphore" := Str(SemaphoreText(semaphore)),
        "semaphore_color" := Str(SemaphoreColor(semaphore)),
        "final_category" := CategoryValue(finalCategory),
        "total_warnings" := Int(totalWarns),
        "has_fail" := Bool(hasFail),
        "matrix_result" := matrixResult]
  }

  /** What `run` returns once the matrix cell `cell` is known: the status of the semaphore
      chosen from the failures, the warning total (with one more for a conflict) and the
      Guardian; the category by precedence; the agents' warnings and errors concatenated; the
      report; and the details of the verdict. */
  predicate Decided(result: AgentResult, entries: seq<Entry>, call: AiCall<string>,
                    cell: Option<(int, string)>)
  {
    var historian := ResultOf(entries, "Historian");
    var inspector := ResultOf(entries, "Inspector");
    var rs := Counted(entries);
    var critical := CriticalOverride(inspector);
    var hasFail := AnyFail(rs) || critical;
    var totalWarns := SumWarnings(rs) + ConflictWarnings(cell);
    var semaphore := ChooseSemaphore(hasFail, GuardianFailed(entries), totalWarns);
    && result.status == SemaphoreStatus(semaphore)
    && result.category == FinalCategory(cell, historian, critical)
    && result.score.None?
    && (call.Answered? ==> result.summary == M(Text.Strip(call.reply)))
    && (!call.Answered? ==> result.summary == JoinLines(FallbackLines(rs, semaphore, result.category)))
    && result.warnings == AllWarnings(rs)
    && result.errors == AllErrors(rs)
    && result.details.Keys == {"semaphore", "semaphore_color", "final_category", "total_warnings", "has_fail", "matrix_result"}
    && result.details["semaphore"] == Str(SemaphoreText(semaphore))
    && result.details["semaphore_color"] == Str(SemaphoreColor(semaphore))
    && result.details["final_category"] == CategoryValue(result.category)
    && result.details["total_warnings"] == Int(totalWarns)
    && result.details["has_fail"] == Bool(hasFail)
    && result.details["matrix_result"] == MatrixResult(EffectiveAgeOf(historian), AiScoreOf(inspector), cell)
  }

  /** `StrategistAgent.run`: `call` is what the AI service gives for the report. The run raises
      exactly when the matrix step does; otherwise it returns the decided result. */
  method Run(entries: seq<Entry>, call: AiCall<string>) returns (o: RunOutcome)
    ensures var step := MatrixStep(EffectiveAgeOf(ResultOf(entries, "Historian")),
                                   AiScoreOf(ResultOf(entries, "Inspector")));
            && (o.Raised? <==> step.Raise?)
            && (o.Raised? ==> o.exc == step.exc)
            && (o.Returned? ==> Decided(o.result, entries, call, step.value))
  {
    var historian := ResultOf(entries, "Historian");
    var inspector := ResultOf(entries, "Inspector");
    var step := MatrixStep(EffectiveAgeOf(historian), AiScoreOf(inspector));
    if step.Raise? {
      return Raised(step.exc);
    }
    var result := Conclude(entries, call, step.value);
    o := Returned(result);
  }

  /** `matrix_result`: the age, the score and the cell found, or `None` when the matrix was not
      consulted. */
  function MatrixResult(age: Option<Json>, score: Option<int>, cell: Option<(int, string)>): (j: Json)
    ensures j.Null? <==> cell.None? || age.None? || score.None?
  {
    if cell.Some? && age.Some? && score.Some? then
      Obj([("effective_age", age.value), ("ai_score", Int(score.value)),
           ("category", Int(cell.value.0)), ("match_type", Str(cell.value.1))])
    else Null
  }

  /** The part of `run` after the matrix lookup, given the cell `cell` it found. */
  method Conclude(entries: seq<Entry>, call: AiCall<string>, cell: Option<(int, string)>)
    returns (result: AgentResult)
    ensures Decided(result, entries, call, cell)
  {
    var summaries, totalWarns, hasFail, allWarnings, allErrors := Aggregate(entries);
    var guardianFail := GuardianFailed(entries);
    var historian := ResultOf(entries, "Historian");
    var inspector := ResultOf(entries, "Inspector");
    totalWarns := totalWarns + ConflictWarnings(cell);
    var critical := CriticalOverride(inspector);
    var finalCategory := FinalCategory(cell, historian, critical);
    if critical {
      hasFail := true;
    }
    assert hasFail == (AnyFail(summaries) || critical);
    var semaphore := ChooseSemaphore(hasFail, guardianFail, totalWarns);
    assert semaphore == ChooseSemaphore(AnyFail(Counted(entries)) || critical, guardianFail,
                                        SumWarnings(Counted(entries)) + ConflictWarnings(cell));
    var report := HumanReport(call, summaries, semaphore, finalCategory);
    result := AgentResult(
      SemaphoreStatus(semaphore), finalCategory, None, report,
      Details(semaphore, finalCategory, totalWarns, hasFail,
              MatrixResult(EffectiveAgeOf(historian), AiScoreOf(inspector), cell)),
      allWarnings, allErrors);
  }
}
