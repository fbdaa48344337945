/** The inspector agent: the AI decides whether the building is fit for an online valuation
    (verdict "ANO" or "NE"), and the verdict becomes the status. */
module Inspektor {
  import opened Wrappers
  import opened Json
  import opened Base
  import Text

  /** The result when no client is configured: WARN with score 0. */
  function NoClientResult(): (r: AgentResult)
    ensures r.status == Warn && r.score == Some(0.0) && |r.warnings| == 1 && r.errors == []
  {
    AgentResult(Warn, None, Some(0.0), M("Inspekce nedostupná (chybí API klíč)"), map[],
                [M("AI inspekce nedostupná.")], [])
  }

  /** The result when the inspection raises: WARN with score 0. */
  function FailedResult(e: Exc): (r: AgentResult)
    ensures r.status == Warn && r.score == Some(0.0) && r.errors == []
    ensures r.warnings == [M("Inspekce selhala: " + e.text)]
  {
    AgentResult(Warn, None, Some(0.0), M("Chyba inspekce: " + e.text), map[],
                [M("Inspekce selhala: " + e.text)], [])
  }

  /** `verdikt.upper() == "NE"`: true exactly for the four spellings of "ne". */
  predicate IsNo(verdikt: string) {
    Text.Upper(verdikt) == "NE"
  }

  lemma {:induction false} IsNoSpellings(verdikt: string)
    ensures IsNo(verdikt) <==> verdikt in {"NE", "Ne", "nE", "ne"}
  {
    if IsNo(verdikt) {
      assert |verdikt| == 2;
      assert Text.UpperChar(verdikt[0]) == 'N' && Text.UpperChar(verdikt[1]) == 'E';
      assert verdikt == [verdikt[0], verdikt[1]];
    }
  }

  /** The verdict and the reason the reply gives, with their defaults. */
  function Verdict(reply: Json): (r: Py<(Json, Json)>)
    ensures r.Ok? <==> reply.Obj?
    ensures r.Ok? ==> r.value.0 == Get(reply, "verdikt", Str("NE")).value
    ensures r.Ok? && Lookup(reply.fields, "verdikt").None? ==> r.value.0 == Str("NE")
  {
    match Get(reply, "verdikt", Str("NE"))
    case Raise(e) => Raise(e)
    case Ok(v) => Ok((v, Get(reply, "duvod", Str("Neznámý důvod.")).value))
  }

  /** `InspektorAgent.run`, given the answer of the AI inspection. */
  function Run(call: AiCall<Json>): (r: AgentResult)
    ensures call.NoClient? ==> r == NoClientResult()
    ensures call.CallFailed? ==> r == FailedResult(call.exc)
    // A reply that is not a dict, or a verdict that is not a string (it has no `upper`), raises
    // inside the `try` block.
    ensures call.Answered? && (Verdict(call.reply).Raise? || !Verdict(call.reply).value.0.Str?) ==>
              r.status == Warn && r.score == Some(0.0) && |r.warnings| == 1
    ensures call.Answered? && Verdict(call.reply).Ok? && Verdict(call.reply).value.0.Str? ==>
              var (verdikt, duvod) := Verdict(call.reply).value;
              && r.details == map["verdikt" := verdikt, "duvod" := duvod]
              && r.warnings == []
              && r.score.None?
              && (IsNo(verdikt.s) ==> r.status == Fail && r.errors == [[Lit("Nezpůsobilé pro online ocenění: "), Val(duvod)]])
              && (!IsNo(verdikt.s) ==> r.status == Success && r.errors == [])
  {
    match call
    case NoClient => NoClientResult()
    case CallFailed(e) => FailedResult(e)
    case Answered(reply) =>
      match Verdict(reply)
      case Raise(e) => FailedResult(e)
      case Ok((verdikt, duvod)) =>
        if !verdikt.Str? then
          FailedResult(Exc(AttributeError, "'" + TypeName(verdikt) + "' object has no attribute 'upper'"))
        else
          var no := IsNo(verdikt.s);
          Plain(if no then Fail else Success,
                [Lit("Způsobilé k online ocenění: "), Val(verdikt)],
                map["verdikt" := verdikt, "duvod" := duvod], [],
                if no then [[Lit("Nezpůsobilé pro online ocenění: "), Val(duvod)]] else [])
  }

  /** A reply without a verdict is read as "NE", so it fails. */
  lemma {:induction false} MissingVerdictFails(reply: Json)
    requires reply.Obj? && Lookup(reply.fields, "verdikt").None?
    ensures Run(Answered(reply)).status == Fail && |Run(Answered(reply)).errors| == 1
  {
    assert IsNo("NE");
  }
}
