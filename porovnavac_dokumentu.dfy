/** The Czech-named copy of the document comparator. Its `run` has the same body as the
    comparator's, so it is modelled by delegation; what it promises is stated here against the
    tally of the checks. */
module PorovnavacDokumentu {
  import opened Json
  import opened Base
  import DocumentComparator

  /** `PorovnavacDokumentuAgent.run`. */
  function Run(propertyData: Json, images: seq<DocumentComparator.Image>, call: AiCall<Json>): (r: AgentResult)
    ensures !Truthy(propertyData) ==> r.status == Success && "reason" in r.details && r.details["reason"] == Str("no_property_data")
    ensures Truthy(propertyData) && call.NoClient? ==>
              r.status == Warn && |r.warnings| == 1 && "reason" in r.details && r.details["reason"] == Str("no_api_key")
    ensures Truthy(propertyData) && !call.NoClient? && images == [] ==>
              r.status == Warn && |r.warnings| == 1 && "reason" in r.details && r.details["reason"] == Str("no_images")
    // A failed call or analysis is a WARN that carries the exception text.
    ensures Truthy(propertyData) && images != [] && call.CallFailed? ==>
              r.status == Warn && r.details == map["error" := Str(call.exc.text)]
    ensures Truthy(propertyData) && images != [] && call.Answered? && DocumentComparator.Analyse(call.reply).Raise? ==>
              r.status == Warn && r.details == map["error" := Str(DocumentComparator.Analyse(call.reply).exc.text)]
    // A completed analysis: the verdict is the tally's when there are checks, and decides the status.
    ensures Truthy(propertyData) && images != [] && call.Answered? && DocumentComparator.Analyse(call.reply).Ok? ==>
              var c := DocumentComparator.Analyse(call.reply).value;
              && c.matches + c.mismatches == DocumentComparator.Length(c.checks)
              && "verdict" in r.details && r.details["verdict"] == c.verdict
              && (Truthy(c.checks) && c.mismatches == 0 ==> r.status == Success)
              && (Truthy(c.checks) && c.mismatches != 0 && c.matches != 0 ==> r.status == Warn)
              && (Truthy(c.checks) && c.mismatches != 0 && c.matches == 0 ==> r.status == Fail)
              && (r.status == Success <==> c.verdict == Str("SHODA"))
    ensures r.errors == []
  {
    DocumentComparator.Run(propertyData, images, call)
  }
}
