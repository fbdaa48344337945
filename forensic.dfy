/** The forensic analyst agent: the AI scores every photo for manipulation, and each photo whose
    score and confidence reach the thresholds becomes an error, each other suspicious photo a
    warning. Any exception inside the analysis gives a WARN result. */
module Forensic {
  import opened Wrappers
  import opened Json
  import opened Base
  import Config

  /** What one photo contributes. */
  datatype PhotoVerdict = Flagged(error: Msg) | Suspect(warning: Msg) | Clean

  /** The value at which a photo becomes suspicious. */
  const SuspicionScore: real := 0.4

  function FlaggedMessage(id: Json, score: real, confidence: real): Msg {
    [Lit("Photo "), Val(id), Lit(": manipulation_score="), Fixed(score, 2), Lit(", confidence="),
     Fixed(confidence, 2), Lit(" – překročen práh (0.7/0.8)")]
  }

  function SuspectMessage(id: Json, score: real): Msg {
    [Lit("Photo "), Val(id), Lit(": podezření na manipulaci (score="), Fixed(score, 2), Lit(")")]
  }

  /** The score and the confidence of a photo, with their defaults 0. */
  function Score(photo: Json): Json
    requires photo.Obj?
  {
    Get(photo, "manipulation_score", Int(0)).value
  }

  function Confidence(photo: Json): Json
    requires photo.Obj?
  {
    Get(photo, "confidence", Int(0)).value
  }

  /** One step of the loop. `and` short-circuits, so the confidence is compared only when the score
      reaches 0.7; the photo id is read only for a photo that produces a message. */
  function ClassifyPhoto(photo: Json): (r: Py<PhotoVerdict>)
    ensures r.Ok? ==> photo.Obj? && Numeric(Score(photo)).Some?
    ensures r.Ok? && r.value.Flagged? <==>
              r.Ok? && Numeric(Score(photo)).value >= Config.ManipulationScoreThreshold
              && Numeric(Confidence(photo)).Some?
              && Numeric(Confidence(photo)).value >= Config.ConfidenceThreshold
    ensures r.Ok? && r.value.Suspect? <==>
              r.Ok? && !r.value.Flagged? && Numeric(Score(photo)).value >= SuspicionScore
    ensures r.Ok? && !r.value.Clean? ==> Index(photo, "photo_id").Ok?
    // The step raises exactly when the photo is not a dict, its score is not a number, a score
    // of at least 0.7 comes with a confidence that is not a number, or a photo that gives a
    // message has no id.
    ensures r.Ok? <==>
              && photo.Obj? && Numeric(Score(photo)).Some?
              && (Numeric(Score(photo)).value >= Config.ManipulationScoreThreshold ==> Numeric(Confidence(photo)).Some?)
              && (Numeric(Score(photo)).value >= SuspicionScore ==> Index(photo, "photo_id").Ok?)
  {
    match Get(photo, "manipulation_score", Int(0))
    case Raise(e) => Raise(e)
    case Ok(score) =>
      var confidence := Get(photo, "confidence", Int(0)).value;
      match Compare(score, Ge, Float(Config.ManipulationScoreThreshold))
      case Raise(e) => Raise(e)
      case Ok(high) =>
        var flagged :=
          if high then Compare(confidence, Ge, Float(Config.ConfidenceThreshold)) else Ok(false);
        match flagged
        case Raise(e) => Raise(e)
        case Ok(f) =>
          if f then
            match Index(photo, "photo_id")
            case Raise(e) => Raise(e)
            case Ok(id) => Ok(Flagged(FlaggedMessage(id, Numeric(score).value, Numeric(confidence).value)))
          else if Numeric(score).value >= SuspicionScore then
            match Index(photo, "photo_id")
            case Raise(e) => Raise(e)
            case Ok(id) => Ok(Suspect(SuspectMessage(id, Numeric(score).value)))
          else Ok(Clean)
  }

  /** The errors and warnings of a prefix of the loop; the first photo that raises ends it. */
  function Collect(photos: seq<Json>): (r: Py<(seq<Msg>, seq<Msg>)>)
  {
    if |photos| == 0 then Ok(([], []))
    else
      match Collect(photos[..|photos| - 1])
      case Raise(e) => Raise(e)
      case Ok(acc) =>
        match ClassifyPhoto(photos[|photos| - 1])
        case Raise(e) => Raise(e)
        case Ok(Flagged(m)) => Ok((acc.0 + [m], acc.1))
        case Ok(Suspect(m)) => Ok((acc.0, acc.1 + [m]))
        case Ok(Clean) => Ok(acc)
  }

  /** Once a prefix raises, the whole loop raises the same exception. */
  lemma {:induction false} CollectRaiseStops(photos: seq<Json>, i: nat)
    requires i <= |photos| && Collect(photos[..i]).Raise?
    ensures Collect(photos) == Collect(photos[..i])
    decreases |photos| - i
  {
    if i < |photos| {
      assert photos[..i + 1][..i] == photos[..i];
      assert Collect(photos[..i + 1]) == Collect(photos[..i]);
      CollectRaiseStops(photos, i + 1);
    } else {
      assert photos[..i] == photos;
    }
  }

  /** Each photo contributes at most one message. */
  lemma {:induction false} CollectBound(photos: seq<Json>)
    ensures Collect(photos).Ok? ==> |Collect(photos).value.0| + |Collect(photos).value.1| <= |photos|
  {
    if |photos| > 0 {
      CollectBound(photos[..|photos| - 1]);
    }
  }

  /** The loop over the photos: one message per flagged or suspicious photo, in order. */
  method CheckPhotos(photos: seq<Json>) returns (r: Py<(seq<Msg>, seq<Msg>)>)
    ensures r == Collect(photos)
  {
    var errors: seq<Msg> := [];
    var warnings: seq<Msg> := [];
    var i := 0;
    while i < |photos|
      invariant 0 <= i <= |photos|
      invariant Collect(photos[..i]) == Ok((errors, warnings))
    {
      assert photos[..i + 1][..i] == photos[..i];
      var v := ClassifyPhoto(photos[i]);
      if v.Raise? {
        assert Collect(photos[..i + 1]) == Raise(v.exc);
        CollectRaiseStops(photos, i + 1);
        return Raise(v.exc);
      }
      match v.value {
        case Flagged(m) => errors := errors + [m];
        case Suspect(m) => warnings := warnings + [m];
        case Clean =>
      }
      i := i + 1;
    }
    assert photos[..i] == photos;
    r := Ok((errors, warnings));
  }

  /** `{x:.2f}`: numbers format; a string raises `ValueError` and every other value `TypeError`. */
  function FormatFixed(v: Json): (r: Py<real>)
    ensures r.Ok? <==> Numeric(v).Some?
    ensures r.Ok? ==> r.value == Numeric(v).value
  {
    match v
    case Str(_) => Raise(Exc(ValueError, "Unknown format code 'f' for object of type 'str'"))
    case Null => Raise(Exc(TypeError, "unsupported format string passed to NoneType.__format__"))
    case Arr(_) => Raise(Exc(TypeError, "unsupported format string passed to list.__format__"))
    case Obj(_) => Raise(Exc(TypeError, "unsupported format string passed to dict.__format__"))
    case _ => Ok(Numeric(v).value)
  }

  /** The parts of the reply the analysis reads, in the order it reads them. */
  datatype Reply = Reply(overall: Json, photos: Json, maxScore: Json)

  function ReadReply(reply: Json): (r: Py<Reply>)
    ensures r.Ok? <==> reply.Obj? && Get(reply, "overall", Obj([])).value.Obj?
    ensures r.Ok? ==> r.value.overall == Get(reply, "overall", Obj([])).value
    ensures r.Ok? ==> r.value.maxScore == Get(r.value.overall, "max_manipulation_score", Int(0)).value
  {
    match Get(reply, "overall", Obj([]))
    case Raise(e) => Raise(e)
    case Ok(overall) =>
      var photos := Get(reply, "photos", Arr([])).value;
      match Get(overall, "max_manipulation_score", Int(0))
      case Raise(e) => Raise(e)
      case Ok(maxScore) => Ok(Reply(overall, photos, maxScore))
  }

  /** The result when no client is configured. */
  function NoClientResult(): (r: AgentResult)
    ensures r.status == Warn && |r.warnings| == 1 && r.errors == []
  {
    Plain(Warn, M("Forenzní analýza nedostupná (chybí API klíč)"), map[],
          [M("AI analýza nedostupná.")], [])
  }

  /** The result when the analysis raises. */
  function FailedResult(e: Exc): (r: AgentResult)
    ensures r.status == Warn && r.warnings == [M("Analýza selhala: " + e.text)] && r.errors == []
  {
    Plain(Warn, M("Chyba forenzní analýzy: " + e.text), map[], [M("Analýza selhala: " + e.text)], [])
  }

  /** Where the analysis of a reply ends: the first exception, or the two message lists. */
  function Analyse(reply: Json): (r: Py<(Reply, seq<Msg>, seq<Msg>)>)
    // The analysis succeeds exactly when the reply is read, its photos iterate, the loop runs
    // through and the maximum score formats.
    ensures r.Ok? <==>
              && ReadReply(reply).Ok? && Iterate(ReadReply(reply).value.photos).Ok?
              && Collect(Iterate(ReadReply(reply).value.photos).value).Ok?
              && FormatFixed(ReadReply(reply).value.maxScore).Ok?
    ensures r.Ok? ==>
              && r.value.0 == ReadReply(reply).value
              && (r.value.1, r.value.2) == Collect(Iterate(ReadReply(reply).value.photos).value).value
  {
    match ReadReply(reply)
    case Raise(e) => Raise(e)
    case Ok(rd) =>
      match Iterate(rd.photos)
      case Raise(e) => Raise(e)
      case Ok(photos) =>
        match Collect(photos)
        case Raise(e) => Raise(e)
        case Ok(msgs) =>
          match FormatFixed(rd.maxScore)
          case Raise(e) => Raise(e)
          case Ok(_) => Ok((rd, msgs.0, msgs.1))
  }

  /** `ForenzniAnalytikAgent.run`, given the answer of the AI analysis. */
  method Run(call: AiCall<Json>) returns (r: AgentResult)
    ensures call.NoClient? ==> r == NoClientResult()
    ensures call.CallFailed? ==> r == FailedResult(call.exc)
    ensures call.Answered? && Analyse(call.reply).Raise? ==> r == FailedResult(Analyse(call.reply).exc)
    ensures call.Answered? && Analyse(call.reply).Ok? ==>
              var (rd, errors, warnings) := Analyse(call.reply).value;
              && r.errors == errors && r.warnings == warnings
              && r.status == StatusOf(errors, warnings)
              && r.score == Some(Numeric(rd.maxScore).value)
              && r.details == map["photos" := rd.photos, "overall" := rd.overall]
    // Every exception inside the analysis ends in WARN, so FAIL comes only with errors.
    ensures r.status == Fail ==> r.errors != []
  {
    if call.NoClient? {
      return NoClientResult();
    }
    if call.CallFailed? {
      return FailedResult(call.exc);
    }
    var read := ReadReply(call.reply);
    if read.Raise? {
      return FailedResult(read.exc);
    }
    var rd := read.value;
    var photos := Iterate(rd.photos);
    if photos.Raise? {
      return FailedResult(photos.exc);
    }
    var msgs := CheckPhotos(photos.value);
    if msgs.Raise? {
      return FailedResult(msgs.exc);
    }
    var (errors, warnings) := msgs.value;
    var status := StatusOf(errors, warnings);
    var maxScore := FormatFixed(rd.maxScore);
    if maxScore.Raise? {
      return FailedResult(maxScore.exc);
    }
    var summary := Get(rd.overall, "summary", Str("")).value;
    r := AgentResult(
      status, None, Some(maxScore.value),
      if Lookup(rd.overall.fields, "summary").Some? then [Val(summary)]
      else [Lit("Max manipulation score: "), Fixed(maxScore.value, 2)],
      map["photos" := rd.photos, "overall" := rd.overall],
      warnings, errors);
  }

  /** On a completed analysis no photo contributes more than one message. */
  lemma {:induction false} MessagesBounded(reply: Json)
    requires Analyse(reply).Ok?
    ensures var (rd, errors, warnings) := Analyse(reply).value;
            |errors| + |warnings| <= |Iterate(rd.photos).value|
  {
    var rd := ReadReply(reply).value;
    CollectBound(Iterate(rd.photos).value);
  }
}
