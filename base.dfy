/** What every agent shares: the status values, the result record, the log, the inputs an agent
    receives from the AI service, and the agent object whose status, log and result `execute`
    updates around the agent-specific analysis. */
module Base {
  import opened Wrappers
  import opened Json

  datatype AgentStatus = Idle | Processing | Success | Fail | Warn

  /** The string value of a status, as the API reports it. */
  function StatusValue(s: AgentStatus): string {
    match s
    case Idle => "idle"
    case Processing => "processing"
    case Success => "success"
    case Fail => "fail"
    case Warn => "warn"
  }

  /** A piece of a user-facing message: literal text, a value inserted by an f-string, or a
      number formatted with a fixed number of decimals (`{x:.Nf}`). */
  datatype Piece = Lit(s: string) | Val(v: Json) | Fixed(x: real, digits: nat)

  /** A message is the sequence of its pieces; rendering them to characters is not modelled. */
  type Msg = seq<Piece>

  /** A message made of literal text only. */
  function M(s: string): Msg {
    [Lit(s)]
  }

  /** `"\n".join(lines)`. */
  function JoinLines(lines: seq<Msg>): Msg {
    if |lines| == 0 then []
    else if |lines| == 1 then lines[0]
    else lines[0] + M("\n") + JoinLines(lines[1..])
  }

  /** The record every agent returns. `details` holds the JSON-ready facts the API forwards. */
  datatype AgentResult = AgentResult(
    status: AgentStatus,
    category: Option<int>,
    score: Option<real>,
    summary: Msg,
    details: map<string, Json>,
    warnings: seq<Msg>,
    errors: seq<Msg>)

  /** `AgentResult()` with every field at its default. */
  function DefaultResult(): (r: AgentResult)
    ensures r.status == Idle && r.category.None? && r.score.None?
    ensures r.summary == [] && r.details == map[] && r.warnings == [] && r.errors == []
  {
    AgentResult(Idle, None, None, [], map[], [], [])
  }

  /** A result that sets only status, summary, details, warnings and errors; category and score
      keep their default `None`. */
  function Plain(status: AgentStatus, summary: Msg, details: map<string, Json>,
                 warnings: seq<Msg>, errors: seq<Msg>): (r: AgentResult)
    ensures r.category.None? && r.score.None?
    ensures r == DefaultResult().(status := status, summary := summary, details := details,
                                   warnings := warnings, errors := errors)
  {
    AgentResult(status, None, None, summary, details, warnings, errors)
  }

  /** The status rule several agents share: FAIL if there are errors, else WARN if there are
      warnings, else SUCCESS. */
  function StatusOf(errors: seq<Msg>, warnings: seq<Msg>): (s: AgentStatus)
    ensures s == Fail <==> errors != []
    ensures s == Warn <==> errors == [] && warnings != []
    ensures s == Success <==> errors == [] && warnings == []
  {
    if errors != [] then Fail else if warnings != [] then Warn else Success
  }

  /** `{x:.0%}`: numbers format; a string raises `ValueError` and every other value `TypeError`. */
  function FormatPercent(v: Json): (r: Py<real>)
    ensures r.Ok? <==> Numeric(v).Some?
    ensures r.Ok? ==> r.value == Numeric(v).value * 100.0
  {
    match v
    case Str(_) => Raise(Exc(ValueError, "Unknown format code '%' for object of type 'str'"))
    case Null => Raise(Exc(TypeError, "unsupported format string passed to NoneType.__format__"))
    case Arr(_) => Raise(Exc(TypeError, "unsupported format string passed to list.__format__"))
    case Obj(_) => Raise(Exc(TypeError, "unsupported format string passed to dict.__format__"))
    case _ => Ok(Numeric(v).value * 100.0)
  }

  /** `int(x)` for a float: truncation toward zero. */
  function Trunc(x: real): (n: int)
    ensures x >= 0.0 ==> n == x.Floor
    ensures x < 0.0 ==> n == -((-x).Floor)
    ensures -1.0 < x - n as real < 1.0
  {
    if x >= 0.0 then x.Floor else -((-x).Floor)
  }

  datatype LogEntry = LogEntry(timestamp: real, message: Msg, level: string)

  /** What a call to the AI service gives the agent: there is no client configured, the call (or
      decoding its reply) raised, or it answered. */
  datatype AiCall<+T> = NoClient | CallFailed(exc: Exc) | Answered(reply: T)

  /** How an agent's `run` ends: it returns a result, or an exception escapes it. */
  datatype RunOutcome = Returned(result: AgentResult) | Raised(exc: Exc)

  /** The result `execute` records when `run` raises. */
  function ErrorResult(e: Exc): (r: AgentResult)
    ensures r.status == Fail && r.errors == [M(e.text)] && r.warnings == []
    ensures r.category.None? && r.score.None? && r.details == map[]
  {
    Plain(Fail, M("Agent error: " + e.text), map[], [], [M(e.text)])
  }

  /** The value of `x` rounded to the nearest whole number, ties to the even one. */
  function RoundHalfEven(x: real): (n: int)
    ensures -0.5 <= n as real - x <= 0.5
    // At a tie the even neighbour wins.
    ensures (n as real - x == 0.5 || n as real - x == -0.5) ==> n % 2 == 0
  {
    var f := x.Floor;
    var d := x - f as real;
    if d < 0.5 then f
    else if d > 0.5 then f + 1
    else if f % 2 == 0 then f else f + 1
  }

  /** `round(x, 2)`, on exact decimals: a whole number of hundredths within half a hundredth of `x`. */
  function RoundCents(x: real): (r: real)
    ensures (r * 100.0).Floor as real == r * 100.0
    ensures -0.005 <= r - x <= 0.005
  {
    RoundHalfEven(x * 100.0) as real / 100.0
  }

  /** The serialised state of an agent. */
  datatype AgentView = AgentView(
    name: string,
    description: string,
    systemPrompt: string,
    status: string,
    logs: seq<LogEntry>,
    result: Option<AgentResult>,
    elapsedTime: real)

  /** An agent: a name, a status, the log of its current run and the result of its last run. */
  class BaseAgent {
    const name: string
    const description: string
    const systemPrompt: string
    var status: AgentStatus
    var logs: seq<LogEntry>
    var result: Option<AgentResult>
    var startTime: Option<real>
    var endTime: Option<real>

    constructor(name: string, description: string, systemPrompt: string)
      ensures this.name == name && this.description == description
      ensures this.systemPrompt == systemPrompt
      ensures status == Idle && logs == [] && result.None?
      ensures startTime.None? && endTime.None?
    {
      this.name := name;
      this.description := description;
      this.systemPrompt := systemPrompt;
      status := Idle;
      logs := [];
      result := None;
      startTime := None;
      endTime := None;
    }

    /** `log`: one entry stamped with the clock reading `now` goes at the end of the log. */
    method Log(message: Msg, level: string, now: real)
      modifies this
      ensures logs == old(logs) + [LogEntry(now, message, level)]
      ensures status == old(status) && result == old(result)
      ensures startTime == old(startTime) && endTime == old(endTime)
    {
      logs := logs + [LogEntry(now, message, level)];
    }

    /** The message `execute` logs first. */
    function StartMessage(): Msg
    {
      M("Agent " + name + " started processing.")
    }

    /** The message `execute` logs last, for a run that ended as `outcome`. */
    function FinishMessage(outcome: RunOutcome): (m: Msg)
    {
      match outcome
      case Returned(r) => M("Agent " + name + " finished with status: " + StatusValue(r.status))
      case Raised(e) => M("Agent " + name + " encountered error: " + e.text)
    }

    /** `execute`: run the analysis with status tracking and logging. The analysis itself is
        given by how it ends (`outcome`) and the entries it logged (`runLogs`); the four clock
        readings are the successive values of `time.time()`. */
    method Execute(outcome: RunOutcome, runLogs: seq<LogEntry>,
                   startClock: real, startLogClock: real, finishLogClock: real, endClock: real)
      returns (r: AgentResult)
      modifies this
      ensures result == Some(r)
      ensures outcome.Returned? ==> r == outcome.result
      ensures outcome.Raised? ==> r == ErrorResult(outcome.exc)
      ensures status == r.status
      ensures outcome.Raised? ==> status == Fail
      ensures logs == [LogEntry(startLogClock, StartMessage(), "info")] + runLogs
                      + [LogEntry(finishLogClock, FinishMessage(outcome),
                                  if outcome.Raised? then "error" else "info")]
      ensures startTime == Some(startClock) && endTime == Some(endClock)
    {
      status := Processing;
      startTime := Some(startClock);
      logs := [];
      Log(StartMessage(), "info", startLogClock);
      logs := logs + runLogs;
      match outcome {
        case Returned(res) =>
          result := Some(res);
          status := res.status;
          Log(FinishMessage(outcome), "info", finishLogClock);
        case Raised(e) =>
          status := Fail;
          result := Some(ErrorResult(e));
          Log(FinishMessage(outcome), "error", finishLogClock);
      }
      endTime := Some(endClock);
      r := result.value;
    }

    /** `get_elapsed_time` with the clock reading `now`: nothing before the first run, otherwise
        the rounded time from start to end, or to `now` while no (non-zero) end time is set. */
    function ElapsedTime(now: real): (t: real)
      reads this
      ensures startTime.None? ==> t == 0.0
      ensures startTime.Some? && endTime.Some? && endTime.value != 0.0 ==>
                -0.005 <= t - (endTime.value - startTime.value) <= 0.005
      ensures startTime.Some? && (endTime.None? || endTime.value == 0.0) ==>
                -0.005 <= t - (now - startTime.value) <= 0.005
      // Rounded to two decimal places.
      ensures (t * 100.0).Floor as real == t * 100.0
    {
      match startTime
      case None => 0.0
      case Some(start) =>
        var end := if endTime.Some? && endTime.value != 0.0 then endTime.value else now;
        RoundCents(end - start)
    }

    /** `to_dict`: the agent's state; the result entry is absent exactly when there is no result. */
    function ToDict(now: real): (v: AgentView)
      reads this
      ensures v.result.None? <==> result.None?
      ensures v.result.Some? ==> v.result.value == result.value
      ensures v.status == StatusValue(status) && v.logs == logs && v.name == name
      ensures v.elapsedTime == ElapsedTime(now)
    {
      AgentView(name, description, systemPrompt, StatusValue(status), logs, result, ElapsedTime(now))
    }
  }
}
