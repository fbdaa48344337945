/** The ownership-record analyst that finds the property by geocoding its address: its run,
    and the boxes it draws around the buildings the ortofoto analysis detected. */
module KatastralniAnalytik {
  import opened Wrappers
  import opened Json
  import opened Base
  import opened LvParser
  import opened RiskReport

  /** The details of a returned run gain the access assessment of the record analysis. */
  function WithAccess(o: RunOutcome, lvRisks: Json): (r: RunOutcome)
    requires lvRisks.Null? || lvRisks.Obj?
    ensures r.Raised? <==> o.Raised?
    ensures r.Raised? ==> r == o
    ensures r.Returned? ==>
              && r.result == o.result.(details := r.result.details)
              && r.result.details.Keys == o.result.details.Keys + {"access_assessment"}
              && r.result.details["access_assessment"] == FromAnalysis(lvRisks, "access_assessment", Null)
              && (!Truthy(lvRisks) ==> r.result.details["access_assessment"] == Null)
              && forall k :: k in o.result.details && k != "access_assessment" ==>
                   r.result.details[k] == o.result.details[k]
  {
    match o
    case Raised(_) => o
    case Returned(res) =>
      Returned(res.(details := res.details["access_assessment" := FromAnalysis(lvRisks, "access_assessment", Null)]))
  }

  /** `run`. The parse of the uploaded file is given by its outcome `parsed` (see
      `LvParser.ParseLv`); the two AI analyses by the calls `lvCall` and `ortofotoCall`, where
      `NoClient` also stands for an ortofoto that could not be located or downloaded. */
  method Run(lvPath: Json, parsed: Py<LVData>, selected: Json,
             lvCall: AiCall<Json>, ortofotoCall: AiCall<Json>) returns (o: RunOutcome)
    // No uploaded record: a warning, and the run is skipped.
    ensures !Truthy(lvPath) ==> o == Returned(Skipped())
    // A record that cannot be read fails with its error.
    ensures Truthy(lvPath) && parsed.Raise? ==> o == Returned(ParseFailed(parsed.exc))
    ensures Truthy(lvPath) && parsed.Ok? ==>
              o == WithAccess(Report(parsed.value, selected, LvAnalysis(lvCall), OrtofotoAnalysis(ortofotoCall)),
                              LvAnalysis(lvCall))
  {
    if !Truthy(lvPath) {
      return Returned(Skipped());
    }
    if parsed.Raise? {
      return Returned(ParseFailed(parsed.exc));
    }
    var lvRisks := LvAnalysis(lvCall);
    var ortofoto := OrtofotoAnalysis(ortofotoCall);
    var outcome := Analyse(parsed.value, selected, lvRisks, ortofoto);
    o := WithAccess(outcome, lvRisks);
  }

  // ---------------------------------------------------------------------------------------
  // Annotating the ortofoto

  /** One edge pair of a box: the low edge is pulled into `[0, size - 1]`, and the high edge
      into `[low + 1, size]`. */
  function Clamp(lo: int, hi: int, size: int): (r: (int, int))
    ensures 0 <= r.0 < r.1
    ensures size >= 1 ==> r.0 <= size - 1 && r.1 <= size
  {
    var a := Max(0, Min(lo, size - 1));
    (a, Max(a + 1, Min(hi, size)))
  }

  function Min(a: int, b: int): int {
    if a <= b then a else b
  }

  function Max(a: int, b: int): int {
    if a >= b then a else b
  }

  /** A box that already lies in the image is left as it is. */
  lemma ClampKeepsInside(lo: int, hi: int, size: int)
    requires 0 <= lo < hi <= size
    ensures Clamp(lo, hi, size) == (lo, hi)
  {
  }

  /** Clamping twice is clamping once. */
  lemma ClampIdempotent(lo: int, hi: int, size: int)
    requires size >= 1
    ensures Clamp(Clamp(lo, hi, size).0, Clamp(lo, hi, size).1, size) == Clamp(lo, hi, size)
  {
    var r := Clamp(lo, hi, size);
    ClampKeepsInside(r.0, r.1, size);
  }

  datatype Box = Box(x1: int, y1: int, x2: int, y2: int)

  /** A box that is not empty, and lies inside a `w` by `h` image whenever the image has pixels. */
  predicate InImage(b: Box, w: int, h: int) {
    && 0 <= b.x1 < b.x2 && 0 <= b.y1 < b.y2
    && (w >= 1 ==> b.x1 <= w - 1 && b.x2 <= w)
    && (h >= 1 ==> b.y1 <= h - 1 && b.y2 <= h)
  }

  /** `b.get(key, dflt) / 100.0`; a building that is not a dict raises `AttributeError`, and a
      value that is not a number raises `TypeError`. */
  function Percent(b: Json, key: string, dflt: Json): (r: Py<real>)
    ensures r.Ok? <==> b.Obj? && Numeric(Get(b, key, dflt).value).Some?
    ensures r.Ok? ==> r.value == Numeric(Get(b, key, dflt).value).value / 100.0
  {
    match Get(b, key, dflt)
    case Raise(e) => Raise(e)
    case Ok(v) =>
      match Numeric(v)
      case None => Raise(Exc(TypeError, "unsupported operand type(s) for /: '" + TypeName(v) + "' and 'float'"))
      case Some(x) => Ok(x / 100.0)
  }

  /** The clamped box of a building in a `w` by `h` image: the percentages the analysis gave
      (left and top edge 0, width and height 10 by default) scaled and truncated to pixels. */
  function BoxOf(b: Json, w: int, h: int): (r: Py<Box>)
    ensures r.Ok? <==> b.Obj? && Percent(b, "bbox_x", Int(0)).Ok? && Percent(b, "bbox_y", Int(0)).Ok?
                       && Percent(b, "bbox_w", Int(10)).Ok? && Percent(b, "bbox_h", Int(10)).Ok?
    ensures r.Ok? ==> InImage(r.value, w, h)
  {
    match Percent(b, "bbox_x", Int(0))
    case Raise(e) => Raise(e)
    case Ok(left) =>
      match Percent(b, "bbox_y", Int(0))
      case Raise(e) => Raise(e)
      case Ok(top) =>
        match Percent(b, "bbox_w", Int(10))
        case Raise(e) => Raise(e)
        case Ok(width) =>
          match Percent(b, "bbox_h", Int(10))
          case Raise(e) => Raise(e)
          case Ok(height) =>
            var xs := Edges(left, width, w);
            var ys := Edges(top, height, h);
            Ok(Box(xs.0, ys.0, xs.1, ys.1))
  }

  /** The clamped pixel edges of a span that starts at the fraction `start` of `size` pixels
      and covers the fraction `extent` of them; `int` truncates toward zero. */
  function Edges(start: real, extent: real, size: int): (r: (int, int))
    ensures 0 <= r.0 < r.1
    ensures size >= 1 ==> r.0 <= size - 1 && r.1 <= size
  {
    Clamp(Trunc(start * size as real), Trunc((start + extent) * size as real), size)
  }

  /** A span given in whole percentages that lies in a 100-pixel image keeps its edges. */
  lemma EdgesWhole(p: nat, d: nat)
    requires 0 < d && p + d <= 100
    ensures Edges(p as real / 100.0, d as real / 100.0, 100) == (p, p + d)
  {
    assert (p as real / 100.0) * 100.0 == p as real;
    assert ((p as real / 100.0) + (d as real / 100.0)) * 100.0 == (p + d) as real;
    ClampKeepsInside(p, p + d, 100);
  }

  datatype Color = Color(r: int, g: int, b: int)

  const Red: Color := Color(220, 38, 38)
  const Amber: Color := Color(245, 158, 11)
  const Green: Color := Color(34, 197, 94)

  /** `RISK_COLORS.get(risk, amber)`: red, amber and green for the three levels, amber for
      anything else; a list or dict cannot be hashed and raises `TypeError`. */
  function RiskColor(risk: Json): (r: Py<Color>)
    ensures r.Raise? <==> risk.Arr? || risk.Obj?
    ensures r == Ok(Red) <==> risk == Str(High)
    ensures r == Ok(Green) <==> risk == Str(Low)
    ensures r.Ok? && risk != Str(High) && risk != Str(Low) ==> r.value == Amber
  {
    match risk
    case Arr(_) => Raise(Exc(TypeError, "unhashable type: 'list'"))
    case Obj(_) => Raise(Exc(TypeError, "unhashable type: 'dict'"))
    case Str(s) => Ok(if s == High then Red else if s == Medium then Amber else if s == Low then Green else Amber)
    case _ => Ok(Amber)
  }

  /** What the annotation draws for one building: its box, in the colour of its risk level
      ("střední" by default). */
  function MarkOf(b: Json, w: int, h: int): (r: Py<(Box, Color)>)
    ensures r.Ok? ==> InImage(r.value.0, w, h)
  {
    match BoxOf(b, w, h)
    case Raise(e) => Raise(e)
    case Ok(box) =>
      match RiskColor(Get(b, "risk_level", Str(Medium)).value)
      case Raise(e) => Raise(e)
      case Ok(c) => Ok((box, c))
  }

  /** The marks for the buildings, in order; the first building that cannot be drawn raises
      (the annotation as a whole then gives up). Every box drawn lies inside the image. */
  function Marks(bds: seq<Json>, w: int, h: int): (r: Py<seq<(Box, Color)>>)
    ensures r.Ok? ==> |r.value| == |bds| && forall i :: 0 <= i < |r.value| ==> InImage(r.value[i].0, w, h)
  {
    if |bds| == 0 then Ok([])
    else
      match Marks(bds[..|bds| - 1], w, h)
      case Raise(e) => Raise(e)
      case Ok(init) =>
        match MarkOf(bds[|bds| - 1], w, h)
        case Raise(e) => Raise(e)
        case Ok(m) => Ok(init + [m])
  }

  /** A building's mark is its clamped box, in the colour of its risk level. */
  lemma MarkOfParts(b: Json, w: int, h: int)
    requires MarkOf(b, w, h).Ok?
    ensures BoxOf(b, w, h) == Ok(MarkOf(b, w, h).value.0)
    ensures RiskColor(Get(b, "risk_level", Str(Medium)).value) == Ok(MarkOf(b, w, h).value.1)
  {
  }

  /** The drawing loop of `_annotate_ortofoto`: the boxes and colours it draws, in order. */
  method Annotate(bds: seq<Json>, w: int, h: int) returns (r: Py<seq<(Box, Color)>>)
    ensures r == Marks(bds, w, h)
  {
    var marks: seq<(Box, Color)> := [];
    var i := 0;
    assert bds[..0] == [];
    while i < |bds|
      invariant 0 <= i <= |bds|
      invariant Marks(bds[..i], w, h) == Ok(marks)
    {
      assert bds[..i + 1][..i] == bds[..i];
      var m := MarkOf(bds[i], w, h);
      if m.Raise? {
        MarksPrefix(bds, w, h, i + 1);
        return Raise(m.exc);
      }
      marks := marks + [m.value];
      i := i + 1;
    }
    assert bds[..i] == bds;
    r := Ok(marks);
  }

  /** A building list whose prefix cannot be drawn cannot be drawn as a whole. */
  lemma {:induction false} MarksPrefix(bds: seq<Json>, w: int, h: int, n: nat)
    requires n <= |bds| && Marks(bds[..n], w, h).Raise?
    ensures Marks(bds, w, h) == Marks(bds[..n], w, h)
    decreases |bds| - n
  {
    if n < |bds| {
      assert bds[..n + 1][..n] == bds[..n];
      MarksPrefix(bds, w, h, n + 1);
    } else {
      assert bds[..n] == bds;
    }
  }
}
