/** The reader of the valuation form ("Ocenění rodinného domu"): the text of the pages is
    normalised line by line, each field takes the value of the first of its patterns that
    matches, and the year and the basement answer are post-processed. The patterns themselves
    are regular expressions; the model takes their captured groups as given. */
module PdfParser {
  import opened Wrappers
  import Text
  import LvParser

  /** The fields the form yields, each absent until a pattern sets it. */
  datatype PropertyData = PropertyData(
    stavbaDokoncena: Option<string>,
    stavRodinnehoDomu: Option<string>,
    pocetPodlazi: Option<string>,
    typStrechy: Option<string>,
    podsklepeni: Option<string>,
    celkovaPodlahovaPlocha: Option<string>,
    typVytapeni: Option<string>,
    adresa: Option<string>)

  /** The number of fields, and of pattern lists. */
  const FieldCount: nat := 8

  /** The field values in declaration order, as `asdict(self).values()` lists them. */
  function Fields(d: PropertyData): (vs: seq<Option<string>>)
    ensures |vs| == FieldCount
  {
    [d.stavbaDokoncena, d.stavRodinnehoDomu, d.pocetPodlazi, d.typStrechy, d.podsklepeni,
     d.celkovaPodlahovaPlocha, d.typVytapeni, d.adresa]
  }

  /** `PropertyData()`: every field `None`. */
  function Empty(): (d: PropertyData)
    ensures forall k :: 0 <= k < FieldCount ==> Fields(d)[k].None?
  {
    PropertyData(None, None, None, None, None, None, None, None)
  }

  /** A value `is_empty` accepts: `None` or `""`. */
  predicate Blank(v: Option<string>) {
    v.None? || v == Some("")
  }

  /** `is_empty`. */
  predicate IsEmpty(d: PropertyData) {
    forall k :: 0 <= k < FieldCount ==> Blank(Fields(d)[k])
  }

  /** The record is empty exactly when each of its eight fields is `None` or `""`. */
  lemma IsEmptyIff(d: PropertyData)
    ensures IsEmpty(d) <==>
              && Blank(d.stavbaDokoncena) && Blank(d.stavRodinnehoDomu) && Blank(d.pocetPodlazi)
              && Blank(d.typStrechy) && Blank(d.podsklepeni) && Blank(d.celkovaPodlahovaPlocha)
              && Blank(d.typVytapeni) && Blank(d.adresa)
  {
    var vs := Fields(d);
    assert vs[0] == d.stavbaDokoncena && vs[1] == d.stavRodinnehoDomu && vs[2] == d.pocetPodlazi;
    assert vs[3] == d.typStrechy && vs[4] == d.podsklepeni && vs[5] == d.celkovaPodlahovaPlocha;
    assert vs[6] == d.typVytapeni && vs[7] == d.adresa;
  }

  /** `setattr(data, field, value)` for the field at position `k`. */
  function SetField(d: PropertyData, k: nat, v: string): (r: PropertyData)
    requires k < FieldCount
    ensures Fields(r)[k] == Some(v)
    ensures forall j :: 0 <= j < FieldCount && j != k ==> Fields(r)[j] == Fields(d)[j]
  {
    match k
    case 0 => d.(stavbaDokoncena := Some(v))
    case 1 => d.(stavRodinnehoDomu := Some(v))
    case 2 => d.(pocetPodlazi := Some(v))
    case 3 => d.(typStrechy := Some(v))
    case 4 => d.(podsklepeni := Some(v))
    case 5 => d.(celkovaPodlahovaPlocha := Some(v))
    case 6 => d.(typVytapeni := Some(v))
    case _ => d.(adresa := Some(v))
  }

  /** Two records with the same field values are the same record. */
  lemma FieldsDetermine(a: PropertyData, b: PropertyData)
    requires forall k :: 0 <= k < FieldCount ==> Fields(a)[k] == Fields(b)[k]
    ensures a == b
  {
    assert Fields(a)[0] == Fields(b)[0] && Fields(a)[1] == Fields(b)[1];
    assert Fields(a)[2] == Fields(b)[2] && Fields(a)[3] == Fields(b)[3];
    assert Fields(a)[4] == Fields(b)[4] && Fields(a)[5] == Fields(b)[5];
    assert Fields(a)[6] == Fields(b)[6] && Fields(a)[7] == Fields(b)[7];
  }

  // ---------------------------------------------------------------------------------------
  // Normalising the lines

  /** `re.sub(r"[ \t]+", " ", line).strip()`. */
  function CleanLine(line: string): string {
    Text.Strip(Text.CollapseBlanks(line))
  }

  /** `cleaned_lines`: the cleaned lines that are not empty, in order. */
  function CleanedLines(lines: seq<string>): (r: seq<string>)
    ensures |r| <= |lines|
  {
    if |lines| == 0 then []
    else
      var init := CleanedLines(lines[..|lines| - 1]);
      var c := CleanLine(lines[|lines| - 1]);
      if c != "" then init + [c] else init
  }

  /** A normalised line: not empty, no white space at either end, no tab and no two spaces in
      a row. */
  predicate Clean(line: string) {
    && line != ""
    && !Text.IsSpace(line[0]) && !Text.IsSpace(line[|line| - 1])
    && Text.NoBlankRun(line)
  }

  /** A line that is not empty once cleaned is a normalised line. */
  lemma CleanLineShape(line: string)
    requires CleanLine(line) != ""
    ensures Clean(CleanLine(line))
  {
    var collapsed := Text.CollapseBlanks(line);
    Text.CollapseBlanksNoRun(line);
    var i := Text.StripOffset(collapsed);
    Text.NoBlankRunFactor(collapsed, i, i + |CleanLine(line)|);
  }

  /** Every line kept is a normalised line. */
  lemma {:induction false} CleanedLinesClean(lines: seq<string>)
    ensures forall i :: 0 <= i < |CleanedLines(lines)| ==> Clean(CleanedLines(lines)[i])
  {
    if |lines| > 0 {
      var n := |lines| - 1;
      CleanedLinesClean(lines[..n]);
      if CleanLine(lines[n]) != "" {
        CleanLineShape(lines[n]);
      }
    }
  }

  /** Every line that is not empty once cleaned is kept, and the kept lines are the cleaned
      lines in order. */
  lemma {:induction false} CleanedLinesKeep(lines: seq<string>, i: nat)
    requires i < |lines| && CleanLine(lines[i]) != ""
    ensures CleanLine(lines[i]) in CleanedLines(lines)
  {
    var n := |lines| - 1;
    if i < n {
      assert lines[..n][i] == lines[i];
      CleanedLinesKeep(lines[..n], i);
    }
  }

  /** The loop that builds `cleaned_lines` from the lines of the full text. */
  method CleanLines(fullText: string) returns (cleaned: seq<string>)
    ensures cleaned == CleanedLines(Text.Split(fullText, '\n'))
  {
    var lines := Text.Split(fullText, '\n');
    cleaned := [];
    var i := 0;
    assert lines[..0] == [];
    while i < |lines|
      invariant 0 <= i <= |lines|
      invariant cleaned == CleanedLines(lines[..i])
    {
      assert lines[..i + 1][..i] == lines[..i];
      var c := Text.Strip(Text.CollapseBlanks(lines[i]));
      if c != "" {
        cleaned := cleaned + [c];
      }
      i := i + 1;
    }
    assert lines[..i] == lines;
  }

  // ---------------------------------------------------------------------------------------
  // The first-match rule

  /** One field: the group captured by the first of its patterns that matched, stripped; the
      field is set only when that value is not empty, and later patterns are not tried. */
  function FieldValue(captures: seq<Option<string>>): (v: Option<string>)
    ensures v.Some? ==> v.value != "" && Text.Strip(v.value) == v.value
  {
    if |captures| == 0 then None
    else if captures[0].Some? then
      var s := Text.Strip(captures[0].value);
      Text.StripIdempotent(captures[0].value);
      if s != "" then Some(s) else None
    else FieldValue(captures[1..])
  }

  /** The first pattern that matches decides the field, even when its group is empty and a
      later pattern would have given a value. */
  lemma {:induction false} FirstMatchDecides(captures: seq<Option<string>>, i: nat)
    requires i < |captures| && captures[i].Some?
    requires forall j :: 0 <= j < i ==> captures[j].None?
    ensures var s := Text.Strip(captures[i].value);
            FieldValue(captures) == if s != "" then Some(s) else None
  {
    if i > 0 {
      assert forall j :: 0 <= j < i - 1 ==> captures[1..][j] == captures[j + 1];
      FirstMatchDecides(captures[1..], i - 1);
    }
  }

  /** A field none of whose patterns matched stays `None`. */
  lemma {:induction false} NoMatchLeavesNone(captures: seq<Option<string>>)
    requires forall j :: 0 <= j < |captures| ==> captures[j].None?
    ensures FieldValue(captures).None?
  {
    if |captures| > 0 {
      assert forall j :: 0 <= j < |captures| - 1 ==> captures[1..][j] == captures[j + 1];
      NoMatchLeavesNone(captures[1..]);
    }
  }

  /** The inner loop over a field's patterns, which stops at the first match. */
  method FirstMatch(captures: seq<Option<string>>) returns (v: Option<string>)
    ensures v == FieldValue(captures)
  {
    var i := 0;
    while i < |captures|
      invariant 0 <= i <= |captures|
      invariant FieldValue(captures) == FieldValue(captures[i..])
    {
      assert captures[i..][1..] == captures[i + 1..];
      if captures[i].Some? {
        var value := Text.Strip(captures[i].value);
        if value != "" {
          return Some(value);
        }
        return None;
      }
      i := i + 1;
    }
    return None;
  }

  /** Every field set by its own patterns. */
  function Extracted(captures: seq<seq<Option<string>>>): (d: PropertyData)
    requires |captures| == FieldCount
    ensures forall k :: 0 <= k < FieldCount ==> Fields(d)[k] == FieldValue(captures[k])
  {
    PropertyData(FieldValue(captures[0]), FieldValue(captures[1]), FieldValue(captures[2]),
                 FieldValue(captures[3]), FieldValue(captures[4]), FieldValue(captures[5]),
                 FieldValue(captures[6]), FieldValue(captures[7]))
  }

  /** The outer loop over the fields, with its `setattr`. */
  method ExtractFields(captures: seq<seq<Option<string>>>) returns (data: PropertyData)
    requires |captures| == FieldCount
    ensures data == Extracted(captures)
  {
    data := Empty();
    var k := 0;
    while k < FieldCount
      invariant 0 <= k <= FieldCount
      invariant forall j :: 0 <= j < k ==> Fields(data)[j] == FieldValue(captures[j])
      invariant forall j :: k <= j < FieldCount ==> Fields(data)[j].None?
    {
      var v := FirstMatch(captures[k]);
      if v.Some? {
        data := SetField(data, k, v.value);
      }
      k := k + 1;
    }
    FieldsDetermine(data, Extracted(captures));
  }

  // ---------------------------------------------------------------------------------------
  // Post-processing

  /** Four digits start at `i`. */
  predicate YearAt(s: string, i: int) {
    0 <= i && i + 4 <= |s| && Text.AllDigits(s[i..i + 4])
  }

  /** Where `re.search(r"(\d{4})", s)` finds its match, searching from `from`. */
  function FirstYear(s: string, from: nat): (r: Option<nat>)
    ensures r.Some? ==> from <= r.value && YearAt(s, r.value)
                        && forall j :: from <= j < r.value ==> !YearAt(s, j)
    ensures r.None? ==> forall j :: from <= j <= |s| ==> !YearAt(s, j)
    decreases |s| - from
  {
    if from + 4 > |s| then None
    else if YearAt(s, from) then Some(from)
    else FirstYear(s, from + 1)
  }

  /** The completion year: a value that is set and contains four digits in a row becomes its
      first such group; any other value is left alone. */
  function NormaliseYear(v: Option<string>): (r: Option<string>)
    ensures Blank(v) ==> r == v
    ensures v.Some? && v.value != "" && FirstYear(v.value, 0).None? ==> r == v
    ensures v.Some? && v.value != "" && FirstYear(v.value, 0).Some? ==>
              var i := FirstYear(v.value, 0).value;
              r == Some(v.value[i..i + 4]) && |r.value| == 4 && Text.AllDigits(r.value)
  {
    if v.Some? && v.value != "" then
      match FirstYear(v.value, 0)
      case Some(i) => Some(v.value[i..i + 4])
      case None => v
    else v
  }

  /** A year already reduced to its four digits stays as it is. */
  lemma NormaliseYearIdempotent(v: Option<string>)
    ensures NormaliseYear(NormaliseYear(v)) == NormaliseYear(v)
  {
    var r := NormaliseYear(v);
    if r.Some? && r != v {
      assert YearAt(r.value, 0) && r.value[0..4] == r.value;
    }
  }

  /** The basement answer: a value that is set is upper-cased. */
  function NormaliseBasement(v: Option<string>): (r: Option<string>)
    ensures r.None? <==> v.None?
    ensures v.Some? ==> |r.value| == |v.value|
    ensures v.Some? && v.value != "" ==> forall i :: 0 <= i < |v.value| ==> r.value[i] == Text.UpperChar(v.value[i])
    ensures v == Some("") ==> r == v
  {
    if v.Some? && v.value != "" then Some(Text.Upper(v.value)) else v
  }

  /** Upper-casing twice is upper-casing once. */
  lemma NormaliseBasementIdempotent(v: Option<string>)
    ensures NormaliseBasement(NormaliseBasement(v)) == NormaliseBasement(v)
  {
    if v.Some? && v.value != "" {
      var u := Text.Upper(v.value);
      assert Text.Upper(u) == u by {
        forall i | 0 <= i < |u| ensures Text.Upper(u)[i] == u[i] {
          assert Text.UpperChar(Text.UpperChar(v.value[i])) == Text.UpperChar(v.value[i]);
        }
      }
    }
  }

  /** Both post-processing steps; the other fields are unchanged. */
  function PostProcessed(d: PropertyData): (r: PropertyData)
    ensures r.stavbaDokoncena == NormaliseYear(d.stavbaDokoncena)
    ensures r.podsklepeni == NormaliseBasement(d.podsklepeni)
    ensures r.(stavbaDokoncena := d.stavbaDokoncena, podsklepeni := d.podsklepeni) == d
  {
    d.(stavbaDokoncena := NormaliseYear(d.stavbaDokoncena), podsklepeni := NormaliseBasement(d.podsklepeni))
  }

  // ---------------------------------------------------------------------------------------
  // The whole parse

  /** `parse_pdf`. `pages` are the texts `extract_text` gives for the pages, and `captures[k]`
      the groups the patterns of field `k` capture when searched in the normalised text,
      which the method also returns as `searched`. */
  method ParsePdf(pages: seq<Option<string>>, captures: seq<seq<Option<string>>>)
    returns (data: PropertyData, searched: string)
    requires |captures| == FieldCount
    // A form without any text gives the empty record.
    ensures Text.Strip(LvParser.PagesText(pages)) == "" ==> data == Empty() && IsEmpty(data) && searched == ""
    ensures Text.Strip(LvParser.PagesText(pages)) != "" ==>
              && searched == Text.Join(CleanedLines(Text.Split(LvParser.PagesText(pages), '\n')), "\n")
              && data == PostProcessed(Extracted(captures))
  {
    var fullText := LvParser.ExtractText(pages);
    if Text.Strip(fullText) == "" {
      data := Empty();
      return data, "";
    }
    var cleaned := CleanLines(fullText);
    searched := Text.Join(cleaned, "\n");
    data := ExtractFields(captures);
    if data.stavbaDokoncena.Some? && data.stavbaDokoncena.value != "" {
      var start := FirstYear(data.stavbaDokoncena.value, 0);
      if start.Some? {
        data := data.(stavbaDokoncena := Some(data.stavbaDokoncena.value[start.value..start.value + 4]));
      }
    }
    if data.podsklepeni.Some? && data.podsklepeni.value != "" {
      data := data.(podsklepeni := Some(Text.Upper(data.podsklepeni.value)));
    }
  }
}
