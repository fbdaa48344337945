/** The parser of the ownership record (list vlastnictví) of the Czech cadastre. The text comes
    from the PDF and the regular-expression matches over it are inputs; the parser slices the
    text into its sections by their headings, keeps the parcel rows with a positive area, pairs
    the buildings with the parcels they stand on, and types the encumbrances of section C. */
module LvParser {
  import opened Wrappers
  import opened Json
  import Text

  datatype Owner = Owner(name: string, address: string, identifier: string, share: string)

  datatype Parcel = Parcel(parcelNumber: string, areaM2: nat, landType: string, landUse: string,
                           protection: string, selected: bool)

  datatype Building = Building(partOf: string, onParcel: string)

  datatype Encumbrance = Encumbrance(kind: string, description: string, beneficiary: string,
                                     parcels: seq<string>, amount: string, document: string)

  datatype LVData = LVData(
    katUzemiKod: string, katUzemiNazev: string, lvNumber: string, okres: string, obec: string,
    owners: seq<Owner>, parcels: seq<Parcel>, buildings: seq<Building>, rightsInFavor: string,
    encumbrances: seq<Encumbrance>, notes: string, seals: string)

  /** `LVData()`: every field empty. */
  function EmptyData(): (d: LVData)
    ensures d.owners == [] && d.parcels == [] && d.buildings == [] && d.encumbrances == []
  {
    LVData("", "", "", "", "", [], [], [], "", [], "", "")
  }

  /** `is_empty`: no cadastral-area code and no parcels. */
  predicate IsEmpty(d: LVData) {
    d.katUzemiKod == "" && d.parcels == []
  }

  /** `LVData.to_dict`: the fields by name, the lists as lists of dicts. */
  function ToJson(d: LVData): (j: Json)
    ensures j.Obj? && |j.fields| == 12
  {
    Obj([("kat_uzemi_kod", Str(d.katUzemiKod)), ("kat_uzemi_nazev", Str(d.katUzemiNazev)),
         ("lv_number", Str(d.lvNumber)), ("okres", Str(d.okres)), ("obec", Str(d.obec)),
         ("owners", Arr(seq(|d.owners|, i requires 0 <= i < |d.owners| => OwnerJson(d.owners[i])))),
         ("parcels", Arr(seq(|d.parcels|, i requires 0 <= i < |d.parcels| => ParcelJson(d.parcels[i])))),
         ("buildings", Arr(seq(|d.buildings|, i requires 0 <= i < |d.buildings| =>
                                 Obj([("part_of", Str(d.buildings[i].partOf)), ("on_parcel", Str(d.buildings[i].onParcel))])))),
         ("rights_in_favor", Str(d.rightsInFavor)),
         ("encumbrances", Arr(seq(|d.encumbrances|, i requires 0 <= i < |d.encumbrances| => EncumbranceJson(d.encumbrances[i])))),
         ("notes", Str(d.notes)), ("seals", Str(d.seals))])
  }

  function OwnerJson(o: Owner): Json {
    Obj([("name", Str(o.name)), ("address", Str(o.address)), ("identifier", Str(o.identifier)), ("share", Str(o.share))])
  }

  function ParcelJson(p: Parcel): Json {
    Obj([("parcel_number", Str(p.parcelNumber)), ("area_m2", Int(p.areaM2)), ("land_type", Str(p.landType)),
         ("land_use", Str(p.landUse)), ("protection", Str(p.protection)), ("selected", Bool(p.selected))])
  }

  function EncumbranceJson(e: Encumbrance): Json {
    Obj([("type", Str(e.kind)), ("description", Str(e.description)), ("beneficiary", Str(e.beneficiary)),
         ("parcels", Arr(seq(|e.parcels|, i requires 0 <= i < |e.parcels| => Str(e.parcels[i])))),
         ("amount", Str(e.amount)), ("document", Str(e.document))])
  }

  // ---------------------------------------------------------------------------------------
  // Sections

  /** The section headings, as literal text. */
  const OwnersHeading: string := "A Vlastník"
  const PropertyHeading: string := "B Nemovitosti"
  const RightsHeading: string := "B1 Věcná práva"
  const RightsInFavorHeading: string := "B1 Věcná práva sloužící"
  const EncumbrancesHeading: string := "C Věcná práva zatěžující"
  const NotesHeading: string := "D Poznámky"
  const SealsHeading: string := "Plomby a upozornění"
  const TitlesHeading: string := "E Nabývací tituly"

  /** `_extract_section`: the text after the first start heading, up to the first end heading
      after it, or to the end of the text; empty when there is no start heading. */
  function ExtractSection(text: string, start: string, end: string): (r: string)
    ensures |r| <= |text|
  {
    match Text.Find(text, start)
    case None => ""
    case Some(s) => UpTo(text[s + |start|..], end)
  }

  /** The text before the first end heading, or all of it when there is none. */
  function UpTo(rest: string, end: string): (r: string)
    ensures |r| <= |rest| && rest[..|r|] == r
    // It stops at the first end heading, or at the end of the text.
    ensures |r| == |rest| || Text.OccursAt(rest, end, |r|)
    ensures forall j :: 0 <= j < |r| ==> !Text.OccursAt(rest, end, j)
  {
    match Text.Find(rest, end)
    case None => rest
    case Some(e) => rest[..e]
  }

  /** The section is a piece of the text that follows the first start heading directly and holds
      no end heading. */
  lemma {:induction false} ExtractSectionMeaning(text: string, start: string, end: string)
    ensures !Text.Contains(text, start) ==> ExtractSection(text, start, end) == ""
    ensures Text.Contains(text, start) ==>
              var s := Text.Find(text, start).value;
              && Text.OccursAt(text, ExtractSection(text, start, end), s + |start|)
              && forall j :: 0 <= j < s ==> !Text.OccursAt(text, start, j)
    ensures Text.Contains(text, start) && end != "" ==> !Text.Contains(ExtractSection(text, start, end), end)
    // It stops at the first end heading after the start heading, or at the end of the text.
    ensures Text.Contains(text, start) ==>
              var p := Text.Find(text, start).value + |start|;
              var r := ExtractSection(text, start, end);
              && (p + |r| == |text| || Text.OccursAt(text, end, p + |r|))
              && forall j :: p <= j < p + |r| ==> !Text.OccursAt(text, end, j)
  {
    if Text.Contains(text, start) {
      var p := Text.Find(text, start).value + |start|;
      var rest := text[p..];
      var r := ExtractSection(text, start, end);
      assert text[p..p + |r|] == r;
      forall j | p <= j
        ensures Text.OccursAt(text, end, j) <==> Text.OccursAt(rest, end, j - p)
      {
        OccursAfter(text, end, p, j);
      }
      // An occurrence inside the section is one in the rest of the text before the section ends.
      forall j | 0 <= j && j + |end| <= |r|
        ensures Text.OccursAt(r, end, j) ==> Text.OccursAt(rest, end, j)
      {
        assert r[j..j + |end|] == rest[j..j + |end|];
      }
    }
  }

  /** An occurrence at or after `p` is an occurrence in the text from `p` on. */
  lemma OccursAfter(text: string, pat: string, p: nat, j: int)
    requires p <= |text| && p <= j
    ensures Text.OccursAt(text, pat, j) <==> Text.OccursAt(text[p..], pat, j - p)
  {
    if j + |pat| <= |text| {
      assert text[p..][j - p..j - p + |pat|] == text[j..j + |pat|];
    }
  }

  // ---------------------------------------------------------------------------------------
  // Section A: owners

  /** `name_addr.split(",", 1)`, each part stripped; no comma leaves the address empty. */
  function OwnerOf(nameAddr: string, ident: string, share: string): (o: Owner)
    ensures o.identifier == ident && o.share == share
    ensures ',' !in nameAddr ==> o.name == Text.Strip(nameAddr) && o.address == ""
    // With a comma, the name is what precedes the first one and the address what follows it.
    ensures ',' in nameAddr ==>
              exists i :: 0 <= i < |nameAddr| && nameAddr[i] == ',' && ',' !in nameAddr[..i]
                          && o.name == Text.Strip(nameAddr[..i]) && o.address == Text.Strip(nameAddr[i + 1..])
  {
    var parts := Text.SplitOnce(nameAddr, ',');
    Owner(Text.Strip(parts.0), Text.Strip(parts.1), ident, share)
  }

  /** The owners read from the matched rows of section A, in order. */
  function Owners(matches: seq<(string, string, string)>): (os: seq<Owner>)
    ensures |os| == |matches|
  {
    if |matches| == 0 then []
    else
      var last := matches[|matches| - 1];
      Owners(matches[..|matches| - 1]) + [OwnerOf(last.0, last.1, last.2)]
  }

  method ParseOwners(matches: seq<(string, string, string)>) returns (owners: seq<Owner>)
    ensures owners == Owners(matches)
  {
    owners := [];
    var i := 0;
    while i < |matches|
      invariant 0 <= i <= |matches|
      invariant owners == Owners(matches[..i])
    {
      assert matches[..i + 1][..i] == matches[..i];
      var m := matches[i];
      assert Owners(matches[..i + 1]) == Owners(matches[..i]) + [OwnerOf(m.0, m.1, m.2)];
      owners := owners + [OwnerOf(m.0, m.1, m.2)];
      i := i + 1;
    }
    assert matches[..i] == matches;
  }

  // ---------------------------------------------------------------------------------------
  // Section B: parcels and buildings

  /** The groups of one matched parcel row: number, area, land type, use and protection. */
  datatype ParcelRow = ParcelRow(number: string, area: string, landType: string, landUse: string, protection: string)

  /** A row is kept when it has a number and a positive area; header rows fail this. */
  predicate KeepRow(row: ParcelRow) {
    row.number != "" && Text.AllDigits(row.area) && Text.DigitsValue(row.area) > 0
  }

  /** A row is kept exactly when it has a number and an area of digits that are not all '0'. */
  lemma KeepRowMeaning(row: ParcelRow)
    ensures KeepRow(row) <==>
              row.number != "" && Text.AllDigits(row.area) && exists i :: 0 <= i < |row.area| && row.area[i] != '0'
  {
    if Text.AllDigits(row.area) {
      Text.DigitsValuePositive(row.area);
    }
  }

  function ParcelOf(row: ParcelRow): (p: Parcel)
    requires KeepRow(row)
    ensures p.areaM2 > 0 && p.selected
  {
    Parcel(row.number, Text.DigitsValue(row.area), Text.Strip(row.landType), Text.Strip(row.landUse),
           Text.Strip(row.protection), true)
  }

  function KeptParcels(rows: seq<ParcelRow>): (ps: seq<Parcel>)
    ensures |ps| <= |rows|
    ensures forall p :: p in ps ==> p.areaM2 > 0
  {
    if |rows| == 0 then []
    else KeptParcels(rows[..|rows| - 1]) + (if KeepRow(rows[|rows| - 1]) then [ParcelOf(rows[|rows| - 1])] else [])
  }

  /** A row is kept exactly when its area is positive, and then as the next parcel. */
  lemma {:induction false} KeptParcelsExact(rows: seq<ParcelRow>, i: nat)
    requires i < |rows|
    ensures KeepRow(rows[i]) ==> ParcelOf(rows[i]) in KeptParcels(rows)
    ensures |KeptParcels(rows)| == |KeptParcels(rows[..i])| + (if KeepRow(rows[i]) then 1 else 0)
                                    + |KeptParcels(rows[i + 1..])|
  {
    if i == |rows| - 1 {
      assert rows[..i] == rows[..|rows| - 1];
      assert rows[i + 1..] == [];
    } else {
      var init := rows[..|rows| - 1];
      assert init[i] == rows[i];
      KeptParcelsExact(init, i);
      assert init[..i] == rows[..i];
      assert rows[i + 1..][..|rows[i + 1..]| - 1] == init[i + 1..];
    }
  }

  /** Every parcel comes from a kept row. */
  lemma {:induction false} KeptParcelsFromRows(rows: seq<ParcelRow>)
    ensures forall p :: p in KeptParcels(rows) ==>
              exists i :: 0 <= i < |rows| && KeepRow(rows[i]) && p == ParcelOf(rows[i])
  {
    if |rows| > 0 {
      var init := rows[..|rows| - 1];
      KeptParcelsFromRows(init);
      forall p | p in KeptParcels(rows)
        ensures exists i :: 0 <= i < |rows| && KeepRow(rows[i]) && p == ParcelOf(rows[i])
      {
        if p in KeptParcels(init) {
          var i :| 0 <= i < |init| && KeepRow(init[i]) && p == ParcelOf(init[i]);
          assert rows[i] == init[i];
        } else {
          assert p == ParcelOf(rows[|rows| - 1]);
        }
      }
    }
  }

  method ParseParcels(rows: seq<ParcelRow>) returns (parcels: seq<Parcel>)
    ensures parcels == KeptParcels(rows)
  {
    parcels := [];
    var i := 0;
    while i < |rows|
      invariant 0 <= i <= |rows|
      invariant parcels == KeptParcels(rows[..i])
    {
      assert rows[..i + 1][..i] == rows[..i];
      assert KeptParcels(rows[..i + 1])
             == KeptParcels(rows[..i]) + (if KeepRow(rows[i]) then [ParcelOf(rows[i])] else []);
      if KeepRow(rows[i]) {
        parcels := parcels + [ParcelOf(rows[i])];
      }
      i := i + 1;
    }
    assert rows[..i] == rows;
  }

  /** The "on parcel" values paired with the buildings by position: the building count stays the
      same, buildings past the last value keep their own, values past the last building are
      dropped. */
  function PairOnParcel(buildings: seq<Building>, onParcel: seq<string>): (r: seq<Building>)
    ensures |r| == |buildings|
    ensures forall i :: 0 <= i < |r| ==> r[i].partOf == buildings[i].partOf
    ensures forall i :: 0 <= i < |r| && i < |onParcel| ==> r[i].onParcel == Text.Strip(onParcel[i])
    ensures forall i :: |onParcel| <= i < |r| ==> r[i] == buildings[i]
  {
    seq(|buildings|, i requires 0 <= i < |buildings| =>
          if i < |onParcel| then buildings[i].(onParcel := Text.Strip(onParcel[i])) else buildings[i])
  }

  /** One building per "part of" match, its text stripped, not yet on a parcel. */
  function PlainBuildings(partOf: seq<string>): seq<Building> {
    seq(|partOf|, i requires 0 <= i < |partOf| => Building(Text.Strip(partOf[i]), ""))
  }

  /** The two loops over the building matches and the "on parcel" matches. */
  method ParseBuildings(partOf: seq<string>, onParcel: seq<string>) returns (buildings: seq<Building>)
    ensures buildings == PairOnParcel(PlainBuildings(partOf), onParcel)
  {
    buildings := [];
    var i := 0;
    while i < |partOf|
      invariant 0 <= i <= |partOf|
      invariant buildings == seq(i, k requires 0 <= k < i => Building(Text.Strip(partOf[k]), ""))
    {
      buildings := buildings + [Building(Text.Strip(partOf[i]), "")];
      i := i + 1;
    }
    ghost var plain := buildings;
    var j := 0;
    while j < |onParcel|
      invariant 0 <= j <= |onParcel|
      invariant |buildings| == |plain|
      invariant forall k :: 0 <= k < |plain| ==>
                  buildings[k] == (if k < j then PairOnParcel(plain, onParcel)[k] else plain[k])
    {
      if j < |buildings| {
        buildings := buildings[j := buildings[j].(onParcel := Text.Strip(onParcel[j]))];
      }
      j := j + 1;
    }
  }

  // ---------------------------------------------------------------------------------------
  // Section C: encumbrances

  /** One entry of section C as split at its bullets, with the matches of the patterns run over
      it: the beneficiary, the amount, the parcels and the document reference. */
  datatype EntryScan = EntryScan(text: string, beneficiary: Option<string>, amount: Option<string>,
                                 parcels: seq<string>, document: Option<string>)

  /** The type of an entry: the first keyword its lower-cased text contains decides it. */
  function EncumbranceKind(lower: string): (k: string)
    ensures k == "zástavní právo" <==> Text.Contains(lower, "zástavní právo")
    ensures k == "zákaz zcizení" <==> !Text.Contains(lower, "zástavní právo") && Text.Contains(lower, "zákaz zcizení")
    ensures k == "věcné břemeno" <==>
              !Text.Contains(lower, "zástavní právo") && !Text.Contains(lower, "zákaz zcizení")
              && Text.Contains(lower, "věcné břemeno")
    ensures k == "exekuce" <==>
              !Text.Contains(lower, "zástavní právo") && !Text.Contains(lower, "zákaz zcizení")
              && !Text.Contains(lower, "věcné břemeno")
              && (Text.Contains(lower, "exekuční") || Text.Contains(lower, "exekuce"))
    ensures k == "předkupní právo" <==>
              !Text.Contains(lower, "zástavní právo") && !Text.Contains(lower, "zákaz zcizení")
              && !Text.Contains(lower, "věcné břemeno") && !Text.Contains(lower, "exekuční")
              && !Text.Contains(lower, "exekuce") && Text.Contains(lower, "předkupní")
    ensures k == "nájemní právo" <==>
              !Text.Contains(lower, "zástavní právo") && !Text.Contains(lower, "zákaz zcizení")
              && !Text.Contains(lower, "věcné břemeno") && !Text.Contains(lower, "exekuční")
              && !Text.Contains(lower, "exekuce") && !Text.Contains(lower, "předkupní")
              && Text.Contains(lower, "nájemní")
    ensures k == "jiné" <==>
              !Text.Contains(lower, "zástavní právo") && !Text.Contains(lower, "zákaz zcizení")
              && !Text.Contains(lower, "věcné břemeno") && !Text.Contains(lower, "exekuční")
              && !Text.Contains(lower, "exekuce") && !Text.Contains(lower, "předkupní")
              && !Text.Contains(lower, "nájemní")
  {
    if Text.ContainsText(lower, "zástavní právo") then "zástavní právo"
    else if Text.ContainsText(lower, "zákaz zcizení") then "zákaz zcizení"
    else if Text.ContainsText(lower, "věcné břemeno") then "věcné břemeno"
    else if Text.ContainsText(lower, "exekuční") || Text.ContainsText(lower, "exekuce") then "exekuce"
    else if Text.ContainsText(lower, "předkupní") then "předkupní právo"
    else if Text.ContainsText(lower, "nájemní") then "nájemní právo"
    else "jiné"
  }

  /** An entry counts when its stripped text has at least ten characters. */
  predicate KeepEntry(e: EntryScan) {
    |Text.Strip(e.text)| >= 10
  }

  function EncumbranceOf(e: EntryScan): (enc: Encumbrance)
    ensures enc.description == Text.Strip(e.text)
    ensures enc.kind == EncumbranceKind(Text.Lower(Text.Strip(e.text)))
  {
    var entry := Text.Strip(e.text);
    Encumbrance(EncumbranceKind(Text.Lower(entry)), entry,
                if e.beneficiary.Some? then Text.Strip(Text.CollapseSpace(e.beneficiary.value)) else "",
                e.parcels,
                if e.amount.Some? then Text.Strip(e.amount.value) else "",
                if e.document.Some? then Text.Strip(e.document.value) else "")
  }

  function Encumbrances(entries: seq<EntryScan>): (es: seq<Encumbrance>)
    ensures |es| <= |entries|
    ensures forall x :: x in es ==> |x.description| >= 10
  {
    if |entries| == 0 then []
    else
      var last := entries[|entries| - 1];
      Encumbrances(entries[..|entries| - 1]) + (if KeepEntry(last) then [EncumbranceOf(last)] else [])
  }

  /** Every encumbrance is read from an entry of at least ten characters. */
  lemma {:induction false} EncumbrancesFromEntries(entries: seq<EntryScan>)
    ensures forall x :: x in Encumbrances(entries) ==>
              exists i :: 0 <= i < |entries| && KeepEntry(entries[i]) && x == EncumbranceOf(entries[i])
  {
    if |entries| > 0 {
      var init := entries[..|entries| - 1];
      EncumbrancesFromEntries(init);
      forall x | x in Encumbrances(entries)
        ensures exists i :: 0 <= i < |entries| && KeepEntry(entries[i]) && x == EncumbranceOf(entries[i])
      {
        if x in Encumbrances(init) {
          var i :| 0 <= i < |init| && KeepEntry(init[i]) && x == EncumbranceOf(init[i]);
          assert entries[i] == init[i];
        } else {
          assert x == EncumbranceOf(entries[|entries| - 1]);
        }
      }
    }
  }

  /** Every entry of at least ten characters gives an encumbrance. */
  lemma {:induction false} EntriesKept(entries: seq<EntryScan>, i: nat)
    requires i < |entries| && KeepEntry(entries[i])
    ensures EncumbranceOf(entries[i]) in Encumbrances(entries)
  {
    if i < |entries| - 1 {
      var init := entries[..|entries| - 1];
      assert init[i] == entries[i];
      EntriesKept(init, i);
    }
  }

  /** The positions of the entries that give an encumbrance, in order: they increase and each
      holds an entry of at least ten characters. */
  function KeptEntryPositions(entries: seq<EntryScan>): (idx: seq<nat>)
    ensures forall k :: 0 <= k < |idx| ==> idx[k] < |entries| && KeepEntry(entries[idx[k]])
    ensures forall k, l :: 0 <= k < l < |idx| ==> idx[k] < idx[l]
  {
    if |entries| == 0 then []
    else
      var n := |entries| - 1;
      var idx0 := KeptEntryPositions(entries[..n]);
      assert forall k :: 0 <= k < |idx0| ==> entries[..n][idx0[k]] == entries[idx0[k]];
      idx0 + (if KeepEntry(entries[n]) then [n] else [])
  }

  /** Every entry of at least ten characters has its position among the kept ones. */
  lemma {:induction false} KeptEntryPositionsCover(entries: seq<EntryScan>)
    ensures var idx := KeptEntryPositions(entries);
            forall i :: 0 <= i < |entries| && KeepEntry(entries[i]) ==> i in idx
  {
    if |entries| > 0 {
      var n := |entries| - 1;
      var init := entries[..n];
      KeptEntryPositionsCover(init);
      var idx0 := KeptEntryPositions(init);
      var idx := KeptEntryPositions(entries);
      var pick := KeepEntry(entries[n]);
      assert idx == idx0 + (if pick then [n] else []);
      forall i | 0 <= i < n && KeepEntry(entries[i])
        ensures i in idx0
      {
        assert init[i] == entries[i];
      }
      if pick {
        assert idx[|idx0|] == n;
      }
    }
  }

  /** The k-th encumbrance is read from the entry at the k-th kept position. */
  lemma {:induction false} EncumbrancesContents(entries: seq<EntryScan>)
    ensures var es := Encumbrances(entries);
            var idx := KeptEntryPositions(entries);
            && |idx| == |es|
            && forall k :: 0 <= k < |idx| ==> es[k] == EncumbranceOf(entries[idx[k]])
  {
    if |entries| > 0 {
      var n := |entries| - 1;
      var init := entries[..n];
      EncumbrancesContents(init);
      var es0 := Encumbrances(init);
      var idx0 := KeptEntryPositions(init);
      var es := Encumbrances(entries);
      var idx := KeptEntryPositions(entries);
      assert es == es0 + (if KeepEntry(entries[n]) then [EncumbranceOf(entries[n])] else []);
      assert idx == idx0 + (if KeepEntry(entries[n]) then [n] else []);
      forall k | 0 <= k < |idx|
        ensures es[k] == EncumbranceOf(entries[idx[k]])
      {
        if k < |idx0| {
          assert es[k] == es0[k] == EncumbranceOf(init[idx0[k]]);
          assert init[idx0[k]] == entries[idx0[k]];
        }
      }
    }
  }

  /** One encumbrance per entry of at least ten characters, in order, and none from a shorter
      one: the encumbrances are read from the entries at exactly the kept positions, in
      increasing order. */
  lemma {:induction false} EncumbrancesMeaning(entries: seq<EntryScan>)
    ensures var es := Encumbrances(entries);
            var idx := KeptEntryPositions(entries);
            && |idx| == |es|
            && (forall k :: 0 <= k < |idx| ==> KeepEntry(entries[idx[k]]) && es[k] == EncumbranceOf(entries[idx[k]]))
            && (forall k, l :: 0 <= k < l < |idx| ==> idx[k] < idx[l])
            && (forall i :: 0 <= i < |entries| && KeepEntry(entries[i]) ==> i in idx)
  {
    KeptEntryPositionsCover(entries);
    EncumbrancesContents(entries);
  }

  /** `_parse_encumbrances`. */
  method ParseEncumbrances(entries: seq<EntryScan>) returns (encumbrances: seq<Encumbrance>)
    ensures encumbrances == Encumbrances(entries)
  {
    encumbrances := [];
    var i := 0;
    while i < |entries|
      invariant 0 <= i <= |entries|
      invariant encumbrances == Encumbrances(entries[..i])
    {
      assert entries[..i + 1][..i] == entries[..i];
      assert Encumbrances(entries[..i + 1])
             == Encumbrances(entries[..i]) + (if KeepEntry(entries[i]) then [EncumbranceOf(entries[i])] else []);
      var entry := Text.Strip(entries[i].text);
      if !(entry == "" || |entry| < 10) {
        encumbrances := encumbrances + [EncumbranceOf(entries[i])];
      }
      i := i + 1;
    }
    assert entries[..i] == entries;
  }

  // ---------------------------------------------------------------------------------------
  // parse_lv

  /** The text of the pages that have any, each followed by a line break, in page order. */
  function PagesText(pages: seq<Option<string>>): string {
    if |pages| == 0 then ""
    else
      var page := pages[|pages| - 1];
      PagesText(pages[..|pages| - 1]) + (if page.Some? && page.value != "" then page.value + "\n" else "")
  }

  /** The loop over the pages that builds the full text. */
  method ExtractText(pages: seq<Option<string>>) returns (fullText: string)
    ensures fullText == PagesText(pages)
  {
    fullText := "";
    var i := 0;
    while i < |pages|
      invariant 0 <= i <= |pages|
      invariant fullText == PagesText(pages[..i])
    {
      assert pages[..i + 1][..i] == pages[..i];
      var pageText := pages[i];
      if pageText.Some? && pageText.value != "" {
        fullText := fullText + pageText.value + "\n";
      }
      i := i + 1;
    }
    assert pages[..i] == pages;
  }

  /** The full text strips to nothing exactly when every page is blank or has no text. */
  lemma {:induction false} PagesTextBlank(pages: seq<Option<string>>)
    ensures Text.Strip(PagesText(pages)) == "" <==>
              forall i :: 0 <= i < |pages| && pages[i].Some? ==> Text.AllSpace(pages[i].value)
  {
    PagesAllSpace(pages);
    Text.StripEmptyIff(PagesText(pages));
  }

  lemma {:induction false} PagesAllSpace(pages: seq<Option<string>>)
    ensures Text.AllSpace(PagesText(pages)) <==>
              forall i :: 0 <= i < |pages| && pages[i].Some? ==> Text.AllSpace(pages[i].value)
  {
    if |pages| > 0 {
      var init := pages[..|pages| - 1];
      var page := pages[|pages| - 1];
      PagesAllSpace(init);
      var tail := if page.Some? && page.value != "" then page.value + "\n" else "";
      Text.AllSpaceConcat(PagesText(init), tail);
      if page.Some? && page.value != "" {
        Text.AllSpaceConcat(page.value, "\n");
        assert Text.IsSpace('\n');
      }
      assert forall i :: 0 <= i < |init| ==> init[i] == pages[i];
    }
  }

  /** The matches of the patterns over the text: the header fields, and the rows of sections A
      and B and the entries of section C. */
  datatype Scan = Scan(
    katUzemi: Option<(string, string)>, lvNumber: Option<string>, okres: Option<string>, obec: Option<string>,
    owners: seq<(string, string, string)>, parcels: seq<ParcelRow>,
    buildings: seq<string>, onParcel: seq<string>, entries: seq<EntryScan>)

  /** The six sections `parse_lv` reads, each cut between its heading and the next one. */
  datatype Sections = Sections(owners: string, property: string, rightsInFavor: string,
                               encumbrances: string, notes: string, seals: string)

  function SectionsOf(text: string): (sec: Sections)
    ensures |sec.owners| <= |text| && |sec.property| <= |text| && |sec.encumbrances| <= |text|
  {
    Sections(ExtractSection(text, OwnersHeading, PropertyHeading),
             ExtractSection(text, PropertyHeading, RightsHeading),
             ExtractSection(text, RightsInFavorHeading, EncumbrancesHeading),
             ExtractSection(text, EncumbrancesHeading, NotesHeading),
             ExtractSection(text, NotesHeading, SealsHeading),
             ExtractSection(text, SealsHeading, TitlesHeading))
  }

  /** The lists of the record, each read only when its section is present. */
  method ParseLists(sec: Sections, scan: Scan)
    returns (owners: seq<Owner>, parcels: seq<Parcel>, buildings: seq<Building>, encumbrances: seq<Encumbrance>)
    ensures owners == (if sec.owners != "" then Owners(scan.owners) else [])
    ensures parcels == (if sec.property != "" then KeptParcels(scan.parcels) else [])
    ensures buildings == (if sec.property != "" then PairOnParcel(PlainBuildings(scan.buildings), scan.onParcel) else [])
    ensures encumbrances == (if sec.encumbrances != "" then Encumbrances(scan.entries) else [])
  {
    owners, parcels, buildings, encumbrances := [], [], [], [];
    if sec.owners != "" {
      owners := ParseOwners(scan.owners);
    }
    if sec.property != "" {
      parcels := ParseParcels(scan.parcels);
      buildings := ParseBuildings(scan.buildings, scan.onParcel);
    }
    if sec.encumbrances != "" {
      encumbrances := ParseEncumbrances(scan.entries);
    }
  }

  /** `parse_lv` over the text the pages of the PDF yield. */
  method ParseLv(pages: seq<Option<string>>, scan: Scan) returns (data: LVData)
    // Text without anything but white space gives the empty record.
    ensures Text.Strip(PagesText(pages)) == "" ==> data == EmptyData() && IsEmpty(data)
    // Otherwise every list is read only when its section is present.
    ensures Text.Strip(PagesText(pages)) != "" ==>
              var sec := SectionsOf(PagesText(pages));
              && data.katUzemiKod == (if scan.katUzemi.Some? then scan.katUzemi.value.0 else "")
              && data.katUzemiNazev == (if scan.katUzemi.Some? then scan.katUzemi.value.1 else "")
              && data.lvNumber == (if scan.lvNumber.Some? then scan.lvNumber.value else "")
              && data.okres == (if scan.okres.Some? then Text.Strip(scan.okres.value) else "")
              && data.obec == (if scan.obec.Some? then Text.Strip(scan.obec.value) else "")
              && data.owners == (if sec.owners != "" then Owners(scan.owners) else [])
              && data.parcels == (if sec.property != "" then KeptParcels(scan.parcels) else [])
              && |data.buildings| == (if sec.property != "" then |scan.buildings| else 0)
              && data.buildings ==
                   (if sec.property != "" then PairOnParcel(PlainBuildings(scan.buildings), scan.onParcel) else [])
              && data.encumbrances == (if sec.encumbrances != "" then Encumbrances(scan.entries) else [])
              && data.rightsInFavor == Text.Strip(sec.rightsInFavor)
              && data.notes == Text.Strip(sec.notes)
              && data.seals == Text.Strip(sec.seals)
    ensures |data.encumbrances| <= |scan.entries| && |data.parcels| <= |scan.parcels|
    ensures forall p :: p in data.parcels ==> p.areaM2 > 0
  {
    var fullText := ExtractText(pages);
    if Text.Strip(fullText) == "" {
      return EmptyData();
    }
    var sec := SectionsOf(fullText);
    var katUzemiKod := if scan.katUzemi.Some? then scan.katUzemi.value.0 else "";
    var katUzemiNazev := if scan.katUzemi.Some? then scan.katUzemi.value.1 else "";
    var lvNumber := if scan.lvNumber.Some? then scan.lvNumber.value else "";
    var okres := if scan.okres.Some? then Text.Strip(scan.okres.value) else "";
    var obec := if scan.obec.Some? then Text.Strip(scan.obec.value) else "";
    var owners, parcels, buildings, encumbrances := ParseLists(sec, scan);
    data := LVData(katUzemiKod, katUzemiNazev, lvNumber, okres, obec, owners, parcels, buildings,
                   Text.Strip(sec.rightsInFavor), encumbrances, Text.Strip(sec.notes), Text.Strip(sec.seals));
  }
}
