/** The ownership-record analyst that locates each parcel in the land registry: its run, the
    split of a parcel number into its stem and subdivision, and the accumulation of the parcel
    coordinates into the box the ortofoto is fetched for. */
module CadastralAnalyst {
  import opened Wrappers
  import opened Json
  import opened Base
  import opened LvParser
  import opened RiskReport
  import Text

  /** `run`. The parse of the uploaded file is given by its outcome `parsed` (see
      `LvParser.ParseLv`); the two AI analyses by the calls `lvCall` and `ortofotoCall`, where
      `NoClient` also stands for an ortofoto that could not be located or downloaded. */
  method Run(lvPath: Json, parsed: Py<LVData>, selected: Json,
             lvCall: AiCall<Json>, ortofotoCall: AiCall<Json>) returns (o: RunOutcome)
    // No uploaded record: a warning, and the run is skipped.
    ensures !Truthy(lvPath) ==> o == Returned(Skipped())
    // A record that cannot be read fails with its error.
    ensures Truthy(lvPath) && parsed.Raise? ==> o == Returned(ParseFailed(parsed.exc))
    ensures Truthy(lvPath) && parsed.Ok? ==>
              o == Report(parsed.value, selected, LvAnalysis(lvCall), OrtofotoAnalysis(ortofotoCall))
  {
    if !Truthy(lvPath) {
      return Returned(Skipped());
    }
    if parsed.Raise? {
      return Returned(ParseFailed(parsed.exc));
    }
    o := Analyse(parsed.value, selected, LvAnalysis(lvCall), OrtofotoAnalysis(ortofotoCall));
  }

  // ---------------------------------------------------------------------------------------
  // Parcel numbers

  /** `parts = number.split("/")`: the stem `parts[0]` and the subdivision `parts[1]`, or "0"
      when there is no "/". */
  function ParcelNumberParts(number: string): (r: (string, string))
  {
    var parts := Text.Split(number, '/');
    (parts[0], if |parts| > 1 then parts[1] else "0")
  }

  /** Without a "/" the whole number is the stem and the subdivision is "0". With one, the stem
      is the text before the first "/", and the subdivision the text after it up to the next
      "/" or the end. */
  lemma ParcelNumberPartsMeaning(number: string)
    ensures '/' !in number ==> ParcelNumberParts(number) == (number, "0")
    ensures '/' in number ==>
              var stem := ParcelNumberParts(number).0;
              var sub := ParcelNumberParts(number).1;
              && '/' !in stem && '/' !in sub
              && |stem| + 1 + |sub| <= |number|
              && number[..|stem| + 1 + |sub|] == stem + "/" + sub
              && (|stem| + 1 + |sub| < |number| ==> number[|stem| + 1 + |sub|] == '/')
  {
    Text.SplitPieces(number, '/');
    if '/' in number {
      var (stem, rest) := Text.SplitOnce(number, '/');
      TwoPieces(number, stem, rest);
    }
  }

  /** The stem and the text up to the next "/" of a number split at its first "/". */
  lemma TwoPieces(number: string, stem: string, rest: string)
    requires number == stem + "/" + rest && '/' !in stem
    ensures var sub := Text.SplitOnce(rest, '/').0;
            && '/' !in sub
            && |stem| + 1 + |sub| <= |number|
            && number[..|stem| + 1 + |sub|] == stem + "/" + sub
            && (|stem| + 1 + |sub| < |number| ==> number[|stem| + 1 + |sub|] == '/')
  {
    var (sub, more) := Text.SplitOnce(rest, '/');
    if '/' in rest {
      assert number == (stem + "/" + sub) + "/" + more;
      assert number[..|stem| + 1 + |sub|] == stem + "/" + sub;
    } else {
      assert number[..|stem| + 1 + |sub|] == number;
    }
  }

  /** A number with exactly one "/" is its stem and subdivision joined by the "/". */
  lemma ParcelNumberRoundTrip(number: string)
    requires '/' in number && '/' !in Text.SplitOnce(number, '/').1
    ensures ParcelNumberParts(number).0 + "/" + ParcelNumberParts(number).1 == number
  {
    Text.SplitPieces(number, '/');
  }

  // ---------------------------------------------------------------------------------------
  // The parcel coordinates

  /** The point the registry gives for a parcel, with the parcel's area. */
  datatype Geometry = Geometry(lat: real, lon: real, areaM2: nat)

  /** `if lat and lon`: a point is used only when both coordinates are non-zero. */
  predicate Usable(found: Option<(real, real)>) {
    found.Some? && found.value.0 != 0.0 && found.value.1 != 0.0
  }

  /** `all_coords`: the usable points, in the order of the parcels. */
  function Located(found: seq<Option<(real, real)>>): (coords: seq<(real, real)>)
    ensures |coords| <= |found|
    ensures forall c :: c in coords ==> c.0 != 0.0 && c.1 != 0.0
  {
    if |found| == 0 then []
    else
      var init := Located(found[..|found| - 1]);
      var last := found[|found| - 1];
      if Usable(last) then init + [last.value] else init
  }

  /** `geometries`: each parcel with a usable point, keyed by its number; a later parcel with
      the same number replaces an earlier one. */
  function Geometries(parcels: seq<Parcel>, found: seq<Option<(real, real)>>): (g: map<string, Geometry>)
    requires |found| == |parcels|
  {
    if |parcels| == 0 then map[]
    else
      var n := |parcels| - 1;
      var init := Geometries(parcels[..n], found[..n]);
      if Usable(found[n]) then
        init[parcels[n].parcelNumber := Geometry(found[n].value.0, found[n].value.1, parcels[n].areaM2)]
      else init
  }

  /** A parcel number has a geometry exactly when some parcel with that number has a usable
      point, and the geometry is that of the last such parcel. */
  lemma {:induction false} GeometriesMeaning(parcels: seq<Parcel>, found: seq<Option<(real, real)>>, k: string)
    requires |found| == |parcels|
    ensures k in Geometries(parcels, found) <==>
              exists i :: 0 <= i < |parcels| && parcels[i].parcelNumber == k && Usable(found[i])
    ensures k in Geometries(parcels, found) ==>
              exists i :: 0 <= i < |parcels| && parcels[i].parcelNumber == k && Usable(found[i])
                 && Geometries(parcels, found)[k] == Geometry(found[i].value.0, found[i].value.1, parcels[i].areaM2)
                 && forall j :: i < j < |parcels| && parcels[j].parcelNumber == k ==> !Usable(found[j])
  {
    if |parcels| > 0 {
      var n := |parcels| - 1;
      GeometriesMeaning(parcels[..n], found[..n], k);
      assert forall i :: 0 <= i < n ==> parcels[..n][i] == parcels[i] && found[..n][i] == found[i];
      if Usable(found[n]) && parcels[n].parcelNumber == k {
        assert Geometries(parcels, found)[k] == Geometry(found[n].value.0, found[n].value.1, parcels[n].areaM2);
      }
    }
  }

  /** The registry loop of `_fetch_parcel_geometries`. `found[i]` is the point the registry
      returned for `parcels[i]`, or `None` when the search, the detail request or the reply
      failed. */
  method CollectGeometries(parcels: seq<Parcel>, found: seq<Option<(real, real)>>)
    returns (geometries: map<string, Geometry>, coords: seq<(real, real)>)
    requires |found| == |parcels|
    ensures geometries == Geometries(parcels, found)
    ensures coords == Located(found)
  {
    geometries := map[];
    coords := [];
    var i := 0;
    assert parcels[..0] == [] && found[..0] == [];
    while i < |parcels|
      invariant 0 <= i <= |parcels|
      invariant geometries == Geometries(parcels[..i], found[..i])
      invariant coords == Located(found[..i])
    {
      assert parcels[..i + 1][..i] == parcels[..i];
      assert found[..i + 1][..i] == found[..i];
      var f := found[i];
      if f.Some? {
        var (lat, lon) := f.value;
        if lat != 0.0 && lon != 0.0 {
          geometries := geometries[parcels[i].parcelNumber := Geometry(lat, lon, parcels[i].areaM2)];
          coords := coords + [(lat, lon)];
        }
      }
      i := i + 1;
    }
    assert parcels[..i] == parcels && found[..i] == found;
  }

  // ---------------------------------------------------------------------------------------
  // The box of the ortofoto

  /** The buffer added around the points, in degrees. */
  const Buffer: real := 0.002

  function MinOf(xs: seq<real>): (m: real)
    requires |xs| > 0
    ensures m in xs && forall x :: x in xs ==> m <= x
  {
    if |xs| == 1 then xs[0]
    else
      var rest := MinOf(xs[1..]);
      assert forall x :: x in xs[1..] ==> x in xs;
      assert forall x :: x in xs ==> x == xs[0] || x in xs[1..];
      if xs[0] <= rest then xs[0] else rest
  }

  function MaxOf(xs: seq<real>): (m: real)
    requires |xs| > 0
    ensures m in xs && forall x :: x in xs ==> x <= m
  {
    if |xs| == 1 then xs[0]
    else
      var rest := MaxOf(xs[1..]);
      assert forall x :: x in xs[1..] ==> x in xs;
      assert forall x :: x in xs ==> x == xs[0] || x in xs[1..];
      if xs[0] >= rest then xs[0] else rest
  }

  datatype BBox = BBox(minLon: real, minLat: real, maxLon: real, maxLat: real)

  /** `[min(lons) - buffer, min(lats) - buffer, max(lons) + buffer, max(lats) + buffer]`, or
      `None` without any point. */
  function BoxAround(coords: seq<(real, real)>): (r: Option<BBox>)
    ensures r.None? <==> coords == []
  {
    if coords == [] then None
    else
      var lats := seq(|coords|, i requires 0 <= i < |coords| => coords[i].0);
      var lons := seq(|coords|, i requires 0 <= i < |coords| => coords[i].1);
      Some(BBox(MinOf(lons) - Buffer, MinOf(lats) - Buffer, MaxOf(lons) + Buffer, MaxOf(lats) + Buffer))
  }

  /** Every point lies inside the box, at least the buffer away from each edge, and each edge
      is the buffer away from some point. */
  lemma BoxAroundContains(coords: seq<(real, real)>)
    requires coords != []
    ensures var b := BoxAround(coords).value;
            && (forall i :: 0 <= i < |coords| ==>
                  b.minLat + Buffer <= coords[i].0 <= b.maxLat - Buffer
                  && b.minLon + Buffer <= coords[i].1 <= b.maxLon - Buffer)
            && (exists i :: 0 <= i < |coords| && coords[i].0 == b.minLat + Buffer)
            && (exists i :: 0 <= i < |coords| && coords[i].0 == b.maxLat - Buffer)
            && (exists i :: 0 <= i < |coords| && coords[i].1 == b.minLon + Buffer)
            && (exists i :: 0 <= i < |coords| && coords[i].1 == b.maxLon - Buffer)
  {
    var lats := seq(|coords|, i requires 0 <= i < |coords| => coords[i].0);
    var lons := seq(|coords|, i requires 0 <= i < |coords| => coords[i].1);
    var b := BoxAround(coords).value;
    assert b.minLat == MinOf(lats) - Buffer && b.maxLat == MaxOf(lats) + Buffer;
    assert b.minLon == MinOf(lons) - Buffer && b.maxLon == MaxOf(lons) + Buffer;
    forall i | 0 <= i < |coords|
      ensures b.minLat + Buffer <= coords[i].0 <= b.maxLat - Buffer
      ensures b.minLon + Buffer <= coords[i].1 <= b.maxLon - Buffer
    {
      assert lats[i] in lats && lons[i] in lons;
    }
    var m := MinOf(lats);
    var j :| 0 <= j < |lats| && lats[j] == m;
    assert coords[j].0 == b.minLat + Buffer;
    var ml := MaxOf(lats);
    var j2 :| 0 <= j2 < |lats| && lats[j2] == ml;
    assert coords[j2].0 == b.maxLat - Buffer;
    var n := MinOf(lons);
    var k2 :| 0 <= k2 < |lons| && lons[k2] == n;
    assert coords[k2].1 == b.minLon + Buffer;
    var x := MaxOf(lons);
    var k :| 0 <= k < |lons| && lons[k] == x;
    assert coords[k].1 == b.maxLon - Buffer;
  }
}
