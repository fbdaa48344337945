/** The geo-validator agent: where and when the photos were taken. Photos with GPS coordinates
    are measured against the property; photos with a capture date are checked for freshness,
    and when too few carry a date the AI's season estimate is compared with the current month.
    Distances, parsed dates, the current time and every HTTP or AI answer are inputs. */
module GeoValidator {
  import opened Wrappers
  import opened Json
  import opened Base
  import Text

  /** The distance bands, in metres. */
  const DistanceWarn: real := 500.0
  const DistanceFail: real := 2000.0

  /** The oldest a photo may be, in days. */
  const MaxPhotoAgeDays: int := 90

  const SecondsPerDay: int := 86400

  /** The date formats tried, in order; their parsing results come with each photo. */
  const DateFormats: seq<string> := ["%Y:%m:%d %H:%M:%S", "%Y-%m-%d %H:%M:%S", "%Y-%m-%dT%H:%M:%S", "%Y-%m-%d"]

  type Month = m: int | 1 <= m <= 12 witness 1

  /** An uploaded photo with what the agent reads of its metadata. `parsed` holds, for each
      format tried in turn, the parsed capture time in seconds or `None` when the text does not
      match; `distance` is the distance from the property in metres and `address` the
      reverse-geocoded address (`Null` when unknown). */
  datatype Image = Image(
    id: string, latitude: Json, longitude: Json,
    dateTaken: Json, datetimeOriginal: Json, date: Json,
    parsed: seq<Option<int>>, distance: real, address: Json)

  // ---------------------------------------------------------------------------------------
  // Step 2: which photos carry GPS coordinates, and which a capture date

  /** Both coordinates are present. */
  predicate HasGps(img: Image) {
    img.latitude != Null && img.longitude != Null
  }

  function WithGps(images: seq<Image>): (r: seq<Image>)
    ensures |r| <= |images|
    ensures forall x :: x in r ==> x in images && HasGps(x)
  {
    if |images| == 0 then []
    else WithGps(images[..|images| - 1]) + (if HasGps(images[|images| - 1]) then [images[|images| - 1]] else [])
  }

  function WithoutGps(images: seq<Image>): (r: seq<string>)
    ensures |r| <= |images|
  {
    if |images| == 0 then []
    else WithoutGps(images[..|images| - 1]) + (if HasGps(images[|images| - 1]) then [] else [images[|images| - 1].id])
  }

  /** Every photo lands in exactly one of the two lists. */
  lemma {:induction false} PartitionExact(images: seq<Image>)
    ensures |WithGps(images)| + |WithoutGps(images)| == |images|
    ensures forall i :: 0 <= i < |images| && HasGps(images[i]) ==> images[i] in WithGps(images)
    ensures forall i :: 0 <= i < |images| && !HasGps(images[i]) ==> images[i].id in WithoutGps(images)
  {
    if |images| > 0 {
      var init := images[..|images| - 1];
      PartitionExact(init);
      forall i | 0 <= i < |images| - 1
        ensures HasGps(images[i]) ==> images[i] in WithGps(images)
        ensures !HasGps(images[i]) ==> images[i].id in WithoutGps(images)
      {
        assert images[i] == init[i];
      }
    }
  }

  /** `date_taken or datetime_original or date`: the first truthy one, else the last. */
  function DateText(img: Image): Json {
    if Truthy(img.dateTaken) then img.dateTaken
    else if Truthy(img.datetimeOriginal) then img.datetimeOriginal
    else img.date
  }

  /** The first format that parses wins. */
  function FirstParse(parsed: seq<Option<int>>): Option<int> {
    if |parsed| == 0 then None
    else if parsed[0].Some? then parsed[0]
    else FirstParse(parsed[1..])
  }

  /** A date is found iff some format parses, and it is the one of the first format that does. */
  lemma {:induction false} FirstParseWins(parsed: seq<Option<int>>)
    ensures FirstParse(parsed).Some? <==> exists k :: 0 <= k < |parsed| && parsed[k].Some?
    ensures FirstParse(parsed).Some? ==>
              exists k :: 0 <= k < |parsed| && parsed[k] == FirstParse(parsed) && forall j :: 0 <= j < k ==> parsed[j].None?
  {
    if |parsed| > 0 && parsed[0].None? {
      var tail := parsed[1..];
      FirstParseWins(tail);
      assert forall j :: 1 <= j < |parsed| ==> parsed[j] == tail[j - 1];
      if FirstParse(tail).Some? {
        var k :| 0 <= k < |tail| && tail[k] == FirstParse(tail) && forall j :: 0 <= j < k ==> tail[j].None?;
        assert parsed[k + 1] == FirstParse(parsed);
      }
    } else if |parsed| > 0 {
      assert parsed[0] == FirstParse(parsed);
    }
  }

  /** The capture time a photo contributes, at most one. */
  function DateOf(img: Image): Option<int> {
    if Truthy(DateText(img)) then FirstParse(img.parsed) else None
  }

  /** The recorded dates, in photo order. */
  function PhotoDates(images: seq<Image>): (r: seq<(string, int)>)
    ensures |r| <= |images|
  {
    if |images| == 0 then []
    else
      var last := images[|images| - 1];
      PhotoDates(images[..|images| - 1]) + (if DateOf(last).Some? then [(last.id, DateOf(last).value)] else [])
  }

  /** The formats are tried in turn until one parses. */
  method TryFormats(parsed: seq<Option<int>>) returns (found: Option<int>)
    ensures found == FirstParse(parsed)
  {
    found := None;
    var k := 0;
    while k < |parsed| && found.None?
      invariant 0 <= k <= |parsed|
      invariant found.None? ==> forall j :: 0 <= j < k ==> parsed[j].None?
      invariant found.Some? ==> 0 < k && found == parsed[k - 1] && forall j :: 0 <= j < k - 1 ==> parsed[j].None?
    {
      found := parsed[k];
      k := k + 1;
    }
    FirstParseWins(parsed);
  }

  /** The loop of step 2. */
  method CollectPhotos(images: seq<Image>) returns (gps: seq<Image>, noGps: seq<string>, dates: seq<(string, int)>)
    ensures gps == WithGps(images) && noGps == WithoutGps(images) && dates == PhotoDates(images)
  {
    gps, noGps, dates := [], [], [];
    var i := 0;
    while i < |images|
      invariant 0 <= i <= |images|
      invariant gps == WithGps(images[..i]) && noGps == WithoutGps(images[..i])
      invariant dates == PhotoDates(images[..i])
    {
      assert images[..i + 1][..i] == images[..i];
      var img := images[i];
      if img.latitude != Null && img.longitude != Null {
        gps := gps + [img];
      } else {
        noGps := noGps + [img.id];
      }
      if Truthy(DateText(img)) {
        var found := TryFormats(img.parsed);
        if found.Some? {
          dates := dates + [(img.id, found.value)];
        }
      }
      i := i + 1;
    }
    assert images[..i] == images;
  }

  // ---------------------------------------------------------------------------------------
  // Step 3: the distance bands

  /** The status of one photo's entry. */
  function BandOf(d: real): (b: string)
    ensures b == "fail" <==> d > DistanceFail
    ensures b == "warn" <==> DistanceWarn < d <= DistanceFail
    ensures b == "ok" <==> d <= DistanceWarn
  {
    if d > DistanceFail then "fail" else if d > DistanceWarn then "warn" else "ok"
  }

  /** The message of a photo too far away, and of one far away. */
  function FarError(p: Image): Msg {
    [Lit("Foto " + p.id + ": "), Fixed(p.distance, 0), Lit(" m od nemovitosti – "),
     if Truthy(p.address) then Val(p.address) else Lit("?")]
  }

  function FarWarning(p: Image): Msg {
    [Lit("Foto " + p.id + ": "), Fixed(p.distance, 0), Lit(" m od nemovitosti")]
  }

  /** The entry recorded for each measured photo. */
  function Entry(p: Image): Json {
    Obj([("photo_id", Str(p.id)), ("photo_address", p.address), ("status", Str(BandOf(p.distance)))])
  }

  function Bands(gps: seq<Image>): (bs: seq<string>)
    ensures |bs| == |gps| && forall i :: 0 <= i < |gps| ==> bs[i] == BandOf(gps[i].distance)
  {
    if |gps| == 0 then [] else Bands(gps[..|gps| - 1]) + [BandOf(gps[|gps| - 1].distance)]
  }

  function DistanceErrors(gps: seq<Image>): seq<Msg> {
    if |gps| == 0 then []
    else DistanceErrors(gps[..|gps| - 1]) + (if gps[|gps| - 1].distance > DistanceFail then [FarError(gps[|gps| - 1])] else [])
  }

  function DistanceWarnings(gps: seq<Image>): seq<Msg> {
    if |gps| == 0 then []
    else
      var d := gps[|gps| - 1].distance;
      DistanceWarnings(gps[..|gps| - 1]) + (if DistanceWarn < d <= DistanceFail then [FarWarning(gps[|gps| - 1])] else [])
  }

  /** `max(max_distance, distance)` from 0: the largest distance, or 0 when none is larger. */
  function MaxDistance(gps: seq<Image>): real {
    if |gps| == 0 then 0.0
    else
      var m := MaxDistance(gps[..|gps| - 1]);
      var d := gps[|gps| - 1].distance;
      if d > m then d else m
  }

  /** The reported maximum is at least every distance and at least 0, and it is 0 or one of the
      distances. */
  lemma {:induction false} MaxDistanceBounds(gps: seq<Image>)
    ensures MaxDistance(gps) >= 0.0 && forall i :: 0 <= i < |gps| ==> gps[i].distance <= MaxDistance(gps)
    ensures MaxDistance(gps) == 0.0 || exists i :: 0 <= i < |gps| && gps[i].distance == MaxDistance(gps)
  {
    if |gps| > 0 {
      var n := |gps| - 1;
      MaxDistanceBounds(gps[..n]);
      assert forall i :: 0 <= i < n ==> gps[i] == gps[..n][i];
      if MaxDistance(gps[..n]) != 0.0 && MaxDistance(gps) == MaxDistance(gps[..n]) {
        var i :| 0 <= i < n && gps[..n][i].distance == MaxDistance(gps[..n]);
        assert gps[i].distance == MaxDistance(gps);
      }
    }
  }

  /** The number of entries of a band. */
  function CountBand(bs: seq<string>, b: string): (n: nat)
    ensures n <= |bs|
  {
    if |bs| == 0 then 0 else CountBand(bs[..|bs| - 1], b) + (if bs[|bs| - 1] == b then 1 else 0)
  }

  /** The three counts of the summary add up to the number of measured photos, and each error is a
      "fail" entry and each warning a "warn" entry. */
  lemma {:induction false} BandCounts(gps: seq<Image>)
    ensures CountBand(Bands(gps), "ok") + CountBand(Bands(gps), "warn") + CountBand(Bands(gps), "fail") == |gps|
    ensures |DistanceErrors(gps)| == CountBand(Bands(gps), "fail")
    ensures |DistanceWarnings(gps)| == CountBand(Bands(gps), "warn")
  {
    if |gps| > 0 {
      var init := gps[..|gps| - 1];
      BandCounts(init);
      assert Bands(gps)[..|gps| - 1] == Bands(init);
    }
  }

  /** The loop of step 3. */
  method CheckDistances(gps: seq<Image>) returns (entries: seq<Json>, warnings: seq<Msg>, errors: seq<Msg>, maxDistance: real)
    ensures |entries| == |gps| && forall i :: 0 <= i < |gps| ==> entries[i] == Entry(gps[i])
    ensures warnings == DistanceWarnings(gps) && errors == DistanceErrors(gps)
    ensures maxDistance == MaxDistance(gps)
  {
    entries, warnings, errors, maxDistance := [], [], [], 0.0;
    var i := 0;
    while i < |gps|
      invariant 0 <= i <= |gps|
      invariant |entries| == i && forall j :: 0 <= j < i ==> entries[j] == Entry(gps[j])
      invariant warnings == DistanceWarnings(gps[..i]) && errors == DistanceErrors(gps[..i])
      invariant maxDistance == MaxDistance(gps[..i])
    {
      assert gps[..i + 1][..i] == gps[..i];
      var p := gps[i];
      if p.distance > maxDistance {
        maxDistance := p.distance;
      }
      if p.distance > DistanceFail {
        errors := errors + [FarError(p)];
      } else if p.distance > DistanceWarn {
        warnings := warnings + [FarWarning(p)];
      }
      entries := entries + [Entry(p)];
      i := i + 1;
    }
    assert gps[..i] == gps;
  }

  // ---------------------------------------------------------------------------------------
  // Step 6: freshness

  /** `(now - date).days`: whole days, rounded down. */
  function AgeDays(now: int, taken: int): (days: int)
    ensures days * SecondsPerDay <= now - taken < (days + 1) * SecondsPerDay
  {
    (now - taken) / SecondsPerDay
  }

  /** The stale photos with their ages, in order. */
  function Stale(dates: seq<(string, int)>, now: int): (r: seq<(string, int)>)
    ensures |r| <= |dates|
    ensures forall x :: x in r ==> x.1 > MaxPhotoAgeDays
  {
    if |dates| == 0 then []
    else
      var (id, taken) := dates[|dates| - 1];
      Stale(dates[..|dates| - 1], now) + (if AgeDays(now, taken) > MaxPhotoAgeDays then [(id, AgeDays(now, taken))] else [])
  }

  /** A photo is stale iff it is older than 90 days. */
  lemma {:induction false} StaleIff(dates: seq<(string, int)>, now: int)
    ensures Stale(dates, now) != [] <==> exists i :: 0 <= i < |dates| && AgeDays(now, dates[i].1) > MaxPhotoAgeDays
  {
    if |dates| > 0 {
      var init := dates[..|dates| - 1];
      StaleIff(init, now);
      if Stale(init, now) != [] {
        var i :| 0 <= i < |init| && AgeDays(now, init[i].1) > MaxPhotoAgeDays;
        assert dates[i] == init[i];
      }
      if exists i :: 0 <= i < |dates| && AgeDays(now, dates[i].1) > MaxPhotoAgeDays {
        var i :| 0 <= i < |dates| && AgeDays(now, dates[i].1) > MaxPhotoAgeDays;
        if i < |dates| - 1 {
          assert init[i] == dates[i];
        }
      }
    }
  }

  /** A dated photo older than 90 days. */
  predicate IsStale(d: (string, int), now: int) {
    AgeDays(now, d.1) > MaxPhotoAgeDays
  }

  /** The positions of the stale photos, in order. */
  function StalePositions(dates: seq<(string, int)>, now: int): (idx: seq<nat>)
    ensures forall k :: 0 <= k < |idx| ==> idx[k] < |dates|
  {
    if |dates| == 0 then []
    else
      var n := |dates| - 1;
      StalePositions(dates[..n], now) + (if IsStale(dates[n], now) then [n] else [])
  }

  /** Exactly the photos older than 90 days are listed, each with its age, in order: the list
      holds the photos at the positions of exactly the stale photos, in increasing order. */
  lemma {:induction false} StaleMeaning(dates: seq<(string, int)>, now: int)
    ensures var r := Stale(dates, now);
            var idx := StalePositions(dates, now);
            && |idx| == |r|
            && (forall k :: 0 <= k < |idx| ==>
                  IsStale(dates[idx[k]], now) && r[k] == (dates[idx[k]].0, AgeDays(now, dates[idx[k]].1)))
            && (forall k, l :: 0 <= k < l < |idx| ==> idx[k] < idx[l])
            && (forall i :: 0 <= i < |dates| && IsStale(dates[i], now) ==> i in idx)
    ensures forall i :: 0 <= i < |dates| && AgeDays(now, dates[i].1) > MaxPhotoAgeDays ==>
              (dates[i].0, AgeDays(now, dates[i].1)) in Stale(dates, now)
  {
    StalePositionsMeaning(dates, now);
    StaleContents(dates, now);
    var r := Stale(dates, now);
    var idx := StalePositions(dates, now);
    forall i | 0 <= i < |dates| && AgeDays(now, dates[i].1) > MaxPhotoAgeDays
      ensures (dates[i].0, AgeDays(now, dates[i].1)) in r
    {
      assert IsStale(dates[i], now);
      var k :| 0 <= k < |idx| && idx[k] == i;
      assert r[k] == (dates[i].0, AgeDays(now, dates[i].1));
    }
  }

  /** The stale positions increase, each holds a stale photo, and none is missed. */
  lemma {:induction false} StalePositionsMeaning(dates: seq<(string, int)>, now: int)
    ensures var idx := StalePositions(dates, now);
            && (forall k :: 0 <= k < |idx| ==> IsStale(dates[idx[k]], now))
            && (forall k, l :: 0 <= k < l < |idx| ==> idx[k] < idx[l])
            && (forall i :: 0 <= i < |dates| && IsStale(dates[i], now) ==> i in idx)
  {
    if |dates| > 0 {
      var n := |dates| - 1;
      var init := dates[..n];
      StalePositionsMeaning(init, now);
      var idx0 := StalePositions(init, now);
      assert forall k :: 0 <= k < |idx0| ==> IsStale(init[idx0[k]], now);
      var idx := StalePositions(dates, now);
      assert idx == idx0 + (if IsStale(dates[n], now) then [n] else []);
      forall k | 0 <= k < |idx0|
        ensures idx[k] == idx0[k] < n && IsStale(dates[idx[k]], now)
      {
        assert IsStale(init[idx0[k]], now) && init[idx0[k]] == dates[idx0[k]];
      }
      forall i | 0 <= i < |dates| && IsStale(dates[i], now)
        ensures i in idx
      {
        if i < n {
          assert init[i] == dates[i];
          assert i in idx0;
        } else {
          assert idx[|idx0|] == n;
        }
      }
    }
  }

  /** The k-th listed photo is the one at the k-th stale position, with its age. */
  lemma {:induction false} StaleContents(dates: seq<(string, int)>, now: int)
    ensures var r := Stale(dates, now);
            var idx := StalePositions(dates, now);
            && |idx| == |r|
            && forall k :: 0 <= k < |idx| ==> r[k] == (dates[idx[k]].0, AgeDays(now, dates[idx[k]].1))
  {
    if |dates| > 0 {
      var n := |dates| - 1;
      var init := dates[..n];
      StaleContents(init, now);
      var r0 := Stale(init, now);
      var idx0 := StalePositions(init, now);
      assert forall k :: 0 <= k < |idx0| ==> idx0[k] < n && init[idx0[k]] == dates[idx0[k]];
      if IsStale(dates[n], now) {
        assert Stale(dates, now) == r0 + [(dates[n].0, AgeDays(now, dates[n].1))];
        assert StalePositions(dates, now) == idx0 + [n];
      } else {
        assert Stale(dates, now) == r0;
        assert StalePositions(dates, now) == idx0;
      }
    }
  }

  /** The loop of step 6. */
  method StalePhotos(dates: seq<(string, int)>, now: int) returns (stale: seq<(string, int)>)
    ensures stale == Stale(dates, now)
  {
    stale := [];
    var i := 0;
    while i < |dates|
      invariant 0 <= i <= |dates|
      invariant stale == Stale(dates[..i], now)
    {
      assert dates[..i + 1][..i] == dates[..i];
      var age := AgeDays(now, dates[i].1);
      if age > MaxPhotoAgeDays {
        stale := stale + [(dates[i].0, age)];
      }
      i := i + 1;
    }
    assert dates[..i] == dates;
  }

  /** `", ".join` of the first five stale ids. */
  function StaleIds(stale: seq<(string, int)>): (ids: string)
    ensures stale == [] ==> ids == ""
    ensures |stale| == 1 ==> ids == stale[0].0
    // The list starts with the first stale photo's id.
    ensures stale != [] ==> |stale[0].0| <= |ids| && ids[..|stale[0].0|] == stale[0].0
  {
    var first := if |stale| < 5 then stale else stale[..5];
    var names := seq(|first|, i requires 0 <= i < |first| => first[i].0);
    assert names != [] ==> |names[0]| <= |Text.Join(names, ", ")| && Text.Join(names, ", ")[..|names[0]|] == names[0] by {
      if names != [] { Text.JoinStartsWithFirst(names, ", "); }
    }
    Text.Join(names, ", ")
  }

  /** Any stale photo adds exactly one error. */
  function FreshnessErrors(stale: seq<(string, int)>): (errs: seq<Msg>)
    ensures |errs| == (if stale == [] then 0 else 1)
  {
    if stale == [] then []
    else [[Lit("Fotodokumentace starší než 3 měsíce: " + StaleIds(stale) + ". "),
           Lit("Fotky musí být aktuální (max 90 dní).")]]
  }

  // ---------------------------------------------------------------------------------------
  // Step 7: the season estimate

  /** The months of each season. */
  const SeasonMonths: map<string, seq<Month>> :=
    map["jaro" := [3, 4, 5], "léto" := [6, 7, 8], "podzim" := [9, 10, 11], "zima" := [12, 1, 2]]

  /** The season a month belongs to. */
  function SeasonOf(m: Month): (s: string)
    ensures s in SeasonMonths && m in SeasonMonths[s]
  {
    if 3 <= m <= 5 then "jaro" else if 6 <= m <= 8 then "léto" else if 9 <= m <= 11 then "podzim" else "zima"
  }

  /** The seasons partition the months: each month is in the list of its own season only. */
  lemma SeasonMonthsPartition(m: Month, s: string)
    requires s in SeasonMonths
    ensures m in SeasonMonths[s] <==> s == SeasonOf(m)
  {
  }

  /** `min(abs(a - b), 12 - abs(a - b))`: the distance of two months around the year. */
  function MonthDistance(a: Month, b: Month): (d: int)
    ensures 0 <= d <= 6
    ensures d == 0 <==> a == b
  {
    var diff := if a >= b then a - b else b - a;
    if diff < 12 - diff then diff else 12 - diff
  }

  /** The distance of the current month from the nearest month of a season. */
  function SeasonDistance(current: Month, months: seq<Month>): (d: int)
    requires |months| > 0
    ensures 0 <= d <= 6
    ensures forall i :: 0 <= i < |months| ==> d <= MonthDistance(current, months[i])
    ensures exists i :: 0 <= i < |months| && d == MonthDistance(current, months[i])
  {
    if |months| == 1 then MonthDistance(current, months[0])
    else
      var rest := SeasonDistance(current, months[1..]);
      var here := MonthDistance(current, months[0]);
      assert forall i :: 1 <= i < |months| ==> months[i] == months[1..][i - 1];
      if here < rest then here else rest
  }

  /** The current month is always within one season of its own: the distance is 0 there. */
  lemma OwnSeasonIsNear(m: Month)
    ensures SeasonDistance(m, SeasonMonths[SeasonOf(m)]) == 0
  {
    var months := SeasonMonths[SeasonOf(m)];
    var i :| 0 <= i < |months| && months[i] == m;
    assert MonthDistance(m, months[i]) == 0;
  }

  /** Whether the season estimate runs: fewer than four dated photos, a client, and photos. */
  predicate SeasonRuns(dateCount: nat, hasClient: bool, imageCount: nat) {
    dateCount < 4 && hasClient && imageCount > 0
  }

  function SeasonMessage(estimated: Json, reasoning: Json): Msg {
    [Lit("AI odhad ročního období: "), Val(estimated), Lit(" – neshoduje se s aktuálním obdobím. "),
     Lit("Fotodokumentace může být starší než 3 měsíce. ("), Val(reasoning), Lit(")")]
  }

  function ConcernMessage(note: Json): Msg {
    [Lit("AI podezření na stáří fotek: "), Val(note)]
  }

  /** The season named by an estimate is more than three months from the current month. */
  predicate OutOfSeason(estimated: Json, month: Month) {
    estimated.Str? && estimated.s in SeasonMonths && SeasonDistance(month, SeasonMonths[estimated.s]) > 3
  }

  /** The warnings of the season estimate; `estimation` is what the estimate returned (`Null`
      when it failed). Reading it raises when it is not a dict, formatting its confidence when
      that is not a number, and the season lookup when the season is unhashable. */
  function SeasonWarnings(estimation: Json, month: Month): (r: Py<seq<Msg>>)
    ensures !Truthy(estimation) ==> r == Ok([])
    ensures Truthy(estimation) && !estimation.Obj? ==> r.Raise?
    ensures estimation.Obj? && Truthy(estimation) && Numeric(Get(estimation, "confidence", Int(0)).value).None? ==> r.Raise?
    ensures r.Ok? && Truthy(estimation) ==> estimation.Obj?
    ensures r.Ok? ==> |r.value| <= 2
    // The season warning fires iff the season is more than three months away; the concern
    // warning iff the estimate raises one.
    ensures r.Ok? && Truthy(estimation) ==>
              var estimated := Get(estimation, "estimated_season", Str("")).value;
              var reasoning := Get(estimation, "reasoning", Str("")).value;
              var note := Get(estimation, "freshness_note", Str("")).value;
              && (SeasonMessage(estimated, reasoning) in r.value <==> OutOfSeason(estimated, month))
              && (ConcernMessage(note) in r.value <==> Truthy(Get(estimation, "freshness_concern", Null).value))
  {
    if !Truthy(estimation) then Ok([])
    else
      match Get(estimation, "estimated_season", Str(""))
      case Raise(e) => Raise(e)
      case Ok(estimated) =>
        var confidence := Get(estimation, "confidence", Int(0)).value;
        var reasoning := Get(estimation, "reasoning", Str("")).value;
        match FormatPercent(confidence)
        case Raise(e) => Raise(e)
        case Ok(_) =>
          if estimated.Arr? || estimated.Obj? then
            Raise(Exc(TypeError, "unhashable type: '" + TypeName(estimated) + "'"))
          else
            var note := Get(estimation, "freshness_note", Str("")).value;
            var season := if OutOfSeason(estimated, month) then [SeasonMessage(estimated, reasoning)] else [];
            var concern :=
              if Truthy(Get(estimation, "freshness_concern", Null).value) then [ConcernMessage(note)] else [];
            assert SeasonMessage(estimated, reasoning) != ConcernMessage(note) by {
              assert SeasonMessage(estimated, reasoning)[0] != ConcernMessage(note)[0];
            }
            Ok(season + concern)
  }

  // ---------------------------------------------------------------------------------------
  // Step 5: the street-facing photo

  /** The exterior categories, in order of preference. */
  const FrontCategories: seq<string> := ["EXTERIER_PREDNI", "EXTERIER_BOCNI", "EXTERIER_ZADNI"]

  /** Some photo has this id. */
  predicate IsImageId(pid: Json, images: seq<Image>) {
    exists i :: 0 <= i < |images| && Str(images[i].id) == pid
  }

  /** A classification selects a photo for a category: it is a dict, lists the category, and
      names a photo that exists. */
  predicate Selects(cat: string, cl: Json, images: seq<Image>) {
    && cl.Obj?
    && In(cat, Get(cl, "categories", Arr([])).value) == Ok(true)
    && IsImageId(Get(cl, "photo_id", Null).value, images)
  }

  /** The search of one category: the first classification that selects a photo wins; a
      classification that is no dict, or whose categories are not iterable, raises. */
  function SearchCategory(cat: string, cls: seq<Json>, images: seq<Image>): (r: Py<Option<Json>>)
    ensures cls == [] ==> r == Ok(None)
    // A photo found is one of the case's images.
    ensures r.Ok? && r.value.Some? ==> IsImageId(r.value.value, images)
  {
    if |cls| == 0 then Ok(None)
    else
      match Get(cls[0], "categories", Arr([]))
      case Raise(e) => Raise(e)
      case Ok(cats) =>
        match In(cat, cats)
        case Raise(e) => Raise(e)
        case Ok(found) =>
          var pid := Get(cls[0], "photo_id", Null).value;
          if found && IsImageId(pid, images) then Ok(Some(pid))
          else SearchCategory(cat, cls[1..], images)
  }

  /** Within a category the first classification that selects a photo wins; no photo is found
      only when no classification selects one. */
  lemma {:induction false} SearchCategoryFirst(cat: string, cls: seq<Json>, images: seq<Image>)
    ensures var r := SearchCategory(cat, cls, images);
            r.Ok? && r.value.Some? ==>
              exists k :: 0 <= k < |cls| && Selects(cat, cls[k], images)
                          && r.value.value == Get(cls[k], "photo_id", Null).value
                          && forall j :: 0 <= j < k ==> !Selects(cat, cls[j], images)
    ensures SearchCategory(cat, cls, images) == Ok(None) ==> forall k :: 0 <= k < |cls| ==> !Selects(cat, cls[k], images)
  {
    if |cls| > 0 {
      var tail := cls[1..];
      SearchCategoryFirst(cat, tail, images);
      assert forall j :: 1 <= j < |cls| ==> cls[j] == tail[j - 1];
      var r := SearchCategory(cat, cls, images);
      if cls[0].Obj? && In(cat, Get(cls[0], "categories", Arr([])).value).Ok? && !Selects(cat, cls[0], images) {
        assert r == SearchCategory(cat, tail, images);
        if r.Ok? && r.value.Some? {
          var k :| 0 <= k < |tail| && Selects(cat, tail[k], images)
                   && r.value.value == Get(tail[k], "photo_id", Null).value
                   && forall j :: 0 <= j < k ==> !Selects(cat, tail[j], images);
          assert Selects(cat, cls[k + 1], images);
        }
      }
    }
  }

  /** Tier 1 of `_find_front_photo`: the categories in order of preference, each over all the
      guardian's classifications. */
  function FrontTier1(classifications: Json, images: seq<Image>): (r: Py<Option<Json>>)
    ensures r.Ok? ==> Iterate(classifications).Ok?
    // The front view beats the side view, which beats the rear view.
    ensures Iterate(classifications).Ok? && SearchCategory(FrontCategories[0], Iterate(classifications).value, images).Ok?
            && SearchCategory(FrontCategories[0], Iterate(classifications).value, images).value.Some? ==>
              r == SearchCategory(FrontCategories[0], Iterate(classifications).value, images)
    ensures r.Ok? && r.value.Some? ==>
              exists c :: 0 <= c < |FrontCategories| && r == SearchCategory(FrontCategories[c], Iterate(classifications).value, images)
                          && forall b :: 0 <= b < c ==> SearchCategory(FrontCategories[b], Iterate(classifications).value, images) == Ok(None)
    // The first category whose search does not come back empty decides, photo or exception.
    ensures Iterate(classifications).Ok? ==>
              forall c :: 0 <= c < |FrontCategories|
                          && (forall b :: 0 <= b < c ==> SearchCategory(FrontCategories[b], Iterate(classifications).value, images) == Ok(None))
                          && SearchCategory(FrontCategories[c], Iterate(classifications).value, images) != Ok(None) ==>
                            r == SearchCategory(FrontCategories[c], Iterate(classifications).value, images)
    // Only when all three searches come back empty is no photo found.
    ensures Iterate(classifications).Ok?
            && (forall c :: 0 <= c < |FrontCategories| ==> SearchCategory(FrontCategories[c], Iterate(classifications).value, images) == Ok(None)) ==>
              r == Ok(None)
  {
    match Iterate(classifications)
    case Raise(e) => Raise(e)
    case Ok(cls) =>
      match SearchCategory(FrontCategories[0], cls, images)
      case Raise(e) => Raise(e)
      case Ok(Some(pid)) => Ok(Some(pid))
      case Ok(None) =>
        match SearchCategory(FrontCategories[1], cls, images)
        case Raise(e) => Raise(e)
        case Ok(Some(pid)) => Ok(Some(pid))
        case Ok(None) => SearchCategory(FrontCategories[2], cls, images)
  }

  // ---------------------------------------------------------------------------------------
  // Step 8: the result

  /** `verdict_map.get(v, v)`: the three known verdicts get their Czech wording, anything else
      is shown as it is. */
  function VerdictShown(v: Json): (shown: Json)
    ensures v == Str("shoda") ==> shown == Str("vizuální shoda ✓")
    ensures v == Str("možná_shoda") ==> shown == Str("možná shoda ⚠")
    ensures v == Str("neshoda") ==> shown == Str("neshoda ✗")
    ensures v !in {Str("shoda"), Str("možná_shoda"), Str("neshoda")} ==> shown == v
  {
    if v == Str("shoda") then Str("vizuální shoda ✓")
    else if v == Str("možná_shoda") then Str("možná shoda ⚠")
    else if v == Str("neshoda") then Str("neshoda ✗")
    else v
  }

  /** The summary suffix of the visual comparison; `visual` is what the comparison returned
      (`Null` when it did not run or failed). */
  function VisualSuffix(visual: Json): (r: Py<Msg>)
    ensures !Truthy(visual) ==> r == Ok([])
    // A truthy result that is not a dict has no `get`.
    ensures Truthy(visual) && !visual.Obj? ==> r.Raise? && r.exc.kind == AttributeError
    // A list or dict verdict cannot be looked up in the verdict map; any other verdict is shown,
    // a missing one as the empty string.
    ensures Truthy(visual) && visual.Obj? ==>
              var v := Get(visual, "match_verdict", Str("")).value;
              && ((v.Arr? || v.Obj?) ==> r.Raise? && r.exc.kind == TypeError)
              && (!v.Arr? && !v.Obj? ==> r == Ok([Lit(" | Porovnání s panoramou: "), Val(VerdictShown(v))]))
  {
    if !Truthy(visual) then Ok([])
    else
      match Get(visual, "match_verdict", Str(""))
      case Raise(e) => Raise(e)
      case Ok(v) =>
        if v.Arr? || v.Obj? then Raise(Exc(TypeError, "unhashable type: '" + TypeName(v) + "'"))
        else Ok([Lit(" | Porovnání s panoramou: "), Val(VerdictShown(v))])
  }

  /** The warning when most photos lack coordinates. */
  function MajorityWarnings(withCount: nat, withoutCount: nat, total: nat): (ws: seq<Msg>)
    ensures |ws| == (if withoutCount > withCount then 1 else 0)
  {
    if withoutCount > withCount then
      [[Lit("Většina fotek ("), Val(Int(withoutCount)), Lit("/"), Val(Int(total)), Lit(") nemá GPS metadata.")]]
    else []
  }

  function NoKeyResult(): (r: AgentResult)
    ensures r.status == Warn && |r.warnings| == 1 && r.errors == []
  {
    Plain(Warn, M("GeoValidace nedostupná – chybí API klíč Mapy.cz."), map[],
          [M("API klíč pro Mapy.cz není nastaven.")], [])
  }

  function NoCoordinatesResult(): (r: AgentResult)
    ensures r.status == Warn && |r.warnings| == 1 && r.errors == []
  {
    Plain(Warn, M("Nelze ověřit lokaci – chybí GPS souřadnice nemovitosti nebo adresa."), map[],
          [M("Nebyla zadána adresa ani souřadnice nemovitosti.")], [])
  }

  /** The front photo id: tier 1, else the id the AI picked (`tier2`, `Null` when none). */
  function FrontId(tier1: Option<Json>, tier2: Json): Json {
    if tier1.Some? then tier1.value else tier2
  }

  /** The result of the measured, dated run. */
  method Assemble(images: seq<Image>, gps: seq<Image>, noGps: seq<string>, entries: seq<Json>,
                  maxDistance: real, stale: seq<(string, int)>, warnings: seq<Msg>, errors: seq<Msg>,
                  frontId: Json, visual: Json, suffix: Msg, estimation: Json)
    returns (r: AgentResult)
    ensures r.status == StatusOf(errors, warnings) && r.warnings == warnings && r.errors == errors
    ensures r.details.Keys >= {"photos_total", "photos_with_gps", "photos_without_gps", "front_photo_id"}
    ensures r.details["photos_total"] == Int(|images|)
    ensures r.details["photos_with_gps"] == Int(|gps|) && r.details["photos_without_gps"] == Int(|noGps|)
    ensures r.details["front_photo_id"] == frontId
    // The summary ends with the visual comparison's suffix, and the comparison itself is kept.
    ensures |r.summary| >= |suffix| && r.summary[|r.summary| - |suffix|..] == suffix
    ensures "visual_comparison" in r.details && r.details["visual_comparison"] == visual
  {
    var ok := CountBand(Bands(gps), "ok");
    var warn := CountBand(Bands(gps), "warn");
    var fail := CountBand(Bands(gps), "fail");
    var summary := [Lit("GPS: "), Val(Int(ok)), Lit(" OK, "), Val(Int(warn)), Lit(" varování, "),
                    Val(Int(fail)), Lit(" chyb z "), Val(Int(|gps|)), Lit(" fotek (max "),
                    Fixed(maxDistance, 0), Lit(" m)")] + suffix;
    var staleJson := seq(|stale|, i requires 0 <= i < |stale| =>
                           Obj([("photo_id", Str(stale[i].0)), ("age_days", Int(stale[i].1))]));
    r := Plain(StatusOf(errors, warnings), summary,
               map["photos_total" := Int(|images|), "photos_with_gps" := Int(|gps|),
                   "photos_without_gps" := Int(|noGps|), "photo_results" := Arr(entries),
                   "threshold_warn_m" := Int(500), "threshold_fail_m" := Int(2000),
                   "front_photo_id" := frontId, "visual_comparison" := visual,
                   "stale_photos" := Arr(staleJson), "season_estimation" := estimation],
               warnings, errors);
  }

  /** `GeoValidatorAgent.run`. `mapyKey` says whether the map service key is set and
      `coordinatesKnown` whether the property has coordinates once any geocoding is done; `now`
      is the current time in seconds and `month` its month; `classifications` are the guardian's,
      `tier2` the photo the AI picks when the guardian's do not decide, `visual` the visual
      comparison and `estimation` the season estimate, each `Null` when absent. */
  method Run(mapyKey: bool, coordinatesKnown: bool, images: seq<Image>, now: int, month: Month,
             hasClient: bool, classifications: Json, tier2: Json, visual: Json, estimation: Json)
    returns (o: RunOutcome)
    ensures !mapyKey ==> o == Returned(NoKeyResult())
    ensures mapyKey && !coordinatesKnown ==> o == Returned(NoCoordinatesResult())
    ensures mapyKey && coordinatesKnown ==> Validated(o, images, now, month, hasClient, classifications, tier2, visual, estimation)
  {
    if !mapyKey {
      return Returned(NoKeyResult());
    }
    if !coordinatesKnown {
      return Returned(NoCoordinatesResult());
    }
    o := Validate(images, now, month, hasClient, classifications, tier2, visual, estimation);
  }

  /** What the validation gives once the key and the coordinates are known. An exception escapes
      exactly when the guardian's classifications, the season estimate (when it runs) or the
      visual comparison cannot be read, since those replies are read outside any `try`. A
      returned result carries the distance errors followed by the freshness errors, the distance
      warnings followed by the season and majority warnings, the status they give, the photo
      counts and the front photo. */
  predicate Validated(o: RunOutcome, images: seq<Image>, now: int, month: Month, hasClient: bool,
                      classifications: Json, tier2: Json, visual: Json, estimation: Json)
  {
    var seasonRuns := SeasonRuns(|PhotoDates(images)|, hasClient, |images|);
    && (o.Raised? ==>
          FrontTier1(classifications, images).Raise?
          || (seasonRuns && SeasonWarnings(estimation, month).Raise?)
          || VisualSuffix(visual).Raise?)
    && (FrontTier1(classifications, images).Raise? ==> o.Raised?)
    && (o.Returned? ==>
          && FrontTier1(classifications, images).Ok?
          && (seasonRuns ==> SeasonWarnings(estimation, month).Ok?)
          && var gps := WithGps(images);
             var season := if seasonRuns then SeasonWarnings(estimation, month).value else [];
             && o.result.errors == DistanceErrors(gps) + FreshnessErrors(Stale(PhotoDates(images), now))
             && o.result.warnings == DistanceWarnings(gps) + season
                                     + MajorityWarnings(|gps|, |WithoutGps(images)|, |images|)
             && o.result.status == StatusOf(o.result.errors, o.result.warnings)
             && o.result.details.Keys >= {"photos_total", "photos_with_gps", "photos_without_gps", "front_photo_id"}
             && o.result.details["photos_with_gps"] == Int(|gps|)
             && o.result.details["photos_without_gps"] == Int(|WithoutGps(images)|)
             && o.result.details["front_photo_id"] == FrontId(FrontTier1(classifications, images).value, tier2)
             && VisualSuffix(visual).Ok?
             && var suffix := VisualSuffix(visual).value;
                && |o.result.summary| >= |suffix|
                && o.result.summary[|o.result.summary| - |suffix|..] == suffix)
  }

  /** Steps 1 to 8 of `run`. */
  method Validate(images: seq<Image>, now: int, month: Month, hasClient: bool,
                  classifications: Json, tier2: Json, visual: Json, estimation: Json)
    returns (o: RunOutcome)
    ensures Validated(o, images, now, month, hasClient, classifications, tier2, visual, estimation)
  {
    var gps, noGps, dates := CollectPhotos(images);
    var entries, warnings, errors, maxDistance := CheckDistances(gps);
    var tier1 := FrontTier1(classifications, images);
    if tier1.Raise? {
      return Raised(tier1.exc);
    }
    var frontId := FrontId(tier1.value, tier2);
    var stale := StalePhotos(dates, now);
    errors := errors + FreshnessErrors(stale);
    var ranEstimate := if SeasonRuns(|dates|, hasClient, |images|) then estimation else Null;
    if SeasonRuns(|dates|, hasClient, |images|) {
      var season := SeasonWarnings(estimation, month);
      if season.Raise? {
        return Raised(season.exc);
      }
      warnings := warnings + season.value;
    }
    warnings := warnings + MajorityWarnings(|gps|, |noGps|, |images|);
    var suffix := VisualSuffix(visual);
    if suffix.Raise? {
      return Raised(suffix.exc);
    }
    var r := Assemble(images, gps, noGps, entries, maxDistance, stale, warnings, errors, frontId,
                      visual, suffix.value, ranEstimate);
    o := Returned(r);
  }
}
