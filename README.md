# Property-valuation validation pipeline: the decision rules

This project models the rules of a property-valuation validation backend. The backend is a set
of agents. Each agent reads its part of the case: the photos, the building records, the
ownership record ("list vlastnictví", LV) and the valuation form. It turns what it finds into an
`AgentResult`, and each rule of each agent is deterministic. A result has a status (SUCCESS,
WARN or FAIL), an optional category and score, a summary, details, and warning and error lists.
The answers of the AI model and of the web services are inputs to these rules, whatever their
shape. The model is written in Dafny with the following modules.

- `Wrappers`, `Json` and `Text` give the Python semantics the agents rely on:
  - `Py<T>`: a value, or a raised exception with its kind and text;
  - `AiCall<T>`: no client, a failed call, or a reply;
  - `Json`: the values a reply can hold, with `dict.get`, `d[k]`, `in`, iteration, truthiness
    and numeric comparison as Python performs them;
  - `Text`: `strip`, `split`, `find`, `lower` and `upper`.
- `Base`:
  - the `AgentResult` defaults and the status rule "FAIL if errors, else WARN if warnings, else
    SUCCESS";
  - the `BaseAgent` class, a small state machine over `status`, `logs`, `result` and the start
    and end times.
- `Config` gives the classification matrix. Age ranges and inspector-score ranges select one of
  25 cells; a cell holds a category from 1 to 5 and a match type (shoda, varovani or konflikt).
- The agents:
  - `Historian`: the effective age of the building and its category;
  - `Guardian`: the photo-count thresholds;
  - `Forensic`: the manipulation thresholds for each photo;
  - `Inspektor`: the ANO/NE verdict;
  - `DocumentComparator` and its second copy `PorovnavacDokumentu`: the check tally overrides
    the AI verdict;
  - `GeoValidator`: the GPS partition, distance bands, photo freshness, the season check and the
    front-photo search;
  - `RiskReport`, the risk logic shared by the two cadastral analysts `KatastralniAnalytik` and
    `CadastralAnalyst`: parcel selection, the risk merge, the severity tally, the box clamping
    and the parcel-number split;
  - `Strategist`: the final aggregation into a red, orange or green semaphore and a report.
- The parsers:
  - `LvParser`, the ownership-record parser: section slicing, owners, parcels, buildings and
    the typing of encumbrances;
  - `PdfParser`, the valuation-form parser: line normalisation, the first-match field rule, and
    the year and basement post-processing.

Loops, lists built by appending, and objects updated in place are modelled as methods. The
aggregation loop, the risk merge, the photo and parcel loops, the line cleaning, the parsers'
list building and `BaseAgent` are examples. Each such method is proved equal to a recursive
specification function, and the lemmas state what the source promises about that function.
Conditionals and expressions are modelled as functions.

## Model

| member | source | states |
|---|---|---|
| Config.AgeRangeKey | backend/config.py:83-94 | The age keys partition the ages: "0-5" for at most 5, "6-15", "16-30", "31-50", and "51+" above 50, each key holding exactly on its interval. |
| Config.AgeRangeKeyIntegers | backend/config.py:83-94 | On whole years the bounds are the integer ones: ≤5, 6–15, 16–30, 31–50, ≥51. |
| Config.ScoreRangeKey | backend/config.py:97-108 | The score keys partition the integers: ≤7, 8–15, 16–21, 22–26, ≥27, each key holding exactly on its interval. |
| Config.AgeRow | backend/config.py:44-94 | The row of an age is the position of its key among the matrix rows. |
| Config.ScoreColumn | backend/config.py:44-108 | The column of a score is the position of its key among the matrix columns. |
| Config.MatrixCell | backend/config.py:44-108 | Every key the two key functions return is in the matrix, so the two-level lookup is total. Its category is in 1..5 and its match type is shoda, varovani or konflikt. |
| Config.MatrixShape | backend/config.py:44-80 | The matrix has exactly the five age rows, and each row has exactly the five score columns. |
| Config.LowScoresFixCategory | backend/config.py:44-80 | In every age row, scores up to 7 give category 5, scores 8–15 give 4, and scores 16–21 give 3. |
| Config.EveryRowHasShoda | backend/config.py:44-80 | Every age row holds some score whose cell is "shoda". |
| Config.RangeKeysMonotone | backend/config.py:83-108 | A larger age never maps to an earlier row, and a larger score never maps to an earlier column. |
| Historian.Source | backend/agents/historian.py:53-60 | The reconstruction year is the source exactly when it is given and positive. |
| Historian.EffectiveAge | backend/agents/historian.py:53-63 | The age counts from the reconstruction year when there is one, else from the construction year, and is never below 0. A missing construction year with no usable reconstruction raises TypeError. |
| Historian.Category | backend/agents/historian.py:68-82 | The category uses the boundaries 5/15/30/50. It is in 1..5 and is the matrix row of the same age plus one. |
| Historian.Run | backend/agents/historian.py:38-104 | With both years missing or zero: FAIL with exactly one error and no category. Otherwise, when it returns: SUCCESS, no errors, the effective age ≥ 0 in the details, the category of that age, and one warning exactly when the age is above 50, which happens exactly when the category is 5. |
| Historian.ReconstructionTakesPrecedence | backend/agents/historian.py:53-60 | With a positive reconstruction year, the construction year has no effect on the effective age or the category. |
| Guardian.ReadCounts | backend/agents/guardian.py:117-121 | The counts can be read exactly when the reply and its summary are dicts. |
| Guardian.FallbackResult | backend/agents/guardian.py:164-171 | WARN with one warning and no error; the details give the photo total and `ai_available` false. |
| Guardian.ExpectedErrors | backend/agents/guardian.py:129-134 | There are at most three errors. The exterior error is present exactly when the exterior count is below 2, the interior error exactly when the interior count is below 3, and the rear/side error exactly when no rear or side exterior was seen. |
| Guardian.Assess | backend/agents/guardian.py:125-158 | The errors of the AI path are the expected ones and there are no warnings. The status is FAIL when there are errors, else SUCCESS. The details echo the total and the counts unchanged. |
| Guardian.CheckCounts | backend/agents/guardian.py:129-134 | The three checks append exactly the expected errors, in order. |
| Guardian.Run | backend/agents/guardian.py:69-162 | Fewer than 9 photos give FAIL with one error before any AI work. No client or a failed call gives the fallback. A readable reply gives at most three errors, never WARN, FAIL exactly when there are errors, and the counts echoed. |
| Forensic.ClassifyPhoto | backend/agents/forenzni_analytik.py:130-141 | A photo is flagged exactly when score ≥ 0.7 and confidence ≥ 0.8. It is suspect when it is not flagged and score ≥ 0.4; that includes a high score with low confidence. The step raises exactly when the photo is not a dict, its score is not a number, a score of at least 0.7 has a confidence that is not a number, or a photo that gives a message has no id. |
| Forensic.CollectRaiseStops | backend/agents/forenzni_analytik.py:130-141 | The first photo that raises decides the outcome of the whole loop. |
| Forensic.CollectBound | backend/agents/forenzni_analytik.py:130-141 | Each photo contributes at most one message, so errors plus warnings are at most the number of photos. |
| Forensic.CheckPhotos | backend/agents/forenzni_analytik.py:130-141 | The photo loop computes exactly the specified error and warning lists, or the first exception. |
| Forensic.FormatFixed | backend/agents/forenzni_analytik.py:145 | Formatting the score succeeds exactly on numbers and keeps their value. |
| Forensic.ReadReply | backend/agents/forenzni_analytik.py:121-124 | The reply is read exactly when it and its "overall" part are dicts. The score is the overall `max_manipulation_score`, 0 by default, and is not recomputed from the photos. |
| Forensic.Analyse | backend/agents/forenzni_analytik.py:121-145 | The analysis succeeds exactly when the reply is read, its photos can be iterated, the photo loop runs through and the maximum score can be formatted. It then gives the reply and the loop's errors and warnings. |
| Forensic.NoClientResult | backend/agents/forenzni_analytik.py:74-80 | WARN with exactly one warning and no error. |
| Forensic.FailedResult | backend/agents/forenzni_analytik.py:159-165 | WARN with the exception text as its one warning. |
| Forensic.Run | backend/agents/forenzni_analytik.py:70-165 | No client or a failed call gives WARN. An analysed reply gives the loop's errors and warnings, the status derived from them, and the overall score. FAIL implies some error. |
| Forensic.MessagesBounded | backend/agents/forenzni_analytik.py:129-141 | For an analysed reply, errors plus warnings are at most the number of photos. |
| Inspektor.NoClientResult | backend/agents/inspektor.py:73-80 | WARN with score 0 and exactly one warning. |
| Inspektor.FailedResult | backend/agents/inspektor.py:134-141 | WARN with score 0, no error, and the exception text as its warning. |
| Inspektor.IsNoSpellings | backend/agents/inspektor.py:117 | The verdict counts as "NE" exactly for the four spellings that differ only in case. |
| Inspektor.Verdict | backend/agents/inspektor.py:109-110 | The verdict is read exactly when the reply is a dict, and a missing verdict is "NE". |
| Inspektor.Run | backend/agents/inspektor.py:69-141 | No client or an exception gives WARN with score 0. An "NE" verdict in any case gives FAIL with exactly one error; any other verdict gives SUCCESS with no warnings or errors. The details carry the verdict and the reason unchanged. |
| Inspektor.MissingVerdictFails | backend/agents/inspektor.py:109-119 | A reply without a verdict fails with exactly one error. |
| DocumentComparator.Attached | backend/agents/document_comparator.py:112-121 | At most 10 images are attached. Each is a readable image among the first ten. |
| DocumentComparator.Readable | backend/agents/document_comparator.py:114-121 | Only readable images of the case are kept. ReadableMeaning shows that every readable image is kept, in order. |
| DocumentComparator.ReadablePositions | backend/agents/document_comparator.py:114-121 | The positions of the readable images are in range, increasing, and each holds a readable image. |
| DocumentComparator.ReadableMeaning | backend/agents/document_comparator.py:114-121 | The kept images are exactly the readable ones, in order: the k-th kept image is the one at the k-th readable position, the positions increase, and no readable image is missed. |
| DocumentComparator.ReadablePositionsCover | backend/agents/document_comparator.py:114-121 | Every readable image's position is among the readable positions. |
| DocumentComparator.ReadableContents | backend/agents/document_comparator.py:114-121 | There are as many kept images as readable positions, and the k-th kept image is the image at the k-th position. |
| DocumentComparator.AttachedMeaning | backend/agents/document_comparator.py:112-121 | Every readable image among the first ten is attached, in order, and nothing else is. |
| DocumentComparator.CountMatches | backend/agents/document_comparator.py:145 | The number of matches is at most the number of checks. It equals that number exactly when every check matches, and is 0 exactly when none does. A missing "match" counts as a mismatch. |
| DocumentComparator.Tally | backend/agents/document_comparator.py:145-146 | It raises exactly when the checks cannot be iterated or one of them is not a dict. matches + mismatches equals the length of the checks, and on a list the 0 and all cases hold as they do for the count. |
| DocumentComparator.OverrideVerdict | backend/agents/document_comparator.py:148-156 | With non-empty checks: no mismatch gives SHODA, no match gives NESHODA, and otherwise ČÁSTEČNÁ_SHODA. With empty checks the AI verdict is kept. |
| DocumentComparator.VerdictStatus | backend/agents/document_comparator.py:158-164 | SHODA is SUCCESS, ČÁSTEČNÁ_SHODA is WARN, and anything else is FAIL, each in both directions. |
| DocumentComparator.WarningsOf | backend/agents/document_comparator.py:179 | The AI warnings are passed through one for one. |
| DocumentComparator.Analyse | backend/agents/document_comparator.py:137-164 | It raises exactly when the reply is not a dict, the checks cannot be tallied, or the confidence cannot be formatted as a percentage. The confidence, warnings, recommendations and overall summary are the reply's values or their defaults. The verdict is the tally's override of the AI verdict, which defaults to UNKNOWN, and matches + mismatches equals the number of checks. |
| DocumentComparator.SkippedResult | backend/agents/document_comparator.py:76-82 | SUCCESS, skipped for missing property data. |
| DocumentComparator.NoClientResult | backend/agents/document_comparator.py:86-93 | WARN with one warning, skipped for the missing key. |
| DocumentComparator.NoImagesResult | backend/agents/document_comparator.py:95-102 | WARN with one warning, skipped for missing images. |
| DocumentComparator.FailedResult | backend/agents/document_comparator.py:182-189 | WARN with one warning and the error text in the details. |
| DocumentComparator.ComparedResult | backend/agents/document_comparator.py:168-180 | The status is that of the verdict, there are no errors, and the details carry the verdict and the checks. |
| DocumentComparator.Run | backend/agents/document_comparator.py:71-189 | Missing property data is decided first (SUCCESS, skipped), then no client (WARN), then no images (WARN). An exception gives WARN. FAIL happens only for an analysed reply, and there are never errors. |
| DocumentComparator.TallyDecidesStatus | backend/agents/document_comparator.py:145-164 | With non-empty checks the status depends only on the tally: no mismatch gives SUCCESS, no match gives FAIL, and both together give WARN. |
| DocumentComparator.NoChecksKeepsVerdict | backend/agents/document_comparator.py:137-164 | With no checks the AI verdict is kept, and a missing one is UNKNOWN. |
| PorovnavacDokumentu.Run | backend/agents/porovnavac_dokumentu.py:117-235 | The same gates as the document comparator. A failed call or a raising analysis gives WARN with the exception text as the error detail. The tally sums to the number of checks, the override decides the status, SUCCESS happens exactly on SHODA, and there are never errors. |
| GeoValidator.WithGps | backend/agents/geovalidator.py:198-210 | The GPS list holds only images of the case that have both coordinates. |
| GeoValidator.WithoutGps | backend/agents/geovalidator.py:198-210 | The no-GPS list is no longer than the images. |
| GeoValidator.PartitionExact | backend/agents/geovalidator.py:198-210 | Each image lands in exactly one of the two lists, and their lengths sum to the number of images. |
| GeoValidator.FirstParseWins | backend/agents/geovalidator.py:213-224 | A date is recorded exactly when some format parses, and it is the value of the first format that does. |
| GeoValidator.TryFormats | backend/agents/geovalidator.py:216-222 | The format loop stops at the first format that parses and yields its date, or nothing. |
| GeoValidator.PhotoDates | backend/agents/geovalidator.py:212-224 | At most one date is recorded per photo. |
| GeoValidator.CollectPhotos | backend/agents/geovalidator.py:192-224 | The photo loop builds exactly the specified GPS list, no-GPS list and dates. |
| GeoValidator.BandOf | backend/agents/geovalidator.py:267-276 | Above 2000 m is "fail", above 500 m up to 2000 m is "warn", and otherwise "ok", each in both directions. |
| GeoValidator.Bands | backend/agents/geovalidator.py:236-278 | There is one band per GPS photo, the band of its distance. |
| GeoValidator.MaxDistanceBounds | backend/agents/geovalidator.py:233-238 | The maximum distance is at least 0, at least every photo's distance, and is 0 or some photo's distance. |
| GeoValidator.CountBand | backend/agents/geovalidator.py:430-432 | A band count is at most the number of photos. |
| GeoValidator.BandCounts | backend/agents/geovalidator.py:430-432 | ok + warn + fail equals the number of GPS photos. Each fail photo gives one error and each warn photo one warning. |
| GeoValidator.CheckDistances | backend/agents/geovalidator.py:230-278 | The distance loop gives one entry per photo, the specified warnings and errors, and the maximum distance. |
| GeoValidator.Stale | backend/agents/geovalidator.py:359-367 | Only photos older than 90 days are listed. StaleMeaning shows that every such photo is listed, in order. |
| GeoValidator.StalePositions | backend/agents/geovalidator.py:359-367 | The positions of the stale photos are all in range. |
| GeoValidator.StaleMeaning | backend/agents/geovalidator.py:359-367 | Exactly the photos older than 90 days are listed, in order. The k-th entry is the id and age of the photo at the k-th stale position, the positions increase, and every photo older than 90 days is listed with its age. |
| GeoValidator.StalePositionsMeaning | backend/agents/geovalidator.py:359-367 | The stale positions increase, each holds a photo older than 90 days, and none is missed. |
| GeoValidator.StaleContents | backend/agents/geovalidator.py:359-367 | There are as many entries as stale positions, and the k-th entry is the id and age of the photo at the k-th position. |
| GeoValidator.AgeDays | backend/agents/geovalidator.py:361 | The age is the whole number of days in the time since the photo was taken, rounded down. |
| GeoValidator.StaleIff | backend/agents/geovalidator.py:359-367 | The stale list is non-empty exactly when some photo is older than 90 days. |
| GeoValidator.StalePhotos | backend/agents/geovalidator.py:359-367 | The freshness loop builds exactly Stale, which StaleMeaning characterises as every photo older than 90 days, in order. |
| GeoValidator.FreshnessErrors | backend/agents/geovalidator.py:368-373 | Any stale photo adds exactly one error; none adds none. |
| GeoValidator.StaleIds | backend/agents/geovalidator.py:368-369 | No stale photo gives "". A single stale photo gives its id, and otherwise the list starts with the first stale photo's id. |
| GeoValidator.SeasonOf | backend/agents/geovalidator.py:103-108 | Every month belongs to a season of the table. |
| GeoValidator.SeasonMonthsPartition | backend/agents/geovalidator.py:103-108 | Each month belongs to exactly one season. |
| GeoValidator.MonthDistance | backend/agents/geovalidator.py:400-403 | The circular month distance is in 0..6 and is 0 exactly for the same month. |
| GeoValidator.SeasonDistance | backend/agents/geovalidator.py:400-403 | The distance to a season is in 0..6 and is the smallest distance to one of its months. |
| GeoValidator.OwnSeasonIsNear | backend/agents/geovalidator.py:396-404 | The current month is at distance 0 from its own season, so it never warns. |
| GeoValidator.SeasonWarnings | backend/agents/geovalidator.py:388-416 | Without an estimate there is no warning, and a malformed one raises. Otherwise at most two warnings: the season warning exactly when the estimated season is more than 3 months away, and the concern exactly when one is reported. |
| GeoValidator.SearchCategoryFirst | backend/agents/geovalidator.py:486-494 | The photo found for a category is that of the first classification in that category whose id is an image of the case. When none is found, no classification qualifies. |
| GeoValidator.FrontTier1 | backend/agents/geovalidator.py:483-494 | PREDNI beats BOCNI, which beats ZADNI. The first category whose search does not come back empty decides, with its photo or its exception. No photo is found only when all three searches come back empty. |
| GeoValidator.SearchCategory | backend/agents/geovalidator.py:486-494 | No classifications find nothing, and a photo found is one of the case's images. |
| GeoValidator.VerdictShown | backend/agents/geovalidator.py:437-438 | "shoda", "možná_shoda" and "neshoda" get their Czech wording, and every other verdict is shown as it is. |
| GeoValidator.VisualSuffix | backend/agents/geovalidator.py:434-438 | No visual comparison adds nothing. A truthy comparison that is not a dict raises AttributeError, and a list or dict verdict raises TypeError. Any other verdict is shown through the verdict map, and a missing verdict is shown as "". |
| GeoValidator.MajorityWarnings | backend/agents/geovalidator.py:419-420 | One warning exactly when more photos lack GPS than have it. |
| GeoValidator.NoKeyResult | backend/agents/geovalidator.py:148-154 | Without the map key: WARN with one warning. |
| GeoValidator.NoCoordinatesResult | backend/agents/geovalidator.py:183-189 | Without property coordinates: WARN with one warning. |
| GeoValidator.Assemble | backend/agents/geovalidator.py:422-472 | The status is FAIL when there are errors, else WARN when there are warnings, else SUCCESS. The details give the photo counts, the front photo and the visual comparison. The summary ends with the visual comparison's suffix. |
| GeoValidator.Run | backend/agents/geovalidator.py:135-472 | No key or no coordinates gives WARN. Otherwise the outcome is as validated (next row). |
| GeoValidator.Validate | backend/agents/geovalidator.py:191-472 | The errors are the distance errors followed by the freshness error. The warnings are the distance warnings followed by the season check. The status is derived from both. The run raises exactly through a malformed front-photo search, season estimate or visual comparison. A returned run has a readable visual comparison, and its summary ends with that suffix. |
| LvParser.EmptyData | backend/lv_parser.py:57-74 | The default record has no owners, parcels, buildings or encumbrances. |
| LvParser.ToJson | backend/lv_parser.py:76-77 | The record serialises to a dict of its 12 fields. |
| LvParser.ExtractSection | backend/lv_parser.py:211-219 | The section is never longer than the text. |
| LvParser.UpTo | backend/lv_parser.py:216-219 | The piece is a prefix of the rest of the text. It stops at the first end marker, or at the end of the text, and holds no end marker that starts inside it. |
| LvParser.ExtractSectionMeaning | backend/lv_parser.py:211-219 | No start marker gives "". Otherwise the section is the text from the end of the first start marker. It stops at the first end marker after that point, or at the end of the text. No end marker starts inside it. |
| LvParser.OwnerOf | backend/lv_parser.py:128-134 | The name is the text before the first comma and the address the text after it, both stripped. Without a comma the address is "". The identifier and the share are kept. |
| LvParser.Owners | backend/lv_parser.py:127-135 | There is one owner per matched owner row. |
| LvParser.ParseOwners | backend/lv_parser.py:127-135 | The owner loop builds exactly the specified owners. |
| LvParser.ParcelOf | backend/lv_parser.py:150-157 | A kept parcel has a positive area and is selected. |
| LvParser.KeepRowMeaning | backend/lv_parser.py:150 | A row is kept exactly when it has a number and its area is digits that are not all "0". |
| LvParser.KeptParcels | backend/lv_parser.py:145-157 | Only rows with a positive area become parcels. |
| LvParser.KeptParcelsExact | backend/lv_parser.py:145-157 | Every row with a positive area is kept, and each row adds exactly one parcel or none. |
| LvParser.KeptParcelsFromRows | backend/lv_parser.py:145-157 | Every parcel comes from some row with a positive area. |
| LvParser.ParseParcels | backend/lv_parser.py:145-157 | The parcel loop builds exactly the kept parcels. |
| LvParser.PairOnParcel | backend/lv_parser.py:172-174 | The "on parcel" values are paired with the buildings by index. The building count is unchanged, extra values are dropped, and buildings without a value are untouched. |
| LvParser.ParseBuildings | backend/lv_parser.py:164-174 | The building loops give the stripped buildings paired with their parcels. |
| LvParser.EncumbranceKind | backend/lv_parser.py:235-249 | The type is the first keyword found, in the order zástavní právo, zákaz zcizení, věcné břemeno, exekuce, předkupní, nájemní; otherwise "jiné". Each of the seven types holds exactly when its keyword is found and no earlier one is. |
| LvParser.EncumbranceOf | backend/lv_parser.py:228-270 | The description is the stripped entry, and the type is that of its lower-cased text. |
| LvParser.Encumbrances | backend/lv_parser.py:227-272 | There are no more encumbrances than entries, and each has a description of at least 10 characters. |
| LvParser.EncumbrancesFromEntries | backend/lv_parser.py:227-272 | Every encumbrance comes from a kept entry. |
| LvParser.EntriesKept | backend/lv_parser.py:227-272 | Every entry of at least 10 characters after stripping becomes an encumbrance. |
| LvParser.KeptEntryPositions | backend/lv_parser.py:227-272 | The positions of the entries of at least 10 characters are in range and increasing. |
| LvParser.KeptEntryPositionsCover | backend/lv_parser.py:227-272 | Every entry of at least 10 characters has its position among the kept positions. |
| LvParser.EncumbrancesContents | backend/lv_parser.py:227-272 | There is one encumbrance per kept position, and the k-th is read from the entry at the k-th position. |
| LvParser.EncumbrancesMeaning | backend/lv_parser.py:227-272 | One encumbrance per entry of at least 10 characters, in entry order, and none from a shorter entry. |
| LvParser.ParseEncumbrances | backend/lv_parser.py:227-272 | The entry loop builds exactly the specified encumbrances. |
| LvParser.ExtractText | backend/lv_parser.py:88-92 | The page loop joins the text of the pages that have text. |
| LvParser.PagesTextBlank | backend/lv_parser.py:94-95 | The text is blank exactly when every page's text is whitespace. |
| LvParser.PagesAllSpace | backend/lv_parser.py:94-95 | The joined text is all whitespace exactly when every page's text is. |
| LvParser.SectionsOf | backend/lv_parser.py:120-206 | No section is longer than the text. |
| LvParser.ParseLists | backend/lv_parser.py:120-206 | Each list is read from the scanned matches when its section is present, and is empty otherwise. |
| LvParser.ParseLv | backend/lv_parser.py:83-208 | Blank text gives the empty record. Otherwise the owners, parcels, buildings and encumbrances come from their sections when these are present. The buildings are the stripped matches paired with their parcels. The cadastral code and name, the sheet number, the district and the municipality are the scanned values, stripped where the source strips them. Every parcel has a positive area. |
| PdfParser.Fields | backend/pdf_parser.py:22-31 | A form has its eight fields. |
| PdfParser.Empty | backend/pdf_parser.py:24-31 | The default form has every field None. |
| PdfParser.FieldsDetermine | backend/pdf_parser.py:22-31 | A form is determined by its eight fields. |
| PdfParser.IsEmptyIff | backend/pdf_parser.py:36-38 | A form is empty exactly when every field is None or "". |
| PdfParser.SetField | backend/pdf_parser.py:110-111 | Setting a field changes that field and no other. |
| PdfParser.CleanedLines | backend/pdf_parser.py:93-100 | Cleaning never adds lines. |
| PdfParser.CleanLineShape | backend/pdf_parser.py:96 | A cleaned non-empty line has no blank at either end, no tab, and no run of two spaces. |
| PdfParser.CleanedLinesClean | backend/pdf_parser.py:93-98 | After normalisation no line is empty, none has leading or trailing blanks, and none holds a tab or a double space. |
| PdfParser.CleanedLinesKeep | backend/pdf_parser.py:93-98 | Every line that is not blank after cleaning is kept. |
| PdfParser.CleanLines | backend/pdf_parser.py:93-100 | The line loop builds exactly the cleaned lines. |
| PdfParser.FieldValue | backend/pdf_parser.py:104-112 | A set value is non-empty and stripped. |
| PdfParser.FirstMatchDecides | backend/pdf_parser.py:104-112 | The first pattern that matches decides the field, even when its capture is empty: the field then stays None. |
| PdfParser.NoMatchLeavesNone | backend/pdf_parser.py:104-112 | No match leaves the field None. |
| PdfParser.FirstMatch | backend/pdf_parser.py:104-112 | The pattern loop computes exactly the specified field value. |
| PdfParser.Extracted | backend/pdf_parser.py:103-112 | Each field is the value its own patterns decide. |
| PdfParser.ExtractFields | backend/pdf_parser.py:103-112 | The field loop builds exactly the extracted form. |
| PdfParser.FirstYear | backend/pdf_parser.py:116 | The year found is the first four-digit group. |
| PdfParser.NormaliseYear | backend/pdf_parser.py:115-118 | A completion year is reduced to its first four-digit group when it has one, and is left as it is otherwise. |
| PdfParser.NormaliseYearIdempotent | backend/pdf_parser.py:115-118 | Reducing the year twice is reducing it once. |
| PdfParser.NormaliseBasement | backend/pdf_parser.py:121-122 | The basement field is upper-cased character by character, its length is kept, and None and "" are left alone. |
| PdfParser.NormaliseBasementIdempotent | backend/pdf_parser.py:121-122 | Upper-casing twice is upper-casing once. |
| PdfParser.PostProcessed | backend/pdf_parser.py:114-122 | Post-processing changes only the year and the basement fields. |
| PdfParser.ParsePdf | backend/pdf_parser.py:71-124 | Empty text leaves every field None. Otherwise the form is the post-processed extraction from the cleaned lines. |
| RiskReport.RiskEntryFields | backend/agents/katastralni_analytik.py:218-223 | A building's risk entry carries its severity, the building category and its description. |
| RiskReport.BuildingEntryFields | backend/agents/katastralni_analytik.py:218-223 | A building's severity is its risk level, "střední" by default. |
| RiskReport.BuildingRisks | backend/agents/katastralni_analytik.py:216-223 | There is one entry per detected building, in order, and a building that is not a dict raises. |
| RiskReport.LvRiskItems | backend/agents/katastralni_analytik.py:214-215 | Without a record analysis there are no record risks. Otherwise they are its "risks", and a non-dict analysis raises. |
| RiskReport.DetectedBuildings | backend/agents/katastralni_analytik.py:216-217 | Without an ortofoto analysis there are no buildings. Otherwise they are its detected buildings. |
| RiskReport.AllRisks | backend/agents/katastralni_analytik.py:212-223 | The merge succeeds exactly when both parts can be read. It has one entry per record risk and per building. |
| RiskReport.MergedRiskOrder | backend/agents/katastralni_analytik.py:212-223 | The record risks come first, unchanged, followed by the buildings in order with their risk level as severity. |
| RiskReport.MergeRisks | backend/agents/katastralni_analytik.py:212-223 | The merging code builds exactly the merged risks. |
| RiskReport.AppendBuildingRisks | backend/agents/katastralni_analytik.py:216-223 | The building loop appends exactly the building entries, or raises at the first bad building. |
| RiskReport.BuildingRisksStep | backend/agents/katastralni_analytik.py:216-223 | One more building adds its entry, or raises when it is not a dict. |
| RiskReport.BuildingRisksPrefix | backend/agents/katastralni_analytik.py:216-223 | A bad building stops the whole merge. |
| RiskReport.Severities | backend/agents/katastralni_analytik.py:225-227 | There is one severity per risk, and a risk that is not a dict raises. |
| RiskReport.Count | backend/agents/katastralni_analytik.py:225-227 | A count is at most the number of risks. |
| RiskReport.CountPositive | backend/agents/katastralni_analytik.py:225-234 | A count is positive exactly when the level occurs. |
| RiskReport.CountsBounded | backend/agents/katastralni_analytik.py:225-227 | high + medium + low is at most the number of risks. |
| RiskReport.CountStatus | backend/agents/katastralni_analytik.py:229-234 | Any "vysoké" gives FAIL, else any "střední" gives WARN, else SUCCESS, each in both directions. |
| RiskReport.FlaggedPositions | backend/agents/katastralni_analytik.py:259-260 | Every selected position is a position of a risk. |
| RiskReport.FlaggedPositionsMeaning | backend/agents/katastralni_analytik.py:259-260 | The selected positions increase, each is at one of the levels, and none at one of the levels is missed. |
| RiskReport.FlaggedStep | backend/agents/katastralni_analytik.py:259-260 | A successful Flagged extends the prefix's result by the last risk's description exactly when that risk is at one of the levels. |
| RiskReport.FlaggedMeaning | backend/agents/katastralni_analytik.py:259-260 | The messages are the descriptions of the risks at the selected positions, in order. The selection raises exactly when one of those risks has no description. |
| RiskReport.FlaggedCount | backend/agents/katastralni_analytik.py:259-260 | The warnings number high + medium, and the errors number high. |
| RiskReport.ErrorsAmongWarnings | backend/agents/katastralni_analytik.py:259-260 | The errors are a subsequence of the warnings. |
| RiskReport.Assess | backend/agents/katastralni_analytik.py:225-260 | The counts and the status agree with the severities as in the rows above. The warnings are the descriptions of the "vysoké" and "střední" risks and the errors those of the "vysoké" ones. The assessment raises exactly when a risk is malformed. |
| RiskReport.OverallRisk | backend/agents/katastralni_analytik.py:236 | It is "neznámé" without a record analysis or without its level. |
| RiskReport.FromAnalysis | backend/agents/katastralni_analytik.py:251-252 | Without a record analysis a field takes its default. |
| RiskReport.SelectParcels | backend/agents/katastralni_analytik.py:155-159 | The filter succeeds exactly when there are no parcels or the selection is a container. |
| RiskReport.SelectionKeepsOrder | backend/agents/katastralni_analytik.py:155-159 | The kept parcels are a subsequence of the parcels, and all of them are selected. |
| RiskReport.SelectionKeepsAllSelected | backend/agents/katastralni_analytik.py:155-159 | Every selected parcel is kept. SelectionMeaning adds that every copy of a repeated parcel is kept. |
| RiskReport.SelectedPositions | backend/agents/katastralni_analytik.py:155-159 | The positions of the selected parcels are in range and increasing, and each holds a selected parcel. |
| RiskReport.SelectedPositionsCover | backend/agents/katastralni_analytik.py:155-159 | Every selected parcel's position is among the selected positions, each copy of a repeated parcel included. |
| RiskReport.SelectParcelsStep | backend/agents/katastralni_analytik.py:155-159 | A successful selection extends the prefix's selection by the last parcel exactly when that parcel is selected. |
| RiskReport.SelectionContents | backend/agents/katastralni_analytik.py:155-159 | There is one kept parcel per selected position, and the k-th is the parcel at the k-th position. |
| RiskReport.SelectionMeaning | backend/agents/katastralni_analytik.py:155-159 | The filter keeps exactly the selected parcels, every copy of each, in their original order. |
| RiskReport.PickedExtend | backend/agents/katastralni_analytik.py:155-159 | Extending a selection by one element keeps the k-th picked element at the k-th picked position. |
| RiskReport.SelectParcelsPrefix | backend/agents/katastralni_analytik.py:155-159 | The first failing membership test stops the filter. |
| RiskReport.FilterParcels | backend/agents/katastralni_analytik.py:155-159 | The filter code computes exactly the selected parcels. |
| RiskReport.LvAnalysis | backend/agents/katastralni_analytik.py:264-283 | The record analysis is the AI reply when that is a dict, and None otherwise. |
| RiskReport.OrtofotoAnalysis | backend/agents/katastralni_analytik.py:537-579 | The ortofoto analysis is the AI reply when that is a dict with a sized building list, and None otherwise. |
| RiskReport.Skipped | backend/agents/katastralni_analytik.py:128-135 | No record gives WARN with one warning, skipped. |
| RiskReport.ParseFailed | backend/agents/katastralni_analytik.py:146-152 | An unreadable record gives FAIL with its error as the one error. |
| RiskReport.DetailsFields | backend/agents/katastralni_analytik.py:244-258 | The details carry the record, the risks, the overall level, the summary and the ortofoto analysis, with "neznámé" and "" when there is no record analysis. |
| RiskReport.Report | backend/agents/katastralni_analytik.py:154-261 | The run raises exactly when the selection, the merge or the assessment raises. |
| RiskReport.RiskRun | backend/agents/katastralni_analytik.py:209-261 | After the selection, the run raises exactly when the merge or the assessment raises. |
| RiskReport.ReportReturns | backend/agents/katastralni_analytik.py:209-261 | A returned run has the status, warnings and errors of the assessment, no category or score, the merged risks, and the filtered record in its details. |
| RiskReport.Analyse | backend/agents/katastralni_analytik.py:154-261 | The analysis code computes exactly the specified report. |
| RiskReport.MergeAndAssess | backend/agents/katastralni_analytik.py:209-261 | The merge and tally code computes exactly the specified run. |
| KatastralniAnalytik.WithAccess | backend/agents/katastralni_analytik.py:252 | The details gain the access assessment of the record analysis, None without one, and nothing else changes. |
| KatastralniAnalytik.Run | backend/agents/katastralni_analytik.py:122-261 | No record gives WARN/skipped, and an unreadable record gives FAIL with one error. Otherwise the run is the shared report extended with the access assessment. |
| KatastralniAnalytik.Clamp | backend/agents/katastralni_analytik.py:616-619 | The clamped edges satisfy 0 ≤ low < high. In an image of size ≥ 1, low ≤ size − 1 and high ≤ size. |
| KatastralniAnalytik.ClampKeepsInside | backend/agents/katastralni_analytik.py:616-619 | A box already inside the image is unchanged. |
| KatastralniAnalytik.ClampIdempotent | backend/agents/katastralni_analytik.py:616-619 | Clamping twice is clamping once. |
| KatastralniAnalytik.Percent | backend/agents/katastralni_analytik.py:605-608 | A percentage is read exactly when the building is a dict holding a number, and is that number over 100. |
| KatastralniAnalytik.BoxOf | backend/agents/katastralni_analytik.py:605-619 | A building's box is computed exactly when its four percentages are readable, and then lies inside the image. |
| KatastralniAnalytik.Edges | backend/agents/katastralni_analytik.py:610-619 | The pixel edges of a span stay in the image. |
| KatastralniAnalytik.EdgesWhole | backend/agents/katastralni_analytik.py:605-619 | A span of whole percentages that lies inside a 100-pixel image keeps its edges. |
| KatastralniAnalytik.RiskColor | backend/agents/katastralni_analytik.py:590-622 | Red exactly for "vysoké", green exactly for "nízké", amber otherwise; a list or dict raises. |
| KatastralniAnalytik.MarkOf | backend/agents/katastralni_analytik.py:604-622 | A building's mark lies inside the image. |
| KatastralniAnalytik.Marks | backend/agents/katastralni_analytik.py:604-622 | There is one mark per building, and every box lies inside the image. |
| KatastralniAnalytik.MarkOfParts | backend/agents/katastralni_analytik.py:604-622 | A mark is the building's box in its risk colour. |
| KatastralniAnalytik.MarksPrefix | backend/agents/katastralni_analytik.py:604-622 | The first building that cannot be drawn stops the annotation. |
| KatastralniAnalytik.Annotate | backend/agents/katastralni_analytik.py:604-643 | The drawing loop draws exactly the specified marks. |
| CadastralAnalyst.Run | backend/agents/cadastral_analyst.py:97-213 | No record gives WARN/skipped, and an unreadable record gives FAIL with one error. Otherwise the run is the shared report: the parcel filter, the merge and the severity tally. |
| CadastralAnalyst.ParcelNumberPartsMeaning | backend/agents/cadastral_analyst.py:248-250 | Without "/" the stem is the whole number and the subdivision is "0". With one, the stem is the text before the first "/", and the subdivision the text after it up to the next "/". |
| CadastralAnalyst.ParcelNumberRoundTrip | backend/agents/cadastral_analyst.py:248-250 | A number with one "/" is its stem and subdivision joined by "/". |
| CadastralAnalyst.Located | backend/agents/cadastral_analyst.py:281-287 | Only points with both coordinates non-zero are collected. |
| CadastralAnalyst.GeometriesMeaning | backend/agents/cadastral_analyst.py:281-287 | A parcel number has a geometry exactly when some parcel with that number has a usable point, and it is that of the last such parcel. |
| CadastralAnalyst.CollectGeometries | backend/agents/cadastral_analyst.py:244-296 | The registry loop builds exactly the specified geometries and points. |
| CadastralAnalyst.BoxAround | backend/agents/cadastral_analyst.py:299-310 | There is a box exactly when there is a point. |
| CadastralAnalyst.BoxAroundContains | backend/agents/cadastral_analyst.py:299-310 | Every point lies inside the box, at least the buffer from each edge. Each of the four edges is exactly the buffer from some point. |
| Strategist.Counted | backend/agents/strategist.py:71-73 | The counted entries are no more than the entries. |
| Strategist.CountedPositions | backend/agents/strategist.py:71-73 | Every counted position is a position of an entry. |
| Strategist.CountedMeaning | backend/agents/strategist.py:71-73 | The counted entries are exactly the entries that have a result and are not named "Strategist", in their order. |
| Strategist.CountedPositionsMeaning | backend/agents/strategist.py:71-73 | The counted positions increase, each holds an entry with a result not named "Strategist", and no such entry is missed. |
| Strategist.CountedContents | backend/agents/strategist.py:71-73 | The k-th counted pair is the name and result of the entry at the k-th counted position. |
| Strategist.AnyFailMeaning | backend/agents/strategist.py:86-87 | `has_fail` holds exactly when some counted agent is FAIL. |
| Strategist.Aggregate | backend/agents/strategist.py:64-92 | The loop counts exactly the counted agents. The warning total is the sum of their warning counts, `has_fail` holds exactly when one of them failed, and the warnings and errors are theirs concatenated in order. |
| Strategist.WarningCountIsLength | backend/agents/strategist.py:83-84 | The warning total is the length of the concatenated warnings. |
| Strategist.ResultOf | backend/agents/strategist.py:56-60 | A result found under a name is the entry of that name. |
| Strategist.CountedFailIsFail | backend/agents/strategist.py:71-87 | A counted FAIL makes `has_fail` hold. |
| Strategist.GuardianFailImpliesHasFail | backend/agents/strategist.py:71-95 | A Guardian FAIL always implies `has_fail`. |
| Strategist.EffectiveAgeOf | backend/agents/strategist.py:106-107 | The age is present exactly when the historian reported a non-None effective age, and it is that value. |
| Strategist.AiScoreOf | backend/agents/strategist.py:108-109 | The score is present exactly when the inspector has one. It differs from it by less than 1, and a non-negative score is rounded down. |
| Strategist.MatrixStep | backend/agents/strategist.py:111-118 | The matrix is consulted only when both the effective age and the inspector score exist, and then gives the matrix cell. |
| Strategist.ConflictWarnings | backend/agents/strategist.py:120-121 | A "konflikt" cell adds exactly one warning, and any other cell adds none. |
| Strategist.FinalCategory | backend/agents/strategist.py:125-135 | The critical override forces 5. Otherwise the matrix category beats the historian's. |
| Strategist.CriticalOverride | backend/agents/strategist.py:131-134 | The override holds only with an inspector result. A missing entry gives no override, and a present one counts by its truth value. |
| Strategist.ChooseSemaphore | backend/agents/strategist.py:138-146 | Red exactly when `has_fail`, a Guardian FAIL or at least 3 warnings. Orange exactly for 1 or 2 warnings otherwise, and green otherwise. |
| Strategist.SemaphoreStatus | backend/agents/strategist.py:157-159 | Red is FAIL, orange is WARN and green is SUCCESS, in both directions. |
| Strategist.GuardianGuardRedundant | backend/agents/strategist.py:94-146 | The separate Guardian guard never changes the semaphore. |
| Strategist.ReportHeader | backend/agents/strategist.py:238-241 | The first line is "Verdikt: &lt;semaphore&gt;", and the category line appears only when a category is set. |
| Strategist.FallbackReport | backend/agents/strategist.py:236-244 | The report is the header followed by one line per counted agent, in order. |
| Strategist.FallbackStartsWithVerdict | backend/agents/strategist.py:238-244 | The fallback report starts with the verdict line. |
| Strategist.HumanReport | backend/agents/strategist.py:192-234 | The stripped AI report when there is one. Otherwise exactly the fallback report: the header, then one line per counted agent. |
| Strategist.JoinLinesStartsWithFirst | backend/agents/strategist.py:238-244 | The joined report starts with its first line. |
| Strategist.Details | backend/agents/strategist.py:165-179 | The details carry the semaphore, its colour, the final category, the warning total, `has_fail` and the matrix result. |
| Strategist.MatrixResult | backend/agents/strategist.py:172-177 | The matrix result is None exactly when the matrix was not consulted. |
| Strategist.Run | backend/agents/strategist.py:53-182 | It raises exactly when the matrix lookup raises. Otherwise the status follows the semaphore, the category is the final category, and the warnings and errors are the agents' concatenated. The summary is the report: the AI report, or exactly the fallback report. |
| Strategist.Conclude | backend/agents/strategist.py:124-182 | Given the matrix cell, the verdict, category, report and details are as the rows above state. |
| Base.DefaultResult | backend/agents/base.py:32-41 | The default result is IDLE, with no category, score, summary, details, warnings or errors. |
| Base.Plain | backend/agents/base.py:32-41 | A result built from a status, summary, details and lists keeps the defaults for the category and score. |
| Base.StatusOf | backend/agents/geovalidator.py:422-427 | FAIL exactly when there are errors, WARN exactly when there are warnings but no errors, and SUCCESS otherwise. |
| Base.FormatPercent | backend/agents/geovalidator.py:392 | Formatting as a percentage succeeds exactly on numbers and scales by 100. |
| Base.Trunc | backend/agents/katastralni_analytik.py:610-613 | `int()` truncates toward zero. |
| Base.ErrorResult | backend/agents/base.py:99-105 | A run that raised becomes FAIL with the exception text as its one error. |
| Base.RoundHalfEven | backend/agents/base.py:81 | Rounding stays within half a unit, and a tie goes to the even neighbour, as `round()` does. |
| Base.RoundCents | backend/agents/base.py:81 | Rounding to two decimals gives a whole number of hundredths within half a hundredth. |
| Base.BaseAgent.constructor | backend/agents/base.py:58-66 | A new agent is IDLE, with no logs, result, start time or end time. |
| Base.BaseAgent.Log | backend/agents/base.py:68-74 | Exactly one entry is appended at the end, the earlier entries are unchanged, and nothing else changes. |
| Base.BaseAgent.Execute | backend/agents/base.py:88-109 | The logs are cleared and start with the start message. On return the status is the result's, and the finish message comes last. On an exception the status is FAIL, the result is FAIL with the exception text as its error, and the last entry has level "error". The result is set and the end time is recorded. |
| Base.BaseAgent.ElapsedTime | backend/agents/base.py:76-81 | 0 before any start. Otherwise the time from start to end, or to now, rounded to a whole number of hundredths within half a hundredth. |
| Base.BaseAgent.ToDict | backend/agents/base.py:111-121 | The result entry is None exactly when the agent has no result, and the status, logs and elapsed time are those of the agent. |
| Json.Get | backend/agents/guardian.py:117-121 | `dict.get` succeeds exactly on dicts and gives the stored value (the last one written) or the default. |
| Json.Index | backend/agents/forenzni_analytik.py:135 | `d[k]` succeeds exactly when the key is present, and raises KeyError otherwise. |
| Json.In | backend/agents/katastralni_analytik.py:155-159 | `in` is a substring test on strings, key membership on dicts and element membership on lists, and raises on other values. |
| Json.Iterate | backend/agents/geovalidator.py:486-494 | Iterating gives a list's items, a string's characters or a dict's keys, and raises on other values. |
| Text.StripOffset | backend/pdf_parser.py:96 | The stripped text is a factor of the text with only whitespace cut from both ends. |
| Text.SplitPieces | backend/agents/cadastral_analyst.py:248-250 | The first piece is the text before the first separator, and the second the text between the first and the second. |
| Text.SplitJoin | backend/agents/cadastral_analyst.py:248-250 | Joining the pieces with the separator gives the text back. |

## Left out

- All Gemini calls and their prompts. The reply of each call, or that it failed or there was no client, is an input (`AiCall`).
- The HTTP services: geocoding, reverse geocoding, the panorama, the WMS download and the land registry. Their results are inputs: distances, points and whether the ortofoto could be located.
- `haversine` and the other float geometry are left out. Distances and points are given, and floats are modelled as exact reals.
- Regex matching in the parsers. The matches are inputs, and section headings are literal, case-sensitive markers.
- pdfplumber and file reads. The text of the pages is an input.
- Image decoding, drawing and compositing in the ortofoto annotation: only the boxes and colours it draws are modelled, not the label text.
- The clock (`time.time()`, `datetime.now`) and `strptime`. Clock readings, the current date and month, and the parsed dates are parameters.
- f-string rendering of numbers (`:.2f`, `:.0%`, `round(…, 1)`). Messages hold the values they format, not their digits.
- `str.strip` follows Python's whitespace set. Lower-casing covers ASCII and the Czech capitals; upper-casing covers ASCII only, so a Czech small letter in the basement field stays as it is.
- Digits are ASCII 0-9 only. Python's `isdigit()`, `int()` and `\d` also accept other Unicode decimal digits, so a parcel area in, say, Arabic-Indic digits is kept by the source but dropped by `KeepRow`, and `FirstYear` finds no year in such digits.
- The contents of the agents' log messages, other than those of `BaseAgent.execute`.
- `PropertyData.to_dict` is left out; the form is compared field by field.
- DocumentComparator.WarningsOf: a `warnings` value that is not a list becomes no warnings. The source keeps the raw value, and the strategist's `len()` on it then raises TypeError (so its run fails), or counts a string's characters.
- Strategist.Run: the details leave out "human_report" and "agent_summaries".
- Strategist.HumanReport: the AI report's prompt is left out; only the strip of the reply and the fallback are modelled.
- RiskReport.ReportReturns: the details leave out ortofoto_url, ortofoto_annotated_url, parcel_geometries and bbox, which come from the web services.
- GeoValidator.Validate: the details property_gps, property_address, photo_results, panorama, visual_comparison and photo_dates, and the counts in the summary text, are not stated.
- DocumentComparator.ComparedResult: the confidence, recommendations and property_data details are not stated.
- Historian.EffectiveAge: follows the code where it differs from what one might expect. A missing construction year with a negative reconstruction year raises TypeError, so the run raises.
- The orchestrator, the FastAPI endpoints, the preprocessor and the browser-side progress tracker are not part of this model.
