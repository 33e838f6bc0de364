# US State Department travel advisories: normalising the feed

This project models the core of `feed_test.py`, a notebook-style script. It
reads the State Department's travel-advisory feed and turns each entry into
a record: a country name, a publication date, an ISO 3166-1 alpha-2 country
code, a threat-level label and a threat number. It then post-processes the
table of records:

- dates in the future are clamped to today;
- Macau and Hong Kong get their codes by name;
- rows published before 2025-10-01 are dropped, and so is the name column;
- the aggregate code `A3` (the French overseas territories) is expanded into
  four territory rows.

Modules, one per stage of the script:

- `CountryCodes` (`country_codes.dfy`): the conversion table from the State
  Department's own codes (a FIPS 10-4 style scheme) to alpha-2 codes. The
  table is a lookup function with one case per dictionary entry. The lookup
  is applied once, and tag `BL` is redirected to Bolivia's dedicated key.
- `FeedRecords` (`feed_records.dfy`): the record built from one entry, and
  the loop that builds the records of a whole feed.
  - The name is the title up to the first `" - "`.
  - The threat number is the first maximal run of decimal digits in tag 0.
  - A status other than 200 yields no records. An entry that cannot be built
    aborts the whole feed, as the exception does in the script.
- `PostProcess` (`post_process.dfy`): the in-place stages over the table, an
  `array<Record>`. These are the clamp and the two name overrides. The same
  file holds the filter that copies out the recent rows and the dropping of
  the name column.
- `Territories` (`territories.dfy`): the `A3` expansion, plus the guard and
  the template columns as the script writes them (see Findings).
- `Pipeline` (`pipeline.dfy`): the whole run, from status and entries to the
  final table, proved against the composition of the stage functions.
- `Wrappers` (`wrappers.dfy`): `Option` and `Result`.

Dates are day numbers (days since 1970-01-01), and 2025-10-01 is day 20362.
"Today" is a parameter. The script compares a midnight publication date with
the current timestamp, so on day numbers "after today" means a later day.

The model follows the script in these points:

- the `A3` row is kept beside its four territory rows rather than removed;
- the intended expansion raises no error on several `A3` rows and takes the
  first one as the template (the expansion as written fails on any table it
  runs on, see Findings);
- the threat number is whatever integer the first digit run spells, not a
  value limited to 1-4.

## Model

| member | source | states |
|---|---|---|
| `CountryCodes.BtToIso` | feed_test.py:10-37 | the conversion table, one case per dictionary entry; every value it yields is a two-letter upper-case (alpha-2) code |
| `CountryCodes.IsoConvert` | feed_test.py:39-41 | a key of the table yields its table value, which is an alpha-2 code; any other code is returned unchanged |
| `CountryCodes.ConversionAppliedOnce` | feed_test.py:13 | the lookup runs once: `BO` becomes `BY`, although `BY` is itself the key for `BI`, so a second lookup would change the result |
| `CountryCodes.ResolveTag` | feed_test.py:54 | tag `BL` always yields `BO` (looked up as `BOLIV`); any other tag yields its plain lookup; an alpha-2 tag yields an alpha-2 code |
| `CountryCodes.BolivianRedirectNeeded` | feed_test.py:13-14 | without the redirect, `BL` would pass through as `BL`, and `BO` is Belarus's key (giving `BY`); with it, `BL` gives `BO` |
| `FeedRecords.NameOf` | feed_test.py:52 | the name is a prefix of the title containing no `" - "`; it is followed by `" - "` when shorter than the title; it is the whole title exactly when the title holds no `" - "` |
| `FeedRecords.FindSeparator` | feed_test.py:52 | the first start of `" - "` at or after a position, with none before it; none exactly when no separator starts there or later |
| `FeedRecords.FindDigit` | feed_test.py:57 | the first digit at or after a position, with no digit before it; none exactly when no digit follows |
| `FeedRecords.DigitRunEnd` | feed_test.py:57 | the end of the maximal run of digits starting at a position: every character before it is a digit and the character at it is not |
| `FeedRecords.DecimalValue` | feed_test.py:57 | the integer a digit string spells: a single digit reads as itself, and k digits read below 10^k |
| `FeedRecords.ThreatNumber` | feed_test.py:57 | there is a number exactly when the label contains a decimal digit; no digit means failure |
| `FeedRecords.ThreatNumberOfFirstRun` | feed_test.py:57 | for every label, the number is the decimal value of the first maximal run of digits, whatever its position and length |
| `FeedRecords.TwoDigitLabel` | feed_test.py:57 | "Level 12: x" reads 12: the whole run is read, not its first digit |
| `FeedRecords.ThreatNumberOfSingleDigit` | feed_test.py:57 | when the label's first digit is not followed by another digit, the number is that digit's value, whatever else the label holds |
| `FeedRecords.LevelThreeLabel` | feed_test.py:57 | "Level 3: Reconsider Travel" reads 3 |
| `FeedRecords.LevelOneLabel` | feed_test.py:57 | "level 1: exercise normal precautions" reads 1 |
| `FeedRecords.BuildRecord` | feed_test.py:51-58 | a record is built exactly when the entry has two tags and tag 0 holds a digit; with fewer than two tags it fails for the missing tag, and with two tags but no digit in tag 0 it fails for the missing digit; the record's name, date, resolved code, level and number come from the title, date and tags as the script takes them |
| `FeedRecords.RssToRecords` | feed_test.py:44-64 | status other than 200 gives no feed; otherwise one record per entry in feed order, each the entry's built record; or an abort at the first entry that cannot be built, every earlier entry being buildable; with status 200 and all entries buildable the records are always produced |
| `PostProcess.Clamped` | feed_test.py:70 | the clamped date is at most today; a record already dated at most today is unchanged; a later one gets today's date; no other field changes |
| `PostProcess.ClampAll` | feed_test.py:70 | same length as the input; each row is the clamp of the row at the same position |
| `PostProcess.ClampFutureDates` | feed_test.py:70 | the array afterwards is the clamp of its old contents, so no row is added, removed or moved, and every date is at most today |
| `PostProcess.OverriddenCode` | feed_test.py:71-72 | a record named `Macau` ends with `MO`, one named `Hong Kong` with `HK`, and any other record keeps its code |
| `PostProcess.OverrideAll` | feed_test.py:71-72 | same length; each row keeps every field but its code, which becomes the code fixed by its name |
| `PostProcess.OverrideByName` | feed_test.py:71 | in place, every row with the given name gets the given code and every other row is unchanged |
| `PostProcess.ApplyNameOverrides` | feed_test.py:71-72 | the array becomes the overridden table: rows named `Macau` have code `MO`, rows named `Hong Kong` have `HK`, all other rows and columns are unchanged |
| `PostProcess.DatedFrom` | feed_test.py:75 | the kept rows are rows of the input dated on or after the cutoff, and there are no more of them than input rows |
| `PostProcess.DatedFromKeepsRecent` | feed_test.py:75 | every input row dated on or after the cutoff is kept |
| `PostProcess.DatedFromAppend` | feed_test.py:75 | filtering a concatenation filters each part and concatenates the results, so the original relative order is kept |
| `PostProcess.SelectFrom` | feed_test.py:75 | the copy holds exactly the filtered rows of the array, in order |
| `PostProcess.DropNameColumn` | feed_test.py:76 | same rows in the same order; each keeps its date, code, level and number |
| `Territories.FirstAggregate` | feed_test.py:79 | the position of the first `A3` row, with no `A3` row before it; none exactly when no row is `A3` |
| `Territories.TerritoryRows` | feed_test.py:80 | four rows, the i-th being the template row with code `GP`, `MQ`, `MF` or `BL` |
| `Territories.ExpandAggregate` | feed_test.py:78-83 | the input is an unchanged prefix of the output; without an `A3` row nothing is added; with one, exactly four rows follow, each copying the date, level and number of the first `A3` row |
| `Territories.ExpansionCodes` | feed_test.py:80-81 | the appended codes are `GP`, `MQ`, `MF`, `BL` in that order, and an `A3` row is still present afterwards |
| `Territories.HasAggregateDecidesExpansion` | feed_test.py:78-81 | the intended guard (some row is `A3`) holds exactly when the expansion adds four rows, and fails exactly when it returns the table as it is |
| `Territories.GuardAsWritten` | feed_test.py:78 | the guard as the script writes it: some code or level cell is the text `ISO_A2` (dates and numbers never equal a string) |
| `Territories.GuardAsWrittenMissesAggregate` | feed_test.py:78 | a one-row table holding an `A3` row does not satisfy the guard as written, although the expansion would add four rows to it |
| `Territories.GuardAsWrittenNeverOnCodes` | feed_test.py:78 | when every code has two characters and no level is the text `ISO_A2`, the guard as written is false |
| `Territories.TemplatePositionsMisaligned` | feed_test.py:76-80 | positions 1, 3 and 4 are the date, level and number in the column layout before the drop; after the drop, position 1 is the code, position 3 the number, and position 4 is past the last column |
| `Pipeline.Normalised` | feed_test.py:70-81 | the stages composed in the script's order (clamp, overrides, filter, drop, expansion); the final table has at most four rows more than the feed has records |
| `Pipeline.NormalisedDatesInWindow` | feed_test.py:70-81 | every row of the final table, the territory rows included, is dated between 2025-10-01 and today |
| `Pipeline.RecentRecordKept` | feed_test.py:70-81 | a record whose clamped date is on or after 2025-10-01 reaches the final table, without its name and with its name-fixed code |
| `Pipeline.NamedTerritoriesOverridden` | feed_test.py:71-72 | a recent `Macau` record appears with code `MO`, a recent `Hong Kong` record with `HK`, whatever the lookup gave |
| `Pipeline.RunPipeline` | feed_test.py:44-83 | status other than 200 gives no table; the table exists exactly when every entry can be built; an abort names the first failing entry; the table equals the composed stage functions of the records, and all of its dates lie between the cutoff and today |

## Left out

- Fetching and parsing the RSS feed (the feed library and the hard-coded
  URL) are not modelled: the input is a status integer and a sequence of
  entries (title, day number, tag terms).
- The console output of the script (the titles and the failure message) is
  not modelled.
- JSON serialisation of the records and reading them back into a data frame
  are not modelled. Records go straight into the table.
- Date formatting and parsing are not modelled: dates are day numbers. The
  current time is a parameter `today`. The clamp writes today's day number,
  where the script writes the current timestamp with its time of day; at
  day granularity the two agree.
- RunPipeline: with a status other than 200 the script hands None to the
  JSON reader, which then fails. The model stops with `NoFeed` instead.
  With status 200 and no entries, the script serialises an empty list, reads
  it back as a frame without columns and fails when it reaches the
  `pubDate` column; the model yields an empty table instead.
- A missing `title`, `published_parsed`, `tags` or `term` key in an entry is
  not modelled: entries always carry those fields. Only a tag list shorter
  than two is modelled as an error.
- ThreatNumber: reads ASCII digits only. The script's regular expression
  also accepts other Unicode decimal digits.
- DropNameColumn: models dropping the column on the filtered copy as a
  function producing rows without a name, not as an in-place update, since
  the row type changes.
- The script's expansion itself is not modelled as written. Its guard looks
  for the text `ISO_A2` (feed_test.py:78). Its template is taken with
  `.squeeze().iloc[0]` and positions meant for the pre-drop layout
  (feed_test.py:79-80), so when it runs it fails instead of producing rows.
  The model states the guard and the column positions as written (see
  Findings) and uses the intended expansion.
- The lines after the expansion (feed_test.py:85-87) refer to an undefined
  name and end in a bare URL; they are not executable and are not modelled.
- History reconciliation, the secondary advisory page and map rendering do
  not appear in `feed_test.py` and are not part of this model.

## Findings

| source | as written | input that shows it | evidently intended | confidence | as-written member | corrected member |
|---|---|---|---|---|---|---|
| feed_test.py:78 | the expansion runs only if some cell of the table equals the text `ISO_A2`, the name of the code column | a table with one `A3` row dated 2025-10-01, level "Level 2: Exercise Increased Caution", number 2: the guard is false and the territories are never added | run the expansion when some row's code is `A3` | high, not executed | `Territories.GuardAsWrittenMissesAggregate` | `Territories.HasAggregateDecidesExpansion` |
| feed_test.py:79-80 | the template's date, level and number are read at positions 1, 3 and 4 of a row whose name column was already dropped (and `.squeeze().iloc[0]` on a single `A3` row gives its first cell, not the row) | any table on which the expansion runs: position 1 holds the code, position 3 the number, and position 4 does not exist | copy the date, level and number fields of the first `A3` row | high, not executed | `Territories.TemplatePositionsMisaligned` | `Territories.ExpandAggregate` |
