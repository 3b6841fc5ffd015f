# not-osu beatmap core, modelled in Dafny

not-osu is a browser rhythm game that plays osu! beatmaps in the Taiko and
Mania modes. Its back end takes an uploaded `.osz` archive, reads every
`.osu` file in it, and stores one JSON record (`<beatmapId>.wysi`) per
playable beatmap. Its front end lists those beatmaps, filters and sorts them,
and shows score tables and ranks.

This project models that core and proves properties of it:

- `OsuParser` — `parseOsuFile`, the section-by-section line scanner of the
  `.osu` text format, and its fix-ups:
  - Unicode title/artist fallback;
  - the beatmap-set id fallback;
  - the beatmap id derived from an MD5 of the file name;
  - the Taiko/Mania mode filter.

  The scan is a fold of a `Step` function over the lines. The method
  `ScanLines` is the imperative loop of the source, proved equal to that
  fold. `ApplyFixups` mutates a local `songInfo` map in the order of the
  source. `ParseOsuFile` composes the two.
- `Metadata` — `getMetadata`, a second and simpler scanner of the same text.
  It is a loop method proved equal to its own fold. It is also proved to
  agree, field by field, with what `parseOsuFile`'s scan stores.
- `Ingest` — the per-folder loop of `parseBeatmapsFromFolder`:
  - a file that fails to parse is skipped;
  - the audio and background references are renamed to `song<ext>` /
    `bg<ext>` when their copy succeeded;
  - each record is written under its beatmap id;
  - a failed write aborts the whole folder.
- `Upload` — the `.osz` name check of the upload route and the derivation of
  the raw folder name.
- `Serverless` — the URL rewrite of the serverless entry point.
- `SongSelect` — the song list:
  - the mode filter and the case-insensitive search;
  - the four sort orders;
  - the top-10 leaderboard.
- `PassedMap` — the results screen:
  - the rank and colour for an accuracy;
  - the defaults of the navigation state;
  - the top-5 score column.
- Support modules:
  - `Strings` — the JavaScript string operations used: `trim`, `split`, `join`, `indexOf`, `includes`, `parseInt(_, 10)`, and splitting on whitespace;
  - `Paths` — Node's POSIX `basename`, `dirname` and `extname`;
  - `Sorting` — `filter`, a comparison sort, `slice`;
  - `Scores` — the "best scores first" tables;
  - `Sequences` and `Wrappers` — small sequence lemmas and `Option`/`Result`.

JavaScript semantics are written out where they matter:

- `parseInt` that finds no digits gives NaN, which is `None`; `|| 0` then gives 0.
- A missing object property is a missing map key.
- `Array.prototype.sort` with a comparator is modelled as a stable insertion
  sort, specified by the comparator's `cmp(a, b) <= 0` relation.

## Model

| member | source | states |
|---|---|---|
| OsuParser.KeyValueAtFirstColon | api/server.ts:119-123 | a key/value line is split at its first colon only: the key is the trimmed text before it, the value the trimmed rest with later colons kept; a line with no colon yields nothing |
| OsuParser.HeaderSetsSection | api/server.ts:109-113 | a trimmed line in `[...]` sets the section to its inner text, sets the hit-object flag iff that text is `HitObjects`, and stores no data |
| OsuParser.IgnoredLineKeepsState | api/server.ts:115-117 | a blank line or a `//` comment leaves the whole scan state unchanged, in every section |
| OsuParser.IgnoredLineIsTransparent | api/server.ts:106-117 | inserting an ignored line anywhere in the file does not change the scan result |
| OsuParser.ScanSnoc | api/server.ts:106-207 | scanning one more line is one more step on the state reached so far |
| OsuParser.KeyValueLineStores | api/server.ts:119-163 | whitelisted General keys are stored, AudioLeadIn/PreviewTime/Mode as `parseInt(value) \|\| 0`; Metadata keys likewise, BeatmapID/BeatmapSetID also setting the raw ids; Difficulty keys as `parseFloat(value) \|\| 0` (a text without a leading number stores 0); an unlisted key changes nothing; a later line for a key overwrites the earlier value (see also lines 97-101) |
| OsuParser.NoColonLineIgnored | api/server.ts:120-121 | in the key/value sections a line without a colon changes nothing (see also lines 136-137, 154-155) |
| OsuParser.EventFields | api/server.ts:166-167 | an Events line starting `0,0,` splits into two `0` fields followed by the fields of the rest |
| OsuParser.EventsLineSetsBackground | api/server.ts:165-177 | only Events lines starting `0,0,` are used; they set BackgroundFilename to the trimmed third field with one pair of surrounding quotes removed, the X offset (fourth field) and the Y offset (fifth field) each to 0 when that field is missing or empty and to `parseInt` of it (NaN kept) otherwise, add exactly the three background keys, and leave every other key and the hit objects alone |
| OsuParser.OffsetValue | api/server.ts:175-176 | a background offset is always an integer or NaN |
| OsuParser.HitObjectLineAppends | api/server.ts:180-204 | in HitObjects, a line with at least 5 comma fields appends exactly one object; `endTime` is set iff the type parses to 7, a 6th field exists and its text before the first colon parses; a shorter line is dropped |
| OsuParser.StepHitObjects | api/server.ts:180-204 | one line adds at most one hit object and never changes the earlier ones |
| OsuParser.HitObjectsOnlyGrow | api/server.ts:106-207 | the hit objects of a prefix of the file are a prefix of the final list, and each later line adds at most one, so they stay in file order |
| OsuParser.WellFormedUpdate | api/server.ts:125-160 | storing a value of the kind its key admits keeps every stored value of its key's kind |
| OsuParser.GeneralEntryKeepsConsistent | api/server.ts:119-133 | a General entry keeps the scan state consistent: integer keys hold numbers, texts hold text, and the raw ids are untouched, so each still is the text whose `parseInt(…) \|\| 0` is stored under BeatmapSetID / BeatmapID, present whenever the raw id is non-empty |
| OsuParser.MetadataEntryKeepsConsistent | api/server.ts:135-151 | a Metadata entry keeps the scan state consistent: BeatmapSetID/BeatmapID store `parseInt(value) \|\| 0` of the very value kept as the raw id, so the stored number and the raw id never drift apart |
| OsuParser.DifficultyEntryKeepsConsistent | api/server.ts:153-163 | a Difficulty entry keeps the scan state consistent: CircleSize and ApproachRate hold a parsed float or 0 |
| OsuParser.BackgroundKeepsWellFormed | api/server.ts:174-176 | the background name and offsets keep the stored values well-formed |
| OsuParser.EventsLineKeepsConsistent | api/server.ts:165-177 | an Events line keeps the scan state consistent |
| OsuParser.HitObjectLineKeepsConsistent | api/server.ts:180-206 | a HitObjects line keeps the scan state consistent |
| OsuParser.StepKeepsConsistent | api/server.ts:106-207 | every line keeps the scan state consistent |
| OsuParser.ScanConsistent | api/server.ts:83-207 | the state after any file is consistent |
| OsuParser.UnicodeFallbackFills | api/server.ts:209-215 | Title (Artist) keeps a non-empty text value; otherwise it takes TitleUnicode (ArtistUnicode) when that is a non-empty text, and else stays exactly as it was, absent included; every other key is unchanged |
| OsuParser.ModeFilter | api/server.ts:242-253 | the fix-ups return a record iff the stored Mode is exactly 1 or 3 (an absent Mode gives null); the record keeps the scanned hit objects |
| OsuParser.ParseOsuFileSpecCases | api/server.ts:80-83 | an unreadable file gives null; a readable one gives a record iff its scanned Mode is 1 or 3, and its scan is consistent (see also lines 242-257) |
| OsuParser.SetIdResolution | api/server.ts:217-228 | a set id read from the file is kept; otherwise a non-empty fallback id, or else the parent folder's name, becomes the set id and its `parseInt \|\| 0` the stored BeatmapSetID |
| OsuParser.FallbackSetIdExample | api/server.ts:219-221 | with no set id in the file and fallback `123`, the set id is `123` and the stored BeatmapSetID the number 123 |
| OsuParser.IdsStored | api/server.ts:217-240 | in every record built from a consistent scan, the stored BeatmapSetID is `parseInt(setId) \|\| 0` of the returned set id, whichever source it came from, and the stored BeatmapID is that of the returned id when the file named one |
| OsuParser.DerivedBeatmapId | api/server.ts:230-240 | with no BeatmapID read, the stored id is the first 8 hex digits times the last 8 hex digits of the MD5 of the file's basename minus `.osu`, both factors below 2^32, and the returned id is that number's text |
| OsuParser.DerivedIdDependsOnlyOnName | api/server.ts:232-236 | two paths with the same basename get the same derived id |
| OsuParser.ScanLines | api/server.ts:83-207 | the imperative scan loop returns exactly the fold of `Step` over the lines |
| OsuParser.ApplyFixups | api/server.ts:209-253 | the in-place fix-ups return exactly the specified result of the scanned state |
| OsuParser.ParseOsuFile | api/server.ts:80-258 | reading, scanning and fixing up give exactly the specified result, with null on a read failure |
| Metadata.MetaScanSnoc | api/server.ts:388-443 | scanning one more line is one more step |
| Metadata.OtherKeyAgrees | api/server.ts:375-454 | a key `getMetadata` does not read never disturbs the agreement between the two scanners |
| Metadata.AudioFilenameAgrees | api/server.ts:406-407 | both scanners store an AudioFilename line's value (see also lines 125-129) |
| Metadata.PreviewTimeAgrees | api/server.ts:408-409 | both scanners read PreviewTime with `parseInt`; NaN in `getMetadata` is 0 in `parseOsuFile` (see also lines 126-127) |
| Metadata.ModeAgrees | api/server.ts:410-411 | both scanners read Mode with `parseInt`; NaN in `getMetadata` is 0 in `parseOsuFile` (see also lines 126-127) |
| Metadata.GeneralAgrees | api/server.ts:400-414 | every General entry keeps the two scanners in agreement (see also lines 119-133) |
| Metadata.GeneralOtherAgrees | api/server.ts:400-414 | a General key other than AudioFilename, PreviewTime and Mode keeps the agreement |
| Metadata.TitleAgrees | api/server.ts:422-423 | both scanners store a Title line's value (see also lines 141-147) |
| Metadata.ArtistAgrees | api/server.ts:424-425 | both scanners store an Artist line's value (see also lines 141-147) |
| Metadata.VersionAgrees | api/server.ts:426-427 | both scanners store a Version line's value (see also lines 141-147) |
| Metadata.MetadataAgrees | api/server.ts:416-430 | every Metadata entry keeps the two scanners in agreement (see also lines 135-151) |
| Metadata.MetadataOtherAgrees | api/server.ts:416-430 | a Metadata key other than Title, Artist and Version keeps the agreement |
| Metadata.DifficultyAgrees | api/server.ts:432-442 | both scanners read CircleSize with `parseFloat`; NaN in `getMetadata` is 0 in `parseOsuFile`, which also stores ApproachRate (see also lines 153-163) |
| Metadata.CircleSizeWithoutNumber | api/server.ts:437-438 | a CircleSize without a leading number is NaN in `getMetadata` and 0 in `parseOsuFile`; one with a leading number is the same float in both (see also lines 159-160) |
| Metadata.EventsAgrees | api/server.ts:165-177 | the Events lines `getMetadata` skips do not disturb the agreement |
| Metadata.KeyValueLineAgrees | api/server.ts:400-442 | a key/value line in General, Metadata or Difficulty keeps the agreement |
| Metadata.StepAgrees | api/server.ts:388-443 | every line keeps the two scanners in agreement, the section included (see also lines 106-207) |
| Metadata.ScansAgree | api/server.ts:388-443 | the two scanners agree after any sequence of lines |
| Metadata.ScanAgreement | api/server.ts:375-454 | each of the seven `getMetadata` fields equals what `parseOsuFile`'s scan stores for that key, except that a NaN from PreviewTime, Mode or CircleSize is stored as 0 there, or its initial value when the key was never stored |
| Metadata.ModeAgreement | api/server.ts:411 | a file passes `parseOsuFile`'s mode filter iff `getMetadata` reads Mode 1 or 3 (see also lines 243-244) |
| Metadata.GetMetadata | api/server.ts:375-454 | the loop returns exactly the specified fold of the file's lines |
| Ingest.RenameAssetSpec | api/server.ts:280-294 | a non-empty asset name whose copy succeeded becomes the stem plus the name's extension; otherwise nothing changes; no other key changes |
| Ingest.RenameAssetIdempotent | api/server.ts:280-294 | renaming an already renamed reference again changes nothing |
| Ingest.RenamesCommute | api/server.ts:279-311 | the audio and background renames are independent of each other's order |
| Ingest.RenameAssetsSpec | api/server.ts:279-311 | AudioFilename becomes `song<ext>` and BackgroundFilename `bg<ext>`, each only when non-empty and copied; every other key and the hit objects are unchanged |
| Ingest.RenameAssetsIdempotent | api/server.ts:279-311 | renaming a renamed record again changes nothing |
| Ingest.StoredIsSupported | api/server.ts:270-273 | a file that is stored has Mode 1 or 3 (see also lines 242-247) |
| Ingest.Outcomes | api/server.ts:268-316 | there is one outcome per `.osu` file |
| Ingest.OutcomesAt | api/server.ts:268-270 | the i-th outcome is the i-th file's own processing |
| Ingest.RunAborts | api/server.ts:315 | the folder aborts iff some file's record could not be written (see also lines 325-328) |
| Ingest.RunWritesStored | api/server.ts:313-315 | the written records are the records of stored files, each placed at its own file by a strictly increasing index, so at most one per file and in file order |
| Ingest.SkippedIsTransparent | api/server.ts:271-273 | a skipped file does not affect the result |
| Ingest.RunStopsAtFailure | api/server.ts:315 | nothing after the first failed write matters (see also lines 325-328) |
| Ingest.RunWritesAll | api/server.ts:268-316 | when no write fails, the folder completes and every stored record is written |
| Ingest.IngestWritesSupported | api/server.ts:260-316 | every written record has Mode 1 or 3, and the records are those of distinct stored files, in file order |
| Ingest.IngestAborts | api/server.ts:260-328 | ingesting a folder aborts iff one of its files fails to be written |
| Ingest.IngestFolder | api/server.ts:260-329 | the loop over the files writes exactly the specified records and aborts exactly when specified |
| Ingest.StoreRecord | api/server.ts:275-315 | the in-place rename of a parsed file yields exactly the specified stored record |
| Upload.UploadFolderSpec | api/server.ts:333-346 | no file gives the no-file error; a lowercased name not ending `.osz` gives the `.osz` error; otherwise the folder name is the first whitespace-free word of the trimmed base name |
| Upload.UploadFolderOfPlainName | api/server.ts:339-346 | an archive `<stem>.osz` with a plain stem gives the first word of the trimmed stem |
| Serverless.ApiRootIsRoot | api/serverless.ts:11-12 | `/api` and `/api/` become `/` |
| Serverless.QueryPartSpec | api/serverless.ts:14 | the echo query is the URL from its first `?` on, and empty when the URL has no `?` |
| Serverless.QueryPart | api/serverless.ts:14 | the echo query is empty or starts with `?` |
| Serverless.FindFirstSpec | api/serverless.ts:17 | the pattern search returns an index where the pattern occurs with no occurrence before it, and finds nothing exactly when the pattern occurs nowhere |
| Serverless.ReplaceFirst | api/serverless.ts:17 | a URL that does not contain the pattern is returned as it is |
| Serverless.EchoRewrite | api/serverless.ts:13-14 | every URL starting `/api/echo` becomes `/echo` followed by its query part |
| Serverless.DoubleApiRewrite | api/serverless.ts:15-17 | a leading `/api/api/` becomes `/api/`, and the rest of the URL is kept |
| Serverless.OutsideApiUnchanged | api/serverless.ts:9-19 | a URL that does not start with `/api` is passed through unchanged |
| Serverless.MissingUrl | api/serverless.ts:9-19 | a request without a URL matches no rewrite and is passed on still without one |
| Serverless.BeatmapsRouteUnchanged | api/serverless.ts:18-19 | `/api/beatmaps` and `/api/beatmaps/upload` are left alone |
| Serverless.RewriteCasesDisjoint | api/serverless.ts:11-17 | the echo and double-prefix cases never overlap with each other or with the root case |
| SongSelect.NoModeKeepsAll | frontend/src/components/SongSelect.tsx:287-288 | with no mode chosen the mode filter keeps the whole list |
| SongSelect.ModeFilterKeepsExactly | frontend/src/components/SongSelect.tsx:287-291 | "Mania" keeps exactly the Mode 3 beatmaps and "Taiko" exactly the Mode 1 beatmaps, each as often as fetched |
| SongSelect.SearchPassesIff | frontend/src/components/SongSelect.tsx:292-296 | a beatmap passes the search iff the lowered term is a substring of its lowered Artist, Title or Version |
| SongSelect.EmptySearchKeepsAll | frontend/src/components/SongSelect.tsx:292-296 | an empty search term keeps every beatmap |
| SongSelect.BeforeIsConsistent | frontend/src/components/SongSelect.tsx:297-316 | each of the four comparators is total and transitive when `localeCompare` is |
| SongSelect.VisibleSongsContents | frontend/src/components/SongSelect.tsx:286-316 | the shown list holds each fetched beatmap passing both filters as often as it was fetched, and nothing else |
| SongSelect.TextSortOrder | frontend/src/components/SongSelect.tsx:299-300 | "Artist" and "Title" order the list by `localeCompare` of that field, as a permutation of it (see also lines 303-304) |
| SongSelect.LengthSortOrder | frontend/src/components/SongSelect.tsx:301-302 | "Length" orders by ascending PreviewTime, as a permutation of the list |
| SongSelect.DifficultySortOrder | frontend/src/components/SongSelect.tsx:305-312 | "Difficulty" puts higher StarRating first, a missing rating counting as 0, and orders equal ratings by Title |
| SongSelect.LeaderboardSpec | frontend/src/components/SongSelect.tsx:129-132 | the leaderboard holds at most 10 of the beatmap's stored scores, best first, with no left-out score above a shown one |
| SongSelect.NoScoresEmptyLeaderboard | frontend/src/components/SongSelect.tsx:129-135 | no stored scores, or a stored value that cannot be spread, gives an empty leaderboard |
| Sorting.FilterSpec | frontend/src/components/SongSelect.tsx:286-296 | a filter keeps every passing element as often as it occurs, and nothing else |
| Sorting.FilterConcat | frontend/src/components/SongSelect.tsx:286-296 | filtering works piece by piece, so the kept beatmaps stay in their fetched order |
| Sorting.FilterAll | frontend/src/components/SongSelect.tsx:286-296 | a filter every element passes keeps the list as it is |
| Sorting.SortBySpec | frontend/src/components/SongSelect.tsx:297-316 | the sort returns a permutation of its input, ordered by any consistent comparator |
| Sorting.InsertPermutes | frontend/src/components/SongSelect.tsx:297 | inserting an element adds exactly that element |
| Sorting.InsertSorted | frontend/src/components/SongSelect.tsx:297 | inserting into a sorted list keeps it sorted |
| Sorting.TopOfSorted | frontend/src/components/PassedMap.tsx:78-80 | the first n elements of the sorted list are sorted, come from the input, and precede every left-out element |
| Scores.ByScoreDescendingIsConsistent | frontend/src/components/PassedMap.tsx:79 | the comparator `b.score - a.score` is total and transitive |
| Scores.TopScoresSpec | frontend/src/components/PassedMap.tsx:78-80 | the top n scores: n of them (or all, if fewer), taken from the list, best first, none left out scoring more than one shown |
| Scores.ShortListShownWhole | frontend/src/components/PassedMap.tsx:78-80 | a list no longer than n is shown whole, only reordered |
| PassedMap.RankBands | frontend/src/components/PassedMap.tsx:22-46 | exactly 100 is SS; 95 or more but not 100 is S; [90, 95) is A; [80, 90) is B; [70, 80) is C; anything else is D |
| PassedMap.RankMonotone | frontend/src/components/PassedMap.tsx:22-46 | within [0, 100] a higher accuracy never gets a worse rank |
| PassedMap.ColorMatchesRank | frontend/src/components/PassedMap.tsx:23-45 | no two ranks share a colour, so the colour `getRank` returns identifies the rank |
| PassedMap.MissingStateDefaults | frontend/src/components/PassedMap.tsx:6-16 | arriving without navigation state shows score, accuracy and combo 0, no scores, and rank D (see also lines 51) |
| PassedMap.FullStateRoundTrip | frontend/src/components/PassedMap.tsx:6-16 | handing over every field of a screen's values brings back exactly those values |
| PassedMap.MissingStateIsEmptyState | frontend/src/components/PassedMap.tsx:6-16 | a missing navigation state is treated as the empty object `{}` |
| PassedMap.FieldsIndependent | frontend/src/components/PassedMap.tsx:6-16 | each shown value depends on its own field of the state alone |
| PassedMap.TopFiveSpec | frontend/src/components/PassedMap.tsx:78-80 | the top-scores column holds at most 5 of the handed-over scores, best first, with no left-out score above a shown one |
| Strings.TrimSpec | api/server.ts:107 | `trim` removes exactly the leading and trailing whitespace |
| Strings.TrimIdempotent | api/server.ts:107 | trimming twice is trimming once (see also lines 122-123) |
| Strings.IndexOfSpec | api/serverless.ts:14 | `indexOf` finds the first occurrence, or reports none iff there is none |
| Strings.SplitSpec | api/server.ts:120 | `split` gives one part iff the separator is absent, and no part holds the separator (see also lines 167, 182) |
| Strings.JoinSplit | api/server.ts:120-123 | joining the split parts with the separator gives back the text, so the value keeps its later colons |
| Strings.FirstFieldSpec | api/server.ts:189 | the text before the first separator is a separator-free prefix ending at the separator or the end |
| Strings.FirstWordSpec | api/server.ts:346 | the first word of a trimmed text is its whitespace-free prefix, ending at whitespace or at the end |
| Strings.ContainsIff | frontend/src/components/SongSelect.tsx:293-295 | `includes` holds iff the text occurs at some position |
| Strings.ParseIntDecimal | api/server.ts:127 | `parseInt` reads back a decimal number followed by any non-digit text (see also lines 143) |
| Strings.ParseIntUnsigned | api/server.ts:127 | `parseInt` of text starting with a digit is the value of its leading digits (see also lines 143) |
| Strings.HexValueBound | api/server.ts:234-235 | the value of n hexadecimal digits is below 16^n |
| Paths.BasenameSpec | api/server.ts:223 | `basename` is the whole last segment of the path with its trailing slashes ignored: it holds no slash, ends that path, and is either all of it or preceded there by a slash (see also lines 232) |
| Paths.BasenameOfPlainName | api/server.ts:345 | the basename of a name without slashes is the name itself |
| Paths.DirnameOfChild | api/server.ts:223 | the directory of `dir/name` is `dir`, so a file's set id falls back to its folder's name |
| Paths.ExtnameShape | api/server.ts:283 | `extname` is empty or a dot followed by neither dot nor slash (see also lines 300, 345) |
| Paths.ExtnameAfterStem | api/server.ts:284 | the extension of `song<ext>` / `bg<ext>` is `<ext>`, which is why a second rename changes nothing (see also lines 301) |
| Paths.LastIndexOfSpec | api/server.ts:223 | the last occurrence of a character, or none iff it is absent (see also lines 283) |

## Left out

- File-system and network I/O is not modelled: reading files, `mkdir`, `copyFile`, `writeFile`, `rm`, fast-glob discovery, the multer/unzipper extraction and the Express routes. A read is an `Option<string>` content. Each copy and the record write are booleans of the input. The list of `.osu` files is a parameter.
- The removal of the raw folder after ingesting (api/server.ts:318-324) is not modelled: it only logs on failure and does not affect the records.
- MD5 (`createHash`) and `String(number)` are functions passed in (`Host`). The digest is any 32 hexadecimal digits.
- OsuParser.DerivedBeatmapId: states the exact integer product `first8 * last8`. JavaScript computes it as a double, rounding products above 2^53 before `String()`; that rounding is not modelled.
- OsuParser.ParseFloat: `parseFloat` (CircleSize, ApproachRate) is floating point. The model decides exactly when it gives NaN (`HasFloatPrefix`), but a number it finds is kept as its source text, not as a value. So `parseFloat(text) || 0` is only told apart from 0 when the text has no leading number; a text such as `0.0` or `-0`, which `|| 0` also turns into 0, stays its own text.
- Strings.ParseInt: returns the exact unbounded integer. JavaScript's `parseInt` returns a double, so an id or hit-object field above 2^53 is rounded there and stays exact here. Strings.IntOrZero and OsuParser.HitObjectOf inherit this.
- Ingest.StoreRecord: the record keeps NaN offsets and NaN hit-object fields as NaN. `JSON.stringify` (api/server.ts:315) writes them as `null`, and that serialisation is not modelled.
- SongSelect.ListedSong: the song list reads the fields of its `BeatmapSongInfo` type (frontend/src/components/SongSelect.tsx:16-26) as always present. Title, Artist and Version are always strings here. A fetched record without one of them would make `toLowerCase` or `localeCompare` throw; that case is not modelled.
- `toLowerCase` and `localeCompare` depend on the locale and on Unicode tables; they are parameters. Characters are Dafny `char`s, not UTF-16 code units.
- SongSelect.LengthSortOrder: PreviewTime is an integer. The listed records come from `parseOsuFile`, which stores `parseInt(value) || 0`, so a stored PreviewTime is never NaN. A record with no PreviewTime key makes `undefined - n` NaN at frontend/src/components/SongSelect.tsx:302, and the comparator inconsistent; like the missing fields under SongSelect.ListedSong, that case is not modelled.
- A stored score value that is a string spreads into its characters at frontend/src/components/SongSelect.tsx:130 instead of throwing; the leaderboard of such characters is not modelled.
- SongSelect.BeforeIsConsistent: holds only when `localeCompare` is itself a consistent comparator.
- Sorting.SortBySpec: proves a sorted permutation. Stability, which `Array.prototype.sort` guarantees, is not stated, though the insertion sort is stable.
- Strings.ParseIntDecimal: the round trip is stated for non-negative numbers; a leading sign, which `parseInt` accepts, is modelled but not restated as a round trip.
- The `LeaderboardScore` type imported from `CommonGame` is not part of this model; its fields are taken from their use in PassedMap.tsx (score, highestCombo, accuracy).
- PassedMap.FromNavigation: a field explicitly set to `null` is not modelled; only a missing field takes the destructuring default.
- React state, audio, refs, intervals, storage listeners, the float-tolerance highlight and number formatting in the two components are UI plumbing and are not modelled.
- Ingest.RenameAssetSpec: a reference that is not a string (never produced by the parser) is treated as empty, rather than as `String(value)`.
- Numbered deduplicated assets (`song{n}.mp3`), silence padding, timing shifts and a star-rating computation are not in the code. StarRating is only read, optionally, by the song list.

Where the documented design and the code differ, the model follows the code:

- A failed record write aborts the whole folder (api/server.ts:315, 325-328); it is not logged and skipped.
- `parseOsuFile` returns null both for a skipped mode and for a read or parse failure. It does not return a tagged variant.
