/**
 * `parseOsuFile` of api/server.ts: the line-by-line scan of an osu! beatmap
 * (`.osu`) file into a `songInfo` record and a list of hit objects, then the
 * fix-ups (Unicode title/artist, set id fallback, derived beatmap id) and the
 * mode filter.
 *
 * `Step` and `Scan` specify one line and a whole file; the method
 * `ParseOsuFile` is the loop itself, proved equal to `ParseOsuFileSpec`.
 */
module OsuParser {
  import opened Wrappers
  import opened Strings
  import opened Paths
  import opened Sequences

  /** A value stored in `songInfo`. */
  datatype Value =
    | Str(s: string)
    | Num(n: int)
      /** `parseInt` found no digits. */
    | NaN
      /** `parseFloat(text)` of a text that starts with a number: floating point, kept as its source text. */
    | Float(text: string)

  /** A field read with `parseInt`: `None` stands for NaN. */
  type JsInt = Option<int>

  /** One `[HitObjects]` line; `kind` is the osu! `type` field. */
  datatype HitObject = HitObject(
    x: JsInt, y: JsInt, time: JsInt, kind: JsInt, hitSound: JsInt, endTime: Option<int>)

  type SongInfo = map<string, Value>

  /** The record written for a beatmap: `{ songInfo, hitObjects }`. */
  datatype Beatmap = Beatmap(songInfo: SongInfo, hitObjects: seq<HitObject>)

  /** What `parseOsuFile` returns when it does not return null. */
  datatype ParsedFile = ParsedFile(beatmapSetId: string, beatmapId: string, data: Beatmap)

  /** An MD5 digest as 32 lower-case hexadecimal digits. */
  type Digest = s: string | |s| == 32 && AllHex(s)
    witness "00000000000000000000000000000000"

  predicate AllHex(s: string) {
    forall i | 0 <= i < |s| :: IsHexDigit(s[i])
  }

  /**
   * The two runtime services the parser calls: the MD5 hex digest of a string
   * and `String(n)` of a JavaScript number.
   */
  datatype Host = Host(md5Hex: string -> Digest, numberText: int -> string)

  const GeneralKeys: set<string> := {"AudioFilename", "AudioLeadIn", "PreviewTime", "Mode"}
  const GeneralIntKeys: set<string> := {"AudioLeadIn", "PreviewTime", "Mode"}
  const MetadataKeys: set<string> :=
    {"Title", "TitleUnicode", "Artist", "ArtistUnicode", "Creator", "Version", "BeatmapID", "BeatmapSetID"}
  const MetadataIntKeys: set<string> := {"BeatmapID", "BeatmapSetID"}
  const DifficultyKeys: set<string> := {"CircleSize", "ApproachRate"}
  const EventKeys: set<string> := {"BackgroundFilename", "BackgroundXOffset", "BackgroundYOffset"}

  /** The local variables of the scan loop. */
  datatype ScanState = ScanState(
    section: string,
    inHitObjects: bool,
    songInfo: SongInfo,
    hitObjects: seq<HitObject>,
    beatmapSetId: string,
    beatmapId: string)

  const Start: ScanState := ScanState("", false, map[], [], "", "")

  /** A trimmed line that starts with `[` and ends with `]` (one character cannot do both). */
  predicate IsHeader(t: string) {
    |t| >= 2 && t[0] == '[' && t[|t| - 1] == ']'
  }

  /** A trimmed line that is blank or a `//` comment. */
  predicate IsIgnored(t: string) {
    t == "" || StartsWith(t, "//")
  }

  /**
   * A `key: value` line, split as the source does: `split(':')`, the first
   * part trimmed as the key, the other parts joined back with `:` and trimmed
   * as the value. `None` when the line has no colon.
   */
  function KeyValue(t: string): Option<(string, string)> {
    var parts := Split(t, ':');
    if |parts| >= 2 then Some((Trim(parts[0]), Trim(Join(parts[1..], ':')))) else None
  }

  /** The key is the trimmed text before the first colon, the value the trimmed rest, later colons kept. */
  lemma KeyValueAtFirstColon(t: string)
    ensures IndexOf(t, ':').None? ==> KeyValue(t).None?
    ensures IndexOf(t, ':').Some? ==>
      var i := IndexOf(t, ':').value;
      KeyValue(t) == Some((Trim(t[..i]), Trim(t[i + 1..])))
  {
    if IndexOf(t, ':').Some? {
      var i := IndexOf(t, ':').value;
      IndexOfSpec(t, ':');
      SplitAtFirst(t, ':');
      var parts := Split(t, ':');
      JoinSplit(t[i + 1..], ':');
      assert parts[0] == t[..i];
      assert parts[1..] == Split(t[i + 1..], ':');
    }
  }

  /** A `key: value` pair read in `[General]`: whitelisted keys only, integer keys through `parseInt(value) || 0`. */
  function GeneralEntry(st: ScanState, key: string, value: string): ScanState {
    if key !in GeneralKeys then st
    else if key in GeneralIntKeys then st.(songInfo := st.songInfo[key := Num(IntOrZero(value))])
    else st.(songInfo := st.songInfo[key := Str(value)])
  }

  /** A pair read in `[Metadata]`; the two id keys also keep their raw text. */
  function MetadataEntry(st: ScanState, key: string, value: string): ScanState {
    if key !in MetadataKeys then st
    else if key == "BeatmapSetID" then
      st.(songInfo := st.songInfo[key := Num(IntOrZero(value))], beatmapSetId := value)
    else if key == "BeatmapID" then
      st.(songInfo := st.songInfo[key := Num(IntOrZero(value))], beatmapId := value)
    else st.(songInfo := st.songInfo[key := Str(value)])
  }

  /** `parseFloat(text)`: NaN when the text does not start with a number. */
  function ParseFloat(text: string): Value {
    if HasFloatPrefix(text) then Float(text) else NaN
  }

  /** `parseFloat(text) || 0`: NaN becomes 0 (a parsed zero is 0 already). */
  function FloatOrZero(text: string): Value {
    var f := ParseFloat(text);
    if f.NaN? then Num(0) else f
  }

  /** A pair read in `[Difficulty]`: `parseFloat(value) || 0`. */
  function DifficultyEntry(st: ScanState, key: string, value: string): ScanState {
    if key in DifficultyKeys then st.(songInfo := st.songInfo[key := FloatOrZero(value)]) else st
  }

  function GeneralLine(st: ScanState, t: string): ScanState {
    match KeyValue(t)
    case None => st
    case Some((key, value)) => GeneralEntry(st, key, value)
  }

  function MetadataLine(st: ScanState, t: string): ScanState {
    match KeyValue(t)
    case None => st
    case Some((key, value)) => MetadataEntry(st, key, value)
  }

  function DifficultyLine(st: ScanState, t: string): ScanState {
    match KeyValue(t)
    case None => st
    case Some((key, value)) => DifficultyEntry(st, key, value)
  }

  /** A line that starts `0,0,` splits into "0", "0" and the fields of the rest. */
  lemma EventFields(t: string)
    requires StartsWith(t, "0,0,")
    ensures Split(t, ',') == ["0", "0"] + Split(t[4..], ',')
  {
    assert t[0] == '0' && t[1] == ',' && t[2] == '0' && t[3] == ',' by {
      assert t[..4] == "0,0,";
    }
    var rest := Split(t[4..], ',');
    assert Split(t[2..], ',') == ["0"] + rest by {
      LeadingZeroField(t[2..]);
      assert t[2..][2..] == t[4..];
    }
    assert Split(t, ',') == ["0"] + Split(t[2..], ',') by {
      LeadingZeroField(t);
    }
  }

  /** A text starting `0,` splits into the field `0` and the fields of the rest. */
  lemma LeadingZeroField(t: string)
    requires |t| >= 2 && t[0] == '0' && t[1] == ','
    ensures Split(t, ',') == ["0"] + Split(t[2..], ',')
  {
    assert t[1..][0] == ',';
    assert IndexOf(t, ',') == Some(1);
    assert t[..1] == "0";
  }

  /** One pair of surrounding double quotes removed (`slice(1, -1)`). */
  function Unquote(f: string): string {
    if StartsWith(f, "\"") && EndsWith(f, "\"") then
      (if |f| >= 2 then f[1..|f| - 1] else "")
    else f
  }

  /** `parseInt(parts[i] || '0', 10)`: a missing or empty field reads as "0". */
  function OffsetValue(parts: seq<string>, i: nat): (v: Value)
    ensures v.Num? || v.NaN?
  {
    match ParseInt(if i < |parts| && parts[i] != "" then parts[i] else "0")
    case None => NaN
    case Some(n) => Num(n)
  }

  function EventsLine(st: ScanState, t: string): ScanState {
    if StartsWith(t, "0,0,") then
      EventFields(t);
      var parts := Split(t, ',');
      st.(songInfo := st.songInfo["BackgroundFilename" := Str(Unquote(Trim(parts[2])))]
                                 ["BackgroundXOffset" := OffsetValue(parts, 3)]
                                 ["BackgroundYOffset" := OffsetValue(parts, 4)])
    else st
  }

  /** The hit object of a line with at least five comma fields. */
  function HitObjectOf(parts: seq<string>): HitObject
    requires |parts| >= 5
  {
    var kind := ParseInt(parts[3]);
    var hitSound := ParseInt(if parts[4] == "" then "0" else parts[4]);
    var endTime := if kind == Some(7) && |parts| >= 6 then ParseInt(FirstField(parts[5], ':')) else None;
    HitObject(ParseInt(parts[0]), ParseInt(parts[1]), ParseInt(parts[2]), kind, hitSound, endTime)
  }

  function HitObjectLine(st: ScanState, t: string): ScanState {
    if StartsWith(t, "[") then st
    else
      var parts := Split(t, ',');
      if |parts| >= 5 then st.(hitObjects := st.hitObjects + [HitObjectOf(parts)]) else st
  }

  /** One iteration of the scan loop. */
  function Step(st: ScanState, line: string): ScanState {
    var t := Trim(line);
    if IsHeader(t) then
      var section := t[1..|t| - 1];
      st.(section := section, inHitObjects := section == "HitObjects")
    else if IsIgnored(t) then st
    else if st.section == "General" then GeneralLine(st, t)
    else if st.section == "Metadata" then MetadataLine(st, t)
    else if st.section == "Difficulty" then DifficultyLine(st, t)
    else if st.section == "Events" then EventsLine(st, t)
    else if st.inHitObjects then HitObjectLine(st, t)
    else st
  }

  /** The state after scanning `lines` in order from `Start`. */
  function Scan(lines: seq<string>): ScanState {
    if lines == [] then Start else Step(Scan(lines[..|lines| - 1]), lines[|lines| - 1])
  }

  // ---------------------------------------------------------------------
  // What one line does

  /** A header sets the section to its inner text and touches no data. */
  lemma HeaderSetsSection(st: ScanState, line: string)
    requires IsHeader(Trim(line))
    ensures var t := Trim(line);
      Step(st, line).section == t[1..|t| - 1]
    ensures Step(st, line).inHitObjects <==> Step(st, line).section == "HitObjects"
    ensures Step(st, line).songInfo == st.songInfo && Step(st, line).hitObjects == st.hitObjects
    ensures Step(st, line).beatmapSetId == st.beatmapSetId && Step(st, line).beatmapId == st.beatmapId
  {
  }

  /** Blank lines and `//` comments change nothing, in any section. */
  lemma IgnoredLineKeepsState(st: ScanState, line: string)
    requires IsIgnored(Trim(line))
    ensures Step(st, line) == st
  {
  }

  /** Scanning one more line is one more step. */
  lemma ScanSnoc(lines: seq<string>, line: string)
    ensures Scan(lines + [line]) == Step(Scan(lines), line)
  {
    ButLastOfSnoc(lines, line);
  }

  /** An ignored line can be dropped from anywhere in a file without changing the scan. */
  lemma {:induction false} IgnoredLineIsTransparent(before: seq<string>, line: string, after: seq<string>)
    requires IsIgnored(Trim(line))
    ensures Scan(before + [line] + after) == Scan(before + after)
    decreases |after|
  {
    if after == [] {
      ScanSnoc(before, line);
      IgnoredLineKeepsState(Scan(before), line);
      AppendNil(before + [line]);
      AppendNil(before);
    } else {
      var n := |after| - 1;
      IgnoredLineIsTransparent(before, line, after[..n]);
      PeelLast3(before, line, after);
      PeelLast(before, after);
      ScanSnoc(before + [line] + after[..n], after[n]);
      ScanSnoc(before + after[..n], after[n]);
    }
  }

  /** A key/value line in `[General]`, `[Metadata]` or `[Difficulty]`. */
  lemma KeyValueLineStores(st: ScanState, line: string, key: string, value: string)
    requires !IsHeader(Trim(line)) && !StartsWith(Trim(line), "//")
    requires KeyValue(Trim(line)) == Some((key, value))
    ensures st.section == "General" && key in GeneralIntKeys ==>
      Step(st, line) == st.(songInfo := st.songInfo[key := Num(IntOrZero(value))])
    ensures st.section == "General" && key == "AudioFilename" ==>
      Step(st, line) == st.(songInfo := st.songInfo[key := Str(value)])
    ensures st.section == "Metadata" && key == "BeatmapSetID" ==>
      Step(st, line) == st.(songInfo := st.songInfo[key := Num(IntOrZero(value))], beatmapSetId := value)
    ensures st.section == "Metadata" && key == "BeatmapID" ==>
      Step(st, line) == st.(songInfo := st.songInfo[key := Num(IntOrZero(value))], beatmapId := value)
    ensures st.section == "Metadata" && key in MetadataKeys - MetadataIntKeys ==>
      Step(st, line) == st.(songInfo := st.songInfo[key := Str(value)])
    ensures st.section == "Difficulty" && key in DifficultyKeys ==>
      Step(st, line) == st.(songInfo := st.songInfo[key := FloatOrZero(value)])
    ensures ((st.section == "General" && key !in GeneralKeys)
             || (st.section == "Metadata" && key !in MetadataKeys)
             || (st.section == "Difficulty" && key !in DifficultyKeys)) ==> Step(st, line) == st
  {
    assert Trim(line) != "";
  }

  /** A line without a colon adds nothing in the key/value sections. */
  lemma NoColonLineIgnored(st: ScanState, line: string)
    requires ':' !in Trim(line)
    requires st.section in {"General", "Metadata", "Difficulty"}
    ensures !IsHeader(Trim(line)) ==> Step(st, line) == st
  {
    SplitSpec(Trim(line), ':');
  }

  /** An `[Events]` background line: file name from the third field, offsets from the fourth and fifth. */
  lemma EventsLineSetsBackground(st: ScanState, line: string)
    requires st.section == "Events"
    requires var t := Trim(line); !IsHeader(t)
    ensures var t := Trim(line);
      !StartsWith(t, "0,0,") ==> Step(st, line) == st
    ensures var t := Trim(line);
      StartsWith(t, "0,0,") ==>
        var rest := Split(t[4..], ',');
        var info := Step(st, line).songInfo;
        && info.Keys == st.songInfo.Keys + EventKeys
        && info["BackgroundFilename"] == Str(Unquote(Trim(rest[0])))
        && (|rest| < 2 || rest[1] == "" ==> info["BackgroundXOffset"] == Num(0))
        && (|rest| >= 2 && rest[1] != "" ==>
              info["BackgroundXOffset"] == if ParseInt(rest[1]).None? then NaN else Num(ParseInt(rest[1]).value))
        && (|rest| < 3 || rest[2] == "" ==> info["BackgroundYOffset"] == Num(0))
        && (|rest| >= 3 && rest[2] != "" ==>
              info["BackgroundYOffset"] == if ParseInt(rest[2]).None? then NaN else Num(ParseInt(rest[2]).value))
        && (forall k | k in st.songInfo && k !in EventKeys :: info[k] == st.songInfo[k])
        && Step(st, line).hitObjects == st.hitObjects
  {
    var t := Trim(line);
    if StartsWith(t, "0,0,") {
      assert t[..4] == "0,0,";
      assert t[0] == '0';
      assert t[..2][0] == t[0];
      assert !IsIgnored(t);
      EventFields(t);
      ParseIntDecimal(0, "");
      assert Decimal(0) + "" == "0";
    }
  }

  /**
   * A `[HitObjects]` line with at least five comma fields appends exactly one
   * object; a shorter one, or one starting with `[`, appends nothing. Only a
   * type-7 object with a sixth field whose text before `:` parses gets an end time.
   */
  lemma HitObjectLineAppends(st: ScanState, line: string)
    requires st.inHitObjects && st.section !in {"General", "Metadata", "Difficulty", "Events"}
    requires var t := Trim(line); !IsHeader(t) && !IsIgnored(t)
    ensures var t := Trim(line);
      var parts := Split(t, ',');
      if |parts| >= 5 && !StartsWith(t, "[") then
        && Step(st, line).hitObjects == st.hitObjects + [HitObjectOf(parts)]
        && (HitObjectOf(parts).endTime.Some? <==>
              && ParseInt(parts[3]) == Some(7) && |parts| >= 6
              && ParseInt(FirstField(parts[5], ':')).Some?)
      else Step(st, line) == st
  {
  }

  // ---------------------------------------------------------------------
  // What the scan keeps true

  /** The kind of value the scan stores under `key`, for the keys it stores at all. */
  predicate Fits(key: string, v: Value) {
    if key in GeneralIntKeys + MetadataIntKeys then v.Num?
    else if key in DifficultyKeys then v.Float? || v == Num(0)
    else if key in {"BackgroundXOffset", "BackgroundYOffset"} then v.Num? || v.NaN?
    else key in (GeneralKeys - GeneralIntKeys) + (MetadataKeys - MetadataIntKeys) + {"BackgroundFilename"} && v.Str?
  }

  ghost predicate WellFormedInfo(info: SongInfo) {
    forall k | k in info :: Fits(k, info[k])
  }

  lemma WellFormedUpdate(info: SongInfo, key: string, v: Value)
    requires WellFormedInfo(info) && Fits(key, v)
    ensures WellFormedInfo(info[key := v])
  {
  }

  /**
   * `songInfo[key]` was stored from the raw id text `raw`: as its `parseInt`
   * (or 0), and present whenever the raw id is not empty.
   */
  predicate RawIdStored(info: SongInfo, key: string, raw: string) {
    && (key in info ==> info[key] == Num(IntOrZero(raw)))
    && (raw != "" ==> key in info)
  }

  /**
   * What every scan state satisfies: `inHitObjects` tracks the section name,
   * only whitelisted keys (plus the background ones) are stored, each with
   * the kind of value its key calls for, the raw ids are the texts whose
   * `parseInt` (or 0) is stored under BeatmapSetID and BeatmapID, and only
   * type-7 objects carry an end time.
   */
  ghost predicate Consistent(st: ScanState) {
    && (st.inHitObjects <==> st.section == "HitObjects")
    && WellFormedInfo(st.songInfo)
    && RawIdStored(st.songInfo, "BeatmapSetID", st.beatmapSetId)
    && RawIdStored(st.songInfo, "BeatmapID", st.beatmapId)
    && forall i | 0 <= i < |st.hitObjects| :: st.hitObjects[i].endTime.Some? ==> st.hitObjects[i].kind == Some(7)
  }

  lemma GeneralEntryKeepsConsistent(st: ScanState, key: string, value: string)
    requires Consistent(st)
    ensures Consistent(GeneralEntry(st, key, value))
  {
    if key in GeneralIntKeys {
      WellFormedUpdate(st.songInfo, key, Num(IntOrZero(value)));
    } else if key in GeneralKeys {
      WellFormedUpdate(st.songInfo, key, Str(value));
    }
  }

  lemma MetadataEntryKeepsConsistent(st: ScanState, key: string, value: string)
    requires Consistent(st)
    ensures Consistent(MetadataEntry(st, key, value))
  {
    if key in MetadataIntKeys {
      WellFormedUpdate(st.songInfo, key, Num(IntOrZero(value)));
    } else if key in MetadataKeys {
      WellFormedUpdate(st.songInfo, key, Str(value));
    }
  }

  lemma DifficultyEntryKeepsConsistent(st: ScanState, key: string, value: string)
    requires Consistent(st)
    ensures Consistent(DifficultyEntry(st, key, value))
  {
    if key == "CircleSize" {
      assert Fits("CircleSize", FloatOrZero(value));
      WellFormedUpdate(st.songInfo, key, FloatOrZero(value));
    } else if key == "ApproachRate" {
      assert Fits("ApproachRate", FloatOrZero(value));
      WellFormedUpdate(st.songInfo, key, FloatOrZero(value));
    }
  }

  lemma BackgroundKeepsWellFormed(info: SongInfo, file: string, x: Value, y: Value)
    requires WellFormedInfo(info)
    requires (x.Num? || x.NaN?) && (y.Num? || y.NaN?)
    ensures WellFormedInfo(info["BackgroundFilename" := Str(file)]["BackgroundXOffset" := x]["BackgroundYOffset" := y])
  {
    assert Fits("BackgroundFilename", Str(file));
    assert Fits("BackgroundXOffset", x);
    assert Fits("BackgroundYOffset", y);
    WellFormedUpdate(info, "BackgroundFilename", Str(file));
    WellFormedUpdate(info["BackgroundFilename" := Str(file)], "BackgroundXOffset", x);
    WellFormedUpdate(info["BackgroundFilename" := Str(file)]["BackgroundXOffset" := x], "BackgroundYOffset", y);
  }

  lemma EventsLineKeepsConsistent(st: ScanState, t: string)
    requires Consistent(st)
    ensures Consistent(EventsLine(st, t))
  {
    if StartsWith(t, "0,0,") {
      EventFields(t);
      var parts := Split(t, ',');
      BackgroundKeepsWellFormed(st.songInfo, Unquote(Trim(parts[2])), OffsetValue(parts, 3), OffsetValue(parts, 4));
    }
  }

  lemma HitObjectLineKeepsConsistent(st: ScanState, t: string)
    requires Consistent(st)
    ensures Consistent(HitObjectLine(st, t))
  {
    if !StartsWith(t, "[") {
      var parts := Split(t, ',');
      if |parts| >= 5 {
        var h := st.hitObjects + [HitObjectOf(parts)];
        assert forall i | 0 <= i < |h| :: h[i].endTime.Some? ==> h[i].kind == Some(7) by {
          forall i | 0 <= i < |h|
            ensures h[i].endTime.Some? ==> h[i].kind == Some(7)
          {
            if i < |st.hitObjects| {
              assert h[i] == st.hitObjects[i];
            }
          }
        }
      }
    }
  }

  lemma StepKeepsConsistent(st: ScanState, line: string)
    requires Consistent(st)
    ensures Consistent(Step(st, line))
  {
    var t := Trim(line);
    if IsHeader(t) || IsIgnored(t) {
    } else if st.section in {"General", "Metadata", "Difficulty"} {
      if KeyValue(t).Some? {
        var (key, value) := KeyValue(t).value;
        if st.section == "General" {
          GeneralEntryKeepsConsistent(st, key, value);
        } else if st.section == "Metadata" {
          MetadataEntryKeepsConsistent(st, key, value);
        } else {
          DifficultyEntryKeepsConsistent(st, key, value);
        }
      }
    } else if st.section == "Events" {
      EventsLineKeepsConsistent(st, t);
    } else if st.inHitObjects {
      HitObjectLineKeepsConsistent(st, t);
    }
  }

  lemma {:induction false} ScanConsistent(lines: seq<string>)
    ensures Consistent(Scan(lines))
  {
    if lines != [] {
      ScanConsistent(lines[..|lines| - 1]);
      StepKeepsConsistent(Scan(lines[..|lines| - 1]), lines[|lines| - 1]);
    }
  }

  /** One line appends at most one hit object and keeps the earlier ones. */
  lemma StepHitObjects(st: ScanState, line: string)
    ensures var h := Step(st, line).hitObjects;
      h == st.hitObjects || (|h| == |st.hitObjects| + 1 && h[..|st.hitObjects|] == st.hitObjects)
  {
    var t := Trim(line);
    if !IsHeader(t) && !IsIgnored(t) && st.section !in {"General", "Metadata", "Difficulty", "Events"}
       && st.inHitObjects && !StartsWith(t, "[") && |Split(t, ',')| >= 5 {
      assert Step(st, line) == HitObjectLine(st, t);
      ButLastOfSnoc(st.hitObjects, HitObjectOf(Split(t, ',')));
    }
  }

  /** Hit objects are only ever appended: later lines keep earlier objects, in file order. */
  lemma {:induction false} HitObjectsOnlyGrow(before: seq<string>, after: seq<string>)
    ensures var h := Scan(before + after).hitObjects;
      |Scan(before).hitObjects| <= |h| <= |Scan(before).hitObjects| + |after|
      && h[..|Scan(before).hitObjects|] == Scan(before).hitObjects
    decreases |after|
  {
    if after == [] {
      AppendNil(before);
      TakeAll(Scan(before).hitObjects);
    } else {
      var n := |after| - 1;
      HitObjectsOnlyGrow(before, after[..n]);
      var a := before + after[..n];
      PeelLast(before, after);
      ScanSnoc(a, after[n]);
      StepHitObjects(Scan(a), after[n]);
      var h0 := Scan(before).hitObjects;
      var h1 := Scan(a).hitObjects;
      var h2 := Scan(before + after).hitObjects;
      if h2 == h1 {
      } else {
        PrefixOfPrefix(h0, h1, h2);
      }
    }
  }

  // ---------------------------------------------------------------------
  // The fix-ups after the scan

  /** `songInfo[key]` is a non-empty string: the source's truthiness test on a text field. */
  predicate HasText(info: SongInfo, key: string) {
    key in info && info[key].Str? && info[key].s != ""
  }

  /** Title and Artist fall back to TitleUnicode and ArtistUnicode. */
  function UnicodeFallback(info: SongInfo): SongInfo {
    var withTitle :=
      if !HasText(info, "Title") && HasText(info, "TitleUnicode") then info["Title" := info["TitleUnicode"]] else info;
    if !HasText(withTitle, "Artist") && HasText(withTitle, "ArtistUnicode")
    then withTitle["Artist" := withTitle["ArtistUnicode"]]
    else withTitle
  }

  /**
   * `key` after the fallback: kept when it has text, else taken from
   * `unicodeKey` when that has text, else left exactly as it was (absent,
   * empty or not a string).
   */
  predicate FallsBackTo(info: SongInfo, r: SongInfo, key: string, unicodeKey: string) {
    && (HasText(info, key) ==> key in r && r[key] == info[key])
    && (!HasText(info, key) && HasText(info, unicodeKey) ==> key in r && r[key] == info[unicodeKey])
    && (!HasText(info, key) && !HasText(info, unicodeKey) ==>
          (key in r <==> key in info) && (key in info ==> r[key] == info[key]))
  }

  lemma UnicodeFallbackFills(info: SongInfo)
    ensures var r := UnicodeFallback(info);
      && FallsBackTo(info, r, "Title", "TitleUnicode")
      && FallsBackTo(info, r, "Artist", "ArtistUnicode")
      && (forall k | k !in {"Title", "Artist"} :: (k in r <==> k in info) && (k in r ==> r[k] == info[k]))
  {
  }

  /** The set id used when the file has none: the supplied id, or the parent folder's name. */
  function FallbackSetId(osuFilePath: string, fallbackSetId: Option<string>): string {
    if fallbackSetId.Some? && fallbackSetId.value != "" then fallbackSetId.value
    else Basename(Dirname(osuFilePath))
  }

  /** The first eight hex digits of the MD5 of the file's name (without `.osu`) times the last eight. */
  lemma MulNonNegative(a: nat, b: nat)
    ensures a * b >= 0
  {
  }

  function DerivedBeatmapNumber(host: Host, osuFilePath: string): nat {
    var hash: Digest := host.md5Hex(BasenameWithout(osuFilePath, ".osu"));
    var first8: nat := HexValue(hash[..8]);
    var last8: nat := HexValue(hash[24..]);
    assert first8 * last8 >= 0 by {
      MulNonNegative(first8, last8);
    }
    first8 * last8
  }

  /** Only Mode 1 (Taiko) and Mode 3 (Mania) are accepted; a missing Mode is not. */
  predicate SupportedMode(info: SongInfo) {
    "Mode" in info && (info["Mode"] == Num(1) || info["Mode"] == Num(3))
  }

  /** The fix-ups and the mode filter, applied to the state the scan ends in. */
  function Finish(st: ScanState, osuFilePath: string, fallbackSetId: Option<string>, host: Host): Option<ParsedFile> {
    var info1 := UnicodeFallback(st.songInfo);
    var setId := if st.beatmapSetId != "" then st.beatmapSetId else FallbackSetId(osuFilePath, fallbackSetId);
    var info2 := if st.beatmapSetId != "" then info1 else info1["BeatmapSetID" := Num(IntOrZero(setId))];
    var n := DerivedBeatmapNumber(host, osuFilePath);
    var id := if st.beatmapId != "" then st.beatmapId else host.numberText(n);
    var info3 := if st.beatmapId != "" then info2 else info2["BeatmapID" := Num(n)];
    if SupportedMode(info3) then Some(ParsedFile(setId, id, Beatmap(info3, st.hitObjects))) else None
  }

  /** `parseOsuFile(osuFilePath, fallbackSetId)`, given the file's text or `None` when reading fails. */
  function ParseOsuFileSpec(osuFilePath: string, fallbackSetId: Option<string>, content: Option<string>, host: Host)
    : Option<ParsedFile>
  {
    match content
    case None => None
    case Some(text) => Finish(Scan(Split(text, '\n')), osuFilePath, fallbackSetId, host)
  }

  /**
   * A scanned file is kept exactly when its Mode is 1 or 3: the fix-ups never
   * touch Mode. A kept beatmap carries the scanned hit objects unchanged.
   */
  lemma ModeFilter(st: ScanState, osuFilePath: string, fallbackSetId: Option<string>, host: Host)
    ensures Finish(st, osuFilePath, fallbackSetId, host).Some? <==> SupportedMode(st.songInfo)
    ensures var r := Finish(st, osuFilePath, fallbackSetId, host);
      r.Some? ==> SupportedMode(r.value.data.songInfo) && r.value.data.hitObjects == st.hitObjects
  {
    UnicodeFallbackFills(st.songInfo);
  }

  /** Reading failures give null; otherwise the result is the fix-ups applied to the scan of the lines. */
  lemma ParseOsuFileSpecCases(osuFilePath: string, fallbackSetId: Option<string>, content: Option<string>, host: Host)
    ensures content.None? ==> ParseOsuFileSpec(osuFilePath, fallbackSetId, content, host).None?
    ensures content.Some? ==>
      var st := Scan(Split(content.value, '\n'));
      && (ParseOsuFileSpec(osuFilePath, fallbackSetId, content, host).Some? <==> SupportedMode(st.songInfo))
      && Consistent(st)
  {
    if content.Some? {
      var lines := Split(content.value, '\n');
      ScanConsistent(lines);
      ModeFilter(Scan(lines), osuFilePath, fallbackSetId, host);
    }
  }

  /**
   * The set id: the file's own non-empty BeatmapSetID text, else the fallback
   * id or the folder name, whose `parseInt` (or 0) becomes `songInfo.BeatmapSetID`.
   */
  lemma SetIdResolution(st: ScanState, osuFilePath: string, fallbackSetId: Option<string>, host: Host)
    requires Finish(st, osuFilePath, fallbackSetId, host).Some?
    ensures var p := Finish(st, osuFilePath, fallbackSetId, host).value;
      && (st.beatmapSetId != "" ==>
            p.beatmapSetId == st.beatmapSetId
            && ("BeatmapSetID" in p.data.songInfo <==> "BeatmapSetID" in st.songInfo)
            && ("BeatmapSetID" in st.songInfo ==> p.data.songInfo["BeatmapSetID"] == st.songInfo["BeatmapSetID"]))
      && (st.beatmapSetId == "" && fallbackSetId.Some? && fallbackSetId.value != "" ==>
            p.beatmapSetId == fallbackSetId.value
            && p.data.songInfo["BeatmapSetID"] == Num(IntOrZero(fallbackSetId.value)))
      && (st.beatmapSetId == "" && (fallbackSetId.None? || fallbackSetId.value == "") ==>
            p.beatmapSetId == Basename(Dirname(osuFilePath))
            && p.data.songInfo["BeatmapSetID"] == Num(IntOrZero(Basename(Dirname(osuFilePath)))))
  {
  }

  /**
   * In every parsed file the stored BeatmapSetID is `parseInt` (or 0) of the
   * returned set id, wherever that id came from; so is the stored BeatmapID
   * of the returned id when the file named one.
   */
  lemma IdsStored(st: ScanState, osuFilePath: string, fallbackSetId: Option<string>, host: Host)
    requires Consistent(st)
    requires Finish(st, osuFilePath, fallbackSetId, host).Some?
    ensures var p := Finish(st, osuFilePath, fallbackSetId, host).value;
      && p.data.songInfo["BeatmapSetID"] == Num(IntOrZero(p.beatmapSetId))
      && (st.beatmapId != "" ==> p.data.songInfo["BeatmapID"] == Num(IntOrZero(p.beatmapId)))
  {
    SetIdResolution(st, osuFilePath, fallbackSetId, host);
    UnicodeFallbackFills(st.songInfo);
  }

  /** A file without a BeatmapSetID, given the fallback "123", lands in set "123" with BeatmapSetID 123. */
  lemma FallbackSetIdExample(st: ScanState, osuFilePath: string, host: Host)
    requires st.beatmapSetId == ""
    requires Finish(st, osuFilePath, Some("123"), host).Some?
    ensures var p := Finish(st, osuFilePath, Some("123"), host).value;
      p.beatmapSetId == "123" && p.data.songInfo["BeatmapSetID"] == Num(123)
  {
    assert IntOrZero("123") == 123 by {
      assert LeadingSpaces("123") == 0;
      assert TrimStart("123") == "123";
      assert "123"[..3] == "123";
      assert LeadingDigits("3") == 1;
      assert LeadingDigits("23") == 2;
      assert LeadingDigits("123") == 3;
      assert DigitsValue("1") == 1;
      assert DigitsValue("12") == 12;
      assert DigitsValue("123") == 123;
    }
  }

  /**
   * Without a BeatmapID in the file the id is the product of two 32-bit
   * halves of the MD5 of the file name, so it depends on that name alone.
   */
  lemma DerivedBeatmapId(st: ScanState, osuFilePath: string, fallbackSetId: Option<string>, host: Host)
    requires st.beatmapId == ""
    requires Finish(st, osuFilePath, fallbackSetId, host).Some?
    ensures var p := Finish(st, osuFilePath, fallbackSetId, host).value;
      var hash := host.md5Hex(BasenameWithout(osuFilePath, ".osu"));
      var first8 := HexValue(hash[..8]);
      var last8 := HexValue(hash[24..]);
      && first8 < 0x1_0000_0000 && last8 < 0x1_0000_0000
      && p.data.songInfo["BeatmapID"] == Num(first8 * last8)
      && p.beatmapId == host.numberText(first8 * last8)
  {
    var hash := host.md5Hex(BasenameWithout(osuFilePath, ".osu"));
    HexValueBound(hash[..8]);
    HexValueBound(hash[24..]);
    assert Pow16(8) == 0x1_0000_0000;
  }

  /** Two files with the same name (without `.osu`) get the same derived id, wherever they are. */
  lemma DerivedIdDependsOnlyOnName(host: Host, path1: string, path2: string)
    requires BasenameWithout(path1, ".osu") == BasenameWithout(path2, ".osu")
    ensures DerivedBeatmapNumber(host, path1) == DerivedBeatmapNumber(host, path2)
  {
  }

  // ---------------------------------------------------------------------
  // The loop

  /** The scan loop of `parseOsuFile`: the state its variables hold after the last line. */
  method ScanLines(lines: seq<string>)
    returns (currentSection: string, inHitObjects: bool, songInfo: SongInfo, hitObjects: seq<HitObject>,
             beatmapSetId: string, beatmapId: string)
    ensures ScanState(currentSection, inHitObjects, songInfo, hitObjects, beatmapSetId, beatmapId) == Scan(lines)
  {
    beatmapSetId := "";
    beatmapId := "";
    songInfo := map[];
    hitObjects := [];
    currentSection := "";
    inHitObjects := false;

    var i := 0;
    while i < |lines|
      invariant 0 <= i <= |lines|
      invariant ScanState(currentSection, inHitObjects, songInfo, hitObjects, beatmapSetId, beatmapId)
             == Scan(lines[..i])
    {
      ghost var before := ScanState(currentSection, inHitObjects, songInfo, hitObjects, beatmapSetId, beatmapId);
      var trimmed := Trim(lines[i]);
      if IsHeader(trimmed) {
        currentSection := trimmed[1..|trimmed| - 1];
        inHitObjects := currentSection == "HitObjects";
      } else if IsIgnored(trimmed) {
      } else if currentSection == "General" {
        var kv := KeyValue(trimmed);
        if kv.Some? && kv.value.0 in GeneralKeys {
          var (key, value) := kv.value;
          if key in GeneralIntKeys {
            songInfo := songInfo[key := Num(IntOrZero(value))];
          } else {
            songInfo := songInfo[key := Str(value)];
          }
        }
      } else if currentSection == "Metadata" {
        var kv := KeyValue(trimmed);
        if kv.Some? && kv.value.0 in MetadataKeys {
          var (key, value) := kv.value;
          if key in MetadataIntKeys {
            songInfo := songInfo[key := Num(IntOrZero(value))];
            if key == "BeatmapSetID" {
              beatmapSetId := value;
            }
            if key == "BeatmapID" {
              beatmapId := value;
            }
          } else {
            songInfo := songInfo[key := Str(value)];
          }
        }
      } else if currentSection == "Difficulty" {
        var kv := KeyValue(trimmed);
        if kv.Some? && kv.value.0 in DifficultyKeys {
          songInfo := songInfo[kv.value.0 := FloatOrZero(kv.value.1)];
        }
      } else if currentSection == "Events" {
        if StartsWith(trimmed, "0,0,") {
          EventFields(trimmed);
          var parts := Split(trimmed, ',');
          songInfo := songInfo["BackgroundFilename" := Str(Unquote(Trim(parts[2])))];
          songInfo := songInfo["BackgroundXOffset" := OffsetValue(parts, 3)];
          songInfo := songInfo["BackgroundYOffset" := OffsetValue(parts, 4)];
        }
      } else if inHitObjects {
        if !StartsWith(trimmed, "[") {
          var parts := Split(trimmed, ',');
          if |parts| >= 5 {
            var kind := ParseInt(parts[3]);
            var hitSound := ParseInt(if parts[4] == "" then "0" else parts[4]);
            var endTime: Option<int> := None;
            if kind == Some(7) && |parts| >= 6 {
              var parsedEnd := ParseInt(FirstField(parts[5], ':'));
              if parsedEnd.Some? {
                endTime := parsedEnd;
              }
            }
            hitObjects := hitObjects + [HitObject(ParseInt(parts[0]), ParseInt(parts[1]), ParseInt(parts[2]),
                                                  kind, hitSound, endTime)];
          }
        }
      }
      assert ScanState(currentSection, inHitObjects, songInfo, hitObjects, beatmapSetId, beatmapId)
          == Step(before, lines[i]);
      TakeSnoc(lines, i);
      ScanSnoc(lines[..i], lines[i]);
      i := i + 1;
    }
    TakeAll(lines);
  }

  /**
   * The fix-ups of `parseOsuFile` on the variables the scan loop leaves:
   * Unicode title and artist, the set id, the derived beatmap id, then the
   * mode filter.
   */
  method ApplyFixups(scanned: ScanState, osuFilePath: string, fallbackSetId: Option<string>, host: Host)
    returns (r: Option<ParsedFile>)
    ensures r == Finish(scanned, osuFilePath, fallbackSetId, host)
  {
    var songInfo := scanned.songInfo;
    var beatmapSetId := scanned.beatmapSetId;
    var beatmapId := scanned.beatmapId;

    if !HasText(songInfo, "Title") && HasText(songInfo, "TitleUnicode") {
      songInfo := songInfo["Title" := songInfo["TitleUnicode"]];
    }
    if !HasText(songInfo, "Artist") && HasText(songInfo, "ArtistUnicode") {
      songInfo := songInfo["Artist" := songInfo["ArtistUnicode"]];
    }
    assert songInfo == UnicodeFallback(scanned.songInfo);

    if beatmapSetId == "" {
      if fallbackSetId.Some? && fallbackSetId.value != "" {
        beatmapSetId := fallbackSetId.value;
        songInfo := songInfo["BeatmapSetID" := Num(IntOrZero(fallbackSetId.value))];
      } else {
        var folderName := Basename(Dirname(osuFilePath));
        beatmapSetId := folderName;
        songInfo := songInfo["BeatmapSetID" := Num(IntOrZero(folderName))];
      }
    }
    assert beatmapSetId == (if scanned.beatmapSetId != "" then scanned.beatmapSetId
                            else FallbackSetId(osuFilePath, fallbackSetId));

    if beatmapId == "" {
      var fileName := BasenameWithout(osuFilePath, ".osu");
      var hash := host.md5Hex(fileName);
      var first8 := HexValue(hash[..8]);
      var last8 := HexValue(hash[24..]);
      MulNonNegative(first8, last8);
      var hashNum := first8 * last8;
      assert hashNum == DerivedBeatmapNumber(host, osuFilePath);
      beatmapId := host.numberText(hashNum);
      songInfo := songInfo["BeatmapID" := Num(hashNum)];
    }

    if !("Mode" in songInfo && (songInfo["Mode"] == Num(1) || songInfo["Mode"] == Num(3))) {
      return None;
    }
    return Some(ParsedFile(beatmapSetId, beatmapId, Beatmap(songInfo, scanned.hitObjects)));
  }

  /** `parseOsuFile`: read failures give null; otherwise the scan loop over the file's lines, then the fix-ups. */
  method ParseOsuFile(osuFilePath: string, fallbackSetId: Option<string>, content: Option<string>, host: Host)
    returns (r: Option<ParsedFile>)
    ensures r == ParseOsuFileSpec(osuFilePath, fallbackSetId, content, host)
  {
    if content.None? {
      return None;
    }
    var lines := Split(content.value, '\n');
    var currentSection, inHitObjects, songInfo, hitObjects, beatmapSetId, beatmapId := ScanLines(lines);
    r := ApplyFixups(ScanState(currentSection, inHitObjects, songInfo, hitObjects, beatmapSetId, beatmapId),
                     osuFilePath, fallbackSetId, host);
  }
}
