/**
 * `getMetadata` of api/server.ts: a second, smaller scan of a `.osu` file
 * that keeps seven fields (audio file, preview time, mode, title, artist,
 * version, circle size) in local variables instead of a dictionary.
 *
 * `MetaStep` and `MetaScan` specify one line and a whole file; the method
 * `GetMetadata` is the loop itself. `ScanAgreement` relates this scan to the
 * one of `parseOsuFile` on the keys both read.
 */
module Metadata {
  import opened Wrappers
  import opened Strings
  import opened Sequences
  import opened OsuParser

  /**
   * The loop variables of `getMetadata`. `previewTime` and `mode` are the
   * bare `parseInt` results (no fallback to 0, so NaN is possible).
   * `circleSize` holds its initial 0 (`Num(0)`) until a CircleSize line sets
   * it to the bare `parseFloat` result (so NaN is possible here too).
   */
  datatype MetaState = MetaState(
    section: string,
    audioFilename: string,
    previewTime: JsInt,
    mode: JsInt,
    title: string,
    artist: string,
    version: string,
    circleSize: Value)

  const MetaStart: MetaState := MetaState("", "", Some(0), Some(0), "", "", "", Num(0))

  /** The object `getMetadata` returns. */
  datatype SongMetadata = SongMetadata(
    audioFilename: string,
    previewTime: JsInt,
    mode: JsInt,
    title: string,
    artist: string,
    version: string,
    circleSize: Value)

  function GeneralField(m: MetaState, key: string, value: string): MetaState {
    if key == "AudioFilename" then m.(audioFilename := value)
    else if key == "PreviewTime" then m.(previewTime := ParseInt(value))
    else if key == "Mode" then m.(mode := ParseInt(value))
    else m
  }

  function MetadataField(m: MetaState, key: string, value: string): MetaState {
    if key == "Title" then m.(title := value)
    else if key == "Artist" then m.(artist := value)
    else if key == "Version" then m.(version := value)
    else m
  }

  function DifficultyField(m: MetaState, key: string, value: string): MetaState {
    if key == "CircleSize" then m.(circleSize := ParseFloat(value)) else m
  }

  /** The pair of a key/value line handed to `field`, or nothing for a line without a colon. */
  function KeyValueLine(m: MetaState, t: string, section: string): MetaState
    requires section in {"General", "Metadata", "Difficulty"}
  {
    match KeyValue(t)
    case None => m
    case Some((key, value)) =>
      if section == "General" then GeneralField(m, key, value)
      else if section == "Metadata" then MetadataField(m, key, value)
      else DifficultyField(m, key, value)
  }

  /** One iteration of the `getMetadata` loop: the same header and comment rules as `parseOsuFile`. */
  function MetaStep(m: MetaState, line: string): MetaState {
    var t := Trim(line);
    if IsHeader(t) then m.(section := t[1..|t| - 1])
    else if IsIgnored(t) then m
    else if m.section in {"General", "Metadata", "Difficulty"} then KeyValueLine(m, t, m.section)
    else m
  }

  function MetaScan(lines: seq<string>): MetaState {
    if lines == [] then MetaStart else MetaStep(MetaScan(lines[..|lines| - 1]), lines[|lines| - 1])
  }

  lemma MetaScanSnoc(lines: seq<string>, line: string)
    ensures MetaScan(lines + [line]) == MetaStep(MetaScan(lines), line)
  {
    ButLastOfSnoc(lines, line);
  }

  function Output(m: MetaState): SongMetadata {
    SongMetadata(m.audioFilename, m.previewTime, m.mode, m.title, m.artist, m.version, m.circleSize)
  }

  function GetMetadataSpec(fileString: string): SongMetadata {
    Output(MetaScan(Split(fileString, '\n')))
  }

  // ---------------------------------------------------------------------
  // Agreement with the scan of parseOsuFile

  /** A text field agrees with `songInfo[key]`: the same string, or `""` when the key was never read. */
  predicate TextAgrees(info: SongInfo, key: string, s: string) {
    if key in info then info[key] == Str(s) else s == ""
  }

  /**
   * An integer field agrees with `songInfo[key]`: `parseOsuFile` stores the
   * same `parseInt` result with NaN turned into 0; a key never read leaves
   * the initial 0 here.
   */
  predicate IntAgrees(info: SongInfo, key: string, n: JsInt) {
    if key in info then info[key] == Num(if n.Some? then n.value else 0) else n == Some(0)
  }

  /**
   * The circle size agrees with `songInfo[key]`: `parseOsuFile` stores the
   * same `parseFloat` result with NaN turned into 0; a key never read leaves
   * the initial 0 here.
   */
  predicate FloatAgrees(info: SongInfo, key: string, c: Value) {
    if key in info then info[key] == (if c.NaN? then Num(0) else c) else c == Num(0)
  }

  predicate Agrees(m: MetaState, st: ScanState) {
    && m.section == st.section
    && TextAgrees(st.songInfo, "AudioFilename", m.audioFilename)
    && IntAgrees(st.songInfo, "PreviewTime", m.previewTime)
    && IntAgrees(st.songInfo, "Mode", m.mode)
    && TextAgrees(st.songInfo, "Title", m.title)
    && TextAgrees(st.songInfo, "Artist", m.artist)
    && TextAgrees(st.songInfo, "Version", m.version)
    && FloatAgrees(st.songInfo, "CircleSize", m.circleSize)
  }

  /** Storing a key neither parser's shared fields read keeps the agreement. */
  lemma OtherKeyAgrees(m: MetaState, st: ScanState, key: string, v: Value)
    requires Agrees(m, st)
    requires key !in {"AudioFilename", "PreviewTime", "Mode", "Title", "Artist", "Version", "CircleSize"}
    ensures Agrees(m, st.(songInfo := st.songInfo[key := v]))
  {
  }

  // One lemma per shared key: proving them together costs the solver far more than apart.

  lemma AudioFilenameAgrees(m: MetaState, st: ScanState, value: string)
    requires Agrees(m, st)
    ensures Agrees(GeneralField(m, "AudioFilename", value), GeneralEntry(st, "AudioFilename", value))
  {
  }

  lemma PreviewTimeAgrees(m: MetaState, st: ScanState, value: string)
    requires Agrees(m, st)
    ensures Agrees(GeneralField(m, "PreviewTime", value), GeneralEntry(st, "PreviewTime", value))
  {
  }

  lemma ModeAgrees(m: MetaState, st: ScanState, value: string)
    requires Agrees(m, st)
    ensures Agrees(GeneralField(m, "Mode", value), GeneralEntry(st, "Mode", value))
  {
  }

  lemma GeneralAgrees(m: MetaState, st: ScanState, key: string, value: string)
    requires Agrees(m, st)
    ensures Agrees(GeneralField(m, key, value), GeneralEntry(st, key, value))
  {
    if key == "AudioFilename" {
      AudioFilenameAgrees(m, st, value);
    } else if key == "PreviewTime" {
      PreviewTimeAgrees(m, st, value);
    } else if key == "Mode" {
      ModeAgrees(m, st, value);
    } else {
      GeneralOtherAgrees(m, st, key, value);
    }
  }

  lemma GeneralOtherAgrees(m: MetaState, st: ScanState, key: string, value: string)
    requires Agrees(m, st)
    requires key !in {"AudioFilename", "PreviewTime", "Mode"}
    ensures Agrees(GeneralField(m, key, value), GeneralEntry(st, key, value))
  {
    if key == "AudioLeadIn" {
      OtherKeyAgrees(m, st, key, Num(IntOrZero(value)));
    }
  }

  lemma TitleAgrees(m: MetaState, st: ScanState, value: string)
    requires Agrees(m, st)
    ensures Agrees(MetadataField(m, "Title", value), MetadataEntry(st, "Title", value))
  {
  }

  lemma ArtistAgrees(m: MetaState, st: ScanState, value: string)
    requires Agrees(m, st)
    ensures Agrees(MetadataField(m, "Artist", value), MetadataEntry(st, "Artist", value))
  {
  }

  lemma VersionAgrees(m: MetaState, st: ScanState, value: string)
    requires Agrees(m, st)
    ensures Agrees(MetadataField(m, "Version", value), MetadataEntry(st, "Version", value))
  {
  }

  lemma MetadataAgrees(m: MetaState, st: ScanState, key: string, value: string)
    requires Agrees(m, st)
    ensures Agrees(MetadataField(m, key, value), MetadataEntry(st, key, value))
  {
    if key == "Title" {
      TitleAgrees(m, st, value);
    } else if key == "Artist" {
      ArtistAgrees(m, st, value);
    } else if key == "Version" {
      VersionAgrees(m, st, value);
    } else {
      MetadataOtherAgrees(m, st, key, value);
    }
  }

  lemma MetadataOtherAgrees(m: MetaState, st: ScanState, key: string, value: string)
    requires Agrees(m, st)
    requires key !in {"Title", "Artist", "Version"}
    ensures Agrees(MetadataField(m, key, value), MetadataEntry(st, key, value))
  {
    if key in MetadataIntKeys {
      OtherKeyAgrees(m, st, key, Num(IntOrZero(value)));
    } else if key in MetadataKeys {
      OtherKeyAgrees(m, st, key, Str(value));
    }
  }

  lemma DifficultyAgrees(m: MetaState, st: ScanState, key: string, value: string)
    requires Agrees(m, st)
    ensures Agrees(DifficultyField(m, key, value), DifficultyEntry(st, key, value))
  {
    if key == "CircleSize" {
    } else if key == "ApproachRate" {
      OtherKeyAgrees(m, st, key, FloatOrZero(value));
    }
  }

  /**
   * Where the two scanners part: a CircleSize that does not start with a
   * number is NaN in `getMetadata` but 0 in `parseOsuFile`; one that does is
   * the same number in both.
   */
  lemma CircleSizeWithoutNumber(m: MetaState, st: ScanState, value: string)
    ensures !HasFloatPrefix(value) ==>
      DifficultyField(m, "CircleSize", value).circleSize == NaN
      && DifficultyEntry(st, "CircleSize", value).songInfo["CircleSize"] == Num(0)
    ensures HasFloatPrefix(value) ==>
      DifficultyField(m, "CircleSize", value).circleSize == Float(value)
      && DifficultyEntry(st, "CircleSize", value).songInfo["CircleSize"] == Float(value)
  {
  }

  lemma EventsAgrees(m: MetaState, st: ScanState, t: string)
    requires Agrees(m, st)
    ensures Agrees(m, EventsLine(st, t))
  {
    if StartsWith(t, "0,0,") {
      EventFields(t);
      var parts := Split(t, ',');
      var st1 := st.(songInfo := st.songInfo["BackgroundFilename" := Str(Unquote(Trim(parts[2])))]);
      var st2 := st1.(songInfo := st1.songInfo["BackgroundXOffset" := OffsetValue(parts, 3)]);
      OtherKeyAgrees(m, st, "BackgroundFilename", Str(Unquote(Trim(parts[2]))));
      OtherKeyAgrees(m, st1, "BackgroundXOffset", OffsetValue(parts, 3));
      OtherKeyAgrees(m, st2, "BackgroundYOffset", OffsetValue(parts, 4));
      assert EventsLine(st, t).songInfo == st2.songInfo["BackgroundYOffset" := OffsetValue(parts, 4)];
    }
  }

  lemma KeyValueLineAgrees(m: MetaState, st: ScanState, t: string)
    requires Agrees(m, st) && st.section in {"General", "Metadata", "Difficulty"}
    ensures Agrees(KeyValueLine(m, t, st.section),
                   if st.section == "General" then GeneralLine(st, t)
                   else if st.section == "Metadata" then MetadataLine(st, t)
                   else DifficultyLine(st, t))
  {
    if KeyValue(t).Some? {
      var (key, value) := KeyValue(t).value;
      if st.section == "General" {
        GeneralAgrees(m, st, key, value);
      } else if st.section == "Metadata" {
        MetadataAgrees(m, st, key, value);
      } else {
        DifficultyAgrees(m, st, key, value);
      }
    }
  }

  lemma StepAgrees(m: MetaState, st: ScanState, line: string)
    requires Agrees(m, st)
    ensures Agrees(MetaStep(m, line), Step(st, line))
  {
    var t := Trim(line);
    if IsHeader(t) || IsIgnored(t) {
    } else if st.section in {"General", "Metadata", "Difficulty"} {
      KeyValueLineAgrees(m, st, t);
    } else if st.section == "Events" {
      EventsAgrees(m, st, t);
    } else if st.inHitObjects {
      assert Step(st, line).songInfo == st.songInfo;
    }
  }

  lemma {:induction false} ScansAgree(lines: seq<string>)
    ensures Agrees(MetaScan(lines), Scan(lines))
  {
    if lines != [] {
      var n := |lines| - 1;
      ScansAgree(lines[..n]);
      StepAgrees(MetaScan(lines[..n]), Scan(lines[..n]), lines[n]);
    }
  }

  /**
   * On the same file text, `getMetadata` and the scan of `parseOsuFile` read
   * the same audio file, title, artist, version and circle size, and the same
   * preview time and mode up to `parseOsuFile`'s NaN-to-0 fallback.
   */
  lemma ScanAgreement(fileString: string)
    ensures var m := GetMetadataSpec(fileString);
      var info := Scan(Split(fileString, '\n')).songInfo;
      && TextAgrees(info, "AudioFilename", m.audioFilename)
      && IntAgrees(info, "PreviewTime", m.previewTime)
      && IntAgrees(info, "Mode", m.mode)
      && TextAgrees(info, "Title", m.title)
      && TextAgrees(info, "Artist", m.artist)
      && TextAgrees(info, "Version", m.version)
      && FloatAgrees(info, "CircleSize", m.circleSize)
  {
    ScansAgree(Split(fileString, '\n'));
  }

  /** A file whose Mode line reads 1 or 3 and parses is one `parseOsuFile` keeps, and conversely. */
  lemma ModeAgreement(fileString: string)
    ensures var m := GetMetadataSpec(fileString);
      var st := Scan(Split(fileString, '\n'));
      SupportedMode(st.songInfo) <==> (m.mode == Some(1) || m.mode == Some(3))
  {
    ScanAgreement(fileString);
  }

  // ---------------------------------------------------------------------
  // The loop

  /** `getMetadata(fileString)`. */
  method GetMetadata(fileString: string) returns (r: SongMetadata)
    ensures r == GetMetadataSpec(fileString)
  {
    var lines := Split(fileString, '\n');

    var audioFilename := "";
    var previewTime: JsInt := Some(0);
    var mode: JsInt := Some(0);
    var title := "";
    var artist := "";
    var version := "";
    var circleSize: Value := Num(0);

    var currentSection := "";

    var i := 0;
    while i < |lines|
      invariant 0 <= i <= |lines|
      invariant MetaState(currentSection, audioFilename, previewTime, mode, title, artist, version, circleSize)
             == MetaScan(lines[..i])
    {
      ghost var before := MetaState(currentSection, audioFilename, previewTime, mode, title, artist, version, circleSize);
      var trimmed := Trim(lines[i]);
      if IsHeader(trimmed) {
        currentSection := trimmed[1..|trimmed| - 1];
        assert MetaState(currentSection, audioFilename, previewTime, mode, title, artist, version, circleSize)
            == MetaStep(before, lines[i]);
      } else if IsIgnored(trimmed) {
        assert before == MetaStep(before, lines[i]);
      } else if currentSection == "General" {
        var kv := KeyValue(trimmed);
        if kv.Some? {
          var (key, value) := kv.value;
          if key == "AudioFilename" {
            audioFilename := value;
          } else if key == "PreviewTime" {
            previewTime := ParseInt(value);
          } else if key == "Mode" {
            mode := ParseInt(value);
          }
        }
        assert MetaState(currentSection, audioFilename, previewTime, mode, title, artist, version, circleSize)
            == KeyValueLine(before, trimmed, "General");
      } else if currentSection == "Metadata" {
        var kv := KeyValue(trimmed);
        if kv.Some? {
          var (key, value) := kv.value;
          if key == "Title" {
            title := value;
          } else if key == "Artist" {
            artist := value;
          } else if key == "Version" {
            version := value;
          }
        }
        assert MetaState(currentSection, audioFilename, previewTime, mode, title, artist, version, circleSize)
            == KeyValueLine(before, trimmed, "Metadata");
      } else if currentSection == "Difficulty" {
        var kv := KeyValue(trimmed);
        if kv.Some? && kv.value.0 == "CircleSize" {
          circleSize := ParseFloat(kv.value.1);
        }
        assert MetaState(currentSection, audioFilename, previewTime, mode, title, artist, version, circleSize)
            == KeyValueLine(before, trimmed, "Difficulty");
      } else {
        assert before == MetaStep(before, lines[i]);
      }
      assert MetaState(currentSection, audioFilename, previewTime, mode, title, artist, version, circleSize)
          == MetaStep(before, lines[i]);
      assert MetaScan(lines[..i + 1]) == MetaStep(before, lines[i]) by {
        TakeSnoc(lines, i);
        MetaScanSnoc(lines[..i], lines[i]);
      }
      i := i + 1;
    }
    TakeAll(lines);
    return SongMetadata(audioFilename, previewTime, mode, title, artist, version, circleSize);
  }
}
