/**
 * `parseBeatmapsFromFolder` of api/server.ts: every `.osu` file of an
 * extracted archive is parsed with the folder's name as fallback set id;
 * a kept beatmap has its audio and background renamed to `song<ext>` and
 * `bg<ext>` (when the copy succeeds) and is written as `<beatmapId>.wysi`
 * under its set id.
 *
 * The file system is not modelled: each source file carries its text (or
 * `None` when reading fails) and whether each copy and the final write
 * succeed. A failed copy is only logged; a failed write (or failed
 * `mkdir`) ends the whole batch.
 */
module Ingest {
  import opened Wrappers
  import opened Strings
  import opened Paths
  import opened OsuParser

  /** One `.osu` file found in the folder, with the outcomes of the file operations made for it. */
  datatype OsuSource = OsuSource(
    path: string,
    content: Option<string>,
    audioCopied: bool,
    backgroundCopied: bool,
    /** `mkdir` of the set folder and `writeFile` of the record both succeed. */
    stored: bool)

  /** A record written to `<parsed dir>/<setId>/<fileName>`. */
  datatype WysiFile = WysiFile(setId: string, fileName: string, data: Beatmap)

  /** The records written, in order, and whether the batch ended in an error. */
  datatype Outcome = Outcome(written: seq<WysiFile>, aborted: bool)

  /** What happens to one file. */
  datatype FileOutcome = Skipped | StoreFailed | Stored(file: WysiFile)

  // ---------------------------------------------------------------------
  // The renames

  /**
   * `String(songInfo[key] || '')`. The scan stores only strings under the two
   * asset keys, so the last case is never reached from a parsed file.
   */
  function AssetName(info: SongInfo, key: string): string {
    if key !in info then ""
    else match info[key]
      case Str(s) => s
      case _ => ""
  }

  /** One rename: a non-empty file name under `key` becomes `stem` plus its extension, if its copy succeeded. */
  function RenameAsset(info: SongInfo, key: string, stem: string, copied: bool): SongInfo {
    var name := AssetName(info, key);
    if name != "" && copied then info[key := Str(stem + Extname(name))] else info
  }

  /** The audio rename, then the background rename. */
  function RenameAssets(data: Beatmap, audioCopied: bool, backgroundCopied: bool): Beatmap {
    var info := RenameAsset(data.songInfo, "AudioFilename", "song", audioCopied);
    Beatmap(RenameAsset(info, "BackgroundFilename", "bg", backgroundCopied), data.hitObjects)
  }

  /** `info` and `r` agree on `key`: both lack it or both map it to the same value. */
  predicate SameAt(r: SongInfo, info: SongInfo, key: string) {
    (key in r <==> key in info) && (key in r ==> r[key] == info[key])
  }

  /**
   * A rename changes `key` exactly when its file name is non-empty and the
   * copy succeeded, to the stem plus the original extension, and no other key.
   */
  lemma RenameAssetSpec(info: SongInfo, key: string, stem: string, copied: bool)
    ensures var r := RenameAsset(info, key, stem, copied);
      var name := AssetName(info, key);
      && (name != "" && copied ==> r[key] == Str(stem + Extname(name)))
      && (name == "" || !copied ==> r == info)
      && (forall k | k != key :: SameAt(r, info, k))
      && r.Keys == info.Keys
  {
  }

  /** A renamed asset keeps its extension, so renaming it again changes nothing. */
  lemma RenameAssetIdempotent(info: SongInfo, key: string, stem: string, copied: bool)
    requires stem != [] && '.' !in stem && '/' !in stem
    ensures var once := RenameAsset(info, key, stem, copied);
      RenameAsset(once, key, stem, copied) == once
  {
    var name := AssetName(info, key);
    if name != "" && copied {
      var once := RenameAsset(info, key, stem, copied);
      ExtnameShape(name);
      ExtnameAfterStem(stem, Extname(name));
      assert AssetName(once, key) == stem + Extname(name);
      assert once[key := Str(stem + Extname(name))] == once;
    }
  }

  /** Renames of two different keys do not interfere. */
  lemma RenamesCommute(info: SongInfo, k1: string, s1: string, c1: bool, k2: string, s2: string, c2: bool)
    requires k1 != k2
    ensures RenameAsset(RenameAsset(info, k1, s1, c1), k2, s2, c2)
         == RenameAsset(RenameAsset(info, k2, s2, c2), k1, s1, c1)
  {
    assert AssetName(RenameAsset(info, k1, s1, c1), k2) == AssetName(info, k2);
    assert AssetName(RenameAsset(info, k2, s2, c2), k1) == AssetName(info, k1);
  }

  /**
   * Both renames on a record: the names follow `RenameAssetSpec`, and the
   * other keys and the hit objects are untouched.
   */
  lemma RenameAssetsSpec(data: Beatmap, audioCopied: bool, backgroundCopied: bool)
    ensures var r := RenameAssets(data, audioCopied, backgroundCopied);
      var audio := AssetName(data.songInfo, "AudioFilename");
      var bg := AssetName(data.songInfo, "BackgroundFilename");
      && r.hitObjects == data.hitObjects
      && (audio != "" && audioCopied ==> r.songInfo["AudioFilename"] == Str("song" + Extname(audio)))
      && (audio == "" || !audioCopied ==> SameAt(r.songInfo, data.songInfo, "AudioFilename"))
      && (bg != "" && backgroundCopied ==> r.songInfo["BackgroundFilename"] == Str("bg" + Extname(bg)))
      && (bg == "" || !backgroundCopied ==> SameAt(r.songInfo, data.songInfo, "BackgroundFilename"))
      && (forall k | k != "AudioFilename" && k != "BackgroundFilename" :: SameAt(r.songInfo, data.songInfo, k))
  {
    var info := data.songInfo;
    var a := RenameAsset(info, "AudioFilename", "song", audioCopied);
    RenameAssetSpec(info, "AudioFilename", "song", audioCopied);
    RenameAssetSpec(a, "BackgroundFilename", "bg", backgroundCopied);
    assert AssetName(a, "BackgroundFilename") == AssetName(info, "BackgroundFilename");
  }

  /** Processing a record's assets a second time (with the same copy outcomes) changes nothing. */
  lemma RenameAssetsIdempotent(data: Beatmap, audioCopied: bool, backgroundCopied: bool)
    ensures var r := RenameAssets(data, audioCopied, backgroundCopied);
      RenameAssets(r, audioCopied, backgroundCopied) == r
  {
    assert '.' !in "song" && '/' !in "song" by {
      assert "song"[0] == 's' && "song"[1] == 'o' && "song"[2] == 'n' && "song"[3] == 'g';
    }
    assert '.' !in "bg" && '/' !in "bg" by {
      assert "bg"[0] == 'b' && "bg"[1] == 'g';
    }
    var a := RenameAsset(data.songInfo, "AudioFilename", "song", audioCopied);
    var b := RenameAsset(a, "BackgroundFilename", "bg", backgroundCopied);
    // The audio rename of b: move it before the background rename, where it finds a renamed name.
    RenamesCommute(a, "AudioFilename", "song", audioCopied, "BackgroundFilename", "bg", backgroundCopied);
    RenameAssetIdempotent(data.songInfo, "AudioFilename", "song", audioCopied);
    assert RenameAsset(b, "AudioFilename", "song", audioCopied) == b;
    RenameAssetIdempotent(a, "BackgroundFilename", "bg", backgroundCopied);
  }

  // ---------------------------------------------------------------------
  // One file

  /** What `parseBeatmapsFromFolder` does with one parse result. */
  function Process(parsed: Option<ParsedFile>, src: OsuSource): FileOutcome {
    match parsed
    case None => Skipped
    case Some(p) =>
      if !src.stored then StoreFailed
      else Stored(WysiFile(p.beatmapSetId, p.beatmapId + ".wysi",
                           RenameAssets(p.data, src.audioCopied, src.backgroundCopied)))
  }

  function ProcessFile(folderName: string, src: OsuSource, host: Host): FileOutcome {
    Process(ParseOsuFileSpec(src.path, Some(folderName), src.content, host), src)
  }

  /** A written record always passed the mode filter: its Mode is 1 or 3. */
  lemma StoredIsSupported(folderName: string, src: OsuSource, host: Host)
    requires ProcessFile(folderName, src, host).Stored?
    ensures SupportedMode(ProcessFile(folderName, src, host).file.data.songInfo)
  {
    var st := Scan(Split(src.content.value, '\n'));
    ModeFilter(st, src.path, Some(folderName), host);
    var p := ParseOsuFileSpec(src.path, Some(folderName), src.content, host).value;
    RenameAssetsSpec(p.data, src.audioCopied, src.backgroundCopied);
    assert SameAt(RenameAssets(p.data, src.audioCopied, src.backgroundCopied).songInfo, p.data.songInfo, "Mode");
  }

  // ---------------------------------------------------------------------
  // The batch

  /** The outcome of each file, in glob order. */
  function Outcomes(folderName: string, files: seq<OsuSource>, host: Host): (outs: seq<FileOutcome>)
    ensures |outs| == |files|
  {
    if files == [] then [] else [ProcessFile(folderName, files[0], host)] + Outcomes(folderName, files[1..], host)
  }

  lemma {:induction false} OutcomesAt(folderName: string, files: seq<OsuSource>, host: Host, i: nat)
    requires i < |files|
    ensures Outcomes(folderName, files, host)[i] == ProcessFile(folderName, files[i], host)
  {
    if i > 0 {
      OutcomesAt(folderName, files[1..], host, i - 1);
    }
  }

  function Prepend(ws: seq<WysiFile>, o: Outcome): Outcome {
    Outcome(ws + o.written, o.aborted)
  }

  /** The records of the stored files, in order, up to the first failed write, which ends the batch. */
  function Run(outs: seq<FileOutcome>): Outcome {
    if outs == [] then Outcome([], false)
    else match outs[0]
      case Skipped => Run(outs[1..])
      case StoreFailed => Outcome([], true)
      case Stored(w) => Prepend([w], Run(outs[1..]))
  }

  /** `parseBeatmapsFromFolder(folderPath)` over the files the glob found. */
  function IngestSpec(folderPath: string, files: seq<OsuSource>, host: Host): Outcome {
    Run(Outcomes(Basename(folderPath), files, host))
  }

  /** The batch ends in an error exactly when some file parses but cannot be written. */
  lemma {:induction false} RunAborts(outs: seq<FileOutcome>)
    ensures Run(outs).aborted <==> StoreFailed in outs
  {
    if outs != [] {
      RunAborts(outs[1..]);
      assert outs == [outs[0]] + outs[1..];
    }
  }

  /** `idx` sends each written record to the stored file it came from, in strictly increasing file order. */
  predicate WrittenAt(w: seq<WysiFile>, outs: seq<FileOutcome>, idx: seq<nat>) {
    |idx| == |w|
    && (forall k | 0 <= k < |idx| :: idx[k] < |outs| && outs[idx[k]] == Stored(w[k]))
    && (forall k, l | 0 <= k < l < |idx| :: idx[k] < idx[l])
  }

  /** An outcome in front of the batch shifts the placement by one, and a stored one places its record first. */
  lemma WrittenAtCons(w: seq<WysiFile>, o: FileOutcome, outs: seq<FileOutcome>, idx: seq<nat>)
    requires WrittenAt(w, outs, idx)
    ensures exists idx' :: WrittenAt(w, [o] + outs, idx')
    ensures o.Stored? ==> exists idx' :: WrittenAt([o.file] + w, [o] + outs, idx')
  {
    var shifted := seq(|idx|, k requires 0 <= k < |idx| => idx[k] + 1);
    assert WrittenAt(w, [o] + outs, shifted) by {
      assert forall k | 0 <= k < |idx| :: ([o] + outs)[shifted[k]] == outs[idx[k]];
    }
    if o.Stored? {
      WrittenAtStored(w, o, outs, shifted);
    }
  }

  lemma WrittenAtStored(w: seq<WysiFile>, o: FileOutcome, outs: seq<FileOutcome>, shifted: seq<nat>)
    requires o.Stored? && WrittenAt(w, [o] + outs, shifted)
    requires forall k | 0 <= k < |shifted| :: 0 < shifted[k]
    ensures WrittenAt([o.file] + w, [o] + outs, [0] + shifted)
  {
    var w', idx' := [o.file] + w, [0] + shifted;
    assert forall k | 1 <= k < |idx'| :: idx'[k] == shifted[k - 1] && w'[k] == w[k - 1];
  }

  /** Each written record is the record of its own stored file, at most one per file, in file order. */
  lemma {:induction false} RunWritesStored(outs: seq<FileOutcome>)
    ensures var w := Run(outs).written;
      |w| <= |outs| && exists idx :: WrittenAt(w, outs, idx)
  {
    if outs == [] {
      assert WrittenAt([], outs, []);
    } else {
      RunWritesStored(outs[1..]);
      assert outs == [outs[0]] + outs[1..];
      var rest := Run(outs[1..]).written;
      var idx :| WrittenAt(rest, outs[1..], idx);
      WrittenAtCons(rest, outs[0], outs[1..], idx);
      if outs[0].StoreFailed? {
        assert WrittenAt([], outs, []);
      }
    }
  }

  /** A file that parses to null leaves no trace: dropping it from the batch changes nothing. */
  lemma {:induction false} SkippedIsTransparent(before: seq<FileOutcome>, after: seq<FileOutcome>)
    ensures Run(before + [Skipped] + after) == Run(before + after)
    decreases |before|
  {
    if before == [] {
      assert before + [Skipped] + after == [Skipped] + after;
      assert ([Skipped] + after)[1..] == after;
      assert before + after == after;
    } else {
      SkippedIsTransparent(before[1..], after);
      assert (before + [Skipped] + after)[1..] == before[1..] + [Skipped] + after;
      assert (before + after)[1..] == before[1..] + after;
    }
  }

  /** Nothing after a failed write happens: the files after it are never looked at. */
  lemma {:induction false} RunStopsAtFailure(before: seq<FileOutcome>, after: seq<FileOutcome>)
    ensures Run(before + [StoreFailed] + after) == Run(before + [StoreFailed])
    decreases |before|
  {
    if before == [] {
      assert before + [StoreFailed] + after == [StoreFailed] + after;
      assert before + [StoreFailed] == [StoreFailed];
    } else {
      RunStopsAtFailure(before[1..], after);
      assert (before + [StoreFailed] + after)[1..] == before[1..] + [StoreFailed] + after;
      assert (before + [StoreFailed])[1..] == before[1..] + [StoreFailed];
    }
  }

  /** Without a failed write the batch completes, and every stored file's record is written. */
  lemma {:induction false} RunWritesAll(outs: seq<FileOutcome>)
    requires StoreFailed !in outs
    ensures !Run(outs).aborted
    ensures forall i | 0 <= i < |outs| && outs[i].Stored? :: outs[i].file in Run(outs).written
  {
    if outs != [] {
      assert outs == [outs[0]] + outs[1..];
      RunWritesAll(outs[1..]);
      forall i | 0 <= i < |outs| && outs[i].Stored?
        ensures outs[i].file in Run(outs).written
      {
        if i > 0 {
          assert outs[1..][i - 1] == outs[i];
        }
      }
    }
  }

  /** Every record the batch writes has Mode 1 or 3, and the records are those of distinct stored files, in file order. */
  lemma IngestWritesSupported(folderPath: string, files: seq<OsuSource>, host: Host)
    ensures var w := IngestSpec(folderPath, files, host).written;
      |w| <= |files|
      && (exists idx :: WrittenAt(w, Outcomes(Basename(folderPath), files, host), idx))
      && forall k | 0 <= k < |w| :: SupportedMode(w[k].data.songInfo)
  {
    var folderName := Basename(folderPath);
    var outs := Outcomes(folderName, files, host);
    RunWritesStored(outs);
    var w := Run(outs).written;
    forall k | 0 <= k < |w|
      ensures SupportedMode(w[k].data.songInfo)
    {
      var idx :| WrittenAt(w, outs, idx);
      var i := idx[k];
      OutcomesAt(folderName, files, host, i);
      StoredIsSupported(folderName, files[i], host);
    }
  }

  /** The batch aborts exactly when some file parses but its set folder or record cannot be written. */
  lemma IngestAborts(folderPath: string, files: seq<OsuSource>, host: Host)
    ensures IngestSpec(folderPath, files, host).aborted <==>
      exists i | 0 <= i < |files| :: ProcessFile(Basename(folderPath), files[i], host).StoreFailed?
  {
    var folderName := Basename(folderPath);
    var outs := Outcomes(folderName, files, host);
    RunAborts(outs);
    if StoreFailed in outs {
      var i :| 0 <= i < |outs| && outs[i] == StoreFailed;
      OutcomesAt(folderName, files, host, i);
    }
    if exists i | 0 <= i < |files| :: ProcessFile(folderName, files[i], host).StoreFailed? {
      var i :| 0 <= i < |files| && ProcessFile(folderName, files[i], host).StoreFailed?;
      OutcomesAt(folderName, files, host, i);
      assert outs[i] in outs;
    }
  }

  // ---------------------------------------------------------------------
  // The loop

  /** `parseBeatmapsFromFolder(folderPath)`: the loop over the files, stopping at the first failed write. */
  method IngestFolder(folderPath: string, files: seq<OsuSource>, host: Host)
    returns (written: seq<WysiFile>, aborted: bool)
    ensures Outcome(written, aborted) == IngestSpec(folderPath, files, host)
  {
    var folderName := Basename(folderPath);
    ghost var outs := Outcomes(folderName, files, host);
    written := [];
    aborted := false;
    var i := 0;
    while i < |files|
      invariant 0 <= i <= |files|
      invariant Run(outs) == Prepend(written, Run(outs[i..]))
    {
      var src := files[i];
      assert outs[i..][0] == outs[i] && outs[i..][1..] == outs[i + 1..];
      var parsed := ParseOsuFile(src.path, Some(folderName), src.content, host);
      OutcomesAt(folderName, files, host, i);
      assert outs[i] == Process(parsed, src);
      if parsed.None? {
        i := i + 1;
        continue;
      }
      if !src.stored {
        aborted := true;
        return;
      }
      var record := StoreRecord(parsed.value, src);
      written := written + [record];
      i := i + 1;
    }
    assert outs[|files|..] == [];
  }

  /** The body of the loop for a kept beatmap: the two renames on `data.songInfo`, then the record. */
  method StoreRecord(parsed: ParsedFile, src: OsuSource) returns (record: WysiFile)
    requires src.stored
    ensures Process(Some(parsed), src) == Stored(record)
  {
    var songInfo := parsed.data.songInfo;
    ghost var info0 := songInfo;

    var audioFilename := AssetName(songInfo, "AudioFilename");
    if audioFilename != "" {
      var newAudioFilename := "song" + Extname(audioFilename);
      if src.audioCopied {
        songInfo := songInfo["AudioFilename" := Str(newAudioFilename)];
      }
    }
    assert songInfo == RenameAsset(info0, "AudioFilename", "song", src.audioCopied);
    ghost var info1 := songInfo;

    var bgFilename := AssetName(songInfo, "BackgroundFilename");
    if bgFilename != "" {
      var newBgFilename := "bg" + Extname(bgFilename);
      if src.backgroundCopied {
        songInfo := songInfo["BackgroundFilename" := Str(newBgFilename)];
      }
    }
    assert songInfo == RenameAsset(info1, "BackgroundFilename", "bg", src.backgroundCopied);

    record := WysiFile(parsed.beatmapSetId, parsed.beatmapId + ".wysi", Beatmap(songInfo, parsed.data.hitObjects));
  }
}
