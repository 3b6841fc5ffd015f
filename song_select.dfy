/**
 * The song list of the song-select screen (frontend/src/components/SongSelect.tsx):
 * the fetched beatmaps pass a mode filter and a case-insensitive search, then
 * are sorted by the chosen key; hovering a beatmap shows its ten best stored
 * scores.
 *
 * `toLowerCase` and `localeCompare` depend on the locale and on Unicode
 * tables, so they are parameters: `lower` and `localeCompare`, the latter
 * returning the comparator's number (negative, zero or positive).
 */
module SongSelect {
  import opened Wrappers
  import opened Strings
  import opened Sorting
  import opened Scores

  /** The parts of a fetched beatmap's `songInfo` the list reads, as the `BeatmapSongInfo` type declares them. */
  datatype ListedSong = ListedSong(
    previewTime: int,
    mode: int,
    title: string,
    artist: string,
    version: string,
    starRating: Option<real>)

  datatype BeatmapEntry = BeatmapEntry(id: string, setId: string, name: string, songInfo: ListedSong)

  /** `ModeType`: no mode chosen (`null`), or one of the two playable modes. */
  datatype ModeChoice = AnyMode | Mania | Taiko

  /** `SortType`. */
  datatype SortKey = Artist | Length | Title | Difficulty

  /** The first filter's predicate. */
  function ModePasses(mode: ModeChoice, b: BeatmapEntry): bool {
    match mode
    case AnyMode => true
    case Mania => b.songInfo.mode == 3
    case Taiko => b.songInfo.mode == 1
  }

  /** The second filter's predicate: the lowered term occurs in the lowered artist, title or version. */
  function SearchPasses(term: string, lower: string -> string, b: BeatmapEntry): bool {
    var t := lower(term);
    Contains(lower(b.songInfo.artist), t)
      || Contains(lower(b.songInfo.title), t)
      || Contains(lower(b.songInfo.version), t)
  }

  /** `StarRating ?? 0`. */
  function Star(b: BeatmapEntry): real {
    if b.songInfo.starRating.Some? then b.songInfo.starRating.value else 0.0
  }

  /** The comparator passed to `sort`, as the number it returns. */
  function Compare(key: SortKey, localeCompare: (string, string) -> int, a: BeatmapEntry, b: BeatmapEntry): real {
    match key
    case Artist => localeCompare(a.songInfo.artist, b.songInfo.artist) as real
    case Length => (a.songInfo.previewTime - b.songInfo.previewTime) as real
    case Title => localeCompare(a.songInfo.title, b.songInfo.title) as real
    case Difficulty =>
      var aStar := Star(a);
      var bStar := Star(b);
      if bStar != aStar then bStar - aStar else localeCompare(a.songInfo.title, b.songInfo.title) as real
  }

  /** "`a` may stay before `b`" under the chosen key. */
  function Before(key: SortKey, localeCompare: (string, string) -> int): (BeatmapEntry, BeatmapEntry) -> bool {
    (a: BeatmapEntry, b: BeatmapEntry) => Compare(key, localeCompare, a, b) <= 0.0
  }

  /** The list shown: filter by mode, then by search term, then sort. */
  function VisibleSongs(
    beatmaps: seq<BeatmapEntry>, mode: ModeChoice, term: string, lower: string -> string,
    key: SortKey, localeCompare: (string, string) -> int): seq<BeatmapEntry>
  {
    var byMode := Filter(beatmaps, (b: BeatmapEntry) => ModePasses(mode, b));
    var found := Filter(byMode, (b: BeatmapEntry) => SearchPasses(term, lower, b));
    SortBy(found, Before(key, localeCompare))
  }

  /** With no mode chosen every beatmap passes the mode filter. */
  lemma NoModeKeepsAll(beatmaps: seq<BeatmapEntry>)
    ensures Filter(beatmaps, (b: BeatmapEntry) => ModePasses(AnyMode, b)) == beatmaps
  {
    FilterAll(beatmaps, (b: BeatmapEntry) => ModePasses(AnyMode, b));
  }

  /** "Mania" keeps exactly the beatmaps of mode 3 and "Taiko" exactly those of mode 1, each as often as it was fetched. */
  lemma ModeFilterKeepsExactly(beatmaps: seq<BeatmapEntry>, mode: ModeChoice)
    requires mode != AnyMode
    ensures var wanted := if mode == Mania then 3 else 1;
      var r := Filter(beatmaps, (b: BeatmapEntry) => ModePasses(mode, b));
      && (forall b | b in r :: b.songInfo.mode == wanted && b in beatmaps)
      && (forall b | b in beatmaps && b.songInfo.mode == wanted :: multiset(r)[b] == multiset(beatmaps)[b])
  {
    FilterSpec(beatmaps, (b: BeatmapEntry) => ModePasses(mode, b));
  }

  /** A beatmap matches the search iff the lowered term is a substring of one of its three lowered fields. */
  lemma SearchPassesIff(term: string, lower: string -> string, b: BeatmapEntry)
    ensures SearchPasses(term, lower, b) <==>
      var t := lower(term);
      || (exists i: nat :: OccursAt(lower(b.songInfo.artist), t, i))
      || (exists i: nat :: OccursAt(lower(b.songInfo.title), t, i))
      || (exists i: nat :: OccursAt(lower(b.songInfo.version), t, i))
  {
    ContainsIff(lower(b.songInfo.artist), lower(term));
    ContainsIff(lower(b.songInfo.title), lower(term));
    ContainsIff(lower(b.songInfo.version), lower(term));
  }

  /** An empty search term (whose lowering is empty) keeps every beatmap. */
  lemma EmptySearchKeepsAll(beatmaps: seq<BeatmapEntry>, lower: string -> string)
    requires lower("") == ""
    ensures Filter(beatmaps, (b: BeatmapEntry) => SearchPasses("", lower, b)) == beatmaps
  {
    forall b | b in beatmaps
      ensures SearchPasses("", lower, b)
    {
      assert StartsWith(lower(b.songInfo.artist), "");
    }
    FilterAll(beatmaps, (b: BeatmapEntry) => SearchPasses("", lower, b));
  }

  /** Each comparator is consistent whenever `localeCompare` is. */
  lemma BeforeIsConsistent(key: SortKey, localeCompare: (string, string) -> int)
    requires TotalPreorder((x: string, y: string) => localeCompare(x, y) <= 0)
    ensures TotalPreorder(Before(key, localeCompare))
  {
    var le := Before(key, localeCompare);
    var sle := (x: string, y: string) => localeCompare(x, y) <= 0;
    forall a, b
      ensures le(a, b) || le(b, a)
    {
      assert sle(a.songInfo.title, b.songInfo.title) || sle(b.songInfo.title, a.songInfo.title);
      assert sle(a.songInfo.artist, b.songInfo.artist) || sle(b.songInfo.artist, a.songInfo.artist);
    }
    forall a, b, c | le(a, b) && le(b, c)
      ensures le(a, c)
    {
      if key == Artist {
        assert sle(a.songInfo.artist, b.songInfo.artist) && sle(b.songInfo.artist, c.songInfo.artist);
      } else if key == Title || key == Difficulty {
        assert sle(a.songInfo.title, b.songInfo.title) ==> sle(b.songInfo.title, c.songInfo.title) ==>
          sle(a.songInfo.title, c.songInfo.title);
      }
    }
  }

  /**
   * The shown list: every fetched beatmap that passes both filters, as often
   * as it was fetched, and nothing else.
   */
  lemma VisibleSongsContents(
    beatmaps: seq<BeatmapEntry>, mode: ModeChoice, term: string, lower: string -> string,
    key: SortKey, localeCompare: (string, string) -> int)
    requires TotalPreorder((x: string, y: string) => localeCompare(x, y) <= 0)
    ensures var r := VisibleSongs(beatmaps, mode, term, lower, key, localeCompare);
      forall b :: multiset(r)[b] == (if ModePasses(mode, b) && SearchPasses(term, lower, b) then multiset(beatmaps)[b] else 0)
  {
    var pm := (b: BeatmapEntry) => ModePasses(mode, b);
    var ps := (b: BeatmapEntry) => SearchPasses(term, lower, b);
    var byMode := Filter(beatmaps, pm);
    var found := Filter(byMode, ps);
    FilterSpec(beatmaps, pm);
    FilterSpec(byMode, ps);
    BeforeIsConsistent(key, localeCompare);
    SortBySpec(found, Before(key, localeCompare));
    forall b
      ensures multiset(found)[b] == if pm(b) && ps(b) then multiset(beatmaps)[b] else 0
    {
      if !pm(b) && b in beatmaps {
        assert b !in byMode;
      }
      if !ps(b) {
        assert b !in found;
      }
    }
  }

  /** Sorted by "Artist" or "Title": `localeCompare` of the field never puts a later entry first. */
  lemma TextSortOrder(s: seq<BeatmapEntry>, key: SortKey, localeCompare: (string, string) -> int)
    requires key == Artist || key == Title
    requires TotalPreorder((x: string, y: string) => localeCompare(x, y) <= 0)
    ensures var r := SortBy(s, Before(key, localeCompare));
      && multiset(r) == multiset(s)
      && forall i, j | 0 <= i < j < |r| ::
           if key == Artist then localeCompare(r[i].songInfo.artist, r[j].songInfo.artist) <= 0
           else localeCompare(r[i].songInfo.title, r[j].songInfo.title) <= 0
  {
    BeforeIsConsistent(key, localeCompare);
    SortBySpec(s, Before(key, localeCompare));
  }

  /** Sorted by "Length": preview times ascend. */
  lemma LengthSortOrder(s: seq<BeatmapEntry>, localeCompare: (string, string) -> int)
    ensures var r := SortBy(s, Before(Length, localeCompare));
      && multiset(r) == multiset(s)
      && forall i, j | 0 <= i < j < |r| :: r[i].songInfo.previewTime <= r[j].songInfo.previewTime
  {
    var le := Before(Length, localeCompare);
    assert TotalPreorder(le) by {
      forall a, b ensures le(a, b) || le(b, a) { }
      forall a, b, c | le(a, b) && le(b, c) ensures le(a, c) { }
    }
    SortBySpec(s, le);
  }

  /**
   * Sorted by "Difficulty": star ratings descend, a missing rating counting
   * as 0, and beatmaps of equal rating are in title order.
   */
  lemma DifficultySortOrder(s: seq<BeatmapEntry>, localeCompare: (string, string) -> int)
    requires TotalPreorder((x: string, y: string) => localeCompare(x, y) <= 0)
    ensures var r := SortBy(s, Before(Difficulty, localeCompare));
      && multiset(r) == multiset(s)
      && forall i, j | 0 <= i < j < |r| ::
           && Star(r[i]) >= Star(r[j])
           && (Star(r[i]) == Star(r[j]) ==> localeCompare(r[i].songInfo.title, r[j].songInfo.title) <= 0)
  {
    BeforeIsConsistent(Difficulty, localeCompare);
    SortBySpec(s, Before(Difficulty, localeCompare));
    var r := SortBy(s, Before(Difficulty, localeCompare));
    forall i, j | 0 <= i < j < |r|
      ensures Star(r[i]) >= Star(r[j])
      ensures Star(r[i]) == Star(r[j]) ==> localeCompare(r[i].songInfo.title, r[j].songInfo.title) <= 0
    {
      assert Before(Difficulty, localeCompare)(r[i], r[j]);
    }
  }

  /** `userData.Scores?.[id]`: absent, a list, or a stored value that `[...x]` cannot spread (a string would spread into characters, and is not modelled). */
  datatype StoredScores = NoScores | ScoreList(entries: seq<ScoreEntry>) | Unspreadable

  /**
   * The hovered beatmap's leaderboard: its scores (none when nothing is stored)
   * sorted by descending score and cut to ten; a stored value that cannot be
   * spread into a list makes the copy throw, and the catch shows an empty board.
   */
  function Leaderboard(scores: Option<map<string, StoredScores>>, id: string): seq<ScoreEntry> {
    var stored := if scores.Some? && id in scores.value then scores.value[id] else NoScores;
    match stored
    case NoScores => TopScores([], 10)
    case ScoreList(entries) => TopScores(entries, 10)
    case Unspreadable => []
  }

  /** The leaderboard holds the ten best of the beatmap's stored scores, best first. */
  lemma LeaderboardSpec(scores: map<string, StoredScores>, id: string)
    requires id in scores && scores[id].ScoreList?
    ensures var all := scores[id].entries;
      var r := Leaderboard(Some(scores), id);
      && |r| == (if 10 < |all| then 10 else |all|)
      && multiset(r) <= multiset(all)
      && (forall i, j | 0 <= i < j < |r| :: r[i].score >= r[j].score)
      && (forall x | x in multiset(all) - multiset(r) :: forall i | 0 <= i < |r| :: x.score <= r[i].score)
  {
    TopScoresSpec(scores[id].entries, 10);
  }

  /** A beatmap with no stored scores, or with a stored value that is not a list, has an empty leaderboard. */
  lemma NoScoresEmptyLeaderboard(scores: Option<map<string, StoredScores>>, id: string)
    requires scores.None? || id !in scores.value || !scores.value[id].ScoreList?
    ensures Leaderboard(scores, id) == []
  {
  }
}
