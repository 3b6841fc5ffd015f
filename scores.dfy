/**
 * Score lists as the game stores them per beatmap: the leaderboard of the
 * song list and the top scores of the results screen both show a copy of
 * such a list sorted by descending score (`(a, b) => b.score - a.score`) and
 * cut to its first few entries.
 */
module Scores {
  import opened Sorting

  /** One stored play: the fields both screens read. */
  datatype ScoreEntry = ScoreEntry(score: real, highestCombo: int, accuracy: real)

  /** The comparator `b.score - a.score`, as "may stay before": `a` scored at least as much as `b`. */
  function ByScoreDescending(a: ScoreEntry, b: ScoreEntry): bool {
    b.score - a.score <= 0.0
  }

  lemma ByScoreDescendingIsConsistent()
    ensures TotalPreorder(ByScoreDescending)
  {
  }

  /** `[...scores].sort((a, b) => b.score - a.score).slice(0, n)`. */
  function TopScores(scores: seq<ScoreEntry>, n: nat): seq<ScoreEntry> {
    Take(SortBy(scores, ByScoreDescending), n)
  }

  /**
   * The top `n` scores: `n` entries, or all of them when there are fewer,
   * taken from the list (no entry invented or repeated), best first, and no
   * entry left out scored more than any entry shown.
   */
  lemma TopScoresSpec(scores: seq<ScoreEntry>, n: nat)
    ensures var r := TopScores(scores, n);
      && |r| == (if n < |scores| then n else |scores|)
      && multiset(r) <= multiset(scores)
      && (forall i, j | 0 <= i < j < |r| :: r[i].score >= r[j].score)
      && (forall x | x in multiset(scores) - multiset(TopScores(scores, n)) ::
            forall i | 0 <= i < |r| :: x.score <= r[i].score)
  {
    ByScoreDescendingIsConsistent();
    TopOfSorted(scores, n, ByScoreDescending);
  }

  /** A list no longer than `n` is shown whole, only reordered. */
  lemma ShortListShownWhole(scores: seq<ScoreEntry>, n: nat)
    requires |scores| <= n
    ensures multiset(TopScores(scores, n)) == multiset(scores)
  {
    ByScoreDescendingIsConsistent();
    SortBySpec(scores, ByScoreDescending);
  }
}
