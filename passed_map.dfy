/**
 * The results screen shown after a passed map (frontend/src/components/PassedMap.tsx):
 * the values handed over in the navigation state, the rank and colour for an
 * accuracy, and the five best scores of the beatmap.
 */
module PassedMap {
  import opened Wrappers
  import opened Scores

  datatype Rank = SS | S | A | B | C | D

  /** What `getRank` returns. */
  datatype RankShown = RankShown(rank: Rank, rankColor: string)

  /** `getRank`: the first threshold the accuracy (a percentage) reaches picks the rank, shown in its colour. */
  function GetRank(accuracy: real): RankShown {
    var rank :=
      if accuracy == 100.0 then SS
      else if accuracy >= 95.0 then S
      else if accuracy >= 90.0 then A
      else if accuracy >= 80.0 then B
      else if accuracy >= 70.0 then C
      else D;
    RankShown(rank, RankColor(rank))
  }

  /** The colour `getRank` pairs with each rank. */
  function RankColor(rank: Rank): string {
    match rank
    case SS => "#e9be8cff"
    case S => "#e9e48cff"
    case A => "#9ae98cff"
    case B => "#8cb1e9ff"
    case C => "#d58ce9ff"
    case D => "#e98c8cff"
  }

  /** Ranks from worst (0) to best (5). */
  function Grade(rank: Rank): nat {
    match rank
    case D => 0
    case C => 1
    case B => 2
    case A => 3
    case S => 4
    case SS => 5
  }

  /** No two ranks share a colour, so the colour shown identifies the rank. */
  lemma ColorMatchesRank(accuracy: real)
    ensures GetRank(accuracy).rankColor == RankColor(GetRank(accuracy).rank)
    ensures forall r1: Rank, r2: Rank | r1 != r2 :: RankColor(r1) != RankColor(r2)
  {
    assert RankColor(SS)[1] == 'e' && RankColor(S)[1] == 'e' && RankColor(D)[1] == 'e';
    assert RankColor(A)[1] == '9' && RankColor(B)[1] == '8' && RankColor(C)[1] == 'd';
    assert RankColor(SS)[3] == 'b' && RankColor(S)[3] == 'e' && RankColor(D)[3] == '8';
  }

  /** The band of accuracies each rank stands for. */
  lemma RankBands(accuracy: real)
    ensures GetRank(accuracy).rank == SS <==> accuracy == 100.0
    ensures GetRank(accuracy).rank == S <==> accuracy >= 95.0 && accuracy != 100.0
    ensures GetRank(accuracy).rank == A <==> 90.0 <= accuracy < 95.0
    ensures GetRank(accuracy).rank == B <==> 80.0 <= accuracy < 90.0
    ensures GetRank(accuracy).rank == C <==> 70.0 <= accuracy < 80.0
    ensures GetRank(accuracy).rank == D <==> accuracy < 70.0
  {
  }

  /** Within 0 to 100, a higher accuracy never gets a worse rank. */
  lemma RankMonotone(lo: real, hi: real)
    requires 0.0 <= lo <= hi <= 100.0
    ensures Grade(GetRank(lo).rank) <= Grade(GetRank(hi).rank)
  {
  }

  /** The navigation state's fields; a field the state does not carry is `None`. */
  datatype NavState = NavState(
    score: Option<real>,
    accuracy: Option<real>,
    highestCombo: Option<int>,
    scores: Option<seq<ScoreEntry>>)

  /** The values the screen shows. */
  datatype Shown = Shown(score: real, accuracy: real, highestCombo: int, scores: seq<ScoreEntry>)

  /** `const { score = 0, accuracy = 0, highestCombo = 0, scores = [] } = location.state || {}`. */
  function FromNavigation(state: Option<NavState>): (r: Shown) {
    var st := if state.Some? then state.value else NavState(None, None, None, None);
    Shown(
      if st.score.Some? then st.score.value else 0.0,
      if st.accuracy.Some? then st.accuracy.value else 0.0,
      if st.highestCombo.Some? then st.highestCombo.value else 0,
      if st.scores.Some? then st.scores.value else [])
  }

  /** Arriving without state shows zeros, no scores and rank D. */
  lemma MissingStateDefaults()
    ensures FromNavigation(None) == Shown(0.0, 0.0, 0, [])
    ensures GetRank(FromNavigation(None).accuracy).rank == D
  {
  }

  /** Handing over every field of a screen brings back that very screen. */
  lemma FullStateRoundTrip(shown: Shown)
    ensures FromNavigation(Some(NavState(Some(shown.score), Some(shown.accuracy),
      Some(shown.highestCombo), Some(shown.scores)))) == shown
  {
  }

  /** Arriving without state is the same as arriving with an empty state (`location.state || {}`). */
  lemma MissingStateIsEmptyState()
    ensures FromNavigation(None) == FromNavigation(Some(NavState(None, None, None, None)))
  {
  }

  /** Each shown value depends on its own field of the state alone. */
  lemma FieldsIndependent(a: NavState, b: NavState)
    ensures a.score == b.score ==> FromNavigation(Some(a)).score == FromNavigation(Some(b)).score
    ensures a.accuracy == b.accuracy ==> FromNavigation(Some(a)).accuracy == FromNavigation(Some(b)).accuracy
    ensures a.highestCombo == b.highestCombo ==>
      FromNavigation(Some(a)).highestCombo == FromNavigation(Some(b)).highestCombo
    ensures a.scores == b.scores ==> FromNavigation(Some(a)).scores == FromNavigation(Some(b)).scores
  {
  }

  /** The "Top Scores" column: the five best of the handed-over scores, best first. */
  function TopFive(shown: Shown): seq<ScoreEntry> {
    TopScores(shown.scores, 5)
  }

  lemma TopFiveSpec(shown: Shown)
    ensures var r := TopFive(shown);
      && |r| == (if 5 < |shown.scores| then 5 else |shown.scores|)
      && multiset(r) <= multiset(shown.scores)
      && (forall i, j | 0 <= i < j < |r| :: r[i].score >= r[j].score)
      && (forall x | x in multiset(shown.scores) - multiset(r) :: forall i | 0 <= i < |r| :: x.score <= r[i].score)
  {
    TopScoresSpec(shown.scores, 5);
  }
}
