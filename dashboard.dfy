/** The dashboard's figures over the caller's resume list (as `GET
    /api/resumes` returns it): the number of resumes, the number with a match
    score, the rounded average score, the five shown first and the display
    thresholds. */
module Dashboard {
  import opened Wrappers
  import opened JsValues
  import opened Seqs
  import opened Schema
  import opened Storage

  /** How many resumes the recent list shows. */
  const RecentCount: nat := 5
  /** A match badge needs a score above this. */
  const BadgeThreshold: int := 80
  /** "View All" appears above this many resumes. */
  const ViewAllThreshold: nat := 3


  predicate HasScore(r: Resume) {
    TruthyNumber(r.matchScore)
  }

  /** `totalApplications`: the reduce adding 1 for each truthy `matchScore`. */
  function Applications(rs: seq<Resume>): (n: nat)
    ensures n <= |rs|
    decreases |rs|
  {
    if rs == [] then 0 else (if HasScore(rs[0]) then 1 else 0) + Applications(rs[1..])
  }

  /** The count is the length of the list of scored resumes. */
  lemma {:induction false} ApplicationsCountsScored(rs: seq<Resume>)
    ensures Applications(rs) == |Filter(HasScore, rs)|
    decreases |rs|
  {
    if rs != [] {
      ApplicationsCountsScored(rs[1..]);
    }
  }

  /** `resume.matchScore || 0`. */
  function ScoreOf(r: Resume): (s: int)
    ensures r.matchScore.None? ==> s == 0
    ensures r.matchScore.Some? ==> s == r.matchScore.value
  {
    if TruthyNumber(r.matchScore) then r.matchScore.value else 0
  }

  /** `totalResumes`; never fewer than the scored ones. */
  function TotalResumes(rs: seq<Resume>): (n: nat)
    ensures n == |rs| && Applications(rs) <= n
  {
    |rs|
  }

  /** The reduce adding `resume.matchScore || 0`. */
  function ScoreSum(rs: seq<Resume>): int
    decreases |rs|
  {
    if rs == [] then 0 else ScoreOf(rs[0]) + ScoreSum(rs[1..])
  }

  predicate ScoresInRange(rs: seq<Resume>) {
    forall i :: 0 <= i < |rs| ==> 0 <= ScoreOf(rs[i]) <= 100
  }

  lemma {:induction false} ScoreSumBounds(rs: seq<Resume>)
    requires ScoresInRange(rs)
    ensures 0 <= ScoreSum(rs) <= 100 * |rs|
    decreases |rs|
  {
    if rs != [] {
      assert ScoresInRange(rs[1..]) by {
        forall i | 0 <= i < |rs[1..]| ensures 0 <= ScoreOf(rs[1..][i]) <= 100 {
          assert rs[1..][i] == rs[i + 1];
        }
      }
      ScoreSumBounds(rs[1..]);
    }
  }

  /** `Math.round(sum / n)` for a positive count: the nearest integer, halves
      rounded up. */
  function RoundHalfUp(sum: int, n: int): (r: int)
    requires n > 0
    ensures 2 * n * r <= 2 * sum + n < 2 * n * r + 2 * n
  {
    var r := (2 * sum + n) / (2 * n);
    assert 2 * sum + n == (2 * n) * r + (2 * sum + n) % (2 * n);
    r
  }

  /** Multiplying by a non-negative factor keeps order. */
  lemma MulMonotone(m: int, a: int, b: int)
    requires m >= 0 && a <= b
    ensures m * a <= m * b
  {
    assert m * b - m * a == m * (b - a);
  }

  /** A positive factor can be cancelled from a strict inequality. */
  lemma CancelFactor(m: int, a: int, b: int)
    requires m > 0 && m * a < m * b
    ensures a < b
  {
    if a >= b {
      MulMonotone(m, b, a);
    }
  }

  /** The rounding has exactly one answer. */
  lemma RoundHalfUpUnique(sum: int, n: int, k: int)
    requires n > 0 && 2 * n * k <= 2 * sum + n < 2 * n * k + 2 * n
    ensures RoundHalfUp(sum, n) == k
  {
    var r := RoundHalfUp(sum, n);
    assert 2 * n * (k + 1) == 2 * n * k + 2 * n && 2 * n * (r + 1) == 2 * n * r + 2 * n;
    CancelFactor(2 * n, r, k + 1);
    CancelFactor(2 * n, k, r + 1);
  }

  /** A sum between `lo * n` and `hi * n` rounds to a value between `lo` and `hi`. */
  lemma RoundHalfUpBetween(sum: int, n: int, lo: int, hi: int)
    requires n > 0 && lo * n <= sum <= hi * n
    ensures lo <= RoundHalfUp(sum, n) <= hi
  {
    var r := RoundHalfUp(sum, n);
    assert 2 * n * (hi + 1) == 2 * (hi * n) + 2 * n && 2 * n * (r + 1) == 2 * n * r + 2 * n;
    assert 2 * n * lo == 2 * (lo * n);
    CancelFactor(2 * n, r, hi + 1);
    CancelFactor(2 * n, lo - 1, r);
  }

  /** `averageMatchScore`: 0 for an empty list. */
  function AverageMatchScore(rs: seq<Resume>): (a: int)
    ensures rs == [] ==> a == 0
    ensures rs != [] ==> 2 * |rs| * a <= 2 * ScoreSum(rs) + |rs| < 2 * |rs| * a + 2 * |rs|
  {
    if |rs| > 0 then RoundHalfUp(ScoreSum(rs), |rs|) else 0
  }

  /** With every score in [0, 100] the average is too. */
  lemma AverageInRange(rs: seq<Resume>)
    requires ScoresInRange(rs)
    ensures 0 <= AverageMatchScore(rs) <= 100
  {
    if rs != [] {
      ScoreSumBounds(rs);
      RoundHalfUpBetween(ScoreSum(rs), |rs|, 0, 100);
    }
  }

  /** If every resume has the same score, that is the average. */
  lemma {:induction false} AverageOfEqualScores(rs: seq<Resume>, s: int)
    requires rs != []
    requires forall i :: 0 <= i < |rs| ==> ScoreOf(rs[i]) == s
    ensures AverageMatchScore(rs) == s
  {
    SumOfEqualScores(rs, s);
    RoundHalfUpUnique(ScoreSum(rs), |rs|, s);
  }

  lemma {:induction false} SumOfEqualScores(rs: seq<Resume>, s: int)
    requires forall i :: 0 <= i < |rs| ==> ScoreOf(rs[i]) == s
    ensures ScoreSum(rs) == s * |rs|
    decreases |rs|
  {
    if rs != [] {
      assert forall i :: 0 <= i < |rs[1..]| ==> ScoreOf(rs[1..][i]) == s by {
        forall i | 0 <= i < |rs[1..]| ensures ScoreOf(rs[1..][i]) == s {
          assert rs[1..][i] == rs[i + 1];
        }
      }
      SumOfEqualScores(rs[1..], s);
      assert s * |rs| == s + s * (|rs| - 1);
    }
  }

  /** `resumeList.slice(0, 5)`. */
  function RecentResumes(rs: seq<Resume>): (r: seq<Resume>)
    ensures |r| == if |rs| < RecentCount then |rs| else RecentCount
    ensures r == rs[..|r|]
  {
    if |rs| < RecentCount then rs else rs[..RecentCount]
  }

  /** Over the list the API returns, the resumes shown are the most recently
      updated: none left out was updated later than one shown. */
  lemma RecentAreMostRecent(resumes: seq<Resume>, userId: Id)
    ensures var list := UserResumes(resumes, userId);
            var shown := RecentResumes(list);
            forall i, j :: 0 <= i < |shown| <= j < |list| ==> shown[i].updatedAt >= list[j].updatedAt
  {
    var list := UserResumes(resumes, userId);
    assert SortedByUpdatedDesc(list);
  }

  /** `resume.matchScore && resume.matchScore > 80`. */
  predicate ShowBadge(r: Resume) {
    TruthyNumber(r.matchScore) && r.matchScore.value > BadgeThreshold
  }

  /** The badge appears exactly for a score above 80 (0 being falsy changes nothing). */
  lemma ShowBadgeIffAbove(r: Resume)
    ensures ShowBadge(r) <==> r.matchScore.Some? && r.matchScore.value > BadgeThreshold
    ensures ShowBadge(r) ==> HasScore(r)
  { }

  /** `resumeList.length > 3`. */
  predicate ShowViewAll(rs: seq<Resume>) {
    |rs| > ViewAllThreshold
  }

  /** "View All" appears exactly when the recent list shows more than three. */
  lemma ViewAllWhenMoreThanThree(rs: seq<Resume>)
    ensures ShowViewAll(rs) <==> |RecentResumes(rs)| > ViewAllThreshold
  { }
}
