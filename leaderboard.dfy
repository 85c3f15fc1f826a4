/** The rankings of backend/routers/leaderboard.py: the global board, the
    per-problem board and the rank update, as filtering, ordering and rank
    numbering over the rows of the tables involved (in table order). */
module Leaderboard {
  import opened Wrappers
  import opened Records
  import opened Ordering
  import Submissions

  /** FastAPI's rejection of a query parameter outside its declared bounds. */
  function QueryOutOfRange(name: string): HttpError {
    HttpError(422, name)
  }

  function Min(a: int, b: int): int {
    if a < b then a else b
  }

  // ---------------------------------------------------------------------------
  // Rank numbering, shared by the handlers

  /** The first `limit` rows of `ranked`, numbered from 1. */
  function Numbered<R, E>(ranked: seq<R>, limit: nat, entry: (nat, R) -> E): (b: seq<E>)
    ensures |b| == Min(limit, |ranked|)
    ensures forall i :: 0 <= i < |b| ==> b[i] == entry(i + 1, ranked[i])
  {
    var n := Min(limit, |ranked|);
    seq(n, i requires 0 <= i < n => entry(i + 1, ranked[i]))
  }

  /** The `for rank, row in enumerate(rows, 1)` loop of the handlers, after `.limit(limit)`. */
  method NumberRows<R, E>(ranked: seq<R>, limit: nat, entry: (nat, R) -> E) returns (board: seq<E>)
    ensures board == Numbered(ranked, limit, entry)
  {
    var n := Min(limit, |ranked|);
    board := [];
    var i := 0;
    while i < n
      invariant 0 <= i <= n
      invariant |board| == i
      invariant forall k :: 0 <= k < i ==> board[k] == entry(k + 1, ranked[k])
    {
      board := board + [entry(i + 1, ranked[i])];
      i := i + 1;
    }
  }

  // ---------------------------------------------------------------------------
  // The global board

  /** A user joined with their `user_stats` row. */
  datatype StatsRow = StatsRow(userId: nat, username: string, totalScore: int, problemsSolved: int)

  /** Total score ascending, then problems solved descending. */
  function GlobalKey(r: StatsRow): (int, int) {
    (r.totalScore, -r.problemsSolved)
  }

  predicate HasSolved(r: StatsRow) {
    r.problemsSolved > 0
  }

  function GlobalRanking(rows: seq<StatsRow>): seq<StatsRow> {
    SortByKey(Filter(rows, HasSolved), GlobalKey)
  }

  datatype LeaderboardEntry = LeaderboardEntry(rank: nat, username: string, totalScore: int, problemsSolved: int)

  function EntryOf(rank: nat, row: StatsRow): LeaderboardEntry {
    LeaderboardEntry(rank, row.username, row.totalScore, row.problemsSolved)
  }

  /** The entry shows this user's figures. */
  predicate Shows(e: LeaderboardEntry, row: StatsRow) {
    e.username == row.username && e.totalScore == row.totalScore && e.problemsSolved == row.problemsSolved
  }

  predicate Listed(b: seq<LeaderboardEntry>, row: StatsRow) {
    exists i :: 0 <= i < |b| && Shows(b[i], row)
  }

  function EntryKey(e: LeaderboardEntry): (int, int) {
    (e.totalScore, -e.problemsSolved)
  }

  function GlobalBoard(rows: seq<StatsRow>, limit: nat): seq<LeaderboardEntry> {
    Numbered(GlobalRanking(rows), limit, EntryOf)
  }

  /** `get_global_leaderboard`: 422 for a limit outside 1..100, else the ranked board. */
  method GetGlobalLeaderboard(rows: seq<StatsRow>, limit: int) returns (r: Result<seq<LeaderboardEntry>, HttpError>)
    ensures !(1 <= limit <= 100) ==> r == Failure(QueryOutOfRange("limit"))
    ensures 1 <= limit <= 100 ==> r == Success(GlobalBoard(rows, limit))
  {
    if !(1 <= limit <= 100) {
      return Failure(QueryOutOfRange("limit"));
    }
    var board := NumberRows(GlobalRanking(rows), limit, EntryOf);
    r := Success(board);
  }

  /** Ranks run 1..n over at most `limit` entries, and only users who solved
      something are listed. */
  lemma GlobalBoardRanks(rows: seq<StatsRow>, limit: nat)
    ensures var b := GlobalBoard(rows, limit);
      && |b| <= limit
      && (forall i :: 0 <= i < |b| ==> b[i].rank == i + 1 && b[i].problemsSolved > 0)
  {
    var ranked := GlobalRanking(rows);
    SortedMembers(Filter(rows, HasSolved), GlobalKey);
    forall i | 0 <= i < |ranked| ensures ranked[i].problemsSolved > 0 {
      assert ranked[i] in Filter(rows, HasSolved);
    }
  }

  /** Entries are ordered by total score ascending, ties by problems solved descending. */
  lemma GlobalBoardOrdered(rows: seq<StatsRow>, limit: nat)
    ensures var b := GlobalBoard(rows, limit);
      forall i, j :: 0 <= i < j < |b| ==>
        b[i].totalScore < b[j].totalScore ||
        (b[i].totalScore == b[j].totalScore && b[i].problemsSolved >= b[j].problemsSolved)
  {
    var ranked := GlobalRanking(rows);
    var b := GlobalBoard(rows, limit);
    forall i, j | 0 <= i < j < |b|
      ensures b[i].totalScore < b[j].totalScore ||
              (b[i].totalScore == b[j].totalScore && b[i].problemsSolved >= b[j].problemsSolved)
    {
      assert Le(GlobalKey(ranked[i]), GlobalKey(ranked[j]));
    }
  }

  /** Every entry carries the figures of one of the users who solved something. */
  lemma GlobalBoardFromRows(rows: seq<StatsRow>, limit: nat)
    ensures var b := GlobalBoard(rows, limit);
      forall i :: 0 <= i < |b| ==> exists k :: 0 <= k < |rows| && rows[k].problemsSolved > 0 && Shows(b[i], rows[k])
  {
    var ranked := GlobalRanking(rows);
    var b := GlobalBoard(rows, limit);
    SortedMembers(Filter(rows, HasSolved), GlobalKey);
    forall i | 0 <= i < |b|
      ensures exists k :: 0 <= k < |rows| && rows[k].problemsSolved > 0 && Shows(b[i], rows[k])
    {
      assert ranked[i] in Filter(rows, HasSolved);
      assert ranked[i] in rows;
      var k :| 0 <= k < |rows| && rows[k] == ranked[i];
    }
  }

  /** Every user who solved something has a place in the ranking. */
  lemma RankedSolver(rows: seq<StatsRow>, k: nat) returns (i: nat)
    requires k < |rows| && rows[k].problemsSolved > 0
    ensures i < |GlobalRanking(rows)| && GlobalRanking(rows)[i] == rows[k]
  {
    var solvers := Filter(rows, HasSolved);
    SortedMembers(solvers, GlobalKey);
    assert rows[k] in solvers;
    var j :| 0 <= j < |solvers| && solvers[j] == rows[k];
    assert rows[k] in GlobalRanking(rows);
    i :| 0 <= i < |GlobalRanking(rows)| && GlobalRanking(rows)[i] == rows[k];
  }

  lemma NumberedCutsAfter(ranked: seq<StatsRow>, limit: nat, i: nat)
    requires SortedBy(ranked, GlobalKey) && i < |ranked| && limit > 0
    ensures var b := Numbered(ranked, limit, EntryOf);
      Listed(b, ranked[i]) || (|b| == limit && Le(EntryKey(b[limit - 1]), GlobalKey(ranked[i])))
  {
    var b := Numbered(ranked, limit, EntryOf);
    if i < |b| {
      assert Shows(b[i], ranked[i]);
    } else {
      assert |b| == limit;
      assert Le(GlobalKey(ranked[limit - 1]), GlobalKey(ranked[i]));
    }
  }

  /** A user who solved something is missing only from a full board, and then
      ranks no better than its last entry. */
  lemma GlobalBoardComplete(rows: seq<StatsRow>, limit: nat, k: nat)
    requires k < |rows| && rows[k].problemsSolved > 0 && limit > 0
    ensures var b := GlobalBoard(rows, limit);
      Listed(b, rows[k]) || (|b| == limit && Le(EntryKey(b[limit - 1]), GlobalKey(rows[k])))
  {
    var i := RankedSolver(rows, k);
    NumberedCutsAfter(GlobalRanking(rows), limit, i);
  }

  // ---------------------------------------------------------------------------
  // The per-problem board

  /** A submission joined with its author's username. */
  datatype SubmissionRow = SubmissionRow(userId: nat, username: string, problemId: nat, language: string,
                                         codeLength: int, status: Status, createdAt: int)

  /** `if language:` — an absent or empty language parameter filters nothing. */
  predicate FiltersLanguage(language: Option<string>) {
    language.Some? && language.value != ""
  }

  /** The WHERE of both the main query and the minimum-length subquery. */
  predicate Eligible(s: SubmissionRow, problemId: nat, language: Option<string>) {
    s.problemId == problemId && s.status == Passed && (FiltersLanguage(language) ==> s.language == language.value)
  }

  predicate EligibleBy(s: SubmissionRow, userId: nat, problemId: nat, language: Option<string>) {
    s.userId == userId && Eligible(s, problemId, language)
  }

  /** The subquery's MIN(code_length) for one user; None when the user has no row in its GROUP BY. */
  function MinLength(rows: seq<SubmissionRow>, userId: nat, problemId: nat, language: Option<string>): (m: Option<int>)
    ensures m.None? <==> forall i :: 0 <= i < |rows| ==> !EligibleBy(rows[i], userId, problemId, language)
    ensures m.Some? ==> exists i :: 0 <= i < |rows| && EligibleBy(rows[i], userId, problemId, language) && rows[i].codeLength == m.value
    ensures m.Some? ==> forall i :: 0 <= i < |rows| && EligibleBy(rows[i], userId, problemId, language) ==> m.value <= rows[i].codeLength
  {
    if |rows| == 0 then None
    else
      var init := rows[..|rows| - 1];
      var last := rows[|rows| - 1];
      assert forall i :: 0 <= i < |rows| - 1 ==> rows[i] == init[i];
      var m := MinLength(init, userId, problemId, language);
      if !EligibleBy(last, userId, problemId, language) then m
      else if m.None? || last.codeLength < m.value then Some(last.codeLength)
      else m
  }

  /** The join condition: an eligible row at its author's minimum length. */
  predicate IsBest(rows: seq<SubmissionRow>, s: SubmissionRow, problemId: nat, language: Option<string>) {
    Eligible(s, problemId, language) && MinLength(rows, s.userId, problemId, language) == Some(s.codeLength)
  }

  /** Code length ascending, then submission time ascending. */
  function ProblemKey(s: SubmissionRow): (int, int) {
    (s.codeLength, s.createdAt)
  }

  function ProblemRanking(rows: seq<SubmissionRow>, problemId: nat, language: Option<string>): seq<SubmissionRow> {
    SortByKey(Filter(rows, s => IsBest(rows, s, problemId, language)), ProblemKey)
  }

  datatype ProblemLeaderboardEntry = ProblemLeaderboardEntry(rank: nat, username: string, codeLength: int,
                                                             language: string, submittedAt: int)

  function ProblemEntryOf(rank: nat, s: SubmissionRow): ProblemLeaderboardEntry {
    ProblemLeaderboardEntry(rank, s.username, s.codeLength, s.language, s.createdAt)
  }

  predicate ShowsSubmission(e: ProblemLeaderboardEntry, s: SubmissionRow) {
    e.username == s.username && e.codeLength == s.codeLength && e.language == s.language && e.submittedAt == s.createdAt
  }

  function ProblemBoard(rows: seq<SubmissionRow>, problemId: nat, language: Option<string>, limit: nat): seq<ProblemLeaderboardEntry> {
    Numbered(ProblemRanking(rows, problemId, language), limit, ProblemEntryOf)
  }

  /** `get_problem_leaderboard`: 422 for a limit outside 1..50 (checked before the
      handler runs), 404 for an unknown problem, else the ranked board. */
  method GetProblemLeaderboard(rows: seq<SubmissionRow>, problems: set<nat>, problemId: nat,
                               language: Option<string>, limit: int)
    returns (r: Result<seq<ProblemLeaderboardEntry>, HttpError>)
    ensures !(1 <= limit <= 50) ==> r == Failure(QueryOutOfRange("limit"))
    ensures 1 <= limit <= 50 && problemId !in problems ==> r == Failure(HttpError(404, "Problem not found"))
    ensures 1 <= limit <= 50 && problemId in problems ==> r == Success(ProblemBoard(rows, problemId, language, limit))
  {
    if !(1 <= limit <= 50) {
      return Failure(QueryOutOfRange("limit"));
    }
    if problemId !in problems {
      return Failure(HttpError(404, "Problem not found"));
    }
    var board := NumberRows(ProblemRanking(rows, problemId, language), limit, ProblemEntryOf);
    r := Success(board);
  }

  /** Ranks run 1..n over at most `limit` entries, ordered by code length and
      then by submission time. */
  lemma ProblemBoardOrdered(rows: seq<SubmissionRow>, problemId: nat, language: Option<string>, limit: nat)
    ensures var b := ProblemBoard(rows, problemId, language, limit);
      && |b| <= limit
      && (forall i :: 0 <= i < |b| ==> b[i].rank == i + 1)
      && (forall i, j :: 0 <= i < j < |b| ==>
            b[i].codeLength < b[j].codeLength ||
            (b[i].codeLength == b[j].codeLength && b[i].submittedAt <= b[j].submittedAt))
  {
    var ranked := ProblemRanking(rows, problemId, language);
    var b := ProblemBoard(rows, problemId, language, limit);
    forall i, j | 0 <= i < j < |b|
      ensures b[i].codeLength < b[j].codeLength ||
              (b[i].codeLength == b[j].codeLength && b[i].submittedAt <= b[j].submittedAt)
    {
      assert Le(ProblemKey(ranked[i]), ProblemKey(ranked[j]));
    }
  }

  /** Every entry is a passed submission to this problem (in the requested
      language, when one is given) whose length is its author's shortest such. */
  lemma ProblemBoardShowsBest(rows: seq<SubmissionRow>, problemId: nat, language: Option<string>, limit: nat)
    ensures var b := ProblemBoard(rows, problemId, language, limit);
      forall i :: 0 <= i < |b| ==> exists k :: 0 <= k < |rows| && IsBest(rows, rows[k], problemId, language) && ShowsSubmission(b[i], rows[k])
  {
    var best := Filter(rows, s => IsBest(rows, s, problemId, language));
    var ranked := ProblemRanking(rows, problemId, language);
    var b := ProblemBoard(rows, problemId, language, limit);
    SortedMembers(best, ProblemKey);
    forall i | 0 <= i < |b|
      ensures exists k :: 0 <= k < |rows| && IsBest(rows, rows[k], problemId, language) && ShowsSubmission(b[i], rows[k])
    {
      assert ranked[i] in best;
      var k :| 0 <= k < |rows| && rows[k] == ranked[i];
      assert ShowsSubmission(b[i], rows[k]);
    }
  }

  /** A shortest passed submission is missing only from a full board, and then
      ranks no better than its last entry. */
  lemma ProblemBoardComplete(rows: seq<SubmissionRow>, problemId: nat, language: Option<string>, limit: nat, k: nat)
    requires k < |rows| && IsBest(rows, rows[k], problemId, language) && limit > 0
    ensures var b := ProblemBoard(rows, problemId, language, limit);
      || (exists i :: 0 <= i < |b| && ShowsSubmission(b[i], rows[k]))
      || (|b| == limit && Le((b[limit - 1].codeLength, b[limit - 1].submittedAt), ProblemKey(rows[k])))
  {
    var best := Filter(rows, s => IsBest(rows, s, problemId, language));
    var ranked := ProblemRanking(rows, problemId, language);
    var b := ProblemBoard(rows, problemId, language, limit);
    SortedMembers(best, ProblemKey);
    assert rows[k] in best;
    var j :| 0 <= j < |best| && best[j] == rows[k];
    assert rows[k] in ranked;
    var i :| 0 <= i < |ranked| && ranked[i] == rows[k];
    if i < |b| {
      assert ShowsSubmission(b[i], rows[k]);
    } else {
      assert Le(ProblemKey(ranked[limit - 1]), ProblemKey(ranked[i]));
    }
  }

  lemma MinLengthUnfiltered(rows: seq<SubmissionRow>, userId: nat, problemId: nat)
    ensures MinLength(rows, userId, problemId, Some("")) == MinLength(rows, userId, problemId, None)
  {
    var a := MinLength(rows, userId, problemId, Some(""));
    var b := MinLength(rows, userId, problemId, None);
    assert forall i :: 0 <= i < |rows| ==>
      EligibleBy(rows[i], userId, problemId, Some("")) == EligibleBy(rows[i], userId, problemId, None);
  }

  /** An empty language parameter yields the same board as none at all. */
  lemma EmptyLanguageFiltersNothing(rows: seq<SubmissionRow>, problemId: nat, limit: nat)
    ensures ProblemBoard(rows, problemId, Some(""), limit) == ProblemBoard(rows, problemId, None, limit)
  {
    forall i | 0 <= i < |rows|
      ensures IsBest(rows, rows[i], problemId, Some("")) == IsBest(rows, rows[i], problemId, None)
    {
      MinLengthUnfiltered(rows, rows[i].userId, problemId);
    }
    FilterAgrees(rows, s => IsBest(rows, s, problemId, Some("")), s => IsBest(rows, s, problemId, None));
  }

  function TieFirst(): SubmissionRow {
    SubmissionRow(1, "ada", 7, "python", 42, Passed, 100)
  }

  function TieSecond(): SubmissionRow {
    SubmissionRow(1, "ada", 7, "python", 42, Passed, 200)
  }

  lemma TieMinimum()
    ensures MinLength([TieFirst(), TieSecond()], 1, 7, None) == Some(42)
  {
    var rows := [TieFirst(), TieSecond()];
    assert rows[..1] == [TieFirst()];
    assert [TieFirst()][..0] == [];
  }

  lemma TieKept()
    ensures var rows := [TieFirst(), TieSecond()];
      Filter(rows, s => IsBest(rows, s, 7, None)) == rows
  {
    var rows := [TieFirst(), TieSecond()];
    TieMinimum();
    assert rows[..1] == [TieFirst()];
    assert [TieFirst()][..0] == [];
  }

  lemma TieOrder()
    ensures SortByKey([TieFirst(), TieSecond()], ProblemKey) == [TieFirst(), TieSecond()]
  {
    var rows := [TieFirst(), TieSecond()];
    assert rows[..1] == [TieFirst()];
    assert [TieFirst()][..0] == [];
    assert SortByKey([TieFirst()], ProblemKey) == [TieFirst()];
  }

  /** Two passed submissions by the same user at the same shortest length both
      stay on the board: the join keeps every row at the minimum, one per
      submission rather than one per user. */
  lemma TiedSubmissionsBothListed()
    ensures ProblemBoard([TieFirst(), TieSecond()], 7, None, 20) ==
      [ProblemLeaderboardEntry(1, "ada", 42, "python", 100), ProblemLeaderboardEntry(2, "ada", 42, "python", 200)]
  {
    TieKept();
    TieOrder();
  }

  // ---------------------------------------------------------------------------
  // The rank update

  /** The columns the rank query reads from a `user_stats` row. */
  datatype ScoreRow = ScoreRow(userId: nat, totalScore: int, problemsSolved: int)

  /** Total score ascending, then problems solved descending, as on the global board. */
  function ScoreKey(r: ScoreRow): (int, int) {
    (r.totalScore, -r.problemsSolved)
  }

  predicate ScoreSolved(r: ScoreRow) {
    r.problemsSolved > 0
  }

  function Snapshot(stats: seq<Submissions.UserStats>): (r: seq<ScoreRow>)
    reads stats
    ensures |r| == |stats|
    ensures forall i :: 0 <= i < |r| ==> r[i] == ScoreRow(stats[i].userId, stats[i].totalScore, stats[i].problemsSolved)
  {
    if |stats| == 0 then []
    else
      var last := stats[|stats| - 1];
      Snapshot(stats[..|stats| - 1]) + [ScoreRow(last.userId, last.totalScore, last.problemsSolved)]
  }

  /** The users to rank, best first, read before any rank is written. */
  function RankOrder(stats: seq<Submissions.UserStats>): seq<ScoreRow>
    reads stats
  {
    RankOrderOf(Snapshot(stats))
  }

  function RankOrderOf(snap: seq<ScoreRow>): seq<ScoreRow> {
    SortByKey(Filter(snap, ScoreSolved), ScoreKey)
  }

  /** The rank the loop leaves for `userId`: one plus its last position in `order`. */
  function RankIn(order: seq<ScoreRow>, userId: nat): (r: Option<nat>)
    ensures r.None? <==> forall j :: 0 <= j < |order| ==> order[j].userId != userId
    ensures r.Some? ==> 1 <= r.value <= |order| && order[r.value - 1].userId == userId
    ensures r.Some? ==> forall j :: r.value <= j < |order| ==> order[j].userId != userId
  {
    if |order| == 0 then None
    else if order[|order| - 1].userId == userId then Some(|order|)
    else RankIn(order[..|order| - 1], userId)
  }

  /** The rank a row holds once the first `j` rows of the order are processed. */
  function RankAfter(order: seq<ScoreRow>, userId: nat, before: Option<nat>): Option<nat> {
    var r := RankIn(order, userId);
    if r.Some? then r else before
  }

  lemma RankInStep(order: seq<ScoreRow>, j: nat, userId: nat)
    requires j < |order|
    ensures RankIn(order[..j + 1], userId) ==
      if order[j].userId == userId then Some(j + 1) else RankIn(order[..j], userId)
  {
    assert order[..j + 1][..j] == order[..j];
  }

  /** `user_stats.user_id` is unique. */
  predicate DistinctUsers(stats: seq<Submissions.UserStats>)
    reads stats
  {
    forall i, j :: 0 <= i < j < |stats| ==> stats[i].userId != stats[j].userId
  }

  predicate DistinctIds(rows: seq<ScoreRow>) {
    forall i, j :: 0 <= i < j < |rows| ==> rows[i].userId != rows[j].userId
  }

  /** `db.query(UserStats).filter(UserStats.user_id == user_id).first()`. */
  method FindStats(stats: seq<Submissions.UserStats>, userId: nat) returns (found: Option<nat>)
    ensures found.None? <==> forall i :: 0 <= i < |stats| ==> stats[i].userId != userId
    ensures found.Some? ==> found.value < |stats| && stats[found.value].userId == userId
    ensures found.Some? ==> forall i :: 0 <= i < found.value ==> stats[i].userId != userId
  {
    var i := 0;
    while i < |stats|
      invariant 0 <= i <= |stats|
      invariant forall k :: 0 <= k < i ==> stats[k].userId != userId
    {
      if stats[i].userId == userId {
        return Some(i);
      }
      i := i + 1;
    }
    return None;
  }

  /** One turn of the loop: the user's row, if any, takes the rank. */
  method SetRank(stats: seq<Submissions.UserStats>, userId: nat, rank: nat)
    requires DistinctUsers(stats)
    modifies stats
    ensures forall i :: 0 <= i < |stats| ==>
      stats[i].rank == (if stats[i].userId == userId then Some(rank) else old(stats[i].rank))
    ensures forall i :: 0 <= i < |stats| ==>
      && stats[i].totalScore == old(stats[i].totalScore)
      && stats[i].problemsSolved == old(stats[i].problemsSolved)
      && stats[i].totalSubmissions == old(stats[i].totalSubmissions)
  {
    var found := FindStats(stats, userId);
    if found.Some? {
      stats[found.value].rank := Some(rank);
    }
  }

  /** `update_user_ranks`: every ranked user's row gets its position in the
      order; other rows keep their rank; no other column changes. */
  method UpdateUserRanks(stats: seq<Submissions.UserStats>) returns (updatedCount: nat)
    requires DistinctUsers(stats)
    modifies stats
    ensures updatedCount == |old(RankOrder(stats))|
    ensures forall i :: 0 <= i < |stats| ==>
      stats[i].rank == RankAfter(old(RankOrder(stats)), stats[i].userId, old(stats[i].rank))
    ensures forall i :: 0 <= i < |stats| ==>
      && stats[i].totalScore == old(stats[i].totalScore)
      && stats[i].problemsSolved == old(stats[i].problemsSolved)
      && stats[i].totalSubmissions == old(stats[i].totalSubmissions)
  {
    var order := RankOrder(stats);
    AssignRanks(stats, order);
    updatedCount := |order|;
  }

  /** The rank loop over an order read beforehand. */
  method AssignRanks(stats: seq<Submissions.UserStats>, order: seq<ScoreRow>)
    requires DistinctUsers(stats)
    modifies stats
    ensures forall i :: 0 <= i < |stats| ==>
      stats[i].rank == RankAfter(order, stats[i].userId, old(stats[i].rank))
    ensures forall i :: 0 <= i < |stats| ==>
      && stats[i].totalScore == old(stats[i].totalScore)
      && stats[i].problemsSolved == old(stats[i].problemsSolved)
      && stats[i].totalSubmissions == old(stats[i].totalSubmissions)
  {
    var j := 0;
    while j < |order|
      invariant 0 <= j <= |order|
      invariant DistinctUsers(stats)
      invariant forall i :: 0 <= i < |stats| ==>
        stats[i].rank == RankAfter(order[..j], stats[i].userId, old(stats[i].rank))
      invariant forall i :: 0 <= i < |stats| ==>
        && stats[i].totalScore == old(stats[i].totalScore)
        && stats[i].problemsSolved == old(stats[i].problemsSolved)
        && stats[i].totalSubmissions == old(stats[i].totalSubmissions)
    {
      forall u: nat {
        RankInStep(order, j, u);
      }
      SetRank(stats, order[j].userId, j + 1);
      j := j + 1;
    }
    assert order[..|order|] == order;
  }

  /** No user appears twice in the order. */
  lemma RankOrderDistinct(snap: seq<ScoreRow>)
    requires DistinctIds(snap)
    ensures DistinctIds(RankOrderOf(snap))
  {
    var solved := Filter(snap, ScoreSolved);
    var order := RankOrderOf(snap);
    SortedMembers(solved, ScoreKey);
    forall p, q | 0 <= p < q < |order| ensures order[p].userId != order[q].userId {
      if order[p].userId == order[q].userId {
        assert order[p] in solved && order[q] in solved;
        var a :| 0 <= a < |snap| && snap[a] == order[p];
        var b :| 0 <= b < |snap| && snap[b] == order[q];
        assert a == b;
        RepeatOccursTwice(order, p, q);
        DistinctOccursOnce(snap, order[p]);
        assert false;
      }
    }
  }

  /** In an order without repeats, each user's rank is their position. */
  lemma RankIsPosition(order: seq<ScoreRow>, p: nat)
    requires DistinctIds(order) && p < |order|
    ensures RankIn(order, order[p].userId) == Some(p + 1)
  {
  }

  /** Exactly the users who solved something are in the order. */
  lemma RankedIffSolved(snap: seq<ScoreRow>, i: nat)
    requires DistinctIds(snap) && i < |snap|
    ensures RankIn(RankOrderOf(snap), snap[i].userId).Some? <==> snap[i].problemsSolved > 0
  {
    var solved := Filter(snap, ScoreSolved);
    var order := RankOrderOf(snap);
    SortedMembers(solved, ScoreKey);
    if snap[i].problemsSolved > 0 {
      assert snap[i] in solved;
      assert snap[i] in order;
    }
    var r := RankIn(order, snap[i].userId);
    if r.Some? {
      var row := order[r.value - 1];
      assert row in solved;
      var a :| 0 <= a < |snap| && snap[a] == row;
      assert a == i;
    }
  }

  /** The ranks written are the positions 1..n of the order, and exactly the
      users who solved something get one. */
  lemma RankUpdateAssignsPositions(stats: seq<Submissions.UserStats>)
    requires DistinctUsers(stats)
    ensures var order := RankOrder(stats);
      && (forall p :: 0 <= p < |order| ==> RankIn(order, order[p].userId) == Some(p + 1))
      && (forall i :: 0 <= i < |stats| ==> (RankIn(order, stats[i].userId).Some? <==> stats[i].problemsSolved > 0))
  {
    var snap := Snapshot(stats);
    assert DistinctIds(snap);
    RankOrderDistinct(snap);
    forall p | 0 <= p < |RankOrder(stats)| ensures RankIn(RankOrder(stats), RankOrder(stats)[p].userId) == Some(p + 1) {
      RankIsPosition(RankOrder(stats), p);
    }
    forall i | 0 <= i < |stats|
      ensures RankIn(RankOrder(stats), stats[i].userId).Some? <==> stats[i].problemsSolved > 0
    {
      RankedIffSolved(snap, i);
    }
  }
}
