/** The interactive submission flow of backend/routers/submissions.py: the record
    `submit_code` creates, the status steps of `evaluate_submission`, and the
    per-user statistics rule `update_user_stats`. */
module Submissions {
  import opened Wrappers
  import opened Text
  import opened Records
  import Evaluation

  /** The `result` column: the evaluator's findings, or the message of an exception. */
  datatype StoredResult =
    | Evaluated(testResults: seq<Evaluation.TestResult>, errorMessage: Option<string>)
    | Crashed(exceptionMessage: string)

  class Submission {
    const id: nat
    const userId: nat
    const problemId: nat
    const language: string
    const code: string
    const codeLength: nat
    var status: Status
    var result: Option<StoredResult>
    var memoryUsage: Option<nat>
    /** Every status this record has held, oldest first. */
    ghost var statusTrail: seq<Status>

    constructor (id: nat, userId: nat, problemId: nat, language: string, code: string)
      ensures this.id == id && this.userId == userId && this.problemId == problemId
      ensures this.language == language && this.code == code
      ensures codeLength == |code|
      ensures status == Pending && result == None && memoryUsage == None
      ensures statusTrail == [Pending]
    {
      this.id := id;
      this.userId := userId;
      this.problemId := problemId;
      this.language := language;
      this.code := code;
      codeLength := |code|;
      status := Pending;
      result := None;
      memoryUsage := None;
      statusTrail := [Pending];
    }
  }

  /** `submit_code`: 404 for an unknown problem, otherwise a new pending record
      whose `code_length` counts characters. */
  method SubmitCode(id: nat, userId: nat, problemId: nat, language: string, code: string, problems: set<nat>)
    returns (r: Result<Submission, HttpError>)
    ensures r.Failure? <==> problemId !in problems
    ensures r.Failure? ==> r.error == HttpError(404, "Problem not found")
    ensures r.Success? ==> fresh(r.value)
    ensures r.Success? ==> r.value.userId == userId && r.value.problemId == problemId && r.value.code == code
    ensures r.Success? ==> r.value.id == id && r.value.language == language
    ensures r.Success? ==> r.value.codeLength == |code| && r.value.status == Pending
    ensures r.Success? ==> r.value.result == None && r.value.memoryUsage == None && r.value.statusTrail == [Pending]
  {
    if problemId !in problems {
      return Failure(HttpError(404, "Problem not found"));
    }
    var submission := new Submission(id, userId, problemId, language, code);
    r := Success(submission);
  }

  /** The interactive length (characters) never exceeds the batch length (UTF-8
      bytes), and the two agree on ASCII code. */
  lemma InteractiveLengthAtMostBatchLength(code: string)
    ensures |code| <= Utf8Length(code)
    ensures (forall i :: 0 <= i < |code| ==> code[i] as int < 0x80) ==> |code| == Utf8Length(code)
  {
    Utf8LengthAtLeastChars(code);
    if forall i :: 0 <= i < |code| ==> code[i] as int < 0x80 {
      Utf8LengthAscii(code);
    }
  }

  // ---------------------------------------------------------------------------
  // The statistics rule

  /** The two figures of a `user_stats` row that the rule keeps consistent. */
  datatype Totals = Totals(totalScore: int, problemsSolved: int)

  /** The change `update_user_stats` makes for a passed submission of length
      `codeLength`, given the shortest earlier passed length for the problem. */
  function AfterPass(t: Totals, previousBest: Option<nat>, codeLength: nat): Totals {
    if previousBest.None? then Totals(t.totalScore + codeLength, t.problemsSolved + 1)
    else if codeLength < previousBest.value then
      Totals(t.totalScore - previousBest.value + codeLength, t.problemsSolved)
    else t
  }

  class UserStats {
    const userId: nat
    var totalScore: int
    var problemsSolved: int
    var totalSubmissions: int
    var rank: Option<nat>

    /** A new row with the column defaults. */
    constructor (userId: nat)
      ensures this.userId == userId
      ensures totalScore == 0 && problemsSolved == 0 && totalSubmissions == 0 && rank == None
    {
      this.userId := userId;
      totalScore := 0;
      problemsSolved := 0;
      totalSubmissions := 0;
      rank := None;
    }

    function Figures(): Totals
      reads this
    {
      Totals(totalScore, problemsSolved)
    }

    /** The body of `update_user_stats` once the row and the previous best are known. */
    method RecordPass(previousBest: Option<nat>, codeLength: nat)
      modifies this
      ensures Figures() == AfterPass(old(Figures()), previousBest, codeLength)
      ensures totalSubmissions == old(totalSubmissions) + 1
      ensures rank == old(rank)
    {
      if previousBest.None? {
        problemsSolved := problemsSolved + 1;
        totalScore := totalScore + codeLength;
      } else if codeLength < previousBest.value {
        totalScore := totalScore - previousBest.value + codeLength;
      }
      totalSubmissions := totalSubmissions + 1;
    }
  }

  /** The message of the `TypeError` Python raises on `None += int`. */
  const AugmentedAddOnNone := "unsupported operand type(s) for +=: 'NoneType' and 'int'"
  /** The message of the `TypeError` Python raises on `None - int`. */
  const SubtractOnNone := "unsupported operand type(s) for -: 'NoneType' and 'int'"

  /** The exception `update_user_stats` raises on a row it has just constructed:
      `UserStats(user_id=...)` leaves every figure `None` until the INSERT applies
      the column defaults, so the first arithmetic statement the rule reaches fails. */
  function MissingRowFault(previousBest: Option<nat>, codeLength: nat): (msg: string)
    ensures previousBest.Some? && codeLength < previousBest.value <==> msg == SubtractOnNone
    ensures previousBest.None? || previousBest.value <= codeLength <==> msg == AugmentedAddOnNone
  {
    if previousBest.Some? && codeLength < previousBest.value then SubtractOnNone else AugmentedAddOnNone
  }

  /** `update_user_stats`. A loaded row receives the rule for one passed submission.
      A missing row is constructed and added to the session, and the rule then
      raises (`fault`) before anything is committed; the row the session later
      inserts carries the column defaults. */
  method UpdateUserStats(existing: UserStats?, userId: nat, previousBest: Option<nat>, codeLength: nat)
    returns (stats: UserStats, fault: Option<string>)
    requires existing != null ==> existing.userId == userId
    modifies existing
    ensures stats.userId == userId
    ensures existing != null ==> stats == existing && fault.None?
    ensures existing != null ==> stats.Figures() == AfterPass(old(existing.Figures()), previousBest, codeLength)
    ensures existing != null ==> stats.totalSubmissions == old(existing.totalSubmissions) + 1
    ensures existing != null ==> stats.rank == old(existing.rank)
    ensures existing == null ==> fresh(stats) && fault == Some(MissingRowFault(previousBest, codeLength))
    ensures existing == null ==> stats.Figures() == Totals(0, 0) && stats.totalSubmissions == 0 && stats.rank == None
  {
    if existing == null {
      stats := new UserStats(userId);
      fault := Some(MissingRowFault(previousBest, codeLength));
    } else {
      stats := existing;
      stats.RecordPass(previousBest, codeLength);
      fault := None;
    }
  }

  // ---------------------------------------------------------------------------
  // What `total_score` and `problems_solved` are meant to be

  /** A passed submission of one user: its problem and its code length. */
  datatype Solve = Solve(problemId: nat, codeLength: nat)

  /** The shortest passed length for `pid` in `h`, or `None` when `pid` was never solved. */
  function Best(h: seq<Solve>, pid: nat): (b: Option<nat>)
    ensures b.None? <==> forall i :: 0 <= i < |h| ==> h[i].problemId != pid
    ensures b.Some? ==> exists i :: 0 <= i < |h| && h[i].problemId == pid && h[i].codeLength == b.value
    ensures b.Some? ==> forall i :: 0 <= i < |h| && h[i].problemId == pid ==> b.value <= h[i].codeLength
  {
    if |h| == 0 then None
    else
      var rest := Best(h[..|h| - 1], pid);
      var last := h[|h| - 1];
      if last.problemId != pid then rest
      else if rest.Some? && rest.value <= last.codeLength then rest
      else Some(last.codeLength)
  }

  predicate Distinct(ps: seq<nat>) {
    forall i, j :: 0 <= i < j < |ps| ==> ps[i] != ps[j]
  }

  /** The problems solved in `h`, each once, in order of first solve. */
  function Problems(h: seq<Solve>): (ps: seq<nat>)
    ensures Distinct(ps)
    ensures forall i :: 0 <= i < |h| ==> h[i].problemId in ps
    ensures forall p :: p in ps ==> Best(h, p).Some?
  {
    if |h| == 0 then []
    else
      var ps := Problems(h[..|h| - 1]);
      var p := h[|h| - 1].problemId;
      if p in ps then ps else ps + [p]
  }

  /** The sum of the best lengths of the problems `ps`. */
  function SumBest(h: seq<Solve>, ps: seq<nat>): int {
    if |ps| == 0 then 0 else SumBest(h, ps[..|ps| - 1]) + Best(h, ps[|ps| - 1]).GetOr(0)
  }

  /** The figures as the `user_stats` column comments define them: the sum of the
      best scores over the solved problems, and how many problems are solved. */
  function Intended(h: seq<Solve>): Totals {
    Totals(SumBest(h, Problems(h)), |Problems(h)|)
  }

  lemma {:induction false} SumBestOther(h: seq<Solve>, s: Solve, ps: seq<nat>)
    requires s.problemId !in ps
    ensures SumBest(h + [s], ps) == SumBest(h, ps)
  {
    if |ps| > 0 {
      var n := |ps| - 1;
      assert ps[n] in ps;
      assert (h + [s])[..|h|] == h;
      SumBestOther(h, s, ps[..n]);
    }
  }

  lemma {:induction false} SumBestChanged(h: seq<Solve>, s: Solve, ps: seq<nat>)
    requires Distinct(ps) && s.problemId in ps
    ensures SumBest(h + [s], ps) ==
      SumBest(h, ps) + Best(h + [s], s.problemId).GetOr(0) - Best(h, s.problemId).GetOr(0)
  {
    var n := |ps| - 1;
    assert (h + [s])[..|h|] == h;
    if ps[n] == s.problemId {
      assert s.problemId !in ps[..n];
      SumBestOther(h, s, ps[..n]);
    } else {
      assert s.problemId in ps[..n] by {
        var k :| 0 <= k < |ps| && ps[k] == s.problemId;
        assert ps[..n][k] == s.problemId;
      }
      SumBestChanged(h, s, ps[..n]);
    }
  }

  lemma ProblemsAppend(h: seq<Solve>, s: Solve)
    ensures Problems(h + [s]) ==
      if s.problemId in Problems(h) then Problems(h) else Problems(h) + [s.problemId]
  {
    assert (h + [s])[..|h|] == h;
  }

  lemma BestAppend(h: seq<Solve>, s: Solve)
    ensures Best(h + [s], s.problemId) ==
      if Best(h, s.problemId).Some? && Best(h, s.problemId).value <= s.codeLength then Best(h, s.problemId)
      else Some(s.codeLength)
  {
    assert (h + [s])[..|h|] == h;
  }

  lemma UnlistedNeverSolved(h: seq<Solve>, pid: nat)
    requires pid !in Problems(h)
    ensures Best(h, pid).None?
  {
  }

  lemma UpdateOnSolvedProblem(h: seq<Solve>, s: Solve)
    requires s.problemId in Problems(h)
    ensures AfterPass(Intended(h), Best(h, s.problemId), s.codeLength) == Intended(h + [s])
  {
    var pid := s.problemId;
    var ps := Problems(h);
    ProblemsAppend(h, s);
    BestAppend(h, s);
    SumBestChanged(h, s, ps);
    var b := Best(h, pid);
    assert b.Some?;
    var after := SumBest(h + [s], ps);
    if s.codeLength < b.value {
      assert after == SumBest(h, ps) - b.value + s.codeLength;
    } else {
      assert after == SumBest(h, ps);
    }
  }

  lemma UpdateOnNewProblem(h: seq<Solve>, s: Solve)
    requires s.problemId !in Problems(h)
    ensures AfterPass(Intended(h), Best(h, s.problemId), s.codeLength) == Intended(h + [s])
  {
    var pid := s.problemId;
    var ps := Problems(h);
    ProblemsAppend(h, s);
    BestAppend(h, s);
    UnlistedNeverSolved(h, pid);
    assert (ps + [pid])[..|ps|] == ps;
    SumBestOther(h, s, ps);
    assert SumBest(h + [s], ps + [pid]) == SumBest(h, ps) + s.codeLength;
  }

  /** The rule keeps the intended meaning of the figures, provided the previous
      best is taken over the passed submissions made before the current one. */
  lemma UpdatePreservesBestSum(h: seq<Solve>, s: Solve)
    ensures AfterPass(Intended(h), Best(h, s.problemId), s.codeLength) == Intended(h + [s])
  {
    if s.problemId in Problems(h) {
      UpdateOnSolvedProblem(h, s);
    } else {
      UpdateOnNewProblem(h, s);
    }
  }

  /** As wired, the previous-best query runs after the current submission has been
      stored as passed, so it always finds a length no greater than the current one
      and the rule changes neither figure. */
  lemma AsWiredChangesNeitherFigure(t: Totals, h: seq<Solve>, s: Solve)
    ensures AfterPass(t, Best(h + [s], s.problemId), s.codeLength) == t
  {
    assert (h + [s])[|h|] == s;
  }

  /** A concrete case: a user's first solve (length 5) leaves both figures at 0,
      although the intended figures are a score of 5 and one solved problem. */
  lemma AsWiredFirstSolveBreaksConsistency()
    ensures Intended([]) == Totals(0, 0)
    ensures Intended([Solve(1, 5)]) == Totals(5, 1)
    ensures AfterPass(Intended([]), Best([Solve(1, 5)], 1), 5) == Totals(0, 0)
  {
    assert [Solve(1, 5)][..0] == [];
  }

  /** As wired, a user without a `user_stats` row whose submission passes gets the
      `+=` `TypeError`: the previous best found is the pass itself. */
  lemma AsWiredMissingRowFault(h: seq<Solve>, s: Solve)
    ensures MissingRowFault(Best(h + [s], s.problemId), s.codeLength) == AugmentedAddOnNone
  {
    assert (h + [s])[|h|] == s;
  }

  /** The rule wired as the figures' definition requires: the previous best is
      read over the user's passed submissions `history` made before `s`, so a
      row whose figures matched `history` matches `history + [s]` afterwards,
      and a missing row starts from the column defaults. */
  method UpdateUserStatsBeforeCommit(existing: UserStats?, userId: nat, history: seq<Solve>, s: Solve)
    returns (stats: UserStats)
    requires existing != null ==> existing.userId == userId
    modifies existing
    ensures existing != null ==> stats == existing
    ensures existing == null ==> fresh(stats)
    ensures stats.userId == userId
    ensures (if existing == null then Totals(0, 0) else old(existing.Figures())) == Intended(history) ==>
      stats.Figures() == Intended(history + [s])
    ensures stats.totalSubmissions == (if existing == null then 0 else old(existing.totalSubmissions)) + 1
  {
    UpdatePreservesBestSum(history, s);
    if existing == null {
      stats := new UserStats(userId);
    } else {
      stats := existing;
    }
    stats.RecordPass(Best(history, s.problemId), s.codeLength);
  }

  /** A new best lowers the score by the improvement; any other repeat solve leaves it. */
  lemma AfterPassOnSolvedProblem(t: Totals, best: nat, codeLength: nat)
    ensures AfterPass(t, Some(best), codeLength).problemsSolved == t.problemsSolved
    ensures AfterPass(t, Some(best), codeLength).totalScore ==
      t.totalScore - (if codeLength < best then best - codeLength else 0)
  {
  }

  // ---------------------------------------------------------------------------
  // The background evaluation

  /** The stats step of `evaluate_submission` as wired: the previous-best query
      already sees the pass `s` itself. */
  method UpdateUserStatsAsWired(existing: UserStats?, userId: nat, history: seq<Solve>, s: Solve)
    returns (stats: UserStats, fault: Option<string>)
    requires existing != null ==> existing.userId == userId
    modifies existing
    ensures stats.userId == userId
    ensures fault == (if existing == null then Some(AugmentedAddOnNone) else None)
    ensures existing != null ==> stats == existing
    ensures existing != null ==>
      stats.Figures() == AfterPass(old(existing.Figures()), Best(history + [s], s.problemId), s.codeLength)
    ensures existing != null ==> stats.totalSubmissions == old(existing.totalSubmissions) + 1
    ensures existing == null ==> fresh(stats) && stats.Figures() == Totals(0, 0) && stats.totalSubmissions == 0
  {
    AsWiredMissingRowFault(history, s);
    stats, fault := UpdateUserStats(existing, userId, Best(history + [s], s.problemId), s.codeLength);
  }

  /** `evaluate_submission` as written. `history` holds the user's earlier passed
      submissions; the previous-best query runs after the current submission has
      been stored, so it sees `history + [Solve(problemId, codeLength)]`.
      `storeCommitFails` says the commit storing the evaluation's results
      raises: the session rolls back, the handler's own re-query raises on the
      rolled-back session, and the row keeps what the "running" commit stored.
      The `TypeError` that `update_user_stats` raises for a user without a
      `user_stats` row is caught by the handler, which stores status "error"
      with the message as the result. */
  method EvaluateSubmission(sub: Submission?, code: string, language: string,
                            testCases: map<string, seq<Evaluation.TestCase>>, env: Evaluation.Sandbox,
                            existingStats: UserStats?, history: seq<Solve>, storeCommitFails: bool)
    returns (stats: UserStats?)
    requires sub != null && existingStats != null ==> existingStats.userId == sub.userId
    modifies sub, existingStats
    ensures sub == null ==> stats == existingStats && (existingStats != null ==> unchanged(existingStats))
    ensures sub != null && storeCommitFails ==>
      && sub.status == Running && sub.statusTrail == old(sub.statusTrail) + [Running]
      && sub.result == old(sub.result) && sub.memoryUsage == old(sub.memoryUsage)
    ensures sub != null && !storeCommitFails ==>
      var run := Evaluation.Evaluate(code, language, testCases, env).result;
      var fault := run.status == Evaluation.Passed && existingStats == null;
      && sub.statusTrail == old(sub.statusTrail) + [Running, StatusOf(run.status)] + (if fault then [Error] else [])
      && sub.status == (if fault then Error else StatusOf(run.status))
      && sub.result == Some(if fault then Crashed(AugmentedAddOnNone) else Evaluated(run.testResults, run.errorMessage))
      && sub.memoryUsage == run.memoryUsage
    ensures sub != null ==>
      var run := Evaluation.Evaluate(code, language, testCases, env).result;
      if !storeCommitFails && run.status == Evaluation.Passed then
        && stats != null && stats.userId == sub.userId
        && (existingStats != null ==> stats == existingStats)
        && (existingStats != null ==>
              stats.Figures() == AfterPass(old(existingStats.Figures()), Best(history + [Solve(sub.problemId, sub.codeLength)], sub.problemId), sub.codeLength))
        && (existingStats != null ==> stats.totalSubmissions == old(existingStats.totalSubmissions) + 1)
        && (existingStats == null ==> fresh(stats) && stats.Figures() == Totals(0, 0) && stats.totalSubmissions == 0)
      else
        stats == existingStats && (existingStats != null ==> unchanged(existingStats))
  {
    stats := existingStats;
    if sub == null {
      return;
    }
    sub.status := Running;
    sub.statusTrail := sub.statusTrail + [Running];
    var r, calls := Evaluation.EvaluateCode(code, language, testCases, env);
    if storeCommitFails {
      return;
    }
    sub.status := StatusOf(r.status);
    sub.statusTrail := sub.statusTrail + [sub.status];
    sub.result := Some(Evaluated(r.testResults, r.errorMessage));
    sub.memoryUsage := r.memoryUsage;
    if r.status == Evaluation.Passed {
      var fault;
      stats, fault := UpdateUserStatsAsWired(existingStats, sub.userId, history, Solve(sub.problemId, sub.codeLength));
      if fault.Some? {
        sub.status := Error;
        sub.statusTrail := sub.statusTrail + [Error];
        sub.result := Some(Crashed(fault.value));
      }
    }
  }
}
