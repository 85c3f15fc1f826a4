# GolfPad grading and scoring, modelled in Dafny

GolfPad is a code-golf judge for grid puzzles. A user submits a program for a
problem. The evaluator writes it to a temporary directory and builds it when the
language needs a build. It then runs the program on the problem's `train` cases
and then its `test` cases, and stops at the first case that does not pass. A
passed submission's length feeds the user's statistics. Batch uploads store
every `taskNNN.py` file of a zip archive at once. The leaderboards rank users by
total length and rank submissions to one problem by their length.

This project models that core and proves its properties:

- `Evaluation` (`evaluation.dfy`) covers the language registry and the compile
  and run command templates. It also covers the classification of one test case
  and the train-then-test loop that stops early. Running a process is an oracle:
  a `Sandbox` holds a function from the written files and the call
  (argument list, input grid, timeout) to the run's result. The temporary
  directory is given as a `Result`. Every call the evaluator makes is logged, so
  "nothing runs" and "stops at the first failure" can be stated.
- `CodeGolfScoring` (`scoring.dfy`) covers the UTF-8 length score, the python
  line counts, format validation and the comparison of two submissions.
- `Submissions` (`submissions.dfy`) covers the submission record and its status
  changes, the `update_user_stats` rule on a `UserStats` object, and what
  `total_score` and `problems_solved` are meant to be: the sum of the best
  lengths of the solved problems, and their number.
- `Batch` (`batch.dfy`) covers the upload check, the owner-checked status
  lookup, the file-name filter, the task-id round trip, and the accumulating
  loop of `process_zip_file` on a `BatchSubmission` object.
- `Leaderboard` (`leaderboard.dfy`) covers the global board, the per-problem
  board and the rank update on `UserStats` objects. `Ordering`
  (`ordering.dfy`) holds the SQL `WHERE` and `ORDER BY` they use.
- `Records`, `Text` and `Wrappers` hold the shared status type and HTTP error,
  Python's string operations (`strip`, `split`, `count`, `replace`, `join`,
  UTF-8 length), and `Option`/`Result`.

A submission's score is its code length, and each user keeps their shortest
pass per problem.

## Model

| member | source | states |
|---|---|---|
| Evaluation.LanguageConfigFor | backend/evaluation.py:16-50 | exactly the six languages have a configuration; a language has a compile template iff it has no interpreter command, and then also has a run template; the timeout is 15 for java and rust and 10 for the others |
| Evaluation.BuildCompileCommand | backend/evaluation.py:77-86 | the built compile command has one part per template part, each being that part with its first present placeholder kind substituted |
| Evaluation.CompilePartKeepsLaterKind | backend/evaluation.py:78-86 | a part holding `{source}` keeps every `{output}` it holds: only the first placeholder kind is replaced |
| Evaluation.RunPartKeepsLaterKind | backend/evaluation.py:168-177 | a run part holding `{output}` keeps every `{dir}` it holds |
| Evaluation.KeepsPlainCompilePart | backend/evaluation.py:85-86 | a compile part holding none of `{source}`, `{output}`, `{dir}` is copied unchanged |
| Evaluation.KeepsPlainRunPart | backend/evaluation.py:176-177 | a run part holding none of `{output}`, `{dir}`, `{classname}` is copied unchanged |
| Evaluation.KeepsBraceFreePart | backend/evaluation.py:85-86 | a part without `{`, such as a compiler flag, is copied unchanged in the compile and in the run command |
| Evaluation.SourcePart | backend/evaluation.py:79-80 | the part `{source}` becomes the source path |
| Evaluation.OutputPart | backend/evaluation.py:81-82 | the part `{output}` becomes the executable path, in the compile and in the run command |
| Evaluation.DirPart | backend/evaluation.py:171-172 | the run part `{dir}` becomes the directory passed for the source file |
| Evaluation.ClassnamePart | backend/evaluation.py:173-175 | the run part `{classname}` becomes `solution` |
| Evaluation.PlaceholderOnlyAtStart | backend/evaluation.py:79-84 | in a part whose only `{` is its first character, a placeholder occurs in it iff it starts it |
| Evaluation.ReplaceWhole | backend/evaluation.py:80 | replacing a whole part that is a placeholder yields the replacement |
| Evaluation.BuildRunCommand | backend/evaluation.py:163-182 | the loop builds the run command the registry entry calls for: the interpreter command plus the source file, or the substituted run template; a missing `command` key gives the `KeyError` message |
| Evaluation.DirnameOfJoin | backend/evaluation.py:169-172 | the directory of a file joined onto a directory is that directory, so `{dir}` in the run command is the temporary directory |
| Evaluation.LastSlashOfJoin | backend/evaluation.py:169-172 | the last `/` of `dir + "/" + name` is the joining one when the name holds no `/` |
| Evaluation.CppCommands | backend/evaluation.py:27-32 | C++ compiles with `g++ -o exe source -std=c++17` and runs `exe` |
| Evaluation.RustCommands | backend/evaluation.py:44-49 | Rust compiles with `rustc source -o exe` and runs `exe` |
| Evaluation.JavaCommands | backend/evaluation.py:33-38 | Java compiles with `javac source` and runs `java -cp <directory of source> solution` |
| Evaluation.InterpretedCommands | backend/evaluation.py:180-182 | python, javascript and go run their command followed by the source file |
| Evaluation.Classify | backend/evaluation.py:193-227 | a case passes iff the return code is 0 and the parsed output equals the expected grid; a non-zero code fails with stderr; unparseable output fails with the "Invalid JSON output" message; a wrong grid fails carrying both grids; only a pass carries memory |
| Evaluation.TimeoutFailsCase | backend/evaluation.py:262-270 | a run that timed out fails its case with "Execution timeout" |
| Evaluation.RunTestCase | backend/evaluation.py:154-234 | the case outcome is the classification of the one run made, or "error" with the `KeyError` message and no run when the case lacks `input` or `output` |
| Evaluation.OutcomeMemoryOnlyWhenPassed | backend/evaluation.py:213-234 | an outcome has a memory figure only when it passed |
| Evaluation.FirstNonPassed | backend/evaluation.py:108-116 | the index of the first result that did not pass: all before it passed, the one at it did not |
| Evaluation.PeakMemory | backend/evaluation.py:118-119 | the folded maximum bounds the memory of every result |
| Evaluation.RunGroup | backend/evaluation.py:104-119 | one group's loop stops at its first non-passing case with the results up to it, or visits the whole group |
| Evaluation.RunTestLoop | backend/evaluation.py:97-145 | the loop over `train` then `test` returns the result and the runs of `RunCases` over the cases in that order |
| Evaluation.EvaluateCode | backend/evaluation.py:52-152 | `evaluate_code` returns the specified evaluation and makes exactly the specified runs |
| Evaluation.EvaluateErrorIffAborted | backend/evaluation.py:56-95 | the status is "error" iff evaluation stopped before the test loop, and then there are no test results and there is a message |
| Evaluation.UnsupportedLanguageRunsNothing | backend/evaluation.py:56-61 | an unknown language gives "error", no results, "Unsupported language: " + language, and no run |
| Evaluation.CompileFailureRunsNoTests | backend/evaluation.py:88-95 | a failed build gives "error", no results, a message starting "Compilation failed: ", and only the build ran, with timeout 30 and no input |
| Evaluation.EvaluateVerdict | backend/evaluation.py:103-145 | "passed" iff every train-then-test case passed, with one result per case in order; otherwise "failed" with the results up to and including the first case that did not pass |
| Evaluation.EvaluateMemoryBound | backend/evaluation.py:118-119 | the reported memory is at least the memory of every reported case |
| Evaluation.EvaluateCalls | backend/evaluation.py:97-190 | the build, if any, comes first; then there are no more runs than reported results, so no case after the first one that did not pass is run, and the j-th test run has the language's timeout and the j-th case's input |
| Evaluation.CallsOfShape | backend/evaluation.py:186-190 | the test runs are at most one per case, each with the configured timeout and an input |
| Evaluation.EvaluateIgnoresOtherKeys | backend/evaluation.py:103-122 | keys of the test-case dictionary other than `train` and `test` change nothing |
| Evaluation.CasesInOrderShape | backend/evaluation.py:103-125 | the visiting order is the train cases named `train_i`, then the test cases named `test_i` |
| Records.StatusOf | backend/routers/submissions.py:77 | the stored status is "passed", "failed" or "error" exactly when the verdict is |
| CodeGolfScoring.CalculateCodeScore | backend/code_golf_scoring.py:10-63 | the score is the UTF-8 byte length for every language and at least the character count; only python reports a line count (newlines of the stripped code plus one) and an effective length (stripped non-blank non-comment lines joined), which never exceeds the byte length |
| CodeGolfScoring.CollectEffectiveLines | backend/code_golf_scoring.py:35-39 | the loop keeps the stripped lines that are neither empty nor comments, in order |
| CodeGolfScoring.EffectiveCodeNoLonger | backend/code_golf_scoring.py:35-42 | dropping and stripping lines never lengthens the encoded text |
| CodeGolfScoring.EffectiveLines | backend/code_golf_scoring.py:36-39 | every kept line is non-empty and not a comment, and there are no more of them than lines |
| CodeGolfScoring.CountTrailingBlankLines | backend/code_golf_scoring.py:141-147 | the reversed loop with `break` counts exactly the whitespace-only lines at the end |
| CodeGolfScoring.TrailingBlankCount | backend/code_golf_scoring.py:142-147 | the last n lines are blank and the one before them is not |
| CodeGolfScoring.ValidateSubmissionFormat | backend/code_golf_scoring.py:116-164 | valid iff submittable iff no issues; python gets an issue for blank code and for an odd count of either triple quote, and warnings for more than two trailing blank lines and for a tab together with two spaces; other languages get nothing |
| CodeGolfScoring.CompareSubmissions | backend/code_golf_scoring.py:166-193 | the improvement is the first score minus the second; the first is better iff strictly shorter, so a tie goes to the second |
| Text.Utf8LengthAtLeastChars | backend/code_golf_scoring.py:25-28 | the UTF-8 length is at least the number of characters |
| Text.StripEmptyIffAllSpace | backend/code_golf_scoring.py:133 | stripping leaves nothing iff the text is all whitespace |
| Text.SplitPieces | backend/code_golf_scoring.py:31-32 | splitting on a separator gives one more piece than separators, none holding it |
| Text.JoinSplit | backend/code_golf_scoring.py:31-41 | joining the pieces of a split gives back the text |
| Text.ReplaceAbsent | backend/evaluation.py:80-84 | replacing a placeholder that does not occur changes nothing |
| Text.ReplaceLength | backend/evaluation.py:80-84 | each replacement changes the length by the difference of the two lengths |
| Text.ReplaceKeepsOtherPlaceholder | backend/evaluation.py:79-84 | replacing one placeholder keeps every occurrence of another one |
| Text.CountZeroIffAbsent | backend/code_golf_scoring.py:137 | a pattern counts zero times iff it does not occur |
| Submissions.SubmitCode | backend/routers/submissions.py:27-46 | 404 "Problem not found" for an unknown problem, else a new record with the given id, user, problem, language and code, its character count as length, status "pending" with a trail of just "pending", and no result or memory figure |
| Submissions.InteractiveLengthAtMostBatchLength | backend/routers/submissions.py:33 | the interactive length (characters) never exceeds the batch length (UTF-8 bytes), and they agree on ASCII code |
| Submissions.UserStats.RecordPass | backend/routers/submissions.py:116-126 | the figures change as the rule says, `total_submissions` grows by one, the rank is untouched |
| Submissions.MissingRowFault | backend/routers/submissions.py:116-126 | on a row whose figures are `None`, the rule raises the `-` `TypeError` exactly when the pass improves on a previous best, and the `+=` one otherwise |
| Submissions.UpdateUserStats | backend/routers/submissions.py:101-127 | a loaded row receives the rule for one passed submission, one more submission and its rank kept; a missing row is constructed with `None` figures, the rule raises its `TypeError`, and the row the session inserts later holds the column defaults 0, 0, 0 |
| Submissions.AsWiredMissingRowFault | backend/routers/submissions.py:105-126 | as wired, the previous-best query finds the pass itself, so a user without a stats row always gets the `+=` `TypeError` |
| Submissions.UpdateUserStatsAsWired | backend/routers/submissions.py:87-126 | the stats step with the pass already stored: a loaded row gets the rule with the best over the history plus the pass, a missing row gives the `+=` `TypeError` and a row of defaults |
| Submissions.AfterPassOnSolvedProblem | backend/routers/submissions.py:117-124 | on a solved problem the count stays; the score drops by the improvement when the new length is shorter and stays otherwise |
| Submissions.Best | backend/routers/submissions.py:110-114 | the shortest passed length for a problem, none iff it was never solved |
| Submissions.Problems | backend/models.py:65-66 | each solved problem once, each with a best length |
| Submissions.UpdatePreservesBestSum | backend/routers/submissions.py:110-124 | fed the best over the earlier passes, the rule turns the figures of a history into the figures of that history plus the new pass |
| Submissions.UpdateOnSolvedProblem | backend/routers/submissions.py:122-124 | the rule keeps the best-sum figures when the problem was solved before |
| Submissions.UpdateOnNewProblem | backend/routers/submissions.py:119-121 | the rule keeps the best-sum figures on a first solve |
| Submissions.SumBestChanged | backend/models.py:65 | a new pass changes the best sum only through its own problem's best |
| Submissions.UpdateUserStatsBeforeCommit | backend/routers/submissions.py:101-127 | with the previous best read before the new pass is stored and a missing row started from the column defaults, a row matching a history matches it plus the new pass |
| Submissions.AsWiredChangesNeitherFigure | backend/routers/submissions.py:77-124 | as wired, the previous best already includes the current pass, so neither figure ever changes |
| Submissions.AsWiredFirstSolveBreaksConsistency | backend/routers/submissions.py:77-121 | a first solve of length 5 leaves the figures at (0, 0) where they should be (5, 1) |
| Submissions.EvaluateSubmission | backend/routers/submissions.py:59-99 | status goes from its earlier trail to running, then the verdict's status, with the results and memory stored; a passed submission whose user has no stats row then ends "error" with the `TypeError` message as the result; when the commit storing the results fails, the row keeps status running with its earlier result and memory; the stats rule runs only for a stored pass, with the previous best over the history including the pass |
| Batch.UploadBatchSubmission | backend/routers/batch_submissions.py:30-42 | 400 with the ZIP message unless the name ends in ".zip", else a new record with the given id, status "processing", zero counts and score, and no error message |
| Batch.FindBatch | backend/routers/batch_submissions.py:62-65 | the first batch with both the id and the owner, none iff there is none |
| Batch.GetBatchStatus | backend/routers/batch_submissions.py:62-77 | 404 with the not-found message iff no batch has both the id and the owner; otherwise that batch's view |
| Batch.TaskFileNameExamples | backend/routers/batch_submissions.py:118 | `task001.py` and `task042.pyc.py` are selected; `task01.py`, `mytask001.py` and `task001.pyc` are not |
| Batch.TaskFiles | backend/routers/batch_submissions.py:115-119 | exactly the entries with task-file names are selected |
| Batch.SelectTaskFiles | backend/routers/batch_submissions.py:115-119 | the loop selects exactly the specified files, in walk order |
| Batch.TaskIdRoundTrip | backend/routers/batch_submissions.py:131-137 | "task" + the three digits read as a number and padded to three digits is the name's first seven characters |
| Batch.ExtractTaskId | backend/routers/batch_submissions.py:131-137 | the task id computed for a selected file is its first seven characters |
| Batch.StoreFor | backend/routers/batch_submissions.py:139-161 | a file is stored iff its task id names a problem and its text is readable |
| Batch.Stored | backend/routers/batch_submissions.py:128-169 | at most one row per file, each for a known problem, as python, with status "completed" and its UTF-8 length |
| Batch.StoredProvenance | backend/routers/batch_submissions.py:140-161 | every stored row carries the code and the byte length of a storable file |
| Batch.StoredCount | backend/routers/batch_submissions.py:139-166 | exactly one row is stored per storable file |
| Batch.StorableStored | backend/routers/batch_submissions.py:139-163 | every storable file's row is among the stored rows |
| Batch.UnstorableSkipped | backend/routers/batch_submissions.py:139-169 | a file with an unknown task id or unreadable text makes fewer rows than files |
| Batch.PythonScore | backend/routers/batch_submissions.py:149-150 | the stored length is the UTF-8 byte length |
| Batch.StoreTaskFiles | backend/routers/batch_submissions.py:124-169 | the loop stores the specified rows, counts them, and sums their lengths |
| Batch.ProcessZipFile | backend/routers/batch_submissions.py:94-181 | on an archive failure the batch is "failed" with the message; otherwise the totals are the file count, the stored count (the number of storable files, at most the file count) and the summed lengths, and the status is "completed" |
| Ordering.Filter | backend/routers/leaderboard.py:27-28 | the kept rows are exactly the input rows satisfying the condition, and no row is repeated more than in the input |
| Ordering.FilterAgrees | backend/routers/leaderboard.py:84-85 | two conditions that agree on every row keep the same rows |
| Ordering.Insert | backend/routers/leaderboard.py:29-31 | inserting into an ordered sequence keeps it ordered and adds exactly the new row |
| Ordering.SortByKey | backend/routers/leaderboard.py:29-31 | the result is ordered by the key and is a permutation of the input |
| Ordering.SortedMembers | backend/routers/leaderboard.py:29-31 | every input row is in the ordered result and every ordered row is an input row |
| Leaderboard.NumberRows | backend/routers/leaderboard.py:34-43 | the loop numbers the first `limit` rows from 1 |
| Leaderboard.Numbered | backend/routers/leaderboard.py:32-43 | at most `limit` entries, the i-th being row i with rank i + 1 |
| Leaderboard.GetGlobalLeaderboard | backend/routers/leaderboard.py:16-43 | 422 for a limit outside 1..100, otherwise the numbered ranking |
| Leaderboard.GlobalBoardRanks | backend/routers/leaderboard.py:27-35 | at most `limit` entries, ranks 1..n, only users who solved something |
| Leaderboard.GlobalBoardOrdered | backend/routers/leaderboard.py:29-31 | entries ordered by total score ascending, then problems solved descending |
| Leaderboard.GlobalBoardFromRows | backend/routers/leaderboard.py:23-41 | every entry shows the figures of a user who solved something |
| Leaderboard.GlobalBoardComplete | backend/routers/leaderboard.py:23-32 | a user who solved something is missing only from a full board, behind its last entry |
| Leaderboard.RankedSolver | backend/routers/leaderboard.py:27-31 | every user who solved something has a place in the ranking |
| Leaderboard.GetProblemLeaderboard | backend/routers/leaderboard.py:45-109 | 422 for a limit outside 1..50, then 404 "Problem not found" for an unknown problem, otherwise the numbered ranking |
| Leaderboard.MinLength | backend/routers/leaderboard.py:76-87 | the shortest eligible length of a user, none iff the user has no eligible submission |
| Leaderboard.ProblemBoardShowsBest | backend/routers/leaderboard.py:60-93 | every entry is a passed submission to the problem, in the requested language when one is given, at its author's shortest such length |
| Leaderboard.ProblemBoardOrdered | backend/routers/leaderboard.py:94-100 | at most `limit` entries, ranks from 1, ordered by length and then by submission time |
| Leaderboard.ProblemBoardComplete | backend/routers/leaderboard.py:89-97 | a user's shortest passed submission is missing only from a full board, behind its last entry |
| Leaderboard.EmptyLanguageFiltersNothing | backend/routers/leaderboard.py:70-85 | an empty language parameter gives the same board as none |
| Leaderboard.MinLengthUnfiltered | backend/routers/leaderboard.py:84-85 | an empty language parameter does not change any user's minimum |
| Leaderboard.TiedSubmissionsBothListed | backend/routers/leaderboard.py:89-97 | two passes by one user at the same shortest length are both listed, earlier first |
| Leaderboard.RankIn | backend/routers/leaderboard.py:177-180 | the rank the loop leaves for a user: one plus its last position in the order, none iff it is absent |
| Leaderboard.FindStats | backend/routers/leaderboard.py:178 | the first row with the user id, none iff there is none |
| Leaderboard.SetRank | backend/routers/leaderboard.py:178-180 | the user's row takes the rank; other rows and other columns are untouched |
| Leaderboard.AssignRanks | backend/routers/leaderboard.py:177-180 | after the loop every row's rank is its rank in the order, or its old rank when absent |
| Leaderboard.UpdateUserRanks | backend/routers/leaderboard.py:161-187 | every ranked user's row gets its rank in the order read beforehand, others keep theirs, no other column changes, and the count is the order's length |
| Leaderboard.RankOrderDistinct | backend/routers/leaderboard.py:165-174 | with unique user ids no user appears twice in the order |
| Leaderboard.RankIsPosition | backend/routers/leaderboard.py:177 | without repeats each user's rank is their position plus one |
| Leaderboard.RankedIffSolved | backend/routers/leaderboard.py:169-170 | a user is ranked iff they solved something |
| Leaderboard.RankUpdateAssignsPositions | backend/routers/leaderboard.py:165-180 | the ranks written are 1..n in the order, and exactly the users who solved something get one |

## Left out

- Running processes (`run_command`, `set_limits`) is an oracle. A run's result is whatever the `Sandbox` function returns for the written files and the call. Resource limits, killing and the exceptions inside `run_command` are not modelled.
- Wall-clock timing (`execution_time`, `total_time`) and `improvement_percent` are left out because they are floating point.
- JSON encoding of the input and decoding of stdout are not modelled. A run's stdout comes with its decoded grid, or `None` when it is not valid JSON.
- The temporary directory and the file write are left out. They are one `Result`: a failure gives status "error" with its message. Zip extraction and `os.walk` are given as the extracted entry list, or the message of the failure.
- `calculate_file_score` is file I/O.
- `get_language_leaderboard` is left out: its correlated subquery has no defined meaning to model.
- Users, problems, authentication and the listing routes are not part of this model.
- Batch.IsTaskFileName: `\d` is read as an ASCII digit; Python's `re` also accepts other Unicode decimal digits.
- The SQL leaves the order of rows with equal keys open. Ordering.SortByKey keeps such rows in input order.
- Submissions.EvaluateSubmission: the faults modelled are a failing commit of the results, after which the rolled-back session makes the handler's re-query raise and the row stays "running", and the `TypeError` of a missing stats row; other exceptions are not modelled.
- The two loops of `evaluate_code` are identical but for the group. Evaluation.RunGroup models both, and Evaluation.RunTestLoop calls it for `train` and then `test`.
- Evaluation.Classify: the JSON comparison is on integer grids; other JSON values in the expected output are not modelled.
- Leaderboard.GetGlobalLeaderboard: the 422 response body of FastAPI's validation is reduced to the name of the parameter.
- Leaderboard.UpdateUserRanks requires unique user ids, as the `user_stats.user_id` column is unique.
- Database sessions and commits are not modelled; each handler's effect is stated on the rows it reads and writes.

## Findings

| source | as written | input that shows it | evidently intended | confidence | as-written member | corrected member |
|---|---|---|---|---|---|---|
| backend/routers/submissions.py:77-124 | `evaluate_submission` commits the submission as "passed" before `update_user_stats` looks up the user's previous best, so the lookup always finds a best no longer than the new length | a user's first passed submission to problem 1, of length 5, with stats (0, 0): the stats stay (0, 0) | the previous best is taken over the user's earlier passes, giving (5, 1) and keeping `total_score` the sum of best lengths (backend/models.py:65) | not executed | Submissions.AsWiredFirstSolveBreaksConsistency | Submissions.UpdateUserStatsBeforeCommit |
| backend/routers/submissions.py:105-126 | a missing `user_stats` row is constructed in Python, where its figures are `None` until the INSERT applies the column defaults, so the first `+=` raises `TypeError` and the passed submission is recorded as "error" | a user whose stats row was never committed (registration commits the user and the row separately, backend/routers/users.py:89-95) submits a passing solution | the missing row starts from the column defaults of backend/models.py:65-67 and the pass is counted | not executed | Submissions.AsWiredMissingRowFault | Submissions.UpdateUserStatsBeforeCommit |
