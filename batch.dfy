/** Batch uploads of backend/routers/batch_submissions.py: the upload check, the
    owner-scoped status lookup, and `process_zip_file`, which selects the task
    files of an extracted archive and stores one submission per known task. The
    archive is given already extracted, as a list of entries in walk order. */
module Batch {
  import opened Wrappers
  import opened Text
  import Records
  import CodeGolfScoring

  datatype BatchStatus = Processing | Completed | Failed

  class BatchSubmission {
    const id: nat
    const userId: nat
    const filename: string
    var totalProblems: nat
    var processedProblems: nat
    var totalScore: nat
    var status: BatchStatus
    var errorMessage: Option<string>

    /** A new record with the column defaults and status "processing". */
    constructor (id: nat, userId: nat, filename: string)
      ensures this.id == id && this.userId == userId && this.filename == filename
      ensures totalProblems == 0 && processedProblems == 0 && totalScore == 0
      ensures status == Processing && errorMessage == None
    {
      this.id := id;
      this.userId := userId;
      this.filename := filename;
      totalProblems := 0;
      processedProblems := 0;
      totalScore := 0;
      status := Processing;
      errorMessage := None;
    }
  }

  /** `upload_batch_submission`: 400 unless the name ends in ".zip", otherwise a
      new record in status "processing". */
  method UploadBatchSubmission(id: nat, userId: nat, filename: string)
    returns (r: Result<BatchSubmission, Records.HttpError>)
    ensures r.Failure? <==> !EndsWith(filename, ".zip")
    ensures r.Failure? ==> r.error == Records.HttpError(400, "只支持ZIP文件格式 📁")
    ensures r.Success? ==> fresh(r.value) && r.value.userId == userId && r.value.filename == filename
    ensures r.Success? ==> r.value.id == id && r.value.status == Processing && r.value.errorMessage == None
    ensures r.Success? ==> r.value.totalProblems == 0 && r.value.processedProblems == 0 && r.value.totalScore == 0
  {
    if !EndsWith(filename, ".zip") {
      return Failure(Records.HttpError(400, "只支持ZIP文件格式 📁"));
    }
    var batch := new BatchSubmission(id, userId, filename);
    r := Success(batch);
  }

  /** What the status route returns. */
  datatype StatusView = StatusView(
    id: nat,
    status: BatchStatus,
    processedProblems: nat,
    totalProblems: nat,
    totalScore: nat,
    errorMessage: Option<string>)

  function ViewOf(b: BatchSubmission): StatusView
    reads b
  {
    StatusView(b.id, b.status, b.processedProblems, b.totalProblems, b.totalScore, b.errorMessage)
  }

  /** The index of the first batch with this id and owner. */
  function FindBatch(batches: seq<BatchSubmission>, batchId: nat, userId: nat): (k: Option<nat>)
    ensures k.None? <==> forall i :: 0 <= i < |batches| ==> !(batches[i].id == batchId && batches[i].userId == userId)
    ensures k.Some? ==> k.value < |batches| && batches[k.value].id == batchId && batches[k.value].userId == userId
    ensures k.Some? ==> forall i :: 0 <= i < k.value ==> !(batches[i].id == batchId && batches[i].userId == userId)
  {
    if |batches| == 0 then None
    else if batches[0].id == batchId && batches[0].userId == userId then Some(0)
    else match FindBatch(batches[1..], batchId, userId)
      case None => None
      case Some(j) => Some(j + 1)
  }

  /** `get_batch_status`: the batch only when both id and owner match, else 404. */
  function GetBatchStatus(batches: seq<BatchSubmission>, batchId: nat, userId: nat)
    : (r: Result<StatusView, Records.HttpError>)
    reads set b | b in batches
    ensures r.Failure? <==> forall i :: 0 <= i < |batches| ==> !(batches[i].id == batchId && batches[i].userId == userId)
    ensures r.Failure? ==> r.error == Records.HttpError(404, "批量提交记录未找到 ❌")
    ensures r.Success? ==> r.value.id == batchId
    ensures r.Success? ==>
      exists i :: 0 <= i < |batches| && batches[i].userId == userId && r.value == ViewOf(batches[i])
  {
    match FindBatch(batches, batchId, userId)
    case None => Failure(Records.HttpError(404, "批量提交记录未找到 ❌"))
    case Some(k) =>
      Success(ViewOf(batches[k]))
  }

  // ---------------------------------------------------------------------------
  // Task file names

  predicate IsAsciiDigit(c: char) {
    '0' <= c <= '9'
  }

  /** The filter on a walked file name: it ends in ".py" and `task\d{3}\.py`
      matches at its start (digits restricted to ASCII). */
  predicate IsTaskFileName(name: string) {
    && EndsWith(name, ".py")
    && |name| >= 10
    && name[..4] == "task"
    && IsAsciiDigit(name[4]) && IsAsciiDigit(name[5]) && IsAsciiDigit(name[6])
    && name[7..10] == ".py"
  }

  function DigitValue(c: char): nat
    requires IsAsciiDigit(c)
  {
    (c as int - '0' as int) as nat
  }

  /** `f"{n:03d}"` for `n < 1000`. */
  function ZeroPad3(n: nat): (r: string)
    requires n < 1000
    ensures |r| == 3 && forall i :: 0 <= i < 3 ==> IsAsciiDigit(r[i])
  {
    [DigitChar(n / 100), DigitChar(n / 10 % 10), DigitChar(n % 10)]
  }

  /** `"task" + f"{int(digits):03d}"` for a selected file name. */
  function TaskIdOf(name: string): string
    requires IsTaskFileName(name)
  {
    "task" + ZeroPad3(100 * DigitValue(name[4]) + 10 * DigitValue(name[5]) + DigitValue(name[6]))
  }

  lemma DigitCharOfValue(c: char)
    requires IsAsciiDigit(c)
    ensures DigitChar(DigitValue(c)) == c
  {
  }

  lemma ThreeDigits(a: nat, b: nat, c: nat)
    requires a < 10 && b < 10 && c < 10
    ensures (100 * a + 10 * b + c) / 100 == a
    ensures (100 * a + 10 * b + c) / 10 % 10 == b
    ensures (100 * a + 10 * b + c) % 10 == c
  {
    var n := 100 * a + 10 * b + c;
    assert n == 100 * a + (10 * b + c) && 0 <= 10 * b + c < 100;
    assert n == 10 * (10 * a + b) + c;
    assert n / 10 == 10 * a + b;
  }

  /** The task id rebuilt from the digits is the file name's first seven characters. */
  lemma TaskIdRoundTrip(name: string)
    requires IsTaskFileName(name)
    ensures TaskIdOf(name) == name[..7]
  {
    var a, b, c := DigitValue(name[4]), DigitValue(name[5]), DigitValue(name[6]);
    ThreeDigits(a, b, c);
    DigitCharOfValue(name[4]);
    DigitCharOfValue(name[5]);
    DigitCharOfValue(name[6]);
    assert ZeroPad3(100 * a + 10 * b + c) == [name[4], name[5], name[6]];
    assert name[..7] == name[..4] + [name[4], name[5], name[6]];
  }

  /** The task id `process_zip_file` derives from a selected file name: the number
      is parsed and formatted back with three digits, which gives the name's
      first seven characters again. */
  method ExtractTaskId(filename: string) returns (taskId: string)
    requires IsTaskFileName(filename)
    ensures taskId == filename[..7]
  {
    var taskNum := 100 * DigitValue(filename[4]) + 10 * DigitValue(filename[5]) + DigitValue(filename[6]);
    taskId := "task" + ZeroPad3(taskNum);
    TaskIdRoundTrip(filename);
  }

  /** The match is anchored only at the start: a longer name that still ends in
      ".py" is selected; a shorter number or a prefix before "task" is not. */
  lemma TaskFileNameExamples()
    ensures IsTaskFileName("task001.py")
    ensures IsTaskFileName("task042.pyc.py")
    ensures !IsTaskFileName("task01.py")
    ensures !IsTaskFileName("mytask001.py")
    ensures !IsTaskFileName("task001.pyc")
  {
    assert "task042.pyc.py"[11..] == ".py";
    assert "mytask001.py"[..4] != "task" by { assert "mytask001.py"[0] != 't'; }
    assert "task001.pyc"[8..] != ".py" by { assert "task001.pyc"[10] != 'y'; }
  }

  // ---------------------------------------------------------------------------
  // Processing an archive

  /** One extracted file: its directory, its name and its text, or the message of
      the exception raised reading it as UTF-8. */
  datatype ArchiveEntry = ArchiveEntry(directory: string, filename: string, content: Result<string, string>)

  /** The selected task files, in walk order. */
  function TaskFiles(entries: seq<ArchiveEntry>): (r: seq<ArchiveEntry>)
    ensures |r| <= |entries|
    ensures forall e :: e in r <==> e in entries && IsTaskFileName(e.filename)
  {
    if |entries| == 0 then []
    else
      var rest := TaskFiles(entries[..|entries| - 1]);
      var e := entries[|entries| - 1];
      if IsTaskFileName(e.filename) then rest + [e] else rest
  }

  /** The loop collecting `task_files`. */
  method SelectTaskFiles(entries: seq<ArchiveEntry>) returns (taskFiles: seq<ArchiveEntry>)
    ensures taskFiles == TaskFiles(entries)
  {
    taskFiles := [];
    var i := 0;
    while i < |entries|
      invariant 0 <= i <= |entries|
      invariant taskFiles == TaskFiles(entries[..i])
    {
      assert entries[..i + 1][..i] == entries[..i];
      if IsTaskFileName(entries[i].filename) {
        taskFiles := taskFiles + [entries[i]];
      }
      i := i + 1;
    }
    assert entries[..i] == entries;
  }

  /** A stored batch submission. */
  datatype StoredSubmission = StoredSubmission(
    userId: nat,
    problemId: nat,
    batchSubmissionId: nat,
    language: string,
    code: string,
    codeLength: nat,
    status: Records.Status)

  /** The submission stored for one task file, or `None` when the file is skipped
      (no problem with that task id, or its text cannot be read). The task id is
      the name's first seven characters (`TaskIdRoundTrip`). */
  function StoreFor(e: ArchiveEntry, tasks: map<string, nat>, userId: nat, batchId: nat)
    : (r: Option<StoredSubmission>)
    requires IsTaskFileName(e.filename)
    ensures r.Some? <==> Storable(e, tasks)
  {
    var taskId := e.filename[..7];
    if taskId !in tasks || e.content.Failure? then None
    else Some(StoredSubmission(userId, tasks[taskId], batchId, "python", e.content.value,
                               Utf8Length(e.content.value), Records.Completed))
  }

  /** Everything stored for the selected files, in order. */
  function Stored(files: seq<ArchiveEntry>, tasks: map<string, nat>, userId: nat, batchId: nat)
    : (r: seq<StoredSubmission>)
    requires forall e :: e in files ==> IsTaskFileName(e.filename)
    ensures |r| <= |files|
    ensures forall s :: s in r ==>
      && s.userId == userId && s.batchSubmissionId == batchId
      && s.language == "python" && s.status == Records.Completed
      && s.codeLength == Utf8Length(s.code)
      && s.problemId in tasks.Values
  {
    if |files| == 0 then []
    else
      var rest := Stored(files[..|files| - 1], tasks, userId, batchId);
      match StoreFor(files[|files| - 1], tasks, userId, batchId)
      case None => rest
      case Some(s) => rest + [s]
  }

  function SumLengths(stored: seq<StoredSubmission>): nat {
    if |stored| == 0 then 0 else SumLengths(stored[..|stored| - 1]) + stored[|stored| - 1].codeLength
  }

  /** A task file is stored when its task id names a problem and its text is readable. */
  predicate Storable(e: ArchiveEntry, tasks: map<string, nat>)
    requires IsTaskFileName(e.filename)
  {
    e.filename[..7] in tasks && e.content.Success?
  }

  /** Every stored row comes from a storable file: its code is that file's text
      and its problem is the one the file's task id names. */
  lemma {:induction false} StoredProvenance(files: seq<ArchiveEntry>, tasks: map<string, nat>, userId: nat,
                                            batchId: nat)
    requires forall e :: e in files ==> IsTaskFileName(e.filename)
    ensures forall s :: s in Stored(files, tasks, userId, batchId) ==>
      exists e :: e in files && IsTaskFileName(e.filename) && Storable(e, tasks) &&
        s.code == e.content.value && s.problemId == tasks[e.filename[..7]]
  {
    if |files| > 0 {
      var init := files[..|files| - 1];
      var last := files[|files| - 1];
      assert forall e :: e in init ==> e in files;
      assert last in files;
      StoredProvenance(init, tasks, userId, batchId);
    }
  }

  /** How many of `files` are storable. */
  function CountStorable(files: seq<ArchiveEntry>, tasks: map<string, nat>): (n: nat)
    requires forall e :: e in files ==> IsTaskFileName(e.filename)
    ensures n <= |files|
  {
    if |files| == 0 then 0
    else
      var init := files[..|files| - 1];
      assert forall e :: e in init ==> e in files;
      CountStorable(init, tasks) + (if Storable(files[|files| - 1], tasks) then 1 else 0)
  }

  /** Exactly one row is stored per storable file. */
  lemma {:induction false} StoredCount(files: seq<ArchiveEntry>, tasks: map<string, nat>, userId: nat,
                                       batchId: nat)
    requires forall e :: e in files ==> IsTaskFileName(e.filename)
    ensures |Stored(files, tasks, userId, batchId)| == CountStorable(files, tasks)
  {
    if |files| > 0 {
      var init := files[..|files| - 1];
      assert forall e :: e in init ==> e in files;
      StoredCount(init, tasks, userId, batchId);
    }
  }

  /** Every storable file's row is stored. */
  lemma {:induction false} StorableStored(files: seq<ArchiveEntry>, tasks: map<string, nat>, userId: nat,
                                          batchId: nat, k: nat)
    requires forall e :: e in files ==> IsTaskFileName(e.filename)
    requires k < |files| && Storable(files[k], tasks)
    ensures StoreFor(files[k], tasks, userId, batchId).value in Stored(files, tasks, userId, batchId)
  {
    var init := files[..|files| - 1];
    assert forall e :: e in init ==> e in files;
    if k < |files| - 1 {
      assert init[k] == files[k];
      StorableStored(init, tasks, userId, batchId, k);
    }
  }

  /** A file that is not storable (unknown task id, unreadable text) is skipped,
      so fewer rows are stored than there are task files. */
  lemma {:induction false} UnstorableSkipped(files: seq<ArchiveEntry>, tasks: map<string, nat>, userId: nat,
                                             batchId: nat, k: nat)
    requires forall e :: e in files ==> IsTaskFileName(e.filename)
    requires k < |files| && !Storable(files[k], tasks)
    ensures |Stored(files, tasks, userId, batchId)| < |files|
  {
    var init := files[..|files| - 1];
    assert forall e :: e in init ==> e in files;
    if k < |files| - 1 {
      assert init[k] == files[k];
      UnstorableSkipped(init, tasks, userId, batchId, k);
    }
  }

  ghost predicate AllTaskFiles(files: seq<ArchiveEntry>) {
    forall e :: e in files ==> IsTaskFileName(e.filename)
  }

  lemma SelectedAreTaskFiles(entries: seq<ArchiveEntry>)
    ensures AllTaskFiles(TaskFiles(entries))
  {
  }

  /** One more file visited stores at most that file's submission. */
  lemma StoredStep(files: seq<ArchiveEntry>, i: nat, tasks: map<string, nat>, userId: nat, batchId: nat)
    requires AllTaskFiles(files) && i < |files|
    ensures AllTaskFiles(files[..i]) && AllTaskFiles(files[..i + 1])
    ensures IsTaskFileName(files[i].filename)
    ensures Stored(files[..i + 1], tasks, userId, batchId) ==
      Stored(files[..i], tasks, userId, batchId) +
      (match StoreFor(files[i], tasks, userId, batchId) case None => [] case Some(s) => [s])
  {
    assert files[i] in files;
    forall e | e in files[..i + 1] ensures e in files {
      var k :| 0 <= k < i + 1 && files[..i + 1][k] == e;
      assert files[k] == e;
    }
    assert files[..i + 1][..i] == files[..i];
  }

  /** `calculate_code_score(code, "python")["score"]`: the UTF-8 length. */
  method PythonScore(code: string) returns (score: nat)
    ensures score == Utf8Length(code)
  {
    var scoreInfo := CodeGolfScoring.CalculateCodeScore(code, "python");
    score := scoreInfo.score;
  }

  /** The loop of `process_zip_file` over the selected files: a file whose task id
      names no problem, or whose text cannot be read, is skipped; every other file
      is stored as a "completed" python submission scored by its UTF-8 length. */
  method StoreTaskFiles(taskFiles: seq<ArchiveEntry>, tasks: map<string, nat>, userId: nat, batchId: nat)
    returns (stored: seq<StoredSubmission>, processed: nat, totalScore: nat)
    requires AllTaskFiles(taskFiles)
    ensures stored == Stored(taskFiles, tasks, userId, batchId)
    ensures processed == |stored| && totalScore == SumLengths(stored)
  {
    stored, processed, totalScore := [], 0, 0;
    var i := 0;
    assert taskFiles[..0] == [];
    while i < |taskFiles|
      invariant 0 <= i <= |taskFiles|
      invariant AllTaskFiles(taskFiles[..i])
      invariant stored == Stored(taskFiles[..i], tasks, userId, batchId)
      invariant processed == |stored| && totalScore == SumLengths(stored)
    {
      StoredStep(taskFiles, i, tasks, userId, batchId);
      var file := taskFiles[i];
      var taskId := ExtractTaskId(file.filename);
      if taskId !in tasks {
        i := i + 1;
        continue;
      }
      if file.content.Failure? {
        i := i + 1;
        continue;
      }
      var codeLength := PythonScore(file.content.value);
      var submission := StoredSubmission(userId, tasks[taskId], batchId, "python", file.content.value,
                                         codeLength, Records.Completed);
      assert (stored + [submission])[..|stored|] == stored;
      stored := stored + [submission];
      totalScore := totalScore + codeLength;
      processed := processed + 1;
      i := i + 1;
    }
    assert taskFiles[..i] == taskFiles;
  }

  /** `process_zip_file`. `archive` is the extracted archive, or the message of the
      exception raised saving or extracting it; `tasks` maps task ids to problem
      ids. Returns the submissions stored. */
  method ProcessZipFile(batch: BatchSubmission?, archive: Result<seq<ArchiveEntry>, string>,
                        tasks: map<string, nat>)
    returns (stored: seq<StoredSubmission>)
    modifies batch
    ensures batch == null ==> stored == []
    ensures batch != null && archive.Failure? ==>
      && stored == []
      && batch.status == Failed && batch.errorMessage == Some(archive.error)
      && batch.totalProblems == old(batch.totalProblems)
      && batch.processedProblems == old(batch.processedProblems)
      && batch.totalScore == old(batch.totalScore)
    ensures batch != null && archive.Success? ==>
      var files := TaskFiles(archive.value);
      && stored == Stored(files, tasks, batch.userId, batch.id)
      && batch.totalProblems == |files|
      && batch.processedProblems == |stored| == CountStorable(files, tasks)
      && batch.processedProblems <= batch.totalProblems
      && batch.totalScore == SumLengths(stored)
      && batch.status == Completed
      && batch.errorMessage == old(batch.errorMessage)
  {
    stored := [];
    if batch == null {
      return;
    }
    if archive.Failure? {
      batch.status := Failed;
      batch.errorMessage := Some(archive.error);
      return;
    }
    var taskFiles := SelectTaskFiles(archive.value);
    SelectedAreTaskFiles(archive.value);
    batch.totalProblems := |taskFiles|;
    var processed, totalScore;
    stored, processed, totalScore := StoreTaskFiles(taskFiles, tasks, batch.userId, batch.id);
    StoredCount(taskFiles, tasks, batch.userId, batch.id);
    batch.processedProblems := processed;
    batch.totalScore := totalScore;
    batch.status := Completed;
  }
}
