/** Upload of a batch of invoice files, after `InvoiceUploadClient.tsx`: the acceptance
    rules of the file field, one `Pending` record per file, then every file read and
    sent to extraction one after another, its record and its progress entry updated.
    Reading a file and the extraction service are not modelled; what they answer for
    each file, and the fresh id and clock readings, come in as a `FileRun`. */
module InvoiceUpload {
  import opened Wrappers
  import opened InvoiceTypes
  import opened InvoiceStore

  const MaxFileSize: nat := 5 * 1024 * 1024
  const AllowedFileTypes: seq<string> := ["application/pdf", "image/jpeg", "image/png", "image/webp"]

  const NoFileMessage := "At least one file is required."
  const FileSizeMessage := "Max file size is 5MB."
  const FileTypeMessage := "Only .pdf, .jpg, .png, .webp files are accepted."

  /** What the browser reports of a chosen file. */
  datatype File = File(name: string, size: nat, mimeType: string)

  datatype Validation = Accepted | Rejected(message: string)

  /** The file field's schema: non-empty, then every size, then every type; a rejection
      carries the message of the first check that fails. */
  function ValidateFiles(files: seq<File>): (v: Validation)
    ensures v == Accepted <==>
      && |files| > 0
      && forall i :: 0 <= i < |files| ==>
           files[i].size <= 5242880
           && files[i].mimeType in {"application/pdf", "image/jpeg", "image/png", "image/webp"}
    ensures |files| == 0 ==> v == Rejected(NoFileMessage)
    ensures |files| > 0 && (forall i :: 0 <= i < |files| ==> files[i].size <= MaxFileSize) && v != Accepted ==>
      v == Rejected(FileTypeMessage)
  {
    if |files| == 0 then Rejected(NoFileMessage)
    else if !(forall i :: 0 <= i < |files| ==> files[i].size <= MaxFileSize) then Rejected(FileSizeMessage)
    else if !(forall i :: 0 <= i < |files| ==> files[i].mimeType in AllowedFileTypes) then Rejected(FileTypeMessage)
    else Accepted
  }

  /** A batch is accepted exactly when each of its files would be accepted alone. */
  lemma {:induction false} ValidateEachFile(files: seq<File>)
    requires |files| > 0
    ensures ValidateFiles(files) == Accepted <==> forall i :: 0 <= i < |files| ==> ValidateFiles([files[i]]) == Accepted
  {
    if ValidateFiles(files) != Accepted {
      var i :| 0 <= i < |files| && !(files[i].size <= MaxFileSize && files[i].mimeType in AllowedFileTypes);
      assert [files[i]][0] == files[i];
      assert ValidateFiles([files[i]]) != Accepted;
    } else {
      forall i | 0 <= i < |files| ensures ValidateFiles([files[i]]) == Accepted {
        assert [files[i]][0] == files[i];
      }
    }
  }

  /** An oversized file is reported as such, whatever the types in the batch. */
  lemma OversizeReportedFirst(files: seq<File>, i: nat)
    requires i < |files| && files[i].size > MaxFileSize
    ensures ValidateFiles(files) == Rejected(FileSizeMessage)
  {
  }

  /** What reading a file into a data URI answered. */
  datatype ReadOutcome = ReadOk(dataUri: string) | ReadFailed

  /** What the extraction service answered: the data, or the text of its error. */
  datatype ExtractOutcome = Extracted(data: ExtractedData) | ExtractFailed(reason: string)

  /** Everything the environment supplies for one file of a batch: its fresh id, the clock
      at the add and at the final write, and the answers of the read and the extraction
      (the latter is consulted only when the read succeeded). */
  datatype FileRun = FileRun(id: string, addedAt: string, finishedAt: string, read: ReadOutcome, extraction: ExtractOutcome)

  const ReadFailedMessage := "Failed to read file."
  const AiFailedPrefix := "AI processing failed. "
  const AiFailedNotice := "AI processing failed."

  predicate DistinctIds(runs: seq<FileRun>) {
    forall i, j :: 0 <= i < j < |runs| ==> runs[i].id != runs[j].id
  }

  /** The record added for a file before any file is processed. */
  function PendingRecord(file: File, run: FileRun): (r: StoredInvoice)
    ensures r.id == run.id && r.fileName == file.name && r.uploadDate == run.addedAt
    ensures r.status == Pending && r.extractedData.None? && r.errorMessage.None?
    ensures WellFormed(r)
  {
    StoredInvoice(run.id, file.name, run.addedAt, Pending, None, None)
  }

  /** The record written once a file has been processed. */
  function FinalRecord(file: File, run: FileRun): (r: StoredInvoice)
    ensures r.id == run.id && r.fileName == file.name && r.uploadDate == run.finishedAt
    ensures WellFormed(r) && (r.status == Completed || r.status == Error)
    ensures run.read.ReadFailed? ==> r.status == Error && r.errorMessage == Some(ReadFailedMessage)
    ensures run.read.ReadOk? && run.extraction.Extracted? ==>
      r.status == Completed && r.extractedData == Some(run.extraction.data) && r.errorMessage.None?
    ensures run.read.ReadOk? && run.extraction.ExtractFailed? ==>
      r.status == Error && r.extractedData.None? && r.errorMessage == Some(AiFailedPrefix + run.extraction.reason)
  {
    match run.read
    case ReadFailed =>
      StoredInvoice(run.id, file.name, run.finishedAt, Error, None, Some(ReadFailedMessage))
    case ReadOk(_) =>
      match run.extraction
      case Extracted(data) =>
        StoredInvoice(run.id, file.name, run.finishedAt, Completed, Some(data), None)
      case ExtractFailed(reason) =>
        StoredInvoice(run.id, file.name, run.finishedAt, Error, None, Some(AiFailedPrefix + reason))
  }

  function PendingRecords(files: seq<File>, runs: seq<FileRun>): seq<StoredInvoice>
    requires |runs| == |files|
  {
    seq(|files|, k requires 0 <= k < |files| => PendingRecord(files[k], runs[k]))
  }

  function FinalRecords(files: seq<File>, runs: seq<FileRun>): seq<StoredInvoice>
    requires |runs| == |files|
  {
    seq(|files|, k requires 0 <= k < |files| => FinalRecord(files[k], runs[k]))
  }

  /** The batch after its first `done` files have been processed. */
  function PartlyDone(files: seq<File>, runs: seq<FileRun>, done: nat): seq<StoredInvoice>
    requires |runs| == |files|
  {
    seq(|files|, k requires 0 <= k < |files| =>
      if k < done then FinalRecord(files[k], runs[k]) else PendingRecord(files[k], runs[k]))
  }

  /** What adding the records one after another leaves in front of the store: each is
      put before the previous ones, so the batch comes out reversed. */
  function Stacked(recs: seq<StoredInvoice>): (r: seq<StoredInvoice>)
    ensures |r| == |recs|
  {
    if |recs| == 0 then [] else [recs[|recs| - 1]] + Stacked(recs[..|recs| - 1])
  }

  /** The stack holds the batch in reverse: position k holds the k-th record from the end. */
  lemma {:induction false} StackedAt(recs: seq<StoredInvoice>)
    ensures forall k :: 0 <= k < |recs| ==> Stacked(recs)[k] == recs[|recs| - 1 - k]
  {
    if |recs| > 0 {
      var front := recs[..|recs| - 1];
      StackedAt(front);
      forall k | 0 < k < |recs| ensures Stacked(recs)[k] == recs[|recs| - 1 - k] {
        assert Stacked(recs)[k] == Stacked(front)[k - 1];
      }
    }
  }

  lemma StackedPush(recs: seq<StoredInvoice>, x: StoredInvoice)
    ensures Stacked(recs + [x]) == [x] + Stacked(recs)
  {
    assert (recs + [x])[..|recs|] == recs;
  }

  /** Adding file i's pending record in front of the stack of the first i extends the
      stack to the first i + 1. */
  lemma PendingPush(files: seq<File>, runs: seq<FileRun>, i: nat)
    requires |runs| == |files| && i < |files|
    ensures [PendingRecord(files[i], runs[i])] + Stacked(PendingRecords(files, runs)[..i])
         == Stacked(PendingRecords(files, runs)[..i + 1])
  {
    var pending := PendingRecords(files, runs);
    assert pending[..i + 1] == pending[..i] + [PendingRecord(files[i], runs[i])];
    StackedPush(pending[..i], PendingRecord(files[i], runs[i]));
  }

  /** Processing file `i` of a batch whose records sit, stacked, in front of the store
      overwrites that file's own record and nothing else: the batch's ids are distinct
      and the batch's records come before any older record with the same id. */
  lemma ProcessStep(files: seq<File>, runs: seq<FileRun>, i: nat, older: seq<StoredInvoice>)
    requires |runs| == |files| && DistinctIds(runs) && i < |files|
    ensures Replaced(Stacked(PartlyDone(files, runs, i)) + older, FinalRecord(files[i], runs[i]))
         == Stacked(PartlyDone(files, runs, i + 1)) + older
  {
    var n := |files|;
    var m := PartlyDone(files, runs, i);
    var x := FinalRecord(files[i], runs[i]);
    var p := n - 1 - i;
    var before := Stacked(m) + older;
    StackedAt(m);
    assert before[p] == m[i];
    forall j | 0 <= j < p ensures before[j].id != x.id {
      assert before[j] == m[n - 1 - j];
    }
    ReplacedAt(before, p, x);
    assert before[p := x] == Stacked(m)[p := x] + older;
    PartlyDoneStep(files, runs, i);
    StackedUpdate(m, i, x);
  }

  /** Processing file `i` changes the batch at position `i` only. */
  lemma PartlyDoneStep(files: seq<File>, runs: seq<FileRun>, i: nat)
    requires |runs| == |files| && i < |files|
    ensures PartlyDone(files, runs, i + 1) == PartlyDone(files, runs, i)[i := FinalRecord(files[i], runs[i])]
  {
  }

  /** Changing one record of a batch changes the mirrored position of its stack. */
  lemma StackedUpdate(recs: seq<StoredInvoice>, i: nat, x: StoredInvoice)
    requires i < |recs|
    ensures Stacked(recs[i := x]) == Stacked(recs)[|recs| - 1 - i := x]
  {
    var a := Stacked(recs[i := x]);
    var b := Stacked(recs)[|recs| - 1 - i := x];
    StackedAt(recs);
    StackedAt(recs[i := x]);
    forall k | 0 <= k < |recs| ensures a[k] == b[k] {
    }
  }

  /** With ids fresh for a consistent store, a processed batch leaves it consistent, and
      every new record ends `Completed` with data or `Error` with a message. */
  lemma BatchKeepsConsistent(files: seq<File>, runs: seq<FileRun>, older: seq<StoredInvoice>)
    requires |runs| == |files| && DistinctIds(runs)
    requires Consistent(older)
    requires forall i :: 0 <= i < |runs| ==> !HasId(older, runs[i].id)
    ensures Consistent(Stacked(FinalRecords(files, runs)) + older)
    ensures forall k :: 0 <= k < |files| ==>
      var r := (Stacked(FinalRecords(files, runs)) + older)[k];
      (r.status == Completed && r.extractedData.Some?) || (r.status == Error && r.errorMessage.Some? && r.extractedData.None?)
  {
    var n := |files|;
    var s := Stacked(FinalRecords(files, runs)) + older;
    StackedAt(FinalRecords(files, runs));
    forall k | 0 <= k < n ensures s[k] == FinalRecord(files[n - 1 - k], runs[n - 1 - k]) {
    }
    forall i, j | 0 <= i < j < |s| ensures s[i].id != s[j].id {
      if j < n {
        assert s[i].id == runs[n - 1 - i].id && s[j].id == runs[n - 1 - j].id;
      } else if i < n {
        assert s[j] == older[j - n];
        assert s[i].id == runs[n - 1 - i].id;
      } else {
        assert s[i] == older[i - n] && s[j] == older[j - n];
      }
    }
    forall k | 0 <= k < |s| ensures WellFormed(s[k]) {
      if k >= n {
        assert s[k] == older[k - n];
      }
    }
  }

  /** Three files, the second failing extraction: three records, newest first, the
      middle one in `Error` and the other two `Completed`. */
  lemma SecondOfThreeFails(files: seq<File>, runs: seq<FileRun>)
    requires |files| == 3 && |runs| == 3
    requires forall i :: 0 <= i < 3 ==> runs[i].read.ReadOk?
    requires runs[0].extraction.Extracted? && runs[2].extraction.Extracted?
    requires runs[1].extraction.ExtractFailed?
    ensures |Stacked(FinalRecords(files, runs))| == 3
    ensures var s := Stacked(FinalRecords(files, runs));
      && s[0].id == runs[2].id && s[1].id == runs[1].id && s[2].id == runs[0].id
      && s[0].status == Completed && s[1].status == Error && s[2].status == Completed
  {
    var s := Stacked(FinalRecords(files, runs));
    StackedAt(FinalRecords(files, runs));
    assert s[0] == FinalRecord(files[2], runs[2]);
    assert s[1] == FinalRecord(files[1], runs[1]);
    assert s[2] == FinalRecord(files[0], runs[0]);
  }

  /** The phases of a file's entry in the progress list. */
  datatype Phase = FilePending | FileUploading | FileProcessing | FileCompleted | FileError

  datatype FileStatus = FileStatus(id: string, name: string, phase: Phase, progress: nat, message: Option<string>)

  /** One update of a progress entry. */
  datatype Step = BeginUpload | BeginExtraction | Finish | Fail(message: string)

  /** One update of a progress entry: id and name stay, only a failure sets the message,
      and the progress is at 100 exactly in the two final phases. */
  function Advance(fs: FileStatus, step: Step): (r: FileStatus)
    ensures r.id == fs.id && r.name == fs.name
    ensures step.Fail? ==> r.phase == FileError && r.message == Some(step.message)
    ensures !step.Fail? ==> r.message == fs.message
    ensures r.progress == 100 <==> r.phase == FileCompleted || r.phase == FileError
  {
    match step
    case BeginUpload => fs.(phase := FileUploading, progress := 25)
    case BeginExtraction => fs.(phase := FileProcessing, progress := 50)
    case Finish => fs.(phase := FileCompleted, progress := 100)
    case Fail(m) => fs.(phase := FileError, message := Some(m), progress := 100)
  }

  function AdvanceSteps(fs: FileStatus, steps: seq<Step>): (r: FileStatus)
    ensures r.id == fs.id && r.name == fs.name
    decreases |steps|
  {
    if |steps| == 0 then fs else AdvanceSteps(Advance(fs, steps[0]), steps[1..])
  }

  /** Every entry with the given id takes the step; the others stay as they are. */
  function AdvanceFile(statuses: seq<FileStatus>, id: string, step: Step): (r: seq<FileStatus>)
    ensures |r| == |statuses|
    ensures forall i :: 0 <= i < |r| ==> r[i].id == statuses[i].id && r[i].name == statuses[i].name
    ensures forall i :: 0 <= i < |r| && statuses[i].id != id ==> r[i] == statuses[i]
    ensures forall i :: 0 <= i < |r| && statuses[i].id == id ==> r[i] == Advance(statuses[i], step)
  {
    seq(|statuses|, i requires 0 <= i < |statuses| =>
      if statuses[i].id == id then Advance(statuses[i], step) else statuses[i])
  }

  /** The updates a file's entry receives while the file is processed. */
  function StepsFor(run: FileRun): seq<Step> {
    match run.read
    case ReadFailed => [BeginUpload, Fail(ReadFailedMessage)]
    case ReadOk(_) =>
      match run.extraction
      case Extracted(_) => [BeginUpload, BeginExtraction, Finish]
      case ExtractFailed(_) => [BeginUpload, BeginExtraction, Fail(AiFailedNotice)]
  }

  function InitialStatus(file: File, run: FileRun): (r: FileStatus)
    ensures r.id == run.id && r.name == file.name
    ensures r.phase == FilePending && r.progress == 0 && r.message.None?
  {
    FileStatus(run.id, file.name, FilePending, 0, None)
  }

  function InitialStatuses(files: seq<File>, runs: seq<FileRun>): seq<FileStatus>
    requires |runs| == |files|
  {
    seq(|files|, k requires 0 <= k < |files| => InitialStatus(files[k], runs[k]))
  }

  function FinalStatus(file: File, run: FileRun): FileStatus {
    AdvanceSteps(InitialStatus(file, run), StepsFor(run))
  }

  function FinalStatuses(files: seq<File>, runs: seq<FileRun>): seq<FileStatus>
    requires |runs| == |files|
  {
    seq(|files|, k requires 0 <= k < |files| => FinalStatus(files[k], runs[k]))
  }

  /** The entry after each step, starting with the entry itself. */
  function Trace(fs: FileStatus, steps: seq<Step>): (t: seq<FileStatus>)
    ensures |t| == |steps| + 1 && t[0] == fs
    ensures t[|steps|] == AdvanceSteps(fs, steps)
    decreases |steps|
  {
    if |steps| == 0 then [fs] else [fs] + Trace(Advance(fs, steps[0]), steps[1..])
  }

  /** The moves the progress list allows: pending, uploading, processing, then completed
      or error; a failed read goes from uploading straight to error. */
  predicate LegalMove(a: FileStatus, b: FileStatus) {
    && a.progress < b.progress
    && match (a.phase, b.phase)
       case (FilePending, FileUploading) => true
       case (FileUploading, FileProcessing) => true
       case (FileUploading, FileError) => true
       case (FileProcessing, FileCompleted) => true
       case (FileProcessing, FileError) => true
       case _ => false
  }

  /** A file's entry goes from pending at 0 through uploading at 25 (and, once read,
      processing at 50) to completed or error at 100, each step a legal move with strictly
      growing progress, and ends as `FinalStatus` says. */
  lemma StatusLifecycle(file: File, run: FileRun)
    ensures var t := Trace(InitialStatus(file, run), StepsFor(run));
      && t[0].phase == FilePending && t[0].progress == 0
      && t[1].phase == FileUploading && t[1].progress == 25
      && (run.read.ReadOk? ==> t[2].phase == FileProcessing && t[2].progress == 50)
      && t[|t| - 1] == FinalStatus(file, run)
      && t[|t| - 1].progress == 100
      && (forall k :: 0 <= k < |t| - 1 ==> LegalMove(t[k], t[k + 1]))
    ensures var f := FinalStatus(file, run);
      && (run.read.ReadFailed? ==> f.phase == FileError && f.message == Some(ReadFailedMessage))
      && (run.read.ReadOk? && run.extraction.Extracted? ==> f.phase == FileCompleted && f.message.None?)
      && (run.read.ReadOk? && run.extraction.ExtractFailed? ==> f.phase == FileError && f.message == Some(AiFailedNotice))
  {
    var s0 := InitialStatus(file, run);
    var steps := StepsFor(run);
    var t := Trace(s0, steps);
    var s1 := Advance(s0, steps[0]);
    assert t[1..] == Trace(s1, steps[1..]);
    var s2 := Advance(s1, steps[1]);
    assert t[2..] == Trace(s2, steps[2..]);
    assert t[1] == s1 && t[2] == s2;
    if |steps| == 3 {
      assert t[3] == Advance(s2, steps[2]);
    }
  }

  /** The progress list after a file has been processed: the entries carrying the file's
      id have taken all the file's steps, the others are as they were. */
  function AfterProcessing(statuses: seq<FileStatus>, run: FileRun): (r: seq<FileStatus>)
    ensures |r| == |statuses|
  {
    seq(|statuses|, k requires 0 <= k < |statuses| =>
      if statuses[k].id == run.id then AdvanceSteps(statuses[k], StepsFor(run)) else statuses[k])
  }

  /** The progress list after the first `done` files of a batch have been processed. */
  function StatusesPartlyDone(files: seq<File>, runs: seq<FileRun>, done: nat): seq<FileStatus>
    requires |runs| == |files|
  {
    seq(|files|, k requires 0 <= k < |files| =>
      if k < done then FinalStatus(files[k], runs[k]) else InitialStatus(files[k], runs[k]))
  }

  /** Before any file is processed the batch is all pending; after the last, all final. */
  lemma PartlyDoneEnds(files: seq<File>, runs: seq<FileRun>)
    requires |runs| == |files|
    ensures PartlyDone(files, runs, 0) == PendingRecords(files, runs)
    ensures PartlyDone(files, runs, |files|) == FinalRecords(files, runs)
    ensures StatusesPartlyDone(files, runs, 0) == InitialStatuses(files, runs)
    ensures StatusesPartlyDone(files, runs, |files|) == FinalStatuses(files, runs)
  {
  }

  /** Processing file `i` moves only that file's progress entry, to its final state. */
  lemma StatusStep(files: seq<File>, runs: seq<FileRun>, i: nat)
    requires |runs| == |files| && DistinctIds(runs) && i < |files|
    ensures AfterProcessing(StatusesPartlyDone(files, runs, i), runs[i]) == StatusesPartlyDone(files, runs, i + 1)
  {
    var prev := StatusesPartlyDone(files, runs, i);
    var next := AfterProcessing(prev, runs[i]);
    forall k | 0 <= k < |files| ensures next[k] == StatusesPartlyDone(files, runs, i + 1)[k] {
      assert prev[k].id == runs[k].id;
      if k != i {
        assert runs[k].id != runs[i].id;
      }
    }
  }

  /** The upload form: its progress list and the store it writes to. */
  class UploadClient {
    var fileStatuses: seq<FileStatus>
    var submitting: bool
    const store: Store

    constructor (store: Store)
      ensures this.store == store && fileStatuses == [] && !submitting
    {
      this.store := store;
      fileStatuses := [];
      submitting := false;
    }

    /** `processFile`: read, extract, write the outcome over the file's record, and move
        the file's progress entry through its steps. */
    method ProcessFile(file: File, run: FileRun)
      modifies this`fileStatuses, store
      ensures store.Contents() == Replaced(old(store.Contents()), FinalRecord(file, run))
      ensures fileStatuses == AfterProcessing(old(fileStatuses), run)
      ensures submitting == old(submitting)
    {
      ghost var before := fileStatuses;
      fileStatuses := AdvanceFile(fileStatuses, run.id, BeginUpload);
      match run.read {
        case ReadFailed =>
          store.UpdateInvoice(StoredInvoice(run.id, file.name, run.finishedAt, Error, None, Some(ReadFailedMessage)));
          fileStatuses := AdvanceFile(fileStatuses, run.id, Fail(ReadFailedMessage));
        case ReadOk(dataUri) =>
          fileStatuses := AdvanceFile(fileStatuses, run.id, BeginExtraction);
          match run.extraction {
            case Extracted(data) =>
              store.UpdateInvoice(StoredInvoice(run.id, file.name, run.finishedAt, Completed, Some(data), None));
              fileStatuses := AdvanceFile(fileStatuses, run.id, Finish);
            case ExtractFailed(reason) =>
              store.UpdateInvoice(StoredInvoice(run.id, file.name, run.finishedAt, Error, None, Some(AiFailedPrefix + reason)));
              fileStatuses := AdvanceFile(fileStatuses, run.id, Fail(AiFailedNotice));
          }
      }
      forall i | 0 <= i < |fileStatuses| && before[i].id == run.id
        ensures fileStatuses[i] == AdvanceSteps(before[i], StepsFor(run))
      {
        var steps := StepsFor(run);
        var a1 := Advance(before[i], steps[0]);
        var a2 := Advance(a1, steps[1]);
        assert AdvanceSteps(before[i], steps) == AdvanceSteps(a1, steps[1..]);
        assert AdvanceSteps(a1, steps[1..]) == AdvanceSteps(a2, steps[2..]);
        if |steps| == 3 {
          assert AdvanceSteps(a2, steps[2..]) == AdvanceSteps(Advance(a2, steps[2]), steps[3..]);
        }
      }
      assert fileStatuses == AfterProcessing(before, run);
    }

    /** The first half of `onSubmit`: one `Pending` record added per file, in the order
        the files were chosen, and the initial progress list. */
    method AddPendingRecords(files: seq<File>, runs: seq<FileRun>) returns (initial: seq<FileStatus>)
      requires |runs| == |files|
      modifies store
      ensures store.Contents() == Stacked(PendingRecords(files, runs)) + old(store.Contents())
      ensures initial == InitialStatuses(files, runs)
    {
      ghost var pending := PendingRecords(files, runs);
      ghost var older := store.Contents();
      var i := 0;
      while i < |files|
        invariant 0 <= i <= |files|
        invariant store.Contents() == Stacked(pending[..i]) + older
      {
        store.AddInvoice(PendingRecord(files[i], runs[i]));
        PendingPush(files, runs, i);
        i := i + 1;
      }
      assert pending[..i] == pending;
      initial := InitialStatuses(files, runs);
    }

    /** One turn of `onSubmit`'s processing loop: file `i` is processed, which turns its
        own pending record and progress entry into their final forms and nothing else. */
    method ProcessNext(files: seq<File>, runs: seq<FileRun>, i: nat, ghost older: seq<StoredInvoice>)
      requires |runs| == |files| && DistinctIds(runs) && i < |files|
      requires store.Contents() == Stacked(PartlyDone(files, runs, i)) + older
      requires fileStatuses == StatusesPartlyDone(files, runs, i)
      modifies this`fileStatuses, store
      ensures store.Contents() == Stacked(PartlyDone(files, runs, i + 1)) + older
      ensures fileStatuses == StatusesPartlyDone(files, runs, i + 1)
      ensures submitting == old(submitting)
    {
      ProcessStep(files, runs, i, older);
      StatusStep(files, runs, i);
      ProcessFile(files[i], runs[i]);
    }

    /** The second half of `onSubmit`: process the files one at a time in the order they
        were chosen; a failing file does not stop the others. */
    method ProcessBatch(files: seq<File>, runs: seq<FileRun>, ghost older: seq<StoredInvoice>)
      requires |runs| == |files| && DistinctIds(runs)
      requires store.Contents() == Stacked(PendingRecords(files, runs)) + older
      requires fileStatuses == InitialStatuses(files, runs)
      modifies this`fileStatuses, store
      ensures store.Contents() == Stacked(FinalRecords(files, runs)) + older
      ensures fileStatuses == FinalStatuses(files, runs)
      ensures submitting == old(submitting)
    {
      PartlyDoneEnds(files, runs);
      var i := 0;
      while i < |files|
        invariant 0 <= i <= |files|
        invariant store.Contents() == Stacked(PartlyDone(files, runs, i)) + older
        invariant fileStatuses == StatusesPartlyDone(files, runs, i)
      {
        ProcessNext(files, runs, i, older);
        i := i + 1;
      }
    }

    /** `onSubmit`: add a `Pending` record per file, then process the files; the store
        ends with the batch's final records in front of the records it held before. */
    method OnSubmit(files: seq<File>, runs: seq<FileRun>)
      requires |runs| == |files| && DistinctIds(runs)
      modifies this, store
      ensures store.Contents() == Stacked(FinalRecords(files, runs)) + old(store.Contents())
      ensures fileStatuses == FinalStatuses(files, runs)
      ensures !submitting
    {
      submitting := true;
      var initial := AddPendingRecords(files, runs);
      fileStatuses := initial;
      ProcessBatch(files, runs, old(store.Contents()));
      submitting := false;
    }

    /** The form's submit: the batch is checked first and, when rejected, nothing is
        added, read or extracted. */
    method HandleSubmit(files: seq<File>, runs: seq<FileRun>) returns (v: Validation)
      requires |runs| == |files| && DistinctIds(runs)
      modifies this, store
      ensures v == ValidateFiles(files)
      ensures v.Rejected? ==> store.slot == old(store.slot) && fileStatuses == old(fileStatuses) && submitting == old(submitting)
      ensures v.Accepted? ==> store.Contents() == Stacked(FinalRecords(files, runs)) + old(store.Contents())
      ensures v.Accepted? ==> fileStatuses == FinalStatuses(files, runs) && !submitting
    {
      v := ValidateFiles(files);
      if v.Accepted? {
        OnSubmit(files, runs);
      }
    }
  }
}
